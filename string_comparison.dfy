/** The string comparison procedures `string=?`, `string<?`, `string>?`,
    `string<=?` and `string>=?`. Swift compares strings by Unicode canonical
    ordering; here that ordering is a parameter: `eq` stands for Swift's `==`
    and `lt` for Swift's `<` on strings. The other three operators are
    Swift's `Comparable` defaults: `a <= b` is `!(b < a)`, `a > b` is
    `b < a` and `a >= b` is `!(a < b)`. */
module StringComparison {
  import opened Values

  type Order = (seq<UniChar>, seq<UniChar>) -> bool

  /** The four ordering operators a comparison chain can use. */
  datatype Relation = Lt | Le | Gt | Ge

  function Holds(rel: Relation, lt: Order, a: seq<UniChar>, b: seq<UniChar>): bool
  {
    match rel
    case Lt => lt(a, b)
    case Le => !lt(b, a)
    case Gt => lt(b, a)
    case Ge => !lt(a, b)
  }

  ghost predicate Equivalence(eq: Order)
  {
    && (forall a :: eq(a, a))
    && (forall a, b :: eq(a, b) ==> eq(b, a))
    && (forall a, b, c :: eq(a, b) && eq(b, c) ==> eq(a, c))
  }

  ghost predicate Transitive(lt: Order)
  {
    forall a, b, c :: lt(a, b) && lt(b, c) ==> lt(a, c)
  }

  /** `lt` is a strict total order whose incomparable pairs are exactly the
      pairs `eq` relates. */
  ghost predicate StrictTotalOrder(lt: Order, eq: Order)
  {
    && Equivalence(eq)
    && Transitive(lt)
    && (forall a, b :: (lt(a, b) || eq(a, b) || lt(b, a)))
    && (forall a, b :: lt(a, b) ==> !eq(a, b) && !lt(b, a))
  }

  /** The units of arguments known to be strings. */
  function UnitsOf(args: seq<Expr>): seq<seq<UniChar>>
    requires forall i :: 0 <= i < |args| ==> args[i].Str?
  {
    seq(|args|, i requires 0 <= i < |args| => args[i].units)
  }

  /** Every adjacent pair of `xs` is related by `rel`. */
  predicate AdjacentHold(rel: Relation, lt: Order, xs: seq<seq<UniChar>>)
  {
    forall i :: 0 <= i < |xs| - 1 ==> Holds(rel, lt, xs[i], xs[i + 1])
  }

  // ---------------------------------------------------------------------------
  // string=?

  /** Compares `str` with each argument in turn; an argument is converted only
      when every earlier one compared equal. */
  function EqualsAll(eq: Order, str: seq<UniChar>, args: seq<Expr>): Result<bool>
    decreases |args|
  {
    if args == [] then Success(true)
    else
      var next :- AsString(args[0]);
      if eq(str, next) then EqualsAll(eq, str, args[1..]) else Success(false)
  }

  function StringEqualsSpec(expr: Expr, args: seq<Expr>, eq: Order): Result<Expr>
  {
    var str :- AsString(expr);
    var b :- EqualsAll(eq, str, args);
    Success(Bool(b))
  }

  /** `string=? str1 str2 ...`: every argument is compared with the first. */
  method StringEquals(expr: Expr, args: seq<Expr>, eq: Order) returns (r: Result<Expr>)
    ensures r == StringEqualsSpec(expr, args, eq)
  {
    var s := AsString(expr);
    if s.Failure? {
      return Failure(s.error);
    }
    var str := s.value;
    for i := 0 to |args|
      invariant EqualsAll(eq, str, args) == EqualsAll(eq, str, args[i..])
    {
      assert args[i..][1..] == args[i + 1..];
      var next := AsString(args[i]);
      if next.Failure? {
        return Failure(next.error);
      }
      if !eq(str, next.value) {
        return Success(Bool(false));
      }
    }
    return Success(Bool(true));
  }

  /** On string arguments, `string=?` holds iff each argument equals the first. */
  lemma {:induction false} StringEqualsMeaning(expr: Expr, args: seq<Expr>, eq: Order)
    requires expr.Str? && forall i :: 0 <= i < |args| ==> args[i].Str?
    ensures StringEqualsSpec(expr, args, eq)
      == Success(Bool(forall i :: 0 <= i < |args| ==> eq(expr.units, args[i].units)))
    decreases |args|
  {
    if args != [] {
      StringEqualsMeaning(expr, args[1..], eq);
      assert forall i :: 0 <= i < |args| - 1 ==> args[1..][i] == args[i + 1];
    }
  }

  /** Under an equivalence, all strings equal the first exactly when every
      adjacent pair is equal: `string=?` is the adjacent-pair chain too. */
  lemma EqualToFirstIffAdjacent(eq: Order, all: seq<seq<UniChar>>)
    requires Equivalence(eq) && |all| > 0
    ensures (forall i :: 0 < i < |all| ==> eq(all[0], all[i]))
        <==> (forall i :: 0 <= i < |all| - 1 ==> eq(all[i], all[i + 1]))
  {
    if forall i :: 0 <= i < |all| - 1 ==> eq(all[i], all[i + 1]) {
      EqualToFirst(eq, all, |all| - 1);
    }
    if forall i :: 0 < i < |all| ==> eq(all[0], all[i]) {
      forall i | 0 <= i < |all| - 1
        ensures eq(all[i], all[i + 1])
      {
        if i > 0 {
          assert eq(all[0], all[i]) && eq(all[i], all[0]);
          assert eq(all[0], all[i + 1]);
        }
      }
    }
  }

  /** Under an equivalence, a chain of adjacent equal strings is all equal to
      its first element. */
  lemma {:induction false} EqualToFirst(eq: Order, all: seq<seq<UniChar>>, j: nat)
    requires Equivalence(eq) && j < |all|
    requires forall i :: 0 <= i < |all| - 1 ==> eq(all[i], all[i + 1])
    ensures forall i :: 0 <= i <= j ==> eq(all[0], all[i])
  {
    if j > 0 {
      EqualToFirst(eq, all, j - 1);
      assert eq(all[0], all[j - 1]) && eq(all[j - 1], all[j]);
    }
  }

  // ---------------------------------------------------------------------------
  // string<?, string<=?, string>?, string>=?

  /** Compares each argument with the previous one; an argument is converted
      only when every earlier pair compared as required. */
  function ChainFrom(rel: Relation, lt: Order, cur: seq<UniChar>, args: seq<Expr>): Result<bool>
    decreases |args|
  {
    if args == [] then Success(true)
    else
      var next :- AsString(args[0]);
      if Holds(rel, lt, cur, next) then ChainFrom(rel, lt, next, args[1..]) else Success(false)
  }

  function StringCompareSpec(rel: Relation, expr: Expr, args: seq<Expr>, lt: Order): Result<Expr>
  {
    var str :- AsString(expr);
    var b :- ChainFrom(rel, lt, str, args);
    Success(Bool(b))
  }

  /** `stringLessThan`, `stringLessThanEquals`, `stringGreaterThan` and
      `stringGreaterThanEquals`: one loop over the arguments, differing only
      in the operator. */
  method StringCompare(rel: Relation, expr: Expr, args: seq<Expr>, lt: Order) returns (r: Result<Expr>)
    ensures r == StringCompareSpec(rel, expr, args, lt)
  {
    var s := AsString(expr);
    if s.Failure? {
      return Failure(s.error);
    }
    var str := s.value;
    for i := 0 to |args|
      invariant ChainFrom(rel, lt, s.value, args) == ChainFrom(rel, lt, str, args[i..])
    {
      assert args[i..][1..] == args[i + 1..];
      var next := AsString(args[i]);
      if next.Failure? {
        return Failure(next.error);
      }
      if !Holds(rel, lt, str, next.value) {
        return Success(Bool(false));
      }
      str := next.value;
    }
    return Success(Bool(true));
  }

  /** On string arguments, a comparison chain holds iff every adjacent pair,
      starting with the first string, is related by the operator. */
  lemma {:induction false} ChainMeaning(rel: Relation, lt: Order, first: seq<UniChar>, args: seq<Expr>)
    requires forall i :: 0 <= i < |args| ==> args[i].Str?
    ensures ChainFrom(rel, lt, first, args) == Success(AdjacentHold(rel, lt, [first] + UnitsOf(args)))
    decreases |args|
  {
    if args != [] {
      var rest := args[1..];
      ChainMeaning(rel, lt, args[0].units, rest);
      assert UnitsOf(args) == [args[0].units] + UnitsOf(rest);
      AdjacentHoldCons(rel, lt, first, UnitsOf(args));
      AdjacentHoldCons(rel, lt, args[0].units, UnitsOf(rest));
    }
  }

  lemma AdjacentHoldCons(rel: Relation, lt: Order, x: seq<UniChar>, xs: seq<seq<UniChar>>)
    ensures AdjacentHold(rel, lt, [x] + xs)
        <==> xs == [] || (Holds(rel, lt, x, xs[0]) && AdjacentHold(rel, lt, xs))
  {
    var all := [x] + xs;
    assert forall i :: 0 < i < |all| ==> all[i] == xs[i - 1];
    if xs != [] && Holds(rel, lt, x, xs[0]) && AdjacentHold(rel, lt, xs) {
      forall i | 0 <= i < |all| - 1
        ensures Holds(rel, lt, all[i], all[i + 1])
      {
        if i > 0 {
          assert Holds(rel, lt, xs[i - 1], xs[i]);
        }
      }
    }
    if AdjacentHold(rel, lt, all) && xs != [] {
      assert Holds(rel, lt, all[0], all[1]);
      forall i | 0 <= i < |xs| - 1
        ensures Holds(rel, lt, xs[i], xs[i + 1])
      {
        assert Holds(rel, lt, all[i + 1], all[i + 2]);
      }
    }
  }

  /** For a transitive order, a `string<?` chain that holds is strictly
      increasing between any two positions, not only adjacent ones. */
  lemma {:induction false} LessThanChainSorted(lt: Order, xs: seq<seq<UniChar>>, i: nat, j: nat)
    requires Transitive(lt) && AdjacentHold(Lt, lt, xs)
    requires i < j < |xs|
    ensures lt(xs[i], xs[j])
    decreases j - i
  {
    if i + 1 < j {
      LessThanChainSorted(lt, xs, i + 1, j);
      assert lt(xs[i], xs[i + 1]);
    }
  }

  /** A chain that fails stops there: later arguments are never converted,
      so a non-string after the failing pair causes no error. */
  lemma StringCompareShortCircuits(rel: Relation, lt: Order, a: seq<UniChar>, b: seq<UniChar>, rest: seq<Expr>)
    requires !Holds(rel, lt, a, b)
    ensures StringCompareSpec(rel, Str(a), [Str(b)] + rest, lt) == Success(Bool(false))
  {
  }

  // ---------------------------------------------------------------------------
  // The table binding Scheme names to these procedures

  datatype Procedure = EqualsProc | CompareProc(rel: Relation)

  /** The five comparison names of the library: `string=?`, `string<?`,
      `string>?`, `string<=?` and `string>=?`. */
  datatype Name = StringEqualP | StringLessP | StringGreaterP | StringLessEqualP | StringGreaterEqualP

  /** A procedure applied to two strings compares just those two. */
  lemma ApplyToTwo(p: Procedure, a: seq<UniChar>, b: seq<UniChar>, lt: Order, eq: Order)
    ensures Apply(p, Str(a), [Str(b)], lt, eq)
      == Success(Bool(if p.EqualsProc? then eq(a, b) else Holds(p.rel, lt, a, b)))
  {
    assert [Str(b)][1..] == [];
    if p.EqualsProc? {
      assert EqualsAll(eq, a, [Str(b)]) == Success(eq(a, b));
    } else {
      assert ChainFrom(p.rel, lt, a, [Str(b)]) == Success(Holds(p.rel, lt, a, b));
    }
  }

  /** Runs the procedure bound to a name. */
  function Apply(p: Procedure, expr: Expr, args: seq<Expr>, lt: Order, eq: Order): Result<Expr>
  {
    match p
    case EqualsProc => StringEqualsSpec(expr, args, eq)
    case CompareProc(rel) => StringCompareSpec(rel, expr, args, lt)
  }

  /** The registration as written: `string>?` is bound to the `<=` procedure
      and `string<=?` to the `>` procedure. */
  function RegisteredAsWritten(n: Name): Procedure
  {
    match n
    case StringEqualP => EqualsProc
    case StringLessP => CompareProc(Lt)
    case StringGreaterP => CompareProc(Le)
    case StringLessEqualP => CompareProc(Gt)
    case StringGreaterEqualP => CompareProc(Ge)
  }

  /** With the table as written, `(string>? a b)` answers `#t` and
      `(string<=? a b)` answers `#f` when a is strictly less than b. */
  lemma RegisteredAsWrittenSwapsOperators(a: seq<UniChar>, b: seq<UniChar>, lt: Order, eq: Order)
    requires StrictTotalOrder(lt, eq) && lt(a, b)
    ensures Apply(RegisteredAsWritten(StringGreaterP), Str(a), [Str(b)], lt, eq) == Success(Bool(true))
    ensures Apply(RegisteredAsWritten(StringLessEqualP), Str(a), [Str(b)], lt, eq) == Success(Bool(false))
  {
    assert !lt(b, a);
    ApplyToTwo(RegisteredAsWritten(StringGreaterP), a, b, lt, eq);
    ApplyToTwo(RegisteredAsWritten(StringLessEqualP), a, b, lt, eq);
  }

  /** The registration each name evidently intends. */
  function Registered(n: Name): Procedure
  {
    match n
    case StringEqualP => EqualsProc
    case StringLessP => CompareProc(Lt)
    case StringGreaterP => CompareProc(Gt)
    case StringLessEqualP => CompareProc(Le)
    case StringGreaterEqualP => CompareProc(Ge)
  }

  /** With the corrected table, every name answers on two strings what its
      name says about a strict total order: less, greater, less or equal,
      greater or equal, equal. */
  lemma RegisteredMeansItsName(a: seq<UniChar>, b: seq<UniChar>, lt: Order, eq: Order)
    requires StrictTotalOrder(lt, eq)
    ensures Apply(Registered(StringLessP), Str(a), [Str(b)], lt, eq) == Success(Bool(lt(a, b)))
    ensures Apply(Registered(StringGreaterP), Str(a), [Str(b)], lt, eq) == Success(Bool(lt(b, a)))
    ensures Apply(Registered(StringLessEqualP), Str(a), [Str(b)], lt, eq) == Success(Bool(lt(a, b) || eq(a, b)))
    ensures Apply(Registered(StringGreaterEqualP), Str(a), [Str(b)], lt, eq) == Success(Bool(lt(b, a) || eq(a, b)))
    ensures Apply(Registered(StringEqualP), Str(a), [Str(b)], lt, eq) == Success(Bool(eq(a, b)))
  {
    assert lt(a, b) || eq(a, b) || lt(b, a);
    assert eq(a, b) ==> !lt(a, b) && !lt(b, a) by {
      assert eq(a, b) ==> eq(b, a);
    }
    ApplyToTwo(Registered(StringLessP), a, b, lt, eq);
    ApplyToTwo(Registered(StringGreaterP), a, b, lt, eq);
    ApplyToTwo(Registered(StringLessEqualP), a, b, lt, eq);
    ApplyToTwo(Registered(StringGreaterEqualP), a, b, lt, eq);
    ApplyToTwo(Registered(StringEqualP), a, b, lt, eq);
  }
}
