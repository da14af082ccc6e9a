/** Scheme values as the string primitives of LispKit see them, the errors those
    primitives raise, and the argument conversions they rely on. */
module Values {

  /** A UTF-16 code unit: every string operation indexes strings by these units. */
  type UniChar = c: int | 0 <= c < 0x1_0000

  /** The unit for the space character, the default fill of `make-string`. */
  const Space: UniChar := 0x20

  /** Swift's `Int.max` on a 64-bit platform. */
  const IntMax: int := 0x7FFF_FFFF_FFFF_FFFF

  /** The Scheme values the string library touches; every other kind of value
      is represented by `Symbol`, which no conversion accepts. */
  datatype Expr =
    | Null
    | Pair(car: Expr, cdr: Expr)
    | Bool(b: bool)
    | Fixnum(n: int)
    | Char(unit: UniChar)
    | Str(units: seq<UniChar>)
    | Symbol(name: string)
    | Void

  /** The type names a type error can report. */
  datatype TypeKind = StrType | CharType | IntType | ProperListType

  /** Errors raised by the string primitives and by the conversions they call. */
  datatype LibError =
    | TypeError(value: Expr, expected: TypeKind)
    | RangeError(value: Expr, min: int, max: int)
    | IndexOutOfBounds(index: int, max: int, value: Expr)
    | ArgumentCountError(formals: int, args: Expr)

  datatype Result<+T> = Success(value: T) | Failure(error: LibError) {
    predicate IsFailure() { Failure? }
    function PropagateFailure<U>(): Result<U> requires Failure? { Failure(error) }
    function Extract(): T requires Success? { value }
  }

  datatype Option<+T> = None | Some(value: T)

  // ---------------------------------------------------------------------------
  // Scheme lists

  /** `Expr.makeList`: the proper list holding `xs` in order. */
  function ListOf(xs: seq<Expr>): Expr
    decreases |xs|
  {
    if xs == [] then Null else Pair(xs[0], ListOf(xs[1..]))
  }

  /** The cars along the pair chain starting at `e`. */
  function Elements(e: Expr): seq<Expr>
  {
    if e.Pair? then [e.car] + Elements(e.cdr) else []
  }

  /** The first value on the pair chain of `e` that is not a pair. */
  function Tail(e: Expr): Expr
  {
    if e.Pair? then Tail(e.cdr) else e
  }

  predicate IsProperList(e: Expr) { Tail(e) == Null }

  /** A list built by `ListOf` is proper and gives back its elements. */
  lemma {:induction false} ElementsOfListOf(xs: seq<Expr>)
    ensures Elements(ListOf(xs)) == xs && Tail(ListOf(xs)) == Null
    decreases |xs|
  {
    if xs != [] {
      ElementsOfListOf(xs[1..]);
    }
  }

  /** A proper list is rebuilt exactly from its elements. */
  lemma {:induction false} ListOfElements(e: Expr)
    requires IsProperList(e)
    ensures ListOf(Elements(e)) == e
  {
    if e.Pair? {
      ListOfElements(e.cdr);
      assert Elements(e)[1..] == Elements(e.cdr);
    }
  }

  /** The Scheme characters for a run of code units. */
  function CharList(us: seq<UniChar>): seq<Expr>
  {
    seq(|us|, i requires 0 <= i < |us| => Char(us[i]))
  }

  // ---------------------------------------------------------------------------
  // Conversions defined outside the string library, by the contract it relies on

  /** `asString()`: the units of a string value. */
  function AsString(e: Expr): Result<seq<UniChar>>
  {
    if e.Str? then Success(e.units) else Failure(TypeError(e, StrType))
  }

  /** `asUniChar()`: the unit of a character value. */
  function AsUniChar(e: Expr): Result<UniChar>
  {
    if e.Char? then Success(e.unit) else Failure(TypeError(e, CharType))
  }

  /** `asInt(below: n)`: accepts exactly the fixnums 0 .. n-1. */
  function AsIntBelow(e: Expr, n: int): Result<int>
  {
    if !e.Fixnum? then Failure(TypeError(e, IntType))
    else if 0 <= e.n < n then Success(e.n)
    else Failure(RangeError(e, 0, n - 1))
  }

  /** `asInt()`: the same contract with the bound `Int.max`. */
  function AsInt(e: Expr): Result<int>
  {
    AsIntBelow(e, IntMax)
  }

  /** `Arguments.optional(d0, d1)`: up to two optional arguments, with defaults;
      `None` when more than two are given. */
  function Optional2(args: seq<Expr>, d0: Expr, d1: Expr): Option<(Expr, Expr)>
  {
    if |args| == 0 then Some((d0, d1))
    else if |args| == 1 then Some((args[0], d1))
    else if |args| == 2 then Some((args[0], args[1]))
    else None
  }

  /** Applies a conversion to each value in order; the first failure wins. */
  function MapResult<T>(xs: seq<Expr>, f: Expr -> Result<T>): (r: Result<seq<T>>)
    ensures r.Success? ==> |r.value| == |xs|
    decreases |xs|
  {
    if xs == [] then Success([])
    else
      var init :- MapResult(xs[..|xs| - 1], f);
      var last :- f(xs[|xs| - 1]);
      Success(init + [last])
  }

  /** A conversion that succeeds on every element yields one value per element. */
  lemma {:induction false} MapResultAt<T>(xs: seq<Expr>, f: Expr -> Result<T>, i: int)
    requires MapResult(xs, f).Success? && 0 <= i < |xs|
    ensures f(xs[i]).Success? && MapResult(xs, f).value[i] == f(xs[i]).value
    decreases |xs|
  {
    if i < |xs| - 1 {
      MapResultAt(xs[..|xs| - 1], f, i);
    }
  }

  /** MapResult succeeds exactly when the conversion succeeds on every element. */
  lemma {:induction false} MapResultAllSucceed<T>(xs: seq<Expr>, f: Expr -> Result<T>)
    ensures MapResult(xs, f).Success? <==> forall i :: 0 <= i < |xs| ==> f(xs[i]).Success?
    decreases |xs|
  {
    if xs != [] {
      var init := xs[..|xs| - 1];
      MapResultAllSucceed(init, f);
      assert forall i :: 0 <= i < |init| ==> init[i] == xs[i];
    }
  }

  /** Once a prefix fails, extending it keeps the same failure. */
  lemma {:induction false} MapResultFailurePersists<T>(xs: seq<Expr>, ys: seq<Expr>, f: Expr -> Result<T>)
    requires MapResult(xs, f).Failure?
    ensures MapResult(xs + ys, f) == MapResult(xs, f)
    decreases |ys|
  {
    if ys != [] {
      var init := ys[..|ys| - 1];
      assert (xs + ys)[..|xs + ys| - 1] == xs + init;
      MapResultFailurePersists(xs, init, f);
    } else {
      assert xs + ys == xs;
    }
  }

  /** Converts every element of a Scheme list in order, then insists that the
      list is proper: element errors come before the improper-tail error. */
  function ConvertList<T>(e: Expr, f: Expr -> Result<T>): Result<seq<T>>
  {
    var xs :- MapResult(Elements(e), f);
    if Tail(e) != Null then Failure(TypeError(e, ProperListType)) else Success(xs)
  }

  /** Converting one more element extends the converted prefix by its value. */
  lemma MapResultSnoc<T>(xs: seq<Expr>, x: Expr, f: Expr -> Result<T>)
    requires MapResult(xs, f).Success? && f(x).Success?
    ensures MapResult(xs + [x], f) == Success(MapResult(xs, f).value + [f(x).value])
  {
    assert (xs + [x])[..|xs|] == xs;
  }
}
