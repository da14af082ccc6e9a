/** The mutating string primitives: `string-set!`, `string-fill!` and
    `string-copy!`. A mutable string is an object whose code units the
    primitives replace in place; each primitive either fails and leaves the
    string as it was, or succeeds, returns the void value and installs the
    new units given by a specification function. */
module StringMutation {
  import opened Values
  import StringLibrary

  /** The units after replacing the unit at index k by c. */
  function ReplaceUnit(u: seq<UniChar>, k: nat, c: UniChar): (r: seq<UniChar>)
    requires k < |u|
    ensures |r| == |u| && r[k] == c
    ensures forall i :: 0 <= i < |u| && i != k ==> r[i] == u[i]
  {
    u[..k] + [c] + u[k + 1..]
  }

  /** The units after setting every unit of [start, end) to c. */
  function FillRange(u: seq<UniChar>, start: nat, end: nat, c: UniChar): (r: seq<UniChar>)
    requires start <= end <= |u|
    ensures |r| == |u|
    ensures forall i :: start <= i < end ==> r[i] == c
    ensures forall i :: 0 <= i < |u| && !(start <= i < end) ==> r[i] == u[i]
  {
    u[..start] + seq(end - start, _ => c) + u[end..]
  }

  /** The units after inserting `piece` in front of index `at`. */
  function InsertUnits(t: seq<UniChar>, at: nat, piece: seq<UniChar>): (r: seq<UniChar>)
    requires at <= |t|
    ensures |r| == |t| + |piece|
    ensures r[..at] == t[..at]
    ensures r[at..at + |piece|] == piece
    ensures r[at + |piece|..] == t[at..]
  {
    t[..at] + piece + t[at..]
  }

  function StringSetSpec(u: seq<UniChar>, index: Expr, ch: Expr): Result<seq<UniChar>>
  {
    var k :- AsIntBelow(index, |u|);
    var c :- AsUniChar(ch);
    Success(ReplaceUnit(u, k, c))
  }

  function StringFillSpec(u: seq<UniChar>, ch: Expr, args: seq<Expr>): Result<seq<UniChar>>
  {
    var bounds := Optional2(args, Fixnum(0), Fixnum(|u|));
    if bounds.None? then Failure(StringLibrary.OptionalArgsError(Str(u), args))
    else
      var end :- AsIntBelow(bounds.value.1, |u| + 1);
      var start :- AsIntBelow(bounds.value.0, end + 1);
      if start < end then
        var c :- AsUniChar(ch);
        Success(FillRange(u, start, end, c))
      else
        Success(u)
  }

  function StringInsertSpec(t: seq<UniChar>, index: Expr, from: Expr, args: seq<Expr>): Result<seq<UniChar>>
  {
    var str :- AsString(from);
    var bounds := Optional2(args, Fixnum(0), Fixnum(|str|));
    if bounds.None? then Failure(StringLibrary.OptionalArgsError(Str(t), args))
    else
      var end :- AsIntBelow(bounds.value.1, |str| + 1);
      var start :- AsIntBelow(bounds.value.0, end + 1);
      var at :- AsIntBelow(index, |t| + 1);
      Success(InsertUnits(t, at, str[start..end]))
  }

  /** What a mutating primitive returns for a given outcome. */
  function VoidOr(res: Result<seq<UniChar>>): Result<Expr>
  {
    if res.Success? then Success(Void) else Failure(res.error)
  }

  /** The units a mutable string holds after a given outcome. */
  function After(before: seq<UniChar>, res: Result<seq<UniChar>>): seq<UniChar>
  {
    if res.Success? then res.value else before
  }

  /** A mutable string (an `NSMutableString`). */
  class MutableString {
    var units: seq<UniChar>

    constructor (init: seq<UniChar>)
      ensures units == init
    {
      units := init;
    }

    /** `string-set! str k ch` */
    method StringSet(index: Expr, ch: Expr) returns (r: Result<Expr>)
      modifies this
      ensures r == VoidOr(StringSetSpec(old(units), index, ch))
      ensures units == After(old(units), StringSetSpec(old(units), index, ch))
    {
      var k := AsIntBelow(index, |units|);
      if k.Failure? {
        return Failure(k.error);
      }
      var c := AsUniChar(ch);
      if c.Failure? {
        return Failure(c.error);
      }
      units := units[..k.value] + [c.value] + units[k.value + 1..];
      return Success(Void);
    }

    /** `string-fill! str ch [start [end]]`: the character is converted only
        when the range is not empty. */
    method StringFill(ch: Expr, args: seq<Expr>) returns (r: Result<Expr>)
      modifies this
      ensures r == VoidOr(StringFillSpec(old(units), ch, args))
      ensures units == After(old(units), StringFillSpec(old(units), ch, args))
    {
      var bounds := Optional2(args, Fixnum(0), Fixnum(|units|));
      if bounds.None? {
        return Failure(StringLibrary.OptionalArgsError(Str(units), args));
      }
      var end := AsIntBelow(bounds.value.1, |units| + 1);
      if end.Failure? {
        return Failure(end.error);
      }
      var start := AsIntBelow(bounds.value.0, end.value + 1);
      if start.Failure? {
        return Failure(start.error);
      }
      if start.value < end.value {
        var c := AsUniChar(ch);
        if c.Failure? {
          return Failure(c.error);
        }
        units := units[..start.value] + seq(end.value - start.value, _ => c.value) + units[end.value..];
      }
      return Success(Void);
    }

    /** `string-copy! to at from [start [end]]`: inserts the units of
        `from[start..end]` in front of index `at`; nothing is overwritten. */
    method StringInsert(index: Expr, from: Expr, args: seq<Expr>) returns (r: Result<Expr>)
      modifies this
      ensures r == VoidOr(StringInsertSpec(old(units), index, from, args))
      ensures units == After(old(units), StringInsertSpec(old(units), index, from, args))
    {
      var str := AsString(from);
      if str.Failure? {
        return Failure(str.error);
      }
      var bounds := Optional2(args, Fixnum(0), Fixnum(|str.value|));
      if bounds.None? {
        return Failure(StringLibrary.OptionalArgsError(Str(units), args));
      }
      var end := AsIntBelow(bounds.value.1, |str.value| + 1);
      if end.Failure? {
        return Failure(end.error);
      }
      var start := AsIntBelow(bounds.value.0, end.value + 1);
      if start.Failure? {
        return Failure(start.error);
      }
      var uniChars := StringLibrary.CopyUnits(str.value, start.value, end.value);
      var at := AsIntBelow(index, |units| + 1);
      if at.Failure? {
        return Failure(at.error);
      }
      units := units[..at.value] + uniChars + units[at.value..];
      return Success(Void);
    }
  }

  // ---------------------------------------------------------------------------
  // Properties of the specifications

  /** `string-set!` succeeds exactly on an index below the length and a
      character (so never on the empty string); `string-ref` then reads back
      that character, and every other index reads what it read before. */
  lemma StringSetThenRef(u: seq<UniChar>, index: Expr, ch: Expr, j: nat)
    requires |u| < IntMax
    ensures StringSetSpec(u, index, ch).Success? <==>
      index.Fixnum? && 0 <= index.n < |u| && ch.Char?
    ensures j < |u| && StringSetSpec(u, index, ch).Success? ==>
      var v := StringSetSpec(u, index, ch).value;
      StringLibrary.StringRef(Str(v), Fixnum(j))
        == if j == index.n then Success(Char(ch.unit)) else StringLibrary.StringRef(Str(u), Fixnum(j))
  {
  }

  /** Filling a range twice with the same character is filling it once. */
  lemma {:induction false} FillRangeIdempotent(u: seq<UniChar>, start: nat, end: nat, c: UniChar)
    requires start <= end <= |u|
    ensures FillRange(FillRange(u, start, end, c), start, end, c) == FillRange(u, start, end, c)
  {
    var once := FillRange(u, start, end, c);
    var twice := FillRange(once, start, end, c);
    assert forall i :: 0 <= i < |u| ==> twice[i] == once[i];
  }

  /** An empty range leaves the string unchanged, even when the fill value is
      not a character. */
  lemma StringFillEmptyRange(u: seq<UniChar>, ch: Expr, k: nat)
    requires k <= |u|
    ensures StringFillSpec(u, ch, [Fixnum(k), Fixnum(k)]) == Success(u)
  {
  }

  /** `string-fill!` without bounds turns the string into what `make-string`
      of its length and the character builds. */
  lemma StringFillWhole(u: seq<UniChar>, c: UniChar)
    requires |u| < IntMax
    ensures StringFillSpec(u, Char(c), []) == Success(StringLibrary.MakeString(Fixnum(|u|), Some(Char(c))).value.units)
  {
    var made := StringLibrary.MakeString(Fixnum(|u|), Some(Char(c))).value.units;
    if |u| > 0 {
      assert StringFillSpec(u, Char(c), []) == Success(FillRange(u, 0, |u|, c));
      assert FillRange(u, 0, |u|, c) == made;
    } else {
      assert made == [];
    }
  }

  /** After `string-copy!` the inserted units are read back by `substring`
      at the insertion point, and the length grew by the size of the range. */
  lemma StringInsertThenSubstring(t: seq<UniChar>, at: nat, f: seq<UniChar>, start: nat, end: nat)
    requires at <= |t| && start <= end <= |f|
    ensures StringInsertSpec(t, Fixnum(at), Str(f), [Fixnum(start), Fixnum(end)]).Success?
    ensures var v := StringInsertSpec(t, Fixnum(at), Str(f), [Fixnum(start), Fixnum(end)]).value;
      |v| == |t| + (end - start) &&
      StringLibrary.SubstringSpec(Str(v), Fixnum(at), Fixnum(at + end - start)) == Success(Str(f[start..end]))
  {
  }

  /** `string-copy!` of a whole string at the end of the target appends it:
      the new target is what `string-append` of the two builds. */
  lemma StringInsertAtEndIsAppend(t: seq<UniChar>, f: seq<UniChar>)
    ensures StringInsertSpec(t, Fixnum(|t|), Str(f), []).Success?
    ensures StringLibrary.StringAppendSpec([Str(t), Str(f)])
      == Success(Str(StringInsertSpec(t, Fixnum(|t|), Str(f), []).value))
  {
    assert f[0..|f|] == f;
    assert InsertUnits(t, |t|, f) == t + f by {
      assert t[..|t|] == t && t[|t|..] == [];
    }
    StringLibrary.StringAppendTwo(t, f);
  }

  /** `string-copy!` inserts rather than overwrites: whatever bounds are given
      or defaulted, the target grows by exactly the size of the copied range,
      so a non-empty range always makes it longer. */
  lemma StringInsertGrows(t: seq<UniChar>, index: Expr, from: Expr, args: seq<Expr>)
    requires StringInsertSpec(t, index, from, args).Success?
    ensures |StringInsertSpec(t, index, from, args).value| >= |t|
    ensures from.Str? &&
      var b := Optional2(args, Fixnum(0), Fixnum(|from.units|)).value;
      b.0.Fixnum? && b.1.Fixnum? &&
      |StringInsertSpec(t, index, from, args).value| == |t| + (b.1.n - b.0.n)
    ensures var b := Optional2(args, Fixnum(0), Fixnum(|from.units|)).value;
      b.0.n < b.1.n ==> |StringInsertSpec(t, index, from, args).value| > |t|
  {
  }
}
