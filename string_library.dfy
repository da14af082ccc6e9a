/** The non-mutating string primitives of LispKit's `(lispkit string)` library.
    A string is the sequence of its UTF-16 code units. Each primitive whose
    native code loops is a method proved against a specification function;
    the lemmas state what those functions mean. */
module StringLibrary {
  import opened Values

  // ---------------------------------------------------------------------------
  // string?, make-string, string-length, string-ref

  /** `string?` */
  function IsString(e: Expr): (r: Expr)
    ensures r.Bool? && (r.b <==> e.Str?)
  {
    Bool(e.Str?)
  }

  /** `make-string k [ch]`: the fill character (space by default) is converted
      before the count. */
  function MakeString(k: Expr, ch: Option<Expr>): (r: Result<Expr>)
    ensures r.Success? <==> (ch.None? || ch.value.Char?) && k.Fixnum? && 0 <= k.n < IntMax
    ensures ch.Some? && !ch.value.Char? ==> r == Failure(TypeError(ch.value, CharType))
    ensures r.Success? ==> r.value.Str? && |r.value.units| == k.n
    ensures r.Success? ==> forall i :: 0 <= i < k.n ==>
      r.value.units[i] == if ch.Some? then ch.value.unit else Space
  {
    var c :- if ch.Some? then AsUniChar(ch.value) else Success(Space);
    var n :- AsInt(k);
    Success(Str(seq(n, _ => c)))
  }

  /** `string-length`: the number of UTF-16 code units. */
  function StringLength(e: Expr): (r: Result<Expr>)
    ensures r.Success? <==> e.Str?
    ensures r.Success? ==> r.value == Fixnum(|e.units|)
  {
    var u :- AsString(e);
    Success(Fixnum(|u|))
  }

  /** `string-ref`: the unit at index k, or an out-of-bounds error naming
      the last valid index. */
  function StringRef(e: Expr, index: Expr): (r: Result<Expr>)
    ensures r.Success? <==> e.Str? && index.Fixnum? && 0 <= index.n < |e.units| && index.n < IntMax
    ensures r.Success? ==> r.value == Char(e.units[index.n])
    ensures e.Str? && index.Fixnum? && |e.units| <= index.n < IntMax ==>
      r == Failure(IndexOutOfBounds(index.n, |e.units| - 1, e))
  {
    var u :- AsString(e);
    var k :- AsInt(index);
    if k < |u| then Success(Char(u[k])) else Failure(IndexOutOfBounds(k, |u| - 1, e))
  }

  /** Every unit of a string made by `make-string` is the fill character. */
  lemma MakeStringRef(k: nat, c: UniChar, i: nat)
    requires i < k < IntMax
    ensures StringRef(MakeString(Fixnum(k), Some(Char(c))).value, Fixnum(i)) == Success(Char(c))
  {
  }

  // ---------------------------------------------------------------------------
  // string

  function StringOfCharsSpec(exprs: seq<Expr>): Result<Expr>
  {
    var us :- MapResult(exprs, AsUniChar);
    Success(Str(us))
  }

  /** `string ch ...`: the string of the given characters, in order. */
  method StringOfChars(exprs: seq<Expr>) returns (r: Result<Expr>)
    ensures r == StringOfCharsSpec(exprs)
  {
    var uniChars: seq<UniChar> := [];
    for i := 0 to |exprs|
      invariant MapResult(exprs[..i], AsUniChar) == Success(uniChars)
    {
      var c := AsUniChar(exprs[i]);
      assert exprs[..i + 1] == exprs[..i] + [exprs[i]];
      if c.Failure? {
        assert exprs == exprs[..i + 1] + exprs[i + 1..];
        MapResultFailurePersists(exprs[..i + 1], exprs[i + 1..], AsUniChar);
        return Failure(c.error);
      }
      MapResultSnoc(exprs[..i], exprs[i], AsUniChar);
      uniChars := uniChars + [c.value];
    }
    assert exprs[..|exprs|] == exprs;
    return Success(Str(uniChars));
  }

  /** `string` succeeds exactly when every argument is a character, and then
      holds those characters' units in argument order. */
  lemma StringOfCharsMeaning(exprs: seq<Expr>)
    ensures StringOfCharsSpec(exprs).Success? <==> forall i :: 0 <= i < |exprs| ==> exprs[i].Char?
    ensures StringOfCharsSpec(exprs).Success? ==>
      |StringOfCharsSpec(exprs).value.units| == |exprs| &&
      forall i :: 0 <= i < |exprs| ==> StringOfCharsSpec(exprs).value.units[i] == exprs[i].unit
  {
    MapResultAllSucceed(exprs, AsUniChar);
    if StringOfCharsSpec(exprs).Success? {
      forall i | 0 <= i < |exprs|
        ensures StringOfCharsSpec(exprs).value.units[i] == exprs[i].unit
      {
        MapResultAt(exprs, AsUniChar, i);
      }
    }
  }

  // ---------------------------------------------------------------------------
  // _string-list-length

  /** The least length in `ss`, starting from `Int.max`. */
  function MinLength(ss: seq<seq<UniChar>>): (m: int)
    ensures m <= IntMax
    ensures forall i :: 0 <= i < |ss| ==> m <= |ss[i]|
    decreases |ss|
  {
    if ss == [] then IntMax
    else
      var m := MinLength(ss[..|ss| - 1]);
      if |ss[|ss| - 1]| < m then |ss[|ss| - 1]| else m
  }

  /** MinLength is attained: it is `Int.max` or the length of one of the strings. */
  lemma {:induction false} MinLengthIsMinimum(ss: seq<seq<UniChar>>)
    ensures MinLength(ss) == IntMax || exists i :: 0 <= i < |ss| && MinLength(ss) == |ss[i]|
    decreases |ss|
  {
    if ss != [] {
      var init := ss[..|ss| - 1];
      MinLengthIsMinimum(init);
      assert forall i :: 0 <= i < |init| ==> init[i] == ss[i];
      if MinLength(ss) != IntMax && MinLength(ss) != |ss[|ss| - 1]| {
        var j :| 0 <= j < |init| && MinLength(init) == |init[j]|;
        assert MinLength(ss) == |ss[j]|;
      }
    }
  }

  function StringListLengthSpec(strings: Expr): Result<Expr>
  {
    var ss :- ConvertList(strings, AsString);
    Success(Fixnum(MinLength(ss)))
  }

  /** `_string-list-length`: the least length over a proper list of strings. */
  method StringListLength(strings: Expr) returns (r: Result<Expr>)
    ensures r == StringListLengthSpec(strings)
  {
    var n := IntMax;
    var list := strings;
    ghost var done: seq<Expr> := [];
    while list.Pair?
      invariant Elements(strings) == done + Elements(list)
      invariant Tail(list) == Tail(strings)
      invariant MapResult(done, AsString).Success?
      invariant n == MinLength(MapResult(done, AsString).value)
      decreases list
    {
      var str := AsString(list.car);
      assert Elements(strings) == (done + [list.car]) + Elements(list.cdr);
      if str.Failure? {
        MapResultFailurePersists(done + [list.car], Elements(list.cdr), AsString);
        return Failure(str.error);
      }
      MapResultSnoc(done, list.car, AsString);
      if |str.value| < n {
        n := |str.value|;
      }
      done := done + [list.car];
      list := list.cdr;
    }
    assert done == Elements(strings);
    if list != Null {
      return Failure(TypeError(strings, ProperListType));
    }
    return Success(Fixnum(n));
  }

  // ---------------------------------------------------------------------------
  // _string-list-ref

  /** Scans the strings left to right: a non-string fails, a string with no
      unit at index k decides `None` (`#f`); otherwise the k-th units in order. */
  function UnitsAt(k: int, xs: seq<Expr>): Result<Option<seq<Expr>>>
    requires 0 <= k
    decreases |xs|
  {
    if xs == [] then Success(Some([]))
    else
      var init :- UnitsAt(k, xs[..|xs| - 1]);
      if init.None? then Success(None)
      else
        var s :- AsString(xs[|xs| - 1]);
        if k < |s| then Success(Some(init.value + [Char(s[k])])) else Success(None)
  }

  /** Once the scan is decided (an error or `#f`), later strings do not matter. */
  lemma {:induction false} UnitsAtDecided(k: nat, xs: seq<Expr>, ys: seq<Expr>)
    requires !(UnitsAt(k, xs).Success? && UnitsAt(k, xs).value.Some?)
    ensures UnitsAt(k, xs + ys) == UnitsAt(k, xs)
    decreases |ys|
  {
    if ys == [] {
      assert xs + ys == xs;
    } else {
      var init := ys[..|ys| - 1];
      assert (xs + ys)[..|xs + ys| - 1] == xs + init;
      UnitsAtDecided(k, xs, init);
    }
  }

  function StringListRefSpec(index: Expr, strings: Expr): Result<Expr>
  {
    var k :- AsInt(index);
    var found :- UnitsAt(k, Elements(strings));
    if found.None? then Success(Bool(false))
    else if Tail(strings) != Null then Failure(TypeError(strings, ProperListType))
    else Success(ListOf(found.value))
  }

  /** `_string-list-ref`: the list of the k-th units of all strings, or `#f`
      as soon as one string is too short. */
  method StringListRef(index: Expr, strings: Expr) returns (r: Result<Expr>)
    ensures r == StringListRefSpec(index, strings)
  {
    var kr := AsInt(index);
    if kr.Failure? {
      return Failure(kr.error);
    }
    var k := kr.value;
    var res: seq<Expr> := [];
    var list := strings;
    ghost var done: seq<Expr> := [];
    while list.Pair?
      invariant Elements(strings) == done + Elements(list)
      invariant Tail(list) == Tail(strings)
      invariant UnitsAt(k, done) == Success(Some(res))
      decreases list
    {
      var str := AsString(list.car);
      assert Elements(strings) == (done + [list.car]) + Elements(list.cdr);
      assert (done + [list.car])[..|done|] == done;
      if str.Failure? {
        UnitsAtDecided(k, done + [list.car], Elements(list.cdr));
        return Failure(str.error);
      }
      if k >= |str.value| {
        UnitsAtDecided(k, done + [list.car], Elements(list.cdr));
        return Success(Bool(false));
      }
      res := res + [Char(str.value[k])];
      done := done + [list.car];
      list := list.cdr;
    }
    assert done == Elements(strings);
    if list != Null {
      return Failure(TypeError(strings, ProperListType));
    }
    return Success(ListOf(res));
  }

  /** The k-th unit of every string, as characters. */
  function KthUnits(ss: seq<seq<UniChar>>, k: nat): seq<Expr>
    requires forall i :: 0 <= i < |ss| ==> k < |ss[i]|
  {
    seq(|ss|, i requires 0 <= i < |ss| => Char(ss[i][k]))
  }

  /** On a proper list of strings, `UnitsAt` finds the k-th unit of every
      string exactly when all of them are longer than k. */
  lemma {:induction false} UnitsAtOfStrings(k: nat, xs: seq<Expr>)
    requires MapResult(xs, AsString).Success?
    ensures var ss := MapResult(xs, AsString).value;
      UnitsAt(k, xs) ==
        if forall i :: 0 <= i < |ss| ==> k < |ss[i]|
        then Success(Some(KthUnits(ss, k)))
        else Success(None)
    decreases |xs|
  {
    if xs != [] {
      var init := xs[..|xs| - 1];
      var ss := MapResult(xs, AsString).value;
      var si := MapResult(init, AsString).value;
      UnitsAtOfStrings(k, init);
      MapResultAt(xs, AsString, |xs| - 1);
      var last := xs[|xs| - 1].units;
      assert ss == si + [last];
      assert forall i :: 0 <= i < |si| ==> si[i] == ss[i];
      if forall i :: 0 <= i < |ss| ==> k < |ss[i]| {
        assert KthUnits(ss, k) == KthUnits(si, k) + [Char(last[k])];
      }
    } else {
      assert KthUnits([], k) == [];
    }
  }

  /** `_string-list-ref` returns a list exactly below `_string-list-length`:
      this is what `string-map` and `string-for-each` rely on. */
  lemma StringListRefBelowLength(strings: Expr, k: nat)
    requires StringListLengthSpec(strings).Success?
    requires k < IntMax
    ensures var m := StringListLengthSpec(strings).value.n;
      StringListRefSpec(Fixnum(k), strings).Success? &&
      (StringListRefSpec(Fixnum(k), strings).value.Bool? <==> m <= k)
    ensures var ss := ConvertList(strings, AsString).value;
      k < StringListLengthSpec(strings).value.n ==>
        StringListRefSpec(Fixnum(k), strings)
          == Success(ListOf(KthUnits(ss, k)))
  {
    var ss := ConvertList(strings, AsString).value;
    MinLengthIsMinimum(ss);
    UnitsAtOfStrings(k, Elements(strings));
  }

  /** `_string-list-ref` returns `#f` as soon as a string too short is reached,
      whatever follows it. */
  lemma {:induction false} StringListRefStopsEarly(k: nat, strings: Expr, j: nat)
    requires k < IntMax && j < |Elements(strings)|
    requires UnitsAt(k, Elements(strings)[..j]).Success? && UnitsAt(k, Elements(strings)[..j]).value.Some?
    requires Elements(strings)[j].Str? && |Elements(strings)[j].units| <= k
    ensures StringListRefSpec(Fixnum(k), strings) == Success(Bool(false))
  {
    var xs := Elements(strings);
    assert xs[..j + 1][..j] == xs[..j];
    assert xs == xs[..j + 1] + xs[j + 1..];
    UnitsAtDecided(k, xs[..j + 1], xs[j + 1..]);
  }

  // ---------------------------------------------------------------------------
  // string-append, string-concatenate

  /** The units of the strings, one after the other. */
  function Concat(ss: seq<seq<UniChar>>): seq<UniChar>
    decreases |ss|
  {
    if ss == [] then [] else Concat(ss[..|ss| - 1]) + ss[|ss| - 1]
  }

  function TotalLength(ss: seq<seq<UniChar>>): nat
    decreases |ss|
  {
    if ss == [] then 0 else TotalLength(ss[..|ss| - 1]) + |ss[|ss| - 1]|
  }

  lemma {:induction false} ConcatAppend(a: seq<seq<UniChar>>, b: seq<seq<UniChar>>)
    ensures Concat(a + b) == Concat(a) + Concat(b)
    ensures TotalLength(a + b) == TotalLength(a) + TotalLength(b)
    decreases |b|
  {
    if b == [] {
      assert a + b == a;
    } else {
      var init := b[..|b| - 1];
      assert (a + b)[..|a + b| - 1] == a + init;
      ConcatAppend(a, init);
    }
  }

  lemma {:induction false} ConcatLength(ss: seq<seq<UniChar>>)
    ensures |Concat(ss)| == TotalLength(ss)
    decreases |ss|
  {
    if ss != [] {
      ConcatLength(ss[..|ss| - 1]);
    }
  }

  /** The i-th string sits in the concatenation right after the strings
      before it: the concatenation keeps the inputs in order. */
  lemma ConcatInOrder(ss: seq<seq<UniChar>>, i: nat)
    requires i < |ss|
    ensures var off := TotalLength(ss[..i]);
      off + |ss[i]| <= |Concat(ss)| && Concat(ss)[off..off + |ss[i]|] == ss[i]
  {
    assert ss == ss[..i] + [ss[i]] + ss[i + 1..];
    ConcatAppend(ss[..i] + [ss[i]], ss[i + 1..]);
    ConcatAppend(ss[..i], [ss[i]]);
    assert Concat([ss[i]]) == ss[i] by {
      var none: seq<seq<UniChar>> := [];
      assert [ss[i]][..0] == none;
    }
    ConcatLength(ss[..i]);
  }

  function StringAppendSpec(exprs: seq<Expr>): Result<Expr>
  {
    var ss :- MapResult(exprs, AsString);
    Success(Str(Concat(ss)))
  }

  /** `string-append str ...` */
  method StringAppend(exprs: seq<Expr>) returns (r: Result<Expr>)
    ensures r == StringAppendSpec(exprs)
  {
    var str: seq<UniChar> := [];
    ghost var ss: seq<seq<UniChar>> := [];
    for i := 0 to |exprs|
      invariant MapResult(exprs[..i], AsString) == Success(ss)
      invariant str == Concat(ss)
    {
      var s := AsString(exprs[i]);
      assert exprs[..i + 1] == exprs[..i] + [exprs[i]];
      if s.Failure? {
        assert exprs == exprs[..i + 1] + exprs[i + 1..];
        MapResultFailurePersists(exprs[..i + 1], exprs[i + 1..], AsString);
        return Failure(s.error);
      }
      MapResultSnoc(exprs[..i], exprs[i], AsString);
      assert (ss + [s.value])[..|ss|] == ss;
      str := str + s.value;
      ss := ss + [s.value];
    }
    assert exprs[..|exprs|] == exprs;
    return Success(Str(str));
  }

  function StringConcatenateSpec(list: Expr): Result<Expr>
  {
    var ss :- ConvertList(list, AsString);
    Success(Str(Concat(ss)))
  }

  /** `string-concatenate list` */
  method StringConcatenate(expr: Expr) returns (r: Result<Expr>)
    ensures r == StringConcatenateSpec(expr)
  {
    var res: seq<UniChar> := [];
    var list := expr;
    ghost var done: seq<Expr> := [];
    while list.Pair?
      invariant Elements(expr) == done + Elements(list)
      invariant Tail(list) == Tail(expr)
      invariant MapResult(done, AsString).Success?
      invariant res == Concat(MapResult(done, AsString).value)
      decreases list
    {
      var str := AsString(list.car);
      assert Elements(expr) == (done + [list.car]) + Elements(list.cdr);
      if str.Failure? {
        MapResultFailurePersists(done + [list.car], Elements(list.cdr), AsString);
        return Failure(str.error);
      }
      MapResultSnoc(done, list.car, AsString);
      ghost var ss := MapResult(done, AsString).value;
      assert (ss + [str.value])[..|ss|] == ss;
      res := res + str.value;
      done := done + [list.car];
      list := list.cdr;
    }
    assert done == Elements(expr);
    if list != Null {
      return Failure(TypeError(expr, ProperListType));
    }
    return Success(Str(res));
  }

  /** `string-append` of some strings is `string-concatenate` of their list,
      and its length is the sum of their lengths. */
  lemma StringAppendIsConcatenate(exprs: seq<Expr>)
    ensures StringAppendSpec(exprs) == StringConcatenateSpec(ListOf(exprs))
    ensures StringAppendSpec(exprs).Success? ==>
      |StringAppendSpec(exprs).value.units| == TotalLength(MapResult(exprs, AsString).value)
  {
    ElementsOfListOf(exprs);
    if StringAppendSpec(exprs).Success? {
      ConcatLength(MapResult(exprs, AsString).value);
    }
  }

  /** `string-append` of two strings is their concatenation. */
  lemma StringAppendTwo(a: seq<UniChar>, b: seq<UniChar>)
    ensures StringAppendSpec([Str(a), Str(b)]) == Success(Str(a + b))
  {
    var xs := [Str(a), Str(b)];
    assert xs[..1] == [Str(a)];
    assert MapResult([Str(a)], AsString) == Success([a]) by {
      assert [Str(a)][..0] == [];
      var none: seq<seq<UniChar>> := [];
      assert none + [a] == [a];
    }
    assert MapResult(xs, AsString) == Success([a] + [b]);
    var ss := [a, b];
    assert ss[..1] == [a];
    assert Concat([a]) == a by {
      var none: seq<seq<UniChar>> := [];
      assert [a][..0] == none;
    }
  }

  // ---------------------------------------------------------------------------
  // substring, string-copy

  /** The `for` loop that copies the units of a range. */
  method CopyUnits(u: seq<UniChar>, start: nat, end: nat) returns (r: seq<UniChar>)
    requires start <= end <= |u|
    ensures r == u[start..end]
  {
    r := [];
    for i := start to end
      invariant r == u[start..i]
    {
      r := r + [u[i]];
    }
  }

  function SubstringSpec(e: Expr, s: Expr, t: Expr): (r: Result<Expr>)
    ensures r.Success? <==> e.Str? && s.Fixnum? && t.Fixnum? && 0 <= s.n <= t.n <= |e.units|
    ensures r.Success? ==> r.value == Str(e.units[s.n..t.n])
  {
    var u :- AsString(e);
    var end :- AsIntBelow(t, |u| + 1);
    var start :- AsIntBelow(s, end + 1);
    Success(Str(u[start..end]))
  }

  /** `substring str start end`; the whole range returns a copy at once. */
  method Substring(e: Expr, s: Expr, t: Expr) returns (r: Result<Expr>)
    ensures r == SubstringSpec(e, s, t)
  {
    var u := AsString(e);
    if u.Failure? {
      return Failure(u.error);
    }
    var str := u.value;
    var end := AsIntBelow(t, |str| + 1);
    if end.Failure? {
      return Failure(end.error);
    }
    var start := AsIntBelow(s, end.value + 1);
    if start.Failure? {
      return Failure(start.error);
    }
    if start.value == 0 && end.value == |str| {
      assert str[0..|str|] == str;
      return Success(Str(str));
    }
    var uniChars := CopyUnits(str, start.value, end.value);
    return Success(Str(uniChars));
  }

  /** The error `Arguments.optional` failures are reported with. */
  function OptionalArgsError(e: Expr, args: seq<Expr>): LibError
  {
    ArgumentCountError(2, Pair(e, ListOf(args)))
  }

  function StringCopySpec(e: Expr, args: seq<Expr>): Result<Expr>
  {
    var u :- AsString(e);
    var bounds := Optional2(args, Fixnum(0), Fixnum(|u|));
    if bounds.None? then Failure(OptionalArgsError(e, args))
    else
      var end :- AsIntBelow(bounds.value.1, |u| + 1);
      var start :- AsIntBelow(bounds.value.0, end + 1);
      Success(Str(u[start..end]))
  }

  /** `string-copy str [start [end]]`; the whole range returns a copy at once. */
  method StringCopy(e: Expr, args: seq<Expr>) returns (r: Result<Expr>)
    ensures r == StringCopySpec(e, args)
  {
    var u := AsString(e);
    if u.Failure? {
      return Failure(u.error);
    }
    var str := u.value;
    var bounds := Optional2(args, Fixnum(0), Fixnum(|str|));
    if bounds.None? {
      return Failure(OptionalArgsError(e, args));
    }
    var end := AsIntBelow(bounds.value.1, |str| + 1);
    if end.Failure? {
      return Failure(end.error);
    }
    var start := AsIntBelow(bounds.value.0, end.value + 1);
    if start.Failure? {
      return Failure(start.error);
    }
    if start.value == 0 && end.value == |str| {
      assert str[0..|str|] == str;
      return Success(Str(str));
    }
    var uniChars := CopyUnits(str, start.value, end.value);
    return Success(Str(uniChars));
  }

  /** `string-copy` with both bounds is `substring`; with none it returns a
      string equal to its argument; more than two bounds is an argument-count
      error. */
  lemma StringCopyMeaning(e: Expr, args: seq<Expr>)
    ensures |args| == 2 ==> StringCopySpec(e, args) == SubstringSpec(e, args[0], args[1])
    ensures |args| == 1 && e.Str? ==> StringCopySpec(e, args) == SubstringSpec(e, args[0], Fixnum(|e.units|))
    ensures e.Str? && args == [] ==> StringCopySpec(e, args) == Success(e)
    ensures e.Str? && |args| > 2 ==> StringCopySpec(e, args) == Failure(OptionalArgsError(e, args))
  {
    if e.Str? {
      assert e.units[0..|e.units|] == e.units;
    }
  }

  // ---------------------------------------------------------------------------
  // string->list, list->string

  function StringToListSpec(e: Expr, args: seq<Expr>): Result<Expr>
  {
    var u :- AsString(e);
    var bounds := Optional2(args, Fixnum(0), Fixnum(|u|));
    if bounds.None? then Failure(OptionalArgsError(e, args))
    else
      var end :- AsIntBelow(bounds.value.1, |u| + 1);
      var start :- AsIntBelow(bounds.value.0, end + 1);
      Success(ListOf(CharList(u[start..end])))
  }

  /** `string->list str [start [end]]`: builds the list from the end backwards. */
  method StringToList(e: Expr, args: seq<Expr>) returns (r: Result<Expr>)
    ensures r == StringToListSpec(e, args)
  {
    var u := AsString(e);
    if u.Failure? {
      return Failure(u.error);
    }
    var str := u.value;
    var bounds := Optional2(args, Fixnum(0), Fixnum(|str|));
    if bounds.None? {
      return Failure(OptionalArgsError(e, args));
    }
    var er := AsIntBelow(bounds.value.1, |str| + 1);
    if er.Failure? {
      return Failure(er.error);
    }
    var end := er.value;
    var sr := AsIntBelow(bounds.value.0, end + 1);
    if sr.Failure? {
      return Failure(sr.error);
    }
    var start := sr.value;
    ghost var stop := end;
    var res := Null;
    while end > start
      invariant start <= end <= stop
      invariant res == ListOf(CharList(str[end..stop]))
    {
      end := end - 1;
      assert CharList(str[end..stop])[1..] == CharList(str[end + 1..stop]);
      res := Pair(Char(str[end]), res);
    }
    return Success(res);
  }

  function ListToStringSpec(list: Expr): Result<Expr>
  {
    var us :- ConvertList(list, AsUniChar);
    Success(Str(us))
  }

  /** `list->string list` */
  method ListToString(expr: Expr) returns (r: Result<Expr>)
    ensures r == ListToStringSpec(expr)
  {
    var list := expr;
    var uniChars: seq<UniChar> := [];
    ghost var done: seq<Expr> := [];
    while list.Pair?
      invariant Elements(expr) == done + Elements(list)
      invariant Tail(list) == Tail(expr)
      invariant MapResult(done, AsUniChar) == Success(uniChars)
      decreases list
    {
      var ch := AsUniChar(list.car);
      assert Elements(expr) == (done + [list.car]) + Elements(list.cdr);
      if ch.Failure? {
        MapResultFailurePersists(done + [list.car], Elements(list.cdr), AsUniChar);
        return Failure(ch.error);
      }
      MapResultSnoc(done, list.car, AsUniChar);
      uniChars := uniChars + [ch.value];
      done := done + [list.car];
      list := list.cdr;
    }
    assert done == Elements(expr);
    if list != Null {
      return Failure(TypeError(expr, ProperListType));
    }
    return Success(Str(uniChars));
  }

  /** Converting the characters of some units gives the units back. */
  lemma {:induction false} UnitsOfCharList(us: seq<UniChar>)
    ensures MapResult(CharList(us), AsUniChar) == Success(us)
    decreases |us|
  {
    if us != [] {
      var init := us[..|us| - 1];
      assert CharList(us)[..|us| - 1] == CharList(init);
      UnitsOfCharList(init);
      assert us == init + [us[|us| - 1]];
    }
  }

  /** The characters of converted units are the values converted. */
  lemma {:induction false} CharListOfUnits(xs: seq<Expr>)
    requires MapResult(xs, AsUniChar).Success?
    ensures CharList(MapResult(xs, AsUniChar).value) == xs
  {
    var us := MapResult(xs, AsUniChar).value;
    forall i | 0 <= i < |xs|
      ensures CharList(us)[i] == xs[i]
    {
      MapResultAt(xs, AsUniChar, i);
    }
  }

  /** `list->string` undoes `string->list`: on the same bounds the round trip
      gives `string-copy`, which with two bounds is `substring`. */
  lemma ListToStringOfStringToList(e: Expr, args: seq<Expr>)
    requires StringToListSpec(e, args).Success?
    ensures ListToStringSpec(StringToListSpec(e, args).value) == StringCopySpec(e, args)
    ensures |args| == 2 ==>
      ListToStringSpec(StringToListSpec(e, args).value) == SubstringSpec(e, args[0], args[1])
    ensures args == [] ==> ListToStringSpec(StringToListSpec(e, args).value) == Success(e)
  {
    var u := e.units;
    var bounds := Optional2(args, Fixnum(0), Fixnum(|u|)).value;
    var end := bounds.1.n;
    var start := bounds.0.n;
    ElementsOfListOf(CharList(u[start..end]));
    UnitsOfCharList(u[start..end]);
    StringCopyMeaning(e, args);
  }

  /** `string->list` undoes `list->string` on a proper list of characters. */
  lemma StringToListOfListToString(list: Expr)
    requires ListToStringSpec(list).Success?
    ensures StringToListSpec(ListToStringSpec(list).value, []) == Success(list)
  {
    var us := ListToStringSpec(list).value.units;
    assert us[0..|us|] == us;
    CharListOfUnits(Elements(list));
    ListOfElements(list);
  }

  /** `string ch ...` is `list->string` of the list of its arguments. */
  lemma StringOfCharsIsListToString(exprs: seq<Expr>)
    ensures StringOfCharsSpec(exprs) == ListToStringSpec(ListOf(exprs))
  {
    ElementsOfListOf(exprs);
  }
}
