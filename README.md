# LispKit strings and evaluation errors, in Dafny

This project models two parts of LispKit, a Scheme implementation written in
Swift, and proves properties of the model.

- **The string primitives of the `(lispkit string)` library.** A Scheme
  string is a sequence of UTF-16 code units. The model covers `string?`,
  `make-string`, `string`, `string-length`, `string-ref`,
  `_string-list-length` and `_string-list-ref` (the helpers behind
  `string-map` and `string-for-each`), `string-append`,
  `string-concatenate`, `string=?`, the four ordering comparisons,
  `string->list`, `list->string`, `substring` and `string-copy`. It also
  covers the three mutators `string-set!`, `string-fill!` and `string-copy!`.
  - A primitive that loops in the source is a method with a loop. It is
    proved equal to a specification function, and lemmas state what that
    function means.
  - The mutators are methods of a `MutableString` class whose code units they
    replace in place.
  - Errors are values of a `Result` type, in the order the source raises
    them.
- **The `EvalError` taxonomy.** It has 55 error kinds whose raw values are
  their declaration positions. The model also covers the message template of
  each kind, equality by raw value, and the argument-count guard `assert`.

Files:

- `values.dfy`: Scheme values, the library's errors, Scheme lists, and the
  argument conversions the primitives rely on.
- `string_library.dfy`: the primitives that do not mutate.
- `string_mutation.dfy`: the mutators.
- `string_comparison.dfy`: the comparisons and the table that binds their
  Scheme names.
- `eval_error.dfy`: the error kinds.

The conversions that the primitives call are defined outside the library
(`asString`, `asUniChar`, `asInt`, `asInt(below:)`, `Arguments.optional`,
`Expr.makeList`). They are modelled by the contract the library relies on:

- `asInt(below: n)` accepts exactly the fixnums `0 .. n-1`. On another
  fixnum it reports a range error; on anything else, a type error.
- `asInt()` is the same with the bound `Int.max`.
- `optional` fails when more than two optional arguments are given.

The errors the library throws (`typeError`, `indexOutOfBounds`,
`argumentCountError`) and the error the guard throws (`argumentCount`) are not
cases of the 55-kind `EvalError` enumeration in `EvalError.swift`. They are
modelled by their own datatypes, `LibError` and `ArgumentCount`.

`string-copy!` is modelled as the code does it: the units of the source range
are *inserted* in front of the target index (`NSMutableString.insert`), and
nothing is overwritten. Section 6.7 of R7RS describes `string-copy!` as
overwriting. `StringMutation.StringInsertGrows` proves that the model inserts:
the target grows by exactly the size of the copied range, for any bounds given
or defaulted.

## Model

| member | source | states |
|---|---|---|
| StringLibrary.IsString | Sources/LispKit/Primitives/StringLibrary.swift:91-96 | `string?` answers `#t` exactly for string values and `#f` for every other value |
| StringLibrary.MakeString | Sources/LispKit/Primitives/StringLibrary.swift:98-102 | `make-string` succeeds iff the fill (if given) is a character and k is a fixnum in `0 .. Int.max-1`; a non-character fill is a type error; the result has k units, each equal to the fill, which is a space by default |
| StringLibrary.StringLength | Sources/LispKit/Primitives/StringLibrary.swift:112-114 | succeeds exactly on strings and returns their number of UTF-16 units |
| StringLibrary.StringRef | Sources/LispKit/Primitives/StringLibrary.swift:132-140 | succeeds iff the value is a string and the index is a fixnum below its length; returns the unit at that index; an index at or past the end raises `indexOutOfBounds(k, length-1, str)` |
| StringLibrary.MakeStringRef | Sources/LispKit/Primitives/StringLibrary.swift:98-102 | every index of a string made by `make-string` reads back the fill character |
| StringLibrary.StringOfChars | Sources/LispKit/Primitives/StringLibrary.swift:104-110 | the loop over the arguments computes `StringOfCharsSpec`: the first non-character fails, otherwise the string of the characters |
| StringLibrary.StringOfCharsMeaning | Sources/LispKit/Primitives/StringLibrary.swift:104-110 | `string` succeeds exactly when every argument is a character, and its units are the arguments' units in order |
| StringLibrary.MinLength | Sources/LispKit/Primitives/StringLibrary.swift:116-130 | the running minimum starting from `Int.max` is at most `Int.max` and at most every string's length |
| StringLibrary.MinLengthIsMinimum | Sources/LispKit/Primitives/StringLibrary.swift:117-124 | the minimum is attained: it is `Int.max` or the length of one of the strings |
| StringLibrary.StringListLength | Sources/LispKit/Primitives/StringLibrary.swift:116-130 | the while loop computes the specification: the first non-string element fails, then an improper list is a type error naming the whole list, otherwise the least length |
| StringLibrary.UnitsAtDecided | Sources/LispKit/Primitives/StringLibrary.swift:142-159 | once the scan has failed or returned `#f`, later elements do not change the result |
| StringLibrary.StringListRef | Sources/LispKit/Primitives/StringLibrary.swift:142-159 | the while loop computes the specification: the k-th units of all strings, `#f` at the first string too short, an element error, or the improper-list error |
| StringLibrary.UnitsAtOfStrings | Sources/LispKit/Primitives/StringLibrary.swift:142-159 | on strings, the scan yields the k-th unit of every string exactly when k is below every length, and `#f` otherwise |
| StringLibrary.StringListRefBelowLength | Sources/LispKit/Primitives/StringLibrary.swift:70-81 | on a list accepted by `_string-list-length`, `_string-list-ref` returns the list of k-th units exactly when k is below that length, and `#f` otherwise: the indices `string-map` visits are all valid |
| StringLibrary.StringListRefStopsEarly | Sources/LispKit/Primitives/StringLibrary.swift:147-152 | `_string-list-ref` returns `#f` as soon as it reaches a string that is too short, whatever follows it (even non-strings or an improper tail) |
| StringLibrary.ConcatAppend | Sources/LispKit/Primitives/StringLibrary.swift:168-174 | concatenating two runs of strings is concatenating their concatenations, and the total lengths add |
| StringLibrary.ConcatLength | Sources/LispKit/Primitives/StringLibrary.swift:168-174 | the concatenation is as long as the sum of the lengths |
| StringLibrary.ConcatInOrder | Sources/LispKit/Primitives/StringLibrary.swift:168-174 | each string sits in the concatenation right after the strings before it |
| StringLibrary.StringAppend | Sources/LispKit/Primitives/StringLibrary.swift:168-174 | the loop computes `StringAppendSpec`: the first non-string fails, otherwise the concatenation in order |
| StringLibrary.StringConcatenate | Sources/LispKit/Primitives/StringLibrary.swift:176-187 | the while loop computes the specification: element errors first, then the improper-list error, otherwise the concatenation |
| StringLibrary.StringAppendIsConcatenate | Sources/LispKit/Primitives/StringLibrary.swift:168-187 | `string-append` of some values equals `string-concatenate` of their list, and on success has the total length |
| StringLibrary.StringAppendTwo | Sources/LispKit/Primitives/StringLibrary.swift:168-174 | `string-append` of two strings is their concatenation |
| StringLibrary.CopyUnits | Sources/LispKit/Primitives/StringLibrary.swift:367-370 | the copy loop yields exactly the units of the range `[start, end)` |
| StringLibrary.SubstringSpec | Sources/LispKit/Primitives/StringLibrary.swift:356-372 | `substring` succeeds iff the value is a string and `0 <= start <= end <= length`, and returns exactly the units of that range |
| StringLibrary.Substring | Sources/LispKit/Primitives/StringLibrary.swift:356-372 | the full-range shortcut and the copy loop both compute `SubstringSpec` |
| StringLibrary.StringCopy | Sources/LispKit/Primitives/StringLibrary.swift:374-393 | the shortcut and the copy loop compute the specification, including the argument-count error for more than two bounds |
| StringLibrary.StringCopyMeaning | Sources/LispKit/Primitives/StringLibrary.swift:374-393 | `string-copy` with two bounds is `substring`; with one bound, `substring` to the end; with none, the whole string; with more than two, the argument-count error |
| StringLibrary.StringToList | Sources/LispKit/Primitives/StringLibrary.swift:326-341 | the backward while loop computes the specification: the list of the characters of the range, in order |
| StringLibrary.ListToString | Sources/LispKit/Primitives/StringLibrary.swift:343-354 | the while loop computes the specification: element errors first, then the improper-list error, otherwise the string of the characters |
| StringLibrary.UnitsOfCharList | Sources/LispKit/Primitives/StringLibrary.swift:343-354 | converting the characters of some units gives those units back |
| StringLibrary.CharListOfUnits | Sources/LispKit/Primitives/StringLibrary.swift:343-354 | the characters of successfully converted values are those values |
| StringLibrary.ListToStringOfStringToList | Sources/LispKit/Primitives/StringLibrary.swift:326-354 | `list->string` after `string->list` gives what `string-copy` gives on the same bounds; with both bounds that is `substring`, with none the string itself |
| StringLibrary.StringToListOfListToString | Sources/LispKit/Primitives/StringLibrary.swift:326-354 | `string->list` after a successful `list->string` gives back the original list |
| StringLibrary.StringOfCharsIsListToString | Sources/LispKit/Primitives/StringLibrary.swift:104-110 | `string ch ...` equals `list->string` of the list of its arguments, errors included |
| StringMutation.ReplaceUnit | Sources/LispKit/Primitives/StringLibrary.swift:161-166 | replacing one unit keeps the length, puts the character at the index and leaves every other index unchanged |
| StringMutation.FillRange | Sources/LispKit/Primitives/StringLibrary.swift:420-424 | filling keeps the length, puts the character at every index of `[start, end)` and changes no other index |
| StringMutation.InsertUnits | Sources/LispKit/Primitives/StringLibrary.swift:407-409 | inserting grows the length by the piece, keeps the prefix, places the piece at the index and shifts the rest after it |
| StringMutation.MutableString.StringSet | Sources/LispKit/Primitives/StringLibrary.swift:161-166 | `string-set!` checks the index before the character; on success it returns void and the string becomes `StringSetSpec` of the old units; on failure the string is unchanged |
| StringMutation.MutableString.StringFill | Sources/LispKit/Primitives/StringLibrary.swift:413-426 | `string-fill!` checks the bound count, then end, then start, and converts the character only for a non-empty range; the new units are `StringFillSpec` of the old ones, unchanged on failure |
| StringMutation.MutableString.StringInsert | Sources/LispKit/Primitives/StringLibrary.swift:395-411 | `string-copy!` checks the source, the bound count, end, start, then the target index; the new units are `StringInsertSpec` of the old ones, unchanged on failure |
| StringMutation.StringSetThenRef | Sources/LispKit/Primitives/StringLibrary.swift:161-166 | `string-set!` succeeds exactly for an index below the length and a character (so it always fails on the empty string); afterwards `string-ref` reads the new character at that index and the old units everywhere else |
| StringMutation.FillRangeIdempotent | Sources/LispKit/Primitives/StringLibrary.swift:413-426 | filling a range twice with the same character is the same as filling it once |
| StringMutation.StringFillEmptyRange | Sources/LispKit/Primitives/StringLibrary.swift:420-424 | an empty range leaves the string unchanged, even when the fill value is not a character |
| StringMutation.StringFillWhole | Sources/LispKit/Primitives/StringLibrary.swift:413-426 | `string-fill!` without bounds turns the string into what `make-string` of its length and the character builds |
| StringMutation.StringInsertThenSubstring | Sources/LispKit/Primitives/StringLibrary.swift:395-411 | after `string-copy!`, `substring` at the insertion point reads back the copied range, and the length grew by the size of the range |
| StringMutation.StringInsertAtEndIsAppend | Sources/LispKit/Primitives/StringLibrary.swift:395-411 | `string-copy!` of a whole string at the end of the target gives what `string-append` of the two gives |
| StringMutation.StringInsertGrows | Sources/LispKit/Primitives/StringLibrary.swift:395-411 | `string-copy!` never shrinks the target: with zero, one or two bounds it grows by exactly the size of the resolved range `[start, end)`, so a non-empty range makes it strictly longer: it inserts rather than overwrites |
| StringComparison.StringEquals | Sources/LispKit/Primitives/StringLibrary.swift:189-197 | the loop computes the specification: each argument is converted and compared with the first, and the loop stops at the first mismatch |
| StringComparison.StringEqualsMeaning | Sources/LispKit/Primitives/StringLibrary.swift:189-197 | on strings, `string=?` answers `#t` iff every argument equals the first |
| StringComparison.EqualToFirstIffAdjacent | Sources/LispKit/Primitives/StringLibrary.swift:189-197 | under an equivalence, all strings equal the first exactly when every adjacent pair is equal |
| StringComparison.EqualToFirst | Sources/LispKit/Primitives/StringLibrary.swift:189-197 | under an equivalence, a chain of equal neighbours is all equal to the first string |
| StringComparison.StringCompare | Sources/LispKit/Primitives/StringLibrary.swift:199-245 | the loop of `string<?`, `<=`, `>` and `>=` computes the specification: each argument is compared with the previous one, and the loop stops at the first pair that fails |
| StringComparison.ChainMeaning | Sources/LispKit/Primitives/StringLibrary.swift:199-245 | on strings, a comparison chain answers `#t` iff every adjacent pair satisfies the operator |
| StringComparison.LessThanChainSorted | Sources/LispKit/Primitives/StringLibrary.swift:199-209 | for a transitive order, a `string<?` chain that holds is strictly increasing between any two positions |
| StringComparison.StringCompareShortCircuits | Sources/LispKit/Primitives/StringLibrary.swift:203-206 | a chain whose first pair fails answers `#f`, and the later arguments are never converted |
| StringComparison.ApplyToTwo | Sources/LispKit/Primitives/StringLibrary.swift:47-51 | a bound procedure applied to two strings compares exactly those two |
| StringComparison.RegisteredAsWrittenSwapsOperators | Sources/LispKit/Primitives/StringLibrary.swift:49-50 | with the table as written and a strictly less than b, `(string>? a b)` answers `#t` and `(string<=? a b)` answers `#f` |
| StringComparison.RegisteredMeansItsName | Sources/LispKit/Primitives/StringLibrary.swift:47-51 | with the corrected table and a strict total order, each name on two strings answers less, greater, less-or-equal, greater-or-equal or equal, as the name says |
| EvalErrors.RawValue | Sources/LispKit/Compiler/EvalError.swift:28-83 | every kind's raw value is below 55, and reading it back gives that kind; so raw values are pairwise distinct |
| EvalErrors.FromRawValue | Sources/LispKit/Compiler/EvalError.swift:28-83 | a raw value names a kind exactly when it is in `0 .. 54` |
| EvalErrors.FromRawValueRoundTrip | Sources/LispKit/Compiler/EvalError.swift:28-83 | every raw value in `0 .. 54` names a kind whose raw value it is |
| EvalErrors.Equals | Sources/LispKit/Compiler/EvalError.swift:206-208 | comparing raw values answers `true` exactly when the two kinds are the same |
| EvalErrors.Slots | Sources/LispKit/Compiler/EvalError.swift:85-198 | every placeholder of every template names payload 0 or 1 |
| EvalErrors.TemplatePlaceholders | Sources/LispKit/Compiler/EvalError.swift:85-198 | every kind has a template, its placeholders are the kind's slots in order, and each names payload 0 or 1 |
| EvalErrors.DivisionByZeroHasNoPlaceholder | Sources/LispKit/Compiler/EvalError.swift:93-94 | the `divisionByZero` template has no slot, and its message string scans to no placeholder |
| EvalErrors.BindingErrorsUseBothPayloads | Sources/LispKit/Compiler/EvalError.swift:121-134 | `malformedBinding` and `duplicateBinding` render payload 0, then payload 1, in their slots and in their scanned message strings |
| EvalErrors.UninitializedExportsOrder | Sources/LispKit/Compiler/EvalError.swift:183-184 | `uninitializedExports` renders payload 1 plainly, then payload 0 in depth, in its slots and in its scanned message string |
| EvalErrors.UnknownFieldNamesFieldFirst | Sources/LispKit/Compiler/EvalError.swift:175-176 | `unknownFieldOfRecordType` names payload 1 before payload 0, in its slots and in its scanned message string |
| EvalErrors.PiecesHaveNoDollar | Sources/LispKit/Compiler/EvalError.swift:85-198 | the literal text of every one of the 55 templates is free of `$`, so every `$` in a message string starts a placeholder |
| EvalErrors.Message | Sources/LispKit/Compiler/EvalError.swift:85-198 | the message string of every kind, written in the `$n` / `$,n` notation, scans to exactly the kind's slots in order: only `$0`, `$1`, `$,0` and `$,1` occur, as the kind's payloads require |
| EvalErrors.ScanTemplateText | Sources/LispKit/Compiler/EvalError.swift:85-198 | writing a template in the `$n` / `$,n` notation and scanning the string again finds exactly its placeholders, in order, provided its text holds no `$` |
| EvalErrors.Assert | Sources/LispKit/Compiler/EvalError.swift:200-204 | the guard passes iff the argument count equals `count`; otherwise the error carries `min == max == count` and the arguments as a proper list, in order |

## Left out

- Case conversion and case-insensitive comparison (`string-upcase`, `string-downcase`, `string-titlecase`, `string-foldcase`, the `string-ci` family). They rest on Foundation's locale-aware case mapping, which the model cannot see.
- `string-contains?`. It calls Foundation's `contains`, whose matching rules are Foundation's.
- The Unicode ordering of Swift strings. `string=?` and the comparisons take Swift's `==` and `<` as parameters (`eq`, `lt`). Properties that need order facts assume an equivalence or a strict total order.
- The Scheme source of `string-map` and `string-for-each`, and the registration plumbing. Only the contract `string-map` relies on is proved, in `StringListRefBelowLength`.
- The conversions `asString`, `asUniChar`, `asInt`, `asInt(below:)`, `Arguments.optional` and `Expr.makeList` are defined outside the library. They are modelled by the contracts stated above.
- `asMutableStr` and immutable strings. A mutator is a method of the `MutableString` object, so the failure for an immutable or non-string target is not modelled. In the argument-count error, the target appears as a string value of its current units.
- Aliasing. Two Scheme values that share one `NSMutableString` are one `MutableString` object here. Nothing models copies that share storage.
- StringLibrary.StringRef / StringLibrary.StringListRef: an index past the end traps in the source, because Swift's `index(_:offsetBy:)` runs before the bounds guard (StringLibrary.swift lines 135 and 148). The model follows the guard as the code intends: an out-of-bounds error for `string-ref`, and `#f` for `_string-list-ref`.
- StringLibrary.StringRef: its success condition includes `k < Int.max`, because `asInt()` refuses `Int.max` itself under the contract assumed above.
- Rendering a message: substituting payload values into `$n` and `$,n` is done elsewhere and is not modelled. Only the templates and their placeholders are modelled.
- The 64-bit width of `Int64` results is not modelled. Lengths are unbounded naturals; on a 64-bit platform every length fits in `Int64`.

## Findings

| source | as written | input that shows it | evidently intended | confidence | as-written member | corrected member |
|---|---|---|---|---|---|---|
| Sources/LispKit/Primitives/StringLibrary.swift:49-50 | `string>?` is bound to `stringLessThanEquals` and `string<=?` to `stringGreaterThan` | `(string>? "a" "b")` answers `#t` and `(string<=? "a" "b")` answers `#f` | `string>?` bound to `stringGreaterThan` and `string<=?` to `stringLessThanEquals` (the `string-ci>?` and `string-ci<=?` bindings on lines 54-55 repeat the swap) | not executed | StringComparison.RegisteredAsWrittenSwapsOperators | StringComparison.RegisteredMeansItsName |
