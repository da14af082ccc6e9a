/** The error kinds the LispKit evaluator and compiler report: a closed
    enumeration whose raw values are the declaration positions, one message
    template per kind, equality by raw value, and the argument-count guard. */
module EvalErrors {
  import opened Values

  /** `EvalError`, in declaration order. */
  datatype EvalError =
    | IllegalKeywordUsage
    | IllegalFormalParameter
    | IllegalFormalRestParameter
    | DivisionByZero
    | UnboundVariable
    | VariableUndefined
    | VariableNotYetInitialized
    | MalformedCaseLambda
    | MalformedArgumentList
    | MalformedDefinition
    | MalformedTransformer
    | MalformedSyntaxRule
    | MalformedPatternInSyntaxRule
    | MalformedSyntaxRulePattern
    | MalformedSyntaxRuleLiterals
    | InvalidContextInQuasiquote
    | MacroMismatchedRepetitionPatterns
    | MalformedBinding
    | MalformedBindings
    | MalformedTest
    | MalformedCondClause
    | MalformedCondExpandClause
    | MalformedCaseClause
    | DuplicateBinding
    | NonApplicativeValue
    | IllegalRadix
    | ArgumentError
    | NoMatchingCase
    | MultiValueCountError
    | OutOfScope
    | DefineInLocalEnv
    | ImportInLocalEnv
    | ImportInLibrary
    | MalformedImportSet
    | ErroneousRedefinition
    | CannotExpandImportSet
    | DefineSyntaxInLocalEnv
    | TargetBytevectorTooSmall
    | CannotOpenFile
    | CannotOpenUrl
    | InvalidUrl
    | CannotWriteToPort
    | IllegalContinuationApplication
    | AttemptToModifyImmutableData
    | UnknownFieldOfRecordType
    | FieldCountError
    | MalformedLibraryDefinition
    | MalformedLibraryName
    | UninitializedExports
    | UnknownFile
    | UnknownDirectory
    | CannotDecodeBytevector
    | CannotEncodeBytevector
    | InvalidDateTime
    | InvalidTimeZone

  /** The raw value of a kind: its position in the declaration. */
  function RawValue(e: EvalError): (r: nat)
    ensures r < 55
    ensures FromRawValue(r) == Some(e)
  {
    match e
    case IllegalKeywordUsage => 0
    case IllegalFormalParameter => 1
    case IllegalFormalRestParameter => 2
    case DivisionByZero => 3
    case UnboundVariable => 4
    case VariableUndefined => 5
    case VariableNotYetInitialized => 6
    case MalformedCaseLambda => 7
    case MalformedArgumentList => 8
    case MalformedDefinition => 9
    case MalformedTransformer => 10
    case MalformedSyntaxRule => 11
    case MalformedPatternInSyntaxRule => 12
    case MalformedSyntaxRulePattern => 13
    case MalformedSyntaxRuleLiterals => 14
    case InvalidContextInQuasiquote => 15
    case MacroMismatchedRepetitionPatterns => 16
    case MalformedBinding => 17
    case MalformedBindings => 18
    case MalformedTest => 19
    case MalformedCondClause => 20
    case MalformedCondExpandClause => 21
    case MalformedCaseClause => 22
    case DuplicateBinding => 23
    case NonApplicativeValue => 24
    case IllegalRadix => 25
    case ArgumentError => 26
    case NoMatchingCase => 27
    case MultiValueCountError => 28
    case OutOfScope => 29
    case DefineInLocalEnv => 30
    case ImportInLocalEnv => 31
    case ImportInLibrary => 32
    case MalformedImportSet => 33
    case ErroneousRedefinition => 34
    case CannotExpandImportSet => 35
    case DefineSyntaxInLocalEnv => 36
    case TargetBytevectorTooSmall => 37
    case CannotOpenFile => 38
    case CannotOpenUrl => 39
    case InvalidUrl => 40
    case CannotWriteToPort => 41
    case IllegalContinuationApplication => 42
    case AttemptToModifyImmutableData => 43
    case UnknownFieldOfRecordType => 44
    case FieldCountError => 45
    case MalformedLibraryDefinition => 46
    case MalformedLibraryName => 47
    case UninitializedExports => 48
    case UnknownFile => 49
    case UnknownDirectory => 50
    case CannotDecodeBytevector => 51
    case CannotEncodeBytevector => 52
    case InvalidDateTime => 53
    case InvalidTimeZone => 54
  }

  /** `EvalError(rawValue:)`: the kind with a given raw value, if any. */
  function FromRawValue(n: int): (r: Option<EvalError>)
    ensures r.Some? <==> 0 <= n < 55
  {
    match n
    case 0 => Some(IllegalKeywordUsage)
    case 1 => Some(IllegalFormalParameter)
    case 2 => Some(IllegalFormalRestParameter)
    case 3 => Some(DivisionByZero)
    case 4 => Some(UnboundVariable)
    case 5 => Some(VariableUndefined)
    case 6 => Some(VariableNotYetInitialized)
    case 7 => Some(MalformedCaseLambda)
    case 8 => Some(MalformedArgumentList)
    case 9 => Some(MalformedDefinition)
    case 10 => Some(MalformedTransformer)
    case 11 => Some(MalformedSyntaxRule)
    case 12 => Some(MalformedPatternInSyntaxRule)
    case 13 => Some(MalformedSyntaxRulePattern)
    case 14 => Some(MalformedSyntaxRuleLiterals)
    case 15 => Some(InvalidContextInQuasiquote)
    case 16 => Some(MacroMismatchedRepetitionPatterns)
    case 17 => Some(MalformedBinding)
    case 18 => Some(MalformedBindings)
    case 19 => Some(MalformedTest)
    case 20 => Some(MalformedCondClause)
    case 21 => Some(MalformedCondExpandClause)
    case 22 => Some(MalformedCaseClause)
    case 23 => Some(DuplicateBinding)
    case 24 => Some(NonApplicativeValue)
    case 25 => Some(IllegalRadix)
    case 26 => Some(ArgumentError)
    case 27 => Some(NoMatchingCase)
    case 28 => Some(MultiValueCountError)
    case 29 => Some(OutOfScope)
    case 30 => Some(DefineInLocalEnv)
    case 31 => Some(ImportInLocalEnv)
    case 32 => Some(ImportInLibrary)
    case 33 => Some(MalformedImportSet)
    case 34 => Some(ErroneousRedefinition)
    case 35 => Some(CannotExpandImportSet)
    case 36 => Some(DefineSyntaxInLocalEnv)
    case 37 => Some(TargetBytevectorTooSmall)
    case 38 => Some(CannotOpenFile)
    case 39 => Some(CannotOpenUrl)
    case 40 => Some(InvalidUrl)
    case 41 => Some(CannotWriteToPort)
    case 42 => Some(IllegalContinuationApplication)
    case 43 => Some(AttemptToModifyImmutableData)
    case 44 => Some(UnknownFieldOfRecordType)
    case 45 => Some(FieldCountError)
    case 46 => Some(MalformedLibraryDefinition)
    case 47 => Some(MalformedLibraryName)
    case 48 => Some(UninitializedExports)
    case 49 => Some(UnknownFile)
    case 50 => Some(UnknownDirectory)
    case 51 => Some(CannotDecodeBytevector)
    case 52 => Some(CannotEncodeBytevector)
    case 53 => Some(InvalidDateTime)
    case 54 => Some(InvalidTimeZone)
    case _ => None
  }

  /** Every integer in 0 .. 54 names a kind that gives it back as its raw
      value. */
  lemma FromRawValueRoundTrip(n: int)
    requires 0 <= n < 55
    ensures RawValue(FromRawValue(n).value) == n
  {
    if n < 19 {
      FromRawValueRoundTripLow(n);
    } else if n < 37 {
      FromRawValueRoundTripMiddle(n);
    } else if n < 46 {
      FromRawValueRoundTripHigh(n);
    } else {
      FromRawValueRoundTripTop(n);
    }
  }

  // The round trip is proved over four ranges of raw values, each small
  // enough for the solver to enumerate.

  lemma FromRawValueRoundTripLow(n: int)
    requires 0 <= n < 19
    ensures RawValue(FromRawValue(n).value) == n
  {
  }

  lemma FromRawValueRoundTripMiddle(n: int)
    requires 19 <= n < 37
    ensures RawValue(FromRawValue(n).value) == n
  {
  }

  lemma FromRawValueRoundTripHigh(n: int)
    requires 37 <= n < 46
    ensures RawValue(FromRawValue(n).value) == n
  {
  }

  lemma FromRawValueRoundTripTop(n: int)
    requires 46 <= n < 55
    ensures RawValue(FromRawValue(n).value) == n
  {
  }

  /** `==`: two kinds are equal when their raw values are; since raw values
      are pairwise distinct this is equality of the kinds. */
  function Equals(a: EvalError, b: EvalError): (r: bool)
    ensures r <==> a == b
  {
    RawValue(a) == RawValue(b)
  }

  // ---------------------------------------------------------------------------
  // Message templates
  //
  // `message` returns a template string in which `$n` stands for the plain
  // rendering of payload n and `$,n` for its rendering in depth. A template is
  // modelled as its placeholders (`Slots`) and the literal pieces around them
  // (`Pieces`): the template is piece 0, slot 0, piece 1, slot 1, ..., last
  // piece.
  //
  // Two shapes below serve the verifier rather than the reader. The solver
  // cannot establish that a string literal of more than about forty characters
  // holds no `$`, but it can for each part of a concatenation. So `Pieces`
  // writes its longer literals as concatenations of shorter ones (the strings
  // are the same), and the `$`-freedom of the pieces is proved by one small
  // lemma per kind (`NoDollarIn...`), which keeps each proof within budget.

  /** A placeholder: payload `index`, rendered plainly (`$n`) or in depth (`$,n`). */
  datatype Slot = Plain(index: nat) | Deep(index: nat)

  /** The placeholders of each template, in order. Every one names payload 0
      or 1. */
  function Slots(e: EvalError): (r: seq<Slot>)
    ensures forall i :: 0 <= i < |r| ==> r[i].index <= 1
  {
    match e
    case IllegalKeywordUsage => [Plain(0)]
    case IllegalFormalParameter => [Plain(0)]
    case IllegalFormalRestParameter => [Plain(0)]
    case DivisionByZero => []
    case UnboundVariable => [Plain(0)]
    case VariableUndefined => [Plain(0)]
    case VariableNotYetInitialized => [Plain(0)]
    case MalformedCaseLambda => [Plain(0)]
    case MalformedArgumentList => [Plain(0)]
    case MalformedDefinition => [Plain(0)]
    case MalformedTransformer => [Plain(0)]
    case MalformedSyntaxRule => [Plain(0)]
    case MalformedPatternInSyntaxRule => [Plain(0), Plain(1)]
    case MalformedSyntaxRulePattern => [Plain(0)]
    case MalformedSyntaxRuleLiterals => [Plain(0)]
    case InvalidContextInQuasiquote => [Plain(0), Plain(1)]
    case MacroMismatchedRepetitionPatterns => [Plain(0)]
    case MalformedBinding => [Plain(0), Plain(1)]
    case MalformedBindings => [Plain(0)]
    case MalformedTest => [Plain(0)]
    case MalformedCondClause => [Plain(0)]
    case MalformedCondExpandClause => [Plain(0)]
    case MalformedCaseClause => [Plain(0)]
    case DuplicateBinding => [Plain(0), Plain(1)]
    case NonApplicativeValue => [Plain(0)]
    case IllegalRadix => [Plain(0)]
    case ArgumentError => [Plain(0), Plain(1)]
    case NoMatchingCase => [Plain(0), Plain(1)]
    case MultiValueCountError => [Plain(0), Plain(1)]
    case OutOfScope => [Plain(0)]
    case DefineInLocalEnv => [Plain(0)]
    case ImportInLocalEnv => [Plain(0)]
    case ImportInLibrary => [Deep(0)]
    case MalformedImportSet => [Plain(0)]
    case ErroneousRedefinition => [Plain(0), Deep(1)]
    case CannotExpandImportSet => [Plain(0)]
    case DefineSyntaxInLocalEnv => [Plain(0)]
    case TargetBytevectorTooSmall => [Plain(0)]
    case CannotOpenFile => [Deep(0)]
    case CannotOpenUrl => [Deep(0)]
    case InvalidUrl => [Deep(0)]
    case CannotWriteToPort => [Plain(0)]
    case IllegalContinuationApplication => [Plain(0), Plain(1)]
    case AttemptToModifyImmutableData => [Plain(0)]
    case UnknownFieldOfRecordType => [Plain(1), Plain(0)]
    case FieldCountError => [Plain(0), Plain(1)]
    case MalformedLibraryDefinition => [Plain(0)]
    case MalformedLibraryName => [Deep(0)]
    case UninitializedExports => [Plain(1), Deep(0)]
    case UnknownFile => [Deep(0)]
    case UnknownDirectory => [Deep(0)]
    case CannotDecodeBytevector => [Plain(0)]
    case CannotEncodeBytevector => [Plain(0)]
    case InvalidDateTime => [Plain(0)]
    case InvalidTimeZone => [Plain(0)]
  }

  /** The literal text of each template around its placeholders. */
  function Pieces(e: EvalError): seq<string>
  {
    match e
    case IllegalKeywordUsage => ["illegal usage of " + "syntactic keyword as " + "expression: ", ""]
    case IllegalFormalParameter => ["illegal formal " + "parameter: ", ""]
    case IllegalFormalRestParameter => ["illegal formal rest " + "parameter: ", ""]
    case DivisionByZero => ["division by zero"]
    case UnboundVariable => ["unbound variable: ", ""]
    case VariableUndefined => ["variable undefined: ", ""]
    case VariableNotYetInitialized => ["variable not yet " + "initialized: ", ""]
    case MalformedCaseLambda => ["malformed lambda case " + "list: ", ""]
    case MalformedArgumentList => ["malformed argument " + "list: ", ""]
    case MalformedDefinition => ["malformed definition: ", ""]
    case MalformedTransformer => ["malformed transformer: ", ""]
    case MalformedSyntaxRule => ["not a valid syntax " + "rule: ", ""]
    case MalformedPatternInSyntaxRule => ["illegal pattern ", " in syntax rule " + "pattern: ", ""]
    case MalformedSyntaxRulePattern => ["malformed syntax rule " + "pattern: ", ""]
    case MalformedSyntaxRuleLiterals => ["malformed list of " + "syntax rule literals: ", ""]
    case InvalidContextInQuasiquote => ["usage of ", " in invalid context " + "within quasiquote: ", ""]
    case MacroMismatchedRepetitionPatterns => ["macro could not be " + "expanded; mismatched " + "repetition patterns: ", ""]
    case MalformedBinding => ["malformed binding ", " in ", ""]
    case MalformedBindings => ["malformed list of " + "bindings: ", ""]
    case MalformedTest => ["malformed test " + "expression: ", ""]
    case MalformedCondClause => ["malformed clause in " + "cond form: ", ""]
    case MalformedCondExpandClause => ["malformed clause in " + "cond-expand form: ", ""]
    case MalformedCaseClause => ["malformed clause in " + "case form: ", ""]
    case DuplicateBinding => ["symbol ", " bound multiple times " + "in ", ""]
    case NonApplicativeValue => ["cannot apply arguments " + "to ", ""]
    case IllegalRadix => ["illegal radix: ", ""]
    case ArgumentError => ["wrong number of " + "arguments for ", ": ", ""]
    case NoMatchingCase => ["arguments ", " not matching any case " + "of ", ""]
    case MultiValueCountError => ["expected ", " values to be returned, " + "but received instead: ", ""]
    case OutOfScope => ["out of scope evaluation " + "of ", ""]
    case DefineInLocalEnv => ["definition of ", " in local environment"]
    case ImportInLocalEnv => ["import of ", " in local environment"]
    case ImportInLibrary => ["illegal import in " + "library ", ""]
    case MalformedImportSet => ["malformed import set: ", ""]
    case ErroneousRedefinition => ["attempted to redefine ", " with definition from ", ""]
    case CannotExpandImportSet => ["cannot expand import " + "set ", ""]
    case DefineSyntaxInLocalEnv => ["syntax definition of ", " in local environment"]
    case TargetBytevectorTooSmall => ["target bytevector too " + "small: ", ""]
    case CannotOpenFile => ["cannot open file: ", ""]
    case CannotOpenUrl => ["cannot open URL: ", ""]
    case InvalidUrl => ["invalid URL: ", ""]
    case CannotWriteToPort => ["cannot write to port ", ""]
    case IllegalContinuationApplication => ["continuation " + "application in wrong " + "context (", " in ", ")"]
    case AttemptToModifyImmutableData => ["attempt to modify " + "immutable data " + "structure: ", ""]
    case UnknownFieldOfRecordType => ["unknown field ", " of record type ", ""]
    case FieldCountError => ["expected values for ", " fields, received " + "instead: ", ""]
    case MalformedLibraryDefinition => ["malformed library " + "definition: ", ""]
    case MalformedLibraryName => ["malformed library name: ", ""]
    case UninitializedExports => ["library ", " does not initialize " + "the exported " + "definitions ", ""]
    case UnknownFile => ["file '", "' unknown or a directory"]
    case UnknownDirectory => ["directory '", "' unknown or a file"]
    case CannotDecodeBytevector => ["unable to decode ", " into bytevector"]
    case CannotEncodeBytevector => ["unable to encode " + "bytevector ", ""]
    case InvalidDateTime => ["invalid/incomplete date " + "time component list: ", ""]
    case InvalidTimeZone => ["invalid/incomplete time " + "zone identifier: ", ""]
  }

  /** A piece of a template: literal text or a placeholder. */
  datatype Segment = Text(s: string) | Hole(slot: Slot)

  function Lead(texts: seq<string>): seq<Segment>
  {
    if texts == [] then [] else [Text(texts[0])]
  }

  /** Piece 0, slot 0, piece 1, slot 1, ..., then the remaining pieces. */
  function Interleave(texts: seq<string>, slots: seq<Slot>): seq<Segment>
    decreases |slots|
  {
    if slots == [] then seq(|texts|, i requires 0 <= i < |texts| => Text(texts[i]))
    else Lead(texts) + [Hole(slots[0])] + Interleave(if texts == [] then [] else texts[1..], slots[1..])
  }

  /** The template of a kind, as a sequence of segments. */
  function Template(e: EvalError): seq<Segment>
  {
    Interleave(Pieces(e), Slots(e))
  }

  /** The placeholders of a template, in order. */
  function Placeholders(t: seq<Segment>): seq<Slot>
  {
    if t == [] then []
    else (if t[0].Text? then [] else [t[0].slot]) + Placeholders(t[1..])
  }

  lemma {:induction false} PlaceholdersAppend(a: seq<Segment>, b: seq<Segment>)
    ensures Placeholders(a + b) == Placeholders(a) + Placeholders(b)
    decreases |a|
  {
    if a == [] {
      assert a + b == b;
    } else {
      assert (a + b)[1..] == a[1..] + b;
      PlaceholdersAppend(a[1..], b);
    }
  }

  lemma {:induction false} PlaceholdersOfText(t: seq<Segment>)
    requires forall i :: 0 <= i < |t| ==> t[i].Text?
    ensures Placeholders(t) == []
    decreases |t|
  {
    if t != [] {
      PlaceholdersOfText(t[1..]);
    }
  }

  /** Interleaving literal text with slots keeps exactly the slots, in order,
      whatever the text. */
  lemma {:induction false} PlaceholdersOfInterleave(texts: seq<string>, slots: seq<Slot>)
    ensures Placeholders(Interleave(texts, slots)) == slots
    decreases |slots|
  {
    if slots == [] {
      PlaceholdersOfText(Interleave(texts, slots));
    } else {
      var rest := if texts == [] then [] else texts[1..];
      PlaceholdersOfInterleave(rest, slots[1..]);
      PlaceholdersOfText(Lead(texts));
      PlaceholdersAppend(Lead(texts), [Hole(slots[0])]);
      PlaceholdersAppend(Lead(texts) + [Hole(slots[0])], Interleave(rest, slots[1..]));
      assert Placeholders([Hole(slots[0])]) == [slots[0]];
    }
  }

  /** `message` is total: every kind has a template, whose placeholders are the
      kind's slots and name payload 0 or 1 only. */
  lemma TemplatePlaceholders(e: EvalError)
    ensures Placeholders(Template(e)) == Slots(e)
    ensures forall g :: g in Placeholders(Template(e)) ==> g.index <= 1
  {
    PlaceholdersOfInterleave(Pieces(e), Slots(e));
  }

  /** `divisionByZero` carries no payload and its message no placeholder. */
  lemma DivisionByZeroHasNoPlaceholder()
    ensures Slots(DivisionByZero) == []
    ensures ScanPlaceholders(Message(DivisionByZero)) == []
  {
  }

  /** The binding errors render both payloads plainly, the first one first. */
  lemma BindingErrorsUseBothPayloads()
    ensures Slots(DuplicateBinding) == [Plain(0), Plain(1)]
    ensures Slots(MalformedBinding) == [Plain(0), Plain(1)]
    ensures ScanPlaceholders(Message(DuplicateBinding)) == [Plain(0), Plain(1)]
    ensures ScanPlaceholders(Message(MalformedBinding)) == [Plain(0), Plain(1)]
  {
  }

  /** `uninitializedExports` names the library (payload 1) plainly, then
      renders the exported definitions (payload 0) in depth. */
  lemma UninitializedExportsOrder()
    ensures Slots(UninitializedExports) == [Plain(1), Deep(0)]
    ensures ScanPlaceholders(Message(UninitializedExports)) == [Plain(1), Deep(0)]
  {
  }

  /** `unknownFieldOfRecordType` names the field (payload 1) before the record
      type (payload 0). */
  lemma UnknownFieldNamesFieldFirst()
    ensures Slots(UnknownFieldOfRecordType) == [Plain(1), Plain(0)]
    ensures ScanPlaceholders(Message(UnknownFieldOfRecordType)) == [Plain(1), Plain(0)]
  {
  }

  // ---------------------------------------------------------------------------
  // The textual notation of templates: `$n` and `$,n`

  function DigitChar(n: nat): char
    requires n < 10
  {
    ('0' as int + n) as char
  }

  predicate IsDigit(c: char) { '0' <= c <= '9' }

  /** Every placeholder of a template names a single-digit payload. */
  predicate DigitSlots(t: seq<Segment>)
  {
    forall i :: 0 <= i < |t| ==> t[i].Hole? ==> t[i].slot.index < 10
  }

  /** No literal text of a template holds a `$`. */
  predicate PlainText(t: seq<Segment>)
  {
    forall i :: 0 <= i < |t| ==> t[i].Text? ==> '$' !in t[i].s
  }

  function SegmentText(g: Segment): string
    requires g.Hole? ==> g.slot.index < 10
  {
    match g
    case Text(s) => s
    case Hole(Plain(n)) => ['$', DigitChar(n)]
    case Hole(Deep(n)) => ['$', ',', DigitChar(n)]
  }

  /** A template written as one string. */
  function TemplateText(t: seq<Segment>): string
    requires DigitSlots(t)
  {
    if t == [] then "" else SegmentText(t[0]) + TemplateText(t[1..])
  }

  /** No piece of literal text holds a `$`. */
  predicate DollarFree(texts: seq<string>)
  {
    forall i :: 0 <= i < |texts| ==> '$' !in texts[i]
  }

  /** The literal text of every template is free of `$`, so a `$` in a
      message string always starts a placeholder. */
  lemma PiecesHaveNoDollar(e: EvalError)
    ensures DollarFree(Pieces(e))
  {
    match e
    case IllegalKeywordUsage => NoDollarInIllegalKeywordUsage();
    case IllegalFormalParameter => NoDollarInIllegalFormalParameter();
    case IllegalFormalRestParameter => NoDollarInIllegalFormalRestParameter();
    case DivisionByZero => NoDollarInDivisionByZero();
    case UnboundVariable => NoDollarInUnboundVariable();
    case VariableUndefined => NoDollarInVariableUndefined();
    case VariableNotYetInitialized => NoDollarInVariableNotYetInitialized();
    case MalformedCaseLambda => NoDollarInMalformedCaseLambda();
    case MalformedArgumentList => NoDollarInMalformedArgumentList();
    case MalformedDefinition => NoDollarInMalformedDefinition();
    case MalformedTransformer => NoDollarInMalformedTransformer();
    case MalformedSyntaxRule => NoDollarInMalformedSyntaxRule();
    case MalformedPatternInSyntaxRule => NoDollarInMalformedPatternInSyntaxRule();
    case MalformedSyntaxRulePattern => NoDollarInMalformedSyntaxRulePattern();
    case MalformedSyntaxRuleLiterals => NoDollarInMalformedSyntaxRuleLiterals();
    case InvalidContextInQuasiquote => NoDollarInInvalidContextInQuasiquote();
    case MacroMismatchedRepetitionPatterns => NoDollarInMacroMismatchedRepetitionPatterns();
    case MalformedBinding => NoDollarInMalformedBinding();
    case MalformedBindings => NoDollarInMalformedBindings();
    case MalformedTest => NoDollarInMalformedTest();
    case MalformedCondClause => NoDollarInMalformedCondClause();
    case MalformedCondExpandClause => NoDollarInMalformedCondExpandClause();
    case MalformedCaseClause => NoDollarInMalformedCaseClause();
    case DuplicateBinding => NoDollarInDuplicateBinding();
    case NonApplicativeValue => NoDollarInNonApplicativeValue();
    case IllegalRadix => NoDollarInIllegalRadix();
    case ArgumentError => NoDollarInArgumentError();
    case NoMatchingCase => NoDollarInNoMatchingCase();
    case MultiValueCountError => NoDollarInMultiValueCountError();
    case OutOfScope => NoDollarInOutOfScope();
    case DefineInLocalEnv => NoDollarInDefineInLocalEnv();
    case ImportInLocalEnv => NoDollarInImportInLocalEnv();
    case ImportInLibrary => NoDollarInImportInLibrary();
    case MalformedImportSet => NoDollarInMalformedImportSet();
    case ErroneousRedefinition => NoDollarInErroneousRedefinition();
    case CannotExpandImportSet => NoDollarInCannotExpandImportSet();
    case DefineSyntaxInLocalEnv => NoDollarInDefineSyntaxInLocalEnv();
    case TargetBytevectorTooSmall => NoDollarInTargetBytevectorTooSmall();
    case CannotOpenFile => NoDollarInCannotOpenFile();
    case CannotOpenUrl => NoDollarInCannotOpenUrl();
    case InvalidUrl => NoDollarInInvalidUrl();
    case CannotWriteToPort => NoDollarInCannotWriteToPort();
    case IllegalContinuationApplication => NoDollarInIllegalContinuationApplication();
    case AttemptToModifyImmutableData => NoDollarInAttemptToModifyImmutableData();
    case UnknownFieldOfRecordType => NoDollarInUnknownFieldOfRecordType();
    case FieldCountError => NoDollarInFieldCountError();
    case MalformedLibraryDefinition => NoDollarInMalformedLibraryDefinition();
    case MalformedLibraryName => NoDollarInMalformedLibraryName();
    case UninitializedExports => NoDollarInUninitializedExports();
    case UnknownFile => NoDollarInUnknownFile();
    case UnknownDirectory => NoDollarInUnknownDirectory();
    case CannotDecodeBytevector => NoDollarInCannotDecodeBytevector();
    case CannotEncodeBytevector => NoDollarInCannotEncodeBytevector();
    case InvalidDateTime => NoDollarInInvalidDateTime();
    case InvalidTimeZone => NoDollarInInvalidTimeZone();
  }

  lemma NoDollarInIllegalKeywordUsage()
    ensures DollarFree(Pieces(IllegalKeywordUsage))
  {
    var p := Pieces(IllegalKeywordUsage);
    assert '$' !in p[0];
    assert '$' !in p[1];
  }

  lemma NoDollarInIllegalFormalParameter()
    ensures DollarFree(Pieces(IllegalFormalParameter))
  {
    var p := Pieces(IllegalFormalParameter);
    assert '$' !in p[0];
    assert '$' !in p[1];
  }

  lemma NoDollarInIllegalFormalRestParameter()
    ensures DollarFree(Pieces(IllegalFormalRestParameter))
  {
    var p := Pieces(IllegalFormalRestParameter);
    assert '$' !in p[0];
    assert '$' !in p[1];
  }

  lemma NoDollarInDivisionByZero()
    ensures DollarFree(Pieces(DivisionByZero))
  {
    var p := Pieces(DivisionByZero);
    assert '$' !in p[0];
  }

  lemma NoDollarInUnboundVariable()
    ensures DollarFree(Pieces(UnboundVariable))
  {
    var p := Pieces(UnboundVariable);
    assert '$' !in p[0];
    assert '$' !in p[1];
  }

  lemma NoDollarInVariableUndefined()
    ensures DollarFree(Pieces(VariableUndefined))
  {
    var p := Pieces(VariableUndefined);
    assert '$' !in p[0];
    assert '$' !in p[1];
  }

  lemma NoDollarInVariableNotYetInitialized()
    ensures DollarFree(Pieces(VariableNotYetInitialized))
  {
    var p := Pieces(VariableNotYetInitialized);
    assert '$' !in p[0];
    assert '$' !in p[1];
  }

  lemma NoDollarInMalformedCaseLambda()
    ensures DollarFree(Pieces(MalformedCaseLambda))
  {
    var p := Pieces(MalformedCaseLambda);
    assert '$' !in p[0];
    assert '$' !in p[1];
  }

  lemma NoDollarInMalformedArgumentList()
    ensures DollarFree(Pieces(MalformedArgumentList))
  {
    var p := Pieces(MalformedArgumentList);
    assert '$' !in p[0];
    assert '$' !in p[1];
  }

  lemma NoDollarInMalformedDefinition()
    ensures DollarFree(Pieces(MalformedDefinition))
  {
    var p := Pieces(MalformedDefinition);
    assert '$' !in p[0];
    assert '$' !in p[1];
  }

  lemma NoDollarInMalformedTransformer()
    ensures DollarFree(Pieces(MalformedTransformer))
  {
    var p := Pieces(MalformedTransformer);
    assert '$' !in p[0];
    assert '$' !in p[1];
  }

  lemma NoDollarInMalformedSyntaxRule()
    ensures DollarFree(Pieces(MalformedSyntaxRule))
  {
    var p := Pieces(MalformedSyntaxRule);
    assert '$' !in p[0];
    assert '$' !in p[1];
  }

  lemma NoDollarInMalformedPatternInSyntaxRule()
    ensures DollarFree(Pieces(MalformedPatternInSyntaxRule))
  {
    var p := Pieces(MalformedPatternInSyntaxRule);
    assert '$' !in p[0];
    assert '$' !in p[1];
    assert '$' !in p[2];
  }

  lemma NoDollarInMalformedSyntaxRulePattern()
    ensures DollarFree(Pieces(MalformedSyntaxRulePattern))
  {
    var p := Pieces(MalformedSyntaxRulePattern);
    assert '$' !in p[0];
    assert '$' !in p[1];
  }

  lemma NoDollarInMalformedSyntaxRuleLiterals()
    ensures DollarFree(Pieces(MalformedSyntaxRuleLiterals))
  {
    var p := Pieces(MalformedSyntaxRuleLiterals);
    assert '$' !in p[0];
    assert '$' !in p[1];
  }

  lemma NoDollarInInvalidContextInQuasiquote()
    ensures DollarFree(Pieces(InvalidContextInQuasiquote))
  {
    var p := Pieces(InvalidContextInQuasiquote);
    assert '$' !in p[0];
    assert '$' !in p[1];
    assert '$' !in p[2];
  }

  lemma NoDollarInMacroMismatchedRepetitionPatterns()
    ensures DollarFree(Pieces(MacroMismatchedRepetitionPatterns))
  {
    var p := Pieces(MacroMismatchedRepetitionPatterns);
    assert '$' !in p[0];
    assert '$' !in p[1];
  }

  lemma NoDollarInMalformedBinding()
    ensures DollarFree(Pieces(MalformedBinding))
  {
    var p := Pieces(MalformedBinding);
    assert '$' !in p[0];
    assert '$' !in p[1];
    assert '$' !in p[2];
  }

  lemma NoDollarInMalformedBindings()
    ensures DollarFree(Pieces(MalformedBindings))
  {
    var p := Pieces(MalformedBindings);
    assert '$' !in p[0];
    assert '$' !in p[1];
  }

  lemma NoDollarInMalformedTest()
    ensures DollarFree(Pieces(MalformedTest))
  {
    var p := Pieces(MalformedTest);
    assert '$' !in p[0];
    assert '$' !in p[1];
  }

  lemma NoDollarInMalformedCondClause()
    ensures DollarFree(Pieces(MalformedCondClause))
  {
    var p := Pieces(MalformedCondClause);
    assert '$' !in p[0];
    assert '$' !in p[1];
  }

  lemma NoDollarInMalformedCondExpandClause()
    ensures DollarFree(Pieces(MalformedCondExpandClause))
  {
    var p := Pieces(MalformedCondExpandClause);
    assert '$' !in p[0];
    assert '$' !in p[1];
  }

  lemma NoDollarInMalformedCaseClause()
    ensures DollarFree(Pieces(MalformedCaseClause))
  {
    var p := Pieces(MalformedCaseClause);
    assert '$' !in p[0];
    assert '$' !in p[1];
  }

  lemma NoDollarInDuplicateBinding()
    ensures DollarFree(Pieces(DuplicateBinding))
  {
    var p := Pieces(DuplicateBinding);
    assert '$' !in p[0];
    assert '$' !in p[1];
    assert '$' !in p[2];
  }

  lemma NoDollarInNonApplicativeValue()
    ensures DollarFree(Pieces(NonApplicativeValue))
  {
    var p := Pieces(NonApplicativeValue);
    assert '$' !in p[0];
    assert '$' !in p[1];
  }

  lemma NoDollarInIllegalRadix()
    ensures DollarFree(Pieces(IllegalRadix))
  {
    var p := Pieces(IllegalRadix);
    assert '$' !in p[0];
    assert '$' !in p[1];
  }

  lemma NoDollarInArgumentError()
    ensures DollarFree(Pieces(ArgumentError))
  {
    var p := Pieces(ArgumentError);
    assert '$' !in p[0];
    assert '$' !in p[1];
    assert '$' !in p[2];
  }

  lemma NoDollarInNoMatchingCase()
    ensures DollarFree(Pieces(NoMatchingCase))
  {
    var p := Pieces(NoMatchingCase);
    assert '$' !in p[0];
    assert '$' !in p[1];
    assert '$' !in p[2];
  }

  lemma NoDollarInMultiValueCountError()
    ensures DollarFree(Pieces(MultiValueCountError))
  {
    var p := Pieces(MultiValueCountError);
    assert '$' !in p[0];
    assert '$' !in p[1];
    assert '$' !in p[2];
  }

  lemma NoDollarInOutOfScope()
    ensures DollarFree(Pieces(OutOfScope))
  {
    var p := Pieces(OutOfScope);
    assert '$' !in p[0];
    assert '$' !in p[1];
  }

  lemma NoDollarInDefineInLocalEnv()
    ensures DollarFree(Pieces(DefineInLocalEnv))
  {
    var p := Pieces(DefineInLocalEnv);
    assert '$' !in p[0];
    assert '$' !in p[1];
  }

  lemma NoDollarInImportInLocalEnv()
    ensures DollarFree(Pieces(ImportInLocalEnv))
  {
    var p := Pieces(ImportInLocalEnv);
    assert '$' !in p[0];
    assert '$' !in p[1];
  }

  lemma NoDollarInImportInLibrary()
    ensures DollarFree(Pieces(ImportInLibrary))
  {
    var p := Pieces(ImportInLibrary);
    assert '$' !in p[0];
    assert '$' !in p[1];
  }

  lemma NoDollarInMalformedImportSet()
    ensures DollarFree(Pieces(MalformedImportSet))
  {
    var p := Pieces(MalformedImportSet);
    assert '$' !in p[0];
    assert '$' !in p[1];
  }

  lemma NoDollarInErroneousRedefinition()
    ensures DollarFree(Pieces(ErroneousRedefinition))
  {
    var p := Pieces(ErroneousRedefinition);
    assert '$' !in p[0];
    assert '$' !in p[1];
    assert '$' !in p[2];
  }

  lemma NoDollarInCannotExpandImportSet()
    ensures DollarFree(Pieces(CannotExpandImportSet))
  {
    var p := Pieces(CannotExpandImportSet);
    assert '$' !in p[0];
    assert '$' !in p[1];
  }

  lemma NoDollarInDefineSyntaxInLocalEnv()
    ensures DollarFree(Pieces(DefineSyntaxInLocalEnv))
  {
    var p := Pieces(DefineSyntaxInLocalEnv);
    assert '$' !in p[0];
    assert '$' !in p[1];
  }

  lemma NoDollarInTargetBytevectorTooSmall()
    ensures DollarFree(Pieces(TargetBytevectorTooSmall))
  {
    var p := Pieces(TargetBytevectorTooSmall);
    assert '$' !in p[0];
    assert '$' !in p[1];
  }

  lemma NoDollarInCannotOpenFile()
    ensures DollarFree(Pieces(CannotOpenFile))
  {
    var p := Pieces(CannotOpenFile);
    assert '$' !in p[0];
    assert '$' !in p[1];
  }

  lemma NoDollarInCannotOpenUrl()
    ensures DollarFree(Pieces(CannotOpenUrl))
  {
    var p := Pieces(CannotOpenUrl);
    assert '$' !in p[0];
    assert '$' !in p[1];
  }

  lemma NoDollarInInvalidUrl()
    ensures DollarFree(Pieces(InvalidUrl))
  {
    var p := Pieces(InvalidUrl);
    assert '$' !in p[0];
    assert '$' !in p[1];
  }

  lemma NoDollarInCannotWriteToPort()
    ensures DollarFree(Pieces(CannotWriteToPort))
  {
    var p := Pieces(CannotWriteToPort);
    assert '$' !in p[0];
    assert '$' !in p[1];
  }

  lemma NoDollarInIllegalContinuationApplication()
    ensures DollarFree(Pieces(IllegalContinuationApplication))
  {
    var p := Pieces(IllegalContinuationApplication);
    assert '$' !in p[0];
    assert '$' !in p[1];
    assert '$' !in p[2];
  }

  lemma NoDollarInAttemptToModifyImmutableData()
    ensures DollarFree(Pieces(AttemptToModifyImmutableData))
  {
    var p := Pieces(AttemptToModifyImmutableData);
    assert '$' !in p[0];
    assert '$' !in p[1];
  }

  lemma NoDollarInUnknownFieldOfRecordType()
    ensures DollarFree(Pieces(UnknownFieldOfRecordType))
  {
    var p := Pieces(UnknownFieldOfRecordType);
    assert '$' !in p[0];
    assert '$' !in p[1];
    assert '$' !in p[2];
  }

  lemma NoDollarInFieldCountError()
    ensures DollarFree(Pieces(FieldCountError))
  {
    var p := Pieces(FieldCountError);
    assert '$' !in p[0];
    assert '$' !in p[1];
    assert '$' !in p[2];
  }

  lemma NoDollarInMalformedLibraryDefinition()
    ensures DollarFree(Pieces(MalformedLibraryDefinition))
  {
    var p := Pieces(MalformedLibraryDefinition);
    assert '$' !in p[0];
    assert '$' !in p[1];
  }

  lemma NoDollarInMalformedLibraryName()
    ensures DollarFree(Pieces(MalformedLibraryName))
  {
    var p := Pieces(MalformedLibraryName);
    assert '$' !in p[0];
    assert '$' !in p[1];
  }

  lemma NoDollarInUninitializedExports()
    ensures DollarFree(Pieces(UninitializedExports))
  {
    var p := Pieces(UninitializedExports);
    assert '$' !in p[0];
    assert '$' !in p[1];
    assert '$' !in p[2];
  }

  lemma NoDollarInUnknownFile()
    ensures DollarFree(Pieces(UnknownFile))
  {
    var p := Pieces(UnknownFile);
    assert '$' !in p[0];
    assert '$' !in p[1];
  }

  lemma NoDollarInUnknownDirectory()
    ensures DollarFree(Pieces(UnknownDirectory))
  {
    var p := Pieces(UnknownDirectory);
    assert '$' !in p[0];
    assert '$' !in p[1];
  }

  lemma NoDollarInCannotDecodeBytevector()
    ensures DollarFree(Pieces(CannotDecodeBytevector))
  {
    var p := Pieces(CannotDecodeBytevector);
    assert '$' !in p[0];
    assert '$' !in p[1];
  }

  lemma NoDollarInCannotEncodeBytevector()
    ensures DollarFree(Pieces(CannotEncodeBytevector))
  {
    var p := Pieces(CannotEncodeBytevector);
    assert '$' !in p[0];
    assert '$' !in p[1];
  }

  lemma NoDollarInInvalidDateTime()
    ensures DollarFree(Pieces(InvalidDateTime))
  {
    var p := Pieces(InvalidDateTime);
    assert '$' !in p[0];
    assert '$' !in p[1];
  }

  lemma NoDollarInInvalidTimeZone()
    ensures DollarFree(Pieces(InvalidTimeZone))
  {
    var p := Pieces(InvalidTimeZone);
    assert '$' !in p[0];
    assert '$' !in p[1];
  }

  /** Interleaving `$`-free text with slots gives a template whose literal
      text is `$`-free. */
  lemma {:induction false} PlainTextOfInterleave(texts: seq<string>, slots: seq<Slot>)
    requires DollarFree(texts)
    ensures PlainText(Interleave(texts, slots))
    decreases |slots|
  {
    if slots != [] {
      var rest := if texts == [] then [] else texts[1..];
      assert DollarFree(rest) by {
        forall i | 0 <= i < |rest| ensures rest[i] == texts[i + 1] { }
      }
      PlainTextOfInterleave(rest, slots[1..]);
      var t := Interleave(texts, slots);
      var h := Lead(texts) + [Hole(slots[0])];
      assert t == h + Interleave(rest, slots[1..]);
      forall i | 0 <= i < |t| && t[i].Text?
        ensures '$' !in t[i].s
      {
        if i >= |h| {
          assert t[i] == Interleave(rest, slots[1..])[i - |h|];
        }
      }
    }
  }

  /** `message`: the template string of a kind. Scanning it finds exactly the
      kind's slots, in order. */
  function Message(e: EvalError): (r: string)
    ensures ScanPlaceholders(r) == Slots(e)
  {
    DigitSlotsOfInterleave(Pieces(e), Slots(e));
    TemplatePlaceholders(e);
    PiecesHaveNoDollar(e);
    PlainTextOfInterleave(Pieces(e), Slots(e));
    ScanTemplateText(Template(e));
    TemplateText(Template(e))
  }

  lemma {:induction false} DigitSlotsOfInterleave(texts: seq<string>, slots: seq<Slot>)
    requires forall i :: 0 <= i < |slots| ==> slots[i].index < 10
    ensures DigitSlots(Interleave(texts, slots))
    decreases |slots|
  {
    if slots != [] {
      DigitSlotsOfInterleave(if texts == [] then [] else texts[1..], slots[1..]);
    }
  }

  /** The placeholders a renderer finds scanning a template string. */
  function ScanPlaceholders(s: string): seq<Slot>
    decreases |s|
  {
    if |s| == 0 then []
    else if |s| >= 3 && s[0] == '$' && s[1] == ',' && IsDigit(s[2]) then
      [Deep(s[2] as int - '0' as int)] + ScanPlaceholders(s[3..])
    else if |s| >= 2 && s[0] == '$' && IsDigit(s[1]) then
      [Plain(s[1] as int - '0' as int)] + ScanPlaceholders(s[2..])
    else ScanPlaceholders(s[1..])
  }

  /** Literal text without `$` contributes no placeholder. */
  lemma {:induction false} ScanSkipsText(s: string, rest: string)
    requires '$' !in s
    ensures ScanPlaceholders(s + rest) == ScanPlaceholders(rest)
    decreases |s|
  {
    if s != [] {
      assert (s + rest)[1..] == s[1..] + rest;
      assert s[0] in s;
      ScanSkipsText(s[1..], rest);
    } else {
      assert s + rest == rest;
    }
  }

  /** A placeholder written out is found again by the scanner. */
  lemma ScanHole(g: Slot, rest: string)
    requires g.index < 10
    ensures ScanPlaceholders(SegmentText(Hole(g)) + rest) == [g] + ScanPlaceholders(rest)
  {
    var w := SegmentText(Hole(g)) + rest;
    if g.Plain? {
      assert w[2..] == rest;
    } else {
      assert w[3..] == rest;
    }
  }

  /** Writing a template as one string and scanning it again finds exactly its
      placeholders, in order, as long as its literal text holds no `$`. */
  lemma {:induction false} ScanTemplateText(t: seq<Segment>)
    requires DigitSlots(t) && PlainText(t)
    ensures ScanPlaceholders(TemplateText(t)) == Placeholders(t)
  {
    if t != [] {
      assert DigitSlots(t[1..]) && PlainText(t[1..]) by {
        forall i | 0 <= i < |t[1..]| ensures t[1..][i] == t[i + 1] { }
      }
      ScanTemplateText(t[1..]);
      var rest := TemplateText(t[1..]);
      match t[0]
      case Text(s) =>
        ScanSkipsText(s, rest);
      case Hole(g) =>
        ScanHole(g, rest);
    }
  }

  // ---------------------------------------------------------------------------
  // The argument-count guard

  /** `RuntimeError.argumentCount(min:max:args:)`. */
  datatype ArgumentCount = ArgumentCount(min: int, max: int, args: Expr)

  /** `assert(args, count:)`: `None` when the guard passes, otherwise the error
      it throws, which carries the arguments as a proper list. */
  function Assert(args: seq<Expr>, count: int): (r: Option<ArgumentCount>)
    ensures r.None? <==> |args| == count
    ensures r.Some? ==> r.value.min == count == r.value.max
    ensures r.Some? ==> IsProperList(r.value.args) && Elements(r.value.args) == args
  {
    ElementsOfListOf(args);
    if |args| == count then None else Some(ArgumentCount(count, count, ListOf(args)))
  }
}
