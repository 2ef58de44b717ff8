# snap-validator in Dafny

This project models a tag-driven validator for SNAP request structs. SNAP is the
Indonesian open-API payment standard. Each struct field carries a `snapValidator`
tag such as `required|max_length:8|numeric`. The validator:

- walks a request depth first, checking each field's rules in the order they are
  written;
- descends into non-zero nested records and into every element of slices;
- returns the first failure as an `ErrorValidation`, or nothing when every rule
  passes.

Each error carries:

- the code;
- a SNAP code with the caller's service code spliced in;
- a message, which is either a custom message looked up by field or by path key,
  or the default message of the code followed by the field's dotted json label;
- the Go name of the field.

Modules, in dependency order:

- `Wrappers`: `Option`.
- `Text`: the Go library functions the core relies on, modelled on `seq<char>`:
  - `strings.Split` and `strings.TrimSpace`;
  - `strings.ReplaceAll` with a one-character pattern and an empty replacement;
  - `strconv.Atoi`;
  - decimal rendering;
  - `fmt.Sprintf` restricted to `%d`.
- `Values`: the value tree that replaces Go reflection. Records and fields stand
  for Go structs and their struct fields; the ancestor entries (`Property`) are
  `ValidatorProperty` in the source. `Int` holds the value of any Go integer kind,
  signed or unsigned. `IsZero` stands for `reflect.DeepEqual` against the zero
  value.
- `SnapErrors`: `ErrorValidation`, `Error`, `NewErrorSnap`, `NewError` and
  `GetSnapMessage`.
- `Directives`: reading a tag into (rule, parameter) pairs.
- `Rules`: the single-value rule checks `Validate*`. Date, e-mail and URL parsing
  and the clock are parameters, held in an `Environment`.
- `ErrorFactory`:
  - `getLabel` (the method `GetLabel`);
  - the path-key loop (the method `BuildPathKey`);
  - `parsingError` and `parsingErrorWithSuffix`;
  - each method is proved equal to a specification function.
- `Engine`:
  - `process`: a `for` loop over the tag's pieces, proved against
    `FieldOutcome`;
  - `validate`: loops over fields and slice elements, proved against `Walk`;
  - `ValidateStructSnap(ServiceCode)`.
- `WalkOrder`:
  - the walk as the first failure over an explicit list of visits, in order;
  - ancestor-list properties;
  - zero-record skipping;
  - independence from the service code.
- `Scenarios`: concrete instances taken from the repository's test data, and a
  per-element custom message for the bill code of a slice of bill details.

The clock and the library parsers are inputs. `Environment.parseTime` stands for
`time.Parse` with the layout `2006-01-02T15:04:05-07:00`, as an instant. `now`
stands for `time.Now()`. `isMailAddress` and `isRequestUri` stand for
`net/mail.ParseAddress` and `net/url.ParseRequestURI`. The validator's state is
`Config(customValidation, serviceCode)`. `ValidateStructSnapServiceCode` replaces
the service code for one call, as the value receiver does.

## Model

| member | source | states |
|---|---|---|
| Text.Split | internal/validator/validator_impl.go:105-108 | `strings.Split` with one separator: one more piece than separators, no piece holds the separator, and joining the pieces gives the input back |
| Text.SplitOfJoin | internal/validator/validator_impl.go:105-108 | splitting a join of separator-free pieces returns exactly those pieces |
| Text.RemoveAll | internal/validator/validator_impl.go:548-549 | `ReplaceAll(s, c, "")` leaves no `c`, keeps every other character with its multiplicity, and is the identity when `c` is absent |
| Text.TrimSpace | internal/validator/validator_impl.go:448 | the result is empty exactly when every character is white space; otherwise it neither starts nor ends with white space |
| Text.TrimSpaceIsBlankPadded | internal/validator/validator_impl.go:448 | the result is a contiguous piece of the input and everything around it is white space |
| Text.TrimSpaceOfPadded | internal/validator/validator_impl.go:448 | blanks on both sides of a core that neither starts nor ends with a blank are removed, and the core is returned exactly |
| Text.NatToString | internal/validator/validator_impl.go:730 | `%d` of an index is a non-empty digit string without a leading zero |
| Text.DigitsValueOfNatToString | internal/validator/validator_impl.go:730 | reading the decimal rendering back gives the number |
| Text.Atoi | internal/validator/validator_impl.go:272 | a parse that succeeds is of a non-empty string and lies in the int64 range |
| Text.AtoiOfNatToString | internal/validator/validator_impl.go:309 | every in-range decimal rendering parses back to its number |
| Text.AtoiRejectsNonDigit | internal/validator/validator_impl.go:273-275 | a non-digit anywhere except a leading sign makes the parse fail |
| Text.SprintfWithoutVerbs | internal/validator/validator_impl.go:693 | a template with no `%` is copied, followed by Go's `%!(EXTRA …)` report when arguments are left over |
| Text.Sprintf | internal/validator/validator_impl.go:693 | `fmt.Sprintf` with `%d`: a non-empty template never gives an empty text, so a non-empty path entry is always used as the message |
| Text.SprintfOneIndex | internal/validator/validator_impl.go:641 | a template with one `%d` receives the decimal index in its place |
| SnapErrors.ErrorText | snap_validator_errors/errors.go:10-12 | `Error()` is the error's message |
| SnapErrors.GetSnapMessage | snap_validator_errors/errors.go:35-169 | the table of the 63 SNAP codes and their default English messages; any other code reads "General Error" (stated by `UnknownCodeIsGeneralError` and `ValidationCodeMessages`) |
| SnapErrors.ErrorTextOfConstructors | snap_validator_errors/errors.go:10-12 | `Error()` is the message: for `NewErrorSnap` the default message, a space and the label; for `NewError` the default message alone |
| SnapErrors.SpliceServiceCode | snap_validator_errors/errors.go:14-17 | codes of at most four characters are kept; a longer code becomes its first three characters, the service code, then its fourth and fifth characters |
| SnapErrors.UnspliceOfSplice | snap_validator_errors/errors.go:16 | for a five-character code the SNAP code has length 5 + the service code's length, and the code and the service code can be read back from it |
| SnapErrors.NewErrorSnap | snap_validator_errors/errors.go:13-24 | code and field name copied, SNAP code spliced, message is the default message, a space and the label |
| SnapErrors.NewErrorSnapWithoutServiceCode | snap_validator_errors/errors.go:15-21 | with an empty service code a five-character code is its own SNAP code, and `NewErrorSnap` is `NewError` with the label appended |
| SnapErrors.NewError | snap_validator_errors/errors.go:26-33 | never splices: SNAP code equals code; message is the default message |
| SnapErrors.UnknownCodeIsGeneralError | snap_validator_errors/errors.go:165-166 | every code outside the table's 63 codes reads "General Error" |
| SnapErrors.ValidationCodeMessages | snap_validator_errors/errors.go:44-47 | 40001 reads "Invalid Field Format", 40002 "Missing Mandatory Field", and the configuration code 500000 "General Error" |
| SnapErrors.SpliceExample | snap_validator_errors/errors.go:16 | code 40002 with service code 25 gives SNAP code 4002502 |
| Directives.ParseDirective | internal/validator/validator_impl.go:108-113 | the rule name is the text before the first colon; the parameter is the rest exactly when there is one colon, and empty otherwise; neither holds a colon |
| Directives.ParseTag | internal/validator/validator_impl.go:104-108 | one directive per bar-separated piece, none holding a bar |
| Directives.ParseOfRenderDirective | internal/validator/validator_impl.go:108-113 | a clean name and parameter written as `name` or `name:param` are read back exactly |
| Directives.ParseOfRenderTag | internal/validator/validator_impl.go:104-113 | a non-empty list of clean directives joined by bars is read back exactly, in order |
| Directives.ExtraColonDropsParameter | internal/validator/validator_impl.go:110-113 | a piece with two or more colons keeps its name and has no parameter |
| Directives.EmptyTag | internal/validator/validator_impl.go:104-105 | a field without the tag yields one directive with an empty name |
| Values.IsZero | internal/validator/validator_impl.go:60 | `reflect.DeepEqual` with the zero value: the empty string, 0, `false`, a nil slice, a nil pointer, and a record all of whose fields are zero; a non-nil slice or pointer never is |
| Rules.ValidateRequired | internal/validator/validator_impl.go:198-234 | the flag method fails exactly when the value is absent (empty string, zero record, integer ≤ 0, nil or empty slice, pointer to a zero value), always with code 40002 |
| Rules.RequiredVersusZero | internal/validator/validator_impl.go:198-227 | how `required` relates to zero values: among zero values only `false` and the nil pointer pass; among the others only negative integers, empty non-nil slices and pointers to zero values fail |
| Rules.RequiredExamples | snap_validator_test.go:66-88 | the empty string, a pointer to an empty request, an empty request, an empty slice and 0 all fail `required`; `false` and a nil pointer pass |
| Rules.ValidateMaxLength | internal/validator/validator_impl.go:246-263 | passes exactly for the empty string or a length in code points of at most the bound; non-strings count as length 0 |
| Rules.ValidateMinLength | internal/validator/validator_impl.go:283-300 | passes exactly for the empty string or a length of at least the bound |
| Rules.MatchesClassPlus | internal/validator/validator_impl.go:387 | `^[class]+$` holds exactly for a non-empty string whose every character is in the class |
| Rules.ValidateAlphaNum | internal/validator/validator_impl.go:381-397 | non-strings and `""` pass; a string passes exactly when every character is an ASCII letter or digit; failure is 40001 |
| Rules.ValidateAlphaNumSymbol | internal/validator/validator_impl.go:411-428 | as `alpha_numeric` but `_` and `-` are admitted too |
| Rules.ValidateNumeric | internal/validator/validator_impl.go:441-456 | a non-empty string passes exactly when its `TrimSpace` is a non-empty digit string, so an all-blank string fails |
| Rules.NumericAcceptsPaddedDigits | internal/validator/validator_impl.go:448 | digits surrounded by blanks pass, as the test's service id `"   1114"` does |
| Rules.ValidateString | internal/validator/validator_impl.go:468-483 | passes exactly when every character is a letter, a digit, the space or one of `:;)(+/&#!@%*.,'"_-` |
| Rules.SymbolExamples | internal/validator/validator_impl.go:418 | the test's transaction id `ishdfi-8u8u9kk` passes `alpha_numeric_symbol` and fails `alpha_numeric` |
| Rules.StringRuleAccepts | internal/validator/validator_impl.go:474 | `No. 1 (paid)` passes `string` (space, dot and parentheses admitted) |
| Rules.StringRuleRejects | internal/validator/validator_impl.go:474 | `a=b` fails `string` |
| Rules.ValidateAmount | internal/validator/validator_impl.go:496-511 | a non-empty string passes exactly when it is `0` or one to eleven digits without a leading zero, followed by exactly `.00` |
| Rules.AmountCharacterization | internal/validator/validator_impl.go:502 | `amount` accepts exactly `""` and the renderings `n.00` of the whole numbers n below 10^11 |
| Rules.AmountAcceptsDecimal | internal/validator/validator_impl.go:502 | every whole number below 10^11 followed by `.00` matches |
| Rules.AmountIsDecimal | internal/validator/validator_impl.go:502 | every match is the decimal rendering of its whole part, below 10^11, followed by `.00` |
| Rules.AmountWholeIsDecimal | internal/validator/validator_impl.go:502 | the accepted whole parts are the canonical renderings of their values |
| Rules.AmountExamples | internal/validator/validator_impl.go:502 | `0.00` and `25000.00` pass; `25000.0`, `-1.00` and `0025000.00` fail |
| Rules.InDataList | internal/validator/validator_impl.go:548-550 | the parameter without brackets, split on commas: at least one entry |
| Rules.ValidateInData | internal/validator/validator_impl.go:540-557 | non-strings and `""` pass; a string passes exactly when it equals one entry |
| Rules.InDataListOfBracketed | internal/validator/validator_impl.go:548-550 | `[a,b,…]` lists exactly the entries, untrimmed, when they hold no bracket or comma |
| Rules.InDataOfBracketedList | internal/validator/validator_impl.go:540-557 | for such a list a non-empty value passes exactly when it is one of the entries |
| Rules.ValidateIsoDate | internal/validator/validator_impl.go:320-335 | a non-empty string passes exactly when the date layout parses it |
| Rules.ValidateAfterTimeNow | internal/validator/validator_impl.go:348-369 | a non-empty string passes exactly when it parses and is not before now; a parsed past date gets the "must greater than now" message |
| Rules.ValidateEmail | internal/validator/validator_impl.go:559-574 | a non-empty string passes exactly when it is a mail address |
| Rules.ValidateUrl | internal/validator/validator_impl.go:587-602 | a non-empty string passes exactly when it is a request URI |
| ErrorFactory.GetLabel | internal/validator/validator_impl.go:717-744 | the loop builds the label: each ancestor, root first, gives its json name or Go name and a dot, and its index and a dot when it is a slice element; then the field's json tag or its Go name |
| ErrorFactory.ConcatMapAppend | internal/validator/validator_impl.go:723-740 | the per-ancestor pieces of a concatenated ancestor list concatenate |
| ErrorFactory.LabelPrefixAppend | internal/validator/validator_impl.go:723-740 | the label prefix of `a + b` is that of `a` followed by that of `b` |
| ErrorFactory.LabelOfChild | internal/validator/validator_impl.go:723-741 | one more ancestor adds exactly its segment in front of the field's own label |
| ErrorFactory.NamelessAncestorIgnored | internal/validator/validator_impl.go:725-736 | an ancestor with neither a json name nor a Go name leaves no trace in the label |
| ErrorFactory.ArrayIndices | internal/validator/validator_impl.go:682-685 | at most one index per ancestor, and none exactly when no ancestor is a slice element |
| ErrorFactory.BuildPathKey | internal/validator/validator_impl.go:676-689 | the loop builds the path key and the slice indices, root first |
| ErrorFactory.KeyPrefixIsJoin | internal/validator/validator_impl.go:676-686 | with named ancestors the path prefix is their Go names, each followed by `.*` when it is a slice, joined by dots |
| ErrorFactory.KeyPrefixEmpty | internal/validator/validator_impl.go:687 | the prefix is empty exactly when every ancestor is unnamed and not a slice |
| ErrorFactory.KeyIgnoresJsonAndIndex | internal/validator/validator_impl.go:681-683 | the key depends only on the Go names and the slice flags, never on json names or element indices |
| ErrorFactory.ResolveError | internal/validator/validator_impl.go:670-713 | the method returns the custom-message error when there is a message, otherwise `NewErrorSnap` with the label |
| ErrorFactory.ParsingError | internal/validator/validator_impl.go:667-715 | `parsingError` as a method, equal to its specification |
| ErrorFactory.ParsingErrorWithSuffix | internal/validator/validator_impl.go:615-665 | `parsingErrorWithSuffix` as a method; the label is followed by a space and the suffix |
| ErrorFactory.PathKeyOverridesFieldKey | internal/validator/validator_impl.go:690-697 | a non-empty path entry always replaces the field entry, with the indices substituted when some ancestor is a slice; the error is the spliced code, that message and the Go name, with no label |
| ErrorFactory.FieldKeyWithoutPathEntry | internal/validator/validator_impl.go:673 | without a path entry a non-empty `Name:rule` entry is the message |
| ErrorFactory.FallbackUsesLabel | internal/validator/validator_impl.go:713 | without a custom message the error is `NewErrorSnap` with the label; `after_time_now` adds ` must greater than now` |
| ErrorFactory.NoTablesFallBack | internal/validator/validator_impl.go:671 | a validator without tables always falls back to the label |
| ErrorFactory.OnlyFirstTable | internal/validator/validator_impl.go:672 | tables after the first change nothing |
| ErrorFactory.ServiceCodeOnlyInSnapCode | internal/validator/validator_impl.go:700-709 | the service code affects only the SNAP code of the error |
| Engine.ApplyDirective | internal/validator/validator_impl.go:117-192 | one case of the switch, equal to the directive's outcome |
| Engine.ApplyLength | internal/validator/validator_impl.go:265-281 | `validateMin/MaxLength`: an empty parameter means 0; a parameter `Atoi` rejects gives `NewError("500000", Name)` |
| Engine.Process | internal/validator/validator_impl.go:100-196 | the loop over the tag's pieces returns the outcome of the directives in order, stopping at the first failure |
| Engine.RunDirectivesFirstFailure | internal/validator/validator_impl.go:106-194 | a field passes exactly when all its directives pass, and a failure is that of the first failing directive |
| Engine.UndispatchedNamePasses | internal/validator/validator_impl.go:117-192 | a rule name the switch has no case for, the empty one included, passes |
| Engine.BadLengthParameter | internal/validator/validator_impl.go:272-275 | `min_length`/`max_length` with a parameter `Atoi` rejects fail with code and SNAP code 500000, "General Error" and the Go name |
| Engine.EmptyLengthParameter | internal/validator/validator_impl.go:269-271 | an empty parameter means 0: `min_length` then always passes, and `max_length` passes exactly the empty string and non-strings |
| Engine.LengthParameterIsBound | internal/validator/validator_impl.go:265-318 | `max_length:n` passes exactly the empty string and values of length at most n, `min_length:n` exactly the empty string and values of length at least n; a failure is the 40001 error named after the rule |
| Engine.Validate | internal/validator/validator_impl.go:44-98 | the field loop of `validate` returns the walk's result |
| Engine.ValidateField | internal/validator/validator_impl.go:48-95 | one field: its own directives, then the descent into a non-zero record or into each slice element in order |
| Engine.ValidateStructSnap | internal/validator/validator_impl.go:35-37 | the walk from the given ancestors |
| Engine.ValidateStructSnapServiceCode | internal/validator/validator_impl.go:39-42 | the walk with the service code replaced for this call only |
| WalkOrder.FirstFailureAppend | internal/validator/validator_impl.go:54-56 | the first failure of `a + b` is that of `a`, or that of `b` when `a` passes |
| WalkOrder.FirstFailureCharacterization | internal/validator/validator_impl.go:54-56 | a list of visits passes exactly when every visit passes; otherwise the result is the first failing visit's |
| WalkOrder.WalkIsFirstFailure | internal/validator/validator_impl.go:44-98 | the walk is the first failure over its visits: each field, then everything below it, in declaration and index order |
| WalkOrder.WalkFieldsIsFirstFailure | internal/validator/validator_impl.go:47-97 | the same for the fields from position i on |
| WalkOrder.FieldStepIsFirstFailure | internal/validator/validator_impl.go:50-95 | a field's directives come before anything below it |
| WalkOrder.BelowIsFirstFailure | internal/validator/validator_impl.go:58-95 | the descent into a record or a slice is the first failure of its visits |
| WalkOrder.WalkElementsIsFirstFailure | internal/validator/validator_impl.go:76-94 | the slice elements are walked in index order |
| WalkOrder.WalkFailsAtFirstFailingVisit | internal/validator/validator_impl.go:44-98 | no error means every visited field passes; otherwise the error is that of the first failing visit, with no later field consulted |
| WalkOrder.VisitsExtendAncestors | internal/validator/validator_impl.go:61-88 | every visit's ancestor list extends the one the walk started with |
| WalkOrder.VisitsFieldsExtendAncestors | internal/validator/validator_impl.go:61-88 | the same for the fields from position i on |
| WalkOrder.VisitsBelowExtendAncestors | internal/validator/validator_impl.go:61-88 | below a field every ancestor list extends the field's own by one entry: below a record that entry is `Array=false` and the visit belongs to the record; below a slice it is `Array=true, IdxArray=j` and the visit belongs to element j |
| WalkOrder.VisitsElementsExtendAncestors | internal/validator/validator_impl.go:79-86 | each visit among the elements from j on belongs to some element j' ≥ j and is reached through that element's own entry, `IdxArray=j'` |
| WalkOrder.ZeroFieldHidesItsFields | internal/validator/validator_impl.go:60 | a zero record field is visited itself, and nothing inside it is |
| WalkOrder.ZeroNestedRecordPasses | internal/validator/validator_impl.go:58-72 | an example: a record whose only, untagged field holds an all-zero record passes, whatever the fields inside demand |
| WalkOrder.FieldErrorServiceCode | internal/validator/validator_impl.go:700-713 | the error built for one failure differs between two service codes only in the SNAP code |
| WalkOrder.LengthServiceCode | internal/validator/validator_impl.go:265-318 | the same for the length rules |
| WalkOrder.DirectiveServiceCode | internal/validator/validator_impl.go:117-192 | the same for every directive |
| WalkOrder.RunDirectivesServiceCode | internal/validator/validator_impl.go:106-194 | the same for a run of directives |
| WalkOrder.FirstFailureServiceCode | internal/validator/validator_impl.go:54-56 | the same for a list of visits |
| WalkOrder.WalkServiceCode | internal/validator/validator_impl.go:39-42 | two service codes fail on the same field, with the same code, message and field name |
| Scenarios.LabelExample | internal/validator/validator_impl.go:725-741 | the code of the second bill is labelled `billDetails.1.billCode` |
| Scenarios.BillCodeKey | internal/validator/validator_impl.go:676-690 | the bill code of element 3 has the path key `BillDetails.*.BillCode` and the indices `[3]` |
| Scenarios.BillCodeTemplate | internal/validator/validator_impl.go:693 | `item %d missing code` with the indices `[3]` is `item 3 missing code` |
| Scenarios.CustomMessageExample | internal/validator/validator_impl.go:690-709 | `BillDetails.*.BillCode:required` with service code 25 gives code 40002, SNAP code 4002502 and the message `item 3 missing code` |
| Scenarios.InDataCurrency | internal/validator/validator_impl.go:540-557 | `in_data:[IDR]` from the test admits exactly `""` and `IDR` |
| Scenarios.UrlIsNotDispatched | internal/validator/validator_impl.go:117-192 | `url` has no case in the switch, so it never fails |

## Left out

- Go reflection is replaced by the `Values` tree, and `reflect.DeepEqual` against the zero value by `IsZero`. Unexported fields, for which `Interface()` panics, are not modelled.
- Engine.Walk: slices whose elements are not records are excluded by `WellFormed`, since `validate` calls `NumField` on each element and would panic. Pointers are never descended into, as in the source.
- Rules.ValidateRequired models integers only, signed and unsigned alike by their value. The source formats with `%d` and re-parses with `ParseFloat`; floating-point kinds are not modelled.
- Environment.now is one instant for the whole walk. The source calls `time.Now()` afresh at each `after_time_now` check (internal/validator/validator_impl.go:361), so a walk that straddles a date could see two different clocks.
- Rules.ValidateIsoDate, Rules.ValidateAfterTimeNow, Rules.ValidateEmail, Rules.ValidateUrl: the date layout parser, the clock, `net/mail` and `net/url` are parameters of `Environment`. The model states how each rule uses them, not what they accept.
- Rules.ValidateInData: `snap_validator_utils.InArray` is not part of this model. It is taken to be exact string equality.
- Text.Sprintf interprets `%d` and `%%`, plus Go's `%!d(MISSING)` and `%!(EXTRA …)` reports. Other verbs are copied verbatim, which differs from Go for templates that use them.
- Text.Atoi models the decimal syntax and the int64 range. It does not model the error values.
- The json label is the raw text of the `json` tag, `,omitempty` included, exactly as `Tag.Get("json")` returns it.
- SnapErrors.SpliceServiceCode slices the code by characters. Go slices by bytes, so the two agree only for codes of ASCII characters, which all table codes are.
- The wiring in `snap_validator.go` (`init` and the delegating methods) is not part of this model. Neither are the constructors `New` and `NewService`, which only fill `Config`.
- A nil pointer passes `required`, as written: `reflect.DeepEqual` of a nil pointer with a pointer to a fresh zero value is false.
