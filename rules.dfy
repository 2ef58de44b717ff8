/** The rule checks: one function per rule, each looking at a single value and
    returning the plain error the exported `Validate*` methods return (`None` for
    Go's `nil`). Every rule except `required` accepts the empty string and every
    value that is not a string. Regular expressions are stated as character
    classes and small grammars. */
module Rules {
  import opened Wrappers
  import opened Text
  import opened Values
  import opened SnapErrors

  /** The collaborators the rules call but this model does not define: the date parser
      for the layout `2006-01-02T15:04:05-07:00` (the parsed instant, or `None` on a
      parse error), the clock, `net/mail.ParseAddress` and `net/url.ParseRequestURI`. */
  datatype Environment = Environment(
    parseTime: string -> Option<int>,
    now: int,
    isMailAddress: string -> bool,
    isRequestUri: string -> bool)

  /** The plain errors returned by the exported checks; only their presence matters
      to the dispatcher, which builds the error it returns itself. */
  const FormatError: ErrorValidation := ErrorValidation("40001", "", "Invalid field format", "")
  const MandatoryError: ErrorValidation := ErrorValidation("40002", "", "Invalid mandatory field", "")
  const PastDateError: ErrorValidation :=
    ErrorValidation("40001", "", "Invalid field format date must greater than now", "")

  // ---------------------------------------------------------------------------
  // required
  // ---------------------------------------------------------------------------

  /** What `required` accepts: a non-empty string, a non-zero struct, a positive number,
      a non-empty slice, a pointer that is nil or points to a non-zero value, and
      every other kind (booleans). */
  predicate IsPresent(v: Value) {
    match v
    case Str(s) => s != ""
    case Record(_) => !IsZero(v)
    case Int(i) => i > 0
    case Slice(es) => |es| > 0
    case NilSlice => false
    case Ptr(t) => !IsZero(t)
    case NilPtr => true
    case Bool(_) => true
  }

  function SliceLength(v: Value): nat
    requires v.Slice? || v.NilSlice?
  {
    if v.Slice? then |v.elems| else 0
  }

  /** `reflect.DeepEqual(p, reflect.New(T))` for a pointer `p` to a `T`: both point to
      equal values. A nil pointer compares unequal to the fresh one. */
  predicate PointsToZero(v: Value)
    requires v.Ptr? || v.NilPtr?
  {
    v.Ptr? && IsZero(v.target)
  }

  /** `ValidateRequired`: a chain of kind tests that clears a validity flag. */
  method ValidateRequired(v: Value) returns (err: Option<ErrorValidation>)
    ensures err.None? <==> IsPresent(v)
    ensures err.Some? ==> err.value == MandatoryError
  {
    var isValid := true;
    if v.Str? {
      if v.s == "" {
        isValid := false;
      }
    } else if v.Record? {
      if IsZero(v) {
        isValid := false;
      }
    } else if v.Int? {
      if v.i <= 0 {
        isValid := false;
      }
    } else if v.Slice? || v.NilSlice? {
      if IsZero(v) {
        isValid := false;
      }
      if SliceLength(v) == 0 {
        isValid := false;
      }
    } else if v.Ptr? || v.NilPtr? {
      if PointsToZero(v) {
        isValid := false;
      }
    }
    if !isValid {
      return Some(MandatoryError);
    }
    return None;
  }

  /** `required` and the zero value: a zero value fails unless it is `false` or a nil
      pointer, and a non-zero value fails only when it is a negative number, an empty
      non-nil slice or a pointer to a zero value. */
  lemma RequiredVersusZero(v: Value)
    ensures IsZero(v) ==> (IsPresent(v) <==> v.Bool? || v.NilPtr?)
    ensures !IsZero(v) ==> (IsPresent(v) <==> !((v.Int? && v.i < 0) || v == Slice([]) || (v.Ptr? && IsZero(v.target))))
  {
  }

  /** The cases the repository's tests assert, plus zero, negative and positive integers. */
  lemma RequiredExamples()
    ensures !IsPresent(Str(""))
    ensures !IsPresent(Ptr(Record([Field("TrxId", "trxId", "required", Str(""))])))
    ensures !IsPresent(Record([Field("TrxId", "trxId", "required", Str("")), Field("Count", "", "", Int(0))]))
    ensures !IsPresent(Slice([])) && !IsPresent(NilSlice)
    ensures !IsPresent(Int(0)) && !IsPresent(Int(-5)) && IsPresent(Int(1))
    ensures IsPresent(Bool(false)) && IsPresent(NilPtr)
  {
  }

  // ---------------------------------------------------------------------------
  // min_length / max_length
  // ---------------------------------------------------------------------------

  /** The length `min_length`/`max_length` measure: code points of a string, 0 for
      every other kind. */
  function StringLength(v: Value): nat {
    if v.Str? then |v.s| else 0
  }

  /** `ValidateMaxLength`: the empty string passes; otherwise the length must not
      exceed the bound. */
  function ValidateMaxLength(length: int, v: Value): (r: Option<ErrorValidation>)
    ensures r.None? <==> v == Str("") || StringLength(v) <= length
    ensures r.Some? ==> r.value == FormatError
  {
    if v.Str? && v.s == "" then None
    else if StringLength(v) > length then Some(FormatError)
    else None
  }

  /** `ValidateMinLength`: the empty string passes; otherwise the length must reach
      the bound. */
  function ValidateMinLength(length: int, v: Value): (r: Option<ErrorValidation>)
    ensures r.None? <==> v == Str("") || StringLength(v) >= length
    ensures r.Some? ==> r.value == FormatError
  {
    if v.Str? && v.s == "" then None
    else if StringLength(v) < length then Some(FormatError)
    else None
  }

  /** A value that is not a string has length 0: it passes every non-negative
      `max_length` and fails every positive `min_length`. */
  lemma LengthOfNonStrings(v: Value, length: int)
    requires !v.Str?
    ensures length >= 0 ==> ValidateMaxLength(length, v).None?
    ensures length > 0 ==> ValidateMinLength(length, v).Some?
  {
  }

  // ---------------------------------------------------------------------------
  // Character-class rules
  // ---------------------------------------------------------------------------

  /** The character classes of the rules' regular expressions (`\d` is ASCII in Go). */
  datatype CharClass = AlphaNumeric | AlphaNumericSymbol | Digits | StringChars

  predicate IsAsciiLetter(c: char) {
    'a' <= c <= 'z' || 'A' <= c <= 'Z'
  }

  /** The space and the punctuation `:;)(+/&#!@%*.,'"_-` of the `string` rule. */
  predicate IsStringPunctuation(c: char) {
    c == ':' || c == ';' || c == ' ' || c == ')' || c == '(' || c == '+' || c == '/' ||
    c == '&' || c == '#' || c == '!' || c == '@' || c == '%' || c == '*' || c == '.' ||
    c == ',' || c == '\'' || c == '"' || c == '_' || c == '-'
  }

  predicate InClass(c: char, cls: CharClass) {
    match cls
    case AlphaNumeric => IsAsciiLetter(c) || IsDigit(c)
    case AlphaNumericSymbol => IsAsciiLetter(c) || IsDigit(c) || c == '_' || c == '-'
    case Digits => IsDigit(c)
    case StringChars => IsAsciiLetter(c) || IsDigit(c) || IsStringPunctuation(c)
  }

  /** `^[class]+$`, matched one character at a time. */
  function MatchesClassPlus(s: string, cls: CharClass): (ok: bool)
    ensures ok <==> |s| >= 1 && forall i | 0 <= i < |s| :: InClass(s[i], cls)
  {
    |s| >= 1 && InClass(s[0], cls) && (|s| == 1 || MatchesClassPlus(s[1..], cls))
  }

  /** `ValidateAlphaNum`: `^[a-zA-Z\d]+$`. */
  function ValidateAlphaNum(v: Value): (r: Option<ErrorValidation>)
    ensures r.None? <==> !v.Str? || forall i | 0 <= i < |v.s| :: IsAsciiLetter(v.s[i]) || IsDigit(v.s[i])
    ensures r.Some? ==> r.value == FormatError
  {
    if v.Str? && v.s != "" && !MatchesClassPlus(v.s, AlphaNumeric) then Some(FormatError) else None
  }

  /** `ValidateAlphaNumSymbol`: `^[a-zA-Z\d_-]+$`. */
  function ValidateAlphaNumSymbol(v: Value): (r: Option<ErrorValidation>)
    ensures r.None? <==> !v.Str? || forall i | 0 <= i < |v.s| :: InClass(v.s[i], AlphaNumericSymbol)
    ensures r.Some? ==> r.value == FormatError
  {
    if v.Str? && v.s != "" && !MatchesClassPlus(v.s, AlphaNumericSymbol) then Some(FormatError) else None
  }

  /** `ValidateNumeric`: `^\d+$` matched against the string with surrounding white
      space removed, so a string of blanks fails. */
  function ValidateNumeric(v: Value): (r: Option<ErrorValidation>)
    ensures r.None? <==> !v.Str? || v.s == "" || (TrimSpace(v.s) != "" && AllDigits(TrimSpace(v.s)))
    ensures v.Str? && v.s != "" && (forall k | 0 <= k < |v.s| :: IsSpace(v.s[k])) ==> r.Some?
    ensures r.Some? ==> r.value == FormatError
  {
    if v.Str? && v.s != "" && !MatchesClassPlus(TrimSpace(v.s), Digits) then Some(FormatError) else None
  }

  /** `ValidateString`: letters, digits, the space and `:;)(+/&#!@%*.,'"_-`. */
  function ValidateString(v: Value): (r: Option<ErrorValidation>)
    ensures r.None? <==> !v.Str? || forall i | 0 <= i < |v.s| :: InClass(v.s[i], StringChars)
    ensures r.Some? ==> r.value == FormatError
  {
    if v.Str? && v.s != "" && !MatchesClassPlus(v.s, StringChars) then Some(FormatError) else None
  }

  /** Digits padded with blanks pass (as the test's service id `"   1114"` does). */
  lemma NumericAcceptsPaddedDigits(front: string, digits: string, back: string)
    requires forall k | 0 <= k < |front| :: IsSpace(front[k])
    requires forall k | 0 <= k < |back| :: IsSpace(back[k])
    requires |digits| >= 1 && AllDigits(digits)
    ensures ValidateNumeric(Str(front + digits + back)).None?
  {
    assert !IsSpace(digits[0]) && !IsSpace(digits[|digits| - 1]);
    TrimSpaceOfPadded(front, digits, back);
    assert MatchesClassPlus(digits, Digits);
  }

  /** The transaction id of the repository's test passes `alpha_numeric_symbol` but
      not `alpha_numeric`. */
  lemma SymbolExamples(t: string)
    requires t == "ishdfi-8u8u9kk"
    ensures ValidateAlphaNumSymbol(Str(t)).None?
    ensures ValidateAlphaNum(Str(t)).Some?
  {
    assert !InClass(t[6], AlphaNumeric);
    assert forall i | 0 <= i < |t| :: InClass(t[i], AlphaNumericSymbol);
  }

  /** `string` accepts the space and the listed punctuation. */
  lemma StringRuleAccepts(t: string)
    requires t == "No. 1 (paid)"
    ensures ValidateString(Str(t)).None?
  {
    assert forall i | 0 <= i < |t| :: InClass(t[i], StringChars);
  }

  /** `string` rejects a character outside the allow-list, such as `=`. */
  lemma StringRuleRejects(t: string)
    requires t == "a=b"
    ensures ValidateString(Str(t)).Some?
  {
    assert !InClass(t[1], StringChars);
  }

  // ---------------------------------------------------------------------------
  // amount
  // ---------------------------------------------------------------------------

  const MaxAmountDigits: nat := 11

  /** `^(0|[1-9]\d{0,10})[.]0{2}$`: a whole part of `0` or of one to eleven digits
      without a leading zero, then exactly `.00`. */
  predicate MatchesAmount(s: string) {
    |s| >= 4 && s[|s| - 3..] == ".00" && IsAmountWhole(s[..|s| - 3])
  }

  /** The whole part `0|[1-9]\d{0,10}`. */
  predicate IsAmountWhole(whole: string) {
    whole == "0" || (1 <= |whole| <= MaxAmountDigits && '1' <= whole[0] <= '9' && AllDigits(whole))
  }

  /** `ValidateAmount`. */
  function ValidateAmount(v: Value): (r: Option<ErrorValidation>)
    ensures r.None? <==> !v.Str? || v.s == "" || MatchesAmount(v.s)
    ensures r.Some? ==> r.value == FormatError
  {
    if v.Str? && v.s != "" && !MatchesAmount(v.s) then Some(FormatError) else None
  }

  /** Every whole amount below 10^11, written in decimal and followed by `.00`, passes. */
  lemma AmountAcceptsDecimal(n: nat)
    requires n < Pow10(MaxAmountDigits)
    ensures MatchesAmount(NatToString(n) + ".00")
  {
    var s := NatToString(n) + ".00";
    NatToStringLength(n, MaxAmountDigits);
    assert s[..|s| - 3] == NatToString(n);
    assert s[|s| - 3..] == ".00";
  }

  /** Every accepted amount is the decimal rendering of a whole amount below 10^11
      followed by `.00`. */
  lemma AmountIsDecimal(s: string)
    requires MatchesAmount(s)
    ensures AllDigits(s[..|s| - 3])
    ensures DigitsValue(s[..|s| - 3]) < Pow10(MaxAmountDigits)
    ensures s == NatToString(DigitsValue(s[..|s| - 3])) + ".00"
  {
    AmountWholeIsDecimal(s[..|s| - 3]);
    assert s == s[..|s| - 3] + s[|s| - 3..];
  }

  /** An accepted whole part is the decimal rendering of its value, below 10^11. */
  lemma AmountWholeIsDecimal(whole: string)
    requires IsAmountWhole(whole)
    ensures AllDigits(whole)
    ensures DigitsValue(whole) < Pow10(MaxAmountDigits)
    ensures whole == NatToString(DigitsValue(whole))
  {
    assert whole == "0" ==> AllDigits(whole);
    NatToStringOfDigitsValue(whole);
    DigitsValueBound(whole);
    if |whole| < MaxAmountDigits {
      PowMonotone(|whole|, MaxAmountDigits);
    }
  }

  lemma {:induction false} PowMonotone(j: nat, k: nat)
    requires j <= k
    ensures Pow10(j) <= Pow10(k)
  {
    if j < k {
      PowMonotone(j, k - 1);
    }
  }

  /** The amount rule accepts exactly the empty string and the canonical two-decimal
      renderings of the whole numbers 0 .. 99999999999. */
  lemma AmountCharacterization(s: string)
    ensures ValidateAmount(Str(s)).None? <==>
              s == "" || exists n: nat :: n < Pow10(MaxAmountDigits) && s == NatToString(n) + ".00"
  {
    if MatchesAmount(s) {
      AmountIsDecimal(s);
    }
    if exists n: nat :: n < Pow10(MaxAmountDigits) && s == NatToString(n) + ".00" {
      var n: nat :| n < Pow10(MaxAmountDigits) && s == NatToString(n) + ".00";
      AmountAcceptsDecimal(n);
    }
  }

  lemma AmountExamples()
    ensures ValidateAmount(Str("0.00")).None?
    ensures ValidateAmount(Str("25000.00")).None?
    ensures ValidateAmount(Str("25000.0")).Some?
    ensures ValidateAmount(Str("-1.00")).Some?
    ensures ValidateAmount(Str("0025000.00")).Some?
  {
    assert "0.00"[..1] == "0";
    assert "25000.00"[..5] == "25000";
    assert "25000.0"[4..] == "0.0";
    assert "-1.00"[..2] == "-1";
    assert "0025000.00"[..7] == "0025000";
  }

  // ---------------------------------------------------------------------------
  // in_data
  // ---------------------------------------------------------------------------

  /** The allow-list of an `in_data` parameter: every `[` and `]` removed, then split
      on `,` with no trimming. */
  function InDataList(param: string): (entries: seq<string>)
    ensures |entries| >= 1
  {
    Split(RemoveAll(RemoveAll(param, '['), ']'), ',')
  }

  /** `ValidateInData`: a non-empty string must equal one of the allowed entries. */
  function ValidateInData(allowed: seq<string>, v: Value): (r: Option<ErrorValidation>)
    ensures r.None? <==> !v.Str? || v.s == "" || v.s in allowed
    ensures r.Some? ==> r.value == FormatError
  {
    if v.Str? && v.s != "" && v.s !in allowed then Some(FormatError) else None
  }

  lemma {:induction false} RemoveAllAppend(a: string, b: string, c: char)
    ensures RemoveAll(a + b, c) == RemoveAll(a, c) + RemoveAll(b, c)
  {
    if a != [] {
      assert (a + b)[1..] == a[1..] + b;
      RemoveAllAppend(a[1..], b, c);
    } else {
      assert a + b == b;
    }
  }

  /** Round trip: a bracketed, comma-separated list of plain entries reads back as
      those entries. */
  lemma InDataListOfBracketed(entries: seq<string>)
    requires |entries| >= 1
    requires forall i | 0 <= i < |entries| :: '[' !in entries[i] && ']' !in entries[i] && ',' !in entries[i]
    ensures InDataList("[" + Join(entries, ',') + "]") == entries
  {
    var body := Join(entries, ',');
    JoinAvoids(entries, ',', '[');
    JoinAvoids(entries, ',', ']');
    RemoveAllAppend("[" + body, "]", '[');
    RemoveAllAppend("[", body, '[');
    assert RemoveAll("[", '[') == "";
    assert RemoveAll("]", '[') == "]";
    assert RemoveAll(RemoveAll("[" + body + "]", '['), ']') == body by {
      assert RemoveAll("[" + body + "]", '[') == body + "]";
      RemoveAllAppend(body, "]", ']');
      assert RemoveAll("]", ']') == "";
    }
    SplitOfJoin(entries, ',');
  }

  /** Joining pieces that avoid `x` with a separator other than `x` avoids `x`. */
  lemma {:induction false} JoinAvoids(parts: seq<string>, c: char, x: char)
    requires x != c
    requires forall i | 0 <= i < |parts| :: x !in parts[i]
    ensures x !in Join(parts, c)
  {
    if |parts| > 1 {
      JoinAvoids(parts[1..], c, x);
    }
  }

  /** For a bracketed list such as `[IDR]`, a non-empty value passes exactly when it
      is one of the entries, character for character (`[IDR, USD]` lists `" USD"`). */
  lemma InDataOfBracketedList(entries: seq<string>, x: string)
    requires |entries| >= 1
    requires forall i | 0 <= i < |entries| :: '[' !in entries[i] && ']' !in entries[i] && ',' !in entries[i]
    ensures ValidateInData(InDataList("[" + Join(entries, ',') + "]"), Str(x)).None? <==> x == "" || x in entries
  {
    InDataListOfBracketed(entries);
  }

  // ---------------------------------------------------------------------------
  // Rules that call foreign parsers and the clock
  // ---------------------------------------------------------------------------

  /** `ValidateIsoDate`: a non-empty string must parse under the fixed layout. */
  function ValidateIsoDate(env: Environment, v: Value): (r: Option<ErrorValidation>)
    ensures r.None? <==> !v.Str? || v.s == "" || env.parseTime(v.s).Some?
    ensures r.Some? ==> r.value == FormatError
  {
    if v.Str? && v.s != "" && !env.parseTime(v.s).Some? then Some(FormatError) else None
  }

  /** `ValidateAfterTimeNow`: a non-empty string must parse and must not lie before
      the current instant (`time.Now().After(t)` fails it). */
  function ValidateAfterTimeNow(env: Environment, v: Value): (r: Option<ErrorValidation>)
    ensures r.None? <==> !v.Str? || v.s == "" || (env.parseTime(v.s).Some? && env.parseTime(v.s).value >= env.now)
    ensures r.Some? ==> r.value.code == "40001"
    ensures r.Some? && env.parseTime(v.s).Some? ==> r.value == PastDateError
  {
    if v.Str? && v.s != "" then
      match env.parseTime(v.s)
      case None => Some(FormatError)
      case Some(t) => if env.now > t then Some(PastDateError) else None
    else None
  }

  /** `ValidateEmail`: a non-empty string must parse as a mail address. */
  function ValidateEmail(env: Environment, v: Value): (r: Option<ErrorValidation>)
    ensures r.None? <==> !v.Str? || v.s == "" || env.isMailAddress(v.s)
    ensures r.Some? ==> r.value == FormatError
  {
    if v.Str? && v.s != "" && !env.isMailAddress(v.s) then Some(FormatError) else None
  }

  /** `ValidateUrl`: a non-empty string must parse as an absolute request URI. No
      directive dispatches to it. */
  function ValidateUrl(env: Environment, v: Value): (r: Option<ErrorValidation>)
    ensures r.None? <==> !v.Str? || v.s == "" || env.isRequestUri(v.s)
    ensures r.Some? ==> r.value == FormatError
  {
    if v.Str? && v.s != "" && !env.isRequestUri(v.s) then Some(FormatError) else None
  }
}
