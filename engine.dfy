/** The validator proper: `process` runs the directives of one field, and
    `validate` walks a record depth first, fields in declaration order, running
    each field's directives before descending into it and stopping at the first
    error. */
module Engine {
  import opened Wrappers
  import opened Text
  import opened Values
  import opened SnapErrors
  import opened Rules
  import opened Directives
  import opened ErrorFactory

  // ---------------------------------------------------------------------------
  // One directive
  // ---------------------------------------------------------------------------

  /** The error built by the dispatcher when a plain check fails. */
  function OnFailure(check: Option<ErrorValidation>, e: ErrorValidation): Option<ErrorValidation> {
    if check.Some? then Some(e) else None
  }

  /** `validateMinLength` / `validateMaxLength`: an empty parameter means 0; a
      parameter `strconv.Atoi` rejects is a configuration error (code `500000`,
      named by the Go field name). */
  function LengthOutcome(cfg: Config, f: Field, param: string, isMin: bool, parents: seq<Property>): Option<ErrorValidation> {
    var length := if param == "" then "0" else param;
    match Atoi(length)
    case None => Some(NewError("500000", f.name))
    case Some(n) =>
      if isMin then OnFailure(ValidateMinLength(n, f.value), ParsingErrorOf(cfg, f, "40001", "min_length", parents))
      else OnFailure(ValidateMaxLength(n, f.value), ParsingErrorOf(cfg, f, "40001", "max_length", parents))
  }

  /** The outcome of one directive on one field: `None` when it passes. Names the
      dispatcher has no case for (among them `url` and the empty name) pass. */
  function DirectiveOutcome(env: Environment, cfg: Config, f: Field, d: Directive, parents: seq<Property>): Option<ErrorValidation> {
    var v := f.value;
    match d.name
    case "required" => if IsPresent(v) then None else Some(ParsingErrorOf(cfg, f, "40002", "required", parents))
    case "min_length" => LengthOutcome(cfg, f, d.param, true, parents)
    case "max_length" => LengthOutcome(cfg, f, d.param, false, parents)
    case "iso_date" => OnFailure(ValidateIsoDate(env, v), ParsingErrorOf(cfg, f, "40001", "iso_date", parents))
    case "after_time_now" =>
      OnFailure(ValidateAfterTimeNow(env, v),
                ParsingErrorWithSuffixOf(cfg, f, "40001", "after_time_now", parents, "must greater than now"))
    case "alpha_numeric" => OnFailure(ValidateAlphaNum(v), ParsingErrorOf(cfg, f, "40001", "alpha_numeric", parents))
    case "alpha_numeric_symbol" =>
      OnFailure(ValidateAlphaNumSymbol(v), ParsingErrorOf(cfg, f, "40001", "alpha_numeric_symbol", parents))
    case "numeric" => OnFailure(ValidateNumeric(v), ParsingErrorOf(cfg, f, "40001", "numeric", parents))
    case "string" => OnFailure(ValidateString(v), ParsingErrorOf(cfg, f, "40001", "string", parents))
    case "amount" => OnFailure(ValidateAmount(v), ParsingErrorOf(cfg, f, "40001", "amount", parents))
    case "email" => OnFailure(ValidateEmail(env, v), ParsingErrorOf(cfg, f, "40001", "email", parents))
    case "in_data" => OnFailure(ValidateInData(InDataList(d.param), v), ParsingErrorOf(cfg, f, "40001", "in_data", parents))
    case _ => None
  }

  /** The rule names the dispatcher acts on. */
  predicate Dispatched(name: string) {
    name in {"required", "min_length", "max_length", "iso_date", "after_time_now", "alpha_numeric",
             "alpha_numeric_symbol", "numeric", "string", "amount", "email", "in_data"}
  }

  /** One case of `process`'s switch. */
  method ApplyDirective(env: Environment, cfg: Config, f: Field, d: Directive, parents: seq<Property>)
    returns (err: Option<ErrorValidation>)
    ensures err == DirectiveOutcome(env, cfg, f, d, parents)
  {
    var v := f.value;
    err := None;
    match d.name {
      case "required" =>
        var plain := ValidateRequired(v);
        if plain.Some? {
          var e := ParsingError(cfg, f, "40002", "required", parents);
          err := Some(e);
        }
      case "min_length" =>
        err := ApplyLength(cfg, f, d.param, true, parents);
      case "max_length" =>
        err := ApplyLength(cfg, f, d.param, false, parents);
      case "iso_date" =>
        if ValidateIsoDate(env, v).Some? {
          var e := ParsingError(cfg, f, "40001", "iso_date", parents);
          err := Some(e);
        }
      case "after_time_now" =>
        if ValidateAfterTimeNow(env, v).Some? {
          var e := ParsingErrorWithSuffix("must greater than now", cfg, f, "40001", "after_time_now", parents);
          err := Some(e);
        }
      case "alpha_numeric" =>
        if ValidateAlphaNum(v).Some? {
          var e := ParsingError(cfg, f, "40001", "alpha_numeric", parents);
          err := Some(e);
        }
      case "alpha_numeric_symbol" =>
        if ValidateAlphaNumSymbol(v).Some? {
          var e := ParsingError(cfg, f, "40001", "alpha_numeric_symbol", parents);
          err := Some(e);
        }
      case "numeric" =>
        if ValidateNumeric(v).Some? {
          var e := ParsingError(cfg, f, "40001", "numeric", parents);
          err := Some(e);
        }
      case "string" =>
        if ValidateString(v).Some? {
          var e := ParsingError(cfg, f, "40001", "string", parents);
          err := Some(e);
        }
      case "amount" =>
        if ValidateAmount(v).Some? {
          var e := ParsingError(cfg, f, "40001", "amount", parents);
          err := Some(e);
        }
      case "email" =>
        if ValidateEmail(env, v).Some? {
          var e := ParsingError(cfg, f, "40001", "email", parents);
          err := Some(e);
        }
      case "in_data" =>
        if ValidateInData(InDataList(d.param), v).Some? {
          var e := ParsingError(cfg, f, "40001", "in_data", parents);
          err := Some(e);
        }
      case _ =>
    }
  }

  /** `validateMinLength` / `validateMaxLength` with their parameter handling. */
  method ApplyLength(cfg: Config, f: Field, param: string, isMin: bool, parents: seq<Property>)
    returns (err: Option<ErrorValidation>)
    ensures err == LengthOutcome(cfg, f, param, isMin, parents)
  {
    var length := param;
    if length == "" {
      length := "0";
    }
    var parsed := Atoi(length);
    if parsed.None? {
      return Some(NewError("500000", f.name));
    }
    var plain := if isMin then ValidateMinLength(parsed.value, f.value) else ValidateMaxLength(parsed.value, f.value);
    err := None;
    if plain.Some? {
      var e := ParsingError(cfg, f, "40001", if isMin then "min_length" else "max_length", parents);
      err := Some(e);
    }
  }

  // ---------------------------------------------------------------------------
  // All directives of one field
  // ---------------------------------------------------------------------------

  /** The directives run in order; the first failure is the result. */
  function RunDirectives(env: Environment, cfg: Config, f: Field, ds: seq<Directive>, parents: seq<Property>): Option<ErrorValidation>
    decreases |ds|
  {
    if ds == [] then None
    else
      var r := DirectiveOutcome(env, cfg, f, ds[0], parents);
      if r.Some? then r else RunDirectives(env, cfg, f, ds[1..], parents)
  }

  /** What `process` returns for a field: its tag's directives, run in order. */
  function FieldOutcome(env: Environment, cfg: Config, f: Field, parents: seq<Property>): Option<ErrorValidation> {
    RunDirectives(env, cfg, f, ParseTag(f.tag), parents)
  }

  /** `process`: the tag is split on `|` and each piece parsed and dispatched in turn,
      returning at the first error. */
  method Process(env: Environment, cfg: Config, f: Field, parents: seq<Property>)
    returns (err: Option<ErrorValidation>)
    ensures err == FieldOutcome(env, cfg, f, parents)
  {
    var listValidator := Split(f.tag, '|');
    ghost var ds := ParseTag(f.tag);
    for k := 0 to |listValidator|
      invariant RunDirectives(env, cfg, f, ds, parents) == RunDirectives(env, cfg, f, ds[k..], parents)
    {
      var d := ParseDirective(listValidator[k]);
      assert d == ds[k];
      assert ds[k..][1..] == ds[k + 1..];
      var errorValidate := ApplyDirective(env, cfg, f, d, parents);
      if errorValidate.Some? {
        return errorValidate;
      }
    }
    return None;
  }

  /** A run of directives fails exactly at its first failing directive. */
  lemma {:induction false} RunDirectivesFirstFailure(env: Environment, cfg: Config, f: Field, ds: seq<Directive>, parents: seq<Property>)
    ensures RunDirectives(env, cfg, f, ds, parents).None?
        <==> forall k | 0 <= k < |ds| :: DirectiveOutcome(env, cfg, f, ds[k], parents).None?
    ensures RunDirectives(env, cfg, f, ds, parents).Some? ==>
      exists k | 0 <= k < |ds| ::
        RunDirectives(env, cfg, f, ds, parents) == DirectiveOutcome(env, cfg, f, ds[k], parents)
        && forall m | 0 <= m < k :: DirectiveOutcome(env, cfg, f, ds[m], parents).None?
    decreases |ds|
  {
    if ds != [] {
      RunDirectivesFirstFailure(env, cfg, f, ds[1..], parents);
      if DirectiveOutcome(env, cfg, f, ds[0], parents).None? {
        forall k | 1 <= k < |ds|
          ensures ds[k] == ds[1..][k - 1]
        {
        }
        if RunDirectives(env, cfg, f, ds, parents).Some? {
          var k' :| 0 <= k' < |ds[1..]| &&
            RunDirectives(env, cfg, f, ds[1..], parents) == DirectiveOutcome(env, cfg, f, ds[1..][k'], parents)
            && forall m | 0 <= m < k' :: DirectiveOutcome(env, cfg, f, ds[1..][m], parents).None?;
          assert forall m | 0 <= m < k' + 1 :: DirectiveOutcome(env, cfg, f, ds[m], parents).None? by {
            forall m | 0 <= m < k' + 1
              ensures DirectiveOutcome(env, cfg, f, ds[m], parents).None?
            {
              if m > 0 {
                assert ds[m] == ds[1..][m - 1];
              }
            }
          }
        }
      }
    }
  }

  /** The dispatcher ignores a name it has no case for. */
  lemma UndispatchedNamePasses(env: Environment, cfg: Config, f: Field, d: Directive, parents: seq<Property>)
    requires !Dispatched(d.name)
    ensures DirectiveOutcome(env, cfg, f, d, parents).None?
  {
  }

  /** A length parameter that is not an integer is a configuration error, whatever the
      value: code `500000`, no service code, and the Go field name. */
  lemma BadLengthParameter(env: Environment, cfg: Config, f: Field, d: Directive, parents: seq<Property>)
    requires d.name == "min_length" || d.name == "max_length"
    requires d.param != "" && Atoi(d.param).None?
    ensures DirectiveOutcome(env, cfg, f, d, parents)
         == Some(ErrorValidation("500000", "500000", "General Error", f.name))
  {
    ValidationCodeMessages();
  }

  /** An empty length parameter means 0: `min_length` then passes everything and
      `max_length` passes only the empty string and non-strings. */
  lemma EmptyLengthParameter(env: Environment, cfg: Config, f: Field, parents: seq<Property>)
    ensures DirectiveOutcome(env, cfg, f, Directive("min_length", ""), parents).None?
    ensures DirectiveOutcome(env, cfg, f, Directive("max_length", ""), parents).None?
        <==> !f.value.Str? || f.value.s == ""
  {
    AtoiOfNatToString(0);
  }

  /** A length parameter written as a decimal number is the bound itself: `max_length:n`
      passes exactly the empty string and values of length at most n, `min_length:n`
      exactly the empty string and values of length at least n; a failure is the
      format error 40001 named after the rule. */
  lemma LengthParameterIsBound(env: Environment, cfg: Config, f: Field, n: nat, parents: seq<Property>)
    requires n <= MaxInt64
    ensures var r := DirectiveOutcome(env, cfg, f, Directive("max_length", NatToString(n)), parents);
            && (r.None? <==> f.value == Str("") || StringLength(f.value) <= n)
            && (r.Some? ==> r == Some(ParsingErrorOf(cfg, f, "40001", "max_length", parents)))
    ensures var r := DirectiveOutcome(env, cfg, f, Directive("min_length", NatToString(n)), parents);
            && (r.None? <==> f.value == Str("") || StringLength(f.value) >= n)
            && (r.Some? ==> r == Some(ParsingErrorOf(cfg, f, "40001", "min_length", parents)))
  {
    AtoiOfNatToString(n);
  }

  // ---------------------------------------------------------------------------
  // The walk
  // ---------------------------------------------------------------------------

  /** A field of a walkable record holds a well-formed value. */
  lemma FieldWellFormed(rec: Value, i: nat)
    requires IsWalkable(rec) && i < |rec.fields|
    ensures WellFormed(rec.fields[i].value)
  {
  }

  /** An element of a slice held by a field of a walkable record is walkable. */
  lemma ElementWalkable(rec: Value, i: nat, j: nat)
    requires IsWalkable(rec) && i < |rec.fields| && rec.fields[i].value.Slice?
    requires j < |rec.fields[i].value.elems|
    ensures IsWalkable(rec.fields[i].value.elems[j])
  {
    FieldWellFormed(rec, i);
  }

  /** What is checked at each visited field; for the validator, `process`. */
  type Check = (Field, seq<Property>) -> Option<ErrorValidation>

  /** `process` as a check. */
  function ProcessCheck(env: Environment, cfg: Config): Check {
    (f: Field, ps: seq<Property>) => FieldOutcome(env, cfg, f, ps)
  }

  /** `validate` on a record: its fields from the first. */
  function Walk(check: Check, rec: Value, parents: seq<Property>): Option<ErrorValidation>
    requires IsWalkable(rec)
    decreases rec, 3, 0
  {
    WalkFields(check, rec, 0, parents)
  }

  /** Fields `i..` of a record: each field's directives, then what lies below it. */
  function WalkFields(check: Check, rec: Value, i: nat, parents: seq<Property>): Option<ErrorValidation>
    requires IsWalkable(rec) && i <= |rec.fields|
    decreases rec, 2, |rec.fields| - i
  {
    if i == |rec.fields| then None
    else
      var r := FieldStep(check, rec, i, parents);
      if r.Some? then r else WalkFields(check, rec, i + 1, parents)
  }

  /** One turn of `validate`'s loop: field `i`'s own directives, then what lies below it. */
  function FieldStep(check: Check, rec: Value, i: nat, parents: seq<Property>): Option<ErrorValidation>
    requires IsWalkable(rec) && i < |rec.fields|
    decreases rec, 1, 1
  {
    var own := check(rec.fields[i], parents);
    if own.Some? then own else Below(check, rec, i, parents)
  }

  /** What lies below field `i`: a non-zero record with the field appended to the
      ancestors, or every element of a slice with the field and the index appended. */
  function Below(check: Check, rec: Value, i: nat, parents: seq<Property>): Option<ErrorValidation>
    requires IsWalkable(rec) && i < |rec.fields|
    decreases rec, 1, 0
  {
    var f := rec.fields[i];
    FieldWellFormed(rec, i);
    if f.value.Record? then
      if IsZero(f.value) then None else Walk(check, f.value, parents + [RecordEntry(f)])
    else if f.value.Slice? then WalkElements(check, rec, i, 0, parents)
    else None
  }

  /** Elements `j..` of the slice held by field `i`. */
  function WalkElements(check: Check, rec: Value, i: nat, j: nat, parents: seq<Property>): Option<ErrorValidation>
    requires IsWalkable(rec) && i < |rec.fields| && rec.fields[i].value.Slice?
    requires j <= |rec.fields[i].value.elems|
    decreases rec, 0, |rec.fields[i].value.elems| - j
  {
    var f := rec.fields[i];
    var es := f.value.elems;
    if j == |es| then None
    else
      ElementWalkable(rec, i, j);
      var r := Walk(check, es[j], parents + [ElementEntry(f, j)]);
      if r.Some? then r else WalkElements(check, rec, i, j + 1, parents)
  }

  /** `validate`. */
  method Validate(env: Environment, cfg: Config, data: Value, parents: seq<Property>)
    returns (err: Option<ErrorValidation>)
    requires IsWalkable(data)
    ensures err == Walk(ProcessCheck(env, cfg), data, parents)
    decreases data, 1
  {
    var fs := data.fields;
    for i := 0 to |fs|
      invariant Walk(ProcessCheck(env, cfg), data, parents) == WalkFields(ProcessCheck(env, cfg), data, i, parents)
    {
      var errField := ValidateField(env, cfg, data, i, parents);
      if errField.Some? {
        return errField;
      }
    }
    return None;
  }

  /** The body of `validate`'s loop for field `i`: `process`, then the descent into a
      nested struct or into the elements of a slice. */
  method ValidateField(env: Environment, cfg: Config, data: Value, i: nat, parents: seq<Property>)
    returns (err: Option<ErrorValidation>)
    requires IsWalkable(data) && i < |data.fields|
    ensures err == FieldStep(ProcessCheck(env, cfg), data, i, parents)
    decreases data, 0
  {
    var f := data.fields[i];
    FieldWellFormed(data, i);
    var errValidation := Process(env, cfg, f, parents);
    if errValidation.Some? {
      return errValidation;
    }
    if f.value.Record? {
      if !IsZero(f.value) {
        var errStruct := Validate(env, cfg, f.value, parents + [RecordEntry(f)]);
        if errStruct.Some? {
          return errStruct;
        }
      }
    }
    if f.value.Slice? || f.value.NilSlice? {
      var n := SliceLength(f.value);
      for j := 0 to n
        invariant f.value.Slice? ==>
          Below(ProcessCheck(env, cfg), data, i, parents) == WalkElements(ProcessCheck(env, cfg), data, i, j, parents)
      {
        ElementWalkable(data, i, j);
        var errSlice := Validate(env, cfg, f.value.elems[j], parents + [ElementEntry(f, j)]);
        if errSlice.Some? {
          return errSlice;
        }
      }
    }
    return None;
  }

  /** `ValidateStructSnap`: the walk with the validator's own service code. */
  method ValidateStructSnap(env: Environment, cfg: Config, data: Value, parents: seq<Property>)
    returns (err: Option<ErrorValidation>)
    requires IsWalkable(data)
    ensures err == Walk(ProcessCheck(env, cfg), data, parents)
  {
    err := Validate(env, cfg, data, parents);
  }

  /** `ValidateStructSnapServiceCode`: the walk with a caller-supplied service code,
      on a copy of the validator's configuration. */
  method ValidateStructSnapServiceCode(env: Environment, cfg: Config, data: Value, serviceCode: string, parents: seq<Property>)
    returns (err: Option<ErrorValidation>)
    requires IsWalkable(data)
    ensures err == Walk(ProcessCheck(env, cfg.(serviceCode := serviceCode)), data, parents)
  {
    var v := cfg.(serviceCode := serviceCode);
    err := Validate(env, v, data, parents);
  }
}
