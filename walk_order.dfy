/** The order in which `validate` checks fields, stated independently of its
    fail-fast recursion: the pre-order list of (field, ancestors) visits of a
    record. The walk returns the outcome of the first visit whose directives fail. */
module WalkOrder {
  import opened Wrappers
  import opened Values
  import opened SnapErrors
  import opened Rules
  import opened Directives
  import opened ErrorFactory
  import opened Engine

  /** A field whose directives are run, with the ancestors it is reached through. */
  datatype Visit = Visit(field: Field, parents: seq<Property>)

  /** Every field of the record in declaration order, each followed by the visits
      below it. */
  function Visits(rec: Value, parents: seq<Property>): seq<Visit>
    requires IsWalkable(rec)
    decreases rec, 3, 0
  {
    VisitsFields(rec, 0, parents)
  }

  function VisitsFields(rec: Value, i: nat, parents: seq<Property>): seq<Visit>
    requires IsWalkable(rec) && i <= |rec.fields|
    decreases rec, 2, |rec.fields| - i
  {
    if i == |rec.fields| then [] else VisitsStep(rec, i, parents) + VisitsFields(rec, i + 1, parents)
  }

  /** Field `i` itself, then everything below it. */
  function VisitsStep(rec: Value, i: nat, parents: seq<Property>): seq<Visit>
    requires IsWalkable(rec) && i < |rec.fields|
    decreases rec, 1, 1
  {
    [Visit(rec.fields[i], parents)] + VisitsBelow(rec, i, parents)
  }

  /** A non-zero nested record, or the elements of a slice in index order. */
  function VisitsBelow(rec: Value, i: nat, parents: seq<Property>): seq<Visit>
    requires IsWalkable(rec) && i < |rec.fields|
    decreases rec, 1, 0
  {
    var f := rec.fields[i];
    FieldWellFormed(rec, i);
    if f.value.Record? then
      if IsZero(f.value) then [] else Visits(f.value, parents + [RecordEntry(f)])
    else if f.value.Slice? then VisitsElements(rec, i, 0, parents)
    else []
  }

  function VisitsElements(rec: Value, i: nat, j: nat, parents: seq<Property>): seq<Visit>
    requires IsWalkable(rec) && i < |rec.fields| && rec.fields[i].value.Slice?
    requires j <= |rec.fields[i].value.elems|
    decreases rec, 0, |rec.fields[i].value.elems| - j
  {
    var f := rec.fields[i];
    var es := f.value.elems;
    if j == |es| then []
    else
      ElementWalkable(rec, i, j);
      Visits(es[j], parents + [ElementEntry(f, j)]) + VisitsElements(rec, i, j + 1, parents)
  }

  /** The outcome of the first visit whose directives fail. */
  function FirstFailure(check: Check, vs: seq<Visit>): Option<ErrorValidation>
    decreases |vs|
  {
    if vs == [] then None
    else
      var r := check(vs[0].field, vs[0].parents);
      if r.Some? then r else FirstFailure(check, vs[1..])
  }

  lemma {:induction false} FirstFailureAppend(check: Check, a: seq<Visit>, b: seq<Visit>)
    ensures FirstFailure(check, a + b)
         == if FirstFailure(check, a).Some? then FirstFailure(check, a) else FirstFailure(check, b)
    decreases |a|
  {
    if a == [] {
      assert a + b == b;
    } else {
      assert (a + b)[0] == a[0] && (a + b)[1..] == a[1..] + b;
      FirstFailureAppend(check, a[1..], b);
    }
  }

  /** The first failure exists exactly when some visit fails, and it is the
      outcome of a failing visit all of whose predecessors pass. */
  lemma {:induction false} FirstFailureCharacterization(check: Check, vs: seq<Visit>)
    ensures FirstFailure(check, vs).None?
        <==> forall k | 0 <= k < |vs| :: check(vs[k].field, vs[k].parents).None?
    ensures FirstFailure(check, vs).Some? ==>
      exists k | 0 <= k < |vs| ::
        FirstFailure(check, vs) == check(vs[k].field, vs[k].parents)
        && forall m | 0 <= m < k :: check(vs[m].field, vs[m].parents).None?
    decreases |vs|
  {
    if vs != [] {
      var tail := vs[1..];
      FirstFailureCharacterization(check, tail);
      assert forall k | 1 <= k < |vs| :: vs[k] == tail[k - 1];
      if check(vs[0].field, vs[0].parents).None? && FirstFailure(check, vs).Some? {
        var k' :| 0 <= k' < |tail| &&
          FirstFailure(check, tail) == check(tail[k'].field, tail[k'].parents)
          && forall m | 0 <= m < k' :: check(tail[m].field, tail[m].parents).None?;
        assert forall m | 0 <= m < k' + 1 :: check(vs[m].field, vs[m].parents).None? by {
          forall m | 0 <= m < k' + 1
            ensures check(vs[m].field, vs[m].parents).None?
          {
            if m > 0 {
              assert vs[m] == tail[m - 1];
            }
          }
        }
      }
    }
  }

  // ---------------------------------------------------------------------------
  // The fail-fast walk is the first failure of the visit list
  // ---------------------------------------------------------------------------

  lemma {:induction false} WalkIsFirstFailure(check: Check, rec: Value, parents: seq<Property>)
    requires IsWalkable(rec)
    ensures Walk(check, rec, parents) == FirstFailure(check, Visits(rec, parents))
    decreases rec, 3, 0
  {
    WalkFieldsIsFirstFailure(check, rec, 0, parents);
  }

  lemma {:induction false} WalkFieldsIsFirstFailure(check: Check, rec: Value, i: nat, parents: seq<Property>)
    requires IsWalkable(rec) && i <= |rec.fields|
    ensures WalkFields(check, rec, i, parents) == FirstFailure(check, VisitsFields(rec, i, parents))
    decreases rec, 2, |rec.fields| - i
  {
    if i < |rec.fields| {
      FieldStepIsFirstFailure(check, rec, i, parents);
      WalkFieldsIsFirstFailure(check, rec, i + 1, parents);
      FirstFailureAppend(check, VisitsStep(rec, i, parents), VisitsFields(rec, i + 1, parents));
    }
  }

  lemma {:induction false} FieldStepIsFirstFailure(check: Check, rec: Value, i: nat, parents: seq<Property>)
    requires IsWalkable(rec) && i < |rec.fields|
    ensures FieldStep(check, rec, i, parents) == FirstFailure(check, VisitsStep(rec, i, parents))
    decreases rec, 1, 1
  {
    var head := [Visit(rec.fields[i], parents)];
    BelowIsFirstFailure(check, rec, i, parents);
    FirstFailureAppend(check, head, VisitsBelow(rec, i, parents));
    assert head[1..] == [];
  }

  lemma {:induction false} BelowIsFirstFailure(check: Check, rec: Value, i: nat, parents: seq<Property>)
    requires IsWalkable(rec) && i < |rec.fields|
    ensures Below(check, rec, i, parents) == FirstFailure(check, VisitsBelow(rec, i, parents))
    decreases rec, 1, 0
  {
    var f := rec.fields[i];
    FieldWellFormed(rec, i);
    if f.value.Record? && !IsZero(f.value) {
      WalkIsFirstFailure(check, f.value, parents + [RecordEntry(f)]);
    } else if f.value.Slice? {
      WalkElementsIsFirstFailure(check, rec, i, 0, parents);
    }
  }

  lemma {:induction false} WalkElementsIsFirstFailure(check: Check, rec: Value, i: nat, j: nat, parents: seq<Property>)
    requires IsWalkable(rec) && i < |rec.fields| && rec.fields[i].value.Slice?
    requires j <= |rec.fields[i].value.elems|
    ensures WalkElements(check, rec, i, j, parents) == FirstFailure(check, VisitsElements(rec, i, j, parents))
    decreases rec, 0, |rec.fields[i].value.elems| - j
  {
    var f := rec.fields[i];
    var es := f.value.elems;
    if j < |es| {
      ElementWalkable(rec, i, j);
      var ps := parents + [ElementEntry(f, j)];
      WalkIsFirstFailure(check, es[j], ps);
      WalkElementsIsFirstFailure(check, rec, i, j + 1, parents);
      FirstFailureAppend(check, Visits(es[j], ps), VisitsElements(rec, i, j + 1, parents));
    }
  }

  /** Fail-fast: the walk passes exactly when every visited field passes, and an
      error is that of a failing visit all of whose predecessors in the visit order
      passed. */
  lemma WalkFailsAtFirstFailingVisit(check: Check, rec: Value, parents: seq<Property>)
    requires IsWalkable(rec)
    ensures var vs := Visits(rec, parents);
      Walk(check, rec, parents).None? <==> forall k | 0 <= k < |vs| :: check(vs[k].field, vs[k].parents).None?
    ensures var vs := Visits(rec, parents);
      Walk(check, rec, parents).Some? ==>
        exists k | 0 <= k < |vs| ::
          Walk(check, rec, parents) == check(vs[k].field, vs[k].parents)
          && forall m | 0 <= m < k :: check(vs[m].field, vs[m].parents).None?
  {
    WalkIsFirstFailure(check, rec, parents);
    FirstFailureCharacterization(check, Visits(rec, parents));
  }

  // ---------------------------------------------------------------------------
  // Ancestor lists
  // ---------------------------------------------------------------------------

  /** Every visit below a record reached through `parents` is reached through an
      extension of `parents`. */
  lemma {:induction false} VisitsExtendAncestors(rec: Value, parents: seq<Property>)
    requires IsWalkable(rec)
    ensures forall v | v in Visits(rec, parents) :: parents <= v.parents
    decreases rec, 3, 0
  {
    VisitsFieldsExtendAncestors(rec, 0, parents);
  }

  lemma {:induction false} VisitsFieldsExtendAncestors(rec: Value, i: nat, parents: seq<Property>)
    requires IsWalkable(rec) && i <= |rec.fields|
    ensures forall v | v in VisitsFields(rec, i, parents) :: parents <= v.parents
    decreases rec, 2, |rec.fields| - i
  {
    if i < |rec.fields| {
      VisitsBelowExtendAncestors(rec, i, parents);
      VisitsFieldsExtendAncestors(rec, i + 1, parents);
    }
  }

  /** Every visit below field `i` is reached through `parents` extended by exactly one
      entry for the field: below a nested record the entry is `RecordEntry` and the
      visit is one of the record's own; below a slice it is `ElementEntry` for some
      index `j` (`Array = true`, `IdxArray = j`) and the visit is one of element `j`. */
  lemma {:induction false} VisitsBelowExtendAncestors(rec: Value, i: nat, parents: seq<Property>)
    requires IsWalkable(rec) && i < |rec.fields|
    ensures forall v | v in VisitsBelow(rec, i, parents) ::
      |v.parents| > |parents| && parents <= v.parents
    ensures var f := rec.fields[i];
      f.value.Record? ==>
        forall v | v in VisitsBelow(rec, i, parents) ::
          v.parents[|parents|] == RecordEntry(f) && IsWalkable(f.value) && v in Visits(f.value, parents + [RecordEntry(f)])
    ensures var f := rec.fields[i];
      f.value.Slice? ==>
        forall v | v in VisitsBelow(rec, i, parents) ::
          exists j: nat | j < |f.value.elems| ::
            v.parents[|parents|] == ElementEntry(f, j) && IsWalkable(f.value.elems[j])
            && v in Visits(f.value.elems[j], parents + [ElementEntry(f, j)])
    decreases rec, 1, 0
  {
    var f := rec.fields[i];
    FieldWellFormed(rec, i);
    if f.value.Record? && !IsZero(f.value) {
      var ps := parents + [RecordEntry(f)];
      VisitsExtendAncestors(f.value, ps);
      forall v | v in VisitsBelow(rec, i, parents)
        ensures |v.parents| > |parents| && parents <= v.parents && v.parents[|parents|] == RecordEntry(f)
      {
        assert ps <= v.parents;
        assert ps[|parents|] == RecordEntry(f);
      }
    } else if f.value.Slice? {
      VisitsElementsExtendAncestors(rec, i, 0, parents);
    }
  }

  /** Every visit among the elements from `j` on is a visit of some element `j'`,
      reached through `parents` extended by that element's entry. */
  lemma {:induction false} VisitsElementsExtendAncestors(rec: Value, i: nat, j: nat, parents: seq<Property>)
    requires IsWalkable(rec) && i < |rec.fields| && rec.fields[i].value.Slice?
    requires j <= |rec.fields[i].value.elems|
    ensures forall v | v in VisitsElements(rec, i, j, parents) ::
      |v.parents| > |parents| && parents <= v.parents
    ensures var f := rec.fields[i];
      forall v | v in VisitsElements(rec, i, j, parents) ::
        exists j': nat | j <= j' < |f.value.elems| ::
          v.parents[|parents|] == ElementEntry(f, j') && IsWalkable(f.value.elems[j'])
          && v in Visits(f.value.elems[j'], parents + [ElementEntry(f, j')])
    decreases rec, 0, |rec.fields[i].value.elems| - j
  {
    var f := rec.fields[i];
    var es := f.value.elems;
    if j < |es| {
      ElementWalkable(rec, i, j);
      var ps := parents + [ElementEntry(f, j)];
      VisitsExtendAncestors(es[j], ps);
      VisitsElementsExtendAncestors(rec, i, j + 1, parents);
      forall v | v in VisitsElements(rec, i, j, parents)
        ensures |v.parents| > |parents| && parents <= v.parents
        ensures exists j': nat | j <= j' < |es| ::
          v.parents[|parents|] == ElementEntry(f, j') && IsWalkable(es[j'])
          && v in Visits(es[j'], parents + [ElementEntry(f, j')])
      {
        if v in Visits(es[j], ps) {
          assert ps <= v.parents;
          assert v.parents[|parents|] == ps[|parents|] == ElementEntry(f, j);
        }
      }
    }
  }

  // ---------------------------------------------------------------------------
  // What the walk does not look into
  // ---------------------------------------------------------------------------

  /** A field holding a zero value (an all-zero record, a nil slice) has nothing
      visited below it: the directives of an all-zero nested record's fields,
      `required` among them, are never run. */
  lemma ZeroFieldHidesItsFields(rec: Value, i: nat, parents: seq<Property>)
    requires IsWalkable(rec) && i < |rec.fields|
    requires IsZero(rec.fields[i].value)
    ensures VisitsStep(rec, i, parents) == [Visit(rec.fields[i], parents)]
  {
  }

  /** An example of zero-record skipping: a record whose only field has an empty tag
      and holds an all-zero record passes, whatever the nested record's own
      directives demand. */
  lemma ZeroNestedRecordPasses(env: Environment, cfg: Config, f: Field, parents: seq<Property>)
    requires f.tag == "" && f.value.Record? && IsZero(f.value) && WellFormed(f.value)
    ensures Walk(ProcessCheck(env, cfg), Record([f]), parents).None?
  {
    var rec := Record([f]);
    assert IsWalkable(rec);
    EmptyTag();
    WalkIsFirstFailure(ProcessCheck(env, cfg), rec, parents);
    assert VisitsFields(rec, 1, parents) == [];
    assert VisitsStep(rec, 0, parents) == [Visit(f, parents)];
    assert Visits(rec, parents) == [Visit(f, parents)] + [];
    var ds := [Directive("", "")];
    assert ParseTag(f.tag) == ds;
    assert DirectiveOutcome(env, cfg, f, ds[0], parents) == None;
    assert ds[1..] == [];
    assert FieldOutcome(env, cfg, f, parents) == None;
  }

  // ---------------------------------------------------------------------------
  // The service code
  // ---------------------------------------------------------------------------

  /** Two outcomes that agree except, possibly, in the service variant of the code. */
  predicate SameButSnapCode(a: Option<ErrorValidation>, b: Option<ErrorValidation>) {
    a.Some? == b.Some?
    && (a.Some? ==> a.value.code == b.value.code && a.value.message == b.value.message
                    && a.value.fieldName == b.value.fieldName)
  }

  lemma FieldErrorServiceCode(tables: seq<map<string, string>>, sc1: string, sc2: string,
                              f: Field, code: string, rule: string, parents: seq<Property>, labelText: string)
    ensures SameButSnapCode(Some(FieldError(Config(tables, sc1), f, code, rule, parents, labelText)),
                            Some(FieldError(Config(tables, sc2), f, code, rule, parents, labelText)))
  {
    assert CustomMessage(Config(tables, sc1), f.name, rule, parents) == CustomMessage(Config(tables, sc2), f.name, rule, parents);
  }

  lemma LengthServiceCode(tables: seq<map<string, string>>, sc1: string, sc2: string,
                          f: Field, param: string, isMin: bool, parents: seq<Property>)
    ensures SameButSnapCode(LengthOutcome(Config(tables, sc1), f, param, isMin, parents),
                            LengthOutcome(Config(tables, sc2), f, param, isMin, parents))
  {
    FieldErrorServiceCode(tables, sc1, sc2, f, "40001", if isMin then "min_length" else "max_length", parents, Label(f, parents));
  }

  lemma DirectiveServiceCode(env: Environment, tables: seq<map<string, string>>, sc1: string, sc2: string,
                             f: Field, d: Directive, parents: seq<Property>)
    ensures SameButSnapCode(DirectiveOutcome(env, Config(tables, sc1), f, d, parents),
                            DirectiveOutcome(env, Config(tables, sc2), f, d, parents))
  {
    var lbl := Label(f, parents);
    match d.name
    case "required" => FieldErrorServiceCode(tables, sc1, sc2, f, "40002", "required", parents, lbl);
    case "min_length" => LengthServiceCode(tables, sc1, sc2, f, d.param, true, parents);
    case "max_length" => LengthServiceCode(tables, sc1, sc2, f, d.param, false, parents);
    case "iso_date" => FieldErrorServiceCode(tables, sc1, sc2, f, "40001", "iso_date", parents, lbl);
    case "after_time_now" =>
      FieldErrorServiceCode(tables, sc1, sc2, f, "40001", "after_time_now", parents, lbl + " " + "must greater than now");
    case "alpha_numeric" => FieldErrorServiceCode(tables, sc1, sc2, f, "40001", "alpha_numeric", parents, lbl);
    case "alpha_numeric_symbol" => FieldErrorServiceCode(tables, sc1, sc2, f, "40001", "alpha_numeric_symbol", parents, lbl);
    case "numeric" => FieldErrorServiceCode(tables, sc1, sc2, f, "40001", "numeric", parents, lbl);
    case "string" => FieldErrorServiceCode(tables, sc1, sc2, f, "40001", "string", parents, lbl);
    case "amount" => FieldErrorServiceCode(tables, sc1, sc2, f, "40001", "amount", parents, lbl);
    case "email" => FieldErrorServiceCode(tables, sc1, sc2, f, "40001", "email", parents, lbl);
    case "in_data" => FieldErrorServiceCode(tables, sc1, sc2, f, "40001", "in_data", parents, lbl);
    case _ =>
  }

  lemma {:induction false} RunDirectivesServiceCode(env: Environment, tables: seq<map<string, string>>, sc1: string, sc2: string,
                                                    f: Field, ds: seq<Directive>, parents: seq<Property>)
    ensures SameButSnapCode(RunDirectives(env, Config(tables, sc1), f, ds, parents),
                            RunDirectives(env, Config(tables, sc2), f, ds, parents))
    decreases |ds|
  {
    if ds != [] {
      DirectiveServiceCode(env, tables, sc1, sc2, f, ds[0], parents);
      RunDirectivesServiceCode(env, tables, sc1, sc2, f, ds[1..], parents);
    }
  }

  lemma {:induction false} FirstFailureServiceCode(env: Environment, tables: seq<map<string, string>>, sc1: string, sc2: string,
                                                   vs: seq<Visit>)
    ensures SameButSnapCode(FirstFailure(ProcessCheck(env, Config(tables, sc1)), vs),
                            FirstFailure(ProcessCheck(env, Config(tables, sc2)), vs))
    decreases |vs|
  {
    if vs != [] {
      RunDirectivesServiceCode(env, tables, sc1, sc2, vs[0].field, ParseTag(vs[0].field.tag), vs[0].parents);
      FirstFailureServiceCode(env, tables, sc1, sc2, vs[1..]);
    }
  }

  /** `ValidateStructSnapServiceCode` with two service codes: the same fields fail,
      with the same code, message and field name; only the service variant of the
      code differs. */
  lemma WalkServiceCode(env: Environment, tables: seq<map<string, string>>, sc1: string, sc2: string,
                        rec: Value, parents: seq<Property>)
    requires IsWalkable(rec)
    ensures SameButSnapCode(Walk(ProcessCheck(env, Config(tables, sc1)), rec, parents),
                            Walk(ProcessCheck(env, Config(tables, sc2)), rec, parents))
  {
    WalkIsFirstFailure(ProcessCheck(env, Config(tables, sc1)), rec, parents);
    WalkIsFirstFailure(ProcessCheck(env, Config(tables, sc2)), rec, parents);
    FirstFailureServiceCode(env, tables, sc1, sc2, Visits(rec, parents));
  }
}
