/** Concrete scenarios of the validator, kept apart from the general proofs. */
module Scenarios {
  import opened Text
  import opened Values
  import opened SnapErrors
  import opened ErrorFactory
  import opened Rules
  import opened Directives
  import opened Engine

  /** `billDetails.1.billCode`: the code of the second bill, named by json names. */
  lemma LabelExample(f: Field, p: Property)
    requires f == Field("BillCode", "billCode", "", Str(""))
    requires p == Property("BillDetails", "billDetails", true, 1)
    ensures Label(f, [p]) == "billDetails.1.billCode"
  {
    assert [p][..0] == [];
    assert ConcatMap([p], LabelSegment) == ConcatMap([], LabelSegment) + LabelSegment(p);
    assert LabelPrefix([p]) == "" + LabelSegment(p);
    assert NatToString(1) == "1";
    assert LabelSegment(p) == "billDetails" + "." + ("1" + ".");
  }

  /** The path key and the indices of element 3 of the `BillDetails` slice. */
  lemma BillCodeKey(f: Field, p: Property)
    requires f.name == "BillCode" && p == Property("BillDetails", "billDetails", true, 3)
    ensures PathKey(f.name, [p]) == "BillDetails.*.BillCode"
    ensures PathKey(f.name, [p]) + ":" + "required" == "BillDetails.*.BillCode:required"
    ensures ArrayIndices([p]) == [3]
  {
    assert [p][..0] == [];
    assert KeyPrefix([p]) == "" + "BillDetails" + ".*";
    assert ArrayIndices([p]) == [] + [3];
  }

  /** A template with one `%d` receives the element index 3. */
  lemma BillCodeTemplate(template: string)
    requires template == "item %d missing code"
    ensures Sprintf(template, [3]) == "item 3 missing code"
  {
    var p, q := "item ", " missing code";
    assert '%' !in p && '%' !in q;
    assert template == p + "%d" + q;
    SprintfOneIndex(p, q, 3);
    assert NatToString(3) == [DigitChar(3)];
  }

  /** A per-element custom message for the bill code: `BillDetails.*.BillCode:required` addresses the bill
      code of every element of the `BillDetails` slice, and its `%d` receives the
      element index; the code gets service code 25 spliced in. */
  lemma CustomMessageExample(f: Field, p: Property, table: map<string, string>, key: string, template: string)
    requires f.name == "BillCode" && p == Property("BillDetails", "billDetails", true, 3)
    requires key == "BillDetails.*.BillCode:required" && template == "item %d missing code"
    requires table == map[key := template]
    ensures ParsingErrorOf(Config([table], "25"), f, "40002", "required", [p])
         == ErrorValidation("40002", "4002502", "item 3 missing code", "BillCode")
  {
    BillCodeKey(f, p);
    BillCodeTemplate(template);
    var cfg := Config([table], "25");
    assert cfg.customValidation[0] == table;
    assert CustomMessage(cfg, f.name, "required", [p]) == Sprintf(template, [3]);
    SpliceExample();
  }

  /** The currency of the repository's test data: `in_data:[IDR]` admits `IDR` and
      nothing else that is not empty. */
  lemma InDataCurrency(param: string, x: string)
    requires param == "[IDR]"
    ensures ValidateInData(InDataList(param), Str(x)).None? <==> x == "" || x == "IDR"
  {
    var idr := "IDR";
    assert '[' !in idr && ']' !in idr && ',' !in idr;
    var entries := [idr];
    assert Join(entries, ',') == idr;
    var bracketed := "[" + Join(entries, ',') + "]";
    assert param == bracketed;
    InDataOfBracketedList(entries, x);
    assert ValidateInData(InDataList(bracketed), Str(x)).None? <==> x == "" || x in entries;
    InSingleton(x, idr);
  }

  lemma InSingleton(x: string, y: string)
    ensures x in [y] <==> x == y
  {
  }

  /** `url` has no case in the dispatcher, so the rule never fails. */
  lemma UrlIsNotDispatched(env: Environment, cfg: Config, f: Field, param: string, parents: seq<Property>)
    ensures DirectiveOutcome(env, cfg, f, Directive("url", param), parents).None?
  {
    assert !Dispatched("url");
    UndispatchedNamePasses(env, cfg, f, Directive("url", param), parents);
  }
}
