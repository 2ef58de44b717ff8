/** How a failed rule becomes the error the validator returns (`getLabel`,
    `parsingError`, `parsingErrorWithSuffix`): a dotted label naming the field,
    and an optional custom message looked up by rule in the first table the
    validator was configured with. */
module ErrorFactory {
  import opened Text
  import opened Values
  import opened SnapErrors

  /** The validator's state (`validatorImpl`): the custom-message tables, of which
      only the first is ever read, and the service code spliced into error codes. */
  datatype Config = Config(customValidation: seq<map<string, string>>, serviceCode: string)

  /** Go's map index: a missing key reads as the empty string. */
  function Lookup(m: map<string, string>, key: string): string {
    if key in m then m[key] else ""
  }

  // ---------------------------------------------------------------------------
  // Labels
  // ---------------------------------------------------------------------------

  /** The name a field goes by in messages: its json tag when it has one. */
  function OwnLabel(f: Field): string {
    if f.json != "" then f.json else f.name
  }

  /** What one ancestor contributes to a label: its json name (or, lacking one, its
      Go name) and a dot, then the element index and a dot for a slice element;
      nothing when it has neither name. */
  function LabelSegment(p: Property): string {
    var index := if p.isArray then NatToString(p.index) + "." else "";
    if p.jsonName != "" then p.jsonName + "." + index
    else if p.fieldName != "" then p.fieldName + "." + index
    else ""
  }

  /** The pieces `piece(p)` of the ancestors, root first, one after the other. */
  function ConcatMap(parents: seq<Property>, piece: Property -> string): string {
    if parents == [] then "" else ConcatMap(parents[..|parents| - 1], piece) + piece(parents[|parents| - 1])
  }

  /** The ancestors' segments, root first. */
  function LabelPrefix(parents: seq<Property>): string {
    ConcatMap(parents, LabelSegment)
  }

  /** The label of a field reached through `parents`. */
  function Label(f: Field, parents: seq<Property>): string {
    LabelPrefix(parents) + OwnLabel(f)
  }

  /** `getLabel`: the ancestors' segments are appended one by one. */
  method GetLabel(f: Field, parents: seq<Property>) returns (labelText: string)
    ensures labelText == Label(f, parents)
    ensures parents == [] ==> labelText == OwnLabel(f)
  {
    labelText := f.name;
    if f.json != "" {
      labelText := f.json;
    }
    var labelWithParent := "";
    if |parents| > 0 {
      for k := 0 to |parents|
        invariant labelWithParent == LabelPrefix(parents[..k])
      {
        var p := parents[k];
        var before := labelWithParent;
        var upTo := parents[..k + 1];
        assert upTo[..|upTo| - 1] == parents[..k] && upTo[|upTo| - 1] == p;
        assert LabelPrefix(upTo) == before + LabelSegment(p);
        var index := if p.isArray then NatToString(p.index) + "." else "";
        if p.jsonName != "" {
          labelWithParent := labelWithParent + p.jsonName;
          labelWithParent := labelWithParent + ".";
          if p.isArray {
            labelWithParent := labelWithParent + NatToString(p.index) + ".";
            ConcatAssoc(before + p.jsonName + ".", NatToString(p.index), ".");
          }
          ConcatAssoc(before + p.jsonName, ".", index);
          ConcatAssoc(before, p.jsonName, "." + index);
          ConcatAssoc(p.jsonName, ".", index);
        } else if p.fieldName != "" {
          labelWithParent := labelWithParent + p.fieldName;
          labelWithParent := labelWithParent + ".";
          if p.isArray {
            labelWithParent := labelWithParent + NatToString(p.index) + ".";
            ConcatAssoc(before + p.fieldName + ".", NatToString(p.index), ".");
          }
          ConcatAssoc(before + p.fieldName, ".", index);
          ConcatAssoc(before, p.fieldName, "." + index);
          ConcatAssoc(p.fieldName, ".", index);
        } else {
          assert before + "" == before;
        }
        assert labelWithParent == before + LabelSegment(p);
      }
      assert parents[..|parents|] == parents;
      return labelWithParent + labelText;
    }
  }

  /** Concatenating the pieces of a path is concatenating those of its parts. */
  lemma {:induction false} ConcatMapAppend(a: seq<Property>, b: seq<Property>, piece: Property -> string)
    ensures ConcatMap(a + b, piece) == ConcatMap(a, piece) + ConcatMap(b, piece)
    decreases |b|
  {
    if b == [] {
      assert a + b == a;
      assert ConcatMap(a, piece) + "" == ConcatMap(a, piece);
    } else {
      var b' := b[..|b| - 1];
      var ab := a + b;
      assert ab[..|ab| - 1] == a + b';
      assert ab[|ab| - 1] == b[|b| - 1];
      ConcatMapAppend(a, b', piece);
      ConcatAssoc(ConcatMap(a, piece), ConcatMap(b', piece), piece(b[|b| - 1]));
    }
  }

  /** The label prefix of a path is the prefixes of its parts, one after the other. */
  lemma LabelPrefixAppend(a: seq<Property>, b: seq<Property>)
    ensures LabelPrefix(a + b) == LabelPrefix(a) + LabelPrefix(b)
  {
    ConcatMapAppend(a, b, LabelSegment);
  }

  /** An ancestor with neither a json name nor a Go name leaves the label unchanged. */
  lemma NamelessAncestorIgnored(f: Field, a: seq<Property>, p: Property, b: seq<Property>)
    requires p.jsonName == "" && p.fieldName == ""
    ensures Label(f, a + [p] + b) == Label(f, a + b)
  {
    ConcatMapAppend(a + [p], b, LabelSegment);
    ConcatMapAppend(a, b, LabelSegment);
    ConcatMapAppend(a, [p], LabelSegment);
    assert [p][..0] == [];
    assert LabelPrefix(a) + "" == LabelPrefix(a);
  }

  /** Descending one level puts the ancestor's segment between the path so far and
      the field's own label. */
  lemma LabelOfChild(f: Field, parents: seq<Property>, p: Property)
    ensures Label(f, parents + [p]) == LabelPrefix(parents) + LabelSegment(p) + OwnLabel(f)
  {
    assert (parents + [p])[..|parents|] == parents;
    assert LabelPrefix(parents + [p]) == LabelPrefix(parents) + LabelSegment(p);
  }

  // ---------------------------------------------------------------------------
  // Custom-message keys
  // ---------------------------------------------------------------------------

  /** The ancestors' Go names joined by dots, each slice ancestor followed by `.*`. */
  function KeyPrefix(parents: seq<Property>): string {
    if parents == [] then ""
    else
      var before := KeyPrefix(parents[..|parents| - 1]);
      var p := parents[|parents| - 1];
      (if before != "" then before + "." else "") + p.fieldName + (if p.isArray then ".*" else "")
  }

  /** The element indices of the slice ancestors, root first. */
  function ArrayIndices(parents: seq<Property>): (indices: seq<nat>)
    ensures |indices| <= |parents|
    ensures indices == [] <==> forall k | 0 <= k < |parents| :: !parents[k].isArray
  {
    if parents == [] then []
    else
      var p := parents[|parents| - 1];
      ArrayIndices(parents[..|parents| - 1]) + (if p.isArray then [p.index] else [])
  }

  /** The path part of the path-specific key; `.Name` is added only after a
      non-empty prefix. */
  function PathKey(name: string, parents: seq<Property>): string {
    var prefix := KeyPrefix(parents);
    if prefix != "" then prefix + "." + name else prefix
  }

  /** The custom message for a failed rule, `""` when there is none. The field key
      `Name:rule` is read first; when the field has ancestors, a non-empty entry at
      the path key replaces it, with the slice indices substituted into it when
      there are any. */
  function CustomMessage(cfg: Config, name: string, rule: string, parents: seq<Property>): string {
    if |cfg.customValidation| == 0 then ""
    else
      var table := cfg.customValidation[0];
      var byField := Lookup(table, name + ":" + rule);
      if |parents| == 0 then byField
      else
        var byPath := Lookup(table, PathKey(name, parents) + ":" + rule);
        var indices := ArrayIndices(parents);
        if byPath == "" then byField
        else if |indices| > 0 then Sprintf(byPath, indices)
        else byPath
  }

  /** The error for a failed rule given the label to fall back on: the custom
      message with the spliced code and no label when there is one, otherwise
      `NewErrorSnap` with the label. */
  function FieldError(cfg: Config, f: Field, code: string, rule: string, parents: seq<Property>, labelText: string): ErrorValidation {
    var message := CustomMessage(cfg, f.name, rule, parents);
    if message != "" then ErrorValidation(code, SpliceServiceCode(code, cfg.serviceCode), message, f.name)
    else NewErrorSnap(code, labelText, f.name, cfg.serviceCode)
  }

  /** What `parsingError` returns. */
  function ParsingErrorOf(cfg: Config, f: Field, code: string, rule: string, parents: seq<Property>): ErrorValidation {
    FieldError(cfg, f, code, rule, parents, Label(f, parents))
  }

  /** What `parsingErrorWithSuffix` returns: the label is followed by a space and
      the suffix when it is used. */
  function ParsingErrorWithSuffixOf(cfg: Config, f: Field, code: string, rule: string, parents: seq<Property>, suffix: string): ErrorValidation {
    FieldError(cfg, f, code, rule, parents, Label(f, parents) + " " + suffix)
  }

  /** The key and the indices as `parsingError` builds them, ancestor by ancestor. */
  method BuildPathKey(name: string, parents: seq<Property>) returns (keyLabel: string, indexIfUseArray: seq<nat>)
    ensures keyLabel == PathKey(name, parents)
    ensures indexIfUseArray == ArrayIndices(parents)
  {
    keyLabel := "";
    indexIfUseArray := [];
    for k := 0 to |parents|
      invariant keyLabel == KeyPrefix(parents[..k])
      invariant indexIfUseArray == ArrayIndices(parents[..k])
    {
      var parent := parents[k];
      assert parents[..k + 1][..k] == parents[..k];
      if keyLabel != "" {
        keyLabel := keyLabel + ".";
      }
      keyLabel := keyLabel + parent.fieldName;
      if parent.isArray {
        keyLabel := keyLabel + ".*";
        indexIfUseArray := indexIfUseArray + [parent.index];
      }
    }
    assert parents[..|parents|] == parents;
    if keyLabel != "" {
      keyLabel := keyLabel + "." + name;
    }
  }

  /** The shared part of `parsingError` and `parsingErrorWithSuffix`. */
  method ResolveError(cfg: Config, f: Field, code: string, rule: string, parents: seq<Property>, labelText: string)
    returns (e: ErrorValidation)
    ensures e == FieldError(cfg, f, code, rule, parents, labelText)
  {
    if |cfg.customValidation| > 0 {
      var customValidation := cfg.customValidation[0];
      var customMessage := Lookup(customValidation, f.name + ":" + rule);
      if |parents| > 0 {
        var keyLabel, indexIfUseArray := BuildPathKey(f.name, parents);
        var customMessageParent := Lookup(customValidation, keyLabel + ":" + rule);
        if customMessageParent != "" {
          if |indexIfUseArray| > 0 {
            customMessage := Sprintf(customMessageParent, indexIfUseArray);
          } else {
            customMessage := customMessageParent;
          }
        }
      }
      if customMessage != "" {
        var snapCode := code;
        if |code| > 4 {
          snapCode := code[..3] + cfg.serviceCode + code[3..5];
        }
        return ErrorValidation(code, snapCode, customMessage, f.name);
      }
    }
    e := NewErrorSnap(code, labelText, f.name, cfg.serviceCode);
  }

  /** `parsingError`. */
  method ParsingError(cfg: Config, f: Field, code: string, rule: string, parents: seq<Property>)
    returns (e: ErrorValidation)
    ensures e == ParsingErrorOf(cfg, f, code, rule, parents)
  {
    var labelText := GetLabel(f, parents);
    e := ResolveError(cfg, f, code, rule, parents, labelText);
  }

  /** `parsingErrorWithSuffix`. */
  method ParsingErrorWithSuffix(suffix: string, cfg: Config, f: Field, code: string, rule: string, parents: seq<Property>)
    returns (e: ErrorValidation)
    ensures e == ParsingErrorWithSuffixOf(cfg, f, code, rule, parents, suffix)
  {
    var labelText := GetLabel(f, parents);
    e := ResolveError(cfg, f, code, rule, parents, labelText + " " + suffix);
  }

  // ---------------------------------------------------------------------------
  // Properties of the error factory
  // ---------------------------------------------------------------------------

  /** A non-empty entry at the path key wins over the field key, whatever the field
      key holds; the result carries the template (indices substituted) and the spliced
      code, and no label. */
  lemma PathKeyOverridesFieldKey(cfg: Config, f: Field, code: string, rule: string, parents: seq<Property>)
    requires |cfg.customValidation| > 0 && |parents| > 0
    requires Lookup(cfg.customValidation[0], PathKey(f.name, parents) + ":" + rule) != ""
    ensures var template := Lookup(cfg.customValidation[0], PathKey(f.name, parents) + ":" + rule);
            var e := ParsingErrorOf(cfg, f, code, rule, parents);
            var message := if ArrayIndices(parents) == [] then template else Sprintf(template, ArrayIndices(parents));
            e == ErrorValidation(code, SpliceServiceCode(code, cfg.serviceCode), message, f.name)
  {
  }

  /** With no path entry, a non-empty field entry `Name:rule` is the message. */
  lemma FieldKeyWithoutPathEntry(cfg: Config, f: Field, code: string, rule: string, parents: seq<Property>)
    requires |cfg.customValidation| > 0
    requires |parents| == 0 || Lookup(cfg.customValidation[0], PathKey(f.name, parents) + ":" + rule) == ""
    requires Lookup(cfg.customValidation[0], f.name + ":" + rule) != ""
    ensures ParsingErrorOf(cfg, f, code, rule, parents)
         == ErrorValidation(code, SpliceServiceCode(code, cfg.serviceCode), cfg.customValidation[0][f.name + ":" + rule], f.name)
  {
  }

  /** Without a custom message the error is `NewErrorSnap` with the label: the
      default message of the code, a space and the label. */
  lemma FallbackUsesLabel(cfg: Config, f: Field, code: string, rule: string, parents: seq<Property>)
    requires CustomMessage(cfg, f.name, rule, parents) == ""
    ensures ParsingErrorOf(cfg, f, code, rule, parents) == NewErrorSnap(code, Label(f, parents), f.name, cfg.serviceCode)
    ensures ParsingErrorOf(cfg, f, code, rule, parents).message == GetSnapMessage(code) + " " + Label(f, parents)
    ensures ParsingErrorWithSuffixOf(cfg, f, code, rule, parents, "must greater than now").message
         == GetSnapMessage(code) + " " + Label(f, parents) + " must greater than now"
  {
    var head, lbl, suffix := GetSnapMessage(code) + " ", Label(f, parents), "must greater than now";
    FieldErrorFallback(cfg, f, code, rule, parents, lbl);
    FieldErrorFallback(cfg, f, code, rule, parents, lbl + " " + suffix);
    assert " " + suffix == " must greater than now";
    ConcatAssoc(lbl, " ", suffix);
    ConcatAssoc(head, lbl, " " + suffix);
  }

  /** Without a custom message the label given is used. */
  lemma FieldErrorFallback(cfg: Config, f: Field, code: string, rule: string, parents: seq<Property>, labelText: string)
    requires CustomMessage(cfg, f.name, rule, parents) == ""
    ensures FieldError(cfg, f, code, rule, parents, labelText) == NewErrorSnap(code, labelText, f.name, cfg.serviceCode)
  {
  }

  /** A validator configured without tables always falls back. */
  lemma NoTablesFallBack(f: Field, code: string, rule: string, parents: seq<Property>, serviceCode: string)
    ensures ParsingErrorOf(Config([], serviceCode), f, code, rule, parents)
         == NewErrorSnap(code, Label(f, parents), f.name, serviceCode)
  {
  }

  /** Only the first table is consulted: tables after it change nothing. */
  lemma OnlyFirstTable(table: map<string, string>, rest: seq<map<string, string>>, serviceCode: string,
                       f: Field, code: string, rule: string, parents: seq<Property>)
    ensures ParsingErrorOf(Config([table] + rest, serviceCode), f, code, rule, parents)
         == ParsingErrorOf(Config([table], serviceCode), f, code, rule, parents)
  {
  }

  /** The service code changes the service variant of the code and nothing else. */
  lemma ServiceCodeOnlyInSnapCode(tables: seq<map<string, string>>, sc1: string, sc2: string,
                                  f: Field, code: string, rule: string, parents: seq<Property>)
    ensures var e1 := ParsingErrorOf(Config(tables, sc1), f, code, rule, parents);
            var e2 := ParsingErrorOf(Config(tables, sc2), f, code, rule, parents);
            e1.code == e2.code == code && e1.message == e2.message && e1.fieldName == e2.fieldName == f.name
            && e1.snapCode == SpliceServiceCode(code, sc1) && e2.snapCode == SpliceServiceCode(code, sc2)
  {
  }

  /** Two paths with the same Go names and the same slice positions share their key
      (json names and element indices do not enter it). */
  lemma {:induction false} KeyIgnoresJsonAndIndex(ps: seq<Property>, qs: seq<Property>)
    requires |ps| == |qs|
    requires forall k | 0 <= k < |ps| :: ps[k].fieldName == qs[k].fieldName && ps[k].isArray == qs[k].isArray
    ensures KeyPrefix(ps) == KeyPrefix(qs)
    decreases |ps|
  {
    if ps != [] {
      KeyIgnoresJsonAndIndex(ps[..|ps| - 1], qs[..|qs| - 1]);
    }
  }

  /** The key prefix is empty exactly when every ancestor has an empty Go name and
      none is a slice element. */
  lemma {:induction false} KeyPrefixEmpty(ps: seq<Property>)
    ensures KeyPrefix(ps) == "" <==> forall k | 0 <= k < |ps| :: ps[k].fieldName == "" && !ps[k].isArray
    decreases |ps|
  {
    if ps != [] {
      var init := ps[..|ps| - 1];
      KeyPrefixEmpty(init);
      forall k | 0 <= k < |init| ensures init[k] == ps[k] { }
    }
  }

  /** The step an ancestor contributes to the key. */
  function KeyStep(p: Property): string {
    p.fieldName + (if p.isArray then ".*" else "")
  }

  lemma {:induction false} JoinSnoc(xs: seq<string>, x: string, c: char)
    ensures Join(xs + [x], c) == if xs == [] then x else Join(xs, c) + [c] + x
    decreases |xs|
  {
    if |xs| == 1 {
      assert (xs + [x])[1..] == [x];
    } else if |xs| > 1 {
      assert (xs + [x])[1..] == xs[1..] + [x];
      JoinSnoc(xs[1..], x, c);
    }
  }

  /** With non-empty Go names the key prefix is the ancestors' steps joined by dots. */
  lemma {:induction false} KeyPrefixIsJoin(ps: seq<Property>)
    requires forall k | 0 <= k < |ps| :: ps[k].fieldName != ""
    ensures KeyPrefix(ps) == Join(seq(|ps|, k requires 0 <= k < |ps| => KeyStep(ps[k])), '.')
    decreases |ps|
  {
    if ps != [] {
      var init := ps[..|ps| - 1];
      var steps := seq(|ps|, k requires 0 <= k < |ps| => KeyStep(ps[k]));
      var initSteps := seq(|init|, k requires 0 <= k < |init| => KeyStep(init[k]));
      KeyPrefixIsJoin(init);
      assert steps == initSteps + [KeyStep(ps[|ps| - 1])];
      JoinSnoc(initSteps, KeyStep(ps[|ps| - 1]), '.');
      if init != [] {
        KeyPrefixEmpty(init);
        assert init[0].fieldName != "";
      }
    }
  }
}
