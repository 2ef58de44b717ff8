/** The `snapValidator` struct tag: a `|`-separated list of directives, each a rule
    name optionally followed by `:` and a parameter (`required|min_length:8`). */
module Directives {
  import opened Text

  datatype Directive = Directive(name: string, param: string)

  /** One piece of the tag. The rule name is the text before the first `:`; the
      parameter is the text after the colon when the piece holds exactly one colon,
      and `""` otherwise (so `a:b:c` has name `a` and no parameter). */
  function ParseDirective(piece: string): (d: Directive)
    ensures ':' !in d.name && ':' !in d.param
    ensures |d.name| <= |piece| && d.name == piece[..|d.name|]
    ensures |d.name| < |piece| ==> piece[|d.name|] == ':'
    ensures Count(piece, ':') == 1 ==> piece == d.name + [':'] + d.param
    ensures Count(piece, ':') != 1 ==> d.param == ""
  {
    var parts := Split(piece, ':');
    var d := Directive(parts[0], if |parts| == 2 then parts[1] else "");
    if |parts| == 1 then
      assert piece == parts[0];
      d
    else
      assert piece == parts[0] + [':'] + Join(parts[1..], ':');
      d
  }

  /** `strings.Split(tag, "|")` followed by the per-piece parse: one directive per
      piece, in the order they are written. */
  function ParseTag(tag: string): (ds: seq<Directive>)
    ensures |ds| == Count(tag, '|') + 1
    ensures forall k | 0 <= k < |ds| :: '|' !in ds[k].name && '|' !in ds[k].param
  {
    var pieces := Split(tag, '|');
    seq(|pieces|, k requires 0 <= k < |pieces| => ParseDirectiveIn(pieces[k]))
  }

  /** ParseDirective on a piece that holds no `|`, keeping that fact in the result. */
  function ParseDirectiveIn(piece: string): (d: Directive)
    requires '|' !in piece
    ensures d == ParseDirective(piece)
    ensures '|' !in d.name && '|' !in d.param
  {
    var d := ParseDirective(piece);
    assert forall x | x in d.name :: x in piece;
    assert d.param != "" ==> forall x | x in d.param :: x in piece;
    d
  }

  /** `name` alone when the parameter is empty, otherwise `name:param`. */
  function RenderDirective(d: Directive): string {
    if d.param == "" then d.name else d.name + [':'] + d.param
  }

  function RenderTag(ds: seq<Directive>): string {
    Join(seq(|ds|, k requires 0 <= k < |ds| => RenderDirective(ds[k])), '|')
  }

  /** A name or parameter that can be written into a tag unambiguously. */
  predicate Clean(s: string) {
    ':' !in s && '|' !in s
  }

  /** Round trip for one directive. */
  lemma ParseOfRenderDirective(d: Directive)
    requires Clean(d.name) && Clean(d.param)
    ensures ParseDirective(RenderDirective(d)) == d
  {
    if d.param == "" {
      SplitOfJoin([d.name], ':');
    } else {
      SplitOfJoin([d.name, d.param], ':');
      assert Join([d.name, d.param], ':') == d.name + [':'] + d.param by {
        assert [d.name, d.param][1..] == [d.param];
      }
    }
  }

  lemma RenderedHasNoBar(d: Directive)
    requires Clean(d.name) && Clean(d.param)
    ensures '|' !in RenderDirective(d)
  {
  }

  /** Round trip for a whole tag: a non-empty list of clean directives is read back
      exactly, in order. */
  lemma ParseOfRenderTag(ds: seq<Directive>)
    requires |ds| >= 1
    requires forall k | 0 <= k < |ds| :: Clean(ds[k].name) && Clean(ds[k].param)
    ensures ParseTag(RenderTag(ds)) == ds
  {
    var pieces := seq(|ds|, k requires 0 <= k < |ds| => RenderDirective(ds[k]));
    forall k | 0 <= k < |ds|
      ensures '|' !in pieces[k]
    {
      RenderedHasNoBar(ds[k]);
    }
    SplitOfJoin(pieces, '|');
    var parsed := ParseTag(RenderTag(ds));
    forall k | 0 <= k < |ds|
      ensures parsed[k] == ds[k]
    {
      ParseOfRenderDirective(ds[k]);
    }
  }

  /** A piece with two or more colons keeps only the name before the first one. */
  lemma ExtraColonDropsParameter(name: string, p: string, q: string)
    requires ':' !in name
    ensures ParseDirective(name + [':'] + p + [':'] + q) == Directive(name, "")
  {
    var tail := [':'] + q;
    var r := [':'] + (p + tail);
    var piece := name + r;
    assert piece == name + [':'] + p + [':'] + q;
    assert Count(tail, ':') >= 1 by {
      assert tail[0] == ':' && tail[1..] == q;
    }
    CountAppend(p, tail, ':');
    assert Count(r, ':') >= 2 by {
      assert r[0] == ':' && r[1..] == p + tail;
    }
    CountAppend(name, r, ':');
    CountAbsent(name, ':');
    SplitAfterPrefix(name, r, ':');
    assert Split(r, ':')[0] == "" by {
      assert r[0] == ':';
    }
    assert name + "" == name;
  }

  /** The empty tag is one directive with an empty name, which no rule matches. */
  lemma EmptyTag()
    ensures ParseTag("") == [Directive("", "")]
  {
    assert Split("", '|') == [""];
    assert Split("", ':') == [""];
  }

  lemma {:induction false} CountAppend(a: string, b: string, c: char)
    ensures Count(a + b, c) == Count(a, c) + Count(b, c)
  {
    if a != [] {
      assert (a + b)[0] == a[0] && (a + b)[1..] == a[1..] + b;
      CountAppend(a[1..], b, c);
    } else {
      assert a + b == b;
    }
  }

  lemma {:induction false} CountAbsent(a: string, c: char)
    requires c !in a
    ensures Count(a, c) == 0
  {
    if a != [] {
      assert c !in a[1..] by {
        assert forall x | x in a[1..] :: x in a;
      }
      CountAbsent(a[1..], c);
    }
  }
}
