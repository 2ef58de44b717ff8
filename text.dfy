/** The parts of Go's `strings`, `strconv` and `fmt` packages that the validator
    relies on, stated over Dafny strings (sequences of Unicode code points):
    `strings.Split` with a one-character separator, `strings.ReplaceAll` with an
    empty replacement, `strings.TrimSpace`, `strconv.Atoi`, decimal rendering of
    indices and the `%d` subset of `fmt.Sprintf`. */
module Text {
  import opened Wrappers

  predicate IsDigit(c: char) {
    '0' <= c <= '9'
  }

  predicate AllDigits(s: string) {
    forall i | 0 <= i < |s| :: IsDigit(s[i])
  }

  /** Go's `unicode.IsSpace`: the Latin-1 spaces plus the other Unicode White_Space code points. */
  predicate IsSpace(c: char) {
    c == '\t' || c == '\n' || c == '\U{0B}' || c == '\U{0C}' || c == '\r' || c == ' '
    || c == '\U{85}' || c == '\U{A0}' || c == '\U{1680}'
    || ('\U{2000}' <= c <= '\U{200A}')
    || c == '\U{2028}' || c == '\U{2029}' || c == '\U{202F}' || c == '\U{205F}' || c == '\U{3000}'
  }

  /** String concatenation regroups freely; stated once to keep proofs about
      strings that are built piece by piece cheap. */
  lemma ConcatAssoc(x: string, y: string, z: string)
    ensures (x + y) + z == x + (y + z)
  {
  }

  /** Number of occurrences of `c` in `s`. */
  function Count(s: string, c: char): nat {
    if s == [] then 0 else (if s[0] == c then 1 else 0) + Count(s[1..], c)
  }

  // ---------------------------------------------------------------------------
  // strings.Split / strings.Join with a one-character separator
  // ---------------------------------------------------------------------------

  /** The pieces joined back together with `c` between neighbours. */
  function Join(parts: seq<string>, c: char): string {
    if |parts| == 0 then ""
    else if |parts| == 1 then parts[0]
    else parts[0] + [c] + Join(parts[1..], c)
  }

  /** `strings.Split(s, string(c))`: the maximal pieces between occurrences of `c`;
      an empty `s` gives one empty piece. */
  function Split(s: string, c: char): (parts: seq<string>)
    ensures |parts| == Count(s, c) + 1
    ensures forall i | 0 <= i < |parts| :: c !in parts[i]
    ensures Join(parts, c) == s
  {
    if s == [] then [""]
    else
      var rest := Split(s[1..], c);
      if s[0] == c then
        assert Join([""] + rest, c) == [c] + Join(rest, c) by {
          assert ([""] + rest)[1..] == rest;
        }
        assert s == [c] + s[1..];
        [""] + rest
      else
        var parts := [[s[0]] + rest[0]] + rest[1..];
        assert parts[1..] == rest[1..];
        assert Join(parts, c) == [s[0]] + Join(rest, c) by {
          if |rest| > 1 {
            assert Join(rest, c) == rest[0] + [c] + Join(rest[1..], c);
          }
        }
        assert s == [s[0]] + s[1..];
        parts
  }

  /** Splitting a string that starts with a separator-free prefix `p` glues `p`
      onto the first piece of the remainder. */
  lemma {:induction false} SplitAfterPrefix(p: string, r: string, c: char)
    requires c !in p
    ensures Split(p + r, c) == [p + Split(r, c)[0]] + Split(r, c)[1..]
  {
    if p == [] {
      assert p + r == r;
      assert p + Split(r, c)[0] == Split(r, c)[0];
      assert Split(r, c) == [Split(r, c)[0]] + Split(r, c)[1..];
    } else {
      assert (p + r)[1..] == p[1..] + r;
      SplitAfterPrefix(p[1..], r, c);
      assert [p[0]] + (p[1..] + Split(r, c)[0]) == p + Split(r, c)[0];
    }
  }

  /** Round trip: splitting the join of separator-free pieces gives the pieces back. */
  lemma {:induction false} SplitOfJoin(parts: seq<string>, c: char)
    requires |parts| >= 1
    requires forall i | 0 <= i < |parts| :: c !in parts[i]
    ensures Split(Join(parts, c), c) == parts
  {
    if |parts| == 1 {
      SplitAfterPrefix(parts[0], "", c);
      assert parts[0] + "" == parts[0];
    } else {
      var tail := Join(parts[1..], c);
      SplitOfJoin(parts[1..], c);
      assert Join(parts, c) == parts[0] + ([c] + tail);
      SplitAfterPrefix(parts[0], [c] + tail, c);
      assert ([c] + tail)[1..] == tail;
      assert Split([c] + tail, c) == [""] + parts[1..];
      assert parts[0] + "" == parts[0];
      assert parts == [parts[0]] + parts[1..];
    }
  }

  // ---------------------------------------------------------------------------
  // strings.ReplaceAll(s, string(c), "")
  // ---------------------------------------------------------------------------

  /** `s` with every occurrence of `c` removed, the other characters kept in order. */
  function RemoveAll(s: string, c: char): (r: string)
    ensures c !in r
    ensures multiset(r) == multiset(s)[c := 0]
    ensures c !in s ==> r == s
  {
    if s == [] then ""
    else
      var rest := RemoveAll(s[1..], c);
      assert s == [s[0]] + s[1..];
      if s[0] == c then rest else [s[0]] + rest
  }

  // ---------------------------------------------------------------------------
  // strings.TrimSpace
  // ---------------------------------------------------------------------------

  /** `s` without its leading white space. */
  function TrimLeft(s: string): (r: string)
    ensures |r| <= |s| && r == s[|s| - |r|..]
    ensures forall k | 0 <= k < |s| - |r| :: IsSpace(s[k])
    ensures r != [] ==> !IsSpace(r[0])
  {
    if s != [] && IsSpace(s[0]) then TrimLeft(s[1..]) else s
  }

  /** `s` without its trailing white space. */
  function TrimRight(s: string): (r: string)
    ensures |r| <= |s| && r == s[..|r|]
    ensures forall k | |r| <= k < |s| :: IsSpace(s[k])
    ensures r != [] ==> !IsSpace(r[|r| - 1])
  {
    if s != [] && IsSpace(s[|s| - 1]) then TrimRight(s[..|s| - 1]) else s
  }

  /** `r` sits at offset `a` of `s` and everything of `s` around it is blank. */
  predicate BlankPadded(s: string, a: nat, r: string)
  {
    a + |r| <= |s| && r == s[a..a + |r|]
    && (forall k | 0 <= k < a :: IsSpace(s[k]))
    && (forall k | a + |r| <= k < |s| :: IsSpace(s[k]))
  }

  /** `strings.TrimSpace`: `s` without leading and trailing white space. */
  function TrimSpace(s: string): (r: string)
    ensures r == [] <==> forall k | 0 <= k < |s| :: IsSpace(s[k])
    ensures r != [] ==> !IsSpace(r[0]) && !IsSpace(r[|r| - 1])
  {
    TrimBothEnds(s);
    TrimRight(TrimLeft(s))
  }

  /** What `TrimSpace` keeps is a piece of `s` with only blanks around it. */
  lemma TrimSpaceIsBlankPadded(s: string)
    ensures exists a: nat :: BlankPadded(s, a, TrimSpace(s))
  {
    TrimBothEnds(s);
    var a :| BlankPadded(s, a, TrimRight(TrimLeft(s)));
    assert BlankPadded(s, a, TrimSpace(s));
  }

  lemma TrimBothEnds(s: string)
    ensures TrimRight(TrimLeft(s)) == [] <==> forall k | 0 <= k < |s| :: IsSpace(s[k])
    ensures var r := TrimRight(TrimLeft(s)); r != [] ==> !IsSpace(r[0]) && !IsSpace(r[|r| - 1])
    ensures exists a: nat :: BlankPadded(s, a, TrimRight(TrimLeft(s)))
  {
    var left := TrimLeft(s);
    var r := TrimRight(left);
    var cut := |s| - |left|;
    assert r == s[cut..cut + |r|];
    forall k | cut + |r| <= k < |s| ensures IsSpace(s[k]) {
      assert s[k] == left[k - cut];
    }
    assert BlankPadded(s, cut, r);
    if r == [] {
      forall k | 0 <= k < |s| ensures IsSpace(s[k]) {
        if k >= cut {
          assert s[k] == left[k - cut];
        }
      }
    } else {
      assert r[0] == left[0];
    }
    if left != [] {
      assert s[cut] == left[0];
    }
  }

  /** Blanks in front of a string that starts with a non-blank are dropped. */
  lemma {:induction false} TrimLeftSkipsBlanks(w: string, t: string)
    requires forall k | 0 <= k < |w| :: IsSpace(w[k])
    requires t == [] || !IsSpace(t[0])
    ensures TrimLeft(w + t) == t
  {
    if w != [] {
      assert (w + t)[1..] == w[1..] + t;
      TrimLeftSkipsBlanks(w[1..], t);
    } else {
      assert w + t == t;
    }
  }

  /** Blanks after a string that ends with a non-blank are dropped. */
  lemma {:induction false} TrimRightSkipsBlanks(t: string, w: string)
    requires forall k | 0 <= k < |w| :: IsSpace(w[k])
    requires t == [] || !IsSpace(t[|t| - 1])
    ensures TrimRight(t + w) == t
  {
    if w != [] {
      assert (t + w)[..|t + w| - 1] == t + w[..|w| - 1];
      TrimRightSkipsBlanks(t, w[..|w| - 1]);
    } else {
      assert t + w == t;
    }
  }

  /** Trimming a string padded with blanks on both sides returns what was padded,
      when its own ends are not blank. */
  lemma TrimSpaceOfPadded(front: string, t: string, back: string)
    requires forall k | 0 <= k < |front| :: IsSpace(front[k])
    requires forall k | 0 <= k < |back| :: IsSpace(back[k])
    requires t == [] || (!IsSpace(t[0]) && !IsSpace(t[|t| - 1]))
    ensures TrimSpace(front + t + back) == t
  {
    var s := front + t + back;
    if t == [] {
      forall k | 0 <= k < |s| ensures IsSpace(s[k]) {
        if k >= |front| {
          assert s[k] == back[k - |front|];
        }
      }
    } else {
      assert s == front + (t + back);
      assert (t + back)[0] == t[0];
      TrimLeftSkipsBlanks(front, t + back);
      TrimRightSkipsBlanks(t, back);
    }
  }

  // ---------------------------------------------------------------------------
  // Decimal rendering and parsing
  // ---------------------------------------------------------------------------

  function Pow10(k: nat): (p: nat)
    ensures p >= 1
  {
    if k == 0 then 1 else 10 * Pow10(k - 1)
  }

  function DigitChar(d: nat): (c: char)
    requires d < 10
    ensures IsDigit(c)
  {
    (('0' as int) + d) as char
  }

  function DigitValue(c: char): (d: nat)
    requires IsDigit(c)
    ensures d < 10 && DigitChar(d) == c
  {
    (c as int) - ('0' as int)
  }

  /** The decimal rendering of `n` (Go's `%d` of a non-negative integer). */
  function NatToString(n: nat): (s: string)
    ensures |s| >= 1 && AllDigits(s)
    ensures s[0] == '0' ==> s == "0"
  {
    if n < 10 then [DigitChar(n)] else NatToString(n / 10) + [DigitChar(n % 10)]
  }

  /** The value of a string of decimal digits (leading zeros allowed). */
  function DigitsValue(s: string): nat
    requires AllDigits(s)
  {
    if s == [] then 0 else DigitsValue(s[..|s| - 1]) * 10 + DigitValue(s[|s| - 1])
  }

  lemma {:induction false} DigitsValueOfNatToString(n: nat)
    ensures DigitsValue(NatToString(n)) == n
  {
    if n >= 10 {
      var s := NatToString(n);
      assert s[..|s| - 1] == NatToString(n / 10);
      DigitsValueOfNatToString(n / 10);
    }
  }

  lemma {:induction false} DigitsValueBound(s: string)
    requires AllDigits(s)
    ensures DigitsValue(s) < Pow10(|s|)
  {
    if s != [] {
      DigitsValueBound(s[..|s| - 1]);
    }
  }

  lemma {:induction false} DigitsValuePositive(s: string)
    requires AllDigits(s) && |s| >= 1 && s[0] != '0'
    ensures DigitsValue(s) >= 1
  {
    if |s| > 1 {
      DigitsValuePositive(s[..|s| - 1]);
    } else {
      assert DigitValue(s[0]) != 0 by {
        assert DigitChar(DigitValue(s[0])) == s[0];
      }
    }
  }

  /** Round trip: a digit string without a leading zero is the rendering of its value. */
  lemma {:induction false} NatToStringOfDigitsValue(s: string)
    requires AllDigits(s) && |s| >= 1
    requires s[0] == '0' ==> |s| == 1
    ensures NatToString(DigitsValue(s)) == s
  {
    if |s| > 1 {
      var t := s[..|s| - 1];
      var d := DigitValue(s[|s| - 1]);
      NatToStringOfDigitsValue(t);
      DigitsValuePositive(t);
      var n := DigitsValue(t) * 10 + d;
      assert n / 10 == DigitsValue(t) && n % 10 == d;
      assert s == t + [s[|s| - 1]];
    }
  }

  /** A number below 10^k renders in at most k digits. */
  lemma {:induction false} NatToStringLength(n: nat, k: nat)
    requires k >= 1 && n < Pow10(k)
    ensures |NatToString(n)| <= k
  {
    if n >= 10 {
      NatToStringLength(n / 10, k - 1);
    }
  }

  // ---------------------------------------------------------------------------
  // strconv.Atoi
  // ---------------------------------------------------------------------------

  const MinInt64: int := -0x8000_0000_0000_0000
  const MaxInt64: int := 0x7fff_ffff_ffff_ffff

  /** `strconv.Atoi` for a 64-bit `int`: an optional sign followed by at least one
      decimal digit, within range; anything else is an error (`None`). */
  function Atoi(s: string): (r: Option<int>)
    ensures r.Some? ==> MinInt64 <= r.value <= MaxInt64
    ensures r.Some? ==> |s| >= 1
  {
    if s == "" then None
    else
      var signed := s[0] == '+' || s[0] == '-';
      var body := if signed then s[1..] else s;
      if body == "" || !AllDigits(body) then None
      else
        var v: int := DigitsValue(body);
        var n := if s[0] == '-' then -v else v;
        if MinInt64 <= n <= MaxInt64 then Some(n) else None
  }

  /** Round trip: Atoi reads back the rendering of any non-negative 64-bit integer. */
  lemma AtoiOfNatToString(n: nat)
    requires n <= MaxInt64
    ensures Atoi(NatToString(n)) == Some(n)
  {
    var s := NatToString(n);
    assert IsDigit(s[0]);
    DigitsValueOfNatToString(n);
  }

  /** A string holding a character other than a sign or a digit never parses. */
  lemma AtoiRejectsNonDigit(s: string, k: nat)
    requires 0 < k < |s| || (k == 0 < |s| && s[0] != '+' && s[0] != '-')
    requires !IsDigit(s[k])
    ensures Atoi(s).None?
  {
    var signed := s[0] == '+' || s[0] == '-';
    var body := if signed then s[1..] else s;
    if signed {
      assert body[k - 1] == s[k];
    } else {
      assert body[k] == s[k];
    }
  }

  // ---------------------------------------------------------------------------
  // fmt.Sprintf, restricted to the %d verb with integer arguments
  // ---------------------------------------------------------------------------

  /** The text produced by the verbs of `t` and the arguments they left over.
      `%d` consumes the next argument (or renders `%!d(MISSING)` when none is left),
      `%%` renders `%`; every other character is copied. */
  function FormatVerbs(t: string, args: seq<nat>): (r: (string, seq<nat>))
    ensures |r.1| <= |args| && r.1 == args[|args| - |r.1|..]
    ensures t != [] ==> r.0 != []
  {
    if t == [] then ("", args)
    else if t[0] == '%' && |t| >= 2 && t[1] == 'd' then
      if args == [] then
        var rest := FormatVerbs(t[2..], []);
        ("%!d(MISSING)" + rest.0, rest.1)
      else
        var rest := FormatVerbs(t[2..], args[1..]);
        (NatToString(args[0]) + rest.0, rest.1)
    else if t[0] == '%' && |t| >= 2 && t[1] == '%' then
      var rest := FormatVerbs(t[2..], args);
      ("%" + rest.0, rest.1)
    else
      var rest := FormatVerbs(t[1..], args);
      ([t[0]] + rest.0, rest.1)
  }

  /** Go's report of unused arguments: `int=1, int=2`. */
  function ExtraArgs(args: seq<nat>): string
    decreases |args|
  {
    if args == [] then ""
    else if |args| == 1 then "int=" + NatToString(args[0])
    else "int=" + NatToString(args[0]) + ", " + ExtraArgs(args[1..])
  }

  /** `fmt.Sprintf(t, args...)` for integer arguments and the `%d` verb. */
  function Sprintf(t: string, args: seq<nat>): (r: string)
    ensures t != [] ==> r != []
  {
    var (text, unused) := FormatVerbs(t, args);
    if unused == [] then text else text + "%!(EXTRA " + ExtraArgs(unused) + ")"
  }

  /** A template with no `%` is rendered as itself and leaves every argument unused. */
  lemma {:induction false} FormatVerbsWithoutVerbs(t: string, args: seq<nat>)
    requires '%' !in t
    ensures FormatVerbs(t, args) == (t, args)
  {
    if t != [] {
      assert t[0] != '%' && t[0] in t;
      assert '%' !in t[1..] by {
        assert forall x | x in t[1..] :: x in t;
      }
      FormatVerbsWithoutVerbs(t[1..], args);
      assert [t[0]] + t[1..] == t;
    }
  }

  /** A template with no `%` is copied unchanged when no argument is given,
      and followed by Go's EXTRA report otherwise. */
  lemma SprintfWithoutVerbs(t: string, args: seq<nat>)
    requires '%' !in t
    ensures Sprintf(t, args) == if args == [] then t else t + "%!(EXTRA " + ExtraArgs(args) + ")"
  {
    FormatVerbsWithoutVerbs(t, args);
  }

  /** A `%`-free prefix is copied ahead of whatever the rest of the template renders. */
  lemma {:induction false} FormatVerbsCopiesPrefix(p: string, rest: string, args: seq<nat>)
    requires '%' !in p
    ensures FormatVerbs(p + rest, args) == (p + FormatVerbs(rest, args).0, FormatVerbs(rest, args).1)
  {
    if p == [] {
      assert p + rest == rest;
      assert p + FormatVerbs(rest, args).0 == FormatVerbs(rest, args).0;
    } else {
      assert (p + rest)[0] == p[0] && (p + rest)[1..] == p[1..] + rest;
      assert '%' !in p[1..] by {
        assert forall x | x in p[1..] :: x in p;
      }
      FormatVerbsCopiesPrefix(p[1..], rest, args);
      assert [p[0]] + (p[1..] + FormatVerbs(rest, args).0) == p + FormatVerbs(rest, args).0;
    }
  }

  /** A template with one `%d` and one index renders the index in its place. */
  lemma SprintfOneIndex(p: string, q: string, n: nat)
    requires '%' !in p && '%' !in q
    ensures Sprintf(p + "%d" + q, [n]) == p + NatToString(n) + q
  {
    var rest := "%d" + q;
    assert p + "%d" + q == p + rest;
    FormatVerbsCopiesPrefix(p, rest, [n]);
    assert rest[0] == '%' && rest[1] == 'd' && rest[2..] == q;
    FormatVerbsWithoutVerbs(q, []);
    assert FormatVerbs(rest, [n]) == (NatToString(n) + q, []);
  }
}
