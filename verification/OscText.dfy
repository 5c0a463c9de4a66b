/** OSC addresses as text: splitting at slashes, joining, and filling in a path's placeholders. */
module OscText {
  predicate SlashFree(s: string) {
    '/' !in s
  }

  predicate BraceFree(s: string) {
    '{' !in s && '}' !in s
  }

  function Split(s: string): (r: seq<string>)
    ensures |r| >= 1
  {
    if s == "" then [""]
    else
      var r := Split(s[1..]);
      if s[0] == '/' then [""] + r else [[s[0]] + r[0]] + r[1..]
  }

  function Join(cs: seq<string>): string
    requires |cs| >= 1
  {
    if |cs| == 1 then cs[0] else cs[0] + "/" + Join(cs[1..])
  }

  lemma {:induction false} JoinSplit(s: string)
    ensures Join(Split(s)) == s
  {
    if s != "" {
      JoinSplit(s[1..]);
      var r := Split(s[1..]);
      if s[0] == '/' {
        assert ([""] + r)[1..] == r;
      } else {
        assert ([[s[0]] + r[0]] + r[1..])[1..] == r[1..];
        assert |r| > 1 ==> Join(r) == r[0] + "/" + Join(r[1..]);
      }
    }
  }

  lemma {:induction false} SplitCat(a: string, b: string)
    ensures Split(a + "/" + b) == Split(a) + Split(b)
  {
    var s := a + "/" + b;
    if a == "" {
      assert s[1..] == b;
    } else {
      assert s[1..] == a[1..] + "/" + b;
      SplitCat(a[1..], b);
    }
  }

  lemma {:induction false} SplitClean(s: string)
    ensures |Split(s)| == 1 <==> SlashFree(s)
    ensures SlashFree(s) ==> Split(s) == [s]
  {
    if s != "" {
      SplitClean(s[1..]);
      assert s == [s[0]] + s[1..];
      assert SlashFree(s) <==> s[0] != '/' && SlashFree(s[1..]);
    }
  }

  function SplitAll(cs: seq<string>): seq<string> {
    if cs == [] then [] else Split(cs[0]) + SplitAll(cs[1..])
  }

  lemma {:induction false} SplitJoin(cs: seq<string>)
    requires |cs| >= 1
    ensures Split(Join(cs)) == SplitAll(cs)
  {
    if |cs| == 1 {
      assert SplitAll(cs[1..]) == [];
    } else {
      SplitCat(cs[0], Join(cs[1..]));
      SplitJoin(cs[1..]);
    }
  }

  /** Joined components split into as many again exactly when none holds a slash; then they are the
      same components. */
  lemma {:induction false} SplitAllClean(cs: seq<string>)
    ensures |SplitAll(cs)| >= |cs|
    ensures |SplitAll(cs)| == |cs| <==> forall k :: 0 <= k < |cs| ==> SlashFree(cs[k])
    ensures |SplitAll(cs)| == |cs| ==> SplitAll(cs) == cs
  {
    if cs != [] {
      SplitAllClean(cs[1..]);
      SplitClean(cs[0]);
      assert cs == [cs[0]] + cs[1..];
      assert (forall k :: 0 <= k < |cs| ==> SlashFree(cs[k]))
             <==> SlashFree(cs[0]) && forall k :: 0 <= k < |cs[1..]| ==> SlashFree(cs[1..][k]);
    }
  }

  // ---- placeholders ----

  /** One component of a path pattern. */
  datatype Pat = Literal(text: string) | Capture(name: string)

  function StripBraces(s: string): string {
    if s == "" then ""
    else if s[0] == '{' || s[0] == '}' then StripBraces(s[1..])
    else [s[0]] + StripBraces(s[1..])
  }

  function PatOf(c: string): Pat {
    if c != "" && c[0] == '{' then Capture(StripBraces(c)) else Literal(c)
  }

  function TextOf(p: Pat): string {
    match p case Literal(t) => t case Capture(n) => "{" + n + "}"
  }

  predicate CleanPat(p: Pat) {
    match p case Literal(t) => SlashFree(t) && BraceFree(t) case Capture(n) => SlashFree(n) && BraceFree(n)
  }

  predicate CleanComponent(c: string) {
    CleanPat(PatOf(c)) && TextOf(PatOf(c)) == c
  }

  lemma {:induction false} StripNothing(s: string, tail: string)
    requires BraceFree(s)
    ensures StripBraces(s + tail) == s + StripBraces(tail)
  {
    if s == "" {
      assert s + tail == tail;
    } else {
      StripNothing(s[1..], tail);
      assert (s + tail)[1..] == s[1..] + tail;
    }
  }

  lemma PatOfText(p: Pat)
    requires CleanPat(p)
    ensures PatOf(TextOf(p)) == p && CleanComponent(TextOf(p))
    ensures SlashFree(TextOf(p))
  {
    if p.Capture? {
      var c := TextOf(p);
      StripNothing(p.name, "}");
      assert c[1..] == p.name + "}";
      assert "}"[1..] == "";
      assert StripBraces("}") == "";
    }
  }

  /** The patterns of a path: what follows its first slash, component by component. */
  function Patterns(path: string): seq<Pat> {
    var cs := Split(path)[1..];
    seq(|cs|, k requires 0 <= k < |cs| => PatOf(cs[k]))
  }

  method MatchArm(path: string) returns (pats: seq<Pat>)
    ensures pats == Patterns(path)
  {
    var chunks := Split(path);
    pats := [];
    for i := 1 to |chunks|
      invariant |pats| == i - 1
      invariant forall k :: 0 <= k < i - 1 ==> pats[k] == PatOf(chunks[k + 1])
    {
      var chk := chunks[i];
      if chk != "" && chk[0] == '{' {
        pats := pats + [Capture(StripBraces(chk))];
      } else {
        pats := pats + [Literal(chk)];
      }
    }
  }

  /** A path that the format string syntax and the pattern syntax read alike. */
  predicate CleanPath(path: string) {
    && |Split(path)| >= 2
    && Split(path)[0] == ""
    && forall k :: 1 <= k < |Split(path)| ==> CleanComponent(Split(path)[k])
  }

  function CloseAt(s: string, i: nat): (e: nat)
    requires i <= |s|
    ensures i <= e <= |s|
    decreases |s| - i
  {
    if i == |s| || s[i] == '}' then i else CloseAt(s, i + 1)
  }

  /** The format string machinery: `{name}` becomes the text bound to the name. */
  function Format(s: string, value: map<string, string>): string
    decreases |s|
  {
    if s == "" then ""
    else if s[0] == '{' && CloseAt(s, 0) < |s| then
      var name := s[1..CloseAt(s, 0)];
      (if name in value then value[name] else "") + Format(s[CloseAt(s, 0) + 1..], value)
    else [s[0]] + Format(s[1..], value)
  }

  lemma {:induction false} FormatLiteral(a: string, b: string, value: map<string, string>)
    requires BraceFree(a)
    ensures Format(a + b, value) == a + Format(b, value)
  {
    if a == "" {
      assert a + b == b;
    } else {
      FormatLiteral(a[1..], b, value);
      assert (a + b)[1..] == a[1..] + b;
    }
  }

  lemma {:induction false} CloseAfter(s: string, i: nat, e: nat)
    requires i <= e < |s| && s[e] == '}' && forall k :: i <= k < e ==> s[k] != '}'
    ensures CloseAt(s, i) == e
    decreases e - i
  {
    if i < e {
      CloseAfter(s, i + 1, e);
    }
  }

  lemma FormatCapture(n: string, b: string, value: map<string, string>)
    requires BraceFree(n) && n in value
    ensures Format("{" + n + "}" + b, value) == value[n] + Format(b, value)
  {
    var s := "{" + n + "}" + b;
    CloseAfter(s, 0, |n| + 1);
    assert s[1..|n| + 1] == n;
    assert s[|n| + 2..] == b;
  }

  function Fill(p: Pat, value: map<string, string>): string {
    match p case Literal(t) => t case Capture(n) => if n in value then value[n] else ""
  }

  function FillAll(pats: seq<Pat>, value: map<string, string>): seq<string> {
    seq(|pats|, k requires 0 <= k < |pats| => Fill(pats[k], value))
  }

  lemma FormatPat(p: Pat, b: string, value: map<string, string>)
    requires CleanPat(p) && (p.Capture? ==> p.name in value)
    ensures Format(TextOf(p) + b, value) == Fill(p, value) + Format(b, value)
  {
    match p {
      case Literal(t) => FormatLiteral(t, b, value);
      case Capture(n) => FormatCapture(n, b, value);
    }
  }

  lemma CatSlash(a: string, b: string)
    ensures a + "/" + b == a + ("/" + b)
  {
  }

  lemma FormatStep(p: Pat, rest: string, value: map<string, string>)
    requires CleanPat(p) && (p.Capture? ==> p.name in value)
    ensures Format(TextOf(p) + "/" + rest, value) == Fill(p, value) + "/" + Format(rest, value)
  {
    FormatPat(p, "/" + rest, value);
    FormatLiteral("/", rest, value);
    CatSlash(TextOf(p), rest);
    CatSlash(Fill(p, value), Format(rest, value));
  }

  lemma {:induction false} FormatJoin(pats: seq<Pat>, texts: seq<string>, value: map<string, string>)
    requires |pats| == |texts| >= 1
    requires forall k :: 0 <= k < |pats| ==> CleanPat(pats[k]) && texts[k] == TextOf(pats[k])
    requires forall k :: 0 <= k < |pats| && pats[k].Capture? ==> pats[k].name in value
    ensures Format(Join(texts), value) == Join(FillAll(pats, value))
  {
    assert Format("", value) == "";
    hide Format, TextOf, PatOf, CleanPat, Fill;
    if |pats| == 1 {
      FormatPat(pats[0], "", value);
      assert texts[0] + "" == texts[0];
    } else {
      FormatJoin(pats[1..], texts[1..], value);
      assert FillAll(pats[1..], value) == FillAll(pats, value)[1..];
      FormatStep(pats[0], Join(texts[1..]), value);
    }
  }

  /** Formatting a clean path fills in its patterns one by one. */
  lemma FormatPath(path: string, value: map<string, string>)
    requires CleanPath(path)
    requires forall k :: 0 <= k < |Patterns(path)| && Patterns(path)[k].Capture? ==> Patterns(path)[k].name in value
    ensures |Patterns(path)| >= 1
    ensures Format(path, value) == Join([""] + FillAll(Patterns(path), value))
  {
    var pats, cs := Patterns(path), Split(path);
    JoinSplit(path);
    assert forall k :: 0 <= k < |pats| ==> pats[k] == PatOf(cs[k + 1]) && cs[k + 1] == TextOf(pats[k]);
    FormatJoin(pats, cs[1..], value);
    var fills := FillAll(pats, value);
    assert ([""] + fills)[1..] == fills;
    FormatLiteral("/", Join(cs[1..]), value);
    assert path == "/" + Join(cs[1..]);
  }

  /** A path written out from clean patterns is clean, and its patterns are those. */
  lemma PathFromPatterns(pats: seq<Pat>)
    requires |pats| >= 1 && forall k :: 0 <= k < |pats| ==> CleanPat(pats[k])
    ensures CleanPath(PathText(pats)) && Patterns(PathText(pats)) == pats
  {
    var texts := seq(|pats|, k requires 0 <= k < |pats| => TextOf(pats[k]));
    var cs := [""] + texts;
    forall k | 0 <= k < |pats| ensures SlashFree(texts[k]) && CleanComponent(texts[k]) && PatOf(texts[k]) == pats[k] {
      PatOfText(pats[k]);
    }
    SplitJoin(cs);
    SplitAllClean(cs);
  }

  function PathText(pats: seq<Pat>): string {
    Join([""] + seq(|pats|, k requires 0 <= k < |pats| => TextOf(pats[k])))
  }
}
