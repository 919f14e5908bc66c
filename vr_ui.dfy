/**
 * `VrUi.createPanelFromHtml`: a tooltip's HTML becomes a panel of text
 * planes for VR. The HTML is cut into lines at every `<br>` tag, each line
 * loses its tags and becomes one text element stacked top to bottom, and a
 * translucent background plane is added last. Text rendering, DOM parsing
 * and bounding-box measurement belong to the browser and three.js and are
 * inputs here.
 */
module VrUi {
  import opened Wrappers
  import opened ThreedModels

  const RootTag: string := "rootObject"

  const DefaultMargin: real := 5.0
  const DefaultBackgroundColor: int := 0x000000
  const DefaultOpacity: real := 0.5
  const DefaultTextSize: real := 2.0

  /** The optional panel options; an absent or zero value is falsy. */
  datatype PanelOptions = PanelOptions(margin: Option<real>, backgroundColor: Option<int>,
                                       opacity: Option<real>, textSize: Option<real>)

  /** The options after their `||` defaults. */
  datatype ResolvedOptions = ResolvedOptions(margin: real, backgroundColor: int, opacity: real, textSize: real)

  /** Each option keeps a non-zero value and falls back to its default otherwise. */
  function Resolve(o: PanelOptions): (r: ResolvedOptions)
    ensures o.margin.Some? && o.margin.value != 0.0 ==> r.margin == o.margin.value
    ensures o.margin.None? || o.margin.value == 0.0 ==> r.margin == DefaultMargin
    ensures o.backgroundColor.Some? && o.backgroundColor.value != 0 ==> r.backgroundColor == o.backgroundColor.value
    ensures o.backgroundColor.None? || o.backgroundColor.value == 0 ==> r.backgroundColor == DefaultBackgroundColor
    ensures o.opacity.Some? && o.opacity.value != 0.0 ==> r.opacity == o.opacity.value
    ensures o.opacity.None? || o.opacity.value == 0.0 ==> r.opacity == DefaultOpacity
    ensures o.textSize.Some? && o.textSize.value != 0.0 ==> r.textSize == o.textSize.value
    ensures o.textSize.None? || o.textSize.value == 0.0 ==> r.textSize == DefaultTextSize
    ensures r.margin != 0.0 && r.opacity != 0.0 && r.textSize != 0.0
  {
    ResolvedOptions(
      if o.margin.Some? && o.margin.value != 0.0 then o.margin.value else DefaultMargin,
      if o.backgroundColor.Some? && o.backgroundColor.value != 0 then o.backgroundColor.value else DefaultBackgroundColor,
      if o.opacity.Some? && o.opacity.value != 0.0 then o.opacity.value else DefaultOpacity,
      if o.textSize.Some? && o.textSize.value != 0.0 then o.textSize.value else DefaultTextSize)
  }

  function Given(r: ResolvedOptions): PanelOptions
  {
    PanelOptions(Some(r.margin), Some(r.backgroundColor), Some(r.opacity), Some(r.textSize))
  }

  /** Resolving resolved options changes nothing, and the default argument resolves to itself. */
  lemma ResolveIdempotent(o: PanelOptions)
    ensures Resolve(Given(Resolve(o))) == Resolve(o)
    ensures Resolve(PanelOptions(Some(5.0), Some(0x000000), Some(0.5), Some(2.0))) == ResolvedOptions(5.0, 0, 0.5, 2.0)
  {
  }

  /** `\s` of JavaScript regular expressions. */
  predicate IsSpace(c: char)
  {
    c == ' ' || c == '\t' || c == '\n' || c == '\r' || c == '\U{000B}' || c == '\U{000C}' ||
    c == '\U{00A0}' || c == '\U{1680}' || ('\U{2000}' <= c <= '\U{200A}') || c == '\U{2028}' || c == '\U{2029}' ||
    c == '\U{202F}' || c == '\U{205F}' || c == '\U{3000}' || c == '\U{FEFF}'
  }

  predicate AllSpaces(t: string)
  {
    forall k :: 0 <= k < |t| ==> IsSpace(t[k])
  }

  /** `t` matches `/<br\s*\/?>/i` as a whole. */
  predicate IsBr(t: string)
  {
    |t| >= 4 && t[0] == '<' && (t[1] == 'b' || t[1] == 'B') && (t[2] == 'r' || t[2] == 'R') && t[|t| - 1] == '>' &&
    (AllSpaces(t[3..|t| - 1]) || (|t| >= 5 && t[|t| - 2] == '/' && AllSpaces(t[3..|t| - 2])))
  }

  /** Inside a `<br>` match only the first character is `<`. */
  lemma BrHasOneOpening(t: string, k: nat)
    requires IsBr(t) && 1 <= k < |t|
    ensures t[k] != '<'
  {
    if 3 <= k < |t| - 1 && AllSpaces(t[3..|t| - 1]) {
      assert IsSpace(t[3..|t| - 1][k - 3]);
    } else if 3 <= k < |t| - 2 {
      assert IsSpace(t[3..|t| - 2][k - 3]);
    }
  }

  /** The first position at or after `j` that is not white space. */
  function SkipSpaces(s: string, j: nat): (r: nat)
    requires j <= |s|
    decreases |s| - j
    ensures j <= r <= |s| && AllSpaces(s[j..r]) && (r < |s| ==> !IsSpace(s[r]))
    ensures forall k :: j <= k < r ==> IsSpace(s[k])
  {
    if j < |s| && IsSpace(s[j]) then
      var r := SkipSpaces(s, j + 1);
      assert s[j..r] == [s[j]] + s[j + 1..r];
      r
    else j
  }

  lemma SliceOfSlice(s: string, i: nat, m: nat, a: nat, b: nat)
    requires i <= m <= |s| && a <= b <= m - i
    ensures s[i..m][a..b] == s[i + a..i + b]
  {
    assert forall x :: 0 <= x < b - a ==> s[i..m][a..b][x] == s[i + a + x] == s[i + a..i + b][x];
  }

  /** The length of the `<br>` match starting at `i`, if there is one. */
  function BrAt(s: string, i: nat): (r: Option<nat>)
    requires i <= |s|
    ensures r.Some? ==> i + r.value <= |s| && IsBr(s[i..i + r.value])
  {
    if i + 3 <= |s| && s[i] == '<' && (s[i + 1] == 'b' || s[i + 1] == 'B') && (s[i + 2] == 'r' || s[i + 2] == 'R') then
      var j := SkipSpaces(s, i + 3);
      var k := if j < |s| && s[j] == '/' then j + 1 else j;
      if k < |s| && s[k] == '>' then
        var t := s[i..k + 1];
        SliceOfSlice(s, i, k + 1, 3, j - i);
        Some(k + 1 - i)
      else None
    else None
  }

  /** A `<br>` matched anywhere is the one `BrAt` finds there. */
  lemma BrAtFinds(s: string, i: nat, n: nat)
    requires i + n <= |s| && IsBr(s[i..i + n])
    ensures BrAt(s, i) == Some(n)
  {
    var t := s[i..i + n];
    var j := SkipSpaces(s, i + 3);
    var e := if AllSpaces(t[3..|t| - 1]) then |t| - 1 else |t| - 2;
    assert AllSpaces(t[3..e]) && !IsSpace(t[e]);
    forall k | i + 3 <= k < i + e
      ensures IsSpace(s[k])
    {
      assert s[k] == t[3..e][k - i - 3];
    }
    assert s[i + e] == t[e];
  }

  /** No part of `t` is a `<br>` tag. */
  ghost predicate BrFree(t: string)
  {
    forall i, j :: 0 <= i <= j <= |t| ==> !IsBr(t[i..j])
  }

  /** `split(/<br\s*\/?>/i)`: the text between the line-break tags, leftmost match first. */
  function Lines(s: string): (r: seq<string>)
    decreases |s|
    ensures |r| >= 1
  {
    if s == [] then [""]
    else match BrAt(s, 0)
      case Some(n) => [""] + Lines(s[n..])
      case None =>
        var rest := Lines(s[1..]);
        [[s[0]] + rest[0]] + rest[1..]
  }

  /** Every line is free of line-break tags, and the first line begins the text. */
  lemma {:induction false} LinesAreBrFree(s: string)
    decreases |s|
    ensures Lines(s)[0] <= s
    ensures forall l :: l in Lines(s) ==> BrFree(l)
  {
    if s != [] {
      match BrAt(s, 0)
      case Some(n) =>
        LinesAreBrFree(s[n..]);
        assert BrFree("");
      case None =>
        var rest := Lines(s[1..]);
        LinesAreBrFree(s[1..]);
        assert rest[0] in rest;
        PrependBrFree(s, rest[0]);
        assert forall l :: l in rest[1..] ==> l in rest;
    }
  }

  /** A character that starts no line-break tag, put before a `<br>`-free start of the rest, leaves it `<br>`-free. */
  lemma PrependBrFree(s: string, first: string)
    requires s != [] && BrAt(s, 0).None? && first <= s[1..] && BrFree(first)
    ensures [s[0]] + first <= s && BrFree([s[0]] + first)
  {
    var piece := [s[0]] + first;
    assert piece <= s;
    forall i, j | 0 <= i <= j <= |piece|
      ensures !IsBr(piece[i..j])
    {
      if i == 0 {
        assert piece[0..j] == s[0..j];
        if IsBr(s[0..j]) {
          BrAtFinds(s, 0, j);
        }
      } else {
        assert piece[i..j] == first[i - 1..j - 1];
      }
    }
  }

  /** The lines joined back with plain `<br>` tags. */
  function Join(ls: seq<string>): (r: string)
    requires |ls| >= 1
  {
    if |ls| == 1 then ls[0] else ls[0] + "<br>" + Join(ls[1..])
  }

  lemma SliceOfPrefix(l: string, t: string, i: nat, j: nat)
    requires i <= j <= |l|
    ensures (l + t)[i..j] == l[i..j]
  {
  }

  /** No match starts inside a `<br>`-free prefix when what follows starts a tag. */
  lemma NoMatchInPrefix(l: string, t: string, i: nat)
    requires BrFree(l) && i < |l| && (t == [] || t[0] == '<')
    ensures BrAt(l + t, i).None?
  {
    var s := l + t;
    forall j | i <= j <= |l|
      ensures !IsBr(s[i..j])
    {
      SliceOfPrefix(l, t, i, j);
    }
    if BrAt(s, i).Some? {
      var n := BrAt(s, i).value;
      if i + n > |l| {
        assert s[i..i + n][|l| - i] == t[0];
        BrHasOneOpening(s[i..i + n], |l| - i);
      }
    }
  }

  /** Dropping the first character of a `<br>`-free text keeps it `<br>`-free. */
  lemma BrFreeTail(l: string)
    requires BrFree(l) && l != []
    ensures BrFree(l[1..])
  {
    forall i, j | 0 <= i <= j <= |l[1..]|
      ensures !IsBr(l[1..][i..j])
    {
      assert l[1..][i..j] == l[i + 1..j + 1];
    }
  }

  /** Without a break at the start, the first character opens the first line. */
  lemma LinesUnfold(s: string)
    requires s != [] && BrAt(s, 0).None?
    ensures Lines(s) == [[s[0]] + Lines(s[1..])[0]] + Lines(s[1..])[1..]
  {
  }

  /** Splitting after a `<br>`-free prefix extends the first line by that prefix. */
  lemma {:induction false} LinesPrepend(l: string, t: string)
    requires BrFree(l) && (t == [] || t[0] == '<')
    decreases |l|
    ensures Lines(l + t) == [l + Lines(t)[0]] + Lines(t)[1..]
  {
    if l == [] {
      var r := Lines(t);
      assert l + t == t && l + r[0] == r[0];
      assert r == [r[0]] + r[1..];
    } else {
      var s := l + t;
      NoMatchInPrefix(l, t, 0);
      ConsAppend(l, t, Lines(t)[0]);
      BrFreeTail(l);
      LinesPrepend(l[1..], t);
      LinesUnfold(s);
    }
  }

  /** The head and tail of a non-empty `l`, around appended text. */
  lemma ConsAppend(l: string, t: string, x: string)
    requires l != []
    ensures (l + t)[0] == l[0] && (l + t)[1..] == l[1..] + t
    ensures [l[0]] + (l[1..] + x) == l + x
  {
  }

  /** A text that starts with a plain `<br>` starts with an empty line. */
  lemma LinesAfterBreak(rest: string)
    ensures Lines("<br>" + rest) == [""] + Lines(rest)
  {
    var t := "<br>" + rest;
    assert BrAt(t, 0) == Some(4);
    assert t[4..] == rest;
  }

  /** Lines without line-break tags survive a join with `<br>` and a split. */
  lemma {:induction false} LinesJoin(ls: seq<string>)
    requires |ls| >= 1 && forall l :: l in ls ==> BrFree(l)
    decreases |ls|
    ensures Lines(Join(ls)) == ls
  {
    if |ls| == 1 {
      LinesPrepend(ls[0], []);
      assert ls[0] + [] == ls[0];
    } else {
      var rest := Join(ls[1..]);
      var t := "<br>" + rest;
      assert Join(ls) == ls[0] + t;
      assert forall l :: l in ls[1..] ==> l in ls;
      LinesJoin(ls[1..]);
      LinesAfterBreak(rest);
      LinesPrepend(ls[0], t);
      assert ls[0] + "" == ls[0];
    }
  }

  /** A text without line-break tags is a single line. */
  lemma OneLine(s: string)
    requires BrFree(s)
    ensures Lines(s) == [s]
  {
    LinesJoin([s]);
  }

  /** The text has no `<` followed later by `>`: nothing left that `/<[^>]*>/` matches. */
  predicate TagFree(t: string)
  {
    forall i, j :: 0 <= i < j < |t| && t[i] == '<' ==> t[j] != '>'
  }

  function FirstIndexOf(s: string, c: char): (r: nat)
    requires c in s
    ensures r < |s| && s[r] == c && c !in s[..r]
  {
    if s[0] == c then 0
    else
      var r := FirstIndexOf(s[1..], c);
      assert s[..r + 1] == [s[0]] + s[1..][..r];
      r + 1
  }

  /**
   * `replace(/<[^>]*>/g, '')`: a `<` with a `>` somewhere after it starts a
   * tag running to the first such `>`, and the tag is dropped; every other
   * character is kept.
   */
  function StripTags(s: string): (r: string)
    decreases |s|
    ensures |r| <= |s| && TagFree(r)
    ensures forall k :: 0 <= k < |r| ==> r[k] in s
  {
    if s == [] then []
    else if s[0] == '<' && '>' in s[1..] then
      var e := FirstIndexOf(s, '>');
      var r := StripTags(s[e + 1..]);
      assert forall k :: 0 <= k < |r| ==> r[k] in s[e + 1..];
      r
    else
      var rest := StripTags(s[1..]);
      var r := [s[0]] + rest;
      assert forall k :: 0 < k < |r| ==> r[k] == rest[k - 1] && rest[k - 1] in s[1..];
      assert s[0] == '<' ==> forall k :: 0 < k < |r| ==> r[k] != '>';
      r
  }

  /** A text without tags is left as it is; in particular stripping twice is stripping once. */
  lemma {:induction false} StripTagsKeepsTagFree(s: string)
    decreases |s|
    requires TagFree(s)
    ensures StripTags(s) == s
  {
    if s != [] {
      if s[0] == '<' {
        assert forall k :: 0 <= k < |s[1..]| ==> s[1..][k] == s[k + 1];
        assert '>' !in s[1..];
      }
      assert TagFree(s[1..]) by {
        forall i, j | 0 <= i < j < |s[1..]| && s[1..][i] == '<'
          ensures s[1..][j] != '>'
        {
          assert s[1..][i] == s[i + 1] && s[1..][j] == s[j + 1];
        }
      }
      StripTagsKeepsTagFree(s[1..]);
    }
  }

  lemma StripTagsIdempotent(s: string)
    ensures StripTags(StripTags(s)) == StripTags(s)
  {
    StripTagsKeepsTagFree(StripTags(s));
  }

  /** The first anchor element the browser's HTML parser finds in a line, with its `innerText`. */
  datatype Anchor = Anchor(innerText: string)

  /** A child of the panel group. */
  datatype PanelChild =
    | TextElement(text: string, anchor: Option<Anchor>, rootTag: bool, position: Vector3, renderOrder: int)
    | Background(width: real, height: real, color: int, opacity: real, transparent: bool,
                 position: Vector3, renderOrder: int)

  /** The measured bounding box of the text elements. */
  datatype Box = Box(center: Vector3, size: Vector3)

  /** The height of line `index` of `count`: the first line is the highest when `height` is positive. */
  function LineY(count: nat, index: nat, height: real): real
  {
    (count - index) as real * height
  }

  lemma LinesDescend(count: nat, index: nat, later: nat, height: real)
    requires index < later && height > 0.0
    ensures LineY(count, index, height) > LineY(count, later, height)
  {
    var a, b := (count - index) as real, (count - later) as real;
    assert a * height - b * height == (a - b) * height;
  }

  /** The element for line `index` of `count`: link text for an anchor, the stripped line otherwise. */
  function LineElement(line: string, index: nat, count: nat, height: real, anchorOf: string -> Option<Anchor>): PanelChild
  {
    var a := anchorOf(line);
    var text := if a.Some? then StripTags(a.value.innerText) else StripTags(line);
    TextElement(text, a, true, Vector3(0.0, LineY(count, index, height), 0.0), 1)
  }

  function BackgroundFor(o: ResolvedOptions, box: Box): PanelChild
  {
    Background(box.size.x + o.margin, box.size.y + o.margin, o.backgroundColor, o.opacity, o.opacity < 1.0,
               Vector3(box.center.x, box.center.y, box.center.z - 0.1), 0)
  }

  /** One element per line, in order. */
  function LineElements(lines: seq<string>, height: real, anchorOf: string -> Option<Anchor>): (r: seq<PanelChild>)
    ensures |r| == |lines|
  {
    seq(|lines|, k requires 0 <= k < |lines| => LineElement(lines[k], k, |lines|, height, anchorOf))
  }

  /** The group's children: one element per line in order, then the background. */
  function Panel(html: string, options: PanelOptions, anchorOf: string -> Option<Anchor>, box: Box): (r: seq<PanelChild>)
    ensures |r| == |Lines(html)| + 1
    ensures r[|r| - 1].Background? && forall k :: 0 <= k < |r| - 1 ==> r[k].TextElement?
  {
    var o := Resolve(options);
    LineElements(Lines(html), o.textSize, anchorOf) + [BackgroundFor(o, box)]
  }

  /**
   * Every line element is a root object whose text is the line's (or its
   * link's) text with no tags left, at height (lines - index) * textSize,
   * so with a positive text size earlier lines sit higher.
   */
  lemma LineElementsLayout(lines: seq<string>, height: real, anchorOf: string -> Option<Anchor>)
    ensures var p := LineElements(lines, height, anchorOf);
            (forall k :: 0 <= k < |lines| ==>
               p[k].TextElement? && p[k].rootTag && TagFree(p[k].text) && p[k].position.y == LineY(|lines|, k, height) &&
               p[k].anchor == anchorOf(lines[k]) &&
               p[k].text == StripTags(if anchorOf(lines[k]).Some? then anchorOf(lines[k]).value.innerText else lines[k])) &&
            (height > 0.0 ==> forall k, m :: 0 <= k < m < |lines| ==> p[k].position.y > p[m].position.y)
  {
    var p := LineElements(lines, height, anchorOf);
    if height > 0.0 {
      forall k, m | 0 <= k < m < |lines|
        ensures p[k].position.y > p[m].position.y
      {
        LinesDescend(|lines|, k, m, height);
      }
    }
  }

  /**
   * The panel has one child per line of the HTML plus the background, last:
   * drawn first, sized by the box plus the margin, and transparent exactly
   * when the opacity is below one.
   */
  lemma PanelLayout(html: string, options: PanelOptions, anchorOf: string -> Option<Anchor>, box: Box)
    ensures var p := Panel(html, options, anchorOf, box);
            var n := |Lines(html)|;
            var o := Resolve(options);
            |p| == n + 1 && p[..n] == LineElements(Lines(html), o.textSize, anchorOf) &&
            p[n].Background? && p[n].renderOrder == 0 && (p[n].transparent <==> p[n].opacity < 1.0) &&
            p[n].width == box.size.x + o.margin && p[n].height == box.size.y + o.margin &&
            p[n].color == o.backgroundColor && p[n].opacity == o.opacity
  {
    var n := |Lines(html)|;
    var o := Resolve(options);
    assert Panel(html, options, anchorOf, box)[..n] == LineElements(Lines(html), o.textSize, anchorOf);
  }

  /** The `THREE.Group` being built, with its children, render order and parsed HTML. */
  class PanelGroup {
    var children: seq<PanelChild>
    var renderOrder: int
    var htmlElement: string

    constructor()
      ensures children == [] && renderOrder == 0 && htmlElement == ""
    {
      children, renderOrder, htmlElement := [], 0, "";
    }
  }

  /** The elements of the first `i` lines, extended by one line at a time. */
  lemma LineElementsStep(lines: seq<string>, height: real, anchorOf: string -> Option<Anchor>, i: nat)
    requires i <= |lines|
    ensures i == |lines| ==> LineElements(lines, height, anchorOf)[..i] == LineElements(lines, height, anchorOf)
    ensures i < |lines| ==> LineElements(lines, height, anchorOf)[..i + 1]
                            == LineElements(lines, height, anchorOf)[..i] + [LineElement(lines[i], i, |lines|, height, anchorOf)]
  {
    var p := LineElements(lines, height, anchorOf);
    if i < |lines| {
      assert p[i] == LineElement(lines[i], i, |lines|, height, anchorOf);
      PrefixPush(p, i);
    } else {
      assert p[..i] == p;
    }
  }

  lemma PrefixPush(p: seq<PanelChild>, i: nat)
    requires i < |p|
    ensures p[..i + 1] == p[..i] + [p[i]]
  {
  }

  /** The per-line loop of `createPanelFromHtml`: one element per line, appended in order. */
  method BuildLineElements(lines: seq<string>, height: real, anchorOf: string -> Option<Anchor>)
    returns (r: seq<PanelChild>)
    ensures r == LineElements(lines, height, anchorOf)
  {
    r := [];
    for index := 0 to |lines|
      invariant r == LineElements(lines, height, anchorOf)[..index]
    {
      LineElementsStep(lines, height, anchorOf, index);
      r := r + [LineElement(lines[index], index, |lines|, height, anchorOf)];
    }
    LineElementsStep(lines, height, anchorOf, |lines|);
  }

  /**
   * `createPanelFromHtml`: the loop adds one element per line, then the
   * background sized by the measured box plus the margin; the group keeps
   * the HTML and renders after its background.
   */
  method CreatePanelFromHtml(html: string, options: PanelOptions, anchorOf: string -> Option<Anchor>, box: Box)
    returns (group: PanelGroup)
    ensures fresh(group)
    ensures group.children == Panel(html, options, anchorOf, box)
    ensures group.renderOrder == 2 && group.htmlElement == html
  {
    var o := Resolve(options);
    var lines := Lines(html);
    group := new PanelGroup();
    var elements := BuildLineElements(lines, o.textSize, anchorOf);
    group.children := elements;
    group.children := group.children + [BackgroundFor(o, box)];
    group.htmlElement := html;
    group.renderOrder := 2;
  }
}
