/**
 * `ThreedNavigateScene`: the first-person scene of the navigation widget.
 * Models may carry an HTML label drawn on a camera layer of its own
 * (from 5 upwards) that the camera shows only while the walker looks at
 * the model; the looked-at object is drawn with the hover material, whose
 * colour and opacity come from the widget's `hoverColor` setting.
 */
module NavigateScene {
  import opened Wrappers
  import opened JsValues
  import opened ThreedModels
  import opened SceneGraph
  import opened ModelManager
  import opened AbstractScene
  import opened UpdateDevices
  import VrUi
  import FpsScene

  // ---- `getAlphaAndColorFromString` -------------------------------------

  predicate IsDigit(c: char)
  {
    '0' <= c <= '9'
  }

  /** `[\d.]` */
  predicate IsDecimalChar(c: char)
  {
    IsDigit(c) || c == '.'
  }

  /** A non-empty run of digits and dots, what `[\d.]+` reads. */
  predicate DecimalRun(t: string)
  {
    t != [] && forall k :: 0 <= k < |t| ==> IsDecimalChar(t[k])
  }

  /** `[a-f\d]` under the `i` flag. */
  predicate IsHexDigit(c: char)
  {
    IsDigit(c) || 'a' <= c <= 'f' || 'A' <= c <= 'F'
  }

  predicate AllDigits(t: string)
  {
    forall k :: 0 <= k < |t| ==> IsDigit(t[k])
  }

  predicate AllDecimal(t: string)
  {
    forall k :: 0 <= k < |t| ==> IsDecimalChar(t[k])
  }

  predicate AllHex(h: string)
  {
    forall k :: 0 <= k < |h| ==> IsHexDigit(h[k])
  }

  /** The number of digits `s` starts with: what a greedy `\d*` consumes. */
  function LeadingDigits(s: string): (n: nat)
    ensures n <= |s|
    ensures n < |s| ==> !IsDigit(s[n])
  {
    if s == [] || !IsDigit(s[0]) then 0 else 1 + LeadingDigits(s[1..])
  }

  /** A run of digits is read whole, whatever follows a non-digit. */
  lemma {:induction false} LeadingDigitsOf(t: string, u: string)
    requires AllDigits(t)
    requires u != [] ==> !IsDigit(u[0])
    decreases |t|
    ensures LeadingDigits(t + u) == |t|
  {
    if t != [] {
      assert (t + u)[1..] == t[1..] + u;
      LeadingDigitsOf(t[1..], u);
    } else {
      assert t + u == u;
    }
  }

  /*
   * The `rgb()` and `hsl()` patterns are deterministic: at every point the
   * next character decides which part of the pattern it belongs to, because
   * each repeated class (`\d`, `[\d.]`, `\s`) is disjoint from what may
   * follow it. Each is therefore matched by a finite automaton read left to
   * right, whose states are the positions in the pattern; the state reading
   * the fourth group carries what it has read so far.
   */

  /** Positions in `^rgba?\((\d+),\s*(\d+),\s*(\d+)(?:,\s*([\d.]+))?\)$`. */
  datatype RgbScan =
    | RgbStart | R | RG | RGB | RGBA
    | RgbOpen              // after `(`: the first number must start
    | RgbRed               // in the first `\d+`
    | RgbSpace1            // after the first `,`, in `\s*`
    | RgbGreen
    | RgbSpace2
    | RgbBlue
    | RgbSpace3            // after the optional `,`, in `\s*`
    | RgbAlpha(read: string)  // in `([\d.]+)`
    | RgbDone(group: Option<string>)  // after `)`: only the end may follow
    | RgbFail

  /** What the fourth group has read so far, in a scan state, is a `[\d.]+` run. */
  predicate RgbGroupRead(st: RgbScan)
  {
    match st
    case RgbAlpha(read) => DecimalRun(read)
    case RgbDone(group) => group.None? || DecimalRun(group.value)
    case _ => true
  }

  function RgbStep(st: RgbScan, c: char): RgbScan
  {
    match st
    case RgbStart => if c == 'r' then R else RgbFail
    case R => if c == 'g' then RG else RgbFail
    case RG => if c == 'b' then RGB else RgbFail
    case RGB => if c == 'a' then RGBA else if c == '(' then RgbOpen else RgbFail
    case RGBA => if c == '(' then RgbOpen else RgbFail
    case RgbOpen => if IsDigit(c) then RgbRed else RgbFail
    case RgbRed => if IsDigit(c) then RgbRed else if c == ',' then RgbSpace1 else RgbFail
    case RgbSpace1 => if VrUi.IsSpace(c) then RgbSpace1 else if IsDigit(c) then RgbGreen else RgbFail
    case RgbGreen => if IsDigit(c) then RgbGreen else if c == ',' then RgbSpace2 else RgbFail
    case RgbSpace2 => if VrUi.IsSpace(c) then RgbSpace2 else if IsDigit(c) then RgbBlue else RgbFail
    case RgbBlue =>
      if IsDigit(c) then RgbBlue else if c == ',' then RgbSpace3 else if c == ')' then RgbDone(None) else RgbFail
    case RgbSpace3 => if VrUi.IsSpace(c) then RgbSpace3 else if IsDecimalChar(c) then RgbAlpha([c]) else RgbFail
    case RgbAlpha(read) => if IsDecimalChar(c) then RgbAlpha(read + [c]) else if c == ')' then RgbDone(Some(read)) else RgbFail
    case RgbDone(_) => RgbFail
    case RgbFail => RgbFail
  }

  function RgbRun(st: RgbScan, s: string): RgbScan
    decreases |s|
  {
    if s == [] then st else RgbRun(RgbStep(st, s[0]), s[1..])
  }

  /** Scanning keeps the fourth group a `[\d.]+` run. */
  lemma {:induction false} RgbRunKeepsGroupRead(st: RgbScan, s: string)
    requires RgbGroupRead(st)
    ensures RgbGroupRead(RgbRun(st, s))
    decreases |s|
  {
    if s != [] {
      var next := RgbStep(st, s[0]);
      if next.RgbAlpha? && st.RgbAlpha? {
        assert next.read == st.read + [s[0]];
      }
      RgbRunKeepsGroupRead(next, s[1..]);
    }
  }

  /** `None` when the `rgb()` pattern does not match `s`; otherwise its fourth group, if it took part. */
  function MatchRgb(s: string): (r: Option<Option<string>>)
    ensures r.Some? && r.value.Some? ==> DecimalRun(r.value.value)
  {
    RgbRunKeepsGroupRead(RgbStart, s);
    match RgbRun(RgbStart, s)
    case RgbDone(group) => Some(group)
    case _ => None
  }

  /** `^#?([a-f\d]{2})([a-f\d]{2})([a-f\d]{2})([a-f\d]{2})?$` with the `i` flag, and its fourth group. */
  function MatchHex(s: string): (r: Option<Option<string>>)
    ensures r.Some? && r.value.Some? ==> |r.value.value| == 2 && IsHexDigit(r.value.value[0]) && IsHexDigit(r.value.value[1])
  {
    var body := if |s| > 0 && s[0] == '#' then s[1..] else s;
    if (|body| == 6 || |body| == 8) && AllHex(body) then
      Some(if |body| == 8 then Some(body[6..]) else None)
    else None
  }

  /** Positions in `^hsla?\((\d+),\s*([\d.]+)%,\s*([\d.]+)%,?\s*([\d.]+)?\)$`. */
  datatype HslScan =
    | HslStart | H | HS | HSL | HSLA
    | HslOpen
    | HslHue               // in `(\d+)`
    | HslSpace1            // after `,`, in `\s*`
    | HslSaturation        // in the second `([\d.]+)`
    | HslPercent           // after the `%` of the saturation: `,` must follow
    | HslSpace2
    | HslLightness
    | HslAfterLightness    // after the `%` of the lightness: `,?` then `\s*`
    | HslSpace3            // in the last `\s*`
    | HslAlpha(read: string)
    | HslDone(group: Option<string>)
    | HslFail

  /** What the fourth group has read so far, in a scan state, is a `[\d.]+` run. */
  predicate HslGroupRead(st: HslScan)
  {
    match st
    case HslAlpha(read) => DecimalRun(read)
    case HslDone(group) => group.None? || DecimalRun(group.value)
    case _ => true
  }

  function HslStep(st: HslScan, c: char): HslScan
  {
    match st
    case HslStart => if c == 'h' then H else HslFail
    case H => if c == 's' then HS else HslFail
    case HS => if c == 'l' then HSL else HslFail
    case HSL => if c == 'a' then HSLA else if c == '(' then HslOpen else HslFail
    case HSLA => if c == '(' then HslOpen else HslFail
    case HslOpen => if IsDigit(c) then HslHue else HslFail
    case HslHue => if IsDigit(c) then HslHue else if c == ',' then HslSpace1 else HslFail
    case HslSpace1 => if VrUi.IsSpace(c) then HslSpace1 else if IsDecimalChar(c) then HslSaturation else HslFail
    case HslSaturation => if IsDecimalChar(c) then HslSaturation else if c == '%' then HslPercent else HslFail
    case HslPercent => if c == ',' then HslSpace2 else HslFail
    case HslSpace2 => if VrUi.IsSpace(c) then HslSpace2 else if IsDecimalChar(c) then HslLightness else HslFail
    case HslLightness => if IsDecimalChar(c) then HslLightness else if c == '%' then HslAfterLightness else HslFail
    case HslAfterLightness | HslSpace3 =>
      if st == HslAfterLightness && c == ',' then HslSpace3
      else if VrUi.IsSpace(c) then HslSpace3
      else if IsDecimalChar(c) then HslAlpha([c])
      else if c == ')' then HslDone(None)
      else HslFail
    case HslAlpha(read) => if IsDecimalChar(c) then HslAlpha(read + [c]) else if c == ')' then HslDone(Some(read)) else HslFail
    case HslDone(_) => HslFail
    case HslFail => HslFail
  }

  function HslRun(st: HslScan, s: string): HslScan
    decreases |s|
  {
    if s == [] then st else HslRun(HslStep(st, s[0]), s[1..])
  }

  /** Scanning keeps the fourth group a `[\d.]+` run. */
  lemma {:induction false} HslRunKeepsGroupRead(st: HslScan, s: string)
    requires HslGroupRead(st)
    ensures HslGroupRead(HslRun(st, s))
    decreases |s|
  {
    if s != [] {
      var next := HslStep(st, s[0]);
      if next.HslAlpha? && st.HslAlpha? {
        assert next.read == st.read + [s[0]];
      }
      HslRunKeepsGroupRead(next, s[1..]);
    }
  }

  /** `None` when the `hsl()` pattern does not match `s`; otherwise its fourth group, if it took part. */
  function MatchHsl(s: string): (r: Option<Option<string>>)
    ensures r.Some? && r.value.Some? ==> DecimalRun(r.value.value)
  {
    HslRunKeepsGroupRead(HslStart, s);
    match HslRun(HslStart, s)
    case HslDone(group) => Some(group)
    case _ => None
  }

  /** A JavaScript number as `parseFloat` and the division here produce it. */
  datatype JsNumber = Finite(value: real) | NaN

  function DigitValue(c: char): nat
    requires IsDigit(c)
  {
    c as nat - '0' as nat
  }

  /** The value of a string of decimal digits (it is only read over runs of digits). */
  function DecimalValue(ds: string): nat
  {
    if ds == [] then 0
    else 10 * DecimalValue(ds[..|ds| - 1]) + (if IsDigit(ds[|ds| - 1]) then DigitValue(ds[|ds| - 1]) else 0)
  }

  function Pow10(n: nat): (r: nat)
    ensures r >= 1
  {
    if n == 0 then 1 else 10 * Pow10(n - 1)
  }

  /**
   * `parseFloat` on a string of digits and dots: the longest prefix of the
   * form digits, optionally a dot and more digits, with at least one digit;
   * `NaN` when there is none.
   */
  function ParseFloat(t: string): (r: JsNumber)
    ensures r.Finite? ==> r.value >= 0.0
  {
    var i := LeadingDigits(t);
    var rest := if i < |t| && t[i] == '.' then t[i + 1..] else [];
    var fraction := rest[..LeadingDigits(rest)];
    if i == 0 && |fraction| == 0 then NaN else Finite(Decimal(t[..i], fraction))
  }

  /** The number written with integer digits `whole` and fraction digits `fraction`. */
  function Decimal(whole: string, fraction: string): (r: real)
    ensures r >= 0.0
  {
    DecimalValue(whole) as real + DecimalValue(fraction) as real / Pow10(|fraction|) as real
  }

  function HexValue(c: char): (r: nat)
    requires IsHexDigit(c)
    ensures r < 16
  {
    if IsDigit(c) then DigitValue(c)
    else if 'a' <= c <= 'f' then c as nat - 'a' as nat + 10
    else c as nat - 'A' as nat + 10
  }

  /** `parseInt(pair, 16)` on two hex digits: a byte. */
  function HexByte(pair: string): (r: nat)
    requires |pair| == 2 && IsHexDigit(pair[0]) && IsHexDigit(pair[1])
    ensures r <= 255
  {
    HexValue(pair[0]) * 16 + HexValue(pair[1])
  }

  /** The hover colour: the colour string three.js parses, and the opacity. */
  datatype HoverColor = HoverColor(color: string, alpha: JsNumber)

  /**
   * `getAlphaAndColorFromString`: `rgb()`/`rgba()` and `hsl()`/`hsla()`
   * take the opacity from their fourth number, a hex colour from its fourth
   * byte divided by 255; a missing fourth part, or any other string, gives 1.
   */
  function AlphaAndColor(colorString: string): (r: HoverColor)
    ensures r.color == colorString
    ensures MatchRgb(colorString).None? && MatchHex(colorString).None? && MatchHsl(colorString).None? ==> r.alpha == Finite(1.0)
    ensures MatchRgb(colorString).None? && MatchHex(colorString).Some? ==>
              r.alpha.Finite? && 0.0 <= r.alpha.value <= 1.0
  {
    var rgb := MatchRgb(colorString);
    var hex := MatchHex(colorString);
    var hsl := MatchHsl(colorString);
    var alpha :=
      if rgb.Some? then (if rgb.value.Some? then ParseFloat(rgb.value.value) else Finite(1.0))
      else if hex.Some? then (if hex.value.Some? then Finite(HexByte(hex.value.value) as real / 255.0) else Finite(1.0))
      else if hsl.Some? then (if hsl.value.Some? then ParseFloat(hsl.value.value) else Finite(1.0))
      else Finite(1.0);
    HoverColor(colorString, alpha)
  }


  // ---- Reading the automata piece by piece --------------------------------

  lemma {:induction false} RgbRunAppend(st: RgbScan, a: string, b: string)
    decreases |a|
    ensures RgbRun(st, a + b) == RgbRun(RgbRun(st, a), b)
  {
    if a == [] {
      assert a + b == b;
    } else {
      assert (a + b)[0] == a[0] && (a + b)[1..] == a[1..] + b;
      RgbRunAppend(RgbStep(st, a[0]), a[1..], b);
    }
  }

  /** A state every character of `t` keeps is where reading `t` ends. */
  lemma {:induction false} RgbRunLoop(st: RgbScan, t: string)
    requires forall k :: 0 <= k < |t| ==> RgbStep(st, t[k]) == st
    decreases |t|
    ensures RgbRun(st, t) == st
  {
    if t != [] {
      assert forall k :: 0 <= k < |t[1..]| ==> t[1..][k] == t[k + 1];
      RgbRunLoop(st, t[1..]);
    }
  }

  /** A non-empty run whose first character enters `into` and whose other characters stay there. */
  lemma RgbRunEnter(from: RgbScan, into: RgbScan, t: string)
    requires |t| > 0 && RgbStep(from, t[0]) == into
    requires forall k :: 1 <= k < |t| ==> RgbStep(into, t[k]) == into
    ensures RgbRun(from, t) == into
  {
    assert forall k :: 0 <= k < |t[1..]| ==> t[1..][k] == t[k + 1];
    RgbRunLoop(into, t[1..]);
  }

  /** The fourth group collects every decimal character it reads. */
  lemma {:induction false} RgbAlphaReads(read: string, d: string)
    requires AllDecimal(d)
    decreases |d|
    ensures RgbRun(RgbAlpha(read), d) == RgbAlpha(read + d)
  {
    if d == [] {
      assert read + d == read;
    } else {
      assert read + [d[0]] + d[1..] == read + d;
      RgbAlphaReads(read + [d[0]], d[1..]);
    }
  }

  /** Nothing is matched once the automaton has failed. */
  lemma RgbFailStays(t: string)
    ensures RgbRun(RgbFail, t) == RgbFail
  {
    RgbRunLoop(RgbFail, t);
  }

  lemma {:induction false} HslRunAppend(st: HslScan, a: string, b: string)
    decreases |a|
    ensures HslRun(st, a + b) == HslRun(HslRun(st, a), b)
  {
    if a == [] {
      assert a + b == b;
    } else {
      assert (a + b)[0] == a[0] && (a + b)[1..] == a[1..] + b;
      HslRunAppend(HslStep(st, a[0]), a[1..], b);
    }
  }

  lemma {:induction false} HslRunLoop(st: HslScan, t: string)
    requires forall k :: 0 <= k < |t| ==> HslStep(st, t[k]) == st
    decreases |t|
    ensures HslRun(st, t) == st
  {
    if t != [] {
      assert forall k :: 0 <= k < |t[1..]| ==> t[1..][k] == t[k + 1];
      HslRunLoop(st, t[1..]);
    }
  }

  lemma HslRunEnter(from: HslScan, into: HslScan, t: string)
    requires |t| > 0 && HslStep(from, t[0]) == into
    requires forall k :: 1 <= k < |t| ==> HslStep(into, t[k]) == into
    ensures HslRun(from, t) == into
  {
    assert forall k :: 0 <= k < |t[1..]| ==> t[1..][k] == t[k + 1];
    HslRunLoop(into, t[1..]);
  }

  lemma {:induction false} HslAlphaReads(read: string, d: string)
    requires AllDecimal(d)
    decreases |d|
    ensures HslRun(HslAlpha(read), d) == HslAlpha(read + d)
  {
    if d == [] {
      assert read + d == read;
    } else {
      assert read + [d[0]] + d[1..] == read + d;
      HslAlphaReads(read + [d[0]], d[1..]);
    }
  }

  lemma HslFailStays(t: string)
    ensures HslRun(HslFail, t) == HslFail
  {
    HslRunLoop(HslFail, t);
  }

  // ---- What the patterns accept -------------------------------------------

  /** A digit or a dot is no white space, so after a separator it starts (and then continues) a field. */
  lemma RgbDecimalSteps(c: char)
    requires IsDecimalChar(c)
    ensures !VrUi.IsSpace(c)
    ensures IsDigit(c) ==> RgbStep(RgbSpace1, c) == RgbGreen && RgbStep(RgbGreen, c) == RgbGreen
    ensures IsDigit(c) ==> RgbStep(RgbSpace2, c) == RgbBlue && RgbStep(RgbBlue, c) == RgbBlue
    ensures RgbStep(RgbSpace3, c) == RgbAlpha([c])
  {
  }

  /** The separators of the `rgb()` pattern, read from the end of one field. */
  lemma RgbSeparators(a: string)
    ensures RgbRun(RgbRed, ",") == RgbSpace1 && RgbRun(RgbGreen, ",") == RgbSpace2 && RgbRun(RgbBlue, ",") == RgbSpace3
    ensures RgbRun(RgbBlue, ")") == RgbDone(None) && RgbRun(RgbAlpha(a), ")") == RgbDone(Some(a))
  {
  }

  /** A matched prefix ending in `st`, then the separator `sep` leading to `mid`, then a field of digits `x` read in state `into`. */
  lemma RgbExtend(p: string, sep: string, x: string, st: RgbScan, mid: RgbScan, into: RgbScan)
    requires (mid, into) == (RgbSpace1, RgbGreen) || (mid, into) == (RgbSpace2, RgbBlue)
    requires RgbRun(RgbStart, p) == st && RgbRun(st, sep) == mid
    requires |x| > 0 && AllDigits(x)
    ensures RgbRun(RgbStart, p + sep + x) == into
  {
    forall k | 0 <= k < |x|
      ensures RgbStep(mid, x[k]) == into && RgbStep(into, x[k]) == into
    {
      RgbDecimalSteps(x[k]);
    }
    RgbRunAppend(RgbStart, p, sep);
    RgbRunAppend(RgbStart, p + sep, x);
    RgbRunEnter(mid, into, x);
  }

  /** A matched prefix ending in `st`, then the separator `sep` leading to the last `\s*`, then the alpha digits `a`. */
  lemma RgbExtendAlpha(p: string, sep: string, a: string, st: RgbScan)
    requires RgbRun(RgbStart, p) == st && RgbRun(st, sep) == RgbSpace3
    requires |a| > 0 && AllDecimal(a)
    ensures RgbRun(RgbStart, p + sep + a) == RgbAlpha(a)
  {
    RgbDecimalSteps(a[0]);
    RgbRunAppend(RgbStart, p, sep);
    RgbRunAppend(RgbStart, p + sep, a);
    assert a == [a[0]] + a[1..];
    assert AllDecimal(a[1..]) by {
      forall k | 0 <= k < |a[1..]|
        ensures IsDecimalChar(a[1..][k])
      {
        assert a[1..][k] == a[k + 1];
      }
    }
    RgbRunAppend(RgbSpace3, [a[0]], a[1..]);
    RgbAlphaReads([a[0]], a[1..]);
  }

  /** A digit or a dot is no white space, so after a separator it starts (and then continues) a field. */
  lemma HslDecimalSteps(c: char)
    requires IsDecimalChar(c)
    ensures !VrUi.IsSpace(c)
    ensures HslStep(HslSpace1, c) == HslSaturation && HslStep(HslSaturation, c) == HslSaturation
    ensures HslStep(HslSpace2, c) == HslLightness && HslStep(HslLightness, c) == HslLightness
    ensures HslStep(HslSpace3, c) == HslAlpha([c])
  {
  }

  /** The separators of the `hsl()` pattern, read from the end of one field. */
  lemma HslSeparators(a: string)
    ensures HslRun(HslHue, ",") == HslSpace1 && HslRun(HslSaturation, "%,") == HslSpace2 && HslRun(HslLightness, "%,") == HslSpace3
    ensures HslRun(HslLightness, "%)") == HslDone(None) && HslRun(HslAlpha(a), ")") == HslDone(Some(a))
  {
  }

  /** A matched prefix ending in `st`, then the separator `sep` leading to `mid`, then a decimal field `x` read in state `into`. */
  lemma HslExtend(p: string, sep: string, x: string, st: HslScan, mid: HslScan, into: HslScan)
    requires (mid, into) == (HslSpace1, HslSaturation) || (mid, into) == (HslSpace2, HslLightness)
    requires HslRun(HslStart, p) == st && HslRun(st, sep) == mid
    requires |x| > 0 && AllDecimal(x)
    ensures HslRun(HslStart, p + sep + x) == into
  {
    forall k | 0 <= k < |x|
      ensures HslStep(mid, x[k]) == into && HslStep(into, x[k]) == into
    {
      HslDecimalSteps(x[k]);
    }
    HslRunAppend(HslStart, p, sep);
    HslRunAppend(HslStart, p + sep, x);
    HslRunEnter(mid, into, x);
  }

  /** A matched prefix ending in `st`, then the separator `sep` leading to the last `\s*`, then the alpha digits `a`. */
  lemma HslExtendAlpha(p: string, sep: string, a: string, st: HslScan)
    requires HslRun(HslStart, p) == st && HslRun(st, sep) == HslSpace3
    requires |a| > 0 && AllDecimal(a)
    ensures HslRun(HslStart, p + sep + a) == HslAlpha(a)
  {
    var head, tail := [a[0]], a[1..];
    HslRunAppend(HslStart, p, sep);
    assert HslRun(HslStart, p + sep) == HslSpace3;
    HslRunAppend(HslStart, p + sep, a);
    assert a == head + tail;
    assert HslRun(HslSpace3, head) == HslAlpha(head) by {
      HslDecimalSteps(a[0]);
      assert HslRun(HslSpace3, head) == HslRun(HslStep(HslSpace3, a[0]), []);
    }
    assert AllDecimal(tail) by {
      forall k | 0 <= k < |tail|
        ensures IsDecimalChar(tail[k])
      {
        assert tail[k] == a[k + 1];
      }
    }
    HslRunAppend(HslSpace3, head, tail);
    HslAlphaReads(head, tail);
  }

  /** `rgba(r,g,b,a)` matches with `a` as its fourth group, and `rgb(r,g,b)` matches without one. */
  lemma RgbMatches(r: string, g: string, b: string, a: string)
    requires |r| > 0 && |g| > 0 && |b| > 0 && |a| > 0
    requires AllDigits(r) && AllDigits(g) && AllDigits(b) && AllDecimal(a)
    ensures MatchRgb("rgba(" + r + "," + g + "," + b + "," + a + ")") == Some(Some(a))
    ensures MatchRgb("rgb(" + r + "," + g + "," + b + ")") == Some(None)
  {
    RgbMatchesLong(r, g, b, a);
    RgbMatchesShort(r, g, b, a);
  }

  lemma RgbMatchesLong(r: string, g: string, b: string, a: string)
    requires |r| > 0 && |g| > 0 && |b| > 0 && |a| > 0
    requires AllDigits(r) && AllDigits(g) && AllDigits(b) && AllDecimal(a)
    ensures MatchRgb("rgba(" + r + "," + g + "," + b + "," + a + ")") == Some(Some(a))
  {
    assert RgbRun(RgbStart, "rgba(") == RgbOpen;
    RgbSeparators(a);
    RgbRunAppend(RgbStart, "rgba(", r);
    RgbRunEnter(RgbOpen, RgbRed, r);
    RgbExtend("rgba(" + r, ",", g, RgbRed, RgbSpace1, RgbGreen);
    RgbExtend("rgba(" + r + "," + g, ",", b, RgbGreen, RgbSpace2, RgbBlue);
    RgbExtendAlpha("rgba(" + r + "," + g + "," + b, ",", a, RgbBlue);
    RgbRunAppend(RgbStart, "rgba(" + r + "," + g + "," + b + "," + a, ")");
  }


  lemma RgbMatchesShort(r: string, g: string, b: string, a: string)
    requires |r| > 0 && |g| > 0 && |b| > 0 && |a| > 0
    requires AllDigits(r) && AllDigits(g) && AllDigits(b) && AllDecimal(a)
    ensures MatchRgb("rgb(" + r + "," + g + "," + b + ")") == Some(None)
  {
    assert RgbRun(RgbStart, "rgb(") == RgbOpen;
    RgbSeparators(a);
    RgbRunAppend(RgbStart, "rgb(", r);
    RgbRunEnter(RgbOpen, RgbRed, r);
    RgbExtend("rgb(" + r, ",", g, RgbRed, RgbSpace1, RgbGreen);
    RgbExtend("rgb(" + r + "," + g, ",", b, RgbGreen, RgbSpace2, RgbBlue);
    RgbRunAppend(RgbStart, "rgb(" + r + "," + g + "," + b, ")");
  }



  /** `hsla(h,s%,l%,a)` matches with `a` as its fourth group, and `hsl(h,s%,l%)` matches without one. */
  lemma HslMatches(h: string, sat: string, l: string, a: string)
    requires |h| > 0 && |sat| > 0 && |l| > 0 && |a| > 0
    requires AllDigits(h) && AllDecimal(sat) && AllDecimal(l) && AllDecimal(a)
    ensures MatchHsl("hsla(" + h + "," + sat + "%," + l + "%," + a + ")") == Some(Some(a))
    ensures MatchHsl("hsl(" + h + "," + sat + "%," + l + "%)") == Some(None)
  {
    HslMatchesLong(h, sat, l, a);
    HslMatchesShort(h, sat, l, a);
  }

  lemma HslMatchesLong(h: string, sat: string, l: string, a: string)
    requires |h| > 0 && |sat| > 0 && |l| > 0 && |a| > 0
    requires AllDigits(h) && AllDecimal(sat) && AllDecimal(l) && AllDecimal(a)
    ensures MatchHsl("hsla(" + h + "," + sat + "%," + l + "%," + a + ")") == Some(Some(a))
  {
    assert HslRun(HslStart, "hsla(") == HslOpen;
    HslSeparators(a);
    HslRunAppend(HslStart, "hsla(", h);
    HslRunEnter(HslOpen, HslHue, h);
    HslExtend("hsla(" + h, ",", sat, HslHue, HslSpace1, HslSaturation);
    HslExtend("hsla(" + h + "," + sat, "%,", l, HslSaturation, HslSpace2, HslLightness);
    HslExtendAlpha("hsla(" + h + "," + sat + "%," + l, "%,", a, HslLightness);
    HslRunAppend(HslStart, "hsla(" + h + "," + sat + "%," + l + "%," + a, ")");
  }


  lemma HslMatchesShort(h: string, sat: string, l: string, a: string)
    requires |h| > 0 && |sat| > 0 && |l| > 0 && |a| > 0
    requires AllDigits(h) && AllDecimal(sat) && AllDecimal(l) && AllDecimal(a)
    ensures MatchHsl("hsl(" + h + "," + sat + "%," + l + "%)") == Some(None)
  {
    assert HslRun(HslStart, "hsl(") == HslOpen;
    HslSeparators(a);
    HslRunAppend(HslStart, "hsl(", h);
    HslRunEnter(HslOpen, HslHue, h);
    HslExtend("hsl(" + h, ",", sat, HslHue, HslSpace1, HslSaturation);
    HslExtend("hsl(" + h + "," + sat, "%,", l, HslSaturation, HslSpace2, HslLightness);
    HslRunAppend(HslStart, "hsl(" + h + "," + sat + "%," + l, "%)");
  }



  // ---- `getAlphaAndColorFromString` on each kind of colour ---------------

  /** `rgba(r,g,b,a)` takes its opacity from `parseFloat(a)`; `rgb(r,g,b)` is opaque. */
  lemma RgbAlphaIsFourthNumber(r: string, g: string, b: string, a: string)
    requires |r| > 0 && |g| > 0 && |b| > 0 && |a| > 0
    requires AllDigits(r) && AllDigits(g) && AllDigits(b) && AllDecimal(a)
    ensures AlphaAndColor("rgba(" + r + "," + g + "," + b + "," + a + ")").alpha == ParseFloat(a)
    ensures AlphaAndColor("rgb(" + r + "," + g + "," + b + ")").alpha == Finite(1.0)
  {
    RgbMatches(r, g, b, a);
  }

  /** A string that does not start with `r` is not an `rgb()` colour. */
  lemma NotRgb(s: string)
    requires |s| > 0 && s[0] != 'r'
    ensures MatchRgb(s).None?
  {
    RgbFailStays(s[1..]);
  }

  /** `hsla(h,s%,l%,a)` takes its opacity from `parseFloat(a)`; `hsl(h,s%,l%)` is opaque. */
  lemma HslAlphaIsFourthGroup(h: string, sat: string, l: string, a: string)
    requires |h| > 0 && |sat| > 0 && |l| > 0 && |a| > 0
    requires AllDigits(h) && AllDecimal(sat) && AllDecimal(l) && AllDecimal(a)
    ensures AlphaAndColor("hsla(" + h + "," + sat + "%," + l + "%," + a + ")").alpha == ParseFloat(a)
    ensures AlphaAndColor("hsl(" + h + "," + sat + "%," + l + "%)").alpha == Finite(1.0)
  {
    HslMatches(h, sat, l, a);
    var s := "hsla(" + h + "," + sat + "%," + l + "%," + a + ")";
    var t := "hsl(" + h + "," + sat + "%," + l + "%)";
    assert s[0] == 'h' && s[1] == 's' && t[0] == 'h' && t[1] == 's';
    NotRgb(s);
    NotRgb(t);
    assert !IsHexDigit(s[1]) && !IsHexDigit(t[1]);
  }

  /**
   * Six hex digits, with or without `#`, are opaque; eight carry the
   * opacity in the last pair, as a byte over 255.
   */
  lemma HexAlpha(h: string)
    requires AllHex(h) && (|h| == 6 || |h| == 8)
    ensures |h| == 6 ==> AlphaAndColor(h).alpha == Finite(1.0) && AlphaAndColor("#" + h).alpha == Finite(1.0)
    ensures |h| == 8 ==> AlphaAndColor(h).alpha == Finite(HexByte(h[6..]) as real / 255.0) &&
                         AlphaAndColor("#" + h).alpha == Finite(HexByte(h[6..]) as real / 255.0)
  {
    assert IsHexDigit(h[0]);
    NotRgb(h);
    var sharp := "#" + h;
    assert sharp[0] == '#' && sharp[1..] == h;
    NotRgb(sharp);
  }

  /** Whatever the hex colour, its opacity lies between 0 and 1. */
  lemma HexAlphaBounded(s: string)
    requires MatchRgb(s).None? && MatchHex(s).Some?
    ensures AlphaAndColor(s).alpha.Finite? && 0.0 <= AlphaAndColor(s).alpha.value <= 1.0
  {
  }

  /** The default hover colour `00ff00` is opaque. */
  lemma DefaultHoverOpaque()
    ensures AlphaAndColor("00ff00").alpha == Finite(1.0)
  {
    HexAlpha("00ff00");
  }

  /** On a run of digits `parseFloat` is the decimal value. */
  lemma ParseFloatInteger(t: string)
    requires |t| > 0 && AllDigits(t)
    ensures ParseFloat(t) == Finite(Decimal(t, []))
  {
    LeadingDigitsOf(t, []);
    assert t + [] == t && t[..|t|] == t;
  }

  /** On digits, a dot and digits, `parseFloat` adds the fraction, scaled by the number of its digits. */
  lemma ParseFloatDecimal(t: string, i: nat)
    requires i < |t| && t[i] == '.' && AllDigits(t[..i]) && AllDigits(t[i + 1..]) && |t| > 1
    ensures ParseFloat(t) == Finite(Decimal(t[..i], t[i + 1..]))
  {
    LeadingDigitsOf(t[..i], t[i..]);
    assert t[..i] + t[i..] == t;
    var rest := t[i + 1..];
    LeadingDigitsOf(rest, []);
    assert rest + [] == rest && rest[..|rest|] == rest;
  }

  // ---- Labels ------------------------------------------------------------

  /** The camera layer of the first label; layers below it are the scene's own. */
  const InitialLabelLayer: nat := 5
  const InitialContent: string := "initial content"

  /** A tooltip label: its camera layer, its HTML content and the id of the model it belongs to. */
  datatype Label = Label(layer: nat, content: string, ownerId: string)

  /**
   * The label registry: labels by id, the ids in the order they were first
   * set (the iteration order of a JavaScript `Map`), and the next layer.
   */
  datatype LabelBook = LabelBook(labels: map<string, Label>, order: seq<string>, lastLayerIndex: nat)

  const NoLabels: LabelBook := LabelBook(map[], [], InitialLabelLayer)

  /**
   * The order lists each label id exactly once, every label has its own
   * layer, and all layers lie between the first label layer and the next
   * one to hand out.
   */
  ghost predicate BookInv(book: LabelBook)
  {
    InitialLabelLayer <= book.lastLayerIndex &&
    (forall id :: id in book.labels <==> id in book.order) &&
    (forall i, j :: 0 <= i < j < |book.order| ==> book.order[i] != book.order[j]) &&
    (forall id :: id in book.labels ==> InitialLabelLayer <= book.labels[id].layer < book.lastLayerIndex) &&
    (forall a, b :: a in book.labels && b in book.labels && a != b ==> book.labels[a].layer != book.labels[b].layer)
  }

  /** `createLabel`: the next layer goes to a fresh label for `id`, which replaces any label `id` had. */
  function CreateLabelIn(book: LabelBook, id: string): (r: LabelBook)
    ensures r.labels == book.labels[id := Label(book.lastLayerIndex, InitialContent, id)]
    ensures r.lastLayerIndex == book.lastLayerIndex + 1
  {
    LabelBook(book.labels[id := Label(book.lastLayerIndex, InitialContent, id)],
              if id in book.labels then book.order else book.order + [id],
              book.lastLayerIndex + 1)
  }

  lemma CreateLabelKeepsInv(book: LabelBook, id: string)
    requires BookInv(book)
    ensures BookInv(CreateLabelIn(book, id))
  {
    var r := CreateLabelIn(book, id);
    forall i, j | 0 <= i < j < |r.order|
      ensures r.order[i] != r.order[j]
    {
      if id !in book.labels && j == |book.order| {
        assert r.order[j] == id && r.order[i] == book.order[i];
      }
    }
  }

  /** Creating labels for `ids` one after the other, from the empty registry. */
  function CreateLabels(ids: seq<string>): LabelBook
  {
    if ids == [] then NoLabels else CreateLabelIn(CreateLabels(ids[..|ids| - 1]), ids[|ids| - 1])
  }

  /**
   * Labels get consecutive layers from 5, one per `createLabel`: for distinct
   * ids the `k`-th label sits on layer `5 + k`, in creation order.
   */
  lemma {:induction false} CreateLabelsLayers(ids: seq<string>)
    requires forall i, j :: 0 <= i < j < |ids| ==> ids[i] != ids[j]
    decreases |ids|
    ensures CreateLabels(ids).lastLayerIndex == InitialLabelLayer + |ids|
    ensures CreateLabels(ids).order == ids
    ensures forall id :: id in CreateLabels(ids).labels <==> id in ids
    ensures forall k :: 0 <= k < |ids| ==> ids[k] in CreateLabels(ids).labels &&
                                            CreateLabels(ids).labels[ids[k]] == Label(InitialLabelLayer + k, InitialContent, ids[k])
  {
    if ids != [] {
      var init := ids[..|ids| - 1];
      CreateLabelsLayers(init);
      assert ids == init + [ids[|ids| - 1]];
      assert ids[|ids| - 1] !in init by {
        forall k | 0 <= k < |init| ensures init[k] != ids[|ids| - 1] {
          assert init[k] == ids[k];
        }
      }
      forall k | 0 <= k < |ids|
        ensures ids[k] in CreateLabels(ids).labels &&
                CreateLabels(ids).labels[ids[k]] == Label(InitialLabelLayer + k, InitialContent, ids[k])
      {
        if k < |init| {
          assert init[k] == ids[k];
        }
      }
    }
  }

  /** The index of the first id in `ids` that has a label. */
  function FirstLabelled(ids: seq<string>, labels: map<string, Label>): (r: Option<nat>)
    ensures r.None? <==> forall j :: 0 <= j < |ids| ==> ids[j] !in labels
    ensures r.Some? ==> r.value < |ids| && ids[r.value] in labels && forall j :: 0 <= j < r.value ==> ids[j] !in labels
  {
    if ids == [] then None
    else if ids[0] in labels then Some(0)
    else
      match FirstLabelled(ids[1..], labels)
      case None => None
      case Some(i) => Some(i + 1)
  }

  /** The characterisation of `FirstLabelled` admits one answer. */
  lemma FirstLabelledIsUnique(ids: seq<string>, labels: map<string, Label>, found: Option<nat>)
    requires found.None? ==> forall j :: 0 <= j < |ids| ==> ids[j] !in labels
    requires found.Some? ==> found.value < |ids| && ids[found.value] in labels &&
                             forall j :: 0 <= j < found.value ==> ids[j] !in labels
    ensures FirstLabelled(ids, labels) == found
  {
  }

  /** The search loop of `updateLabelContent`, on the registry's values. */
  method FindLabelled(ids: seq<string>, labels: map<string, Label>) returns (found: Option<nat>)
    ensures found == FirstLabelled(ids, labels)
  {
    var k := 0;
    while k < |ids| && ids[k] !in labels
      invariant k <= |ids|
      invariant forall j :: 0 <= j < k ==> ids[j] !in labels
    {
      k := k + 1;
    }
    found := if k < |ids| then Some(k) else None;
    FirstLabelledIsUnique(ids, labels, found);
  }

  /** Changing a label's content keeps the registry invariant. */
  lemma WithContentKeepsInv(book: LabelBook, ids: seq<string>, content: string)
    requires BookInv(book)
    ensures BookInv(book.(labels := WithContent(book.labels, ids, content)))
  {
    var r := WithContent(book.labels, ids, content);
    assert forall id :: id in r ==> r[id].layer == book.labels[id].layer;
  }

  /**
   * `updateLabelContent`: the content of the first listed id that has a
   * label changes; the other labels, and all labels when no listed id has
   * one, stay as they were.
   */
  function WithContent(labels: map<string, Label>, ids: seq<string>, content: string): (r: map<string, Label>)
    ensures r.Keys == labels.Keys
    ensures forall id :: id in labels && (FirstLabelled(ids, labels).None? || id != ids[FirstLabelled(ids, labels).value]) ==> r[id] == labels[id]
    ensures FirstLabelled(ids, labels).Some? ==>
              var id := ids[FirstLabelled(ids, labels).value];
              r[id] == labels[id].(content := content)
  {
    match FirstLabelled(ids, labels)
    case None => labels
    case Some(i) => labels[ids[i] := labels[ids[i]].(content := content)]
  }

  /** Listing an id that has no label in front of the others changes nothing. */
  lemma UnlabelledIdsAreSkipped(missing: string, ids: seq<string>, labels: map<string, Label>, content: string)
    requires missing !in labels
    ensures WithContent(labels, [missing] + ids, content) == WithContent(labels, ids, content)
  {
    assert ([missing] + ids)[1..] == ids;
  }

  // ---- Hovering ------------------------------------------------------------

  /** A mesh's material: the one it was loaded with, or the hover material made from a colour. */
  datatype Material = SceneMaterial(value: JsValue) | HoverMaterial(color: HoverColor)

  /** The first raycast hit: the mesh and the chain of its ancestors, the scene root first and the mesh last. */
  datatype Hit = Hit(mesh: Node, chain: seq<Node>)

  /**
   * What the hover logic changes: the hovered mesh (`INTERSECTED`), the
   * materials it swapped, the `currentMaterial` and `layer` it saved in the
   * meshes' `userData`, and the camera layers that are switched off.
   */
  datatype Hover = Hover(
    intersected: Option<string>,
    materials: map<string, Material>,
    saved: map<string, Material>,
    layerOf: map<string, nat>,
    hidden: set<nat>)

  /** The material a mesh shows now. */
  function MaterialOf(h: Hover, mesh: Node): Material
  {
    if mesh.uuid in h.materials then h.materials[mesh.uuid] else SceneMaterial(mesh.material)
  }

  /**
   * `deselectModel`: the hovered mesh gets its saved material back, and its
   * recorded layer is switched off when it is a label layer (5 or more).
   */
  function Deselected(h: Hover): (r: Hover)
    ensures r.intersected == h.intersected && r.saved == h.saved && r.layerOf == h.layerOf
    ensures h.intersected.None? ==> r == h
  {
    if h.intersected.None? then h
    else
      var u := h.intersected.value;
      var restored := if u in h.saved then h.saved[u] else SceneMaterial(Undefined);
      var hidden := if u in h.layerOf && h.layerOf[u] >= InitialLabelLayer then h.hidden + {h.layerOf[u]} else h.hidden;
      h.(materials := h.materials[u := restored], hidden := hidden)
  }

  /** The label shown for a hit: the layer of the first label, in registry order, whose model is the hit or one of its ancestors. */
  function LabelLayerFor(order: seq<string>, labels: map<string, Label>, chain: seq<Node>): Option<nat>
    requires forall k :: 0 <= k < |order| ==> order[k] in labels
  {
    if order == [] then None
    else if GetParentByChild(chain, ObjectIdTag, Str(labels[order[0]].ownerId)).Some? then Some(labels[order[0]].layer)
    else LabelLayerFor(order[1..], labels, chain)
  }

  /** The loop over the labels in `tick`, on the registry's values. */
  method FirstLabelLayer(order: seq<string>, labels: map<string, Label>, chain: seq<Node>) returns (layer: Option<nat>)
    requires forall k :: 0 <= k < |order| ==> order[k] in labels
    ensures layer == LabelLayerFor(order, labels, chain)
  {
    var i := 0;
    while i < |order|
      invariant 0 <= i <= |order|
      invariant forall k :: 0 <= k < |order[i..]| ==> order[i..][k] in labels
      invariant LabelLayerFor(order, labels, chain) == LabelLayerFor(order[i..], labels, chain)
    {
      var entry := labels[order[i]];
      if GetParentByChild(chain, ObjectIdTag, Str(entry.ownerId)).Some? {
        return Some(entry.layer);
      }
      assert order[i..][1..] == order[i + 1..];
      i := i + 1;
    }
    return None;
  }

  /** `ownerId`'s model is the hit mesh or one of its ancestors. */
  predicate OwnsHit(ownerId: string, chain: seq<Node>)
  {
    exists k :: 0 <= k < |chain| && LooseEquals(Get(chain[k].userData, ObjectIdTag), Str(ownerId))
  }

  /** The label found is the first one, in registry order, whose model contains the hit, and none is found only when no label's model does. */
  lemma {:induction false} LabelLayerForIsFirst(order: seq<string>, labels: map<string, Label>, chain: seq<Node>)
    requires forall k :: 0 <= k < |order| ==> order[k] in labels
    decreases |order|
    ensures LabelLayerFor(order, labels, chain).None? <==> forall k :: 0 <= k < |order| ==> !OwnsHit(labels[order[k]].ownerId, chain)
    ensures LabelLayerFor(order, labels, chain).Some? ==>
              exists k :: 0 <= k < |order| && OwnsHit(labels[order[k]].ownerId, chain) &&
                          LabelLayerFor(order, labels, chain).value == labels[order[k]].layer &&
                          forall j :: 0 <= j < k ==> !OwnsHit(labels[order[j]].ownerId, chain)
  {
    if order != [] {
      var owner := labels[order[0]].ownerId;
      GetParentByChildIsNearest(chain, ObjectIdTag, Str(owner));
      assert GetParentByChild(chain, ObjectIdTag, Str(owner)).Some? <==> OwnsHit(owner, chain);
      LabelLayerForIsFirst(order[1..], labels, chain);
      if !OwnsHit(owner, chain) {
        if LabelLayerFor(order, labels, chain).Some? {
          var k :| 0 <= k < |order[1..]| && OwnsHit(labels[order[1..][k]].ownerId, chain) &&
                   LabelLayerFor(order[1..], labels, chain).value == labels[order[1..][k]].layer &&
                   forall j :: 0 <= j < k ==> !OwnsHit(labels[order[1..][j]].ownerId, chain);
          assert order[k + 1] == order[1..][k];
          forall j | 0 <= j < k + 1
            ensures !OwnsHit(labels[order[j]].ownerId, chain)
          {
            if j > 0 {
              assert order[j] == order[1..][j - 1];
            }
          }
        } else {
          forall k | 0 <= k < |order|
            ensures !OwnsHit(labels[order[k]].ownerId, chain)
          {
            if k > 0 {
              assert order[k] == order[1..][k - 1];
            }
          }
        }
      }
    }
  }

  /** The hit mesh becomes the hovered one, shows the hover material, and shows the layer of its label if it has one. */
  function Hovered(h: Hover, mesh: Node, layer: Option<nat>, hovering: Material): Hover
  {
    var u := mesh.uuid;
    var h1 := h.(intersected := Some(u), saved := h.saved[u := MaterialOf(h, mesh)], materials := h.materials[u := hovering]);
    if layer.Some? then h1.(hidden := h1.hidden - {layer.value}, layerOf := h1.layerOf[u := layer.value]) else h1
  }

  /**
   * Looking away restores the mesh: after hovering a mesh and deselecting it,
   * it shows the material it had before, a label layer it revealed is
   * switched off again, and no other mesh's material changed.
   */
  lemma HoverThenDeselectRestores(h: Hover, mesh: Node, layer: Option<nat>, hovering: Material)
    requires layer.Some? ==> layer.value >= InitialLabelLayer
    ensures var after := Deselected(Hovered(h, mesh, layer, hovering));
            MaterialOf(after, mesh) == MaterialOf(h, mesh) &&
            (layer.Some? ==> layer.value in after.hidden) &&
            (forall u :: u != mesh.uuid ==> (u in after.materials <==> u in h.materials)) &&
            (forall u :: u != mesh.uuid && u in h.materials ==> after.materials[u] == h.materials[u])
  {
  }

  /** While a mesh is hovered its label layer is visible and it shows the hover material. */
  lemma HoveredShowsLabel(h: Hover, mesh: Node, layer: Option<nat>, hovering: Material)
    ensures var after := Hovered(h, mesh, layer, hovering);
            after.intersected == Some(mesh.uuid) && MaterialOf(after, mesh) == hovering &&
            (layer.Some? ==> layer.value !in after.hidden && after.layerOf[mesh.uuid] == layer.value) &&
            (layer.None? ==> after.hidden == h.hidden)
  {
  }

  /** A mesh that never had a label layer recorded does not switch any layer off when deselected. */
  lemma DeselectWithoutLabelKeepsLayers(h: Hover)
    requires h.intersected.Some? ==> h.intersected.value !in h.layerOf
    ensures Deselected(h).hidden == h.hidden
  {
  }

  // ---- Configuration of `addModel` ---------------------------------------

  /** The configuration `addModel` hands to the base scene as written: the id string, whose `id` and `autoResize` read `undefined`. */
  function NavigateConfigAsWritten(id: Option<string>): ModelConfig
  {
    ModelConfig(None, false)
  }

  /** The configuration evidently meant: `{ id }`. */
  function NavigateConfig(id: Option<string>): ModelConfig
  {
    ModelConfig(id, false)
  }

  /**
   * As written, a model added with an id is registered, and its label keyed,
   * under the root's uuid: asking for the label by the id finds nothing.
   */
  lemma NavigateIdIgnoredAsWritten()
    ensures var root := Node("u1", "Group", map[], true, Undefined, Vector3(0.0, 0.0, 0.0), Vector3(0.0, 0.0, 0.0), Vector3(1.0, 1.0, 1.0), []);
            var key := CustomId(NavigateConfigAsWritten(Some("dev1")), root);
            key == "u1" && FirstLabelled(["dev1"], CreateLabelIn(NoLabels, key).labels).None?
  {
  }

  /** With `{ id }`, a non-empty id keys the model and its label, so the label is found by that id. */
  lemma NavigateIdKeysLabel(id: string, root: Node, book: LabelBook)
    requires id != ""
    ensures CustomId(NavigateConfig(Some(id)), root) == id
    ensures FirstLabelled([id], CreateLabelIn(book, CustomId(NavigateConfig(Some(id)), root)).labels) == Some(0)
  {
  }

  /** Without an id both agree: the root's uuid. */
  lemma NavigateConfigAgreesWithoutId(root: Node)
    ensures CustomId(NavigateConfig(None), root) == CustomId(NavigateConfigAsWritten(None), root) == root.uuid
  {
  }

  // ---- Settings ------------------------------------------------------------

  /** `settingsValue?.hoverColor || '00ff00'`. */
  function HoverColorSetting(value: ViewWidgetSettings): string
  {
    if TruthyStr(value.hoverColor) then value.hoverColor.value else "00ff00"
  }

  /** Without a hover colour the hover material is opaque green. */
  lemma HoverColorDefault(value: ViewWidgetSettings)
    requires !TruthyStr(value.hoverColor)
    ensures AlphaAndColor(HoverColorSetting(value)) == HoverColor("00ff00", Finite(1.0))
  {
    DefaultHoverOpaque();
  }

  /** The camera after `setCameraValues` with the scene's own camera. */
  function CameraAfterSettings(settings: Option<CameraSettings>, camera: Option<CameraState>): Option<CameraState>
  {
    if settings.Some? && camera.Some? then Some(CameraAfter(settings.value, camera.value)) else camera
  }

  /**
   * `ThreedNavigateScene`: the first-person scene (`fps`, over the base
   * scene `scene`) with labels and hovering.
   */
  class ThreedNavigateScene {
    const scene: ThreedAbstractScene<ViewWidgetSettings>
    const fps: FpsScene.ThreedFpsScene
    var labels: map<string, Label>
    /** The ids of `labels` in insertion order. */
    var labelOrder: seq<string>
    var lastLayerIndex: nat
    /** The uuid of the hovered mesh (`INTERSECTED`). */
    var intersected: Option<string>
    /** Materials the hover logic assigned, by mesh uuid. */
    var materials: map<string, Material>
    /** `userData.currentMaterial` by mesh uuid. */
    var saved: map<string, Material>
    /** `userData.layer` by mesh uuid. */
    var layerOf: map<string, nat>
    /** The camera layers switched off. */
    var hiddenLayers: set<nat>
    /** The scene's perspective camera. */
    var camera: Option<CameraState>
    var hoveringColor: HoverColor
    var hoveringMaterial: Material

    function Book(): LabelBook
      reads this
    {
      LabelBook(labels, labelOrder, lastLayerIndex)
    }

    function HoverState(): Hover
      reads this
    {
      Hover(intersected, materials, saved, layerOf, hiddenLayers)
    }

    ghost predicate Valid()
      reads this
    {
      BookInv(Book())
    }

    /**
     * `initialize`: no labels, the next label layer is 5, and the camera
     * sees every layer; the hover colour starts as opaque `00ff00` and the
     * hover material is not made until the settings arrive.
     */
    constructor(scene: ThreedAbstractScene<ViewWidgetSettings>, fps: FpsScene.ThreedFpsScene, camera: Option<CameraState>)
      ensures this.scene == scene && this.fps == fps && this.camera == camera
      ensures Book() == NoLabels && HoverState() == Hover(None, map[], map[], map[], {})
      ensures hoveringColor == HoverColor("00ff00", Finite(1.0)) && hoveringMaterial == SceneMaterial(Undefined)
      ensures Valid()
    {
      this.scene := scene;
      this.fps := fps;
      this.camera := camera;
      labels, labelOrder, lastLayerIndex := map[], [], InitialLabelLayer;
      intersected, materials, saved, layerOf, hiddenLayers := None, map[], map[], map[], {};
      hoveringColor := HoverColor("00ff00", Finite(1.0));
      hoveringMaterial := SceneMaterial(Undefined);
    }

    /** `createLabel`: the label for `id` takes the next layer. */
    method CreateLabel(id: string) returns (made: Label)
      modifies this`labels, this`labelOrder, this`lastLayerIndex
      requires Valid()
      ensures Valid()
      ensures Book() == CreateLabelIn(old(Book()), id)
      ensures made == Label(old(lastLayerIndex), InitialContent, id) && labels[id] == made
    {
      CreateLabelKeepsInv(Book(), id);
      var layer := lastLayerIndex;
      lastLayerIndex := lastLayerIndex + 1;
      made := Label(layer, InitialContent, id);
      if id !in labels {
        labelOrder := labelOrder + [id];
      }
      labels := labels[id := made];
    }

    /**
     * `addModel`: the base scene registers the model under `{ id }`; with a
     * tooltip a label is made for the registered id, its layer is switched
     * off until the model is looked at, and the label is returned.
     */
    method AddModel(model: Gltf, id: Option<string>, tooltip: bool) returns (tooltipLabel: Option<Label>)
      modifies this`labels, this`labelOrder, this`lastLayerIndex, this`hiddenLayers, scene
      requires Valid()
      ensures Valid()
      ensures scene.State() == Added(old(scene.State()), model, NavigateConfig(id))
      ensures scene.settingsValue == old(scene.settingsValue)
      ensures tooltip ==>
                Book() == CreateLabelIn(old(Book()), CustomId(NavigateConfig(id), model.scene)) &&
                tooltipLabel == Some(Label(old(lastLayerIndex), InitialContent, CustomId(NavigateConfig(id), model.scene))) &&
                hiddenLayers == old(hiddenLayers) + {old(lastLayerIndex)}
      ensures !tooltip ==> Book() == old(Book()) && tooltipLabel.None? && hiddenLayers == old(hiddenLayers)
    {
      scene.AddModel(model, NavigateConfig(id));
      if !tooltip {
        return None;
      }
      var key := CustomId(NavigateConfig(id), model.scene);
      var created := CreateLabel(key);
      hiddenLayers := hiddenLayers + {created.layer};
      tooltipLabel := Some(created);
    }

    /** `updateLabelContent`: the loop looks for the first listed id that has a label. */
    method UpdateLabelContent(ids: seq<string>, content: string)
      modifies this`labels
      requires Valid()
      ensures Valid()
      ensures labels == WithContent(old(labels), ids, content)
    {
      ghost var book := Book();
      var found := FindLabelled(ids, labels);
      WithContentKeepsInv(book, ids, content);
      if found.Some? {
        var id := ids[found.value];
        labels := labels[id := labels[id].(content := content)];
      }
      assert Book() == book.(labels := WithContent(book.labels, ids, content));
    }

    /** `deselectModel`. */
    method DeselectModel()
      modifies this`materials, this`hiddenLayers
      ensures HoverState() == Deselected(old(HoverState()))
    {
      if intersected.None? {
        return;
      }
      var u := intersected.value;
      materials := materials[u := if u in saved then saved[u] else SceneMaterial(Undefined)];
      if u in layerOf && layerOf[u] >= InitialLabelLayer {
        hiddenLayers := hiddenLayers + {layerOf[u]};
      }
    }

    /** The label loop of `tick`: the first label, in insertion order, whose model contains the hit. */
    method FindLabelLayer(chain: seq<Node>) returns (layer: Option<nat>)
      requires Valid()
      ensures layer == LabelLayerFor(labelOrder, labels, chain)
    {
      layer := FirstLabelLayer(labelOrder, labels, chain);
    }

    /**
     * `tick` after the first-person step: while the pointer is locked, a
     * new first hit deselects the previous mesh and hovers the new one, the
     * same hit changes nothing, and no hit deselects and forgets the mesh.
     */
    method Tick(now: real, onObject: bool, hits: seq<Hit>)
      modifies this`intersected, this`materials, this`saved, this`layerOf, this`hiddenLayers, fps
      requires Valid()
      ensures Valid()
      ensures fps.pointerLocked == old(fps.pointerLocked) && fps.prevTime == now
      ensures fps.pointerLocked ==> fps.BodyState() == FpsScene.Fall(old(fps.BodyState()), (now - old(fps.prevTime)) / 1000.0, onObject)
      ensures !fps.pointerLocked || (|hits| > 0 && old(intersected) == Some(hits[0].mesh.uuid)) ==> HoverState() == old(HoverState())
      ensures fps.pointerLocked && |hits| == 0 ==> HoverState() == Deselected(old(HoverState())).(intersected := None)
      ensures fps.pointerLocked && |hits| > 0 && old(intersected) != Some(hits[0].mesh.uuid) ==>
                HoverState() == Hovered(Deselected(old(HoverState())), hits[0].mesh,
                                        LabelLayerFor(labelOrder, labels, hits[0].chain), hoveringMaterial)
    {
      fps.Tick(now, onObject);
      if fps.pointerLocked {
        HoverHits(hits);
      }
    }

    /** The raycast part of `tick`: the first hit decides what is hovered. */
    method HoverHits(hits: seq<Hit>)
      modifies this`intersected, this`materials, this`saved, this`layerOf, this`hiddenLayers
      requires Valid()
      ensures Valid()
      ensures |hits| > 0 && old(intersected) == Some(hits[0].mesh.uuid) ==> HoverState() == old(HoverState())
      ensures |hits| == 0 ==> HoverState() == Deselected(old(HoverState())).(intersected := None)
      ensures |hits| > 0 && old(intersected) != Some(hits[0].mesh.uuid) ==>
                HoverState() == Hovered(Deselected(old(HoverState())), hits[0].mesh,
                                        LabelLayerFor(labelOrder, labels, hits[0].chain), hoveringMaterial)
    {
      if |hits| == 0 {
        DeselectModel();
        intersected := None;
      } else if intersected != Some(hits[0].mesh.uuid) {
        DeselectModel();
        var layer := FindLabelLayer(hits[0].chain);
        SetHover(Hovered(HoverState(), hits[0].mesh, layer, hoveringMaterial));
      }
    }

    /** The hover fields take the values of `h`. */
    method SetHover(h: Hover)
      modifies this`intersected, this`materials, this`saved, this`layerOf, this`hiddenLayers
      ensures HoverState() == h
    {
      intersected, materials, saved, layerOf, hiddenLayers := h.intersected, h.materials, h.saved, h.layerOf, h.hidden;
    }

    /**
     * `onSettingValues` (run by `updateValue` once models exist): the scene
     * settings are applied, the camera takes the camera settings, and the
     * hover colour and material come from `hoverColor` or `00ff00`.
     */
    method UpdateValue(value: ViewWidgetSettings)
      modifies this`camera, this`hoveringColor, this`hoveringMaterial, scene
      requires Valid()
      ensures Valid()
      ensures scene.settingsValue == Some(value)
      ensures |old(scene.models)| == 0 ==>
                scene.State() == old(scene.State()).(hasSettings := true) &&
                camera == old(camera) && hoveringColor == old(hoveringColor) && hoveringMaterial == old(hoveringMaterial)
      ensures |old(scene.models)| > 0 ==>
                scene.State() == SceneSettingsApplied(SettingsApplied(old(scene.State()).(hasSettings := true)), value.sceneSettings) &&
                camera == CameraAfterSettings(value.sceneSettings.camera, old(camera)) &&
                hoveringColor == AlphaAndColor(HoverColorSetting(value)) &&
                hoveringMaterial == HoverMaterial(hoveringColor)
    {
      scene.UpdateValue(value);
      if |scene.models| == 0 {
        return;
      }
      ApplySettings(value.sceneSettings);
      SetHoverColor(value);
    }

    /** The scene part of `onSettingValues`: environment, camera, then devices. */
    method ApplySettings(settings: SceneSettings)
      modifies this`camera, scene
      ensures scene.State() == SceneSettingsApplied(old(scene.State()), settings)
      ensures scene.settingsValue == old(scene.settingsValue)
      ensures camera == CameraAfterSettings(settings.camera, old(camera))
    {
      scene.SetEnvironmentValues(settings.environment);
      camera := scene.SetCameraValues(settings.camera, camera);
      scene.SetDevicesValues(settings.devices);
    }

    /** The hover colour and material of `onSettingValues`. */
    method SetHoverColor(value: ViewWidgetSettings)
      modifies this`hoveringColor, this`hoveringMaterial
      ensures hoveringColor == AlphaAndColor(HoverColorSetting(value)) && hoveringMaterial == HoverMaterial(hoveringColor)
    {
      hoveringColor := AlphaAndColor(HoverColorSetting(value));
      hoveringMaterial := HoverMaterial(hoveringColor);
    }
  }
}
