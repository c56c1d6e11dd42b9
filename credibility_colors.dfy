/** The credibility bar's colour, interpolated between five fixed stops, and the
    shimmer animation chosen from the score. Scores are integers; `Math.round(x)`
    is `Floor(x + 1/2)` computed exactly over the reals. */
module CredibilityColors {
  import opened Wrappers

  datatype ColorStop = ColorStop(percent: int, color: string)

  /** Red, orange-red, yellow, green and dark green, 25 points apart. */
  const ColorStops: seq<ColorStop> := [
    ColorStop(0, "#ef4444"),
    ColorStop(25, "#f97316"),
    ColorStop(50, "#facc15"),
    ColorStop(75, "#22c55e"),
    ColorStop(100, "#15803d")
  ]

  // ---------------------------------------------------------------------------
  // Hexadecimal digits, `parseInt(_, 16)`, `toString(16)` and `padStart(2, '0')`

  predicate IsHexDigit(c: char)
  {
    '0' <= c <= '9' || 'a' <= c <= 'f' || 'A' <= c <= 'F'
  }

  predicate IsLowerHexDigit(c: char)
  {
    '0' <= c <= '9' || 'a' <= c <= 'f'
  }

  predicate AllHexDigits(s: string)
  {
    forall i :: 0 <= i < |s| ==> IsHexDigit(s[i])
  }

  predicate AllLowerHexDigits(s: string)
  {
    forall i :: 0 <= i < |s| ==> IsLowerHexDigit(s[i])
  }

  function DigitValue(c: char): (v: nat)
    requires IsHexDigit(c)
    ensures v < 16
  {
    if '0' <= c <= '9' then c as int - '0' as int
    else if 'a' <= c <= 'f' then c as int - 'a' as int + 10
    else c as int - 'A' as int + 10
  }

  function HexDigit(v: nat): (c: char)
    requires v < 16
    ensures IsLowerHexDigit(c) && DigitValue(c) == v
  {
    if v < 10 then ('0' as int + v) as char else ('a' as int + v - 10) as char
  }

  /** `parseInt(s, 16)` on a string made only of hexadecimal digits. */
  function ParseHex(s: string): (v: nat)
    requires AllHexDigits(s)
    ensures |s| == 0 ==> v == 0
    ensures |s| == 1 ==> v < 16
    ensures |s| == 2 ==> v < 256
  {
    if |s| == 0 then 0 else ParseHex(s[..|s| - 1]) * 16 + DigitValue(s[|s| - 1])
  }

  /** `n.toString(16)`: lower-case digits, no leading zero. */
  function ToHex(n: nat): (s: string)
    ensures 1 <= |s| && AllLowerHexDigits(s) && AllHexDigits(s)
    ensures ParseHex(s) == n
    ensures n < 16 <==> |s| == 1
    ensures n < 256 ==> |s| <= 2
    decreases n
  {
    if n < 16 then [HexDigit(n)]
    else
      var prefix := ToHex(n / 16);
      var s := prefix + [HexDigit(n % 16)];
      assert s[..|s| - 1] == prefix;
      s
  }

  /** `s.padStart(2, '0')`. */
  function PadStart2(s: string): (r: string)
    ensures |s| >= 2 ==> r == s
    ensures |s| < 2 ==> |r| == 2 && r[2 - |s|..] == s
    ensures |s| < 2 ==> forall i :: 0 <= i < 2 - |s| ==> r[i] == '0'
  {
    if |s| >= 2 then s else seq(2 - |s|, _ => '0') + s
  }

  /** One colour channel written as two lower-case hex digits. */
  function Hex2(n: nat): string
  {
    PadStart2(ToHex(n))
  }

  /** Hex round trip: every value 0..255 is written as exactly two lower-case
      digits, and parsing them gives the value back. */
  lemma Hex2RoundTrip(n: nat)
    requires n < 256
    ensures |Hex2(n)| == 2 && AllLowerHexDigits(Hex2(n)) && AllHexDigits(Hex2(n))
    ensures ParseHex(Hex2(n)) == n
  {
    var h := ToHex(n);
    if |h| == 1 {
      var p := Hex2(n);
      assert p == ['0', h[0]];
      assert p[..1] == ['0'];
      assert ParseHex(p[..1]) == ParseHex([]) * 16 + DigitValue('0');
    }
  }

  /** The other direction: writing back the value of two lower-case digits
      reproduces the digits. */
  lemma ParseHex2RoundTrip(p: string)
    requires |p| == 2 && AllLowerHexDigits(p)
    ensures AllHexDigits(p) && Hex2(ParseHex(p)) == p
  {
    LowerPair(p);
    Hex2OfDigits(DigitValue(p[0]), DigitValue(p[1]));
  }

  /** Two lower-case digits: their value, and the digits recovered from it. */
  lemma LowerPair(p: string)
    requires |p| == 2 && AllLowerHexDigits(p)
    ensures AllHexDigits(p)
    ensures ParseHex(p) == DigitValue(p[0]) * 16 + DigitValue(p[1])
    ensures p == [HexDigit(DigitValue(p[0])), HexDigit(DigitValue(p[1]))]
  {
    assert IsLowerHexDigit(p[0]) && IsLowerHexDigit(p[1]);
    ParseTwoDigits(p);
    DigitOfValue(p[0]);
    DigitOfValue(p[1]);
    assert p == [p[0], p[1]];
  }

  /** Two digits written back: a leading zero digit is restored by the padding. */
  lemma Hex2OfDigits(hi: nat, lo: nat)
    requires hi < 16 && lo < 16
    ensures Hex2(hi * 16 + lo) == [HexDigit(hi), HexDigit(lo)]
  {
    if hi == 0 {
      assert ToHex(lo) == [HexDigit(lo)];
      assert HexDigit(0) == '0';
    } else {
      ToHexTwoDigits(hi, lo);
    }
  }

  lemma ParseTwoDigits(p: string)
    requires |p| == 2 && AllHexDigits(p)
    ensures ParseHex(p) == DigitValue(p[0]) * 16 + DigitValue(p[1])
  {
    assert p[..1] == [p[0]];
    assert p[..1][..0] == [];
  }

  lemma ToHexTwoDigits(hi: nat, lo: nat)
    requires 1 <= hi < 16 && lo < 16
    ensures ToHex(hi * 16 + lo) == [HexDigit(hi), HexDigit(lo)]
  {
    var v := hi * 16 + lo;
    assert v / 16 == hi && v % 16 == lo;
    assert ToHex(hi) == [HexDigit(hi)];
    assert ToHex(v) == ToHex(v / 16) + [HexDigit(v % 16)];
  }

  lemma DigitOfValue(c: char)
    requires IsLowerHexDigit(c)
    ensures HexDigit(DigitValue(c)) == c
  {
  }

  // ---------------------------------------------------------------------------
  // Colours

  /** `#` followed by six hexadecimal digits. */
  predicate IsHexColor(c: string)
  {
    |c| == 7 && c[0] == '#' && AllHexDigits(c[1..])
  }

  /** `#` followed by six lower-case hexadecimal digits. */
  predicate IsLowerHexColor(c: string)
  {
    |c| == 7 && c[0] == '#' && AllLowerHexDigits(c[1..])
  }

  /** The two digits of channel k of a `#rrggbb` string. */
  function Pair(color: string, k: nat): (p: string)
    requires |color| == 7 && k < 3
    ensures |p| == 2
  {
    color[1 + 2 * k..3 + 2 * k]
  }

  lemma PairDigits(color: string, k: nat)
    requires |color| == 7 && k < 3
    ensures AllHexDigits(color[1..]) ==> AllHexDigits(Pair(color, k))
    ensures AllLowerHexDigits(color[1..]) ==> AllLowerHexDigits(Pair(color, k))
  {
    assert forall i :: 0 <= i < 2 ==> Pair(color, k)[i] == color[1..][2 * k + i];
  }

  /** The red (k = 0), green (1) or blue (2) channel: `parseInt(color.slice(1 + 2k, 3 + 2k), 16)`. */
  function Channel(color: string, k: nat): (v: nat)
    requires IsHexColor(color) && k < 3
    ensures v < 256
  {
    PairDigits(color, k);
    ParseHex(Pair(color, k))
  }

  /** A colour is `#` followed by its three pairs. */
  lemma ColorFromPairs(h0: string, h1: string, h2: string)
    requires |h0| == 2 && |h1| == 2 && |h2| == 2
    requires AllLowerHexDigits(h0) && AllLowerHexDigits(h1) && AllLowerHexDigits(h2)
    ensures var r := "#" + h0 + h1 + h2;
            && IsLowerHexColor(r) && IsHexColor(r)
            && Pair(r, 0) == h0 && Pair(r, 1) == h1 && Pair(r, 2) == h2
  {
    var r := "#" + h0 + h1 + h2;
    assert r[1..] == h0 + h1 + h2;
    assert r[1..3] == h0 && r[3..5] == h1 && r[5..7] == h2;
  }

  lemma ColorIsPairs(c: string)
    requires |c| == 7
    ensures c == [c[0]] + Pair(c, 0) + Pair(c, 1) + Pair(c, 2)
  {
  }

  function Min(a: int, b: int): int { if a <= b then a else b }

  function Max(a: int, b: int): int { if a <= b then b else a }

  /** `Math.round(x)`: the nearest integer, halves rounded up. */
  function Round(x: real): (n: int)
    ensures x - 0.5 < n as real <= x + 0.5
  {
    (x + 0.5).Floor
  }

  /** `Math.round(a + (b - a) * f)` for one channel: it stays between the two
      channels it interpolates. */
  function Lerp(a: int, b: int, f: real): (c: int)
    requires 0.0 <= f <= 1.0
    ensures Min(a, b) <= c <= Max(a, b)
    ensures f == 0.0 ==> c == a
    ensures f == 1.0 ==> c == b
  {
    var d := (b - a) as real;
    ScaleWithin(d, f);
    Round(a as real + d * f)
  }

  lemma ScaleWithin(d: real, f: real)
    requires 0.0 <= f <= 1.0
    ensures 0.0 <= d ==> 0.0 <= d * f <= d
    ensures d < 0.0 ==> d <= d * f <= 0.0
  {
  }

  /** The helper `interpolateColor`: decodes both colours, interpolates each channel
      and writes the result back as `#rrggbb`. Its only callers pass two of the
      stop colours, which are well formed. */
  function InterpolateColor(color1: string, color2: string, factor: real): (r: string)
    requires IsHexColor(color1) && IsHexColor(color2)
    requires 0.0 <= factor <= 1.0
    ensures IsLowerHexColor(r) && IsHexColor(r)
  {
    EncodeColor(
      Lerp(Channel(color1, 0), Channel(color2, 0), factor),
      Lerp(Channel(color1, 1), Channel(color2, 1), factor),
      Lerp(Channel(color1, 2), Channel(color2, 2), factor))
  }

  /** Each channel decoded from the result is the interpolation of the inputs' channels. */
  lemma InterpolatedChannel(color1: string, color2: string, factor: real, k: nat)
    requires IsHexColor(color1) && IsHexColor(color2)
    requires 0.0 <= factor <= 1.0 && k < 3
    ensures Channel(InterpolateColor(color1, color2, factor), k)
            == Lerp(Channel(color1, k), Channel(color2, k), factor)
  {
    var red := Lerp(Channel(color1, 0), Channel(color2, 0), factor);
    var green := Lerp(Channel(color1, 1), Channel(color2, 1), factor);
    var blue := Lerp(Channel(color1, 2), Channel(color2, 2), factor);
    var r := EncodeColor(red, green, blue);
    assert InterpolateColor(color1, color2, factor) == r;
    if k == 0 {
      assert Channel(r, 0) == red;
    } else if k == 1 {
      assert Channel(r, 1) == green;
    } else {
      assert k == 2;
      assert Channel(r, 2) == blue;
    }
  }

  /** The template string `#${r}${g}${b}` with each channel in two hex digits:
      decoding it gives the channels back. */
  function EncodeColor(red: nat, green: nat, blue: nat): (r: string)
    requires red < 256 && green < 256 && blue < 256
    ensures IsLowerHexColor(r) && IsHexColor(r)
    ensures Channel(r, 0) == red && Channel(r, 1) == green && Channel(r, 2) == blue
  {
    Hex2RoundTrip(red);
    Hex2RoundTrip(green);
    Hex2RoundTrip(blue);
    ColorFromPairs(Hex2(red), Hex2(green), Hex2(blue));
    "#" + Hex2(red) + Hex2(green) + Hex2(blue)
  }

  // ---------------------------------------------------------------------------
  // getCredibilityColor

  /** `Math.max(0, Math.min(100, score))`. */
  function Clamp(score: int): (c: int)
    ensures 0 <= c <= 100
    ensures 0 <= score <= 100 ==> c == score
    ensures score < 0 ==> c == 0
    ensures score > 100 ==> c == 100
  {
    Max(0, Min(100, score))
  }

  /** Stops i and i + 1 bracket the score. */
  predicate InSegment(s: int, i: nat)
    requires i < |ColorStops| - 1
  {
    ColorStops[i].percent <= s <= ColorStops[i + 1].percent
  }

  /** The first segment from stop i on that brackets the score, as the search loop finds it. */
  function FirstSegment(s: int, i: nat): (r: Option<nat>)
    requires i <= |ColorStops| - 1
    ensures r.Some? ==> i <= r.value < |ColorStops| - 1 && InSegment(s, r.value)
    ensures r.Some? ==> forall j :: i <= j < r.value ==> !InSegment(s, j)
    ensures r.None? ==> forall j :: i <= j < |ColorStops| - 1 ==> !InSegment(s, j)
    decreases |ColorStops| - i
  {
    if i == |ColorStops| - 1 then None
    else if InSegment(s, i) then Some(i)
    else FirstSegment(s, i + 1)
  }

  /** The stops to interpolate between: the first bracketing segment, or the initial
      pair (first and last stop) when no segment brackets the score. */
  function Segment(s: int): (r: (nat, nat))
    ensures r.0 < r.1 < |ColorStops|
    ensures 0 <= s <= 100 ==> ColorStops[r.0].percent <= s <= ColorStops[r.1].percent
  {
    match FirstSegment(s, 0)
    case Some(i) => (i, i + 1)
    case None => (0, |ColorStops| - 1)
  }

  /** `(clampedScore - startStop.percent) / (endStop.percent - startStop.percent)`. */
  function Factor(s: int, lo: nat, hi: nat): (f: real)
    requires lo < hi < |ColorStops|
    requires ColorStops[lo].percent <= s <= ColorStops[hi].percent
    ensures 0.0 <= f <= 1.0
  {
    var num := (s - ColorStops[lo].percent) as real;
    var den := (ColorStops[hi].percent - ColorStops[lo].percent) as real;
    assert num <= den * 1.0;
    num / den
  }

  lemma StopColorsWellFormed()
    ensures forall i :: 0 <= i < |ColorStops| ==> IsLowerHexColor(ColorStops[i].color)
    ensures forall i :: 0 <= i < |ColorStops| ==> IsHexColor(ColorStops[i].color)
  {
  }

  /** The colour `getCredibilityColor(score)` returns. */
  function CredibilityColor(score: int): (r: string)
    ensures IsLowerHexColor(r) && IsHexColor(r)
  {
    var s := Clamp(score);
    var (lo, hi) := Segment(s);
    StopColorsWellFormed();
    InterpolateColor(ColorStops[lo].color, ColorStops[hi].color, Factor(s, lo, hi))
  }

  /** `getCredibilityColor`, with its search loop over the stops. */
  method GetCredibilityColor(score: int) returns (color: string)
    ensures color == CredibilityColor(score)
  {
    var clampedScore := Max(0, Min(100, score));
    var startStop, endStop := ColorStops[0], ColorStops[|ColorStops| - 1];
    ghost var lo, hi := 0, |ColorStops| - 1;
    var i := 0;
    while i < |ColorStops| - 1
      invariant 0 <= i <= |ColorStops| - 1
      invariant FirstSegment(clampedScore, 0) == FirstSegment(clampedScore, i)
      invariant lo == 0 && hi == |ColorStops| - 1
      invariant startStop == ColorStops[lo] && endStop == ColorStops[hi]
    {
      if clampedScore >= ColorStops[i].percent && clampedScore <= ColorStops[i + 1].percent {
        startStop, endStop := ColorStops[i], ColorStops[i + 1];
        lo, hi := i, i + 1;
        break;
      }
      i := i + 1;
    }
    assert clampedScore == Clamp(score);
    assert (lo, hi) == Segment(clampedScore);
    var factor := (clampedScore - startStop.percent) as real / (endStop.percent - startStop.percent) as real;
    assert factor == Factor(clampedScore, lo, hi);
    StopColorsWellFormed();
    color := InterpolateColor(startStop.color, endStop.color, factor);
  }

  /** For a clamped score the search always succeeds, and it picks segment
      `(s - 1) / 25`: a score on a shared boundary (25, 50, 75) falls in the lower segment. */
  lemma SegmentOfClamped(s: int)
    requires 0 <= s <= 100
    ensures FirstSegment(s, 0) == Some(if s == 0 then 0 else (s - 1) / 25)
    ensures Segment(s) == (if s == 0 then 0 else (s - 1) / 25, if s == 0 then 1 else (s - 1) / 25 + 1)
  {
    var i := if s == 0 then 0 else (s - 1) / 25;
    assert InSegment(s, i);
    assert forall j :: 0 <= j < i ==> !InSegment(s, j);
  }

  /** The colour's channels, each interpolated from the bracketing stops. */
  lemma ColorChannels(score: int, k: nat)
    requires k < 3
    ensures var s := Clamp(score);
            var (lo, hi) := Segment(s);
            && IsHexColor(ColorStops[lo].color) && IsHexColor(ColorStops[hi].color)
            && Channel(CredibilityColor(score), k)
               == Lerp(Channel(ColorStops[lo].color, k), Channel(ColorStops[hi].color, k), Factor(s, lo, hi))
  {
    StopColorsWellFormed();
    var s := Clamp(score);
    var (lo, hi) := Segment(s);
    InterpolatedChannel(ColorStops[lo].color, ColorStops[hi].color, Factor(s, lo, hi), k);
  }

  /** Each channel lies between the two bracketing stops' channels, inclusive. */
  lemma ChannelBetweenStops(score: int, k: nat)
    requires k < 3
    ensures var (lo, hi) := Segment(Clamp(score));
            && hi == lo + 1
            && IsHexColor(ColorStops[lo].color) && IsHexColor(ColorStops[hi].color)
            && Min(Channel(ColorStops[lo].color, k), Channel(ColorStops[hi].color, k))
               <= Channel(CredibilityColor(score), k)
               <= Max(Channel(ColorStops[lo].color, k), Channel(ColorStops[hi].color, k))
  {
    SegmentOfClamped(Clamp(score));
    ColorChannels(score, k);
  }

  /** Interpolating at factor 0 (or 1) reproduces the first (or second) stop's colour exactly. */
  lemma InterpolateAtEnds(c1: string, c2: string)
    requires IsLowerHexColor(c1) && IsLowerHexColor(c2)
    ensures IsHexColor(c1) && IsHexColor(c2)
    ensures InterpolateColor(c1, c2, 0.0) == c1
    ensures InterpolateColor(c1, c2, 1.0) == c2
  {
    LowerIsHex(c1);
    LowerIsHex(c2);
    forall k | 0 <= k < 3
      ensures Channel(InterpolateColor(c1, c2, 0.0), k) == Channel(c1, k)
      ensures Channel(InterpolateColor(c1, c2, 1.0), k) == Channel(c2, k)
    {
      InterpolatedChannel(c1, c2, 0.0, k);
      InterpolatedChannel(c1, c2, 1.0, k);
    }
    SameChannelsSameColor(InterpolateColor(c1, c2, 0.0), c1);
    SameChannelsSameColor(InterpolateColor(c1, c2, 1.0), c2);
  }

  lemma LowerIsHex(c: string)
    requires IsLowerHexColor(c)
    ensures IsHexColor(c)
  {
    assert forall i :: 0 <= i < 6 ==> IsLowerHexDigit(c[1..][i]);
  }

  /** Two lower-case colours with equal channels are the same string. */
  lemma SameChannelsSameColor(a: string, b: string)
    requires IsLowerHexColor(a) && IsLowerHexColor(b)
    requires IsHexColor(a) && IsHexColor(b)
    requires forall k :: 0 <= k < 3 ==> Channel(a, k) == Channel(b, k)
    ensures a == b
  {
    SamePair(a, b, 0);
    SamePair(a, b, 1);
    SamePair(a, b, 2);
    ColorIsPairs(a);
    ColorIsPairs(b);
  }

  lemma SamePair(a: string, b: string, k: nat)
    requires k < 3
    requires IsLowerHexColor(a) && IsLowerHexColor(b)
    requires IsHexColor(a) && IsHexColor(b)
    requires Channel(a, k) == Channel(b, k)
    ensures Pair(a, k) == Pair(b, k)
  {
    PairDigits(a, k);
    PairDigits(b, k);
    ParseHex2RoundTrip(Pair(a, k));
    ParseHex2RoundTrip(Pair(b, k));
  }

  /** At each stop's percent the output is that stop's colour exactly. */
  lemma ColorAtStops(k: nat)
    requires k < |ColorStops|
    ensures CredibilityColor(ColorStops[k].percent) == ColorStops[k].color
  {
    StopColorsWellFormed();
    if k == 0 {
      SegmentOfClamped(0);
      ColorUnfold(0, 0, 1, 0.0);
      InterpolateAtEnds(ColorStops[0].color, ColorStops[1].color);
    } else {
      assert ColorStops[k].percent == 25 * k;
      BoundaryOrTopSegment(k);
      ColorUnfold(25 * k, k - 1, k, 1.0);
      InterpolateAtEnds(ColorStops[k - 1].color, ColorStops[k].color);
    }
  }

  lemma ColorUnfold(s: int, lo: nat, hi: nat, f: real)
    requires 0 <= s <= 100
    requires Segment(s) == (lo, hi) && Factor(s, lo, hi) == f
    ensures IsHexColor(ColorStops[lo].color) && IsHexColor(ColorStops[hi].color)
    ensures CredibilityColor(s) == InterpolateColor(ColorStops[lo].color, ColorStops[hi].color, f)
  {
    StopColorsWellFormed();
  }

  /** Stop k > 0 is reached from below: segment k - 1 at factor 1. */
  lemma BoundaryOrTopSegment(k: nat)
    requires 1 <= k < |ColorStops|
    ensures Segment(25 * k) == (k - 1, k)
    ensures Factor(25 * k, k - 1, k) == 1.0
  {
    SegmentOfClamped(25 * k);
  }

  /** Only the clamped score matters: anything at or below 0 is red, anything at or
      above 100 is dark green. */
  lemma ColorOutOfRange(score: int)
    ensures score <= 0 ==> CredibilityColor(score) == "#ef4444"
    ensures score >= 100 ==> CredibilityColor(score) == "#15803d"
  {
    if score <= 0 {
      assert CredibilityColor(score) == CredibilityColor(0);
      ColorAtStops(0);
    }
    if score >= 100 {
      assert CredibilityColor(score) == CredibilityColor(100);
      ColorAtStops(4);
    }
  }

  /** Within one segment each channel moves monotonically, in the direction from the
      lower stop's channel to the upper stop's. */
  lemma ChannelMonotoneInSegment(s1: int, s2: int, k: nat)
    requires 0 <= s1 <= s2 <= 100 && k < 3
    requires Segment(s1) == Segment(s2)
    ensures var (lo, hi) := Segment(s1);
            && IsHexColor(ColorStops[lo].color) && IsHexColor(ColorStops[hi].color)
            && (Channel(ColorStops[lo].color, k) <= Channel(ColorStops[hi].color, k) ==>
                 Channel(CredibilityColor(s1), k) <= Channel(CredibilityColor(s2), k))
            && (Channel(ColorStops[lo].color, k) >= Channel(ColorStops[hi].color, k) ==>
                 Channel(CredibilityColor(s1), k) >= Channel(CredibilityColor(s2), k))
  {
    var (lo, hi) := Segment(s1);
    ColorChannels(s1, k);
    ColorChannels(s2, k);
    var f1, f2 := Factor(s1, lo, hi), Factor(s2, lo, hi);
    FactorMonotone(s1, s2, lo, hi);
    StopColorsWellFormed();
    LerpMonotone(Channel(ColorStops[lo].color, k), Channel(ColorStops[hi].color, k), f1, f2);
  }

  lemma FactorMonotone(s1: int, s2: int, lo: nat, hi: nat)
    requires lo < hi < |ColorStops|
    requires ColorStops[lo].percent <= s1 <= s2 <= ColorStops[hi].percent
    ensures Factor(s1, lo, hi) <= Factor(s2, lo, hi)
  {
    var den := (ColorStops[hi].percent - ColorStops[lo].percent) as real;
    var n1, n2 := (s1 - ColorStops[lo].percent) as real, (s2 - ColorStops[lo].percent) as real;
    assert n1 / den <= n2 / den by {
      assert n2 / den - n1 / den == (n2 - n1) / den;
    }
  }

  lemma LerpMonotone(a: int, b: int, f1: real, f2: real)
    requires 0.0 <= f1 <= f2 <= 1.0
    ensures a <= b ==> Lerp(a, b, f1) <= Lerp(a, b, f2)
    ensures a >= b ==> Lerp(a, b, f1) >= Lerp(a, b, f2)
  {
    var d := (b - a) as real;
    assert d * f2 - d * f1 == d * (f2 - f1);
    ScaleWithin(d, f2 - f1);
  }

  // ---------------------------------------------------------------------------
  // Shimmer

  /** `getShimmerIntensity`: thresholds on the raw, unclamped score. */
  function ShimmerIntensity(score: int): (r: string)
    ensures r == "none" <==> score < 25
    ensures r == "low" <==> 25 <= score < 50
    ensures r == "medium" <==> 50 <= score < 75
    ensures r == "high" <==> 75 <= score
  {
    if score < 25 then "none"
    else if score < 50 then "low"
    else if score < 75 then "medium"
    else "high"
  }

  /** `getShimmerDuration`: the lookup table with its `2.5s` default. */
  function ShimmerDuration(intensity: string): (r: string)
    ensures r == "0s" <==> intensity == "none"
    ensures intensity == "low" ==> r == "3s"
    ensures intensity == "high" ==> r == "2s"
    ensures intensity !in {"none", "low", "high"} ==> r == "2.5s"
  {
    match intensity
    case "none" => "0s"
    case "low" => "3s"
    case "medium" => "2.5s"
    case "high" => "2s"
    case _ => "2.5s"
  }

  /** The animation stands still exactly for scores below 25, however far out of range. */
  lemma DurationZeroIffLowScore(score: int)
    ensures ShimmerDuration(ShimmerIntensity(score)) == "0s" <==> score < 25
    ensures score >= 100 ==> ShimmerDuration(ShimmerIntensity(score)) == "2s"
  {
  }
}
