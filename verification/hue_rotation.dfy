/** RGB to HSV and back, over the reals, and rotation of the hue. */
module HueRotation {
  import opened Basics

  datatype Rgb = Rgb(r: real, g: real, b: real)

  datatype Hsv = Hsv(h: real, s: real, v: real)

  function Max3(c: Rgb): (m: real)
    ensures m >= c.r && m >= c.g && m >= c.b && (m == c.r || m == c.g || m == c.b)
  {
    if c.r >= c.g && c.r >= c.b then c.r else if c.g >= c.b then c.g else c.b
  }

  function Min3(c: Rgb): (m: real)
    ensures m <= c.r && m <= c.g && m <= c.b && (m == c.r || m == c.g || m == c.b)
  {
    if c.r <= c.g && c.r <= c.b then c.r else if c.g <= c.b then c.g else c.b
  }

  predicate InUnit(x: real) { 0.0 <= x <= 1.0 }

  predicate InCube(c: Rgb) { InUnit(c.r) && InUnit(c.g) && InUnit(c.b) }

  /** What is left of `x` after taking the whole multiples of six out, towards zero. */
  function Fmod6(x: real): real {
    if x >= 0.0 then x - 6.0 * ((x / 6.0).Floor as real) else x + 6.0 * ((-x / 6.0).Floor as real)
  }

  function Fraction(x: real): (f: real)
    ensures 0.0 <= f < 1.0
  {
    x - (x.Floor as real)
  }

  /** The hue in sixths of a turn, before it is made positive. */
  function Sixths(c: Rgb, max: real, delta: real): real
    requires delta > 0.0
  {
    if max == c.r then Fmod6((c.g - c.b) / delta)
    else if max == c.g then (c.b - c.r) / delta + 2.0
    else (c.r - c.g) / delta + 4.0
  }

  function Turn(sixths: real): real {
    var hue := sixths / 6.0;
    if hue < 0.0 then hue + 1.0 else hue
  }

  /** `rgbToHsv`. */
  function RgbToHsv(c: Rgb): Hsv {
    var max := Max3(c);
    var delta := max - Min3(c);
    Hsv(if delta > 0.0 then Turn(Sixths(c, max, delta)) else 0.0, if max > 0.0 then delta / max else 0.0, max)
  }

  function Sector(k: int, v: real, p: real, q: real, t: real): Rgb {
    if k == 0 then Rgb(v, t, p)
    else if k == 1 then Rgb(q, v, p)
    else if k == 2 then Rgb(p, v, t)
    else if k == 3 then Rgb(p, q, v)
    else if k == 4 then Rgb(t, p, v)
    else Rgb(v, p, q)
  }

  /** `hsvToRgb`. */
  function HsvToRgb(c: Hsv): Rgb {
    var hue := Fraction(c.h);
    var s, v := Clamp(c.s), Clamp(c.v);
    if s <= 0.0 then Rgb(v, v, v)
    else
      var scaled := hue * 6.0;
      var sector := scaled.Floor;
      var fraction := scaled - (sector as real);
      Sector(sector % 6, v, v * (1.0 - s), v * (1.0 - s * fraction), v * (1.0 - s * (1.0 - fraction)))
  }

  /** `rotateHue`. */
  function RotateHue(c: Rgb, offset: real): Rgb {
    var hsv := RgbToHsv(c);
    HsvToRgb(hsv.(h := Fraction(hsv.h + offset)))
  }

  // ---- the two forms of a colour ----

  /**
   The colour of sector `k` with highest channel `v` and spread `d`; `df` is the part of the spread at
   the place in the sector.
   */
  function Spread(k: int, v: real, d: real, df: real): Rgb {
    Sector(k, v, v - d, v - df, v - (d - df))
  }

  predicate IsPlace(k: int, d: real, df: real, f: real) {
    0 <= k < 6 && d > 0.0 && 0.0 <= f < 1.0 && df == d * f
  }

  lemma Quotient(a: real, d: real, x: real)
    requires d != 0.0 && a == d * x
    ensures a / d == x
  {
  }

  lemma PartOfSpread(d: real, df: real, f: real)
    requires d > 0.0 && 0.0 <= f < 1.0 && df == d * f
    ensures 0.0 <= df < d
    ensures df == 0.0 ==> f == 0.0
    ensures df / d == f && (df - d) / d == f - 1.0 && d / d == 1.0
  {
    assert d * (1.0 - f) > 0.0;
    Quotient(df, d, f);
    assert df - d == d * (f - 1.0);
    Quotient(df - d, d, f - 1.0);
  }

  predicate Coloured(c: Hsv) {
    0.0 <= c.h < 1.0 && 0.0 < c.s <= 1.0 && 0.0 < c.v <= 1.0
  }

  lemma HsvToRgbIsSpread(c: Hsv, k: int, d: real, df: real, f: real)
    requires Coloured(c) && c.h * 6.0 == k as real + f && 0.0 <= f < 1.0 && d == c.v * c.s && df == d * f
    ensures HsvToRgb(c) == Spread(k, c.v, d, df) && 0 <= k < 6
  {
    assert Fraction(c.h) == c.h;
    assert (c.h * 6.0).Floor == k;
  }

  lemma PartOfValue(v: real, s: real) returns (d: real)
    requires v > 0.0 && 0.0 < s <= 1.0
    ensures d == v * s && 0.0 < d <= v && d / v == s
  {
    d := v * s;
    assert v * (1.0 - s) >= 0.0;
    Quotient(d, v, s);
  }

  /** The HSV form of a sector's colour. */
  lemma HsvOfSpread(k: int, v: real, d: real, df: real, f: real, s: real, h: real)
    requires IsPlace(k, d, df, f) && 0.0 < d <= v && d / v == s && h * 6.0 == k as real + f
    ensures var c := Spread(k, v, d, df);
            RgbToHsv(c) == Hsv(h, s, v) && Max3(c) == v && Min3(c) == v - d
  {
    PartOfSpread(d, df, f);
  }

  /** A coloured HSV triple survives the way to RGB and back, in every sector. */
  lemma HsvRoundTrip(c: Hsv)
    requires Coloured(c)
    ensures RgbToHsv(HsvToRgb(c)) == c
    ensures InCube(HsvToRgb(c)) && Max3(HsvToRgb(c)) == c.v && Min3(HsvToRgb(c)) == c.v - c.v * c.s
  {
    var k := (c.h * 6.0).Floor;
    var f := c.h * 6.0 - (k as real);
    var d := PartOfValue(c.v, c.s);
    var df := d * f;
    HsvToRgbIsSpread(c, k, d, df, f);
    HsvOfSpread(k, c.v, d, df, f, c.s, c.h);
  }

  // ---- from RGB ----

  lemma Ratio(a: real, d: real) returns (x: real)
    requires d > 0.0 && -d <= a <= d
    ensures x == a / d && d * x == a && -1.0 <= x <= 1.0
    ensures a < d ==> x < 1.0
    ensures a > -d ==> x > -1.0
    ensures a >= 0.0 ==> x >= 0.0
    ensures a < 0.0 ==> x < 0.0
    ensures a == d ==> x == 1.0
  {
    x := a / d;
  }

  /** The sector of a colour and how far into it: its hue in sixths is their sum. */
  lemma RgbIsSpread(c: Rgb, max: real, d: real) returns (k: int, df: real, f: real)
    requires max == Max3(c) && d == max - Min3(c) && d > 0.0
    ensures IsPlace(k, d, df, f) && Spread(k, max, d, df) == c
    ensures Turn(Sixths(c, max, d)) * 6.0 == k as real + f
  {
    if max == c.r {
      k, df, f := RedIsHighest(c, max, d);
    } else if max == c.g {
      k, df, f := GreenIsHighest(c, max, d);
    } else {
      k, df, f := BlueIsHighest(c, max, d);
    }
  }

  lemma RedIsHighest(c: Rgb, max: real, d: real) returns (k: int, df: real, f: real)
    requires max == Max3(c) && d == max - Min3(c) && d > 0.0 && max == c.r
    ensures IsPlace(k, d, df, f) && Spread(k, max, d, df) == c
    ensures Turn(Sixths(c, max, d)) * 6.0 == k as real + f
  {
    var x := Ratio(c.g - c.b, d);
    if c.g < c.b {
      k, df, f := 5, c.g - c.b + d, x + 1.0;
      assert d * f == d * x + d;
    } else if c.g - c.b < d {
      k, df, f := 0, c.g - c.b, x;
    } else {
      k, df, f := 1, 0.0, 0.0;
    }
  }

  lemma GreenIsHighest(c: Rgb, max: real, d: real) returns (k: int, df: real, f: real)
    requires max == Max3(c) && d == max - Min3(c) && d > 0.0 && max == c.g != c.r
    ensures IsPlace(k, d, df, f) && Spread(k, max, d, df) == c
    ensures Turn(Sixths(c, max, d)) * 6.0 == k as real + f
  {
    var x := Ratio(c.b - c.r, d);
    if c.b < c.r {
      k, df, f := 1, c.b - c.r + d, x + 1.0;
      assert d * f == d * x + d;
    } else if c.b - c.r < d {
      k, df, f := 2, c.b - c.r, x;
    } else {
      k, df, f := 3, 0.0, 0.0;
    }
  }

  lemma BlueIsHighest(c: Rgb, max: real, d: real) returns (k: int, df: real, f: real)
    requires max == Max3(c) && d == max - Min3(c) && d > 0.0 && max == c.b && c.b != c.r && c.b != c.g
    ensures IsPlace(k, d, df, f) && Spread(k, max, d, df) == c
    ensures Turn(Sixths(c, max, d)) * 6.0 == k as real + f
  {
    var x := Ratio(c.r - c.g, d);
    if c.r < c.g {
      k, df, f := 3, c.r - c.g + d, x + 1.0;
      assert d * f == d * x + d;
    } else {
      k, df, f := 4, c.r - c.g, x;
    }
  }

  lemma ColouredFrom(hsv: Hsv, max: real, d: real, k: int, df: real, f: real)
    requires IsPlace(k, d, df, f) && hsv.h * 6.0 == k as real + f && 0.0 < d <= max <= 1.0
    requires hsv.v == max && hsv.s == d / max
    ensures Coloured(hsv) && hsv.v * hsv.s == d
  {
    var s := Ratio(d, max);
    if s <= 0.0 {
      assert false;
    }
  }

  /** The HSV form of a colour with some spread. */
  lemma HsvOfColoured(c: Rgb, hsv: Hsv) returns (k: int, d: real, df: real, f: real)
    requires InCube(c) && Max3(c) > Min3(c) && hsv == RgbToHsv(c)
    ensures Coloured(hsv) && hsv.v == Max3(c) && hsv.v * hsv.s == d == Max3(c) - Min3(c)
    ensures IsPlace(k, d, df, f) && Spread(k, hsv.v, d, df) == c && hsv.h * 6.0 == k as real + f
  {
    var max := Max3(c);
    d := max - Min3(c);
    k, df, f := RgbIsSpread(c, max, d);
    ColouredFrom(hsv, max, d, k, df, f);
  }

  /** Any colour survives the way to HSV and back. */
  lemma RgbRoundTrip(c: Rgb)
    requires InCube(c)
    ensures HsvToRgb(RgbToHsv(c)) == c
  {
    var hsv := RgbToHsv(c);
    if Max3(c) > Min3(c) {
      var k, d, df, f := HsvOfColoured(c, hsv);
      HsvToRgbIsSpread(hsv, k, d, df, f);
    } else {
    }
  }

  // ---- rotation ----

  lemma FractionsAdd(x: real, y: real)
    ensures Fraction(Fraction(x) + y) == Fraction(x + y)
  {
    assert (x - (x.Floor as real) + y).Floor == (x + y).Floor - x.Floor;
  }

  /** The colour of a coloured triple: in the cube, with these extremes. */
  lemma TurnedColour(turned: Hsv, max: real, d: real)
    requires Coloured(turned) && turned.v == max && turned.v * turned.s == d
    ensures var rgb := HsvToRgb(turned);
            RgbToHsv(rgb) == turned && InCube(rgb) && Max3(rgb) == max && Min3(rgb) == max - d
  {
    HsvRoundTrip(turned);
  }

  lemma TurnKeepsColour(hsv: Hsv, turned: Hsv, d: real)
    requires Coloured(hsv) && hsv.v * hsv.s == d
    requires 0.0 <= turned.h < 1.0 && turned.s == hsv.s && turned.v == hsv.v
    ensures Coloured(turned) && turned.v * turned.s == d
  {
  }

  /** What rotation does to the HSV form of a colour with some spread. */
  lemma RotationTurnsHue(c: Rgb, offset: real, hsv: Hsv, turned: Hsv)
    requires InCube(c) && Max3(c) > Min3(c) && hsv == RgbToHsv(c)
    requires turned == Hsv(Fraction(hsv.h + offset), hsv.s, hsv.v)
    ensures Coloured(turned) && RotateHue(c, offset) == HsvToRgb(turned)
    ensures RgbToHsv(HsvToRgb(turned)) == turned && InCube(HsvToRgb(turned))
    ensures Max3(HsvToRgb(turned)) == Max3(c) && Min3(HsvToRgb(turned)) == Min3(c)
  {
    var k, d, df, f := HsvOfColoured(c, hsv);
    TurnKeepsColour(hsv, turned, d);
    TurnedColour(turned, Max3(c), d);
  }

  /** Rotating keeps the highest and the lowest channel, and so the colour in the cube. */
  lemma RotationKeepsExtremes(c: Rgb, offset: real)
    requires InCube(c)
    ensures var d := RotateHue(c, offset);
            InCube(d) && Max3(d) == Max3(c) && Min3(d) == Min3(c)
  {
    if Max3(c) == Min3(c) {
    } else {
      var hsv := RgbToHsv(c);
      RotationTurnsHue(c, offset, hsv, Hsv(Fraction(hsv.h + offset), hsv.s, hsv.v));
    }
  }

  lemma ColouredRotationsAdd(c: Rgb, a: real, b: real, hsv: Hsv, once: Rgb)
    requires InCube(c) && Max3(c) > Min3(c) && hsv == RgbToHsv(c)
    requires once == HsvToRgb(Hsv(Fraction(hsv.h + a), hsv.s, hsv.v))
    ensures RotateHue(c, a) == once && RotateHue(once, b) == RotateHue(c, a + b)
  {
    var turned := Hsv(Fraction(hsv.h + a), hsv.s, hsv.v);
    RotationTurnsHue(c, a, hsv, turned);
    FractionsAdd(hsv.h + a, b);
    var twice := Hsv(Fraction(turned.h + b), hsv.s, hsv.v);
    assert twice == Hsv(Fraction(hsv.h + (a + b)), hsv.s, hsv.v);
    RotationTurnsHue(once, b, turned, twice);
    RotationTurnsHue(c, a + b, hsv, twice);
  }

  /** Rotating by `a` and then by `b` is rotating by their sum. */
  lemma RotationsAdd(c: Rgb, a: real, b: real)
    requires InCube(c)
    ensures RotateHue(RotateHue(c, a), b) == RotateHue(c, a + b)
  {
    if Max3(c) == Min3(c) {
    } else {
      var hsv := RgbToHsv(c);
      ColouredRotationsAdd(c, a, b, hsv, HsvToRgb(Hsv(Fraction(hsv.h + a), hsv.s, hsv.v)));
    }
  }

  /** A whole number of turns changes nothing; with the sums above, rotation is an action of the circle. */
  lemma WholeTurnsAreNothing(c: Rgb, turns: int)
    requires InCube(c)
    ensures RotateHue(c, turns as real) == c
  {
    if Max3(c) == Min3(c) {
    } else {
      var hsv := RgbToHsv(c);
      HueIsInTurn(c, hsv, turns);
      RgbRoundTrip(c);
    }
  }

  lemma HueIsInTurn(c: Rgb, hsv: Hsv, turns: int)
    requires InCube(c) && Max3(c) > Min3(c) && hsv == RgbToHsv(c)
    ensures Fraction(hsv.h + (turns as real)) == hsv.h
  {
    var k, d, df, f := HsvOfColoured(c, hsv);
    WholeTurnDrops(hsv.h, turns);
  }

  lemma WholeTurnDrops(h: real, turns: int)
    requires 0.0 <= h < 1.0
    ensures Fraction(h + (turns as real)) == h
  {
    assert (h + (turns as real)).Floor == turns;
  }

  // ---- which colour is where ----

  /**
   How much of a channel a hue of `x` sixths has: all of it about the channel's own place, none of it
   opposite, and a share in between. Red lies at 0, green at 2 and blue at 4.
   */
  predicate Shares(k: int, f: real, r: real, g: real, b: real) {
    match k
    case 0 => r == 1.0 && g == f && b == 0.0
    case 1 => r == 1.0 - f && g == 1.0 && b == 0.0
    case 2 => r == 0.0 && g == 1.0 && b == f
    case 3 => r == 0.0 && g == 1.0 - f && b == 1.0
    case 4 => r == f && g == 0.0 && b == 1.0
    case _ => r == 1.0 && g == 0.0 && b == 1.0 - f
  }

  lemma SharesByDistance(k: int, f: real, x: real)
    requires 0 <= k < 6 && 0.0 <= f < 1.0 && x == k as real + f
    ensures Shares(k, f, Clamp(Abs(x - 3.0) - 1.0), Clamp(2.0 - Abs(x - 2.0)), Clamp(2.0 - Abs(x - 4.0)))
  {
  }

  lemma ChannelIs(v: real, s: real, f: real)
    ensures v * (1.0 - s) + v * s * 1.0 == v && v * (1.0 - s) + v * s * 0.0 == v * (1.0 - s)
    ensures v * (1.0 - s) + v * s * f == v * (1.0 - s * (1.0 - f))
    ensures v * (1.0 - s) + v * s * (1.0 - f) == v * (1.0 - s * f)
  {
    assert v * (1.0 - s) == v - v * s;
    assert v * (1.0 - s * (1.0 - f)) == v - v * s + v * s * f;
    assert v * (1.0 - s * f) == v - v * s * f;
    assert v * s * (1.0 - f) == v * s - v * s * f;
  }

  function Between(v: real, s: real, share: real): real {
    v * (1.0 - s) + v * s * share
  }

  lemma SectorIs(k: int, v: real, s: real, f: real)
    ensures var none, all := Between(v, s, 0.0), Between(v, s, 1.0);
            var some, rest := Between(v, s, f), Between(v, s, 1.0 - f);
            Sector(k, v, v * (1.0 - s), v * (1.0 - s * f), v * (1.0 - s * (1.0 - f))) ==
            if k == 0 then Rgb(all, some, none)
            else if k == 1 then Rgb(rest, all, none)
            else if k == 2 then Rgb(none, all, some)
            else if k == 3 then Rgb(none, rest, all)
            else if k == 4 then Rgb(some, none, all)
            else Rgb(all, none, rest)
  {
    ChannelIs(v, s, f);
  }

  lemma SectorOf(c: Hsv, k: int, f: real)
    requires 0.0 <= c.h < 1.0 && 0.0 < c.s <= 1.0 && InUnit(c.v) && c.h * 6.0 == k as real + f && 0.0 <= f < 1.0
    ensures 0 <= k < 6
    ensures HsvToRgb(c) ==
            Sector(k, c.v, c.v * (1.0 - c.s), c.v * (1.0 - c.s * f), c.v * (1.0 - c.s * (1.0 - f)))
  {
    assert Fraction(c.h) == c.h;
    assert (c.h * 6.0).Floor == k;
  }

  lemma SectorByShares(v: real, s: real, k: int, f: real, r: real, g: real, b: real)
    requires 0 <= k < 6 && Shares(k, f, r, g, b)
    ensures Sector(k, v, v * (1.0 - s), v * (1.0 - s * f), v * (1.0 - s * (1.0 - f))) ==
            Rgb(Between(v, s, r), Between(v, s, g), Between(v, s, b))
  {
    SectorIs(k, v, s, f);
  }

  lemma GreyByShares(c: Hsv, share: real)
    requires c.s == 0.0 && InUnit(c.v)
    ensures HsvToRgb(c) == Rgb(c.v, c.v, c.v) && Between(c.v, c.s, share) == c.v
  {
    assert c.v * 0.0 * share == 0.0;
  }

  lemma ColouredByShares(c: Hsv, k: int, f: real, r: real, g: real, b: real, rgb: Rgb)
    requires 0.0 <= c.h < 1.0 && 0.0 < c.s <= 1.0 && InUnit(c.v) && c.h * 6.0 == k as real + f && 0.0 <= f < 1.0
    requires 0 <= k < 6 && Shares(k, f, r, g, b)
    requires rgb == Sector(k, c.v, c.v * (1.0 - c.s), c.v * (1.0 - c.s * f), c.v * (1.0 - c.s * (1.0 - f)))
    ensures rgb == Rgb(Between(c.v, c.s, r), Between(c.v, c.s, g), Between(c.v, c.s, b))
  {
    SectorByShares(c.v, c.s, k, f, r, g, b);
  }

  lemma ColourByShares(c: Hsv, k: int, f: real, r: real, g: real, b: real)
    requires 0.0 <= c.h < 1.0 && InUnit(c.s) && InUnit(c.v) && c.h * 6.0 == k as real + f && 0.0 <= f < 1.0
    requires 0 <= k < 6 && Shares(k, f, r, g, b)
    ensures HsvToRgb(c) == Rgb(Between(c.v, c.s, r), Between(c.v, c.s, g), Between(c.v, c.s, b))
  {
    if c.s > 0.0 {
      SectorOf(c, k, f);
      ColouredByShares(c, k, f, r, g, b, HsvToRgb(c));
    } else {
      GreyByShares(c, r);
      GreyByShares(c, g);
      GreyByShares(c, b);
    }
  }

  /** The colour of a triple, channel by channel. */
  lemma HsvToRgbByDistance(c: Hsv)
    requires 0.0 <= c.h < 1.0 && InUnit(c.s) && InUnit(c.v)
    ensures var x := 6.0 * c.h;
            HsvToRgb(c) == Rgb(Between(c.v, c.s, Clamp(Abs(x - 3.0) - 1.0)),
                               Between(c.v, c.s, Clamp(2.0 - Abs(x - 2.0))),
                               Between(c.v, c.s, Clamp(2.0 - Abs(x - 4.0))))
  {
    var x := 6.0 * c.h;
    var k := x.Floor;
    SharesByDistance(k, x - (k as real), x);
    ColourByShares(c, k, x - (k as real), Clamp(Abs(x - 3.0) - 1.0), Clamp(2.0 - Abs(x - 2.0)),
                   Clamp(2.0 - Abs(x - 4.0)));
  }

  /** Rotating a coloured colour adds the offset to its hue, up to whole turns, and keeps the rest. */
  lemma RotationAddsToTheHue(c: Rgb, offset: real)
    requires InCube(c) && Max3(c) > Min3(c)
    ensures var before, after := RgbToHsv(c), RgbToHsv(RotateHue(c, offset));
            && 0.0 <= after.h < 1.0 && after.h == before.h + offset - ((before.h + offset).Floor as real)
            && after.s == before.s && after.v == before.v
  {
    var hsv := RgbToHsv(c);
    RotationTurnsHue(c, offset, hsv, Hsv(Fraction(hsv.h + offset), hsv.s, hsv.v));
  }

  /** A grey has neither hue nor saturation, and no rotation changes it. */
  lemma GreyIsGrey(c: Rgb, offset: real)
    requires InCube(c) && Max3(c) == Min3(c)
    ensures RgbToHsv(c) == Hsv(0.0, 0.0, c.r) && RotateHue(c, offset) == c
  {
  }
}
