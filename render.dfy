/**
 * The value computations of the render system (src/ecs/systems/render.ts):
 * the `#rrggbb` fill colour string of an entity and the scaled circle it is
 * drawn as. The canvas calls themselves are not modelled.
 */
module Render {
  import opened Ecs
  import MouseCapture

  /** A character `toString(16)` can produce for a non-negative integer. */
  predicate IsHexDigit(ch: char)
  {
    '0' <= ch <= '9' || 'a' <= ch <= 'f'
  }

  /** The lowercase hex digit for 0 <= d < 16. */
  function HexDigit(d: nat): (ch: char)
    requires d < 16
    ensures IsHexDigit(ch)
    ensures ch == '0' <==> d == 0
  {
    if d < 10 then ('0' as int + d) as char else ('a' as int + d - 10) as char
  }

  /** The value of one hex digit. */
  function DigitValue(ch: char): (d: nat)
    requires IsHexDigit(ch)
    ensures d < 16
  {
    if ch <= '9' then ch as int - '0' as int else ch as int - 'a' as int + 10
  }

  /** Reading a digit back gives the value it was written for. */
  lemma DigitRoundTrip(d: nat)
    requires d < 16
    ensures DigitValue(HexDigit(d)) == d
  {
  }

  /** `n.toString(16)` for a non-negative integer: lowercase digits, most significant first. */
  function ToHex(n: nat): (s: string)
    ensures |s| >= 1 && s[|s| - 1] == HexDigit(n % 16)
    ensures n < 16 <==> |s| == 1
    decreases n
  {
    if n < 16 then [HexDigit(n)] else ToHex(n / 16) + [HexDigit(n % 16)]
  }

  /** A string made only of hex digits. */
  predicate AllHexDigits(s: string)
  {
    forall i :: 0 <= i < |s| ==> IsHexDigit(s[i])
  }

  /** The value of a string of hex digits, most significant first; empty reads as 0. */
  function ParseHex(s: string): (n: nat)
    requires AllHexDigits(s)
  {
    if s == [] then 0 else ParseHex(s[..|s| - 1]) * 16 + DigitValue(s[|s| - 1])
  }

  /** `toString(16)` writes only hex digits, at least one, with no leading zero unless n is 0. */
  lemma {:induction false} ToHexWellFormed(n: nat)
    ensures |ToHex(n)| >= 1 && AllHexDigits(ToHex(n))
    ensures ToHex(n)[0] == '0' <==> n == 0
    decreases n
  {
    if n >= 16 {
      ToHexWellFormed(n / 16);
    }
  }

  /** Parsing what `toString(16)` wrote gives back the number. */
  lemma {:induction false} ParseToHex(n: nat)
    ensures AllHexDigits(ToHex(n)) && ParseHex(ToHex(n)) == n
    decreases n
  {
    ToHexWellFormed(n);
    if n < 16 {
      DigitRoundTrip(n);
      assert ToHex(n)[..0] == [];
    } else {
      ParseToHex(n / 16);
      DigitRoundTrip(n % 16);
      assert ToHex(n)[..|ToHex(n)| - 1] == ToHex(n / 16);
    }
  }

  /** 16 to the power k. */
  function Pow16(k: nat): (p: nat)
    ensures p >= 1
  {
    if k == 0 then 1 else 16 * Pow16(k - 1)
  }

  /** `toString(16)` needs at most k digits exactly for the numbers below 16^k. */
  lemma {:induction false} ToHexLength(n: nat, k: nat)
    requires k >= 1
    ensures |ToHex(n)| <= k <==> n < Pow16(k)
    decreases n
  {
    if n >= 16 {
      if k == 1 {
        assert |ToHex(n)| == |ToHex(n / 16)| + 1;
      } else {
        ToHexLength(n / 16, k - 1);
      }
    }
  }

  /** `s.padStart(width, fill)` with a one-character fill. */
  function PadStart(s: string, width: nat, fill: char): (r: string)
    ensures |s| >= width ==> r == s
    ensures |s| < width ==> |r| == width
    ensures r[|r| - |s|..] == s
    ensures forall i :: 0 <= i < |r| - |s| ==> r[i] == fill
  {
    if |s| >= width then s else seq(width - |s|, _ => fill) + s
  }

  /** A string of zeros in front of hex digits does not change their value. */
  lemma {:induction false} LeadingZeros(z: string, s: string)
    requires forall i :: 0 <= i < |z| ==> z[i] == '0'
    requires AllHexDigits(s)
    ensures AllHexDigits(z + s) && ParseHex(z + s) == ParseHex(s)
    decreases |s|, |z|
  {
    if s == [] {
      assert z + s == z;
      if z != [] {
        LeadingZeros(z[..|z| - 1], []);
        assert z[..|z| - 1] + [] == z[..|z| - 1];
      }
    } else {
      LeadingZeros(z, s[..|s| - 1]);
      assert (z + s)[..|z + s| - 1] == z + s[..|s| - 1];
    }
  }

  /** The fill colour string: `#${color.toString(16).padStart(6, '0')}`. */
  function ColorString(color: nat): (s: string)
    ensures |s| >= 7 && |s| > |ToHex(color)| && s[0] == '#'
    ensures s[|s| - |ToHex(color)|..] == ToHex(color)
    ensures forall i :: 1 <= i < |s| - |ToHex(color)| ==> s[i] == '0'
  {
    "#" + PadStart(ToHex(color), 6, '0')
  }

  /**
   * The colour string is `#` followed by lowercase hex digits that read back
   * as the colour, whatever its size.
   */
  lemma ColorStringRoundTrip(color: nat)
    ensures |ColorString(color)| >= 7 && ColorString(color)[0] == '#'
    ensures AllHexDigits(ColorString(color)[1..])
    ensures ParseHex(ColorString(color)[1..]) == color
  {
    var h := ToHex(color);
    ParseToHex(color);
    ZeroPaddingKeepsValue(h, 6);
    assert ColorString(color)[1..] == PadStart(h, 6, '0');
  }

  /** Padding hex digits with zeros on the left keeps them hex digits of the same value. */
  lemma ZeroPaddingKeepsValue(h: string, width: nat)
    requires AllHexDigits(h)
    ensures AllHexDigits(PadStart(h, width, '0'))
    ensures ParseHex(PadStart(h, width, '0')) == ParseHex(h)
  {
    var padded := PadStart(h, width, '0');
    var z := padded[..|padded| - |h|];
    assert padded == z + h;
    LeadingZeros(z, h);
  }

  /** Colours below 0x1000000 give exactly `#` and six digits; larger ones are never cut short. */
  lemma ColorStringLength(color: nat)
    ensures color < 0x100_0000 ==> |ColorString(color)| == 7
    ensures color >= 0x100_0000 ==> |ColorString(color)| > 7 && ColorString(color)[1..] == ToHex(color)
  {
    ToHexLength(color, 6);
    assert Pow16(6) == 0x100_0000 by {
      assert Pow16(2) == 256;
      assert Pow16(4) == 65536;
    }
  }

  /** A nonzero factor can be cancelled from both sides of an equation. */
  lemma CancelFactor(a: real, b: real, s: real, m: real)
    requires s != 0.0 && a * s == m && m == b * s
    ensures a == b
  {
    assert (a - b) * s == 0.0;
  }

  /** A circle on the canvas, in screen units. */
  datatype Circle = Circle(x: real, y: real, radius: real)

  /** The smaller of the two canvas scales, `Math.min(scaleX, scaleY)`. */
  function MinScale(scaleX: real, scaleY: real): (m: real)
    ensures m <= scaleX && m <= scaleY && (m == scaleX || m == scaleY)
  {
    if scaleX <= scaleY then scaleX else scaleY
  }

  /** The circle an entity at `p` with render radius `radius` is drawn as. */
  function DrawnCircle(p: Vec2, radius: real, scaleX: real, scaleY: real): (c: Circle)
    ensures c.x == p.x * scaleX && c.y == p.y * scaleY
    ensures c.radius == radius * MinScale(scaleX, scaleY)
    ensures c.radius == radius * scaleX || c.radius == radius * scaleY
    ensures scaleX == scaleY ==> c.radius == radius * scaleX
  {
    Circle(p.x * scaleX, p.y * scaleY, radius * MinScale(scaleX, scaleY))
  }

  /** The drawn centre maps back to the entity's position under the pointer's screen-to-world transform. */
  lemma DrawnCentreMapsBack(p: Vec2, radius: real, scaleX: real, scaleY: real)
    requires scaleX != 0.0 && scaleY != 0.0
    ensures var c := DrawnCircle(p, radius, scaleX, scaleY);
      MouseCapture.ScreenToWorld(c.x, c.y, scaleX, scaleY) == p
  {
    var c := DrawnCircle(p, radius, scaleX, scaleY);
    var w := MouseCapture.ScreenToWorld(c.x, c.y, scaleX, scaleY);
    CancelFactor(w.x, p.x, scaleX, c.x);
    CancelFactor(w.y, p.y, scaleY, c.y);
  }

  /**
   * A non-negative radius is scaled by the smaller scale, so the drawn circle
   * is never larger than the radius scaled along either axis.
   */
  lemma DrawnRadiusFitsBothScales(p: Vec2, radius: real, scaleX: real, scaleY: real)
    requires radius >= 0.0
    ensures var c := DrawnCircle(p, radius, scaleX, scaleY);
      c.radius <= radius * scaleX && c.radius <= radius * scaleY &&
      (c.radius == radius * scaleX || c.radius == radius * scaleY)
  {
    var m := MinScale(scaleX, scaleY);
    assert radius * scaleX - radius * m == radius * (scaleX - m);
    assert radius * scaleY - radius * m == radius * (scaleY - m);
  }
}
