/** Hexadecimal text: JavaScript's `parseInt(s, 16)`, the `#RRGGBB` colour form of
    CSS Color Module Level 4 (section 5.2) and Python's `bytes.fromhex`. */
module Hex {
  import opened Wrappers
  import opened Text

  newtype byte = x: int | 0 <= x < 256

  predicate IsHexDigit(c: char)
  {
    '0' <= c <= '9' || 'a' <= c <= 'f' || 'A' <= c <= 'F'
  }

  function DigitValue(c: char): (v: nat)
    requires IsHexDigit(c)
    ensures v < 16
  {
    if '0' <= c <= '9' then c as int - '0' as int
    else if 'a' <= c <= 'f' then c as int - 'a' as int + 10
    else c as int - 'A' as int + 10
  }

  /** The lower-case digit of a value below 16. */
  function DigitChar(v: nat): (c: char)
    requires v < 16
    ensures IsHexDigit(c) && DigitValue(c) == v
  {
    if v < 10 then ('0' as int + v) as char else ('a' as int + v - 10) as char
  }

  predicate AllHex(s: string)
  {
    forall i :: 0 <= i < |s| ==> IsHexDigit(s[i])
  }

  function Pow16(n: nat): (p: nat)
    ensures p >= 1
  {
    if n == 0 then 1 else 16 * Pow16(n - 1)
  }

  /** The number a string of hex digits denotes, most significant digit first. */
  function DigitsValue(d: string): (v: nat)
    requires AllHex(d)
    ensures v < Pow16(|d|)
  {
    if d == [] then 0 else DigitsValue(d[..|d| - 1]) * 16 + DigitValue(d[|d| - 1])
  }

  /** Length of the longest prefix of `s` made of hex digits. */
  function HexPrefixLength(s: string): (n: nat)
    ensures n <= |s| && AllHex(s[..n])
    ensures n < |s| ==> !IsHexDigit(s[n])
  {
    if s != [] && IsHexDigit(s[0]) then
      var n := 1 + HexPrefixLength(s[1..]);
      assert forall i :: 1 <= i < n ==> s[..n][i] == s[1..][..n - 1][i - 1];
      n
    else 0
  }

  /** `parseInt(s, 16)`: leading whitespace, an optional sign and an optional `0x`
      are skipped, then the longest run of hex digits is read; `None` is `NaN`. */
  function JsParseIntHex(s: string): (r: Option<int>)
  {
    var t := TrimStart(s);
    var negative := t != [] && t[0] == '-';
    var u := if t != [] && (t[0] == '-' || t[0] == '+') then t[1..] else t;
    var w := if |u| >= 2 && u[0] == '0' && (u[1] == 'x' || u[1] == 'X') then u[2..] else u;
    var n := HexPrefixLength(w);
    if n == 0 then None
    else
      var v: int := DigitsValue(w[..n]);
      Some(if negative then -v else v)
  }

  /** `s.substr(start, 2)` for `start >= 0`. */
  function Substr2(s: string, start: nat): (r: string)
    ensures |r| <= 2
  {
    var b := if start <= |s| then start else |s|;
    var e := if start + 2 <= |s| then start + 2 else |s|;
    s[b..e]
  }

  /** A `#RRGGBB` colour: a number sign followed by exactly six hex digits. */
  predicate IsHexColor(c: string)
  {
    |c| == 7 && c[0] == '#' && AllHex(c[1..])
  }

  /** The value of the two-digit channel starting at position `k` of a `#RRGGBB` colour. */
  function Channel(c: string, k: nat): (v: nat)
    requires IsHexColor(c) && 1 <= k <= 5
  {
    16 * DigitValue(c[k]) + DigitValue(c[k + 1])
  }

  /** What every call site of the integrated viewer computes: `color.replace('#', '')`
      then `parseInt(hex.substr(i, 2), 16)` for i = 0, 2, 4. */
  function ParseRgb(color: string): (rgb: (Option<int>, Option<int>, Option<int>))
    ensures rgb.0.Some? ==> -15 <= rgb.0.value <= 255
    ensures rgb.1.Some? ==> -15 <= rgb.1.value <= 255
    ensures rgb.2.Some? ==> -15 <= rgb.2.value <= 255
    ensures IsHexColor(color) ==>
      rgb == (Some(Channel(color, 1)), Some(Channel(color, 3)), Some(Channel(color, 5)))
  {
    var hex := ReplaceFirst(color, '#', "");
    var r := JsParseIntHex(Substr2(hex, 0));
    var g := JsParseIntHex(Substr2(hex, 2));
    var b := JsParseIntHex(Substr2(hex, 4));
    ParsedRange(Substr2(hex, 0));
    ParsedRange(Substr2(hex, 2));
    ParsedRange(Substr2(hex, 4));
    HexColorPairs(color);
    (r, g, b)
  }

  /** `parseInt(s.replace(/^#/, ''), 16)` as the simple viewer computes it. */
  function ParseHexNumber(color: string): (r: Option<int>)
    ensures IsHexColor(color) ==>
      r == Some(65536 * Channel(color, 1) + 256 * Channel(color, 3) + Channel(color, 5))
  {
    var s := if color != [] && color[0] == '#' then color[1..] else color;
    HexNumberOfColor(color);
    JsParseIntHex(s)
  }

  // ------------------------------------------------------ Python bytes.fromhex

  /** `bytes.fromhex(s)`: pairs of hex digits, ASCII whitespace allowed between
      pairs; `None` is the `ValueError`. */
  function PyFromHex(s: string): (r: Option<seq<byte>>)
    decreases |s|
  {
    if s == [] then Some([])
    else if IsPyAsciiSpace(s[0]) then PyFromHex(s[1..])
    else if |s| >= 2 && IsHexDigit(s[0]) && IsHexDigit(s[1]) then
      match PyFromHex(s[2..])
      case None => None
      case Some(rest) => Some([(16 * DigitValue(s[0]) + DigitValue(s[1])) as byte] + rest)
    else None
  }

  /** `data.hex()`: two lower-case digits per byte. */
  function ToHex(data: seq<byte>): (s: string)
    ensures |s| == 2 * |data| && AllHex(s)
  {
    if data == [] then []
    else [DigitChar(data[0] as nat / 16), DigitChar(data[0] as nat % 16)] + ToHex(data[1..])
  }

  // ---------------------------------------------------------------- lemmas

  lemma ParsedRange(s: string)
    requires |s| <= 2
    ensures JsParseIntHex(s).Some? ==> -15 <= JsParseIntHex(s).value <= 255
  {
    var t := TrimStart(s);
    var u := if t != [] && (t[0] == '-' || t[0] == '+') then t[1..] else t;
    var w := if |u| >= 2 && u[0] == '0' && (u[1] == 'x' || u[1] == 'X') then u[2..] else u;
    var n := HexPrefixLength(w);
    if n > 0 {
      var d := w[..n];
      if |d| == 2 {
        assert DigitsValue(d[..1]) < 16;
      }
    }
  }

  lemma HexColorPairs(color: string)
    ensures IsHexColor(color) ==>
      var hex := ReplaceFirst(color, '#', "");
      JsParseIntHex(Substr2(hex, 0)) == Some(Channel(color, 1)) &&
      JsParseIntHex(Substr2(hex, 2)) == Some(Channel(color, 3)) &&
      JsParseIntHex(Substr2(hex, 4)) == Some(Channel(color, 5))
  {
    if IsHexColor(color) {
      var hex := ReplaceFirst(color, '#', "");
      assert IndexOf(color, '#') == 0;
      assert hex == color[1..];
      ParsePair(hex, 0, color, 1);
      ParsePair(hex, 2, color, 3);
      ParsePair(hex, 4, color, 5);
    }
  }

  lemma ParsePair(hex: string, i: nat, color: string, k: nat)
    requires IsHexColor(color) && 1 <= k <= 5 && hex == color[1..] && i == k - 1
    ensures JsParseIntHex(Substr2(hex, i)) == Some(Channel(color, k))
  {
    var s := Substr2(hex, i);
    assert s == [color[k], color[k + 1]];
    assert IsHexDigit(s[0]) && IsHexDigit(s[1]);
    assert !IsJsSpace(s[0]);
    assert TrimStart(s) == s;
    assert HexPrefixLength(s[1..]) == 1;
    assert s[..2] == s;
    assert s[..1] == [color[k]];
    assert DigitsValue(s[..1]) == DigitValue(color[k]);
  }

  lemma HexNumberOfColor(color: string)
    ensures IsHexColor(color) ==>
      JsParseIntHex(color[1..]) == Some(65536 * Channel(color, 1) + 256 * Channel(color, 3) + Channel(color, 5))
  {
    if IsHexColor(color) {
      var s := color[1..];
      assert !IsJsSpace(s[0]);
      assert TrimStart(s) == s;
      assert HexPrefixLength(s) == 6;
      assert s[..6] == s;
      SixDigits(color);
    }
  }

  lemma AllHexConcat(a: string, b: string)
    requires AllHex(a) && AllHex(b)
    ensures AllHex(a + b)
  {
    forall i | 0 <= i < |a + b| ensures IsHexDigit((a + b)[i]) {
      if i >= |a| { assert (a + b)[i] == b[i - |a|]; }
    }
  }

  lemma {:induction false} DigitsValueAppend(a: string, b: string)
    requires AllHex(a) && AllHex(b)
    ensures AllHex(a + b)
    ensures DigitsValue(a + b) == DigitsValue(a) * Pow16(|b|) + DigitsValue(b)
    decreases |b|
  {
    AllHexConcat(a, b);
    if b == [] {
      assert a + b == a;
    } else {
      var b', last := b[..|b| - 1], b[|b| - 1];
      var ab := a + b;
      DigitsSnoc(b);
      DigitsValueAppend(a, b');
      DigitsSnoc(ab);
      assert ab[..|ab| - 1] == a + b' && ab[|ab| - 1] == last;
      ShiftDigit(DigitsValue(a), Pow16(|b'|), DigitsValue(b'), DigitValue(last), DigitsValue(ab), DigitsValue(b), Pow16(|b|));
    }
  }

  /** `DigitsValue` unfolded once. */
  lemma DigitsSnoc(s: string)
    requires AllHex(s) && s != []
    ensures AllHex(s[..|s| - 1])
    ensures DigitsValue(s) == DigitsValue(s[..|s| - 1]) * 16 + DigitValue(s[|s| - 1])
  {
  }

  /** One more digit after both `x` followed by `y` and `y` alone. */
  lemma ShiftDigit(x: int, p: int, y: int, d: int, xyd: int, yd: int, q: int)
    requires xyd == (x * p + y) * 16 + d && yd == y * 16 + d && q == 16 * p
    ensures xyd == x * q + yd
  {
    var xp := x * p;
    assert (xp + y) * 16 == xp * 16 + y * 16;
    MulShift(x, p);
  }

  lemma MulShift(x: int, p: int)
    ensures (x * p) * 16 == x * (16 * p)
  {
  }

  lemma TwoDigits(d: string)
    requires AllHex(d) && |d| == 2
    ensures DigitsValue(d) == 16 * DigitValue(d[0]) + DigitValue(d[1])
  {
    assert d[..1][..0] == [];
  }

  lemma SixDigits(color: string)
    requires IsHexColor(color)
    ensures DigitsValue(color[1..]) == 65536 * Channel(color, 1) + 256 * Channel(color, 3) + Channel(color, 5)
  {
    var r, g, b := color[1..3], color[3..5], color[5..7];
    assert AllHex(r) && AllHex(g) && AllHex(b);
    TwoDigits(r);
    TwoDigits(g);
    TwoDigits(b);
    assert r[0] == color[1] && r[1] == color[2] && g[0] == color[3] && g[1] == color[4];
    assert b[0] == color[5] && b[1] == color[6];
    DigitsValueAppend(r, g);
    DigitsValueAppend(r + g, b);
    SplitSix(color);
    assert Pow16(2) == 256 by {
      assert Pow16(1) == 16;
    }
    ThreeBytes(DigitsValue(r), DigitsValue(g), DigitsValue(b), DigitsValue(r + g), DigitsValue(r + g + b));
  }

  lemma SplitSix<T>(s: seq<T>)
    requires |s| == 7
    ensures s[1..] == s[1..3] + s[3..5] + s[5..7]
  {
  }

  lemma ThreeBytes(x: int, y: int, z: int, xy: int, xyz: int)
    requires xy == x * 256 + y && xyz == xy * 256 + z
    ensures xyz == 65536 * x + 256 * y + z
  {
  }

  /** Encoding bytes as hex and decoding them again gives the same bytes. */
  lemma {:induction false} FromHexToHex(data: seq<byte>)
    ensures PyFromHex(ToHex(data)) == Some(data)
  {
    if data != [] {
      var s := ToHex(data);
      FromHexToHex(data[1..]);
      assert s[2..] == ToHex(data[1..]);
      var hi := data[0] as nat / 16;
      var lo := data[0] as nat % 16;
      assert !IsPyAsciiSpace(s[0]);
      assert (16 * DigitValue(s[0]) + DigitValue(s[1])) as byte == data[0];
      assert [data[0]] + data[1..] == data;
    }
  }

  /** A run of hex digits of odd length has no pair for its last digit. */
  lemma {:induction false} FromHexOddDigits(s: string)
    requires AllHex(s) && |s| % 2 == 1
    ensures PyFromHex(s) == None
    decreases |s|
  {
    assert !IsPyAsciiSpace(s[0]);
    if |s| >= 3 {
      FromHexOddDigits(s[2..]);
    }
  }
}
