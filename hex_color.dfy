/**
 * `UIColor.init?(hex:)`: a colour from a string `#RRGGBBAA`. The string must
 * start with `#` and have exactly eight characters after it; Foundation's
 * `Scanner.scanHexInt64` then reads those characters as a number, whose four
 * bytes, most significant first, are red, green, blue and alpha. Channels are
 * kept as the integers 0..255 (the source divides them by 255 as floating point).
 */
module HexColor {
  import opened Wrappers

  /** A colour as four byte channels. */
  datatype Rgba = Rgba(r: int, g: int, b: int, a: int)

  predicate IsByte(x: int) { 0 <= x < 0x100 }

  predicate IsHexDigit(c: char) {
    '0' <= c <= '9' || 'a' <= c <= 'f' || 'A' <= c <= 'F'
  }

  function DigitValue(c: char): (v: nat)
    requires IsHexDigit(c)
    ensures v < 16
  {
    if '0' <= c <= '9' then c as int - '0' as int
    else if 'a' <= c <= 'f' then c as int - 'a' as int + 10
    else c as int - 'A' as int + 10
  }

  predicate AllHex(s: string) {
    forall i :: 0 <= i < |s| ==> IsHexDigit(s[i])
  }

  function Pow16(k: nat): (p: nat)
    ensures p >= 1
  {
    if k == 0 then 1 else 16 * Pow16(k - 1)
  }

  /** The number a string of hex digits denotes, most significant digit first; it has at most |s| digits. */
  function HexValue(s: string): (n: nat)
    requires AllHex(s)
    ensures n < Pow16(|s|)
  {
    if s == [] then 0 else HexValue(s[..|s| - 1]) * 16 + DigitValue(s[|s| - 1])
  }

  /**
   * `(n & 0xff000000) >> 24`, `(n & 0x00ff0000) >> 16`, `(n & 0x0000ff00) >> 8`
   * and `n & 0x000000ff`: the four low bytes of `n`, which put back together
   * give the low 32 bits of `n`.
   */
  function Channels(n: nat): (c: Rgba)
    ensures IsByte(c.r) && IsByte(c.g) && IsByte(c.b) && IsByte(c.a)
    ensures c.r * 0x100_0000 + c.g * 0x1_0000 + c.b * 0x100 + c.a == n % 0x1_0000_0000
  {
    DivChain(n);
    Rgba((n / 0x100_0000) % 0x100, (n / 0x1_0000) % 0x100, (n / 0x100) % 0x100, n % 0x100)
  }

  /** Dividing by 256 repeatedly is dividing by a power of 256, and the remainders are the bytes. */
  lemma DivChain(n: nat)
    ensures n / 0x1_0000 == (n / 0x100) / 0x100
    ensures n / 0x100_0000 == ((n / 0x100) / 0x100) / 0x100
    ensures (n / 0x100_0000) % 0x100 * 0x100_0000 + (n / 0x1_0000) % 0x100 * 0x1_0000
            + (n / 0x100) % 0x100 * 0x100 + n % 0x100 == n % 0x1_0000_0000
  {
  }

  /**
   * `UIColor(hex:)`: nil unless `hex` is `#` followed by exactly eight
   * characters that the scanner accepts; otherwise the bytes of the scanned
   * number. `scan` is `Scanner.scanHexInt64`, whose behaviour on input that
   * is not all hex digits is Foundation's and is not fixed here.
   */
  function ParseHexColor(hex: string, scan: string -> Option<nat>): (r: Option<Rgba>)
    ensures r.Some? <==> |hex| == 9 && hex[0] == '#' && scan(hex[1..]).Some?
    ensures r.Some? ==> IsByte(r.value.r) && IsByte(r.value.g) && IsByte(r.value.b) && IsByte(r.value.a)
    ensures r.Some? ==> r.value == Channels(scan(hex[1..]).value)
  {
    if |hex| >= 1 && hex[0] == '#' then
      var hexColor := hex[1..];
      if |hexColor| == 8 then
        match scan(hexColor)
        case Some(hexNumber) => Some(Channels(hexNumber))
        case None => None
      else None
    else None
  }

  /** The last two digits of a hex string are its low byte. */
  lemma {:induction false} HexValueSplitByte(s: string)
    requires AllHex(s) && |s| >= 2
    ensures HexValue(s) == HexValue(s[..|s| - 2]) * 0x100 + HexValue(s[|s| - 2..])
  {
    var n := |s|;
    var init := s[..n - 1];
    assert init[..n - 2] == s[..n - 2];
    assert init[n - 2] == s[n - 2];
    var low := s[n - 2..];
    assert low[..1] == [s[n - 2]] && low[1] == s[n - 1];
    assert [s[n - 2]][..0] == [];
    calc {
      HexValue(s);
      HexValue(init) * 16 + DigitValue(s[n - 1]);
      (HexValue(s[..n - 2]) * 16 + DigitValue(s[n - 2])) * 16 + DigitValue(s[n - 1]);
      HexValue(s[..n - 2]) * 0x100 + (DigitValue(s[n - 2]) * 16 + DigitValue(s[n - 1]));
    }
    calc {
      HexValue(low);
      HexValue(low[..1]) * 16 + DigitValue(s[n - 1]);
      HexValue([s[n - 2]]) * 16 + DigitValue(s[n - 1]);
      { assert HexValue([s[n - 2]]) == HexValue([s[n - 2]][..0]) * 16 + DigitValue(s[n - 2]); }
      DigitValue(s[n - 2]) * 16 + DigitValue(s[n - 1]);
    }
  }

  /** Eight hex digits are four base-256 digits, each a pair of hex digits. */
  lemma EightDigits(s: string)
    requires |s| == 8 && AllHex(s)
    ensures AllHex(s[0..2]) && AllHex(s[2..4]) && AllHex(s[4..6]) && AllHex(s[6..8])
    ensures HexValue(s)
            == ((HexValue(s[0..2]) * 0x100 + HexValue(s[2..4])) * 0x100 + HexValue(s[4..6])) * 0x100 + HexValue(s[6..8])
  {
    HexValueSplitByte(s);
    HexValueSplitByte(s[..6]);
    HexValueSplitByte(s[..4]);
    assert s[..6][..4] == s[..4] && s[..4][..2] == s[0..2];
    assert s[6..] == s[6..8] && s[..6][4..] == s[4..6] && s[..4][2..] == s[2..4];
  }

  /** For `#` and eight hex digits read correctly by the scanner, the channels are the digit pairs in order. */
  lemma HexChannels(hex: string, scan: string -> Option<nat>)
    requires |hex| == 9 && hex[0] == '#' && AllHex(hex[1..])
    requires scan(hex[1..]) == Some(HexValue(hex[1..]))
    ensures ParseHexColor(hex, scan)
            == Some(Rgba(HexValue(hex[1..3]), HexValue(hex[3..5]), HexValue(hex[5..7]), HexValue(hex[7..9])))
  {
    var s := hex[1..];
    EightDigits(s);
    assert s[0..2] == hex[1..3] && s[2..4] == hex[3..5] && s[4..6] == hex[5..7] && s[6..8] == hex[7..9];
    var v0, v1, v2, v3 := HexValue(s[0..2]), HexValue(s[2..4]), HexValue(s[4..6]), HexValue(s[6..8]);
    assert Pow16(2) == 0x100;
    ByteDigits(v0, v1, v2, v3);
  }

  /** A number written with four base-256 digits has those digits as its bytes. */
  lemma ByteDigits(v0: int, v1: int, v2: int, v3: int)
    requires IsByte(v0) && IsByte(v1) && IsByte(v2) && IsByte(v3)
    ensures Channels(((v0 * 0x100 + v1) * 0x100 + v2) * 0x100 + v3) == Rgba(v0, v1, v2, v3)
  {
  }

  /** The default app bar colour `#00000000` is fully transparent black, for a scanner that reads it correctly. */
  lemma TransparentBlack(scan: string -> Option<nat>)
    requires scan("00000000") == Some(0)
    ensures ParseHexColor("#00000000", scan) == Some(Rgba(0, 0, 0, 0))
  {
    assert "#00000000"[1..] == "00000000";
  }
}
