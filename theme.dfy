/**
 * `Color.init(hex:)` up to the integer channels it computes (the division
 * into `Double` sRGB components is not modelled), the named palette colours
 * the views pick between, and the encouraging messages of the timer button.
 */
module Theme {
  /** The palette colours a view can choose (`Color.appAccent`, ...). */
  datatype PaletteColor = Accent | Success | Secondary

  /** `CharacterSet.alphanumerics`, restricted to ASCII. */
  predicate IsAlphanumeric(c: char) {
    ('0' <= c <= '9') || ('a' <= c <= 'z') || ('A' <= c <= 'Z')
  }

  predicate IsHexDigit(c: char) {
    ('0' <= c <= '9') || ('a' <= c <= 'f') || ('A' <= c <= 'F')
  }

  function HexDigitValue(c: char): (d: nat)
    requires IsHexDigit(c)
    ensures d < 16
  {
    if '0' <= c <= '9' then c as int - '0' as int
    else if 'a' <= c <= 'f' then c as int - 'a' as int + 10
    else c as int - 'A' as int + 10
  }

  /** The upper-case hex digit of a value below 16. */
  function HexDigitChar(d: nat): (c: char)
    requires d < 16
    ensures IsHexDigit(c) && HexDigitValue(c) == d
  {
    "0123456789ABCDEF"[d]
  }

  /** `trimmingCharacters(in: CharacterSet.alphanumerics.inverted)`: drop non-alphanumerics at both ends. */
  function Trim(s: string): (t: string)
    ensures |t| <= |s|
    ensures t != [] ==> IsAlphanumeric(t[0]) && IsAlphanumeric(t[|t| - 1])
    ensures (forall i :: 0 <= i < |s| ==> IsAlphanumeric(s[i])) ==> t == s
    decreases |s|
  {
    if s == [] then s
    else if !IsAlphanumeric(s[0]) then Trim(s[1..])
    else if !IsAlphanumeric(s[|s| - 1]) then Trim(s[..|s| - 1])
    else s
  }

  /** The value of a string of hex digits, most significant first. */
  function HexValue(s: string): (v: nat)
    requires forall i :: 0 <= i < |s| ==> IsHexDigit(s[i])
    decreases |s|
  {
    if s == [] then 0 else HexValue(s[..|s| - 1]) * 16 + HexDigitValue(s[|s| - 1])
  }

  /** The number of leading hex digits of `s`. */
  function HexPrefix(s: string): (k: nat)
    ensures k <= |s|
    ensures forall i :: 0 <= i < k ==> IsHexDigit(s[i])
    ensures k < |s| ==> !IsHexDigit(s[k])
  {
    if s == [] || !IsHexDigit(s[0]) then 0 else 1 + HexPrefix(s[1..])
  }

  /** The value of the leading hex digits of `s`; 0 when there are none. */
  function LeadingHexValue(s: string): nat {
    HexValue(s[..HexPrefix(s)])
  }

  /** The optional `0x` or `0X` in front of the digits. */
  predicate HasHexMarker(s: string) {
    |s| >= 2 && s[0] == '0' && (s[1] == 'x' || s[1] == 'X')
  }

  /**
   * `Scanner(string: s).scanHexInt64(&int)` from `int = 0`: the value of the
   * hex digits at the front, after an optional `0x`. A marker with no digit
   * after it leaves 0, the value of its own `0`.
   */
  function ScanHex(s: string): nat {
    if HasHexMarker(s) then LeadingHexValue(s[2..]) else LeadingHexValue(s)
  }

  function Pow16(n: nat): (p: nat)
    ensures p >= 1
  {
    if n == 0 then 1 else 16 * Pow16(n - 1)
  }

  /** `n` hex digits hold a value below `16^n`. */
  lemma {:induction false} HexValueBound(s: string)
    requires forall i :: 0 <= i < |s| ==> IsHexDigit(s[i])
    ensures HexValue(s) < Pow16(|s|)
    decreases |s|
  {
    if s != [] {
      HexValueBound(s[..|s| - 1]);
    }
  }

  /** The scanned value of a string never needs more hex digits than the string has. */
  lemma ScanHexBound(s: string)
    ensures ScanHex(s) < Pow16(|s|)
  {
    var d := if HasHexMarker(s) then s[2..] else s;
    var k := HexPrefix(d);
    HexValueBound(d[..k]);
    Pow16Monotone(k, |s|);
  }

  lemma {:induction false} Pow16Monotone(m: nat, n: nat)
    requires m <= n
    ensures Pow16(m) <= Pow16(n)
    decreases n
  {
    if m < n {
      Pow16Monotone(m, n - 1);
    }
  }

  /** The integer channels of a colour, before the division by 255. */
  datatype Argb = Argb(a: int, r: int, g: int, b: int)

  predicate ChannelsInRange(c: Argb) {
    0 <= c.a <= 255 && 0 <= c.r <= 255 && 0 <= c.g <= 255 && 0 <= c.b <= 255
  }

  /**
   * `Color.init(hex:)`: 3 digits are 12-bit RGB, 6 digits 24-bit RGB, 8
   * digits 32-bit ARGB; any other length gives (1, 1, 1, 0).
   */
  function ColorFromHex(hex: string): (c: Argb)
    ensures |Trim(hex)| in {3, 6, 8} ==> ChannelsInRange(c)
    ensures |Trim(hex)| == 3 || |Trim(hex)| == 6 ==> c.a == 255
    ensures |Trim(hex)| !in {3, 6, 8} ==> c == Argb(1, 1, 1, 0)
  {
    var t := Trim(hex);
    var v := ScanHex(t);
    ScanHexBound(t);
    match |t|
    case 3 => Argb(255, (v / 0x100) * 17, (v / 0x10 % 0x10) * 17, (v % 0x10) * 17)
    case 6 => Argb(255, v / 0x1_0000, v / 0x100 % 0x100, v % 0x100)
    case 8 => Argb(v / 0x100_0000, v / 0x1_0000 % 0x100, v / 0x100 % 0x100, v % 0x100)
    case _ => Argb(1, 1, 1, 0)
  }

  predicate AllHex(s: string) {
    forall i :: 0 <= i < |s| ==> IsHexDigit(s[i])
  }

  /** A string made only of hex digits is scanned whole. */
  lemma ScanAllHex(s: string)
    requires AllHex(s)
    ensures ScanHex(s) == HexValue(s)
  {
    assert !HasHexMarker(s) by {
      if |s| >= 2 {
        assert IsHexDigit(s[1]);
      }
    }
    assert s[..HexPrefix(s)] == s;
  }

  /** Hex digits after a `0x` or `0X` are scanned whole, without the marker. */
  lemma ScanMarkedHex(s: string)
    requires HasHexMarker(s) && AllHex(s[2..])
    ensures ScanHex(s) == HexValue(s[2..])
  {
    var d := s[2..];
    assert d[..HexPrefix(d)] == d;
  }

  /** The value of three hex digits. */
  lemma HexValue3(s: string)
    requires |s| == 3 && AllHex(s)
    ensures HexValue(s) == (HexDigitValue(s[0]) * 16 + HexDigitValue(s[1])) * 16 + HexDigitValue(s[2])
  {
    HexValueAppend2(s[..1], s[1], s[2]);
    assert s[..1] + [s[1], s[2]] == s;
    assert s[..1][..0] == [];
  }

  /** The value of two hex digits followed by more. */
  lemma HexValueAppend2(s: string, x: char, y: char)
    requires AllHex(s) && IsHexDigit(x) && IsHexDigit(y)
    ensures AllHex(s + [x, y])
    ensures HexValue(s + [x, y]) == HexValue(s) * 256 + HexDigitValue(x) * 16 + HexDigitValue(y)
  {
    var t := s + [x, y];
    assert t[..|t| - 1] == s + [x];
    assert (s + [x])[..|s|] == s;
  }

  /** The byte value of the two hex digits `s[i]`, `s[i + 1]`. */
  function ByteAt(s: string, i: nat): (v: nat)
    requires i + 1 < |s| && IsHexDigit(s[i]) && IsHexDigit(s[i + 1])
    ensures v < 256
  {
    HexDigitValue(s[i]) * 16 + HexDigitValue(s[i + 1])
  }

  /** Three hex digits: each channel is its nibble times 17, alpha is opaque. */
  lemma ColorFromHex3(hex: string)
    requires var t := Trim(hex); |t| == 3 && AllHex(t)
    ensures var t := Trim(hex);
      ColorFromHex(hex) == Argb(255, HexDigitValue(t[0]) * 17, HexDigitValue(t[1]) * 17, HexDigitValue(t[2]) * 17)
  {
    var t := Trim(hex);
    ScanAllHex(t);
    HexValue3(t);
    NibblesSplit3(HexDigitValue(t[0]), HexDigitValue(t[1]), HexDigitValue(t[2]));
  }

  lemma NibblesSplit3(x: nat, y: nat, z: nat)
    requires x < 16 && y < 16 && z < 16
    ensures var v := (x * 16 + y) * 16 + z;
      v / 0x100 == x && v / 0x10 % 0x10 == y && v % 0x10 == z
  {
    var v := (x * 16 + y) * 16 + z;
    assert v / 0x10 == x * 16 + y;
  }

  /** The value of six hex digits as three bytes. */
  lemma HexValue6(t: string)
    requires |t| == 6 && AllHex(t)
    ensures HexValue(t) == ByteAt(t, 0) * 0x1_0000 + ByteAt(t, 2) * 0x100 + ByteAt(t, 4)
  {
    HexValueAppend2([], t[0], t[1]);
    assert [] + [t[0], t[1]] == t[..2];
    HexValueAppend2(t[..2], t[2], t[3]);
    assert t[..2] + [t[2], t[3]] == t[..4];
    HexValueAppend2(t[..4], t[4], t[5]);
    assert t[..4] + [t[4], t[5]] == t;
  }

  /** Six hex digits: red, green and blue are the three bytes in order, alpha is opaque. */
  lemma ColorFromHex6(hex: string)
    requires var t := Trim(hex); |t| == 6 && AllHex(t)
    ensures var t := Trim(hex);
      ColorFromHex(hex) == Argb(255, ByteAt(t, 0), ByteAt(t, 2), ByteAt(t, 4))
  {
    var t := Trim(hex);
    ScanAllHex(t);
    HexValue6(t);
    BytesSplit3(ByteAt(t, 0), ByteAt(t, 2), ByteAt(t, 4));
  }

  lemma BytesSplit3(x: nat, y: nat, z: nat)
    requires x < 256 && y < 256 && z < 256
    ensures var v := x * 0x1_0000 + y * 0x100 + z;
      v / 0x1_0000 == x && v / 0x100 % 0x100 == y && v % 0x100 == z
  {
    var v := x * 0x1_0000 + y * 0x100 + z;
    assert v / 0x100 == x * 0x100 + y;
  }

  /** The value of eight hex digits as four bytes. */
  lemma HexValue8(t: string)
    requires |t| == 8 && AllHex(t)
    ensures HexValue(t) == ByteAt(t, 0) * 0x100_0000 + ByteAt(t, 2) * 0x1_0000 + ByteAt(t, 4) * 0x100 + ByteAt(t, 6)
  {
    HexValue6(t[..6]);
    HexValueAppend2(t[..6], t[6], t[7]);
    assert t[..6] + [t[6], t[7]] == t;
  }

  /** Eight hex digits are ARGB: alpha is the first byte. */
  lemma ColorFromHex8(hex: string)
    requires var t := Trim(hex); |t| == 8 && AllHex(t)
    ensures var t := Trim(hex);
      ColorFromHex(hex) == Argb(ByteAt(t, 0), ByteAt(t, 2), ByteAt(t, 4), ByteAt(t, 6))
  {
    var t := Trim(hex);
    ScanAllHex(t);
    HexValue8(t);
    BytesSplit4(ByteAt(t, 0), ByteAt(t, 2), ByteAt(t, 4), ByteAt(t, 6));
  }

  /**
   * `0x` and six hex digits are eight characters, so they are read as ARGB:
   * the marker is skipped, alpha is 0 and the digits are red, green and blue.
   */
  lemma ColorFromMarkedHex(hex: string)
    requires var t := Trim(hex); |t| == 8 && HasHexMarker(t) && AllHex(t[2..])
    ensures var t := Trim(hex);
      ColorFromHex(hex) == Argb(0, ByteAt(t, 2), ByteAt(t, 4), ByteAt(t, 6))
  {
    var t := Trim(hex);
    var d := t[2..];
    ScanMarkedHex(t);
    HexValue6(d);
    assert ByteAt(d, 0) == ByteAt(t, 2) && ByteAt(d, 2) == ByteAt(t, 4) && ByteAt(d, 4) == ByteAt(t, 6);
    BytesSplit4(0, ByteAt(t, 2), ByteAt(t, 4), ByteAt(t, 6));
  }

  /** `Color(hex: "0x2D7FF9")` is a fully transparent colour. */
  lemma MarkedHexIsTransparent()
    ensures ColorFromHex("0x2D7FF9") == Argb(0, 0x2D, 0x7F, 0xF9)
  {
    var s := "0x2D7FF9";
    assert forall i :: 0 <= i < |s| ==> IsAlphanumeric(s[i]);
    assert Trim(s) == s;
    assert AllHex(s[2..]);
    ColorFromMarkedHex(s);
  }

  lemma BytesSplit4(w: nat, x: nat, y: nat, z: nat)
    requires w < 256 && x < 256 && y < 256 && z < 256
    ensures var v := w * 0x100_0000 + x * 0x1_0000 + y * 0x100 + z;
      v / 0x100_0000 == w && v / 0x1_0000 % 0x100 == x && v / 0x100 % 0x100 == y && v % 0x100 == z
  {
    var v := w * 0x100_0000 + x * 0x1_0000 + y * 0x100 + z;
    assert v / 0x100 == w * 0x1_0000 + x * 0x100 + y;
    assert v / 0x1_0000 == w * 0x100 + x;
  }

  /** Two upper-case hex digits of a byte. */
  function HexByte(n: nat): (s: string)
    requires n < 256
    ensures |s| == 2 && AllHex(s) && ByteAt(s, 0) == n
  {
    [HexDigitChar(n / 16), HexDigitChar(n % 16)]
  }

  /** The eight-digit `AARRGGBB` spelling of a colour. */
  function ArgbHex(c: Argb): (s: string)
    requires ChannelsInRange(c)
    ensures |s| == 8 && AllHex(s)
  {
    HexByte(c.a) + HexByte(c.r) + HexByte(c.g) + HexByte(c.b)
  }

  /** Hex digits are alphanumeric, so trimming leaves an all-hex string alone. */
  lemma TrimAllHex(s: string)
    requires AllHex(s)
    ensures Trim(s) == s
  {
    assert forall i :: 0 <= i < |s| ==> IsAlphanumeric(s[i]);
  }

  /** Writing a colour as eight hex digits and parsing it gives the colour back. */
  lemma ArgbHexRoundTrip(c: Argb)
    requires ChannelsInRange(c)
    ensures ColorFromHex(ArgbHex(c)) == c
  {
    var s := ArgbHex(c);
    TrimAllHex(s);
    ColorFromHex8(s);
    assert s[0..2] == HexByte(c.a) && s[2..4] == HexByte(c.r);
    assert s[4..6] == HexByte(c.g) && s[6..8] == HexByte(c.b);
  }

  /** Writing an opaque colour as six hex digits and parsing it gives the colour back. */
  lemma RgbHexRoundTrip(c: Argb)
    requires ChannelsInRange(c) && c.a == 255
    ensures ColorFromHex(HexByte(c.r) + HexByte(c.g) + HexByte(c.b)) == c
  {
    var s := HexByte(c.r) + HexByte(c.g) + HexByte(c.b);
    TrimAllHex(s);
    ColorFromHex6(s);
    assert s[0..2] == HexByte(c.r) && s[2..4] == HexByte(c.g) && s[4..6] == HexByte(c.b);
  }

  /** `EncouragingMessages.startMessages` */
  const StartMessages: seq<string> := [
    "Let's get productive! \U{1F4AA}",
    "Time to focus and shine! \U{2728}",
    "You've got this! Starting strong \U{1F680}",
    "Focus mode activated! \U{1F3AF}",
    "It's go time! Ready to achieve? \U{1F4AF}",
    "Building momentum starts now! \U{1F504}",
    "Your productivity journey begins! \U{1F3C3}\U{200D}\U{2642}\U{FE0F}",
    "Starting another successful session! \U{1F3C6}"
  ]

  /** `EncouragingMessages.stopMessages` */
  const StopMessages: seq<string> := [
    "Great work! Session recorded \U{2705}",
    "Another productive session complete! \U{1F389}",
    "Well done! Take a moment to celebrate \U{1F973}",
    "Progress made! Keep it up \U{1F4C8}",
    "Session saved! You're crushing it today \U{1F4AA}",
    "Excellent work! Break time earned \U{1F375}",
    "Session recorded! One step closer to your goals \U{1F3AF}",
    "Success! Your hard work is paying off \U{1F48E}"
  ]

  /**
   * `list.randomElement() ?? list[0]`: `choice` is the index the random
   * source picks; an index outside the list stands for `randomElement()`
   * returning nil.
   */
  function PickMessage(list: seq<string>, choice: int): (m: string)
    requires list != []
    ensures m in list
    ensures 0 <= choice < |list| ==> m == list[choice]
  {
    if 0 <= choice < |list| then list[choice] else list[0]
  }

  /** `randomStartMessage()` */
  function RandomStartMessage(choice: int): (m: string)
    ensures m in StartMessages
  {
    PickMessage(StartMessages, choice)
  }

  /** `randomStopMessage()` */
  function RandomStopMessage(choice: int): (m: string)
    ensures m in StopMessages
  {
    PickMessage(StopMessages, choice)
  }

  /** Every message of a list is some choice's pick. */
  lemma PickMessageCovers(list: seq<string>, m: string)
    requires m in list
    ensures exists choice :: 0 <= choice < |list| && PickMessage(list, choice) == m
  {
    var i :| 0 <= i < |list| && list[i] == m;
    assert PickMessage(list, i) == m;
  }
}
