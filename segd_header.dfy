/** The two SEG-D header fields the rename tool reads: the file number F of
    General Header Block #1 (bytes 1-2, four BCD digits, rendered as hex
    text) and the expanded file number of General Header Block #2 (bytes
    1-3, a 24-bit binary value, read big-endian). */
module SegdHeader {
  import opened Wrappers
  import opened PyText

  type Byte = b: int | 0 <= b < 256

  /** Which interpreter runs the script.  Under Python 2 indexing a `bytes`
      value gives a one-character string, which `struct.unpack('B', ...)`
      accepts; under Python 3 it gives an `int`, and the same call raises. */
  datatype Interp = Py2 | Py3

  /** The lower-case hex digit for `d`. */
  function HexChar(d: nat): (c: char)
    requires d < 16
    ensures IsHexChar(c)
  {
    if d < 10 then (48 + d) as char else (87 + d) as char
  }

  predicate IsHexChar(c: char)
  {
    '0' <= c <= '9' || 'a' <= c <= 'f'
  }

  /** The value of a hex digit (0 for any other character). */
  function HexCharValue(c: char): (d: nat)
    ensures d < 16
    ensures IsHexChar(c) ==> HexChar(d) == c
  {
    if '0' <= c <= '9' then c as int - 48
    else if 'a' <= c <= 'f' then c as int - 87
    else 0
  }

  /** `hex(n)[2:]`: the lower-case hex digits of `n`, without leading zeros. */
  function HexDigits(n: nat): string
    decreases n
  {
    if n < 16 then [HexChar(n)] else HexDigits(n / 16) + [HexChar(n % 16)]
  }

  /** A byte as two lower-case hex digits, high nibble first. */
  function ByteHex(b: Byte): string
  {
    [HexChar(b / 16), HexChar(b % 16)]
  }

  /** `hex(b)[2:].rjust(2, '0')` (and `hex(b)[2:].zfill(2)`, the same for a
      byte), as the decoders spell it: always the two nibble digits. */
  function PyByteHex(b: Byte): (r: string)
    ensures r == ByteHex(b)
  {
    if b < 16 then
      assert HexDigits(b) == [HexChar(b)];
      PadLeft(HexDigits(b), 2, '0')
    else
      assert HexDigits(b / 16) == [HexChar(b / 16)];
      PadLeft(HexDigits(b), 2, '0')
  }

  /** The bytes rendered as hex text, two digits per byte, in order. */
  function HexString(bs: seq<Byte>): (r: string)
    ensures |r| == 2 * |bs|
    ensures forall k :: 0 <= k < |r| ==> IsHexChar(r[k])
    decreases |bs|
  {
    if bs == [] then [] else HexString(bs[..|bs| - 1]) + ByteHex(bs[|bs| - 1])
  }

  /** Reads hex text back, two digits per byte, from the end (a lone
      leading digit is dropped). */
  function UnHex(s: string): seq<Byte>
    decreases |s|
  {
    if |s| < 2 then []
    else UnHex(s[..|s| - 2]) + [HexCharValue(s[|s| - 2]) * 16 + HexCharValue(s[|s| - 1])]
  }

  /** Byte `i` sits at positions `2i` (high nibble) and `2i+1` (low nibble). */
  lemma {:induction false} HexStringAt(bs: seq<Byte>, i: nat)
    requires i < |bs|
    ensures HexString(bs)[2 * i] == HexChar(bs[i] / 16)
    ensures HexString(bs)[2 * i + 1] == HexChar(bs[i] % 16)
    decreases |bs|
  {
    if i < |bs| - 1 {
      HexStringAt(bs[..|bs| - 1], i);
    }
  }

  /** Two more hex digits read back as one more byte. */
  lemma UnHexSnoc(t: string, hi: char, lo: char)
    ensures var s := t + [hi, lo];
      UnHex(s) == UnHex(t) + [HexCharValue(hi) * 16 + HexCharValue(lo)]
  {
    var s := t + [hi, lo];
    assert s[..|s| - 2] == t && s[|s| - 2] == hi && s[|s| - 1] == lo;
  }

  /** The rendering loses nothing: reading it back gives the bytes. */
  lemma {:induction false} UnHexHexString(bs: seq<Byte>)
    ensures UnHex(HexString(bs)) == bs
    decreases |bs|
  {
    if bs != [] {
      var init, b := bs[..|bs| - 1], bs[|bs| - 1];
      var hi, lo := b / 16, b % 16;
      var t := HexString(init);
      assert HexString(bs) == t + [HexChar(hi), HexChar(lo)];
      UnHexSnoc(t, HexChar(hi), HexChar(lo));
      HexCharRoundTrip(hi);
      HexCharRoundTrip(lo);
      UnHexHexString(init);
      assert init + [b] == bs;
    }
  }

  lemma HexCharRoundTrip(d: nat)
    requires d < 16
    ensures HexCharValue(HexChar(d)) == d
  {
  }

  lemma DecodeFfidExample()
    ensures HexString([0x00, 0x0F]) == "000f"
    ensures HexString([0x12]) == "12"
  {
    assert [0x00, 0x0F][..1] == [0x00];
  }

  /** `decode_ffid`: appends the two hex digits of each byte in turn.
      Under Python 3 the first `struct.unpack` raises, reported as `None`. */
  method DecodeFfid(binData: seq<Byte>, interp: Interp) returns (hdr: Option<string>)
    ensures hdr == if interp == Py3 && binData != [] then None else Some(HexString(binData))
  {
    var h := "";
    for i := 0 to |binData|
      invariant interp == Py3 ==> i == 0
      invariant h == HexString(binData[..i])
    {
      if interp == Py3 {
        return None;
      }
      assert binData[..i + 1][..i] == binData[..i];
      h := h + PyByteHex(binData[i]);
    }
    assert binData[..|binData|] == binData;
    return Some(h);
  }

  // --------------------------------------------------------- expanded FFID

  /** The big-endian unsigned value of the bytes. */
  function BigEndian(bs: seq<Byte>): nat
    decreases |bs|
  {
    if bs == [] then 0 else BigEndian(bs[..|bs| - 1]) * 256 + bs[|bs| - 1]
  }

  /** The value of a string of lower-case hex digits. */
  function HexValue(s: string): nat
    decreases |s|
  {
    if s == [] then 0 else HexValue(s[..|s| - 1]) * 16 + HexCharValue(s[|s| - 1])
  }

  /** `int(s, 16)` on the text `decode_effid` builds: `None` (Python raises
      `ValueError`) for the empty string. */
  function ParseHexInt(s: string): Option<nat>
  {
    if s != [] && forall i :: 0 <= i < |s| ==> IsHexChar(s[i]) then Some(HexValue(s)) else None
  }

  /** Reading the hex rendering as one base-16 number gives the big-endian
      value of the bytes. */
  lemma {:induction false} HexValueIsBigEndian(bs: seq<Byte>)
    ensures HexValue(HexString(bs)) == BigEndian(bs)
    decreases |bs|
  {
    if bs != [] {
      var init, b := bs[..|bs| - 1], bs[|bs| - 1];
      var hi, lo := b / 16, b % 16;
      var t, s := HexString(init), HexString(bs);
      var s1 := t + [HexChar(hi)];
      assert s == s1 + [HexChar(lo)];
      assert s[..|s| - 1] == s1;
      assert s1[..|s1| - 1] == t;
      HexCharRoundTrip(hi);
      HexCharRoundTrip(lo);
      HexValueIsBigEndian(init);
      assert HexValue(s1) == HexValue(t) * 16 + hi;
      assert HexValue(s) == HexValue(s1) * 16 + lo;
      assert (HexValue(t) * 16 + hi) * 16 + lo == HexValue(t) * 256 + (hi * 16 + lo);
    }
  }

  /** `int(s, 16)` on a non-empty rendering reads back the big-endian
      value of the bytes; on the empty rendering it raises. */
  lemma ParseHexIntHexString(bs: seq<Byte>)
    ensures bs == [] ==> ParseHexInt(HexString(bs)) == None
    ensures bs != [] ==> ParseHexInt(HexString(bs)) == Some(BigEndian(bs))
  {
    HexValueIsBigEndian(bs);
  }

  /** A value read from n bytes is below 256^n; from three bytes, at most 2^24 - 1. */
  lemma {:induction false} BigEndianBound(bs: seq<Byte>)
    ensures BigEndian(bs) < Pow(256, |bs|)
    ensures |bs| == 3 ==> BigEndian(bs) <= 0xFF_FFFF
    decreases |bs|
  {
    if bs != [] {
      var init := bs[..|bs| - 1];
      BigEndianBound(init);
      assert BigEndian(init) + 1 <= Pow(256, |init|);
      assert (BigEndian(init) + 1) * 256 <= Pow(256, |init|) * 256;
    }
    if |bs| == 3 {
      assert Pow(256, 3) == 256 * Pow(256, 2) == 256 * 256 * Pow(256, 1);
    }
  }

  lemma DecodeEffidExample()
    ensures BigEndian([0x00, 0x00, 0x7B]) == 123
  {
    assert [0x00, 0x00, 0x7B][..2] == [0x00, 0x00];
    assert [0x00, 0x00][..1] == [0x00];
  }

  /** `decode_effid`: unpacks the bytes, appends the two hex digits of each,
      and parses the result as hex; `None` where `int('', 16)` raises. */
  method DecodeEffid(binData: seq<Byte>) returns (ival: Option<nat>)
    ensures binData == [] ==> ival == None
    ensures binData != [] ==> ival == Some(BigEndian(binData))
  {
    var hdr := "";
    for i := 0 to |binData|
      invariant hdr == HexString(binData[..i])
    {
      assert binData[..i + 1][..i] == binData[..i];
      hdr := hdr + PyByteHex(binData[i]);
    }
    assert binData[..|binData|] == binData;
    HexValueIsBigEndian(binData);
    ival := ParseHexInt(hdr);
  }
}
