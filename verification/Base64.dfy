/** URL-safe base64 without padding: `base64.urlsafe_b64encode` and `urlsafe_b64decode` as the
    password code calls them (section 5 of RFC 4648). */
module Base64 {
  import opened Wrappers

  type byte = x: int | 0 <= x < 256

  // ---------- the alphabet ----------

  function CharOf(v: nat): char
    requires v < 64
  {
    if v < 26 then ('A' as int + v) as char
    else if v < 52 then ('a' as int + (v - 26)) as char
    else if v < 62 then ('0' as int + (v - 52)) as char
    else if v == 62 then '-' else '_'
  }

  /** The decoder also knows the two characters of the ordinary alphabet. */
  function Sextet(c: char): (v: Option<nat>)
    ensures v.Some? ==> v.value < 64
  {
    if 'A' <= c <= 'Z' then Some(c as int - 'A' as int)
    else if 'a' <= c <= 'z' then Some(c as int - 'a' as int + 26)
    else if '0' <= c <= '9' then Some(c as int - '0' as int + 52)
    else if c == '-' || c == '+' then Some(62)
    else if c == '_' || c == '/' then Some(63)
    else None
  }

  lemma SextetOfChar(v: nat)
    requires v < 64
    ensures Sextet(CharOf(v)) == Some(v) && CharOf(v) != '=' && CharOf(v) != '$' && CharOf(v) < '\U{80}'
  {}

  // ---------- encoding ----------

  function One(a: byte): string {
    [CharOf(a / 4), CharOf(a % 4 * 16)]
  }

  function Two(a: byte, b: byte): string {
    [CharOf(a / 4), CharOf(a % 4 * 16 + b / 16), CharOf(b % 16 * 4)]
  }

  /** Three bytes in four characters. */
  function Three(a: byte, b: byte, c: byte): string {
    [CharOf(a / 4), CharOf(a % 4 * 16 + b / 16), CharOf(b % 16 * 4 + c / 64), CharOf(c % 64)]
  }

  function EncodePadded(bytes: seq<byte>): string {
    if |bytes| == 0 then ""
    else if |bytes| == 1 then One(bytes[0]) + "=="
    else if |bytes| == 2 then Two(bytes[0], bytes[1]) + "="
    else Three(bytes[0], bytes[1], bytes[2]) + EncodePadded(bytes[3..])
  }

  /** `rstrip("=")`. */
  function StripPadding(s: string): string {
    if s != "" && s[|s| - 1] == '=' then StripPadding(s[..|s| - 1]) else s
  }

  /** `_b64encode`. */
  function Encode(bytes: seq<byte>): string {
    StripPadding(EncodePadded(bytes))
  }

  // ---------- decoding ----------

  /** `binascii.a2b_base64`, not strict: other characters are skipped, enough padding ends the
      data.  `quad` data characters of the present group are read, `left` bits of them unused. */
  function Scan(s: string, quad: nat, left: nat, pads: nat, out: seq<byte>): Option<seq<byte>>
    requires quad < 4 && left < (if quad == 1 then 64 else if quad == 2 then 16 else if quad == 3 then 4 else 1)
  {
    if s == "" then if quad == 0 then Some(out) else None
    else if s[0] == '=' then
      if quad >= 2 then if quad + pads + 1 >= 4 then Some(out) else Scan(s[1..], quad, left, pads + 1, out)
      else Scan(s[1..], quad, left, pads, out)
    else
      var v := Sextet(s[0]);
      if v.None? then Scan(s[1..], quad, left, pads, out)
      else if quad == 0 then Scan(s[1..], 1, v.value, 0, out)
      else if quad == 1 then Scan(s[1..], 2, v.value % 16, 0, out + [left * 4 + v.value / 16])
      else if quad == 2 then Scan(s[1..], 3, v.value % 4, 0, out + [left * 16 + v.value / 4])
      else Scan(s[1..], 0, 0, 0, out + [left * 64 + v.value])
  }

  predicate IsAscii(s: string) {
    forall i | 0 <= i < |s| :: s[i] < '\U{80}'
  }

  function Padding(n: nat): string
    requires n < 4
  {
    if n == 0 then "" else if n == 1 then "=" else if n == 2 then "==" else "==="
  }

  /** `_b64decode`: padding restored by `-len % 4`; None where Python raises. */
  function Decode(s: string): Option<seq<byte>> {
    var padded := s + Padding(-|s| % 4);
    if IsAscii(padded) then Scan(padded, 0, 0, 0, []) else None
  }

  // ---------- the round trip ----------

  predicate IsCode(s: string) {
    forall i | 0 <= i < |s| :: Sextet(s[i]).Some? && s[i] != '=' && s[i] != '$' && s[i] < '\U{80}'
  }

  /** What is left of an encoding once the padding is stripped. */
  function Bare(bytes: seq<byte>): string {
    if |bytes| == 0 then ""
    else if |bytes| == 1 then One(bytes[0])
    else if |bytes| == 2 then Two(bytes[0], bytes[1])
    else Three(bytes[0], bytes[1], bytes[2]) + Bare(bytes[3..])
  }

  function PadCount(n: nat): (p: nat)
    ensures p < 3
  {
    (3 - n % 3) % 3
  }

  lemma GroupsAreCode(a: byte, b: byte, c: byte)
    ensures IsCode(One(a)) && IsCode(Two(a, b)) && IsCode(Three(a, b, c))
    ensures |One(a)| == 2 && |Two(a, b)| == 3 && |Three(a, b, c)| == 4
  {
    hide CharOf, Sextet;
    SextetOfChar(a / 4);
    SextetOfChar(a % 4 * 16);
    SextetOfChar(a % 4 * 16 + b / 16);
    SextetOfChar(b % 16 * 4);
    SextetOfChar(b % 16 * 4 + c / 64);
    SextetOfChar(c % 64);
  }

  lemma {:induction false} BareLength(bytes: seq<byte>)
    ensures -|Bare(bytes)| % 4 == PadCount(|bytes|)
  {
    hide Sextet, CharOf;
    if |bytes| >= 3 {
      BareLength(bytes[3..]);
      assert |Bare(bytes)| == |Bare(bytes[3..])| + 4;
    }
  }

  lemma {:induction false} BareIsCode(bytes: seq<byte>)
    ensures IsCode(Bare(bytes))
  {
    hide One, Two, Three, Sextet;
    if |bytes| == 1 {
      GroupsAreCode(bytes[0], 0, 0);
    } else if |bytes| == 2 {
      GroupsAreCode(bytes[0], bytes[1], 0);
    } else if |bytes| >= 3 {
      GroupsAreCode(bytes[0], bytes[1], bytes[2]);
      BareIsCode(bytes[3..]);
    }
  }

  lemma Shorts(bytes: seq<byte>)
    requires |bytes| < 3
    ensures EncodePadded(bytes) ==
            if |bytes| == 0 then "" else if |bytes| == 1 then One(bytes[0]) + "==" else Two(bytes[0], bytes[1]) + "="
    ensures Bare(bytes) ==
            if |bytes| == 0 then "" else if |bytes| == 1 then One(bytes[0]) else Two(bytes[0], bytes[1])
    ensures Padding(PadCount(|bytes|)) == if |bytes| == 0 then "" else if |bytes| == 1 then "==" else "="
  {
    hide One, Two, Three;
  }

  lemma PaddedShort(bytes: seq<byte>)
    requires |bytes| < 3
    ensures EncodePadded(bytes) == Bare(bytes) + Padding(PadCount(|bytes|))
  {
    hide One, Two, Three, EncodePadded, Bare, Padding, PadCount;
    Shorts(bytes);
  }

  lemma {:induction false} PaddedIsBare(bytes: seq<byte>)
    ensures EncodePadded(bytes) == Bare(bytes) + Padding(PadCount(|bytes|))
  {
    hide One, Two, Three, Padding;
    if |bytes| < 3 {
      PaddedShort(bytes);
    } else {
      var rest := bytes[3..];
      PaddedIsBare(rest);
      assert PadCount(|bytes|) == PadCount(|rest|);
      var group, tail, pad := Three(bytes[0], bytes[1], bytes[2]), Bare(rest), Padding(PadCount(|rest|));
      assert (group + tail) + pad == group + (tail + pad);
    }
  }

  lemma StripOne(s: string)
    ensures StripPadding(s + "=") == StripPadding(s)
  {
    assert (s + "=")[..|s|] == s;
  }

  lemma StripPads(s: string, n: nat)
    requires IsCode(s) && n < 4
    ensures StripPadding(s + Padding(n)) == s
  {
    assert s + "" == s && s + "==" == (s + "=") + "=" && s + "===" == ((s + "=") + "=") + "=";
    StripOne(s);
    StripOne(s + "=");
    StripOne((s + "=") + "=");
    assert StripPadding(s) == s;
    hide StripPadding;
  }

  lemma EncodeIsBare(bytes: seq<byte>)
    ensures Encode(bytes) == Bare(bytes)
  {
    BareIsCode(bytes);
    PaddedIsBare(bytes);
    StripPads(Bare(bytes), PadCount(|bytes|));
  }

  /** The state after one data character. */
  lemma ScanChar(v: nat, rest: string, quad: nat, left: nat, out: seq<byte>)
    requires v < 64 && quad < 4
    requires left < (if quad == 1 then 64 else if quad == 2 then 16 else if quad == 3 then 4 else 1)
    ensures Scan([CharOf(v)] + rest, quad, left, 0, out) ==
            if quad == 0 then Scan(rest, 1, v, 0, out)
            else if quad == 1 then Scan(rest, 2, v % 16, 0, out + [left * 4 + v / 16])
            else if quad == 2 then Scan(rest, 3, v % 4, 0, out + [left * 16 + v / 4])
            else Scan(rest, 0, 0, 0, out + [left * 64 + v])
  {
    hide CharOf, Sextet;
    SextetOfChar(v);
    assert ([CharOf(v)] + rest)[1..] == rest;
  }

  lemma ScanOne(a: byte, rest: string, out: seq<byte>)
    ensures Scan(One(a) + rest, 0, 0, 0, out) == Scan(rest, 2, 0, 0, out + [a])
  {
    hide Scan, CharOf;
    var v0, v1 := a / 4, a % 4 * 16;
    assert One(a) + rest == [CharOf(v0)] + ([CharOf(v1)] + rest);
    ScanChar(v0, [CharOf(v1)] + rest, 0, 0, out);
    ScanChar(v1, rest, 1, v0, out);
    assert v0 * 4 + v1 / 16 == a && v1 % 16 == 0;
  }

  lemma ScanTwo(a: byte, b: byte, rest: string, out: seq<byte>)
    ensures Scan(Two(a, b) + rest, 0, 0, 0, out) == Scan(rest, 3, 0, 0, out + [a, b])
  {
    hide Scan, CharOf;
    var v0, v1, v2 := a / 4, a % 4 * 16 + b / 16, b % 16 * 4;
    assert Two(a, b) + rest == [CharOf(v0)] + ([CharOf(v1)] + ([CharOf(v2)] + rest));
    ScanChar(v0, [CharOf(v1)] + ([CharOf(v2)] + rest), 0, 0, out);
    ScanChar(v1, [CharOf(v2)] + rest, 1, v0, out);
    assert v0 * 4 + v1 / 16 == a && v1 % 16 == b / 16;
    ScanChar(v2, rest, 2, b / 16, out + [a]);
    assert b / 16 * 16 + v2 / 4 == b && v2 % 4 == 0;
    assert out + [a] + [b] == out + [a, b];
  }

  /** One whole group. */
  lemma ScanThree(a: byte, b: byte, c: byte, rest: string, out: seq<byte>)
    ensures Scan(Three(a, b, c) + rest, 0, 0, 0, out) == Scan(rest, 0, 0, 0, out + [a, b, c])
  {
    hide Scan, CharOf;
    var v0, v1, v2, v3 := a / 4, a % 4 * 16 + b / 16, b % 16 * 4 + c / 64, c % 64;
    var tail := [CharOf(v2)] + ([CharOf(v3)] + rest);
    assert Three(a, b, c) + rest == [CharOf(v0)] + ([CharOf(v1)] + tail);
    ScanChar(v0, [CharOf(v1)] + tail, 0, 0, out);
    ScanChar(v1, tail, 1, v0, out);
    assert v0 * 4 + v1 / 16 == a && v1 % 16 == b / 16;
    ScanChar(v2, [CharOf(v3)] + rest, 2, b / 16, out + [a]);
    assert b / 16 * 16 + v2 / 4 == b && v2 % 4 == c / 64;
    ScanChar(v3, rest, 3, c / 64, out + [a] + [b]);
    assert c / 64 * 64 + v3 == c;
    assert out + [a] + [b] + [c] == out + [a, b, c];
  }

  lemma ScanEnd(out: seq<byte>)
    ensures Scan("", 0, 0, 0, out) == Some(out)
    ensures Scan("=", 3, 0, 0, out) == Some(out)
    ensures Scan("==", 2, 0, 0, out) == Some(out)
  {
    assert "=="[1..] == "=";
    assert Scan("=", 2, 0, 1, out) == Some(out);
  }

  lemma {:induction false} ScanBare(bytes: seq<byte>, out: seq<byte>)
    ensures Scan(Bare(bytes) + Padding(PadCount(|bytes|)), 0, 0, 0, out) == Some(out + bytes)
  {
    if |bytes| < 3 {
      ScanShort(bytes, out);
    } else {
      hide Scan, One, Two, Three, Bare, Padding, PadCount;
      ScanBareStep(bytes, out);
      ScanBare(bytes[3..], out + [bytes[0], bytes[1], bytes[2]]);
      assert out + [bytes[0], bytes[1], bytes[2]] + bytes[3..] == out + bytes;
    }
  }

  lemma ScanShort(bytes: seq<byte>, out: seq<byte>)
    requires |bytes| < 3
    ensures Scan(Bare(bytes) + Padding(PadCount(|bytes|)), 0, 0, 0, out) == Some(out + bytes)
  {
    hide Scan, One, Two, Three, Bare, Padding, PadCount;
    Shorts(bytes);
    if |bytes| == 0 {
      ScanEnd(out);
      assert "" + "" == "" && out + bytes == out;
    } else if |bytes| == 1 {
      ScanOne(bytes[0], "==", out);
      ScanEnd(out + [bytes[0]]);
      assert [bytes[0]] == bytes;
    } else {
      ScanTwo(bytes[0], bytes[1], "=", out);
      ScanEnd(out + [bytes[0], bytes[1]]);
      assert [bytes[0], bytes[1]] == bytes;
    }
  }

  lemma ScanBareStep(bytes: seq<byte>, out: seq<byte>)
    requires |bytes| >= 3
    ensures var rest := bytes[3..];
            Scan(Bare(bytes) + Padding(PadCount(|bytes|)), 0, 0, 0, out) ==
            Scan(Bare(rest) + Padding(PadCount(|rest|)), 0, 0, 0, out + [bytes[0], bytes[1], bytes[2]])
  {
    hide Scan, One, Two, Three, Padding;
    var rest := bytes[3..];
    assert PadCount(|bytes|) == PadCount(|rest|);
    var group, tail, pad := Three(bytes[0], bytes[1], bytes[2]), Bare(rest), Padding(PadCount(|rest|));
    ScanThree(bytes[0], bytes[1], bytes[2], tail + pad, out);
    assert Bare(bytes) == group + tail;
    assert (group + tail) + pad == group + (tail + pad);
  }

  lemma PaddedAscii(s: string, n: nat)
    requires IsCode(s) && n < 4
    ensures IsAscii(s + Padding(n))
  {}

  /** Every byte string survives encoding, stripping, padding and decoding. */
  lemma DecodeEncode(bytes: seq<byte>)
    ensures Decode(Encode(bytes)) == Some(bytes)
  {
    EncodeIsBare(bytes);
    BareIsCode(bytes);
    BareLength(bytes);
    ScanBare(bytes, []);
    PaddedAscii(Bare(bytes), PadCount(|bytes|));
    assert [] + bytes == bytes;
    hide Scan, Encode, Bare, Padding, IsAscii, IsCode;
  }

  /** An encoding has only characters of the alphabet. */
  lemma EncodeIsCode(bytes: seq<byte>)
    ensures IsCode(Encode(bytes))
  {
    EncodeIsBare(bytes);
    BareIsCode(bytes);
  }

  /** The test vectors of section 10 of RFC 4648, without padding. */
  lemma TestVectors()
    ensures Encode([]) == "" && Encode([102]) == "Zg" && Encode([102, 111]) == "Zm8"
    ensures Encode([102, 111, 111]) == "Zm9v" && Encode([102, 111, 111, 98]) == "Zm9vYg"
  {
    EncodeIsBare([]);
    EncodeIsBare([102]);
    EncodeIsBare([102, 111]);
    EncodeIsBare([102, 111, 111]);
    EncodeIsBare([102, 111, 111, 98]);
    hide Encode, Three, Two, One;
    assert One(102) == "Zg" && One(98) == "Yg" by { OnesAndTwos(); }
    assert Two(102, 111) == "Zm8" by { OnesAndTwos(); }
    assert Three(102, 111, 111) == "Zm9v" by { OneThree(); }
    assert [102, 111, 111][3..] == [] && [102, 111, 111, 98][3..] == [98];
  }

  /** The two characters of the URL-safe alphabet. */
  lemma UrlSafe()
    ensures Encode([251, 255]) == "-_8"
  {
    EncodeIsBare([251, 255]);
    hide Encode, Two;
    assert Two(251, 255) == "-_8" by { OnesAndTwos(); }
  }

  lemma OnesAndTwos()
    ensures One(102) == "Zg" && One(98) == "Yg" && Two(102, 111) == "Zm8" && Two(251, 255) == "-_8"
  {}

  lemma OneThree()
    ensures Three(102, 111, 111) == "Zm9v"
  {}
}
