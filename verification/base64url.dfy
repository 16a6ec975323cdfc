/** Unpadded base64 with the URL- and filename-safe alphabet of section 5 of
    RFC 4648 (Go's `base64.RawURLEncoding`): `A`-`Z`, `a`-`z`, `0`-`9`, `-`, `_`,
    no `=` padding. Encoding follows the Go encoder: every full group of three
    bytes becomes four 6-bit values, a trailing group of one or two bytes
    becomes two or three, and each value becomes one alphabet character.
    Decoding is the strict inverse (the unused low bits of a short last group
    must be zero) and exists here as the partner of Encode. */
module Base64Url {
  import opened Wrappers

  type byte = x: int | 0 <= x < 256
  type sextet = x: int | 0 <= x < 64

  /** Characters of the URL-safe alphabet. */
  predicate IsUrlSafeChar(c: char) {
    ('A' <= c <= 'Z') || ('a' <= c <= 'z') || ('0' <= c <= '9') || c == '-' || c == '_'
  }

  predicate IsUrlSafe(s: string) {
    forall i :: 0 <= i < |s| ==> IsUrlSafeChar(s[i])
  }

  /** The alphabet character for a 6-bit value. */
  function CharOf(v: sextet): (c: char)
    ensures IsUrlSafeChar(c)
    ensures c != '=' && c != '/' && c != '.'
  {
    if v < 26 then ('A' as int + v) as char
    else if v < 52 then ('a' as int + (v - 26)) as char
    else if v < 62 then ('0' as int + (v - 52)) as char
    else if v == 62 then '-'
    else '_'
  }

  /** The 6-bit value of an alphabet character; None outside the alphabet. */
  function ValueOf(c: char): (r: Option<sextet>)
    ensures r.Some? <==> IsUrlSafeChar(c)
  {
    if 'A' <= c <= 'Z' then Some(c as int - 'A' as int)
    else if 'a' <= c <= 'z' then Some(c as int - 'a' as int + 26)
    else if '0' <= c <= '9' then Some(c as int - '0' as int + 52)
    else if c == '-' then Some(62)
    else if c == '_' then Some(63)
    else None
  }

  /** ValueOf undoes CharOf. */
  lemma ValueOfCharOf(v: sextet)
    ensures ValueOf(CharOf(v)) == Some(v)
  {
  }

  /** CharOf undoes ValueOf on the alphabet. */
  lemma CharOfValueOf(c: char)
    requires IsUrlSafeChar(c)
    ensures CharOf(ValueOf(c).value) == c
  {
  }

  /** Number of characters the unpadded encoding of `n` bytes has: one
      character per started 6 bits. */
  function EncodedLength(n: nat): nat {
    (8 * n + 5) / 6
  }

  /** Three bytes, most significant bit first, cut into four 6-bit values. */
  function SplitTriple(a: byte, b: byte, c: byte): seq<sextet> {
    [a / 4, a % 4 * 16 + b / 16, b % 16 * 4 + c / 64, c % 64]
  }

  /** The 6-bit values of a byte sequence: four per full group of three bytes,
      then two for a last single byte and three for a last pair, the unused
      low bits set to zero. */
  function Sextets(b: seq<byte>): (v: seq<sextet>)
    ensures |v| == EncodedLength(|b|)
    decreases |b|
  {
    if |b| >= 3 then SplitTriple(b[0], b[1], b[2]) + Sextets(b[3..])
    else if |b| == 2 then SplitTriple(b[0], b[1], 0)[..3]
    else if |b| == 1 then SplitTriple(b[0], 0, 0)[..2]
    else []
  }

  /** `hi * m + lo` with `lo < m` splits back into `hi` and `lo` (for the
      widths base64 uses). */
  lemma SplitDigits(hi: int, lo: int, m: int)
    requires m in {4, 16, 0x40, 0x1000, 0x40000}
    requires 0 <= hi && 0 <= lo < m
    ensures (hi * m + lo) / m == hi && (hi * m + lo) % m == lo
  {
    if m == 4 {
    } else if m == 16 {
    } else if m == 0x40 {
    } else if m == 0x1000 {
    } else {
    }
  }

  /** The 24-bit value of three bytes is also the big-endian value of their
      four 6-bit values. */
  lemma TwentyFourBits(a: byte, b: byte, c: byte)
    ensures var t := SplitTriple(a, b, c);
      a * 0x10000 + b * 0x100 + c == t[0] as int * 0x40000 + t[1] as int * 0x1000 + t[2] as int * 0x40 + t[3] as int
  {
    assert a == a / 4 * 4 + a % 4;
    assert b == b / 16 * 16 + b % 16;
    assert c == c / 64 * 64 + c % 64;
  }

  /** The four 6-bit values of SplitTriple are Go's shifts of the 24-bit
      value `a<<16 | b<<8 | c`: `>>18`, `>>12&0x3F`, `>>6&0x3F`, `&0x3F`. A
      short last group is the same with the missing bytes zero. */
  lemma SplitTripleMatchesShifts(a: byte, b: byte, c: byte)
    ensures var v, t := a * 0x10000 + b * 0x100 + c, SplitTriple(a, b, c);
      t[0] == v / 0x40000 && t[1] == v / 0x1000 % 64 && t[2] == v / 0x40 % 64 && t[3] == v % 64
  {
    var t := SplitTriple(a, b, c);
    var s0: int, s1: int, s2: int, s3: int := t[0], t[1], t[2], t[3];
    TwentyFourBits(a, b, c);
    SplitDigits(s0 * 0x1000 + s1 * 0x40 + s2, s3, 0x40);
    SplitDigits(s0 * 0x40 + s1, s2 * 0x40 + s3, 0x1000);
    SplitDigits(s0, s1 * 0x1000 + s2 * 0x40 + s3, 0x40000);
    SplitDigits(s0 * 0x40 + s1, s2, 0x40);
    SplitDigits(s0, s1, 0x40);
  }

  /** The alphabet characters of a sequence of 6-bit values. */
  function Chars(v: seq<sextet>): (s: string)
    ensures |s| == |v| && IsUrlSafe(s)
  {
    seq(|v|, i requires 0 <= i < |v| => CharOf(v[i]))
  }

  /** The 6-bit values of a string of alphabet characters. */
  function Values(s: string): (v: seq<sextet>)
    requires IsUrlSafe(s)
    ensures |v| == |s|
  {
    seq(|s|, i requires 0 <= i < |s| => ValueOf(s[i]).value)
  }

  /** The unpadded URL-safe encoding of `b`. */
  function Encode(b: seq<byte>): (s: string)
    ensures |s| == EncodedLength(|b|)
    ensures IsUrlSafe(s)
  {
    Chars(Sextets(b))
  }

  /** Four 6-bit values back to three bytes. */
  function JoinQuad(c0: sextet, c1: sextet, c2: sextet, c3: sextet): seq<byte> {
    [c0 * 4 + c1 / 16, c1 % 16 * 16 + c2 / 4, c2 % 4 * 64 + c3]
  }

  /** 6-bit values back to bytes; None when the count is one more than a
      multiple of four or the unused low bits of a short last group are not zero. */
  function JoinSextets(v: seq<sextet>): (r: Option<seq<byte>>)
    decreases |v|
  {
    if |v| >= 4 then
      match JoinSextets(v[4..])
      case None => None
      case Some(tail) => Some(JoinQuad(v[0], v[1], v[2], v[3]) + tail)
    else if |v| == 3 then
      if v[2] % 4 != 0 then None else Some(JoinQuad(v[0], v[1], v[2], 0)[..2])
    else if |v| == 2 then
      if v[1] % 16 != 0 then None else Some(JoinQuad(v[0], v[1], 0, 0)[..1])
    else if |v| == 1 then None
    else Some([])
  }

  /** Strict decoding of unpadded URL-safe base64; None for any string that no
      byte sequence encodes to. */
  function Decode(s: string): (r: Option<seq<byte>>)
  {
    if IsUrlSafe(s) then JoinSextets(Values(s)) else None
  }

  /** Joining the values of three bytes gives the bytes back. */
  lemma JoinSplit(a: byte, b: byte, c: byte)
    ensures var v := SplitTriple(a, b, c); JoinQuad(v[0], v[1], v[2], v[3]) == [a, b, c]
  {
    SplitDigits(a % 4, b / 16, 16);
    SplitDigits(b % 16, c / 64, 4);
  }

  /** Splitting the bytes of four 6-bit values gives the values back. */
  lemma SplitJoin(c0: sextet, c1: sextet, c2: sextet, c3: sextet)
    ensures var t := JoinQuad(c0, c1, c2, c3); SplitTriple(t[0], t[1], t[2]) == [c0, c1, c2, c3]
  {
    SplitDigits(c0, c1 / 16, 4);
    SplitDigits(c1 % 16, c2 / 4, 16);
    SplitDigits(c2 % 4, c3, 64);
  }

  lemma {:induction false} JoinSextetsOfBytes(b: seq<byte>)
    ensures JoinSextets(Sextets(b)) == Some(b)
    decreases |b|
  {
    if |b| >= 3 {
      var v := Sextets(b);
      var head := SplitTriple(b[0], b[1], b[2]);
      assert v[..4] == head && v[4..] == Sextets(b[3..]);
      JoinSplit(b[0], b[1], b[2]);
      JoinSextetsOfBytes(b[3..]);
      assert [b[0], b[1], b[2]] + b[3..] == b;
    } else if |b| == 2 {
      var t := SplitTriple(b[0], b[1], 0);
      assert Sextets(b) == [t[0], t[1], t[2]];
      SplitDigits(b[1] % 16, 0, 4);
      assert t[2] % 4 == 0 && t[3] == 0;
      JoinSplit(b[0], b[1], 0);
      assert JoinSextets(Sextets(b)) == Some(JoinQuad(t[0], t[1], t[2], t[3])[..2]);
      assert JoinQuad(t[0], t[1], t[2], t[3])[..2] == [b[0], b[1]];
      assert [b[0], b[1]] == b;
    } else if |b| == 1 {
      var t := SplitTriple(b[0], 0, 0);
      assert Sextets(b) == [t[0], t[1]];
      SplitDigits(b[0] % 4, 0, 16);
      assert t[1] % 16 == 0 && t[2] == 0 && t[3] == 0;
      JoinSplit(b[0], 0, 0);
      assert JoinSextets(Sextets(b)) == Some(JoinQuad(t[0], t[1], t[2], t[3])[..1]);
      assert JoinQuad(t[0], t[1], t[2], t[3])[..1] == [b[0]];
      assert [b[0]] == b;
    }
  }

  lemma {:induction false} SextetsOfJoined(v: seq<sextet>)
    requires JoinSextets(v).Some?
    ensures Sextets(JoinSextets(v).value) == v
    decreases |v|
  {
    if |v| >= 4 {
      var head := JoinQuad(v[0], v[1], v[2], v[3]);
      var tail := JoinSextets(v[4..]).value;
      var b := head + tail;
      assert b[..3] == head && b[3..] == tail;
      SplitJoin(v[0], v[1], v[2], v[3]);
      SextetsOfJoined(v[4..]);
      assert v[..4] + v[4..] == v;
    } else if |v| == 3 {
      SplitJoin(v[0], v[1], v[2], 0);
    } else if |v| == 2 {
      SplitJoin(v[0], v[1], 0, 0);
    }
  }

  /** Reading the characters of values gives the values back. */
  lemma ValuesOfChars(v: seq<sextet>)
    ensures Values(Chars(v)) == v
  {
    forall i | 0 <= i < |v| ensures Values(Chars(v))[i] == v[i] {
      ValueOfCharOf(v[i]);
    }
  }

  /** Writing the values of alphabet characters gives the characters back. */
  lemma CharsOfValues(s: string)
    requires IsUrlSafe(s)
    ensures Chars(Values(s)) == s
  {
    forall i | 0 <= i < |s| ensures Chars(Values(s))[i] == s[i] {
      CharOfValueOf(s[i]);
    }
  }

  /** Decoding an encoding gives back the original bytes. */
  lemma DecodeEncode(b: seq<byte>)
    ensures Decode(Encode(b)) == Some(b)
  {
    ValuesOfChars(Sextets(b));
    JoinSextetsOfBytes(b);
  }

  /** Every string Decode accepts is the encoding of what it decodes to, so
      Decode accepts exactly the encodings and Encode is a bijection onto them. */
  lemma EncodeDecode(s: string)
    requires Decode(s).Some?
    ensures Encode(Decode(s).value) == s
  {
    SextetsOfJoined(Values(s));
    CharsOfValues(s);
  }
}
