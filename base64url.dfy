/** The URL- and filename-safe base64 alphabet of section 5 of RFC 4648, with
    `=` padding kept, as Python's `base64.urlsafe_b64encode` produces it. */
module Base64Url {
  import opened Wrappers
  import opened Values

  /** The character for a six-bit value: A-Z, a-z, 0-9, then `-` and `_`. */
  function Char(v: int): (c: char)
    requires 0 <= v < 64
    ensures IsAlphabet(c)
  {
    if v < 26 then ('A' as int + v) as char
    else if v < 52 then ('a' as int + (v - 26)) as char
    else if v < 62 then ('0' as int + (v - 52)) as char
    else if v == 62 then '-'
    else '_'
  }

  predicate IsAlphabet(c: char)
  {
    'A' <= c <= 'Z' || 'a' <= c <= 'z' || '0' <= c <= '9' || c == '-' || c == '_'
  }

  /** The six-bit value of an alphabet character; the decoder's table. */
  function Value(c: char): (v: Option<int>)
    ensures v.Some? <==> IsAlphabet(c)
    ensures v.Some? ==> 0 <= v.value < 64 && Char(v.value) == c
  {
    if 'A' <= c <= 'Z' then Some(c as int - 'A' as int)
    else if 'a' <= c <= 'z' then Some(c as int - 'a' as int + 26)
    else if '0' <= c <= '9' then Some(c as int - '0' as int + 52)
    else if c == '-' then Some(62)
    else if c == '_' then Some(63)
    else None
  }

  lemma CharValue(v: int)
    requires 0 <= v < 64
    ensures Value(Char(v)) == Some(v)
  {
  }

  /** Three bytes as four characters. */
  function Quad(b0: Byte, b1: Byte, b2: Byte): string
  {
    [Char(b0 / 4), Char((b0 % 4) * 16 + b1 / 16), Char((b1 % 16) * 4 + b2 / 64), Char(b2 % 64)]
  }

  /** A last group of one byte: two characters and `==`. */
  function Single(b0: Byte): string
  {
    [Char(b0 / 4), Char((b0 % 4) * 16), '=', '=']
  }

  /** A last group of two bytes: three characters and `=`. */
  function Pair(b0: Byte, b1: Byte): string
  {
    [Char(b0 / 4), Char((b0 % 4) * 16 + b1 / 16), Char((b1 % 16) * 4), '=']
  }

  /** `base64.urlsafe_b64encode`: four characters per started group of three
      bytes, the last group padded with `=`. */
  function Encode(b: seq<Byte>): string
    decreases |b|
  {
    if |b| == 0 then ""
    else if |b| == 1 then Single(b[0])
    else if |b| == 2 then Pair(b[0], b[1])
    else Quad(b[0], b[1], b[2]) + Encode(b[3..])
  }

  /** How many `=` characters end the encoding of n bytes. */
  function PadCount(n: nat): nat
  {
    (3 - n % 3) % 3
  }

  /** Length, alphabet and padding of the encoder's output. */
  lemma {:induction false} EncodeShape(b: seq<Byte>)
    ensures |Encode(b)| == 4 * ((|b| + 2) / 3)
    ensures forall i :: 0 <= i < |Encode(b)| - PadCount(|b|) ==> IsAlphabet(Encode(b)[i])
    ensures forall i :: |Encode(b)| - PadCount(|b|) <= i < |Encode(b)| ==> Encode(b)[i] == '='
    decreases |b|
  {
    if |b| == 1 {
      assert Encode(b) == Single(b[0]);
      assert PadCount(|b|) == 2;
    } else if |b| == 2 {
      assert Encode(b) == Pair(b[0], b[1]);
      assert PadCount(|b|) == 1;
    } else if |b| >= 3 {
      var t := b[3..];
      EncodeShape(t);
      EncodeFront(b);
      GroupArith(|b|);
      GroupInFront(Quad(b[0], b[1], b[2]), Encode(t), PadCount(|t|));
    }
  }

  /** One more group of three bytes adds four characters and keeps the padding. */
  lemma GroupArith(n: nat)
    requires n >= 3
    ensures PadCount(n) == PadCount(n - 3)
    ensures 4 * ((n + 2) / 3) == 4 + 4 * ((n - 1) / 3)
  {
  }

  /** A group of alphabet characters put in front keeps the padding shape. */
  lemma GroupInFront(q: string, t: string, pad: nat)
    requires |q| == 4 && IsAlphabet(q[0]) && IsAlphabet(q[1]) && IsAlphabet(q[2]) && IsAlphabet(q[3])
    requires pad <= |t|
    requires forall i :: 0 <= i < |t| - pad ==> IsAlphabet(t[i])
    requires forall i :: |t| - pad <= i < |t| ==> t[i] == '='
    ensures forall i :: 0 <= i < |q + t| - pad ==> IsAlphabet((q + t)[i])
    ensures forall i :: |q + t| - pad <= i < |q + t| ==> (q + t)[i] == '='
  {
    forall i | 0 <= i < |q + t| - pad ensures IsAlphabet((q + t)[i]) {
      if i >= 4 { assert (q + t)[i] == t[i - 4]; } else { assert (q + t)[i] == q[i]; }
    }
  }

  /** Thirty-two bytes encode to 43 alphabet characters and one `=`. */
  lemma EncodeShape32(b: seq<Byte>)
    requires |b| == 32
    ensures |Encode(b)| == 44 && Encode(b)[43] == '='
    ensures forall i :: 0 <= i < 43 ==> IsAlphabet(Encode(b)[i])
  {
    EncodeShape(b);
    Arith32(|b|);
  }

  lemma Arith32(n: nat)
    requires n == 32
    ensures 4 * ((n + 2) / 3) == 44 && PadCount(n) == 1
  {
  }

  /** Every character of an encoding is an alphabet character or `=`. */
  lemma EncodeChars(b: seq<Byte>)
    ensures forall i :: 0 <= i < |Encode(b)| ==> IsAlphabet(Encode(b)[i]) || Encode(b)[i] == '='
  {
    EncodeShape(b);
  }

  /** Four characters with no padding back to three bytes. */
  function DecodeQuad(s: string): (r: Option<seq<Byte>>)
    requires |s| == 4
  {
    match (Value(s[0]), Value(s[1]), Value(s[2]), Value(s[3]))
    case (Some(v0), Some(v1), Some(v2), Some(v3)) =>
      Some([v0 * 4 + v1 / 16, (v1 % 16) * 16 + v2 / 4, (v2 % 4) * 64 + v3])
    case _ => None
  }

  /** The last group, which may carry one or two `=`. */
  function DecodeLast(s: string): (r: Option<seq<Byte>>)
    requires |s| == 4
  {
    if s[2] == '=' && s[3] == '=' then
      match (Value(s[0]), Value(s[1]))
      case (Some(v0), Some(v1)) => if v1 % 16 == 0 then Some([v0 * 4 + v1 / 16]) else None
      case _ => None
    else if s[3] == '=' then
      match (Value(s[0]), Value(s[1]), Value(s[2]))
      case (Some(v0), Some(v1), Some(v2)) =>
        if v2 % 4 == 0 then Some([v0 * 4 + v1 / 16, (v1 % 16) * 16 + v2 / 4]) else None
      case _ => None
    else DecodeQuad(s)
  }

  /** Strict decoder for padded base64url text: the encoder's inverse. */
  function Decode(s: string): (r: Option<seq<Byte>>)
    decreases |s|
  {
    if |s| == 0 then Some([])
    else if |s| < 4 then None
    else if |s| == 4 then DecodeLast(s)
    else
      match DecodeQuad(s[..4])
      case None => None
      case Some(g) =>
        match Decode(s[4..])
        case None => None
        case Some(rest) => Some(g + rest)
  }

  /** Splitting a value at a power-of-two boundary and joining it back. */
  lemma SplitJoin(x: int, d: int, q: int, r: int)
    requires d == 4 || d == 16 || d == 64
    requires 0 <= r < d && x == q * d + r
    ensures x / d == q && x % d == r
  {
  }

  /** The six-bit values of the second and third characters of a group, and
      the bytes they come from. */
  lemma GroupBits(b0: Byte, b1: Byte, b2: Byte)
    ensures ((b0 % 4) * 16 + b1 / 16) / 16 == b0 % 4
    ensures ((b0 % 4) * 16 + b1 / 16) % 16 == b1 / 16
    ensures ((b1 % 16) * 4 + b2 / 64) / 4 == b1 % 16
    ensures ((b1 % 16) * 4 + b2 / 64) % 4 == b2 / 64
  {
    SplitJoin((b0 % 4) * 16 + b1 / 16, 16, b0 % 4, b1 / 16);
    SplitJoin((b1 % 16) * 4 + b2 / 64, 4, b1 % 16, b2 / 64);
  }

  lemma QuadRoundTrip(b0: Byte, b1: Byte, b2: Byte)
    ensures DecodeQuad(Quad(b0, b1, b2)) == Some([b0, b1, b2])
  {
    CharValue(b0 / 4);
    CharValue((b0 % 4) * 16 + b1 / 16);
    CharValue((b1 % 16) * 4 + b2 / 64);
    CharValue(b2 % 64);
    GroupBits(b0, b1, b2);
    assert (b0 / 4) * 4 + b0 % 4 == b0;
    assert (b1 / 16) * 16 + b1 % 16 == b1;
    assert (b2 / 64) * 64 + b2 % 64 == b2;
  }

  /** The bytes of a one- or two-byte tail in terms of its six-bit values. */
  lemma TailBits(b0: Byte, b1: Byte)
    ensures (b0 / 4) * 4 + ((b0 % 4) * 16) / 16 == b0 && ((b0 % 4) * 16) % 16 == 0
    ensures var v1 := (b0 % 4) * 16 + b1 / 16;
            var v2 := (b1 % 16) * 4;
            (b0 / 4) * 4 + v1 / 16 == b0 && (v1 % 16) * 16 + v2 / 4 == b1 && v2 % 4 == 0
  {
    SplitJoin((b0 % 4) * 16, 16, b0 % 4, 0);
    GroupBits(b0, b1, 0);
    SplitJoin((b1 % 16) * 4, 4, b1 % 16, 0);
  }

  lemma DecodeEncodeOne(b0: Byte)
    ensures Decode(Encode([b0])) == Some([b0])
  {
    var v0, v1 := b0 / 4, (b0 % 4) * 16;
    var e := Encode([b0]);
    assert e == [Char(v0), Char(v1), '=', '='];
    CharValue(v0);
    CharValue(v1);
    TailBits(b0, 0);
    assert DecodeLast(e) == Some([v0 * 4 + v1 / 16]);
  }

  lemma DecodeEncodeTwo(b0: Byte, b1: Byte)
    ensures Decode(Encode([b0, b1])) == Some([b0, b1])
  {
    var v0, v1, v2 := b0 / 4, (b0 % 4) * 16 + b1 / 16, (b1 % 16) * 4;
    var e := Encode([b0, b1]);
    assert e == [Char(v0), Char(v1), Char(v2), '='];
    CharValue(v0);
    CharValue(v1);
    CharValue(v2);
    TailBits(b0, b1);
    assert DecodeLast(e) == Some([v0 * 4 + v1 / 16, (v1 % 16) * 16 + v2 / 4]);
  }

  /** A full group in front of a longer encoding decodes on its own. */
  lemma DecodeFront(q: string, rest: string, g: seq<Byte>, t: seq<Byte>)
    requires |q| == 4 && |rest| >= 4
    requires DecodeQuad(q) == Some(g) && Decode(rest) == Some(t)
    ensures Decode(q + rest) == Some(g + t)
  {
    assert (q + rest)[..4] == q;
    assert (q + rest)[4..] == rest;
  }

  /** The encoding of three or more bytes is a full group and the rest. */
  lemma EncodeFront(b: seq<Byte>)
    requires |b| >= 3
    ensures Encode(b) == Quad(b[0], b[1], b[2]) + Encode(b[3..])
  {
  }

  /** Decoding an encoding gives back the bytes. */
  lemma {:induction false} DecodeEncode(b: seq<Byte>)
    ensures Decode(Encode(b)) == Some(b)
    decreases |b|
  {
    if |b| == 1 {
      DecodeEncodeOne(b[0]);
      assert b == [b[0]];
    } else if |b| == 2 {
      DecodeEncodeTwo(b[0], b[1]);
      assert b == [b[0], b[1]];
    } else if |b| == 3 {
      DecodeEncodeThree(b);
    } else if |b| > 3 {
      DecodeEncode(b[3..]);
      DecodeEncodeLong(b);
    }
  }

  lemma DecodeEncodeThree(b: seq<Byte>)
    requires |b| == 3
    ensures Decode(Encode(b)) == Some(b)
  {
    EncodeFront(b);
    QuadRoundTrip(b[0], b[1], b[2]);
    assert Encode(b) == Quad(b[0], b[1], b[2]);
    assert b == [b[0], b[1], b[2]];
  }

  lemma DecodeEncodeLong(b: seq<Byte>)
    requires |b| > 3
    requires Decode(Encode(b[3..])) == Some(b[3..])
    ensures Decode(Encode(b)) == Some(b)
  {
    EncodeFront(b);
    EncodeShape(b[3..]);
    DecodeGroups(b, Quad(b[0], b[1], b[2]), Encode(b[3..]));
  }

  lemma DecodeGroups(b: seq<Byte>, q: string, rest: string)
    requires |b| > 3 && q == Quad(b[0], b[1], b[2])
    requires |rest| >= 4 && Decode(rest) == Some(b[3..])
    ensures Decode(q + rest) == Some(b)
  {
    QuadRoundTrip(b[0], b[1], b[2]);
    DecodeFront(q, rest, [b[0], b[1], b[2]], b[3..]);
    assert [b[0], b[1], b[2]] + b[3..] == b;
  }
}
