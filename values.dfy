/** Values held in configuration dictionaries, Python's `str()` of them, and UTF-8. */
module Values {
  import opened Wrappers

  type Byte = b: int | 0 <= b < 256

  /** A value read from a configuration dictionary (JSON or YAML scalars). */
  datatype ConfigValue = Null | Str(s: string) | Int(i: int) | Bool(b: bool)

  /** `d.get(key)`: a missing key reads as None. */
  function Get(d: map<string, ConfigValue>, key: string): (v: ConfigValue)
    ensures key !in d ==> v == Null
    ensures key in d ==> v == d[key]
  {
    if key in d then d[key] else Null
  }

  function OptStr(o: Option<string>): (v: ConfigValue)
    ensures o.None? <==> v == Null
    ensures o.Some? ==> v == Str(o.value)
  {
    match o
    case None => Null
    case Some(s) => Str(s)
  }

  function DigitChar(d: int): char
    requires 0 <= d < 10
  {
    ('0' as int + d) as char
  }

  /** Decimal digits of a natural number, most significant first. */
  function NatToString(n: nat): (s: string)
    ensures |s| >= 1
    ensures forall i :: 0 <= i < |s| ==> '0' <= s[i] <= '9'
    decreases n
  {
    if n < 10 then [DigitChar(n)] else NatToString(n / 10) + [DigitChar(n % 10)]
  }

  /** Python's `str(v)`, which is also what `"{}".format(v)` produces. */
  function Show(v: ConfigValue): string
  {
    match v
    case Null => "None"
    case Str(s) => s
    case Int(i) => if i < 0 then "-" + NatToString(-i) else NatToString(i)
    case Bool(b) => if b then "True" else "False"
  }

  predicate IsAscii(s: string)
  {
    forall i :: 0 <= i < |s| ==> s[i] as int < 128
  }

  /** UTF-8 encoding of one Unicode scalar value. */
  function Utf8Char(c: char): (bs: seq<Byte>)
    ensures 1 <= |bs| <= 4
    ensures c as int < 128 <==> bs == [c as int]
  {
    var cp := c as int;
    if cp < 0x80 then [cp]
    else if cp < 0x800 then [0xC0 + cp / 64, 0x80 + cp % 64]
    else if cp < 0x1_0000 then [0xE0 + cp / 4096, 0x80 + (cp / 64) % 64, 0x80 + cp % 64]
    else [0xF0 + cp / 262144, 0x80 + (cp / 4096) % 64, 0x80 + (cp / 64) % 64, 0x80 + cp % 64]
  }

  /** `s.encode("utf-8")`. */
  function Utf8(s: string): (bs: seq<Byte>)
    decreases |s|
  {
    if s == [] then [] else Utf8Char(s[0]) + Utf8(s[1..])
  }

  /** On ASCII text UTF-8 is the identity on code points, which is why the
      code's `encode("ASCII")` and `encode("utf-8")` agree on its strings. */
  lemma {:induction false} Utf8OfAscii(s: string)
    requires IsAscii(s)
    ensures |Utf8(s)| == |s|
    ensures forall i :: 0 <= i < |s| ==> Utf8(s)[i] == s[i] as int
    decreases |s|
  {
    if s != [] {
      Utf8OfAscii(s[1..]);
      assert Utf8(s) == [s[0] as int] + Utf8(s[1..]);
    }
  }
}
