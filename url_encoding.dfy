/** Percent-encoding as Python's `urllib.parse.quote(s, safe='')` does it
    (sections 2.1 and 2.3 of RFC 3986), `urlencode(params, quote_via=quote)`,
    and a query decoder that undoes them. */
module UrlEncoding {
  import opened Wrappers
  import opened Values

  /** The unreserved characters of section 2.3 of RFC 3986: with `safe=''`
      these are the only bytes `quote` leaves as they are. */
  predicate Unreserved(b: Byte)
  {
    'A' as int <= b <= 'Z' as int || 'a' as int <= b <= 'z' as int || '0' as int <= b <= '9' as int
    || b == '-' as int || b == '.' as int || b == '_' as int || b == '~' as int
  }

  /** Upper-case hexadecimal digit, as `quote` writes it. */
  function HexDigit(d: int): (c: char)
    requires 0 <= d < 16
  {
    if d < 10 then ('0' as int + d) as char else ('A' as int + d - 10) as char
  }

  function HexValue(c: char): (v: Option<int>)
    ensures v.Some? ==> 0 <= v.value < 16
  {
    if '0' <= c <= '9' then Some(c as int - '0' as int)
    else if 'A' <= c <= 'F' then Some(c as int - 'A' as int + 10)
    else if 'a' <= c <= 'f' then Some(c as int - 'a' as int + 10)
    else None
  }

  /** One byte: itself when unreserved, `%XX` otherwise. */
  function QuoteByte(b: Byte): (s: string)
  {
    if Unreserved(b) then [b as char] else ['%', HexDigit(b / 16), HexDigit(b % 16)]
  }

  function QuoteBytes(bs: seq<Byte>): string
    decreases |bs|
  {
    if bs == [] then "" else QuoteByte(bs[0]) + QuoteBytes(bs[1..])
  }

  /** `quote(s, safe='')`: the UTF-8 bytes of `s`, each percent-encoded unless unreserved. */
  function Quote(s: string): string
  {
    QuoteBytes(Utf8(s))
  }

  /** A character that `quote` can produce. */
  predicate QuotedChar(c: char)
  {
    c == '%' || (c as int < 128 && Unreserved(c as int)) || HexValue(c).Some?
  }

  lemma {:induction false} QuoteBytesChars(bs: seq<Byte>)
    ensures forall i :: 0 <= i < |QuoteBytes(bs)| ==> QuotedChar(QuoteBytes(bs)[i])
    decreases |bs|
  {
    if bs != [] {
      QuoteBytesChars(bs[1..]);
      var h, t := QuoteByte(bs[0]), QuoteBytes(bs[1..]);
      assert QuoteBytes(bs) == h + t;
      forall i | 0 <= i < |h + t| ensures QuotedChar((h + t)[i]) {
        if i >= |h| { assert (h + t)[i] == t[i - |h|]; }
      }
    }
  }

  /** A quoted string never holds the query delimiters `&` and `=`, nor any
      character outside the unreserved set other than `%`. */
  lemma QuoteHasNoDelimiters(s: string)
    ensures '&' !in Quote(s) && '=' !in Quote(s)
    ensures forall i :: 0 <= i < |Quote(s)| ==> QuotedChar(Quote(s)[i])
  {
    QuoteBytesChars(Utf8(s));
  }

  /** Strict percent-decoding: `%XX` gives a byte, any other ASCII character its code. */
  function Unquote(s: string): (r: Option<seq<Byte>>)
    decreases |s|
  {
    if s == [] then Some([])
    else if s[0] == '%' then
      if |s| < 3 then None
      else match (HexValue(s[1]), HexValue(s[2]), Unquote(s[3..]))
        case (Some(hi), Some(lo), Some(rest)) => Some([hi * 16 + lo] + rest)
        case _ => None
    else if s[0] as int < 128 then
      match Unquote(s[1..])
      case Some(rest) => Some([s[0] as int] + rest)
      case None => None
    else None
  }

  lemma HexRoundTrip(d: int)
    requires 0 <= d < 16
    ensures HexValue(HexDigit(d)) == Some(d)
  {
  }

  lemma UnquoteFront(b: Byte, t: string, rest: seq<Byte>)
    requires Unquote(t) == Some(rest)
    ensures Unquote(QuoteByte(b) + t) == Some([b] + rest)
  {
    var s := QuoteByte(b) + t;
    if Unreserved(b) {
      assert s[0] == b as char && s[1..] == t;
    } else {
      HexRoundTrip(b / 16);
      HexRoundTrip(b % 16);
      assert s[0] == '%' && s[3..] == t;
      assert (b / 16) * 16 + b % 16 == b;
    }
  }

  /** Percent-decoding undoes `quote` byte for byte. */
  lemma {:induction false} UnquoteQuoteBytes(bs: seq<Byte>)
    ensures Unquote(QuoteBytes(bs)) == Some(bs)
    decreases |bs|
  {
    if bs != [] {
      UnquoteQuoteBytes(bs[1..]);
      UnquoteFront(bs[0], QuoteBytes(bs[1..]), bs[1..]);
      assert [bs[0]] + bs[1..] == bs;
    }
  }

  lemma UnquoteQuote(s: string)
    ensures Unquote(Quote(s)) == Some(Utf8(s))
  {
    UnquoteQuoteBytes(Utf8(s));
  }

  /** `str.split(sep)`: the pieces between the separators, always at least one. */
  function Split(s: string, sep: char): (parts: seq<string>)
    ensures |parts| >= 1
    decreases |s|
  {
    if s == [] then [""]
    else
      var rest := Split(s[1..], sep);
      if s[0] == sep then [""] + rest else [[s[0]] + rest[0]] + rest[1..]
  }

  /** `sep.join(parts)`. */
  function Join(parts: seq<string>, sep: char): string
    decreases |parts|
  {
    if parts == [] then ""
    else if |parts| == 1 then parts[0]
    else parts[0] + [sep] + Join(parts[1..], sep)
  }

  lemma {:induction false} SplitFront(x: string, y: string, sep: char)
    requires sep !in x
    ensures Split(x + [sep] + y, sep) == [x] + Split(y, sep)
    decreases |x|
  {
    if x == [] {
      assert x + [sep] + y == [sep] + y;
      assert ([sep] + y)[1..] == y;
    } else {
      SplitFront(x[1..], y, sep);
      assert (x + [sep] + y)[1..] == x[1..] + [sep] + y;
      assert [x[0]] + x[1..] == x;
    }
  }

  lemma {:induction false} SplitWhole(x: string, sep: char)
    requires sep !in x
    ensures Split(x, sep) == [x]
    decreases |x|
  {
    if x != [] {
      SplitWhole(x[1..], sep);
      assert [x[0]] + x[1..] == x;
    }
  }

  /** Splitting a join gives back its parts when none of them holds the separator. */
  lemma {:induction false} SplitJoin(parts: seq<string>, sep: char)
    requires |parts| >= 1
    requires forall i :: 0 <= i < |parts| ==> sep !in parts[i]
    ensures Split(Join(parts, sep), sep) == parts
    decreases |parts|
  {
    if |parts| == 1 {
      SplitWhole(parts[0], sep);
    } else {
      SplitJoin(parts[1..], sep);
      SplitFront(parts[0], Join(parts[1..], sep), sep);
      assert [parts[0]] + parts[1..] == parts;
    }
  }

  /** One `key=value` item of `urlencode`, both sides passed through `str()` and `quote`. */
  function EncodePair(key: string, value: ConfigValue): string
  {
    Quote(key) + "=" + Quote(Show(value))
  }

  function EncodePairs(params: seq<(string, ConfigValue)>): (items: seq<string>)
    ensures |items| == |params|
    ensures forall i :: 0 <= i < |params| ==> items[i] == EncodePair(params[i].0, params[i].1)
    decreases |params|
  {
    if params == [] then [] else [EncodePair(params[0].0, params[0].1)] + EncodePairs(params[1..])
  }

  /** `urlencode(params, quote_via=quote)`: the items, in order, joined by `&`. */
  function Urlencode(params: seq<(string, ConfigValue)>): string
  {
    Join(EncodePairs(params), '&')
  }

  /** One `key=value` item back to the bytes of its key and value. */
  function ParsePair(item: string): Option<(seq<Byte>, seq<Byte>)>
  {
    var kv := Split(item, '=');
    if |kv| != 2 then None
    else match (Unquote(kv[0]), Unquote(kv[1]))
      case (Some(k), Some(v)) => Some((k, v))
      case _ => None
  }

  function ParseItems(items: seq<string>): Option<seq<(seq<Byte>, seq<Byte>)>>
    decreases |items|
  {
    if items == [] then Some([])
    else match (ParsePair(items[0]), ParseItems(items[1..]))
      case (Some(p), Some(rest)) => Some([p] + rest)
      case _ => None
  }

  /** Decodes a query string into its ordered key/value byte pairs. */
  function ParseQuery(query: string): Option<seq<(seq<Byte>, seq<Byte>)>>
  {
    if query == [] then Some([]) else ParseItems(Split(query, '&'))
  }

  /** What decoding an encoded query should give: every key and value as UTF-8 bytes. */
  function Expected(params: seq<(string, ConfigValue)>): (r: seq<(seq<Byte>, seq<Byte>)>)
    ensures |r| == |params|
    ensures forall i :: 0 <= i < |params| ==> r[i] == (Utf8(params[i].0), Utf8(Show(params[i].1)))
    decreases |params|
  {
    if params == [] then [] else [(Utf8(params[0].0), Utf8(Show(params[0].1)))] + Expected(params[1..])
  }

  lemma ParseEncodedPair(key: string, value: ConfigValue)
    ensures ParsePair(EncodePair(key, value)) == Some((Utf8(key), Utf8(Show(value))))
  {
    var k, v := Quote(key), Quote(Show(value));
    QuoteHasNoDelimiters(key);
    QuoteHasNoDelimiters(Show(value));
    assert EncodePair(key, value) == k + ['='] + v;
    SplitFront(k, v, '=');
    SplitWhole(v, '=');
    UnquoteQuote(key);
    UnquoteQuote(Show(value));
  }

  lemma {:induction false} ParseEncodedItems(params: seq<(string, ConfigValue)>)
    ensures ParseItems(EncodePairs(params)) == Some(Expected(params))
    decreases |params|
  {
    if params != [] {
      ParseEncodedItems(params[1..]);
      ParseEncodedPair(params[0].0, params[0].1);
      assert EncodePairs(params)[1..] == EncodePairs(params[1..]);
    }
  }

  /** Decoding an encoded query recovers every key and value, in order. */
  lemma ParseUrlencode(params: seq<(string, ConfigValue)>)
    requires |params| >= 1
    ensures ParseQuery(Urlencode(params)) == Some(Expected(params))
  {
    var items := EncodePairs(params);
    forall i | 0 <= i < |items| ensures '&' !in items[i] {
      QuoteHasNoDelimiters(params[i].0);
      QuoteHasNoDelimiters(Show(params[i].1));
      assert items[i] == Quote(params[i].0) + "=" + Quote(Show(params[i].1));
    }
    SplitJoin(items, '&');
    assert Urlencode(params) != [] by {
      assert |items[0]| >= 1;
      JoinHead(items, '&');
    }
    ParseEncodedItems(params);
  }

  lemma JoinHead(parts: seq<string>, sep: char)
    requires |parts| >= 1
    ensures |Join(parts, sep)| >= |parts[0]|
  {
  }
}
