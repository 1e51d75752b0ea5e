/** Form encoding of a query string as Python's `urlencode` does it with its
    default `quote_plus`: every key and value is encoded to UTF-8, bytes that
    are ASCII letters, digits or one of `_.-~` stay as they are, a space
    becomes `+`, and every other byte becomes `%XY` in upper-case hex; the
    `key=value` pieces are joined with `&`, in the order given. */
module UrlEncode {
  import opened Optional
  import opened Text

  newtype byte = x: int | 0 <= x < 256

  // ---------------------------------------------------------------------------
  // UTF-8.

  /** UTF-8 encoding of one Unicode scalar value. */
  function Utf8Char(c: char): (bs: seq<byte>)
    ensures 1 <= |bs| <= 4
    ensures |bs| == 1 <==> c as int < 0x80
    ensures |bs| == 1 ==> bs[0] as int == c as int
    ensures forall i :: 1 <= i < |bs| ==> 0x80 <= bs[i] < 0xC0
  {
    var n := c as int;
    if n < 0x80 then [n as byte]
    else if n < 0x800 then
      [(0xC0 + n / 64) as byte, (0x80 + n % 64) as byte]
    else if n < 0x10000 then
      [(0xE0 + n / 4096) as byte, (0x80 + n / 64 % 64) as byte, (0x80 + n % 64) as byte]
    else
      [(0xF0 + n / 262144) as byte, (0x80 + n / 4096 % 64) as byte,
       (0x80 + n / 64 % 64) as byte, (0x80 + n % 64) as byte]
  }

  /** The code point a well-formed UTF-8 sequence of one character stands for. */
  function Utf8Value(bs: seq<byte>): int
    requires 1 <= |bs| <= 4
  {
    if |bs| == 1 then bs[0] as int
    else if |bs| == 2 then (bs[0] as int - 0xC0) * 64 + (bs[1] as int - 0x80)
    else if |bs| == 3 then
      (bs[0] as int - 0xE0) * 4096 + (bs[1] as int - 0x80) * 64 + (bs[2] as int - 0x80)
    else
      (bs[0] as int - 0xF0) * 262144 + (bs[1] as int - 0x80) * 4096
      + (bs[2] as int - 0x80) * 64 + (bs[3] as int - 0x80)
  }

  lemma DivDiv64(n: nat)
    ensures n / 64 / 64 == n / 4096
    ensures n / 4096 / 64 == n / 262144
  {
  }

  /** Decoding the bytes of one character gives the character back. */
  lemma Utf8CharRoundTrip(c: char)
    ensures Utf8Value(Utf8Char(c)) == c as int
  {
    var n := c as int;
    DivDiv64(n);
    if n >= 0x800 {
      assert n / 64 == (n / 4096) * 64 + n / 64 % 64;
      if n >= 0x10000 {
        assert n / 4096 == (n / 262144) * 64 + n / 4096 % 64;
      }
    }
  }

  function Utf8(s: string): seq<byte>
    decreases |s|
  {
    if s == [] then [] else Utf8Char(s[0]) + Utf8(s[1..])
  }

  // ---------------------------------------------------------------------------
  // Percent-encoding of bytes.

  /** The bytes `quote_plus` leaves alone: ASCII letters, digits and `_.-~`. */
  predicate Unreserved(b: byte) {
    || ('A' as int <= b as int <= 'Z' as int)
    || ('a' as int <= b as int <= 'z' as int)
    || ('0' as int <= b as int <= '9' as int)
    || b as int == '_' as int || b as int == '.' as int
    || b as int == '-' as int || b as int == '~' as int
  }

  /** The characters an encoded query component is made of. */
  predicate QueryChar(c: char) {
    (c as int < 256 && Unreserved(c as int as byte)) || c == '+' || c == '%'
  }

  const HexDigits: string := "0123456789ABCDEF"

  function HexDigit(d: int): char
    requires 0 <= d < 16
  {
    HexDigits[d]
  }

  predicate IsHex(c: char) {
    ('0' <= c <= '9') || ('A' <= c <= 'F')
  }

  function HexValue(c: char): (d: int)
    requires IsHex(c)
    ensures 0 <= d < 16
  {
    if '0' <= c <= '9' then c as int - '0' as int else c as int - 'A' as int + 10
  }

  lemma HexDigitValue(d: int)
    requires 0 <= d < 16
    ensures IsHex(HexDigit(d)) && HexValue(HexDigit(d)) == d
  {
  }

  /** How `quote_plus` writes one byte of its UTF-8 input. */
  function QuoteByte(b: byte): (r: string)
    ensures 1 <= |r| <= 3
    ensures forall i :: 0 <= i < |r| ==> QueryChar(r[i])
  {
    if Unreserved(b) then [b as int as char]
    else if b == 0x20 then "+"
    else ['%', HexDigit(b as int / 16), HexDigit(b as int % 16)]
  }

  function QuoteBytes(bs: seq<byte>): (r: string)
    ensures forall i :: 0 <= i < |r| ==> QueryChar(r[i])
    decreases |bs|
  {
    if bs == [] then "" else QuoteByte(bs[0]) + QuoteBytes(bs[1..])
  }

  /** `quote_plus(s)` with its default (empty) set of extra safe characters. */
  function QuotePlus(s: string): string {
    QuoteBytes(Utf8(s))
  }

  lemma {:induction false} Utf8Append(a: string, b: string)
    ensures Utf8(a + b) == Utf8(a) + Utf8(b)
    decreases |a|
  {
    if a != [] {
      assert (a + b)[1..] == a[1..] + b;
      Utf8Append(a[1..], b);
    } else {
      assert a + b == b;
    }
  }

  lemma {:induction false} QuoteBytesAppend(a: seq<byte>, b: seq<byte>)
    ensures QuoteBytes(a + b) == QuoteBytes(a) + QuoteBytes(b)
    decreases |a|
  {
    if a != [] {
      assert (a + b)[1..] == a[1..] + b;
      QuoteBytesAppend(a[1..], b);
    } else {
      assert a + b == b;
    }
  }

  /** Quoting distributes over concatenation. */
  lemma QuotePlusAppend(a: string, b: string)
    ensures QuotePlus(a + b) == QuotePlus(a) + QuotePlus(b)
  {
    Utf8Append(a, b);
    QuoteBytesAppend(Utf8(a), Utf8(b));
  }

  /** ASCII letters, digits and `_.-~`. */
  predicate UnreservedChar(c: char) {
    c as int < 128 && Unreserved(c as int as byte)
  }

  /** Text made of unreserved characters is its own encoding. */
  lemma {:induction false} QuotePlusUnreserved(s: string)
    requires forall i :: 0 <= i < |s| ==> UnreservedChar(s[i])
    ensures QuotePlus(s) == s
    decreases |s|
  {
    if s != [] {
      QuotePlusUnreserved(s[1..]);
      assert s == [s[0]] + s[1..];
      QuotePlusAppend([s[0]], s[1..]);
      assert Utf8([s[0]]) == Utf8Char(s[0]);
    }
  }

  lemma QuoteBrackets()
    ensures QuotePlus("[") == "%5B" && QuotePlus("]") == "%5D"
  {
    assert Utf8("[") == [0x5B];
    assert Utf8("]") == [0x5D];
  }

  /** A bracketed parameter name such as `page[number]` is encoded with its
      brackets percent-encoded and everything else kept. */
  lemma QuoteBracketed(a: string, b: string)
    requires forall i :: 0 <= i < |a| ==> UnreservedChar(a[i])
    requires forall i :: 0 <= i < |b| ==> UnreservedChar(b[i])
    ensures QuotePlus(a + "[" + b + "]") == a + "%5B" + b + "%5D"
  {
    assert QuotePlus(a + "[") == a + "%5B" by {
      QuoteBrackets();
      QuotePlusUnreserved(a);
      QuotePlusAppend(a, "[");
    }
    assert QuotePlus(a + "[" + b) == a + "%5B" + b by {
      QuotePlusUnreserved(b);
      QuotePlusAppend(a + "[", b);
    }
    QuoteBrackets();
    QuotePlusAppend(a + "[" + b, "]");
  }

  /** The separators of a query string never occur inside an encoded key or
      value. */
  lemma QuotePlusHasNoSeparators(s: string)
    ensures '&' !in QuotePlus(s) && '=' !in QuotePlus(s)
  {
  }

  function Prepend(b: byte, rest: Option<seq<byte>>): Option<seq<byte>> {
    match rest
    case Some(bs) => Some([b] + bs)
    case None => None
  }

  /** Reads an encoded component back into bytes (the byte level of
      `unquote_plus`); `None` for text no encoder produces. */
  function UnquoteBytes(s: string): Option<seq<byte>>
    decreases |s|
  {
    if s == [] then Some([])
    else if s[0] == '+' then Prepend(0x20, UnquoteBytes(s[1..]))
    else if s[0] == '%' then
      if |s| >= 3 && IsHex(s[1]) && IsHex(s[2])
      then Prepend((HexValue(s[1]) * 16 + HexValue(s[2])) as byte, UnquoteBytes(s[3..]))
      else None
    else if s[0] as int < 256 && Unreserved(s[0] as int as byte)
    then Prepend(s[0] as int as byte, UnquoteBytes(s[1..]))
    else None
  }

  lemma UnquoteAfterByte(b: byte, rest: string)
    ensures UnquoteBytes(QuoteByte(b) + rest) == Prepend(b, UnquoteBytes(rest))
  {
    var s := QuoteByte(b) + rest;
    if Unreserved(b) {
      assert s[1..] == rest;
    } else if b == 0x20 {
      assert s[1..] == rest;
    } else {
      HexDigitValue(b as int / 16);
      HexDigitValue(b as int % 16);
      assert s[3..] == rest;
    }
  }

  /** Percent-encoding loses nothing: decoding the encoded bytes gives them back. */
  lemma {:induction false} QuoteBytesRoundTrip(bs: seq<byte>)
    ensures UnquoteBytes(QuoteBytes(bs)) == Some(bs)
    decreases |bs|
  {
    if bs != [] {
      QuoteBytesRoundTrip(bs[1..]);
      UnquoteAfterByte(bs[0], QuoteBytes(bs[1..]));
      assert [bs[0]] + bs[1..] == bs;
    }
  }

  // ---------------------------------------------------------------------------
  // Query strings.

  function EncodePair(kv: (string, string)): string {
    QuotePlus(kv.0) + "=" + QuotePlus(kv.1)
  }

  function EncodePairs(pairs: seq<(string, string)>): (pieces: seq<string>)
    ensures |pieces| == |pairs|
    ensures forall i :: 0 <= i < |pairs| ==> pieces[i] == EncodePair(pairs[i])
  {
    seq(|pairs|, i requires 0 <= i < |pairs| => EncodePair(pairs[i]))
  }

  /** `urlencode(pairs)` for a list of (key, value) string pairs. */
  function FormEncode(pairs: seq<(string, string)>): string {
    if pairs == [] then "" else Join(EncodePairs(pairs), '&')
  }

  function DecodePieces(pieces: seq<string>): Option<seq<(seq<byte>, seq<byte>)>>
    decreases |pieces|
  {
    if pieces == [] then Some([])
    else
      var kv := Split(pieces[0], '=');
      if |kv| != 2 then None
      else match (UnquoteBytes(kv[0]), UnquoteBytes(kv[1]), DecodePieces(pieces[1..]))
        case (Some(k), Some(v), Some(rest)) => Some([(k, v)] + rest)
        case _ => None
  }

  /** Reads a query string back into its (key, value) pairs, as UTF-8 bytes. */
  function DecodeQuery(q: string): Option<seq<(seq<byte>, seq<byte>)>> {
    if q == "" then Some([]) else DecodePieces(Split(q, '&'))
  }

  function Utf8Pairs(pairs: seq<(string, string)>): (r: seq<(seq<byte>, seq<byte>)>)
    ensures |r| == |pairs|
    ensures forall i :: 0 <= i < |pairs| ==> r[i] == (Utf8(pairs[i].0), Utf8(pairs[i].1))
  {
    seq(|pairs|, i requires 0 <= i < |pairs| => (Utf8(pairs[i].0), Utf8(pairs[i].1)))
  }

  lemma SplitEncodedPair(kv: (string, string))
    ensures Split(EncodePair(kv), '=') == [QuotePlus(kv.0), QuotePlus(kv.1)]
  {
    QuotePlusHasNoSeparators(kv.0);
    QuotePlusHasNoSeparators(kv.1);
    assert EncodePair(kv) == QuotePlus(kv.0) + ['='] + QuotePlus(kv.1);
    SplitAfterSegment(QuotePlus(kv.0), '=', QuotePlus(kv.1));
    SplitWhole(QuotePlus(kv.1), '=');
  }

  lemma {:induction false} DecodeEncodedPieces(pairs: seq<(string, string)>)
    ensures DecodePieces(EncodePairs(pairs)) == Some(Utf8Pairs(pairs))
    decreases |pairs|
  {
    if pairs != [] {
      var pieces := EncodePairs(pairs);
      assert pieces[1..] == EncodePairs(pairs[1..]);
      DecodeEncodedPieces(pairs[1..]);
      SplitEncodedPair(pairs[0]);
      QuoteBytesRoundTrip(Utf8(pairs[0].0));
      QuoteBytesRoundTrip(Utf8(pairs[0].1));
      assert Utf8Pairs(pairs) == [(Utf8(pairs[0].0), Utf8(pairs[0].1))] + Utf8Pairs(pairs[1..]);
    }
  }

  /** A form-encoded query string determines, in order, the UTF-8 bytes of every
      key and value that went into it. */
  lemma FormEncodeRoundTrip(pairs: seq<(string, string)>)
    ensures DecodeQuery(FormEncode(pairs)) == Some(Utf8Pairs(pairs))
  {
    if pairs != [] {
      var pieces := EncodePairs(pairs);
      forall i | 0 <= i < |pieces| ensures '&' !in pieces[i] {
        QuotePlusHasNoSeparators(pairs[i].0);
        QuotePlusHasNoSeparators(pairs[i].1);
      }
      SplitJoin(pieces, '&');
      assert FormEncode(pairs) != "" by {
        SplitEncodedPair(pairs[0]);
      }
      DecodeEncodedPieces(pairs);
    }
  }
}
