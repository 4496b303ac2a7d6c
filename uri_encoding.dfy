/** The `encodeURIComponent` global function of ECMA-262 5.1 (section
    15.1.3.4), which the stylesheet generator applies to its CSS text, and its
    inverse `decodeURIComponent` (section 15.1.3.2), against which the encoder
    is proved.

    Strings are sequences of Unicode scalar values. A character outside the
    unescaped set is written as its UTF-8 octets, each as `%XY` with two
    upper-case hexadecimal digits (the Encode operation of section 15.1.3). */
module UriEncoding {
  import opened Wrappers

  type Byte = x: int | 0 <= x < 256

  /** The unescaped set of encodeURIComponent: uriAlpha, DecimalDigit and
      uriMark (the unreserved characters of RFC 3986 section 2.3 plus !*'()). */
  predicate IsUnreserved(c: char) {
    || ('a' <= c <= 'z')
    || ('A' <= c <= 'Z')
    || ('0' <= c <= '9')
    || c == '-' || c == '_' || c == '.' || c == '!' || c == '~'
    || c == '*' || c == '\'' || c == '(' || c == ')'
  }

  /** The upper-case hexadecimal digit for d. */
  function HexDigit(d: int): (c: char)
    requires 0 <= d < 16
    ensures '0' <= c <= '9' || 'A' <= c <= 'F'
  {
    if d < 10 then ('0' as int + d) as char else ('A' as int + d - 10) as char
  }

  /** The value of one hexadecimal digit; both cases are accepted when decoding. */
  function HexValue(c: char): (r: Option<int>)
    ensures r.Some? ==> 0 <= r.value < 16
  {
    if '0' <= c <= '9' then Some(c as int - '0' as int)
    else if 'A' <= c <= 'F' then Some(c as int - 'A' as int + 10)
    else if 'a' <= c <= 'f' then Some(c as int - 'a' as int + 10)
    else None
  }

  lemma {:induction false} HexValueOfDigit(d: int)
    requires 0 <= d < 16
    ensures HexValue(HexDigit(d)) == Some(d)
  {
  }

  /** The UTF-8 octets of one scalar value (RFC 3629 section 3). */
  function Utf8(c: char): (bs: seq<Byte>)
    ensures 1 <= |bs| <= 4
    ensures |bs| == 1 <==> c as int < 0x80
    ensures |bs| == 1 ==> bs[0] == c as int
    ensures forall k :: 1 <= k < |bs| ==> 0x80 <= bs[k] < 0xC0
  {
    var n := c as int;
    var q1 := n / 64;
    var q2 := q1 / 64;
    var q3 := q2 / 64;
    if n < 0x80 then [n]
    else if n < 0x800 then [0xC0 + q1, 0x80 + n % 64]
    else if n < 0x10000 then [0xE0 + q2, 0x80 + q1 % 64, 0x80 + n % 64]
    else [0xF0 + q3, 0x80 + q2 % 64, 0x80 + q1 % 64, 0x80 + n % 64]
  }

  /** One octet as `%XY`. */
  function Escape(b: Byte): (e: string)
    ensures |e| == 3 && e[0] == '%'
  {
    ['%', HexDigit(b / 16), HexDigit(b % 16)]
  }

  /** The octets in order, each as its `%XY` escape. */
  function EscapeAll(bs: seq<Byte>): (e: string)
    ensures |e| == 3 * |bs|
    ensures forall k, j :: 0 <= k < |bs| && 0 <= j < 3 ==> e[3 * k + j] == Escape(bs[k])[j]
  {
    if bs == [] then [] else Escape(bs[0]) + EscapeAll(bs[1..])
  }

  function EncodeChar(c: char): string {
    if IsUnreserved(c) then [c] else EscapeAll(Utf8(c))
  }

  /** encodeURIComponent, character by character. */
  function EncodeUriComponent(s: string): string {
    if s == [] then [] else EncodeChar(s[0]) + EncodeUriComponent(s[1..])
  }

  /** The octet written by two hexadecimal digits. */
  function HexPair(hi: char, lo: char): (r: Option<Byte>)
  {
    match (HexValue(hi), HexValue(lo))
    case (Some(h), Some(l)) => Some(h * 16 + l)
    case _ => None
  }

  /** Reads the escape `%XY` at position i as one octet. */
  function ReadByte(t: string, i: nat): (r: Option<Byte>)
    ensures r.Some? ==> i + 3 <= |t| && t[i] == '%'
  {
    if i + 3 <= |t| && t[i] == '%' then HexPair(t[i + 1], t[i + 2]) else None
  }

  /** Reads the escape at position i as a UTF-8 continuation octet (10xxxxxx),
      giving its six payload bits. */
  function ReadContinuation(t: string, i: nat): (r: Option<int>)
    ensures r.Some? ==> 0 <= r.value < 64
  {
    var b :- ReadByte(t, i);
    if 0x80 <= b < 0xC0 then Some(b - 0x80) else None
  }

  /** The number of octets announced by a leading octet, or 0 when the octet
      cannot start a UTF-8 sequence. */
  function SequenceLength(b: Byte): (n: nat)
    ensures n <= 4
  {
    if b < 0x80 then 1
    else if b < 0xC0 then 0
    else if b < 0xE0 then 2
    else if b < 0xF0 then 3
    else if b < 0xF8 then 4
    else 0
  }

  /** Decodes the UTF-8 sequence of n octets that starts at position 0 of t
      with leading octet b0, refusing overlong forms, surrogates and values
      above U+10FFFF. */
  function DecodeSequence(t: string, b0: Byte, n: nat): Option<char>
    requires 1 <= n <= 4
  {
    if n == 1 then
      if b0 < 0x80 then Some(b0 as char) else None
    else if n == 2 then
      var c1 :- ReadContinuation(t, 3);
      var v := (b0 - 0xC0) * 64 + c1;
      if 0x80 <= v < 0x800 then Some(v as char) else None
    else if n == 3 then
      var c1 :- ReadContinuation(t, 3);
      var c2 :- ReadContinuation(t, 6);
      var v := ((b0 - 0xE0) * 64 + c1) * 64 + c2;
      if 0x800 <= v < 0x10000 && !(0xD800 <= v < 0xE000) then Some(v as char) else None
    else
      var c1 :- ReadContinuation(t, 3);
      var c2 :- ReadContinuation(t, 6);
      var c3 :- ReadContinuation(t, 9);
      var v := (((b0 - 0xF0) * 64 + c1) * 64 + c2) * 64 + c3;
      if 0x10000 <= v < 0x110000 then Some(v as char) else None
  }

  /** Decodes the escaped UTF-8 sequence at the start of t: the character
      and the number of octets it took. */
  function DecodeEscaped(t: string): (r: Option<(char, nat)>)
    ensures r.Some? ==> 1 <= r.value.1 <= 4 && 3 * r.value.1 <= |t|
  {
    var b0 :- ReadByte(t, 0);
    var n := SequenceLength(b0);
    if n == 0 || |t| < 3 * n then None
    else
      var c :- DecodeSequence(t, b0, n);
      Some((c, n))
  }

  /** decodeURIComponent: `None` is the URIError it throws. */
  function DecodeUriComponent(t: string): Option<string>
    decreases |t|
  {
    if t == [] then Some([])
    else if t[0] != '%' then
      match DecodeUriComponent(t[1..])
      case None => None
      case Some(rest) => Some([t[0]] + rest)
    else
      match DecodeEscaped(t)
      case None => None
      case Some((c, n)) =>
        match DecodeUriComponent(t[3 * n..])
        case None => None
        case Some(rest) => Some([c] + rest)
  }

  /** The characters encodeURIComponent can produce. */
  predicate IsUriSafe(c: char) {
    IsUnreserved(c) || c == '%' || 'A' <= c <= 'F'
  }

  // ---------------------------------------------------------------------
  // Properties

  lemma {:induction false} HexPairOfEscape(b: Byte)
    ensures HexPair(HexDigit(b / 16), HexDigit(b % 16)) == Some(b)
  {
    HexValueOfDigit(b / 16);
    HexValueOfDigit(b % 16);
  }

  lemma {:induction false} EscapeAt(bs: seq<Byte>, rest: string, k: nat, j: nat)
    requires k < |bs| && j < 3
    ensures (EscapeAll(bs) + rest)[3 * k + j] == Escape(bs[k])[j]
  {
  }

  /** Every escape the encoder writes reads back as the octet it encodes. */
  lemma {:induction false} ReadByteAt(bs: seq<Byte>, rest: string, k: nat)
    requires k < |bs|
    ensures ReadByte(EscapeAll(bs) + rest, 3 * k) == Some(bs[k])
  {
    EscapeAt(bs, rest, k, 0);
    EscapeAt(bs, rest, k, 1);
    EscapeAt(bs, rest, k, 2);
    ReadByteOfEscape(EscapeAll(bs) + rest, 3 * k, bs[k]);
  }

  lemma {:induction false} ReadByteOfEscape(t: string, i: nat, b: Byte)
    requires i + 3 <= |t|
    requires t[i] == Escape(b)[0] && t[i + 1] == Escape(b)[1] && t[i + 2] == Escape(b)[2]
    ensures ReadByte(t, i) == Some(b)
  {
    HexPairOfEscape(b);
  }

  /** Decoding the UTF-8 octets of c (as escapes) gives back c. */
  lemma {:induction false} DecodeSequenceOfUtf8(c: char, rest: string)
    requires !IsUnreserved(c)
    ensures var bs := Utf8(c);
            DecodeSequence(EscapeAll(bs) + rest, bs[0], |bs|) == Some(c)
  {
    var n := c as int;
    if n < 0x80 {
    } else if n < 0x800 {
      DecodeTwoOctets(c, rest);
    } else if n < 0x10000 {
      DecodeThreeOctets(c, rest);
    } else {
      DecodeFourOctets(c, rest);
    }
  }

  lemma {:induction false} DecodeTwoOctets(c: char, rest: string)
    requires 0x80 <= c as int < 0x800
    ensures DecodeSequence(EscapeAll(Utf8(c)) + rest, Utf8(c)[0], 2) == Some(c)
  {
    var n := c as int;
    ReadByteAt(Utf8(c), rest, 1);
    assert n == (n / 64) * 64 + n % 64;
  }

  lemma {:induction false} DecodeThreeOctets(c: char, rest: string)
    requires 0x800 <= c as int < 0x10000
    ensures DecodeSequence(EscapeAll(Utf8(c)) + rest, Utf8(c)[0], 3) == Some(c)
  {
    var n := c as int;
    var q1 := n / 64;
    ReadByteAt(Utf8(c), rest, 1);
    ReadByteAt(Utf8(c), rest, 2);
    assert n == q1 * 64 + n % 64;
    assert q1 == (q1 / 64) * 64 + q1 % 64;
  }

  lemma {:induction false} DecodeFourOctets(c: char, rest: string)
    requires 0x10000 <= c as int
    ensures DecodeSequence(EscapeAll(Utf8(c)) + rest, Utf8(c)[0], 4) == Some(c)
  {
    var n := c as int;
    var q1 := n / 64;
    var q2 := q1 / 64;
    ReadByteAt(Utf8(c), rest, 1);
    ReadByteAt(Utf8(c), rest, 2);
    ReadByteAt(Utf8(c), rest, 3);
    assert n == q1 * 64 + n % 64;
    assert q1 == q2 * 64 + q1 % 64;
    assert q2 == (q2 / 64) * 64 + q2 % 64;
  }

  /** Decoding the encoding of one character consumes exactly that encoding. */
  lemma {:induction false} DecodeEncodeChar(c: char, rest: string)
    ensures DecodeUriComponent(EncodeChar(c) + rest) ==
            match DecodeUriComponent(rest)
            case None => None
            case Some(r) => Some([c] + r)
  {
    var t := EncodeChar(c) + rest;
    if IsUnreserved(c) {
      assert t[0] == c && t[1..] == rest;
    } else {
      var bs := Utf8(c);
      ReadByteAt(bs, rest, 0);
      DecodeSequenceOfUtf8(c, rest);
      assert SequenceLength(bs[0]) == |bs|;
      assert DecodeEscaped(t) == Some((c, |bs|));
      assert t[3 * |bs|..] == rest;
    }
  }

  /** decodeURIComponent inverts encodeURIComponent on every string. */
  lemma {:induction false} DecodeEncode(s: string)
    ensures DecodeUriComponent(EncodeUriComponent(s)) == Some(s)
  {
    if s != [] {
      DecodeEncode(s[1..]);
      DecodeEncodeChar(s[0], EncodeUriComponent(s[1..]));
      assert [s[0]] + s[1..] == s;
    }
  }

  /** Hence the encoding loses nothing: distinct texts give distinct URIs. */
  lemma {:induction false} EncodeInjective(a: string, b: string)
    requires EncodeUriComponent(a) == EncodeUriComponent(b)
    ensures a == b
  {
    DecodeEncode(a);
    DecodeEncode(b);
  }

  /** Every character of the result belongs to the unescaped set, is `%` or
      is an upper-case hexadecimal digit. */
  lemma {:induction false} EncodeIsUriSafe(s: string)
    ensures forall i :: 0 <= i < |EncodeUriComponent(s)| ==> IsUriSafe(EncodeUriComponent(s)[i])
  {
    if s != [] {
      EncodeIsUriSafe(s[1..]);
      EscapeAllIsUriSafe(Utf8(s[0]));
    }
  }

  lemma {:induction false} EscapeAllIsUriSafe(bs: seq<Byte>)
    ensures forall i :: 0 <= i < |EscapeAll(bs)| ==> IsUriSafe(EscapeAll(bs)[i])
  {
    if bs != [] {
      EscapeAllIsUriSafe(bs[1..]);
    }
  }

  /** A string made only of unescaped characters is its own encoding. */
  lemma {:induction false} EncodeUnreserved(s: string)
    requires forall i :: 0 <= i < |s| ==> IsUnreserved(s[i])
    ensures EncodeUriComponent(s) == s
  {
    if s != [] {
      EncodeUnreserved(s[1..]);
      assert [s[0]] + s[1..] == s;
    }
  }
}
