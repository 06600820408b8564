/**
 * `encodeURIComponent`: every character outside the set it leaves alone
 * is written as the UTF-8 encoding of its code point (RFC 3629), each
 * octet as "%" and two upper-case hexadecimal digits (section 2.1 of
 * RFC 3986). A decoder is given as the partner of the encoder, and the
 * round trip is proved.
 */
module UriEncoding {
  import opened Wrappers

  newtype byte = x: int | 0 <= x < 256

  /** The characters `encodeURIComponent` leaves unescaped: A-Z a-z 0-9 - _ . ! ~ * ' ( ) */
  predicate Unreserved(c: char) {
    || 'A' <= c <= 'Z' || 'a' <= c <= 'z' || '0' <= c <= '9'
    || c == '-' || c == '_' || c == '.' || c == '!' || c == '~'
    || c == '*' || c == '\'' || c == '(' || c == ')'
  }

  predicate IsHexDigit(c: char) {
    '0' <= c <= '9' || 'A' <= c <= 'F'
  }

  function HexDigit(d: int): (c: char)
    requires 0 <= d < 16
    ensures IsHexDigit(c) && HexValue(c) == d
  {
    if d < 10 then ('0' as int + d) as char else ('A' as int + d - 10) as char
  }

  /** The value of a hexadecimal digit of either case. */
  function HexValue(c: char): int {
    if '0' <= c <= '9' then c as int - '0' as int
    else if 'A' <= c <= 'F' then c as int - 'A' as int + 10
    else if 'a' <= c <= 'f' then c as int - 'a' as int + 10
    else -1
  }

  /** The UTF-8 octets of one Unicode scalar value. */
  function Utf8(c: char): (bs: seq<byte>)
    ensures 1 <= |bs| <= 4
  {
    var v := c as int;
    if v < 0x80 then [v as byte]
    else if v < 0x800 then [(0xC0 + v / 64) as byte, (0x80 + v % 64) as byte]
    else if v < 0x10000 then
      [(0xE0 + v / 64 / 64) as byte, (0x80 + v / 64 % 64) as byte, (0x80 + v % 64) as byte]
    else
      [(0xF0 + v / 64 / 64 / 64) as byte, (0x80 + v / 64 / 64 % 64) as byte,
       (0x80 + v / 64 % 64) as byte, (0x80 + v % 64) as byte]
  }

  /** `%HH` for one octet. */
  function Escape(b: byte): string {
    ['%', HexDigit(b as int / 16), HexDigit(b as int % 16)]
  }

  function EscapeAll(bs: seq<byte>): string {
    if bs == [] then "" else Escape(bs[0]) + EscapeAll(bs[1..])
  }

  function EncodeChar(c: char): string {
    if Unreserved(c) then [c] else EscapeAll(Utf8(c))
  }

  /** `encodeURIComponent(s)`. */
  function PercentEncode(s: string): string {
    if s == [] then "" else EncodeChar(s[0]) + PercentEncode(s[1..])
  }

  /** The UTF-8 octets of a whole string. */
  function Utf8String(s: string): seq<byte> {
    if s == [] then [] else Utf8(s[0]) + Utf8String(s[1..])
  }

  /** Octets in front of a decoding that may have failed. */
  function Prepend(prefix: seq<byte>, rest: Option<seq<byte>>): Option<seq<byte>> {
    match rest
    case None => None
    case Some(bs) => Some(prefix + bs)
  }

  /**
   * The octets an encoded string stands for: each `%HH` is one octet, each
   * unreserved character its own (ASCII) octet; anything else is rejected.
   */
  function DecodeOctets(s: string): Option<seq<byte>> {
    if s == [] then Some([])
    else if s[0] == '%' then
      if |s| >= 3 && 0 <= HexValue(s[1]) && 0 <= HexValue(s[2]) then
        Prepend([(HexValue(s[1]) * 16 + HexValue(s[2])) as byte], DecodeOctets(s[3..]))
      else None
    else if Unreserved(s[0]) then
      Prepend([s[0] as int as byte], DecodeOctets(s[1..]))
    else None
  }

  predicate IsContinuation(b: byte) {
    0x80 <= b < 0xC0
  }

  /** Whether an integer is a Unicode scalar value, i.e. a Dafny `char`. */
  predicate IsScalar(v: int) {
    0 <= v < 0xD800 || 0xE000 <= v < 0x110000
  }

  /**
   * The first code point of a UTF-8 octet sequence and its length;
   * overlong forms, surrogates and values past U+10FFFF are rejected.
   */
  function DecodeFirst(bs: seq<byte>): Option<(char, nat)>
    requires |bs| >= 1
  {
    var b0 := bs[0] as int;
    if b0 < 0x80 then Some((b0 as char, 1))
    else if 0xC0 <= b0 < 0xE0 && |bs| >= 2 && IsContinuation(bs[1]) then
      var v := (b0 - 0xC0) * 64 + (bs[1] as int - 0x80);
      if 0x80 <= v then Some((v as char, 2)) else None
    else if 0xE0 <= b0 < 0xF0 && |bs| >= 3 && IsContinuation(bs[1]) && IsContinuation(bs[2]) then
      var v := ((b0 - 0xE0) * 64 + (bs[1] as int - 0x80)) * 64 + (bs[2] as int - 0x80);
      if 0x800 <= v && IsScalar(v) then Some((v as char, 3)) else None
    else if 0xF0 <= b0 < 0xF8 && |bs| >= 4 && IsContinuation(bs[1]) && IsContinuation(bs[2]) && IsContinuation(bs[3]) then
      var v := (((b0 - 0xF0) * 64 + (bs[1] as int - 0x80)) * 64 + (bs[2] as int - 0x80)) * 64 + (bs[3] as int - 0x80);
      if 0x10000 <= v < 0x110000 then Some((v as char, 4)) else None
    else None
  }

  /** UTF-8 decoding of a whole octet sequence. */
  function Utf8Decode(bs: seq<byte>): Option<string>
    decreases |bs|
  {
    if bs == [] then Some("")
    else
      match DecodeFirst(bs)
      case None => None
      case Some((c, n)) =>
        if 1 <= n <= |bs| then
          match Utf8Decode(bs[n..])
          case None => None
          case Some(rest) => Some([c] + rest)
        else None
  }

  /** `decodeURIComponent`: the partner of `PercentEncode`. */
  function PercentDecode(s: string): Option<string> {
    match DecodeOctets(s)
    case None => None
    case Some(bs) => Utf8Decode(bs)
  }

  /** Six low bits and the rest: v == v / 64 * 64 + v % 64, with the rest below a bound. */
  lemma {:induction false} SixBits(v: int, bound: int)
    requires 0 <= v < bound * 64
    ensures v / 64 * 64 + v % 64 == v
    ensures 0 <= v % 64 < 64 && 0 <= v / 64 < bound
  {
  }

  lemma {:induction false} DecodeFirstTwo(c: char, rest: seq<byte>)
    requires 0x80 <= c as int < 0x800
    ensures DecodeFirst(Utf8(c) + rest) == Some((c, 2))
  {
    var v := c as int;
    var bs := Utf8(c) + rest;
    SixBits(v, 32);
    assert bs[0] as int == 0xC0 + v / 64 && bs[1] as int == 0x80 + v % 64;
  }

  lemma {:induction false} DecodeFirstThree(c: char, rest: seq<byte>)
    requires 0x800 <= c as int < 0x10000
    ensures DecodeFirst(Utf8(c) + rest) == Some((c, 3))
  {
    var v := c as int;
    var bs := Utf8(c) + rest;
    SixBits(v, 1024);
    SixBits(v / 64, 16);
    assert bs[0] as int == 0xE0 + v / 64 / 64;
    assert bs[1] as int == 0x80 + v / 64 % 64;
    assert bs[2] as int == 0x80 + v % 64;
  }

  lemma {:induction false} DecodeFirstFour(c: char, rest: seq<byte>)
    requires 0x10000 <= c as int
    ensures DecodeFirst(Utf8(c) + rest) == Some((c, 4))
  {
    var v := c as int;
    var bs := Utf8(c) + rest;
    SixBits(v, 0x11000 / 64 * 64);
    SixBits(v / 64, 0x11000 / 64);
    SixBits(v / 64 / 64, 0x11000 / 4096);
    assert bs[0] as int == 0xF0 + v / 64 / 64 / 64;
    assert bs[1] as int == 0x80 + v / 64 / 64 % 64;
    assert bs[2] as int == 0x80 + v / 64 % 64;
    assert bs[3] as int == 0x80 + v % 64;
  }

  /** The octets of one character decode back to it, in front of anything. */
  lemma {:induction false} DecodeFirstUtf8(c: char, rest: seq<byte>)
    ensures DecodeFirst(Utf8(c) + rest) == Some((c, |Utf8(c)|))
  {
    var v := c as int;
    if v < 0x80 {
      assert (Utf8(c) + rest)[0] as int == v;
    } else if v < 0x800 {
      DecodeFirstTwo(c, rest);
    } else if v < 0x10000 {
      DecodeFirstThree(c, rest);
    } else {
      DecodeFirstFour(c, rest);
    }
  }

  /** UTF-8 decoding inverts UTF-8 encoding. */
  lemma {:induction false} Utf8RoundTrip(s: string)
    ensures Utf8Decode(Utf8String(s)) == Some(s)
  {
    if s != [] {
      var head := Utf8(s[0]);
      var tail := Utf8String(s[1..]);
      var bs := head + tail;
      DecodeFirstUtf8(s[0], tail);
      Utf8RoundTrip(s[1..]);
      assert bs[|head|..] == tail;
      assert s == [s[0]] + s[1..];
    }
  }

  lemma {:induction false} DecodeEscape(b: byte, rest: string)
    ensures DecodeOctets(Escape(b) + rest) == Prepend([b], DecodeOctets(rest))
  {
    var s := Escape(b) + rest;
    assert s[0] == '%' && s[1] == HexDigit(b as int / 16) && s[2] == HexDigit(b as int % 16);
    assert s[3..] == rest;
  }

  lemma {:induction false} PrependEmpty(x: Option<seq<byte>>)
    ensures Prepend([], x) == x
  {
    if x.Some? {
      assert [] + x.value == x.value;
    }
  }

  lemma {:induction false} PrependTwice(p: seq<byte>, q: seq<byte>, x: Option<seq<byte>>)
    ensures Prepend(p, Prepend(q, x)) == Prepend(p + q, x)
  {
    if x.Some? {
      assert p + (q + x.value) == (p + q) + x.value;
    }
  }

  lemma {:induction false} DecodeEscapeAll(bs: seq<byte>, rest: string)
    ensures DecodeOctets(EscapeAll(bs) + rest) == Prepend(bs, DecodeOctets(rest))
  {
    if bs == [] {
      assert EscapeAll(bs) + rest == rest;
      PrependEmpty(DecodeOctets(rest));
    } else {
      var b := bs[0];
      var more := bs[1..];
      var tail := EscapeAll(more) + rest;
      assert EscapeAll(bs) + rest == Escape(b) + tail;
      assert DecodeOctets(Escape(b) + tail) == Prepend([b], DecodeOctets(tail)) by {
        DecodeEscape(b, tail);
      }
      assert DecodeOctets(tail) == Prepend(more, DecodeOctets(rest)) by {
        DecodeEscapeAll(more, rest);
      }
      PrependTwice([b], more, DecodeOctets(rest));
      assert [b] + more == bs;
    }
  }

  lemma {:induction false} DecodeEncodeChar(c: char, rest: string)
    ensures DecodeOctets(EncodeChar(c) + rest) == Prepend(Utf8(c), DecodeOctets(rest))
  {
    if Unreserved(c) {
      var s := EncodeChar(c) + rest;
      assert s[0] == c && s[1..] == rest;
      assert c as int < 0x80;
    } else {
      DecodeEscapeAll(Utf8(c), rest);
    }
  }

  /** The octets an encoded string stands for are the string's UTF-8 octets. */
  lemma {:induction false} DecodeOctetsOfEncode(s: string)
    ensures DecodeOctets(PercentEncode(s)) == Some(Utf8String(s))
  {
    if s != [] {
      DecodeOctetsOfEncode(s[1..]);
      DecodeEncodeChar(s[0], PercentEncode(s[1..]));
    }
  }

  /** Decoding after encoding gives back the original text: no two texts share an encoding. */
  lemma {:induction false} PercentRoundTrip(s: string)
    ensures PercentDecode(PercentEncode(s)) == Some(s)
  {
    DecodeOctetsOfEncode(s);
    Utf8RoundTrip(s);
  }

  /** Characters that may appear in an encoded string. */
  predicate Safe(c: char) {
    Unreserved(c) || c == '%' || IsHexDigit(c)
  }

  predicate AllSafe(s: string) {
    forall i :: 0 <= i < |s| ==> Safe(s[i])
  }

  lemma {:induction false} AllSafeConcat(a: string, b: string)
    requires AllSafe(a) && AllSafe(b)
    ensures AllSafe(a + b)
  {
    forall i | 0 <= i < |a + b| ensures Safe((a + b)[i]) {
      if i >= |a| { assert (a + b)[i] == b[i - |a|]; }
    }
  }

  lemma {:induction false} EscapeAllSafe(bs: seq<byte>)
    ensures AllSafe(EscapeAll(bs))
    ensures |EscapeAll(bs)| == 3 * |bs|
  {
    if bs != [] {
      EscapeAllSafe(bs[1..]);
      AllSafeConcat(Escape(bs[0]), EscapeAll(bs[1..]));
    }
  }

  /**
   * The encoded text is made of unreserved characters, '%' and hex digits
   * only; in particular it holds no '?', '&', '#', '=', space or newline, so
   * it can stand as a query value as it is.
   */
  lemma {:induction false} EncodedIsSafe(s: string)
    ensures AllSafe(PercentEncode(s))
  {
    if s != [] {
      EncodedIsSafe(s[1..]);
      if !Unreserved(s[0]) {
        EscapeAllSafe(Utf8(s[0]));
      }
      AllSafeConcat(EncodeChar(s[0]), PercentEncode(s[1..]));
    }
  }

  /** A text is its own encoding iff all its characters are unreserved; otherwise the encoding is longer. */
  lemma {:induction false} EncodeLength(s: string)
    ensures |PercentEncode(s)| >= |s|
    ensures |PercentEncode(s)| == |s| <==> forall i :: 0 <= i < |s| ==> Unreserved(s[i])
    ensures PercentEncode(s) == s <==> forall i :: 0 <= i < |s| ==> Unreserved(s[i])
  {
    if s != [] {
      EncodeLength(s[1..]);
      if !Unreserved(s[0]) {
        EscapeAllSafe(Utf8(s[0]));
      }
      assert s == [s[0]] + s[1..];
      forall i | 0 <= i < |s| - 1 ensures s[1..][i] == s[i + 1] { }
    }
  }
}
