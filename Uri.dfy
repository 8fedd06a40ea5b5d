/** ECMAScript's `encodeURIComponent` (percent-encoding in the sense of section 2.1 of
    RFC 3986, applied to the UTF-8 bytes of every character outside the unescaped set),
    together with its inverse `decodeURIComponent`, which serves as its partner. */
module Uri {
  import opened Wrappers

  type byte = x: int | 0 <= x < 256

  /** The characters `encodeURIComponent` leaves alone: A-Z a-z 0-9 - _ . ! ~ * ' ( ) */
  predicate Unescaped(c: char) {
    ('A' <= c <= 'Z') || ('a' <= c <= 'z') || ('0' <= c <= '9') ||
    c == '-' || c == '_' || c == '.' || c == '!' || c == '~' || c == '*' ||
    c == '\'' || c == '(' || c == ')'
  }

  predicate UpperHex(c: char) { ('0' <= c <= '9') || ('A' <= c <= 'F') }

  /** A character that can appear in the output of `encodeURIComponent`. */
  predicate EncodedChar(c: char) { Unescaped(c) || c == '%' }

  function HexDigit(d: nat): (c: char)
    requires d < 16
    ensures UpperHex(c)
  {
    if d < 10 then (('0' as int) + d) as char else (('A' as int) + d - 10) as char
  }

  /** The value of a hexadecimal digit; both cases are accepted when decoding. */
  function HexValue(c: char): Option<nat> {
    if '0' <= c <= '9' then Some((c as int) - ('0' as int))
    else if 'A' <= c <= 'F' then Some((c as int) - ('A' as int) + 10)
    else if 'a' <= c <= 'f' then Some((c as int) - ('a' as int) + 10)
    else None
  }

  /** The UTF-8 encoding of one Unicode scalar value (RFC 3629). */
  function Utf8(c: char): (bs: seq<byte>)
    ensures 1 <= |bs| <= 4
  {
    var n := c as int;
    if n < 0x80 then [n]
    else if n < 0x800 then [0xC0 + n / 64, 0x80 + n % 64]
    else if n < 0x10000 then [0xE0 + n / 4096, 0x80 + (n / 64) % 64, 0x80 + n % 64]
    else [0xF0 + n / 262144, 0x80 + (n / 4096) % 64, 0x80 + (n / 64) % 64, 0x80 + n % 64]
  }

  /** `%XX` with upper-case hexadecimal digits, for each byte. */
  function Escape(bs: seq<byte>): (r: string)
    ensures |r| == 3 * |bs|
    ensures forall i :: 0 <= i < |r| ==> EncodedChar(r[i])
  {
    if bs == [] then [] else ['%', HexDigit(bs[0] / 16), HexDigit(bs[0] % 16)] + Escape(bs[1..])
  }

  function EncodeChar(c: char): (r: string)
    ensures forall i :: 0 <= i < |r| ==> EncodedChar(r[i])
  {
    if Unescaped(c) then [c] else Escape(Utf8(c))
  }

  /** `encodeURIComponent(s)`. Its output holds only unescaped characters (the hexadecimal
      digits of each escape among them) and `%`, so in particular never `+`, `&`, `=`, `:` or a space. */
  function EncodeURIComponent(s: string): (r: string)
    ensures forall i :: 0 <= i < |r| ==> EncodedChar(r[i])
    ensures |r| >= |s|
  {
    if s == [] then [] else EncodeChar(s[0]) + EncodeURIComponent(s[1..])
  }

  // ---------------------------------------------------------------- decoding

  /** The byte written as `%XX` at the start of s. */
  function EscapedByte(s: string): Option<byte> {
    if |s| < 3 || s[0] != '%' then None
    else match (HexValue(s[1]), HexValue(s[2]))
      case (Some(hi), Some(lo)) => if hi < 16 && lo < 16 then Some(hi * 16 + lo) else None
      case _ => None
  }

  /** k consecutive `%XX` escapes at the start of s. */
  function EscapedBytes(s: string, k: nat): (r: Option<seq<byte>>)
    ensures r.Some? ==> |r.value| == k && |s| >= 3 * k
  {
    if k == 0 then Some([])
    else match EscapedByte(s)
      case None => None
      case Some(b) =>
        match EscapedBytes(s[3..], k - 1)
        case None => None
        case Some(bs) => Some([b] + bs)
  }

  /** How many bytes a UTF-8 sequence starting with this byte has (0: not a lead byte). */
  function SequenceLength(lead: byte): nat {
    if lead < 0x80 then 1
    else if 0xC0 <= lead < 0xE0 then 2
    else if 0xE0 <= lead < 0xF0 then 3
    else if 0xF0 <= lead < 0xF8 then 4
    else 0
  }

  predicate Continuation(b: byte) { 0x80 <= b < 0xC0 }

  function ScalarOf(v: int): Option<char> {
    if (0 <= v < 0xD800) || (0xE000 <= v < 0x11_0000) then Some(v as char) else None
  }

  /** The character a complete UTF-8 sequence stands for; overlong forms are refused. */
  function Utf8Value(bs: seq<byte>): Option<char> {
    if |bs| == 1 && bs[0] < 0x80 then Some(bs[0] as char)
    else if |bs| == 2 && 0xC0 <= bs[0] < 0xE0 && Continuation(bs[1]) then
      var v := (bs[0] as int - 0xC0) * 64 + (bs[1] as int - 0x80);
      if v >= 0x80 then ScalarOf(v) else None
    else if |bs| == 3 && 0xE0 <= bs[0] < 0xF0 && Continuation(bs[1]) && Continuation(bs[2]) then
      var v := (bs[0] as int - 0xE0) * 4096 + (bs[1] as int - 0x80) * 64 + (bs[2] as int - 0x80);
      if v >= 0x800 then ScalarOf(v) else None
    else if |bs| == 4 && 0xF0 <= bs[0] < 0xF8 && Continuation(bs[1]) && Continuation(bs[2])
                      && Continuation(bs[3]) then
      var v := (bs[0] as int - 0xF0) * 262144 + (bs[1] as int - 0x80) * 4096
               + (bs[2] as int - 0x80) * 64 + (bs[3] as int - 0x80);
      if v >= 0x10000 then ScalarOf(v) else None
    else None
  }

  function Prepend(c: string, r: Option<string>): Option<string> {
    match r
    case None => None
    case Some(t) => Some(c + t)
  }

  /** `decodeURIComponent(s)`; None where JavaScript throws a URIError. */
  function DecodeURIComponent(s: string): Option<string>
    decreases |s|
  {
    if s == [] then Some([])
    else if s[0] != '%' then Prepend([s[0]], DecodeURIComponent(s[1..]))
    else
      match EscapedByte(s)
      case None => None
      case Some(lead) =>
        var n := SequenceLength(lead);
        if n == 0 then None
        else match EscapedBytes(s, n)
          case None => None
          case Some(bs) =>
            match Utf8Value(bs)
            case None => None
            case Some(c) => Prepend([c], DecodeURIComponent(s[3 * n..]))
  }

  // ---------------------------------------------------------------- round trip

  lemma HexRoundTrip(d: nat)
    requires d < 16
    ensures HexValue(HexDigit(d)) == Some(d)
  {
  }

  lemma {:induction false} EscapedBytesOfEscape(bs: seq<byte>, rest: string)
    ensures EscapedBytes(Escape(bs) + rest, |bs|) == Some(bs)
  {
    if bs != [] {
      var s := Escape(bs) + rest;
      var b := bs[0];
      HexRoundTrip(b / 16);
      HexRoundTrip(b % 16);
      assert s[..3] == ['%', HexDigit(b / 16), HexDigit(b % 16)];
      assert EscapedByte(s) == Some(b);
      assert s[3..] == Escape(bs[1..]) + rest;
      EscapedBytesOfEscape(bs[1..], rest);
      assert [b] + bs[1..] == bs;
    }
  }

  lemma Utf8Decodes2(n: int)
    requires 0x80 <= n < 0x800
    ensures n == (n / 64) * 64 + n % 64 && 0 <= n % 64 < 64 && 2 <= n / 64 < 32
  {
  }

  lemma Utf8Decodes3(n: int)
    requires 0x800 <= n < 0x10000
    ensures n == (n / 4096) * 4096 + ((n / 64) % 64) * 64 + n % 64
    ensures n / 4096 < 16
  {
    assert n / 64 == (n / 4096) * 64 + (n / 64) % 64;
  }

  lemma Utf8Decodes4(n: int)
    requires 0x10000 <= n < 0x11_0000
    ensures n == (n / 262144) * 262144 + ((n / 4096) % 64) * 4096 + ((n / 64) % 64) * 64 + n % 64
    ensures n / 262144 < 5
  {
    assert n / 4096 == (n / 262144) * 64 + (n / 4096) % 64;
    assert n / 64 == (n / 4096) * 64 + (n / 64) % 64;
  }

  lemma Utf8Decodes(c: char)
    ensures SequenceLength(Utf8(c)[0]) == |Utf8(c)|
    ensures Utf8Value(Utf8(c)) == Some(c)
  {
    var n := c as int;
    if n < 0x80 {
    } else if n < 0x800 {
      Utf8Decodes2(n);
    } else if n < 0x10000 {
      Utf8Decodes3(n);
    } else {
      Utf8Decodes4(n);
    }
  }

  lemma PrependPrepend(a: string, b: string, r: Option<string>)
    ensures Prepend(a, Prepend(b, r)) == Prepend(a + b, r)
  {
    if r.Some? {
      assert a + (b + r.value) == (a + b) + r.value;
    }
  }

  lemma PrependNothing(r: Option<string>)
    ensures Prepend([], r) == r
  {
    if r.Some? {
      assert [] + r.value == r.value;
    }
  }

  /** Decoding one encoded character followed by anything yields that character first. */
  lemma DecodeEncodeChar(c: char, rest: string)
    ensures DecodeURIComponent(EncodeChar(c) + rest) == Prepend([c], DecodeURIComponent(rest))
  {
    var s := EncodeChar(c) + rest;
    if Unescaped(c) {
      assert s[1..] == rest;
    } else {
      var bs := Utf8(c);
      Utf8Decodes(c);
      EscapedBytesOfEscape(bs, rest);
      EscapedBytesOfEscape(bs[..1], Escape(bs[1..]) + rest);
      assert Escape(bs) == Escape(bs[..1]) + Escape(bs[1..]) by {
        assert [bs[0]] + bs[1..] == bs;
      }
      assert EscapedByte(s) == Some(bs[0]);
      assert s[3 * |bs|..] == rest;
    }
  }

  /** Characters other than `%` decode to themselves. */
  lemma {:induction false} DecodeLiteral(lit: string, rest: string)
    requires forall i :: 0 <= i < |lit| ==> lit[i] != '%'
    ensures DecodeURIComponent(lit + rest) == Prepend(lit, DecodeURIComponent(rest))
  {
    if lit != [] {
      var s := lit + rest;
      assert s[1..] == lit[1..] + rest;
      DecodeLiteral(lit[1..], rest);
      PrependPrepend([lit[0]], lit[1..], DecodeURIComponent(rest));
      assert [lit[0]] + lit[1..] == lit;
    } else {
      assert lit + rest == rest;
      PrependNothing(DecodeURIComponent(rest));
    }
  }

  /** Decoding an encoded string followed by anything recovers the string first. */
  lemma {:induction false} DecodeEncodeAppend(s: string, rest: string)
    ensures DecodeURIComponent(EncodeURIComponent(s) + rest) == Prepend(s, DecodeURIComponent(rest))
  {
    if s != [] {
      var e := EncodeURIComponent(s[1..]);
      assert EncodeURIComponent(s) + rest == EncodeChar(s[0]) + (e + rest);
      DecodeEncodeChar(s[0], e + rest);
      DecodeEncodeAppend(s[1..], rest);
      PrependPrepend([s[0]], s[1..], DecodeURIComponent(rest));
      assert [s[0]] + s[1..] == s;
    } else {
      assert EncodeURIComponent(s) + rest == rest;
      PrependNothing(DecodeURIComponent(rest));
    }
  }

  /** `decodeURIComponent(encodeURIComponent(s)) == s` for every string. */
  lemma DecodeEncode(s: string)
    ensures DecodeURIComponent(EncodeURIComponent(s)) == Some(s)
  {
    DecodeEncodeAppend(s, []);
    assert EncodeURIComponent(s) + [] == EncodeURIComponent(s);
    assert s + [] == s;
  }

  /** Different strings encode differently. */
  lemma EncodeInjective(s: string, t: string)
    requires EncodeURIComponent(s) == EncodeURIComponent(t)
    ensures s == t
  {
    DecodeEncode(s);
    DecodeEncode(t);
  }
}
