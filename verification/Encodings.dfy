/** Base64 (sections 4 and 5 of RFC 4648) and UTF-8, as encoders and tolerant decoders. */
module Encodings {
  import opened Prelude

  type Byte = b: int | 0 <= b < 256
  type Digit = d: int | 0 <= d < 64

  // ---- base64 ----

  function SymbolOf(d: Digit, url: bool): char {
    if d < 26 then 'A' + d as char
    else if d < 52 then 'a' + (d - 26) as char
    else if d < 62 then '0' + (d - 52) as char
    else if d == 62 then (if url then '-' else '+')
    else if url then '_' else '/'
  }

  function DigitOf(c: char, url: bool): Option<Digit> {
    if 'A' <= c <= 'Z' then Some((c - 'A') as int)
    else if 'a' <= c <= 'z' then Some((c - 'a') as int + 26)
    else if '0' <= c <= '9' then Some((c - '0') as int + 52)
    else if c == (if url then '-' else '+') then Some(62)
    else if c == (if url then '_' else '/') then Some(63)
    else None
  }

  lemma SymbolRoundTrip(d: Digit, url: bool)
    ensures DigitOf(SymbolOf(d, url), url) == Some(d)
  {
  }

  /** Six-bit groups, the last one padded with zero bits. */
  function Digits(bs: seq<Byte>): seq<Digit> {
    if bs == [] then []
    else if |bs| == 1 then [bs[0] / 4, bs[0] % 4 * 16]
    else if |bs| == 2 then [bs[0] / 4, bs[0] % 4 * 16 + bs[1] / 16, bs[1] % 16 * 4]
    else [bs[0] / 4, bs[0] % 4 * 16 + bs[1] / 16, bs[1] % 16 * 4 + bs[2] / 64, bs[2] % 64] + Digits(bs[3..])
  }

  lemma {:induction false} DigitsLength(bs: seq<Byte>)
    ensures 3 * |Digits(bs)| <= 4 * |bs| + 2
    ensures (|Digits(bs)| + |Padding(|bs|)|) % 4 == 0
    decreases |bs|
  {
    if |bs| > 2 { DigitsLength(bs[3..]); }
  }

  /** Bytes back; leftover bits are dropped unread, and a single leftover digit is an error. */
  function Undigits(ds: seq<Digit>): Option<seq<Byte>> {
    if ds == [] then Some([])
    else if |ds| == 1 then None
    else if |ds| == 2 then Some([First(ds[0], ds[1])])
    else if |ds| == 3 then Some([First(ds[0], ds[1]), Second(ds[1], ds[2])])
    else
      var rest := Undigits(ds[4..]);
      if rest.None? then None
      else Some([First(ds[0], ds[1]), Second(ds[1], ds[2]), Third(ds[2], ds[3])] + rest.value)
  }

  function First(a: int, b: int): int { a * 4 + b / 16 }
  function Second(b: int, c: int): int { b % 16 * 16 + c / 4 }
  function Third(c: int, d: int): int { c % 4 * 64 + d }

  lemma {:induction false} DigitsRoundTrip(bs: seq<Byte>)
    ensures Undigits(Digits(bs)) == Some(bs)
  {
    if |bs| > 2 {
      DigitsRoundTrip(bs[3..]);
      var ds := Digits(bs);
      assert ds[4..] == Digits(bs[3..]);
      assert bs == [bs[0], bs[1], bs[2]] + bs[3..];
    } else if |bs| == 2 {
      assert bs == [bs[0], bs[1]];
    } else if |bs| == 1 {
      assert bs == [bs[0]];
    }
  }

  function Symbols(ds: seq<Digit>, url: bool): (s: string)
    ensures |s| == |ds|
  {
    seq(|ds|, i requires 0 <= i < |ds| => SymbolOf(ds[i], url))
  }

  function DigitsOf(s: string, url: bool): (r: Option<seq<Digit>>)
    ensures r.Some? ==> |r.value| == |s|
  {
    if s == [] then Some([])
    else
      var d, rest := DigitOf(s[0], url), DigitsOf(s[1..], url);
      if d.None? || rest.None? then None else Some([d.value] + rest.value)
  }

  lemma {:induction false} SymbolsRoundTrip(ds: seq<Digit>, url: bool)
    ensures DigitsOf(Symbols(ds, url), url) == Some(ds)
  {
    if ds != [] {
      SymbolRoundTrip(ds[0], url);
      SymbolsRoundTrip(ds[1..], url);
      assert Symbols(ds, url)[1..] == Symbols(ds[1..], url);
      assert ds == [ds[0]] + ds[1..];
    }
  }

  /** base64.urlsafe_b64encode(...).rstrip("="), and decoding with the padding put back. */
  function ToUrl(bs: seq<Byte>): string { Symbols(Digits(bs), true) }

  function FromUrl(s: string): Option<seq<Byte>> {
    var ds := DigitsOf(s, true);
    if ds.None? then None else Undigits(ds.value)
  }

  lemma UrlRoundTrip(bs: seq<Byte>)
    ensures FromUrl(ToUrl(bs)) == Some(bs)
  {
    SymbolsRoundTrip(Digits(bs), true);
    DigitsRoundTrip(bs);
  }

  function Padding(n: nat): string { if n % 3 == 0 then "" else if n % 3 == 1 then "==" else "=" }

  /** base64.b64encode, and b64decode(validate=True). */
  function ToBase64(bs: seq<Byte>): string { Symbols(Digits(bs), false) + Padding(|bs|) }

  function FromBase64(s: string): Option<seq<Byte>> {
    if |s| % 4 != 0 then None
    else
      var n := if s != [] && s[|s| - 1] == '=' then (if s[|s| - 2] == '=' then 2 else 1) else 0;
      var ds := DigitsOf(s[..|s| - n], false);
      if ds.None? then None else Undigits(ds.value)
  }

  lemma NoPadSymbol(ds: seq<Digit>)
    ensures forall i :: 0 <= i < |ds| ==> Symbols(ds, false)[i] != '='
  {
  }

  lemma Base64RoundTrip(bs: seq<Byte>)
    ensures FromBase64(ToBase64(bs)) == Some(bs)
  {
    var body, pad := Symbols(Digits(bs), false), Padding(|bs|);
    NoPadSymbol(Digits(bs));
    SymbolsRoundTrip(Digits(bs), false);
    DigitsRoundTrip(bs);
    DigitsLength(bs);
    assert (body + pad)[..|body|] == body;
  }

  // ---- UTF-8 ----

  function Low(n: int): int { 0x80 + n % 64 }

  function EncodeChar(c: char): seq<Byte> {
    var n := c as int;
    if n < 0x80 then [n]
    else if n < 0x800 then [0xC0 + n / 64, Low(n)]
    else if n < 0x10000 then [0xE0 + n / 64 / 64, Low(n / 64), Low(n)]
    else [0xF0 + n / 64 / 64 / 64, Low(n / 64 / 64), Low(n / 64), Low(n)]
  }

  function Encode(s: string): seq<Byte> { if s == [] then [] else EncodeChar(s[0]) + Encode(s[1..]) }

  predicate Tail(b: Byte) { 0x80 <= b < 0xC0 }

  predicate Scalar(n: int) { 0 <= n < 0xD800 || 0xE000 <= n < 0x110000 }

  /** Six more payload bits from a tail byte. */
  function Push(n: int, tail: int): int { n * 64 + (tail - 0x80) }

  /** The first character and how many bytes it took; overlong forms, surrogates and stray tails are errors. */
  function DecodeChar(bs: seq<Byte>): (r: Option<(char, nat)>)
    ensures r.Some? ==> 1 <= r.value.1 <= |bs|
  {
    if bs == [] then None
    else if bs[0] < 0x80 then Some((bs[0] as char, 1))
    else if 0xC0 <= bs[0] < 0xE0 then
      if |bs| < 2 || !Tail(bs[1]) then None
      else
        var n := Push(bs[0] as int - 0xC0, bs[1]);
        if n < 0x80 then None else Some((n as char, 2))
    else if 0xE0 <= bs[0] < 0xF0 then
      if |bs| < 3 || !Tail(bs[1]) || !Tail(bs[2]) then None
      else
        var n := Push(Push(bs[0] as int - 0xE0, bs[1]), bs[2]);
        if n < 0x800 || !Scalar(n) then None else Some((n as char, 3))
    else if 0xF0 <= bs[0] < 0xF8 then
      if |bs| < 4 || !Tail(bs[1]) || !Tail(bs[2]) || !Tail(bs[3]) then None
      else
        var n := Push(Push(Push(bs[0] as int - 0xF0, bs[1]), bs[2]), bs[3]);
        if n < 0x10000 || !Scalar(n) then None else Some((n as char, 4))
    else None
  }

  function Decode(bs: seq<Byte>): Option<string> {
    if bs == [] then Some([])
    else
      var r := DecodeChar(bs);
      if r.None? then None
      else
        var rest := Decode(bs[r.value.1..]);
        if rest.None? then None else Some([r.value.0] + rest.value)
  }

  lemma PushLow(n: int)
    ensures Push(n / 64, Low(n)) == n && Tail(Low(n))
  {
  }

  lemma {:induction false} WideRoundTrip(c: char, rest: seq<Byte>)
    requires c as int >= 0x800
    ensures DecodeChar(EncodeChar(c) + rest) == Some((c, |EncodeChar(c)|))
  {
    var n := c as int;
    PushLow(n);
    PushLow(n / 64);
    PushLow(n / 64 / 64);
    assert Scalar(n);
    hide Push, Low;
    var bs := EncodeChar(c) + rest;
    if n < 0x10000 {
      assert bs[0] as int - 0xE0 == n / 64 / 64 && bs[1] == Low(n / 64) && bs[2] == Low(n);
    } else {
      assert bs[0] as int - 0xF0 == n / 64 / 64 / 64 && bs[1] == Low(n / 64 / 64) && bs[2] == Low(n / 64) && bs[3] == Low(n);
    }
  }

  lemma {:induction false} CharRoundTrip(c: char, rest: seq<Byte>)
    ensures DecodeChar(EncodeChar(c) + rest) == Some((c, |EncodeChar(c)|))
  {
    var n, bs := c as int, EncodeChar(c) + rest;
    if n >= 0x800 {
      WideRoundTrip(c, rest);
    } else if n >= 0x80 {
      PushLow(n);
      hide Push, Low;
      assert bs[0] as int - 0xC0 == n / 64 && bs[1] == Low(n);
    }
  }

  lemma {:induction false} Utf8RoundTrip(s: string)
    ensures Decode(Encode(s)) == Some(s)
  {
    if s != [] {
      CharRoundTrip(s[0], Encode(s[1..]));
      Utf8RoundTrip(s[1..]);
      assert Encode(s)[|EncodeChar(s[0])|..] == Encode(s[1..]);
      assert s == [s[0]] + s[1..];
    }
  }
}
