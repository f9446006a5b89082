/** JSON strings and arrays of strings (sections 5 and 7 of RFC 8259), as Python's json writes and reads them. */
module Json {
  import opened Prelude
  import opened Encodings

  function Hex(d: int): (c: char)
    requires 0 <= d < 16
    ensures '0' <= c <= 'f'
  {
    if d < 10 then '0' + d as char else 'a' + (d - 10) as char
  }

  function Unhex(c: char): Option<int> {
    if '0' <= c <= '9' then Some((c - '0') as int)
    else if 'a' <= c <= 'f' then Some((c - 'a') as int + 10)
    else if 'A' <= c <= 'F' then Some((c - 'A') as int + 10)
    else None
  }

  const QUOTE := '\"'
  const SLASH := '\\'
  const BACKSPACE := 8 as char
  const FORMFEED := 12 as char

  /** ensure_ascii=False: only quotes, backslashes and control characters are escaped. */
  function EscapeChar(c: char): string {
    if c == QUOTE then [SLASH, QUOTE]
    else if c == SLASH then [SLASH, SLASH]
    else if c == '\n' then [SLASH, 'n']
    else if c == '\r' then [SLASH, 'r']
    else if c == '\t' then [SLASH, 't']
    else if c == FORMFEED then [SLASH, 'f']
    else if c == BACKSPACE then [SLASH, 'b']
    else if c < ' ' then [SLASH, 'u', '0', '0', Hex(c as int / 16), Hex(c as int % 16)]
    else [c]
  }

  function Escape(s: string): string { if s == [] then [] else EscapeChar(s[0]) + Escape(s[1..]) }
  function Quoted(s: string): string { [QUOTE] + Escape(s) + [QUOTE] }

  /** json.dumps of a list of strings. */
  function DumpRest(parts: seq<string>): string {
    if parts == [] then "]" else ", " + Quoted(parts[0]) + DumpRest(parts[1..])
  }
  function Dump(parts: seq<string>): string {
    if parts == [] then "[]" else "[" + Quoted(parts[0]) + DumpRest(parts[1..])
  }

  // ---- reading ----

  function Hex4(s: string): Option<int> {
    if |s| < 4 then None
    else
      var a, b, c, d := Unhex(s[0]), Unhex(s[1]), Unhex(s[2]), Unhex(s[3]);
      if a.None? || b.None? || c.None? || d.None? then None
      else Some(a.value * 4096 + b.value * 256 + c.value * 16 + d.value)
  }

  /** One character of a string body and how long its spelling is; a lone surrogate is no character here. */
  function ReadChar(s: string): (r: Option<(char, nat)>)
    requires s != []
    ensures r.Some? ==> 1 <= r.value.1 <= |s|
  {
    if s[0] < ' ' || s[0] == QUOTE then None
    else if s[0] != SLASH then Some((s[0], 1))
    else if |s| < 2 then None
    else if s[1] == QUOTE || s[1] == SLASH || s[1] == '/' then Some((s[1], 2))
    else if s[1] == 'b' then Some((BACKSPACE, 2))
    else if s[1] == 'f' then Some((FORMFEED, 2))
    else if s[1] == 'n' then Some(('\n', 2))
    else if s[1] == 'r' then Some(('\r', 2))
    else if s[1] == 't' then Some(('\t', 2))
    else if s[1] == 'u' then ReadHex(s)
    else None
  }

  function ReadHex(s: string): (r: Option<(char, nat)>)
    requires |s| >= 2
    ensures r.Some? ==> 1 <= r.value.1 <= |s|
  {
    var n := Hex4(s[2..]);
    if n.None? then None
    else if Scalar(n.value) then Some((n.value as char, 6))
    else if 0xD800 <= n.value < 0xDC00 && |s| >= 12 && s[6] == SLASH && s[7] == 'u' then
      var m := Hex4(s[8..]);
      if m.None? || !(0xDC00 <= m.value < 0xE000) then None
      else
        var joined := 0x10000 + (n.value - 0xD800) * 1024 + (m.value - 0xDC00);
        if Scalar(joined) then Some((joined as char, 12)) else None
    else None
  }

  /** The rest of a string after its opening quote. */
  function ReadBody(s: string): (r: Option<(string, string)>)
    ensures r.Some? ==> |r.value.1| < |s|
    decreases |s|
  {
    if s == [] then None
    else if s[0] == QUOTE then Some(([], s[1..]))
    else
      var c := ReadChar(s);
      if c.None? then None
      else
        var rest := ReadBody(s[c.value.1..]);
        if rest.None? then None else Some(([c.value.0] + rest.value.0, rest.value.1))
  }

  function SkipSpace(s: string): (r: string)
    ensures |r| <= |s|
  {
    if s != [] && (s[0] == ' ' || s[0] == '\t' || s[0] == '\n' || s[0] == '\r') then SkipSpace(s[1..]) else s
  }

  /** Elements after one has begun: a string, then a comma and more, or the closing bracket and nothing else. */
  function ReadElements(s: string): Option<seq<string>>
    decreases |s|
  {
    if s == [] || s[0] != QUOTE then None
    else
      var first := ReadBody(s[1..]);
      if first.None? then None
      else
        var after := SkipSpace(first.value.1);
        if after == [] then None
        else if after[0] == ']' then (if SkipSpace(after[1..]) == [] then Some([first.value.0]) else None)
        else if after[0] != ',' then None
        else
          var rest := ReadElements(SkipSpace(after[1..]));
          if rest.None? then None else Some([first.value.0] + rest.value)
  }

  /** json.loads restricted to arrays of strings; everything else reads as None. */
  function Load(s: string): Option<seq<string>> {
    var t := SkipSpace(s);
    if t == [] || t[0] != '[' then None
    else
      var u := SkipSpace(t[1..]);
      if u != [] && u[0] == ']' then (if SkipSpace(u[1..]) == [] then Some([]) else None)
      else ReadElements(u)
  }

  // ---- round trip ----

  lemma {:induction false} EscapeRoundTrip(c: char, rest: string)
    ensures var s := EscapeChar(c) + rest;
      s[0] != QUOTE && ReadChar(s) == Some((c, |EscapeChar(c)|))
  {
    var s := EscapeChar(c) + rest;
    if c < ' ' && |EscapeChar(c)| == 6 {
      HexRoundTrip(c as int);
      assert s[2..][..4] == ['0', '0', Hex(c as int / 16), Hex(c as int % 16)];
    }
  }

  lemma HexRoundTrip(n: int)
    requires 0 <= n < 32
    ensures Unhex('0') == Some(0) && Unhex(Hex(n / 16)) == Some(n / 16) && Unhex(Hex(n % 16)) == Some(n % 16)
  {
  }

  lemma {:induction false} BodyRoundTrip(s: string, rest: string)
    ensures ReadBody(Escape(s) + [QUOTE] + rest) == Some((s, rest))
  {
    hide EscapeChar, ReadChar;
    if s != [] {
      var e := Escape(s) + [QUOTE] + rest;
      EscapeRoundTrip(s[0], Escape(s[1..]) + [QUOTE] + rest);
      assert e == EscapeChar(s[0]) + (Escape(s[1..]) + [QUOTE] + rest);
      BodyRoundTrip(s[1..], rest);
      assert e[|EscapeChar(s[0])|..] == Escape(s[1..]) + [QUOTE] + rest;
      assert s == [s[0]] + s[1..];
      hide Escape;
    }
  }

  lemma Unspaced(s: string)
    requires s != [] && s[0] > ' '
    ensures SkipSpace(s) == s && SkipSpace([' '] + s) == s
  {
    assert ([' '] + s)[1..] == s;
  }

  lemma LastElement(s: string, first: string)
    requires s != [] && s[0] == QUOTE && ReadBody(s[1..]) == Some((first, "]"))
    ensures ReadElements(s) == Some([first])
  {
    hide ReadBody;
    Unspaced("]");
    assert "]"[1..] == [];
  }

  lemma NextElement(s: string, first: string, tail: string)
    requires s != [] && s[0] == QUOTE && ReadBody(s[1..]) == Some((first, ", " + tail)) && tail != [] && tail[0] == QUOTE
    ensures ReadElements(tail).Some? ==> ReadElements(s) == Some([first] + ReadElements(tail).value)
  {
    var after := ", " + tail;
    Unspaced(after);
    Unspaced(tail);
    assert after[1..] == [' '] + tail;
    hide ReadBody, SkipSpace;
  }

  lemma QuotedSplits(first: string, after: string)
    ensures var s := Quoted(first) + after; s != [] && s[0] == QUOTE && s[1..] == Escape(first) + [QUOTE] + after
  {
    hide Escape;
  }

  lemma RestSplits(parts: seq<string>)
    ensures DumpRest(parts) == if parts == [] then "]" else ", " + (Quoted(parts[0]) + DumpRest(parts[1..]))
  {
    hide Quoted;
  }

  lemma {:induction false} ElementsRoundTrip(first: string, parts: seq<string>)
    ensures ReadElements(Quoted(first) + DumpRest(parts)) == Some([first] + parts)
    decreases |parts|
  {
    hide ReadBody, ReadElements, Escape, Quoted, DumpRest;
    var s := Quoted(first) + DumpRest(parts);
    QuotedSplits(first, DumpRest(parts));
    BodyRoundTrip(first, DumpRest(parts));
    RestSplits(parts);
    if parts == [] {
      LastElement(s, first);
      assert [first] + parts == [first];
    } else {
      var tail := Quoted(parts[0]) + DumpRest(parts[1..]);
      QuotedSplits(parts[0], DumpRest(parts[1..]));
      ElementsRoundTrip(parts[0], parts[1..]);
      assert ReadBody(s[1..]) == Some((first, ", " + tail));
      assert s[0] == QUOTE && tail[0] == QUOTE;
      NextElement(s, first, tail);
      assert [parts[0]] + parts[1..] == parts;
    }
  }

  /** Whatever strings go out come back, whatever quotes, controls or scripts they contain. */
  lemma {:induction false} DumpRoundTrip(parts: seq<string>)
    ensures Load(Dump(parts)) == Some(parts)
  {
    var s := Dump(parts);
    if parts == [] {
      assert s[1..] == "]" && s[1..][1..] == [];
    } else {
      assert s[0] == '[' && s[1..] == Quoted(parts[0]) + DumpRest(parts[1..]) && s[1..][0] == QUOTE;
      hide ReadElements, DumpRest, Escape, SkipSpace, Quoted, Dump;
      Unspaced(s);
      Unspaced(s[1..]);
      ElementsRoundTrip(parts[0], parts[1..]);
      assert parts == [parts[0]] + parts[1..];
    }
  }

  // ---- how long ----

  lemma {:induction false} EncodeConcat(s: string, t: string)
    ensures Encode(s + t) == Encode(s) + Encode(t)
  {
    if s == [] {
      assert s + t == t;
    } else {
      EncodeConcat(s[1..], t);
      assert (s + t)[1..] == s[1..] + t;
    }
  }

  predicate Ascii(s: string) { forall i :: 0 <= i < |s| ==> s[i] as int < 128 }

  lemma {:induction false} AsciiLength(s: string)
    requires Ascii(s)
    ensures |Encode(s)| == |s|
  {
    if s != [] { AsciiLength(s[1..]); }
  }

  lemma {:induction false} EscapeLength(s: string)
    ensures |Encode(Escape(s))| <= 6 * |s|
  {
    if s != [] {
      EscapeLength(s[1..]);
      EncodeConcat(EscapeChar(s[0]), Escape(s[1..]));
      EscapeCharLength(s[0]);
    }
  }

  lemma EscapeAscii(c: char)
    requires |EscapeChar(c)| > 1
    ensures Ascii(EscapeChar(c)) && |EscapeChar(c)| <= 6
  {
    if |EscapeChar(c)| == 6 {
      assert Hex(c as int / 16) <= 'f' && Hex(c as int % 16) <= 'f';
    }
  }

  lemma {:induction false} EscapeCharLength(c: char)
    ensures |Encode(EscapeChar(c))| <= 6
  {
    var e := EscapeChar(c);
    if |e| > 1 {
      EscapeAscii(c);
      AsciiLength(e);
    } else {
      assert e[1..] == [] && Encode(e) == EncodeChar(c) + [];
    }
  }
}
