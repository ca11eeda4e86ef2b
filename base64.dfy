/**
 * The base 64 encoding of section 4 of RFC 4648, as `btoa` produces it: the
 * characters of a string are taken as bytes (those above U+00FF are
 * refused), every three bytes become four characters of the 64-character
 * alphabet, and a final group of one or two bytes is padded with `=`.
 */
module Base64 {
  import opened Wrappers

  newtype Byte = x: int | 0 <= x < 256

  /** Character `n` of the alphabet: A-Z, a-z, 0-9, `+`, `/`. */
  function Char(n: int): (c: char)
    requires 0 <= n < 64
  {
    if n < 26 then ('A' as int + n) as char
    else if n < 52 then ('a' as int + n - 26) as char
    else if n < 62 then ('0' as int + n - 52) as char
    else if n == 62 then '+'
    else '/'
  }

  /** The value of an alphabet character; `None` for any other character, `=` included. */
  function Value(c: char): (r: Option<int>)
    ensures r.Some? ==> 0 <= r.value < 64 && Char(r.value) == c
  {
    if 'A' <= c <= 'Z' then Some(c as int - 'A' as int)
    else if 'a' <= c <= 'z' then Some(c as int - 'a' as int + 26)
    else if '0' <= c <= '9' then Some(c as int - '0' as int + 52)
    else if c == '+' then Some(62)
    else if c == '/' then Some(63)
    else None
  }

  /** Each alphabet character decodes to its own position: the alphabet has no repeats. */
  lemma ValueChar(n: int)
    requires 0 <= n < 64
    ensures Value(Char(n)) == Some(n)
  {
  }

  /** The encoding: four characters per three bytes, padded at the end. */
  function Encode(b: seq<Byte>): (r: string)
    ensures |r| == (|b| + 2) / 3 * 4
    decreases |b|
  {
    assert |b| >= 3 ==> (|b| + 2) / 3 == (|b| - 3 + 2) / 3 + 1;
    if |b| == 0 then ""
    else if |b| == 1 then Group1(b[0])
    else if |b| == 2 then Group2(b[0], b[1])
    else Group3(b[0], b[1], b[2]) + Encode(b[3..])
  }

  /** One group of four characters: three, two or one bytes, by its padding. */
  function DecodeGroup(g: string, last: bool): (r: Option<seq<Byte>>)
    requires |g| == 4
    ensures r.Some? ==> 1 <= |r.value| <= 3 && (!last ==> |r.value| == 3)
    ensures r.Some? && |r.value| < 3 ==> g[3] == '=' && (|r.value| == 1 <==> g[2] == '=')
  {
    var v0, v1, v2, v3 := Value(g[0]), Value(g[1]), Value(g[2]), Value(g[3]);
    if v0.None? || v1.None? then None
    else if v2.Some? && v3.Some? then
      Some([(v0.value * 4 + v1.value / 16) as Byte,
            (v1.value % 16 * 16 + v2.value / 4) as Byte,
            (v2.value % 4 * 64 + v3.value) as Byte])
    else if last && v2.Some? && g[3] == '=' && v2.value % 4 == 0 then
      Some([(v0.value * 4 + v1.value / 16) as Byte, (v1.value % 16 * 16 + v2.value / 4) as Byte])
    else if last && g[2] == '=' && g[3] == '=' && v1.value % 16 == 0 then
      Some([(v0.value * 4 + v1.value / 16) as Byte])
    else None
  }

  /** The decoding: groups of four characters, padding allowed in the last group only. */
  function Decode(s: string): (r: Option<seq<Byte>>)
    ensures r.Some? ==> |s| % 4 == 0 && |s| / 4 * 3 - 2 <= |r.value| <= |s| / 4 * 3
    ensures r.Some? && |s| >= 4 && s[|s| - 1] != '=' ==> |r.value| == |s| / 4 * 3
    decreases |s|
  {
    if s == [] then Some([])
    else if |s| < 4 then None
    else
      match DecodeGroup(s[..4], |s| == 4)
      case None => None
      case Some(g) =>
        match Decode(s[4..])
        case None => None
        case Some(rest) => Some(g + rest)
  }

  /** The four characters of a full group. */
  function Group3(b0: Byte, b1: Byte, b2: Byte): (g: string)
    ensures |g| == 4
  {
    var x0, x1, x2 := b0 as int, b1 as int, b2 as int;
    [Char(x0 / 4), Char(x0 % 4 * 16 + x1 / 16), Char(x1 % 16 * 4 + x2 / 64), Char(x2 % 64)]
  }

  /** The four characters of a final group of two bytes. */
  function Group2(b0: Byte, b1: Byte): (g: string)
    ensures |g| == 4
  {
    var x0, x1 := b0 as int, b1 as int;
    [Char(x0 / 4), Char(x0 % 4 * 16 + x1 / 16), Char(x1 % 16 * 4), '=']
  }

  /** The four characters of a final group of one byte. */
  function Group1(b0: Byte): (g: string)
    ensures |g| == 4
  {
    var x0 := b0 as int;
    [Char(x0 / 4), Char(x0 % 4 * 16), '=', '=']
  }

  lemma Group3RoundTrip(b0: Byte, b1: Byte, b2: Byte, last: bool)
    ensures DecodeGroup(Group3(b0, b1, b2), last) == Some([b0, b1, b2])
  {
    var x0, x1, x2 := b0 as int, b1 as int, b2 as int;
    var v0, v1, v2, v3 := x0 / 4, x0 % 4 * 16 + x1 / 16, x1 % 16 * 4 + x2 / 64, x2 % 64;
    ValueChar(v0);
    ValueChar(v1);
    ValueChar(v2);
    ValueChar(v3);
    assert v1 / 16 == x0 % 4 && v1 % 16 == x1 / 16;
    assert v2 / 4 == x1 % 16 && v2 % 4 == x2 / 64;
    assert v0 * 4 + v1 / 16 == x0;
    assert v1 % 16 * 16 + v2 / 4 == x1;
    assert v2 % 4 * 64 + v3 == x2;
  }

  lemma Group2RoundTrip(b0: Byte, b1: Byte)
    ensures DecodeGroup(Group2(b0, b1), true) == Some([b0, b1])
  {
    var x0, x1 := b0 as int, b1 as int;
    var v0, v1, v2 := x0 / 4, x0 % 4 * 16 + x1 / 16, x1 % 16 * 4;
    ValueChar(v0);
    ValueChar(v1);
    ValueChar(v2);
    assert Value('=') == None;
    assert v1 / 16 == x0 % 4 && v1 % 16 == x1 / 16;
    assert v2 / 4 == x1 % 16 && v2 % 4 == 0;
    assert v0 * 4 + v1 / 16 == x0;
    assert v1 % 16 * 16 + v2 / 4 == x1;
  }

  lemma Group1RoundTrip(b0: Byte)
    ensures DecodeGroup(Group1(b0), true) == Some([b0])
  {
    var x0 := b0 as int;
    var v0, v1 := x0 / 4, x0 % 4 * 16;
    ValueChar(v0);
    ValueChar(v1);
    assert Value('=') == None;
    assert v1 / 16 == x0 % 4 && v1 % 16 == 0;
    assert v0 * 4 + v1 / 16 == x0;
  }

  /** Decoding a group followed by the rest of the text. */
  lemma DecodeCons(g: string, rest: string, x: seq<Byte>, y: seq<Byte>)
    requires |g| == 4
    requires DecodeGroup(g, rest == []) == Some(x) && Decode(rest) == Some(y)
    ensures Decode(g + rest) == Some(x + y)
  {
    var s := g + rest;
    assert s[..4] == g && s[4..] == rest;
    assert (|s| == 4) == (rest == []);
  }

  /** Decoding an encoding gives the bytes back. */
  lemma {:induction false} DecodeEncode(b: seq<Byte>)
    ensures Decode(Encode(b)) == Some(b)
    decreases |b|
  {
    if |b| == 1 {
      DecodeLast1(b);
    } else if |b| == 2 {
      DecodeLast2(b);
    } else if |b| >= 3 {
      DecodeEncode(b[3..]);
      DecodeStep(b);
    }
  }

  lemma DecodeLast1(b: seq<Byte>)
    requires |b| == 1
    ensures Decode(Encode(b)) == Some(b)
  {
    Group1RoundTrip(b[0]);
    DecodeCons(Group1(b[0]), [], [b[0]], []);
    assert Group1(b[0]) + [] == Encode(b) && [b[0]] + [] == b;
  }

  lemma DecodeLast2(b: seq<Byte>)
    requires |b| == 2
    ensures Decode(Encode(b)) == Some(b)
  {
    Group2RoundTrip(b[0], b[1]);
    DecodeCons(Group2(b[0], b[1]), [], [b[0], b[1]], []);
    assert Group2(b[0], b[1]) + [] == Encode(b) && [b[0], b[1]] + [] == b;
  }

  lemma DecodeStep(b: seq<Byte>)
    requires |b| >= 3 && Decode(Encode(b[3..])) == Some(b[3..])
    ensures Decode(Encode(b)) == Some(b)
  {
    var rest := Encode(b[3..]);
    Group3RoundTrip(b[0], b[1], b[2], rest == []);
    DecodeCons(Group3(b[0], b[1], b[2]), rest, [b[0], b[1], b[2]], b[3..]);
    assert Encode(b) == Group3(b[0], b[1], b[2]) + rest;
    ThreeThenRest(b);
  }

  lemma ThreeThenRest<T>(b: seq<T>)
    requires |b| >= 3
    ensures [b[0], b[1], b[2]] + b[3..] == b
  {
  }

  /** The bytes `btoa` sees: one per character, or `None` when a character is above U+00FF. */
  function Latin1(s: string): (r: Option<seq<Byte>>)
    ensures r.Some? <==> forall i :: 0 <= i < |s| ==> s[i] as int < 256
    ensures r.Some? ==> |r.value| == |s| && forall i :: 0 <= i < |s| ==> r.value[i] as int == s[i] as int
  {
    if forall i :: 0 <= i < |s| ==> s[i] as int < 256 then
      Some(seq(|s|, i requires 0 <= i < |s| => s[i] as int as Byte))
    else None
  }

  /** `btoa(s)`, or the `InvalidCharacterError` it throws. */
  function Btoa(s: string): (r: Result<string, string>)
    ensures r.Ok? <==> Latin1(s).Some?
    ensures r.Ok? ==> Decode(r.value) == Latin1(s)
  {
    match Latin1(s)
    case None => Err("InvalidCharacterError")
    case Some(bytes) =>
      DecodeEncode(bytes);
      Ok(Encode(bytes))
  }
}
