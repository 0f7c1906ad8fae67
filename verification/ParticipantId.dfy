/**
 The participant id: a member's kind and its id, percent-encoded over UTF-8 (RFC 3629
 section 3, RFC 3986 sections 2.1 and 2.3), and the two readers of it. A Dafny char is a
 Unicode scalar value, so a string is a well-formed one.
 */
module ParticipantId {
  import opened Options
  import JsText

  datatype Kind = Human | Pet

  type Byte = b: int | 0 <= b < 256

  // ----------------------------------------------------------------- UTF-8

  function Utf8(c: char): seq<Byte> {
    var x := c as int;
    if x < 0x80 then [x]
    else if x < 0x800 then [0xC0 + x / 64, 0x80 + x % 64]
    else if x < 0x10000 then [0xE0 + x / 4096, 0x80 + x / 64 % 64, 0x80 + x % 64]
    else [0xF0 + x / 262144, 0x80 + x / 4096 % 64, 0x80 + x / 64 % 64, 0x80 + x % 64]
  }

  predicate Continues(b: Byte) { 0x80 <= b < 0xC0 }

  /** How many bytes a character takes, by its first byte; none for a byte that begins no character. */
  function Width(b: Byte): nat {
    if b < 0x80 then 1 else if b < 0xC0 then 0 else if b < 0xE0 then 2 else if b < 0xF0 then 3 else if b < 0xF8 then 4 else 0
  }

  predicate IsScalar(x: int) {
    0 <= x < 0xD800 || 0xE000 <= x < 0x110000
  }

  /** The character of a whole sequence: no overlong form, no surrogate, nothing past the last code point. */
  function FromUtf8(bs: seq<Byte>): Option<char> {
    if |bs| == 1 && bs[0] < 0x80 then Some(bs[0] as char)
    else if |bs| == 2 && 0xC0 <= bs[0] < 0xE0 && Continues(bs[1]) then
      var x := (bs[0] as int - 0xC0) * 64 + (bs[1] as int - 0x80);
      if 0x80 <= x then Some(x as char) else None
    else if |bs| == 3 && 0xE0 <= bs[0] < 0xF0 && Continues(bs[1]) && Continues(bs[2]) then
      var x := (bs[0] as int - 0xE0) * 4096 + (bs[1] as int - 0x80) * 64 + (bs[2] as int - 0x80);
      if 0x800 <= x && IsScalar(x) then Some(x as char) else None
    else if |bs| == 4 && 0xF0 <= bs[0] < 0xF8 && Continues(bs[1]) && Continues(bs[2]) && Continues(bs[3]) then
      var x := (bs[0] as int - 0xF0) * 262144 + (bs[1] as int - 0x80) * 4096 + (bs[2] as int - 0x80) * 64 + (bs[3] as int - 0x80);
      if 0x10000 <= x && IsScalar(x) then Some(x as char) else None
    else None
  }

  lemma ThreeBytes(x: nat)
    requires 0x800 <= x < 0x10000
    ensures (x / 4096) * 4096 + (x / 64 % 64) * 64 + x % 64 == x && x / 4096 < 16
  {
    assert x / 64 == x / 4096 * 64 + x / 64 % 64;
  }

  lemma FourBytes(x: nat)
    requires 0x10000 <= x < 0x110000
    ensures (x / 262144) * 262144 + (x / 4096 % 64) * 4096 + (x / 64 % 64) * 64 + x % 64 == x && x / 262144 < 5
  {
    assert x / 64 == x / 4096 * 64 + x / 64 % 64;
    assert x / 4096 == x / 262144 * 64 + x / 4096 % 64;
  }

  lemma Utf8RoundTrip(c: char)
    ensures FromUtf8(Utf8(c)) == Some(c)
    ensures Utf8(c) != [] && |Utf8(c)| == Width(Utf8(c)[0])
  {
    var x := c as int;
    if x < 0x80 {
    } else if x < 0x800 {
    } else if x < 0x10000 {
      ThreeBytes(x);
    } else {
      FourBytes(x);
    }
  }

  lemma OnlyTwo(a: Byte, b: Byte)
    requires FromUtf8([a, b]).Some?
    ensures Utf8(FromUtf8([a, b]).value) == [a, b]
  {
  }

  lemma OnlyThree(a: Byte, b: Byte, c: Byte)
    requires FromUtf8([a, b, c]).Some?
    ensures Utf8(FromUtf8([a, b, c]).value) == [a, b, c]
  {
    var x := (a as int - 0xE0) * 4096 + (b as int - 0x80) * 64 + (c as int - 0x80);
    assert x / 64 == (a as int - 0xE0) * 64 + (b as int - 0x80);
    assert x / 4096 == a as int - 0xE0;
  }

  lemma OnlyFour(a: Byte, b: Byte, c: Byte, d: Byte)
    requires FromUtf8([a, b, c, d]).Some?
    ensures Utf8(FromUtf8([a, b, c, d]).value) == [a, b, c, d]
  {
    var x := (a as int - 0xF0) * 262144 + (b as int - 0x80) * 4096 + (c as int - 0x80) * 64 + (d as int - 0x80);
    assert x / 64 == (a as int - 0xF0) * 4096 + (b as int - 0x80) * 64 + (c as int - 0x80);
    assert x / 4096 == (a as int - 0xF0) * 64 + (b as int - 0x80);
    assert x / 262144 == a as int - 0xF0;
  }

  /** No other bytes are read as a character than those it is written as. */
  lemma OnlyUtf8(bs: seq<Byte>)
    requires FromUtf8(bs).Some?
    ensures Utf8(FromUtf8(bs).value) == bs
  {
    if |bs| == 2 {
      assert bs == [bs[0], bs[1]];
      OnlyTwo(bs[0], bs[1]);
    } else if |bs| == 3 {
      assert bs == [bs[0], bs[1], bs[2]];
      OnlyThree(bs[0], bs[1], bs[2]);
    } else if |bs| == 4 {
      assert bs == [bs[0], bs[1], bs[2], bs[3]];
      OnlyFour(bs[0], bs[1], bs[2], bs[3]);
    } else {
      assert bs == [bs[0]];
    }
  }

  // ------------------------------------------------------- percent-encoding

  const HEX := "0123456789ABCDEF"

  function HexValue(c: char): Option<nat> {
    if '0' <= c <= '9' then Some(c as int - '0' as int)
    else if 'A' <= c <= 'F' then Some(c as int - 'A' as int + 10)
    else if 'a' <= c <= 'f' then Some(c as int - 'a' as int + 10)
    else None
  }

  function Percent(b: Byte): string {
    ['%', HEX[b / 16], HEX[b % 16]]
  }

  lemma HexRoundTrip(n: nat)
    requires n < 16
    ensures HexValue(HEX[n]) == Some(n) && HEX[n] != '%' && HEX[n] != ')' && HEX[n] != ':' && HEX[n] != '[' && HEX[n] != ']' && !JsText.IsSpace(HEX[n])
  {
  }

  predicate IsAlphaNumeric(c: char) {
    'A' <= c <= 'Z' || 'a' <= c <= 'z' || '0' <= c <= '9'
  }

  /** What encodeURIComponent leaves as it is. */
  predicate LeftAlone(c: char) {
    IsAlphaNumeric(c) || c == '-' || c == '_' || c == '.' || c == '~' || IsDelimiter(c)
  }

  /** The marks among them that Markdown could read, which the id encodes as well. */
  predicate IsDelimiter(c: char) {
    c == '!' || c == '\'' || c == '(' || c == ')' || c == '*'
  }

  function PercentAll(bs: seq<Byte>): string {
    if bs == [] then "" else Percent(bs[0]) + PercentAll(bs[1..])
  }

  function EncodeComponent(s: string): string {
    if s == "" then ""
    else (if LeftAlone(s[0]) then [s[0]] else PercentAll(Utf8(s[0]))) + EncodeComponent(s[1..])
  }

  function EncodeDelimiters(s: string): string {
    if s == "" then ""
    else (if IsDelimiter(s[0]) then Percent(s[0] as int) else [s[0]]) + EncodeDelimiters(s[1..])
  }

  /** RFC 3986's unreserved characters stand for themselves, and nothing else does. */
  predicate Unreserved(c: char) {
    IsAlphaNumeric(c) || c == '-' || c == '_' || c == '.' || c == '~'
  }

  function EncodeChar(c: char): string {
    if Unreserved(c) then [c] else PercentAll(Utf8(c))
  }

  function Encode(s: string): string {
    if s == "" then "" else EncodeChar(s[0]) + Encode(s[1..])
  }

  lemma {:induction false} DelimitersAppend(s: string, t: string)
    ensures EncodeDelimiters(s + t) == EncodeDelimiters(s) + EncodeDelimiters(t)
  {
    if s == "" {
      assert s + t == t;
    } else {
      assert (s + t)[1..] == s[1..] + t;
      DelimitersAppend(s[1..], t);
      var e := if IsDelimiter(s[0]) then Percent(s[0] as int) else [s[0]];
      assert (e + EncodeDelimiters(s[1..])) + EncodeDelimiters(t) == e + (EncodeDelimiters(s[1..]) + EncodeDelimiters(t));
    }
  }

  /** A character that no reader of an id or a link treats specially. */
  predicate Plain(c: char) {
    c != ')' && c != ':' && c != '[' && c != ']' && !JsText.IsSpace(c) && !IsDelimiter(c)
  }

  predicate AllPlain(s: string) {
    forall i :: 0 <= i < |s| ==> Plain(s[i])
  }

  lemma PlainDigits(n: nat)
    requires n < 16
    ensures Plain(HEX[n])
  {
  }

  lemma {:induction false} PercentPlain(bs: seq<Byte>)
    ensures AllPlain(PercentAll(bs))
  {
    if bs != [] {
      PlainDigits(bs[0] / 16);
      PlainDigits(bs[0] % 16);
      PercentPlain(bs[1..]);
    }
  }

  lemma {:induction false} DelimitersLeave(s: string)
    requires AllPlain(s)
    ensures EncodeDelimiters(s) == s
  {
    if s != "" {
      assert AllPlain(s[1..]);
      DelimitersLeave(s[1..]);
    }
  }

  /** Encoding in two passes, as the code does, is encoding all but the unreserved characters. */
  lemma {:induction false} TwoPasses(s: string)
    ensures EncodeDelimiters(EncodeComponent(s)) == Encode(s)
  {
    if s != "" {
      TwoPasses(s[1..]);
      var c := s[0];
      var e := if LeftAlone(c) then [c] else PercentAll(Utf8(c));
      DelimitersAppend(e, EncodeComponent(s[1..]));
      if LeftAlone(c) {
        assert [c][1..] == "";
        assert EncodeDelimiters([c]) == EncodeChar(c) by {
          if IsDelimiter(c) { assert Utf8(c) == [c as int]; assert PercentAll([c as int]) == Percent(c as int) + PercentAll([]); }
        }
      } else {
        PercentPlain(Utf8(c));
        DelimitersLeave(e);
      }
    }
  }

  // ------------------------------------------------------------- decoding

  function ByteAt(s: string): Option<Byte> {
    if |s| >= 3 && s[0] == '%' && HexValue(s[1]).Some? && HexValue(s[2]).Some?
       && HexValue(s[1]).value < 16 && HexValue(s[2]).value < 16
    then Some(HexValue(s[1]).value * 16 + HexValue(s[2]).value)
    else None
  }

  function BytesAt(s: string, n: nat): Option<seq<Byte>> {
    if n == 0 then Some([])
    else if ByteAt(s).None? || BytesAt(s[3..], n - 1).None? then None
    else Some([ByteAt(s).value] + BytesAt(s[3..], n - 1).value)
  }

  /** decodeURIComponent: it throws on a broken escape and on bytes that are not UTF-8. */
  function Decode(s: string): Option<string> {
    if s == "" then Some("")
    else if s[0] != '%' then
      var rest := Decode(s[1..]);
      if rest.None? then None else Some([s[0]] + rest.value)
    else if ByteAt(s).None? then None
    else
      var n := Width(ByteAt(s).value);
      if n == 0 || |s| < 3 * n || BytesAt(s, n).None? || FromUtf8(BytesAt(s, n).value).None? then None
      else
        var rest := Decode(s[3 * n..]);
        if rest.None? then None else Some([FromUtf8(BytesAt(s, n).value).value] + rest.value)
  }

  lemma ByteRoundTrip(b: Byte, rest: string)
    ensures ByteAt(Percent(b) + rest) == Some(b) && (Percent(b) + rest)[3..] == rest
  {
    HexRoundTrip(b / 16);
    HexRoundTrip(b % 16);
    assert (Percent(b) + rest)[0] == '%' && (Percent(b) + rest)[1] == HEX[b / 16] && (Percent(b) + rest)[2] == HEX[b % 16];
  }

  lemma {:induction false} BytesRoundTrip(bs: seq<Byte>, rest: string)
    ensures BytesAt(PercentAll(bs) + rest, |bs|) == Some(bs) && |PercentAll(bs)| == 3 * |bs|
    ensures (PercentAll(bs) + rest)[3 * |bs|..] == rest
  {
    if bs == [] {
      assert "" + rest == rest;
    } else {
      var tail := PercentAll(bs[1..]) + rest;
      assert PercentAll(bs) + rest == Percent(bs[0]) + tail;
      ByteRoundTrip(bs[0], tail);
      BytesRoundTrip(bs[1..], rest);
      assert [bs[0]] + bs[1..] == bs;
    }
  }

  lemma DecodeStep(s: string, bs: seq<Byte>, c: char, rest: string)
    requires bs != [] && s != "" && s[0] == '%' && |s| >= 3 * |bs|
    requires ByteAt(s) == Some(bs[0]) && Width(bs[0]) == |bs| && BytesAt(s, |bs|) == Some(bs) && FromUtf8(bs) == Some(c)
    requires s[3 * |bs|..] == rest && Decode(rest).Some?
    ensures Decode(s) == Some([c] + Decode(rest).value)
  {
    hide FromUtf8; hide Width; hide BytesAt; hide ByteAt;
  }

  lemma EscapedBytes(bs: seq<Byte>, rest: string)
    requires bs != []
    ensures var s := PercentAll(bs) + rest;
            && |s| >= 3 * |bs| && s[0] == '%' && ByteAt(s) == Some(bs[0]) && BytesAt(s, |bs|) == Some(bs) && s[3 * |bs|..] == rest
  {
    hide BytesAt; hide ByteAt;
    BytesRoundTrip(bs, rest);
    var s, tail := PercentAll(bs) + rest, PercentAll(bs[1..]) + rest;
    assert s == Percent(bs[0]) + tail;
    hide PercentAll;
    ByteRoundTrip(bs[0], tail);
    assert (Percent(bs[0]) + tail)[0] == '%';
  }

  lemma CharRoundTrip(c: char, rest: string)
    requires Decode(rest).Some?
    ensures Decode(EncodeChar(c) + rest) == Some([c] + Decode(rest).value)
  {
    if Unreserved(c) {
      assert ([c] + rest)[1..] == rest;
    } else {
      hide Decode; hide Utf8; hide FromUtf8; hide Width; hide PercentAll; hide BytesAt; hide ByteAt;
      Utf8RoundTrip(c);
      EscapedBytes(Utf8(c), rest);
      DecodeStep(PercentAll(Utf8(c)) + rest, Utf8(c), c, rest);
    }
  }

  // -------------------------------------------- what decoding accepts at all

  /** A hexadecimal digit of either case. */
  predicate IsHex(c: char, n: nat)
    requires n < 16
  {
    c == "0123456789ABCDEF"[n] || c == "0123456789abcdef"[n]
  }

  lemma HexDigits(c: char)
    ensures HexValue(c).Some? ==> HexValue(c).value < 16 && IsHex(c, HexValue(c).value)
    ensures forall n :: 0 <= n < 16 && IsHex(c, n) ==> HexValue(c) == Some(n)
  {
    if HexValue(c).Some? {
      var n := HexValue(c).value;
      assert n < 10 ==> c == ('0' as int + n) as char;
    }
  }

  /** A text starts with escapes of these bytes, one after another. */
  predicate Escapes(s: string, bs: seq<Byte>) {
    bs == [] || (|s| >= 3 && s[0] == '%' && IsHex(s[1], bs[0] / 16) && IsHex(s[2], bs[0] % 16) && Escapes(s[3..], bs[1..]))
  }

  lemma ByteAtEscapes(s: string, b: Byte)
    ensures ByteAt(s) == Some(b) <==> |s| >= 3 && s[0] == '%' && IsHex(s[1], b / 16) && IsHex(s[2], b % 16)
  {
    if |s| >= 3 {
      HexDigits(s[1]);
      HexDigits(s[2]);
    }
    hide HexValue; hide IsHex;
  }

  lemma {:induction false} BytesAtEscapes(s: string, bs: seq<Byte>)
    ensures BytesAt(s, |bs|) == Some(bs) <==> Escapes(s, bs)
    ensures Escapes(s, bs) ==> |s| >= 3 * |bs|
    decreases |bs|
  {
    if bs != [] {
      ByteAtEscapes(s, bs[0]);
      if |s| >= 3 { BytesAtEscapes(s[3..], bs[1..]); }
      hide ByteAt; hide IsHex;
      assert [bs[0]] + bs[1..] == bs;
      if BytesAt(s, |bs|) == Some(bs) { assert BytesAt(s, |bs|).value[1..] == bs[1..]; }
    }
  }

  lemma {:induction false} BytesAtLength(s: string, n: nat)
    ensures BytesAt(s, n).Some? ==> |BytesAt(s, n).value| == n
    decreases n
  {
    if n > 0 && |s| >= 3 { BytesAtLength(s[3..], n - 1); }
  }

  /** A text that starts with a character as it is, or with the escapes of all its bytes; the rest follows at n. */
  ghost predicate SpellsChar(s: string, c: char, n: nat) {
    n <= |s| && ((n == 1 && s[0] == c && c != '%') || (n == 3 * |Utf8(c)| && Escapes(s, Utf8(c))))
  }

  /** A text that spells another, character by character. */
  ghost predicate Spells(s: string, t: string)
    decreases |t|
  {
    if t == "" then s == "" else exists n :: 0 <= n <= |s| && SpellsChar(s, t[0], n) && Spells(s[n..], t[1..])
  }

  /** What decoding makes of the first character. */
  lemma DecodesChar(s: string, c: char, n: nat)
    requires SpellsChar(s, c, n)
    ensures n > 0 && s != ""
    ensures Decode(s) == if Decode(s[n..]).None? then None else Some([c] + Decode(s[n..]).value)
  {
    hide Utf8; hide FromUtf8; hide Width;
    Utf8RoundTrip(c);
    BytesAtEscapes(s, Utf8(c));
    if !(n == 1 && s[0] == c && c != '%') {
      ByteAtEscapes(s, Utf8(c)[0]);
      hide BytesAt; hide ByteAt; hide Escapes;
    }
  }

  lemma CharDecoded(s: string) returns (c: char, n: nat)
    requires s != "" && Decode(s).Some?
    ensures SpellsChar(s, c, n) && Decode(s[n..]).Some? && Decode(s) == Some([c] + Decode(s[n..]).value)
  {
    hide Utf8; hide FromUtf8; hide Width; hide BytesAt; hide ByteAt; hide Escapes;
    if s[0] != '%' {
      c, n := s[0], 1;
    } else {
      var w := Width(ByteAt(s).value);
      var bs := BytesAt(s, w).value;
      BytesAtLength(s, w);
      OnlyUtf8(bs);
      BytesAtEscapes(s, bs);
      c, n := FromUtf8(bs).value, 3 * w;
    }
  }

  /**
   Decoding reads a text exactly if it is made of characters other than the percent sign
   that stand for themselves and of escapes, in either case of the digits, of the UTF-8 of
   whole characters; and then it gives the text spelled so.
   */
  lemma {:induction false} DecodeIsSpelled(s: string, t: string)
    ensures Decode(s) == Some(t) <==> Spells(s, t)
    decreases |s| + |t|
  {
    hide SpellsChar; hide Decode;
    if Decode(s) == Some(t) {
      if s == "" {
        DecodeNothing();
      } else {
        var c, n := CharDecoded(s);
        CharTakes(s, c, n);
        assert t[0] == c && t[1..] == Decode(s[n..]).value;
        DecodeIsSpelled(s[n..], t[1..]);
      }
    }
    if Spells(s, t) {
      if t == "" {
        DecodeNothing();
      } else {
        var n :| 0 <= n <= |s| && SpellsChar(s, t[0], n) && Spells(s[n..], t[1..]);
        DecodesChar(s, t[0], n);
        DecodeIsSpelled(s[n..], t[1..]);
        assert [t[0]] + t[1..] == t;
      }
    }
  }

  lemma DecodeNothing()
    ensures Decode("") == Some("")
  {
  }

  lemma CharTakes(s: string, c: char, n: nat)
    requires SpellsChar(s, c, n)
    ensures 0 < n <= |s|
  {
    Utf8RoundTrip(c);
    hide Utf8; hide FromUtf8; hide Width; hide Escapes;
  }

  lemma {:induction false} DecodeEncoded(id: string)
    ensures Decode(Encode(id)) == Some(id)
  {
    if id != "" {
      DecodeEncoded(id[1..]);
      CharRoundTrip(id[0], Encode(id[1..]));
      assert [id[0]] + id[1..] == id;
    }
  }

  // ------------------------------------------------------- participant ids

  function Name(kind: Kind): string { if kind == Human then "human" else "pet" }

  function ParticipantId(kind: Kind, id: string): string {
    Name(kind) + ":" + EncodeDelimiters(EncodeComponent(id))
  }

  /** Where the first colon is, if there is one. */
  function Colon(s: string): (i: nat)
    ensures i <= |s| && (i < |s| ==> s[i] == ':')
  {
    if s == "" || s[0] == ':' then 0 else 1 + Colon(s[1..])
  }

  /** A string's code units, as ECMAScript counts and cuts them. */
  type Unit = u: int | 0 <= u < 0x10000

  function Units(c: char): seq<Unit> {
    var x := c as int;
    if x < 0x10000 then [x] else [0xD800 + (x - 0x10000) / 0x400, 0xDC00 + (x - 0x10000) % 0x400]
  }

  function Utf16(s: string): seq<Unit> {
    if s == "" then [] else Utf16(s[..|s| - 1]) + Units(s[|s| - 1])
  }

  /** Without a colon, the code cuts the last code unit off the kind and takes the whole text for the id. */
  function MemberRef(participantId: string): Option<(Kind, string)> {
    var i := Colon(participantId);
    var found := i < |participantId|;
    var units := Utf16(participantId);
    var kind := if found then Utf16(participantId[..i]) else if units == [] then [] else units[..|units| - 1];
    var id := Decode(if found then participantId[i + 1..] else participantId);
    if (kind != Utf16(Name(Human)) && kind != Utf16(Name(Pet))) || id.None? || JsText.IsBlank(id.value) then None
    else Some((if kind == Utf16(Name(Human)) then Human else Pet, id.value))
  }

  lemma LastUnit(s: string)
    requires s != ""
    ensures var u, c := Utf16(s), s[|s| - 1];
            && u != []
            && (c < '\U{10000}' ==> u[|u| - 1] == c as int && u[..|u| - 1] == Utf16(s[..|s| - 1]))
            && (c >= '\U{10000}' ==> u[|u| - 1] >= 0xDC00 && |u| > 1 && u[|u| - 2] >= 0xD800)
  {
  }

  predicate Ascii(s: string) {
    s == "" || (s[|s| - 1] < '\U{0080}' && Ascii(s[..|s| - 1]))
  }

  lemma {:induction false} AsciiUnits(s: string)
    requires Ascii(s)
    ensures forall i :: 0 <= i < |Utf16(s)| ==> Utf16(s)[i] < 0x80
  {
    if s != "" {
      AsciiUnits(s[..|s| - 1]);
      LastUnit(s);
    }
  }

  /** Text of ASCII characters has no other text's code units. */
  lemma {:induction false} OnlyUnits(s: string, t: string)
    requires Ascii(s) && Utf16(t) == Utf16(s)
    ensures t == s
  {
    if s != "" { LastUnit(s); }
    if t != "" { LastUnit(t); }
    if s == "" || t == "" {
      assert Utf16("") == [];
    } else {
      hide Utf16;
      var front, rest := s[..|s| - 1], t[..|t| - 1];
      OnlyUnits(front, rest);
      assert s == front + [s[|s| - 1]] && t == rest + [t[|t| - 1]];
    }
  }

  lemma NamesAscii()
    ensures Ascii("human") && Ascii("pet")
  {
    assert "human"[..4] == "huma" && "huma"[..3] == "hum" && "hum"[..2] == "hu" && "hu"[..1] == "h";
    assert "pet"[..2] == "pe" && "pe"[..1] == "p";
  }

  lemma NamesAreAscii(kind: Kind, t: string)
    ensures Utf16(t) == Utf16(Name(kind)) ==> t == Name(kind)
    ensures forall i :: 0 <= i < |Utf16(Name(kind))| ==> Utf16(Name(kind))[i] < 0x80
    ensures Utf16(Name(Human)) != Utf16(Name(Pet))
  {
    NamesAscii();
    hide Ascii; hide Utf16;
    AsciiUnits(Name(kind));
    if Utf16(t) == Utf16(Name(kind)) { OnlyUnits(Name(kind), t); }
    if Utf16(Name(Human)) == Utf16(Name(Pet)) { OnlyUnits(Name(Human), Name(Pet)); }
    assert |Name(Human)| != |Name(Pet)|;
  }

  lemma {:induction false} ColonAfter(prefix: string, rest: string)
    requires forall i :: 0 <= i < |prefix| ==> prefix[i] != ':'
    ensures Colon(prefix + ":" + rest) == |prefix|
  {
    if prefix != "" {
      assert (prefix + ":" + rest)[1..] == prefix[1..] + ":" + rest;
      ColonAfter(prefix[1..], rest);
    }
  }

  /** Reading an id back gives exactly the member it was made for. */
  lemma MemberRefInverts(kind: Kind, id: string)
    requires !JsText.IsBlank(id)
    ensures MemberRef(ParticipantId(kind, id)) == Some((kind, id))
  {
    TwoPasses(id);
    DecodeEncoded(id);
    var s := Name(kind) + ":" + Encode(id);
    ColonAfter(Name(kind), Encode(id));
    assert s[..|Name(kind)|] == Name(kind);
    assert s[|Name(kind)| + 1..] == Encode(id);
    NamesAreAscii(kind, "");
  }

  /** No two members share an id, whatever their ids contain. */
  lemma IdsDiffer(kind: Kind, id: string, other: Kind, otherId: string)
    requires kind != other || id != otherId
    ensures ParticipantId(kind, id) != ParticipantId(other, otherId)
  {
    hide Encode; hide EncodeComponent; hide EncodeDelimiters; hide Decode;
    TwoPasses(id);
    TwoPasses(otherId);
    ColonAfter(Name(kind), Encode(id));
    ColonAfter(Name(other), Encode(otherId));
    DecodeEncoded(id);
    DecodeEncoded(otherId);
    var s, t := Name(kind) + ":" + Encode(id), Name(other) + ":" + Encode(otherId);
    assert |Name(Human)| != |Name(Pet)|;
    assert s[|Name(kind)| + 1..] == Encode(id);
    assert t[|Name(other)| + 1..] == Encode(otherId);
  }

  lemma {:induction false} DecodeUnescaped(s: string)
    requires '%' !in s
    ensures Decode(s) == Some(s)
  {
    if s != "" {
      assert s[0] in s;
      assert s[0] != '%';
      DecodeUnescaped(s[1..]);
      assert [s[0]] + s[1..] == s;
    }
  }

  lemma {:induction false} DecodeBroken(s: string)
    requires '%' !in s
    ensures Decode(s + "%").None?
  {
    if s == "" {
      assert s + "%" == "%";
    } else {
      assert s[0] in s;
      assert (s + "%")[1..] == s[1..] + "%";
      DecodeBroken(s[1..]);
    }
  }

  /** A kind's name and one more character that is one code unit and begins no escape. */
  predicate NameAndMore(kind: Kind, s: string) {
    |s| == |Name(kind)| + 1 && s[..|s| - 1] == Name(kind) && s[|s| - 1] != '%' && s[|s| - 1] < '\U{10000}'
  }

  /**
   A reference without a colon should be refused. The code accepts exactly the texts that
   are the name of a kind and one more character other than a percent sign and not above
   U+FFFF, each as the id of that kind.
   */
  lemma ColonlessRefs(s: string, kind: Kind, id: string)
    requires ':' !in s
    ensures MemberRef(s) == Some((kind, id)) <==> NameAndMore(kind, s) && id == s
  {
    hide Decode; hide Utf16;
    NoColon(s);
    if s != "" {
      var front, c := s[..|s| - 1], s[|s| - 1];
      LastUnit(s);
      NamesAreAscii(Human, front);
      NamesAreAscii(Pet, front);
      if front == Name(Human) || front == Name(Pet) {
        if c == '%' {
          assert s == front + "%";
          DecodeBroken(front);
        } else {
          assert s == front + [c] && '%' !in s;
          DecodeUnescaped(s);
          assert !JsText.IsSpace(s[0]);
        }
      }
    } else {
      NamesAreAscii(Human, "");
      NamesAreAscii(Pet, "");
      assert Utf16("") == [] by { NoUnits(); }
    }
  }

  lemma NoUnits()
    ensures Utf16("") == []
  {
  }

  /** So "pets" is read as the Pet of that name, where "pet" and an emoji is not. */
  lemma PetsIsRead()
    ensures MemberRef("pets") == Some((Pet, "pets"))
    ensures MemberRef("pet\U{1F600}").None?
  {
    ColonlessRefs("pets", Pet, "pets");
    var m := MemberRef("pet\U{1F600}");
    if m.Some? { ColonlessRefs("pet\U{1F600}", m.value.0, m.value.1); }
  }

  lemma {:induction false} NoColon(s: string)
    requires ':' !in s
    ensures Colon(s) == |s|
  {
    if s != "" {
      assert s[0] in s;
      NoColon(s[1..]);
    }
  }

  // ---------------------------------------------------------- mention links

  /** What stands between a mention's label and its id. */
  function Link(): string { "](participant:" }

  lemma LinkMarks()
    ensures Link() != "" && Link()[0] == ']' && forall i :: 0 <= i < |Link()| ==> Link()[i] != '[' && Link()[i] != ')'
  {
  }

  /** What a mention's id may be made of, as the composer's pattern has it. */
  predicate InLink(c: char) { c != ')' && !JsText.IsSpace(c) }

  function RunLength(s: string): (n: nat)
    ensures n <= |s|
  {
    if s == "" || !InLink(s[0]) then 0 else 1 + RunLength(s[1..])
  }

  /** The ids of all mention links in a text, from left to right. */
  function InlineMentions(s: string): seq<string>
    decreases |s|
  {
    if s == "" then []
    else if Link() <= s then
      var body := s[|Link()|..];
      var n := RunLength(body);
      if n > 0 && n < |body| && body[n] == ')' then [body[..n]] + InlineMentions(body[n + 1..]) else InlineMentions(s[1..])
    else InlineMentions(s[1..])
  }

  function WithoutBrackets(s: string): string {
    if s == "" then ""
    else (if s[0] == '[' || s[0] == ']' || s[0] == '\\' then "" else [s[0]]) + WithoutBrackets(s[1..])
  }

  function Label(id: string, title: string): string {
    WithoutBrackets(if title == "" then id else title)
  }

  function MentionMarkdown(id: string, title: string): string {
    "[@" + Label(id, title) + Link() + id + ")"
  }

  lemma {:induction false} BracketsGone(s: string)
    ensures ']' !in WithoutBrackets(s)
  {
    if s != "" { BracketsGone(s[1..]); }
  }

  /** A character that would end a label or escape its end. */
  predicate Special(c: char) { c == '[' || c == ']' || c == '\\' }

  lemma {:induction false} NothingSkipped(s: string)
    requires forall k :: 0 <= k < |s| ==> !Special(s[k])
    ensures WithoutBrackets(s) == s
  {
    if s != "" { NothingSkipped(s[1..]); }
  }

  lemma {:induction false} SpecialSkipped(before: string, c: char, after: string)
    ensures WithoutBrackets(before + [c] + after) == WithoutBrackets(before) + (if Special(c) then "" else [c]) + WithoutBrackets(after)
  {
    var s := before + [c] + after;
    if before == "" {
      assert s[0] == c && s[1..] == after;
    } else {
      assert s[0] == before[0] && s[1..] == before[1..] + [c] + after;
      SpecialSkipped(before[1..], c, after);
    }
  }

  /**
   A mention shows the member's title, or its id if it has none: the text as it is when it
   has no special character; and the first one it has, between a and b, is left out.
   */
  lemma MentionShows(id: string, title: string, a: string, c: char, b: string)
    ensures var shown := if title == "" then id else title;
            && ((forall k :: 0 <= k < |shown| ==> !Special(shown[k])) ==> MentionMarkdown(id, title) == "[@" + shown + "](participant:" + id + ")")
            && (shown == a + [c] + b && Special(c) && (forall k :: 0 <= k < |a| ==> !Special(a[k])) ==>
                  MentionMarkdown(id, title) == "[@" + a + WithoutBrackets(b) + "](participant:" + id + ")")
  {
    var shown := if title == "" then id else title;
    if forall k :: 0 <= k < |shown| ==> !Special(shown[k]) { NothingSkipped(shown); }
    if shown == a + [c] + b && Special(c) && forall k :: 0 <= k < |a| ==> !Special(a[k]) {
      SpecialSkipped(a, c, b);
      NothingSkipped(a);
      assert a + "" == a;
      hide WithoutBrackets;
      assert "[@" + (a + WithoutBrackets(b)) == "[@" + a + WithoutBrackets(b);
    }
  }

  /** A link is still open at the end: one has begun, and only characters of an id follow. */
  predicate OpenLink(s: string) {
    s != "" && ((Link() <= s && RunLength(s[|Link()|..]) == |s| - |Link()|) || OpenLink(s[1..]))
  }

  /** What follows closes an open link: its first character that no id has is the closing mark. */
  predicate Closes(s: string) {
    RunLength(s) < |s| && s[RunLength(s)] == ')'
  }

  lemma {:induction false} RunJoins(a: string, b: string)
    ensures RunLength(a + b) == if RunLength(a) < |a| then RunLength(a) else |a| + RunLength(b)
    ensures forall i :: 0 <= i < RunLength(a) ==> InLink(a[i])
  {
    if a == "" {
      assert a + b == b;
    } else {
      assert (a + b)[1..] == a[1..] + b;
      RunJoins(a[1..], b);
      assert forall i :: 0 < i < |a| ==> a[i] == a[1..][i - 1];
    }
  }

  lemma {:induction false} OpenLater(s: string, k: nat)
    requires k <= |s| && OpenLink(s[k..])
    ensures OpenLink(s)
  {
    if k == 0 {
      assert s[0..] == s;
    } else {
      assert s[1..][k - 1..] == s[k..];
      OpenLater(s[1..], k - 1);
    }
  }

  /** An open link has no closing mark yet. */
  lemma OpenUnmarked(s: string)
    requires Link() <= s && RunLength(s[|Link()|..]) == |s| - |Link()|
    ensures forall i :: 0 <= i < |s| ==> s[i] != ')'
  {
    RunJoins(s[|Link()|..], "");
    LinkMarks();
    hide Link; hide RunLength;
    forall i | 0 <= i < |s| ensures s[i] != ')' {
      if i < |Link()| { assert s[i] == Link()[i]; } else { assert s[i] == s[|Link()|..][i - |Link()|]; }
    }
  }

  /** A closing mark closes whatever was open before it. */
  lemma {:induction false} OpenPast(s: string, k: nat)
    requires k < |s| && s[k] == ')' && OpenLink(s)
    ensures OpenLink(s[k + 1..])
  {
    if Link() <= s && RunLength(s[|Link()|..]) == |s| - |Link()| {
      OpenUnmarked(s);
      assert false;
    } else if k > 0 {
      assert s[1..][k - 1] == s[k] && s[1..][k..] == s[k + 1..];
      OpenPast(s[1..], k - 1);
    }
  }

  lemma {:induction false} NoClosingMark(s: string)
    requires ')' !in s
    ensures InlineMentions(s) == []
  {
    if s != "" {
      if Link() <= s { assert s[|Link()|..][RunLength(s[|Link()|..])..] <= s[|Link()| + RunLength(s[|Link()|..])..]; }
      NoClosingMark(s[1..]);
    }
  }

  /** No link begins before a bracket that opens a label and reaches over it into the link's own mark. */
  lemma LinkStaysApart(a: string, b: string)
    requires b != "" && b[0] == '['
    ensures Link() <= a + b <==> Link() <= a
  {
    LinkMarks();
    hide Link;
    if Link() <= a {
      assert (a + b)[..|Link()|] == Link();
    } else if |a| < |Link()| {
      assert (a + b)[|a|] == '[' && Link()[|a|] != '[';
    }
  }

  lemma BodyJoins(a: string, b: string)
    requires Link() <= a
    ensures Link() <= a + b && (a + b)[|Link()|..] == a[|Link()|..] + b
  {
    hide Link;
  }

  /** A whole link is taken; anything else costs one character. */
  predicate WholeLink(s: string) {
    Link() <= s && Closes(s[|Link()|..]) && RunLength(s[|Link()|..]) > 0
  }

  lemma MentionsStep(s: string)
    requires s != ""
    ensures InlineMentions(s) ==
            if WholeLink(s) then
              var body := s[|Link()|..];
              [body[..RunLength(body)]] + InlineMentions(body[RunLength(body) + 1..])
            else InlineMentions(s[1..])
  {
  }

  /** What is left after a whole link. */
  function AfterLink(s: string): string
    requires WholeLink(s)
  {
    s[|Link()| + RunLength(s[|Link()|..]) + 1..]
  }

  /** Whether and where a text closes, by what it begins with. */
  lemma ClosesAppended(a: string, b: string)
    ensures RunLength(a) < |a| ==> RunLength(a + b) == RunLength(a) && (Closes(a + b) <==> Closes(a))
    ensures RunLength(a) == |a| ==> (Closes(a + b) <==> Closes(b))
  {
    RunJoins(a, b);
    hide RunLength;
    assert forall k :: 0 <= k < |b| ==> (a + b)[|a| + k] == b[k];
  }

  lemma SplitJoined(a: string, b: string, n: nat)
    requires n < |a|
    ensures (a + b)[..n] == a[..n] && (a + b)[n + 1..] == a[n + 1..] + b
  {
  }

  lemma DropTwice(a: string, m: nat, n: nat)
    requires m + n < |a|
    ensures a[m..][n + 1..] == a[m + n + 1..]
  {
  }

  /** A whole link is taken the same whatever follows. */
  lemma TakenFirst(a: string, b: string)
    requires WholeLink(a)
    ensures var id := a[|Link()|..][..RunLength(a[|Link()|..])];
            InlineMentions(a) == [id] + InlineMentions(AfterLink(a)) && InlineMentions(a + b) == [id] + InlineMentions(AfterLink(a) + b)
  {
    var body := a[|Link()|..];
    var n := RunLength(body);
    hide RunLength; hide InlineMentions; hide Link;
    assert n < |body|;
    MentionsStep(a);
    MentionsStep(a + b);
    BodyJoins(a, b);
    ClosesAppended(body, b);
    hide Closes;
    SplitJoined(body, b, n);
    DropTwice(a, |Link()|, n);
  }

  /** What is no whole link yet becomes one only if it is open and then closed. */
  lemma NotTaken(a: string, b: string)
    requires a != "" && !WholeLink(a) && b != "" && b[0] == '['
    requires Link() <= a && RunLength(a[|Link()|..]) == |a| - |Link()| ==> !Closes(b)
    ensures InlineMentions(a) == InlineMentions(a[1..]) && InlineMentions(a + b) == InlineMentions(a[1..] + b)
  {
    LinkStaysApart(a, b);
    assert (a + b)[1..] == a[1..] + b;
    hide RunLength; hide InlineMentions; hide Link; hide Closes;
    MentionsStep(a);
    MentionsStep(a + b);
    if Link() <= a {
      BodyJoins(a, b);
      ClosesAppended(a[|Link()|..], b);
    }
  }

  /** Unless a link is left open and then closed, two texts are read one after the other. */
  lemma {:induction false} MentionsJoin(a: string, b: string)
    requires b != "" && b[0] == '[' && !(OpenLink(a) && Closes(b))
    ensures InlineMentions(a + b) == InlineMentions(a) + InlineMentions(b)
    decreases |a|
  {
    hide InlineMentions; hide RunLength; hide WholeLink; hide Closes; hide Link;
    if a == "" {
      assert a + b == b;
      NoClosingMark(a);
    } else if WholeLink(a) {
      TakenFirst(a, b);
      AfterIsLater(a);
      MentionsJoin(AfterLink(a), b);
    } else {
      NotTaken(a, b);
      MentionsJoin(a[1..], b);
    }
  }

  lemma AfterIsLater(a: string)
    requires WholeLink(a)
    ensures |AfterLink(a)| < |a| && (OpenLink(AfterLink(a)) <==> OpenLink(a))
  {
    var k := |Link()| + RunLength(a[|Link()|..]);
    assert a[k] == ')';
    hide OpenLink; hide RunLength;
    if OpenLink(AfterLink(a)) { OpenLater(a, k + 1); }
    if OpenLink(a) { OpenPast(a, k); }
  }

  lemma SwallowedHere(a: string, b: string) returns (x: string)
    requires b != "" && b[0] == '[' && Link() <= a && RunLength(a[|Link()|..]) == |a| - |Link()| && Closes(b)
    ensures InlineMentions(a + b) == InlineMentions(a) + [x] + InlineMentions(b[RunLength(b) + 1..]) && '[' in x
  {
    var body, n := a[|Link()|..], RunLength(b);
    assert 0 < n < |b| && b[n] == ')';
    hide *;
    BodyJoins(a, b);
    RunJoins(body, b);
    x := body + b[..n];
    SplitsAtMark(body, b, n);
    TakesWhole(a + b, x, b[n + 1..]);
    OpenUnmarked(a);
    NoClosingMark(a);
  }

  lemma SplitsAtMark(body: string, b: string, n: nat)
    requires 0 < n < |b| && b[n] == ')' && b[0] == '['
    ensures body + b == (body + b[..n]) + ")" + b[n + 1..] && '[' in body + b[..n]
  {
    assert (body + b[..n])[|body|] == '[';
    assert b == b[..n] + [b[n]] + b[n + 1..];
  }

  lemma TakesWhole(s: string, id: string, rest: string)
    requires Link() <= s && s[|Link()|..] == id + ")" + rest && id != "" && RunLength(id + ")" + rest) == |id|
    ensures InlineMentions(s) == [] + [id] + InlineMentions(rest)
  {
    hide InlineMentions; hide RunLength;
    var body := id + ")" + rest;
    assert body[..|id|] == id && body[|id| + 1..] == rest && body[|id|] == ')';
    MentionsStep(s);
  }

  /** Otherwise the open link swallows what follows up to the closing mark. */
  lemma {:induction false} OpenLinkSwallows(a: string, b: string) returns (x: string)
    requires b != "" && b[0] == '[' && OpenLink(a) && Closes(b)
    ensures InlineMentions(a + b) == InlineMentions(a) + [x] + InlineMentions(b[RunLength(b) + 1..]) && '[' in x
    decreases |a|
  {
    hide InlineMentions; hide RunLength; hide WholeLink; hide Closes; hide Link;
    if Link() <= a && RunLength(a[|Link()|..]) == |a| - |Link()| {
      x := SwallowedHere(a, b);
    } else if WholeLink(a) {
      TakenFirst(a, b);
      AfterIsLater(a);
      x := OpenLinkSwallows(AfterLink(a), b);
    } else {
      NotTaken(a, b);
      x := OpenLinkSwallows(a[1..], b);
    }
  }

  lemma {:induction false} SkipsText(text: string, rest: string)
    requires ']' !in text
    ensures InlineMentions(text + rest) == InlineMentions(rest)
  {
    if text == "" {
      assert text + rest == rest;
    } else {
      assert text[0] in text;
      assert (text + rest)[1..] == text[1..] + rest;
      assert !(Link() <= text + rest) by { assert Link()[0] == ']' && (text + rest)[0] == text[0]; }
      SkipsText(text[1..], rest);
    }
  }

  lemma {:induction false} RunOf(id: string, rest: string)
    requires forall i :: 0 <= i < |id| ==> InLink(id[i])
    ensures RunLength(id + ")" + rest) == |id|
  {
    if id != "" {
      assert (id + ")" + rest)[1..] == id[1..] + ")" + rest;
      RunOf(id[1..], rest);
    }
  }

  lemma TakesLink(id: string, rest: string)
    requires id != "" && forall i :: 0 <= i < |id| ==> InLink(id[i])
    ensures InlineMentions(Link() + id + ")" + rest) == [id] + InlineMentions(rest)
  {
    var s := Link() + id + ")" + rest;
    var body := id + ")" + rest;
    assert s == Link() + body;
    assert s[|Link()|..] == body;
    RunOf(id, rest);
    assert body[..|id|] == id && body[|id| + 1..] == rest && body[|id|] == ')';
  }

  lemma {:induction false} EncodedPlain(s: string)
    ensures forall i :: 0 <= i < |Encode(s)| ==> Plain(Encode(s)[i])
  {
    if s != "" {
      EncodedPlain(s[1..]);
      if !Unreserved(s[0]) { PercentPlain(Utf8(s[0])); }
    }
  }

  /** Every participant id can stand in a link. */
  lemma IdsFitLinks(kind: Kind, id: string)
    ensures ParticipantId(kind, id) != ""
    ensures forall i :: 0 <= i < |ParticipantId(kind, id)| ==> InLink(ParticipantId(kind, id)[i])
  {
    hide Encode; hide EncodeComponent; hide EncodeDelimiters;
    TwoPasses(id);
    EncodedPlain(id);
    var n := Name(kind) + ":";
    assert forall i :: 0 <= i < |n| ==> InLink(n[i]);
  }

  /**
   A link left open before a mention swallows it: the label has no white space, or a closing
   mark comes before it.
   */
  predicate Swallowed(before: string, id: string, title: string) {
    OpenLink(before) && (var shown := Label(id, title); RunLength(shown) < |shown| ==> shown[RunLength(shown)] == ')')
  }

  lemma LinkCloses(id: string, title: string, rest: string)
    requires forall i :: 0 <= i < |id| ==> InLink(id[i])
    ensures var shown := Label(id, title);
            Closes(MentionMarkdown(id, title) + rest) <==> (RunLength(shown) < |shown| ==> shown[RunLength(shown)] == ')')
  {
    var shown, v := Label(id, title), Link() + id + ")" + rest;
    MarkCloses(id, rest);
    hide *;
    MarkdownParts(id, title, rest);
    ClosesAfterAt(shown + v);
    ClosesAppended(shown, v);
    assert Closes(shown) <==> RunLength(shown) < |shown| && shown[RunLength(shown)] == ')' by { ClosesMeans(shown); }
  }

  lemma ClosesMeans(s: string)
    ensures Closes(s) <==> RunLength(s) < |s| && s[RunLength(s)] == ')'
  {
  }

  lemma MarkdownParts(id: string, title: string, rest: string)
    ensures MentionMarkdown(id, title) + rest == "[@" + (Label(id, title) + (Link() + id + ")" + rest))
  {
    hide Label;
  }

  lemma MarkCloses(id: string, rest: string)
    requires forall i :: 0 <= i < |id| ==> InLink(id[i])
    ensures Closes(Link() + id + ")" + rest)
  {
    RunOf(Link() + id, rest);
  }

  lemma ClosesAfterAt(s: string)
    ensures Closes("[@" + s) <==> Closes(s)
  {
    RunJoins("[@", s);
    assert RunLength("[@") == 2;
    hide RunLength;
  }

  lemma LinkAlone(id: string, title: string, rest: string)
    requires id != "" && forall i :: 0 <= i < |id| ==> InLink(id[i])
    ensures InlineMentions(MentionMarkdown(id, title) + rest) == [id] + InlineMentions(rest)
  {
    hide InlineMentions; hide WithoutBrackets; hide InLink;
    var text := "[@" + Label(id, title);
    BracketsGone(if title == "" then id else title);
    assert MentionMarkdown(id, title) + rest == text + (Link() + id + ")" + rest);
    SkipsText(text, Link() + id + ")" + rest);
    TakesLink(id, rest);
  }

  lemma IdHasNoBracket(kind: Kind, id: string)
    ensures '[' !in ParticipantId(kind, id)
  {
    hide Encode; hide EncodeComponent; hide EncodeDelimiters;
    TwoPasses(id);
    EncodedPlain(id);
    var n := Name(kind) + ":";
    assert '[' !in n;
  }

  /** What a swallowed mention leaves in its place is no participant id at all. */
  lemma SwallowedReads(kind: Kind, id: string, title: string, before: string, rest: string)
    requires Swallowed(before, ParticipantId(kind, id), title)
    ensures var read := InlineMentions(before + MentionMarkdown(ParticipantId(kind, id), title) + rest);
            |read| > |InlineMentions(before)| && read[|InlineMentions(before)|] != ParticipantId(kind, id)
  {
    var p := ParticipantId(kind, id);
    var link := MentionMarkdown(p, title) + rest;
    IdsFitLinks(kind, id);
    IdHasNoBracket(kind, id);
    LinkCloses(p, title, rest);
    assert link[0] == '[';
    hide ParticipantId; hide InlineMentions; hide OpenLink; hide InLink; hide RunLength; hide Label; hide MentionMarkdown;
    assert before + MentionMarkdown(p, title) + rest == before + link;
    var x := OpenLinkSwallows(before, link);
    assert (InlineMentions(before) + [x])[|InlineMentions(before)|] == x;
  }

  /**
   However a member is labelled, its link is read back as a mention of that member and of
   nobody else, whatever stands before and after it, exactly if no link left open before
   it swallows it.
   */
  lemma LinkMentionsItsMember(kind: Kind, id: string, title: string, before: string, rest: string)
    ensures InlineMentions(before + MentionMarkdown(ParticipantId(kind, id), title) + rest)
            == InlineMentions(before) + [ParticipantId(kind, id)] + InlineMentions(rest)
       <==> !Swallowed(before, ParticipantId(kind, id), title)
  {
    var p := ParticipantId(kind, id);
    var link := MentionMarkdown(p, title) + rest;
    IdsFitLinks(kind, id);
    LinkCloses(p, title, rest);
    assert link[0] == '[';
    hide ParticipantId; hide InlineMentions; hide OpenLink; hide InLink; hide RunLength; hide Label; hide MentionMarkdown;
    assert before + MentionMarkdown(p, title) + rest == before + link;
    if Swallowed(before, p, title) {
      SwallowedReads(kind, id, title, before, rest);
      assert (InlineMentions(before) + [p] + InlineMentions(rest))[|InlineMentions(before)|] == p;
    } else {
      MentionsJoin(before, link);
      LinkAlone(p, title, rest);
      assert InlineMentions(before) + ([p] + InlineMentions(rest)) == InlineMentions(before) + [p] + InlineMentions(rest);
    }
  }

  /** A link left open before a mention is read through to the mention's end, as somebody's id. */
  lemma OpenLinkTakesMention()
    ensures ParticipantId(Pet, "1") == "pet:1"
    ensures Swallowed("](participant:x", "pet:1", "Bob")
    ensures InlineMentions("](participant:x" + MentionMarkdown("pet:1", "Bob")) == ["x[@Bob](participant:pet:1"]
  {
    var open, id := "](participant:x", "x[@Bob](participant:pet:1";
    hide *;
    PetOne();
    assert open + MentionMarkdown("pet:1", "Bob") == Link() + id + ")" + "" by { BobMarkdown(); }
    BobInLink();
    TakesLink(id, "");
    NoClosingMark("");
    assert [id] + [] == [id];
    BobSwallowed();
  }

  lemma BobInLink()
    ensures "x[@Bob](participant:pet:1" != "" && forall i :: 0 <= i < |"x[@Bob](participant:pet:1"| ==> InLink("x[@Bob](participant:pet:1"[i])
  {
  }

  lemma BobMarkdown()
    ensures "](participant:x" + MentionMarkdown("pet:1", "Bob") == Link() + "x[@Bob](participant:pet:1" + ")" + ""
  {
    ShownBob();
    hide WithoutBrackets;
  }

  lemma BobSwallowed()
    ensures Swallowed("](participant:x", "pet:1", "Bob")
  {
    ShownBob();
    hide WithoutBrackets; hide RunLength;
    assert "](participant:x" == Link() + "x";
    assert "](participant:x"[|Link()|..] == "x";
  }

  lemma ShownBob()
    ensures WithoutBrackets("Bob") == "Bob" && RunLength("x") == 1 && RunLength("Bob") == 3
  {
  }

  lemma PetOne()
    ensures ParticipantId(Pet, "1") == "pet:1"
  {
    TwoPasses("1");
  }

  datatype Mention = Mention(kind: Kind, id: string, title: string, before: string)

  function Composed(mentions: seq<Mention>, last: string): string {
    if mentions == [] then last
    else mentions[0].before + MentionMarkdown(ParticipantId(mentions[0].kind, mentions[0].id), mentions[0].title) + Composed(mentions[1..], last)
  }

  /** The links that the text between the mentions already has, and theirs in between. */
  function Meant(mentions: seq<Mention>, last: string): seq<string> {
    if mentions == [] then InlineMentions(last)
    else InlineMentions(mentions[0].before) + [ParticipantId(mentions[0].kind, mentions[0].id)] + Meant(mentions[1..], last)
  }

  /** A whole message mentions exactly whom it was composed to mention, in order, if and only if no link left open swallows a mention. */
  lemma {:induction false} ComposedMentions(mentions: seq<Mention>, last: string)
    ensures InlineMentions(Composed(mentions, last)) == Meant(mentions, last)
       <==> forall k :: 0 <= k < |mentions| ==>
              !Swallowed(mentions[k].before, ParticipantId(mentions[k].kind, mentions[k].id), mentions[k].title)
  {
    hide MentionMarkdown; hide ParticipantId; hide Swallowed; hide InlineMentions;
    if mentions != [] {
      var m := mentions[0];
      var p, rest := ParticipantId(m.kind, m.id), Composed(mentions[1..], last);
      ComposedMentions(mentions[1..], last);
      LinkMentionsItsMember(m.kind, m.id, m.title, m.before, rest);
      assert forall k :: 0 < k < |mentions| ==> mentions[k] == mentions[1..][k - 1];
      if Swallowed(m.before, p, m.title) {
        SwallowedReads(m.kind, m.id, m.title, m.before, rest);
        assert Meant(mentions, last)[|InlineMentions(m.before)|] == p;
      } else {
        SameAfter(InlineMentions(m.before) + [p], InlineMentions(rest), Meant(mentions[1..], last));
      }
    }
  }

  lemma SameAfter<T>(a: seq<T>, b: seq<T>, c: seq<T>)
    ensures a + b == a + c <==> b == c
  {
    assert (a + b)[|a|..] == b && (a + c)[|a|..] == c;
  }
}
