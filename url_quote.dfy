/** Python's `urllib.parse.quote_plus(s)` with its defaults (`safe=''`, UTF-8): every UTF-8 byte
  * outside the unreserved set of section 2.3 of RFC 3986 is percent-encoded as in section 2.1
  * (upper-case hex), except the space, which becomes '+'. Also the inverse decoder, used to
  * state that the encoding loses nothing. */
module UrlQuote {
  import opened Wrappers
  import opened Text

  type Byte = x: int | 0 <= x < 256

  /** The UTF-8 encoding of one Unicode scalar value. */
  function Utf8(c: char): (bs: seq<Byte>)
    ensures 1 <= |bs| <= 4
    ensures (c as int < 0x80) == (|bs| == 1)
  {
    var cp := c as int;
    var q1 := cp / 64;
    var q2 := q1 / 64;
    if cp < 0x80 then [cp]
    else if cp < 0x800 then [0xC0 + q1, 0x80 + cp % 64]
    else if cp < 0x10000 then [0xE0 + q2, 0x80 + q1 % 64, 0x80 + cp % 64]
    else [0xF0 + q2 / 64, 0x80 + q2 % 64, 0x80 + q1 % 64, 0x80 + cp % 64]
  }

  function Utf8Encode(s: string): (bs: seq<Byte>)
    ensures |bs| >= |s|
  {
    if s == [] then [] else Utf8(s[0]) + Utf8Encode(s[1..])
  }

  /** The bytes `quote` never escapes: letters, digits and "_.-~". */
  predicate AlwaysSafe(b: Byte) {
    ('A' as int <= b <= 'Z' as int) || ('a' as int <= b <= 'z' as int)
    || ('0' as int <= b <= '9' as int)
    || b == '_' as int || b == '.' as int || b == '-' as int || b == '~' as int
  }

  function HexDigit(n: nat): char
    requires n < 16
  {
    "0123456789ABCDEF"[n]
  }

  function QuoteByte(b: Byte): (r: string)
    ensures 1 <= |r| <= 3
  {
    if AlwaysSafe(b) then [b as char]
    else if b == 0x20 then "+"
    else ['%', HexDigit(b / 16), HexDigit(b % 16)]
  }

  function QuoteBytes(bs: seq<Byte>): (r: string)
    ensures |r| >= |bs|
  {
    if bs == [] then "" else QuoteByte(bs[0]) + QuoteBytes(bs[1..])
  }

  /** `quote_plus(s)`. */
  function QuotePlus(s: string): string {
    QuoteBytes(Utf8Encode(s))
  }

  /** The characters `quote_plus` can produce. */
  predicate OutChar(ch: char) {
    ('A' <= ch <= 'Z') || ('a' <= ch <= 'z') || ('0' <= ch <= '9')
    || ch == '_' || ch == '.' || ch == '-' || ch == '~' || ch == '%' || ch == '+'
  }

  predicate Clean(t: string) {
    forall i :: 0 <= i < |t| ==> OutChar(t[i])
  }

  lemma QuoteByteClean(b: Byte)
    ensures Clean(QuoteByte(b))
  {
    if !AlwaysSafe(b) && b != 0x20 {
      var r := QuoteByte(b);
      assert r == ['%', HexDigit(b / 16), HexDigit(b % 16)];
      assert OutChar(r[1]) && OutChar(r[2]);
    }
  }

  lemma {:induction false} QuoteBytesClean(bs: seq<Byte>)
    ensures Clean(QuoteBytes(bs))
  {
    if bs != [] {
      QuoteBytesClean(bs[1..]);
      var h, t := QuoteByte(bs[0]), QuoteBytes(bs[1..]);
      QuoteByteClean(bs[0]);
      assert QuoteBytes(bs) == h + t;
      forall i | 0 <= i < |h + t| ensures OutChar((h + t)[i]) {
        if i >= |h| { assert (h + t)[i] == t[i - |h|]; }
      }
    }
  }

  /** The escaped text never contains the delimiters of a URL's userinfo or path. */
  lemma QuotePlusHasNoDelimiters(s: string)
    ensures Clean(QuotePlus(s))
    ensures forall i :: 0 <= i < |QuotePlus(s)| ==> QuotePlus(s)[i] !in {':', '@', '/', '?', '&', '#'}
  {
    QuoteBytesClean(Utf8Encode(s));
  }

  /** `quote_plus(s)` is empty exactly when `s` is. */
  lemma QuotePlusEmptyIff(s: string)
    ensures (QuotePlus(s) == "") <==> (s == "")
  {
  }

  // ---- the inverse ----

  function PrependByte(b: Byte, r: Option<seq<Byte>>): Option<seq<Byte>> {
    if r.Some? then Some([b] + r.value) else None
  }

  predicate IsHex(ch: char) { ('0' <= ch <= '9') || ('A' <= ch <= 'F') || ('a' <= ch <= 'f') }

  function HexValue(ch: char): (n: nat)
    requires IsHex(ch)
    ensures n < 16
  {
    if '0' <= ch <= '9' then ch as int - '0' as int
    else if 'A' <= ch <= 'F' then ch as int - 'A' as int + 10
    else ch as int - 'a' as int + 10
  }

  /** The model's strict inverse of `QuotePlus`, decoding '+' to a space and "%XX" to its byte:
    * None for a malformed escape, where Python's `unquote_plus` keeps the '%' and what follows
    * it as they are. Only the round trip through `QuotePlus` is modelled. */
  function UnquoteBytes(t: string): Option<seq<Byte>> {
    if t == [] then Some([])
    else if t[0] == '+' then PrependByte(0x20, UnquoteBytes(t[1..]))
    else if t[0] == '%' then
      if |t| >= 3 && IsHex(t[1]) && IsHex(t[2])
      then PrependByte(HexValue(t[1]) * 16 + HexValue(t[2]), UnquoteBytes(t[3..]))
      else None
    else
      var rest := UnquoteBytes(t[1..]);
      if rest.Some? then Some(Utf8(t[0]) + rest.value) else None
  }

  predicate IsCont(b: Byte) { 0x80 <= b < 0xC0 }

  function PrependChar(c: char, r: Option<string>): Option<string> {
    if r.Some? then Some([c] + r.value) else None
  }

  /** A UTF-8 decoder; None for an ill-formed sequence. */
  function Utf8Decode(bs: seq<Byte>): Option<string>
    decreases |bs|
  {
    if bs == [] then Some("")
    else if bs[0] < 0x80 then PrependChar(bs[0] as char, Utf8Decode(bs[1..]))
    else if 0xC0 <= bs[0] < 0xE0 && |bs| >= 2 && IsCont(bs[1]) then
      PrependChar(((bs[0] as int - 0xC0) * 64 + (bs[1] as int - 0x80)) as char, Utf8Decode(bs[2..]))
    else if 0xE0 <= bs[0] < 0xF0 && |bs| >= 3 && IsCont(bs[1]) && IsCont(bs[2]) then
      var cp := (bs[0] as int - 0xE0) * 4096 + (bs[1] as int - 0x80) * 64 + (bs[2] as int - 0x80);
      if 0xD800 <= cp < 0xE000 then None
      else PrependChar(cp as char, Utf8Decode(bs[3..]))
    else if 0xF0 <= bs[0] < 0xF8 && |bs| >= 4 && IsCont(bs[1]) && IsCont(bs[2]) && IsCont(bs[3]) then
      var cp := (bs[0] as int - 0xF0) * 262144 + (bs[1] as int - 0x80) * 4096 + (bs[2] as int - 0x80) * 64 + (bs[3] as int - 0x80);
      if cp >= 0x110000 || 0xD800 <= cp < 0xE000 then None
      else PrependChar(cp as char, Utf8Decode(bs[4..]))
    else None
  }

  /** `unquote_plus`. */
  function UnquotePlus(t: string): Option<string> {
    var bs := UnquoteBytes(t);
    if bs.Some? then Utf8Decode(bs.value) else None
  }

  lemma Utf8DecodeCons(c: char, rest: seq<Byte>)
    ensures Utf8Decode(Utf8(c) + rest) == PrependChar(c, Utf8Decode(rest))
  {
    var cp := c as int;
    if cp < 0x80 {
      assert (Utf8(c) + rest)[1..] == rest;
    } else if cp < 0x800 {
      Utf8DecodeCons2(c, rest);
    } else if cp < 0x10000 {
      Utf8DecodeCons3(c, rest);
    } else {
      Utf8DecodeCons4(c, rest);
    }
  }

  lemma Utf8DecodeCons2(c: char, rest: seq<Byte>)
    requires 0x80 <= c as int < 0x800
    ensures Utf8Decode(Utf8(c) + rest) == PrependChar(c, Utf8Decode(rest))
  {
    var cp := c as int;
    var bs := Utf8(c) + rest;
    assert bs[0] == 0xC0 + cp / 64 && bs[1] == 0x80 + cp % 64;
    assert bs[2..] == rest;
    assert (bs[0] as int - 0xC0) * 64 + (bs[1] as int - 0x80) == cp;
  }

  lemma Utf8DecodeCons3(c: char, rest: seq<Byte>)
    requires 0x800 <= c as int < 0x10000
    ensures Utf8Decode(Utf8(c) + rest) == PrependChar(c, Utf8Decode(rest))
  {
    var cp := c as int;
    var q1 := cp / 64;
    var q2 := q1 / 64;
    var bs := Utf8(c) + rest;
    assert bs[0] == 0xE0 + q2 && bs[1] == 0x80 + q1 % 64 && bs[2] == 0x80 + cp % 64;
    assert bs[3..] == rest;
    assert q1 == q2 * 64 + q1 % 64;
    assert cp == q1 * 64 + cp % 64;
    assert (bs[0] as int - 0xE0) * 4096 + (bs[1] as int - 0x80) * 64 + (bs[2] as int - 0x80) == cp;
  }

  lemma Utf8DecodeCons4(c: char, rest: seq<Byte>)
    requires 0x10000 <= c as int
    ensures Utf8Decode(Utf8(c) + rest) == PrependChar(c, Utf8Decode(rest))
  {
    var cp := c as int;
    var q1 := cp / 64;
    var q2 := q1 / 64;
    var q3 := q2 / 64;
    var bs := Utf8(c) + rest;
    assert bs[0] == 0xF0 + q3 && bs[1] == 0x80 + q2 % 64 && bs[2] == 0x80 + q1 % 64 && bs[3] == 0x80 + cp % 64;
    assert bs[4..] == rest;
    assert q2 == q3 * 64 + q2 % 64;
    assert q1 == q2 * 64 + q1 % 64;
    assert cp == q1 * 64 + cp % 64;
    assert (bs[0] as int - 0xF0) * 262144 + (bs[1] as int - 0x80) * 4096 + (bs[2] as int - 0x80) * 64 + (bs[3] as int - 0x80) == cp;
  }

  lemma {:induction false} Utf8RoundTrip(s: string)
    ensures Utf8Decode(Utf8Encode(s)) == Some(s)
  {
    if s != [] {
      Utf8RoundTrip(s[1..]);
      Utf8DecodeCons(s[0], Utf8Encode(s[1..]));
      assert [s[0]] + s[1..] == s;
    }
  }

  lemma UnquoteQuoteByte(b: Byte, rest: string)
    ensures UnquoteBytes(QuoteByte(b) + rest) == PrependByte(b, UnquoteBytes(rest))
  {
    var t := QuoteByte(b) + rest;
    if AlwaysSafe(b) {
      assert t[1..] == rest;
    } else if b == 0x20 {
      assert t[1..] == rest;
    } else {
      UnquoteEscape(b, rest);
    }
  }

  lemma HexDigitValue(n: nat)
    requires n < 16
    ensures IsHex(HexDigit(n)) && HexValue(HexDigit(n)) == n
  {
  }

  lemma UnquoteEscape(b: Byte, rest: string)
    ensures UnquoteBytes(['%', HexDigit(b / 16), HexDigit(b % 16)] + rest) == PrependByte(b, UnquoteBytes(rest))
  {
    var t := ['%', HexDigit(b / 16), HexDigit(b % 16)] + rest;
    HexDigitValue(b / 16);
    HexDigitValue(b % 16);
    assert t[1] == HexDigit(b / 16) && t[2] == HexDigit(b % 16);
    assert t[3..] == rest;
    assert HexValue(t[1]) * 16 + HexValue(t[2]) == b;
  }

  lemma {:induction false} QuoteBytesRoundTrip(bs: seq<Byte>)
    ensures UnquoteBytes(QuoteBytes(bs)) == Some(bs)
  {
    if bs != [] {
      QuoteBytesRoundTrip(bs[1..]);
      UnquoteQuoteByte(bs[0], QuoteBytes(bs[1..]));
      assert [bs[0]] + bs[1..] == bs;
    }
  }

  /** Decoding what `quote_plus` produced gives the original text back: the escaping is injective. */
  lemma QuotePlusRoundTrip(s: string)
    ensures UnquotePlus(QuotePlus(s)) == Some(s)
  {
    QuoteBytesRoundTrip(Utf8Encode(s));
    Utf8RoundTrip(s);
  }

  // ---- the userinfo of section 3.2.1 of RFC 3986 ----

  /** The user name and password of an authority `user:password@...`, decoded; None when the
    * '@' or the ':' is missing or an escape is malformed. */
  function Credentials(authority: string): Option<(string, string)> {
    var at := IndexOf(authority, '@');
    if at == |authority| then None
    else
      var userinfo := authority[..at];
      var colon := IndexOf(userinfo, ':');
      if colon == |userinfo| then None
      else
        var user := UnquotePlus(userinfo[..colon]);
        var pass := UnquotePlus(userinfo[colon + 1..]);
        if user.Some? && pass.Some? then Some((user.value, pass.value)) else None
  }

  /** An authority `u:p@rest` whose `u` and `p` hold neither ':' nor '@' splits at its first '@'
    * and the first ':' before it, back into `u` and `p`. */
  lemma CredentialsSplit(u: string, p: string, rest: string)
    requires forall k :: 0 <= k < |u| ==> u[k] != ':' && u[k] != '@'
    requires forall k :: 0 <= k < |p| ==> p[k] != ':' && p[k] != '@'
    ensures Credentials(u + [':'] + p + ['@'] + rest)
      == if UnquotePlus(u).Some? && UnquotePlus(p).Some? then Some((UnquotePlus(u).value, UnquotePlus(p).value))
         else None
  {
    var up := u + [':'] + p;
    forall k | 0 <= k < |up| ensures up[k] != '@' {
      if k > |u| { assert up[k] == p[k - |u| - 1]; }
    }
    IndexOfSplit(up, '@', rest);
    assert (up + ['@'] + rest)[..|up|] == up;
    IndexOfSplit(u, ':', p);
    assert up[..|u|] == u && up[|u| + 1..] == p;
  }
}
