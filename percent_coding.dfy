/**
 * Percent-encoding (section 2.1 of RFC 3986) as the browser functions
 * `decodeURIComponent` and `encodeURIComponent` apply it.
 *
 * Decoding is modelled for escapes of ASCII octets; an escape of an octet at or
 * above 0x80 (the start of a UTF-8 multi-octet sequence) is treated as undecodable.
 * Encoding is modelled for every character: its UTF-8 octets are escaped unless
 * the character is in the unreserved set of `encodeURIComponent`.
 */
module PercentCoding {
  import opened Wrappers

  /** The value of one hexadecimal digit, either case. */
  function HexValue(c: char): (r: Option<nat>)
    ensures r.Some? ==> r.value < 16
  {
    if '0' <= c <= '9' then Some(c as int - '0' as int)
    else if 'a' <= c <= 'f' then Some(c as int - 'a' as int + 10)
    else if 'A' <= c <= 'F' then Some(c as int - 'A' as int + 10)
    else None
  }

  /** The upper-case hexadecimal digit for `n` (the case `encodeURIComponent` emits). */
  function HexDigit(n: nat): (c: char)
    requires n < 16
    ensures HexValue(c) == Some(n)
  {
    if n < 10 then ('0' as int + n) as char else ('A' as int + n - 10) as char
  }

  /**
   * `decodeURIComponent(s)`: every `%XY` becomes the character with code 0xXY,
   * everything else is copied. `None` is the URIError: a `%` not followed by two
   * hexadecimal digits, or an escaped octet of 0x80 or more.
   */
  function Decode(s: string): (r: Option<string>)
    ensures '%' !in s ==> r == Some(s)
    ensures r.Some? ==> |r.value| <= |s|
    ensures r.Some? ==> (r.value == [] <==> s == [])
    decreases |s|
  {
    if s == [] then Some([])
    else if s[0] != '%' then
      assert s == [s[0]] + s[1..];
      match Decode(s[1..])
      case None => None
      case Some(t) => Some([s[0]] + t)
    else if |s| < 3 then None
    else
      match (HexValue(s[1]), HexValue(s[2]))
      case (Some(h), Some(l)) =>
        if 16 * h + l >= 0x80 then None
        else (
          match Decode(s[3..])
          case None => None
          case Some(t) => Some([(16 * h + l) as char] + t))
      case _ => None
  }

  /** A decoding result with `p` in front, when there is one. */
  function Prepend(p: string, r: Option<string>): (o: Option<string>)
    ensures o.Some? <==> r.Some?
    ensures o.Some? ==> o.value == p + r.value
  {
    match r
    case None => None
    case Some(u) => Some(p + u)
  }

  /** A character other than `%` is copied, and the rest decides success. */
  lemma DecodeCopies(c: char, t: string)
    requires c != '%'
    ensures Decode([c] + t) == Prepend([c], Decode(t))
  {
    assert ([c] + t)[1..] == t;
  }

  lemma PrependTwice(c: char, p: string, r: Option<string>)
    ensures Prepend([c], Prepend(p, r)) == Prepend([c] + p, r)
  {
    if r.Some? {
      assert [c] + (p + r.value) == ([c] + p) + r.value;
    }
  }

  /** A stretch without `%` is copied unchanged in front of whatever the rest decodes to. */
  lemma {:induction false} DecodePlainPrefix(p: string, t: string)
    requires '%' !in p
    ensures Decode(p + t) == Prepend(p, Decode(t))
  {
    if p == [] {
      assert p + t == t;
      if Decode(t).Some? { assert p + Decode(t).value == Decode(t).value; }
    } else {
      var c, q := p[0], p[1..];
      assert p == [c] + q;
      assert p + t == [c] + (q + t);
      DecodeCopies(c, q + t);
      DecodePlainPrefix(q, t);
      PrependTwice(c, q, Decode(t));
    }
  }

  /** A `%` followed by fewer than two characters is malformed. */
  lemma DecodeTruncatedEscape(t: string)
    requires |t| < 2
    ensures Decode(['%'] + t) == None
  {
  }

  /** A `%` whose next two characters are not both hexadecimal digits is malformed, whatever follows. */
  lemma DecodeNonHexEscape(h: char, l: char, t: string)
    requires HexValue(h).None? || HexValue(l).None?
    ensures Decode(['%', h, l] + t) == None
  {
    var s := ['%', h, l] + t;
    assert s[0] == '%' && s[1] == h && s[2] == l;
  }

  /**
   * A well-formed escape `%hl` decodes to the character with code 16*h + l in
   * front of the decoded rest; an escaped octet of 0x80 or more fails.
   */
  lemma DecodeEscape(h: char, l: char, t: string)
    requires HexValue(h).Some? && HexValue(l).Some?
    ensures var b := 16 * HexValue(h).value + HexValue(l).value;
            Decode(['%', h, l] + t) ==
              if b >= 0x80 then None else Prepend([b as char], Decode(t))
  {
    var s := ['%', h, l] + t;
    assert s[0] == '%' && s[1] == h && s[2] == l && s[3..] == t;
  }

  /** `%2F` between two plain stretches decodes to `/`. */
  lemma DecodeEscapedSlash(dir: string, file: string)
    requires '%' !in dir && '%' !in file
    ensures Decode(dir + "%2F" + file) == Some(dir + "/" + file)
  {
    assert dir + "%2F" + file == dir + (['%', '2', 'F'] + file);
    DecodePlainPrefix(dir, ['%', '2', 'F'] + file);
    DecodeEscape('2', 'F', file);
    assert dir + ([0x2F as char] + file) == dir + "/" + file;
  }

  /** The characters `encodeURIComponent` leaves as they are. */
  predicate IsUnreserved(c: char) {
    ('A' <= c <= 'Z') || ('a' <= c <= 'z') || ('0' <= c <= '9') ||
    c == '-' || c == '_' || c == '.' || c == '!' || c == '~' || c == '*' ||
    c == '\'' || c == '(' || c == ')'
  }

  /** What may appear in an encoded component: unreserved characters, `%` and hexadecimal digits. */
  predicate IsEncodedChar(c: char) {
    IsUnreserved(c) || c == '%'
  }

  /** The UTF-8 octets of one character (a Unicode scalar value). */
  function Utf8(c: char): (r: seq<nat>)
    ensures 1 <= |r| <= 4
    ensures forall i :: 0 <= i < |r| ==> r[i] < 256
    ensures c as int < 0x80 ==> r == [c as int]
  {
    var n := c as int;
    if n < 0x80 then [n]
    else if n < 0x800 then [0xC0 + n / 64, 0x80 + n % 64]
    else if n < 0x10000 then [0xE0 + n / 4096, 0x80 + (n / 64) % 64, 0x80 + n % 64]
    else [0xF0 + n / 262144, 0x80 + (n / 4096) % 64, 0x80 + (n / 64) % 64, 0x80 + n % 64]
  }

  /** `%XY` for one octet. */
  function Escape(b: nat): (r: string)
    requires b < 256
    ensures |r| == 3 && r[0] == '%'
    ensures HexValue(r[1]).Some? && HexValue(r[2]).Some?
    ensures 16 * HexValue(r[1]).value + HexValue(r[2]).value == b
  {
    ['%', HexDigit(b / 16), HexDigit(b % 16)]
  }

  function EscapeAll(bs: seq<nat>): (r: string)
    requires forall i :: 0 <= i < |bs| ==> bs[i] < 256
    ensures |r| == 3 * |bs|
  {
    if bs == [] then [] else Escape(bs[0]) + EscapeAll(bs[1..])
  }

  function EncodeChar(c: char): (r: string)
  {
    if IsUnreserved(c) then [c] else EscapeAll(Utf8(c))
  }

  /** `encodeURIComponent(s)`. */
  function Encode(s: string): (r: string)
  {
    if s == [] then [] else EncodeChar(s[0]) + Encode(s[1..])
  }

  lemma {:induction false} EscapeAllIsEncoded(bs: seq<nat>)
    requires forall i :: 0 <= i < |bs| ==> bs[i] < 256
    ensures forall i :: 0 <= i < |EscapeAll(bs)| ==> IsEncodedChar(EscapeAll(bs)[i])
  {
    if bs != [] {
      EscapeAllIsEncoded(bs[1..]);
      var e := Escape(bs[0]);
      assert IsEncodedChar(e[1]) && IsEncodedChar(e[2]);
    }
  }

  /**
   * An encoded component holds only unreserved characters and escapes, so it
   * cannot contain `&`, `#`, `=`, `?`, `/` or a space: it stays one query value.
   */
  lemma {:induction false} EncodeIsUrlSafe(s: string)
    ensures forall i :: 0 <= i < |Encode(s)| ==> IsEncodedChar(Encode(s)[i])
  {
    if s != [] {
      EncodeIsUrlSafe(s[1..]);
      if !IsUnreserved(s[0]) {
        EscapeAllIsEncoded(Utf8(s[0]));
      }
    }
  }

  /** Decoding one encoded character in front of the rest. */
  lemma DecodeEncodedChar(c: char, rest: string)
    requires c as int < 0x80
    ensures Decode(EncodeChar(c) + rest) ==
              match Decode(rest)
              case None => None
              case Some(t) => Some([c] + t)
  {
    var e := EncodeChar(c);
    if IsUnreserved(c) {
      assert (e + rest)[0] == c && (e + rest)[1..] == rest;
    } else {
      assert e == Escape(c as int);
      assert (e + rest)[3..] == rest;
      assert (e + rest)[..3] == e;
    }
  }

  /** Round trip: decoding the encoding of an ASCII string gives the string back. */
  lemma {:induction false} DecodeEncode(s: string)
    requires forall i :: 0 <= i < |s| ==> s[i] as int < 0x80
    ensures Decode(Encode(s)) == Some(s)
  {
    if s != [] {
      DecodeEncode(s[1..]);
      DecodeEncodedChar(s[0], Encode(s[1..]));
      assert [s[0]] + s[1..] == s;
    }
  }
}
