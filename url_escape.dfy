/** The query-component escaping of Go's `net/url` (`QueryEscape` and
    `QueryUnescape`): percent-encoding as in section 2.1 of RFC 3986 with
    upper-case hex digits, the unreserved characters of section 2.3
    (`A-Z a-z 0-9 - _ . ~`) kept as they are, and a space written as `+`
    as in HTML form encoding. */
module UrlEscape {
  import opened GoText

  predicate IsUnreserved(c: byte) {
    ('A' <= c <= 'Z') || ('a' <= c <= 'z') || ('0' <= c <= '9') ||
    c == '-' || c == '_' || c == '.' || c == '~'
  }

  predicate IsHex(c: byte) {
    ('0' <= c <= '9') || ('a' <= c <= 'f') || ('A' <= c <= 'F')
  }

  /** A byte that an escaped query component may contain. */
  predicate IsEscapedByte(c: byte) {
    IsUnreserved(c) || c == '+' || c == '%'
  }

  function UpperHex(d: nat): (c: byte)
    requires d < 16
    ensures IsHex(c) && !('a' <= c <= 'f') && Unhex(c) == d
  {
    if d < 10 then ('0' as int + d) as char else ('A' as int + d - 10) as char
  }

  function Unhex(c: byte): (d: nat)
    requires IsHex(c)
    ensures d < 16
  {
    if '0' <= c <= '9' then c as int - '0' as int
    else if 'a' <= c <= 'f' then c as int - 'a' as int + 10
    else c as int - 'A' as int + 10
  }

  /** The escape of one byte. */
  function EscapeByte(c: byte): (r: Bytes)
    ensures IsUnreserved(c) ==> r == [c]
    ensures c == ' ' ==> r == "+"
    ensures !IsUnreserved(c) && c != ' ' ==>
      |r| == 3 && r[0] == '%' && IsHex(r[1]) && IsHex(r[2]) && Unhex(r[1]) * 16 + Unhex(r[2]) == c as int &&
      !('a' <= r[1] <= 'f') && !('a' <= r[2] <= 'f')
  {
    if IsUnreserved(c) then [c]
    else if c == ' ' then "+"
    else ['%', UpperHex(c as int / 16), UpperHex(c as int % 16)]
  }

  /** `url.QueryEscape`: every byte escaped in turn. */
  function QueryEscape(s: Bytes): (r: Bytes)
    ensures |r| >= |s|
    ensures forall i | 0 <= i < |r| :: IsEscapedByte(r[i]) || IsHex(r[i])
    ensures AllUnreserved(s) ==> r == s
    decreases |s|
  {
    if s == [] then [] else EscapeByte(s[0]) + QueryEscape(s[1..])
  }

  /** Escaping a string escapes each byte on its own, so the escape of a
      concatenation is the concatenation of the escapes. */
  lemma {:induction false} EscapeAppend(a: Bytes, b: Bytes)
    ensures QueryEscape(a + b) == QueryEscape(a) + QueryEscape(b)
    decreases |a|
  {
    if a != [] {
      var ab := a + b;
      assert ab[0] == a[0] && ab[1..] == a[1..] + b;
      EscapeAppend(a[1..], b);
      assert QueryEscape(ab) == EscapeByte(a[0]) + (QueryEscape(a[1..]) + QueryEscape(b));
      SeqAssoc3(EscapeByte(a[0]), QueryEscape(a[1..]), QueryEscape(b));
    } else {
      assert a + b == b;
    }
  }

  /** A one-byte string escapes to the escape of that byte: a space to
      `+`, anything else outside the unreserved set to `%` and two
      upper-case hex digits. */
  lemma EscapeSingle(c: byte)
    ensures QueryEscape([c]) == EscapeByte(c)
  {
    assert QueryEscape([c][1..]) == [];
  }

  predicate AllUnreserved(s: Bytes) {
    forall i | 0 <= i < |s| :: IsUnreserved(s[i])
  }

  /** `url.QueryUnescape`: `%XX` (either case of hex digit) becomes the byte
      XX, `+` becomes a space, everything else is copied; a `%` that is not
      followed by two hex digits is an error. */
  function QueryUnescape(s: Bytes): (r: Option<Bytes>)
    ensures r.Some? ==> |r.value| <= |s|
    decreases |s|
  {
    if s == [] then Some([])
    else if s[0] == '%' then
      if |s| < 3 || !IsHex(s[1]) || !IsHex(s[2]) then None
      else match QueryUnescape(s[3..])
        case None => None
        case Some(t) => Some([(Unhex(s[1]) * 16 + Unhex(s[2])) as char] + t)
    else
      match QueryUnescape(s[1..])
      case None => None
      case Some(t) => Some([if s[0] == '+' then ' ' else s[0]] + t)
  }

  /** Text without `%` and `+`, which unescaping copies unchanged. */
  predicate IsPlain(s: Bytes) {
    forall i | 0 <= i < |s| :: s[i] != '%' && s[i] != '+'
  }

  lemma {:induction false} UnescapeEscapeByte(c: byte, t: Bytes)
    ensures QueryUnescape(EscapeByte(c) + t) ==
      match QueryUnescape(t) case None => None case Some(u) => Some([c] + u)
  {
    var e := EscapeByte(c);
    if IsUnreserved(c) || c == ' ' {
      assert (e + t)[1..] == t;
    } else {
      assert (e + t)[3..] == t;
    }
  }

  /** Unescaping undoes escaping, for every byte string. */
  lemma {:induction false} EscapeRoundTrip(s: Bytes)
    ensures QueryUnescape(QueryEscape(s)) == Some(s)
    decreases |s|
  {
    if s != [] {
      EscapeRoundTrip(s[1..]);
      UnescapeEscapeByte(s[0], QueryEscape(s[1..]));
      assert [s[0]] + s[1..] == s;
    }
  }

  /** The outcome of unescaping `p` in front of text that unescaped to `r`. */
  function Prefixed(p: Bytes, r: Option<Bytes>): Option<Bytes> {
    match r
    case None => None
    case Some(u) => Some(p + u)
  }

  lemma UnescapePlainByte(c: byte, t: Bytes)
    requires c != '%' && c != '+'
    ensures QueryUnescape([c] + t) == Prefixed([c], QueryUnescape(t))
  {
    assert ([c] + t)[1..] == t;
  }

  /** Text that holds no `%` and no `+` passes through unescaping, so a
      whole query string can be unescaped at once. */
  lemma {:induction false} UnescapePlainPrefix(p: Bytes, t: Bytes)
    requires IsPlain(p)
    ensures QueryUnescape(p + t) == Prefixed(p, QueryUnescape(t))
    decreases |p|
  {
    if p == [] {
      assert p + t == t;
      if QueryUnescape(t).Some? {
        assert p + QueryUnescape(t).value == QueryUnescape(t).value;
      }
    } else {
      var q := p[1..];
      assert IsPlain(q) by {
        forall i | 0 <= i < |q| ensures q[i] != '%' && q[i] != '+' {
          assert q[i] == p[i + 1];
        }
      }
      assert p + t == [p[0]] + (q + t);
      UnescapePlainPrefix(q, t);
      UnescapePlainByte(p[0], q + t);
      if QueryUnescape(t).Some? {
        assert [p[0]] + (q + QueryUnescape(t).value) == p + QueryUnescape(t).value;
      }
    }
  }

  /** An escaped value never holds the bytes that delimit a query string. */
  lemma EscapedHasNoDelimiters(s: Bytes)
    ensures forall i | 0 <= i < |QueryEscape(s)| ::
      QueryEscape(s)[i] !in {'&', '=', '?', '#', ' '}
  {
  }

  /** The escape of "$ü!" (bytes 24 C3 BC 21). */
  lemma EscapeExample()
    ensures QueryEscape("$\U{C3}\U{BC}!") == "%24%C3%BC%21"
  {
  }
}
