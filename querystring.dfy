/**
  Node's `querystring.stringify` with its default separators, as the tracker
  uses it to serialise an option object: `key=value` fields joined by `&`,
  every key and value percent-encoded by `querystring.escape`, and the inverse
  decoding that the tracking endpoint applies.
 */
module QueryString {
  import opened Wrappers
  import opened JsValues
  import Decimal
  import Utf8

  /** One own property of an option object: its key and its value. */
  type Entry = (string, Value)

  /** The characters `querystring.escape` leaves as they are (the same set as `encodeURIComponent`). */
  predicate Unreserved(c: char)
  {
    || ('A' <= c <= 'Z') || ('a' <= c <= 'z') || ('0' <= c <= '9')
    || c == '-' || c == '_' || c == '.' || c == '!' || c == '~' || c == '*'
    || c == '\'' || c == '(' || c == ')'
  }

  /** The characters an escaped string can hold. */
  predicate IsEscaped(c: char)
  {
    Unreserved(c) || c == '%'
  }

  /** The characters a serialised query can hold. */
  predicate IsQueryChar(c: char)
  {
    IsEscaped(c) || c == '=' || c == '&'
  }

  predicate IsHex(c: char)
  {
    ('0' <= c <= '9') || ('A' <= c <= 'F') || ('a' <= c <= 'f')
  }

  function HexValue(c: char): (d: nat)
    requires IsHex(c)
    ensures d < 16
  {
    if c <= '9' then c as int - '0' as int
    else if c <= 'F' then c as int - 'A' as int + 10
    else c as int - 'a' as int + 10
  }

  predicate IsUpperHex(c: char)
  {
    ('0' <= c <= '9') || ('A' <= c <= 'F')
  }

  /** An upper-case hexadecimal digit, as in Node's `hexTable`. */
  function HexDigit(d: nat): (c: char)
    requires d < 16
    ensures IsUpperHex(c) && IsHex(c) && Unreserved(c) && HexValue(c) == d
  {
    if d < 10 then ('0' as int + d) as char else ('A' as int + d - 10) as char
  }

  /** `%XX` for every byte. */
  function PercentEncode(bytes: seq<Utf8.Byte>): (r: string)
    ensures |r| == 3 * |bytes|
  {
    if bytes == [] then []
    else ['%', HexDigit(bytes[0] / 16), HexDigit(bytes[0] % 16)] + PercentEncode(bytes[1..])
  }

  function EscapeChar(c: char): string
  {
    if Unreserved(c) then [c] else PercentEncode(Utf8.EncodeChar(c))
  }

  /**
    `querystring.escape(s)`: unreserved characters are kept, every other
    character becomes the `%XX` codes of its UTF-8 bytes.
   */
  function Escape(s: string): (r: string)
    ensures |r| >= |s|
  {
    if s == [] then [] else EscapeChar(s[0]) + Escape(s[1..])
  }

  /** `stringifyPrimitive`: strings as they are, numbers in decimal, booleans by name, anything else empty. */
  function Primitive(v: Value): string
  {
    match v
    case Str(s) => s
    case Num(n) => Decimal.IntToString(n)
    case Bool(b) => if b then "true" else "false"
    case _ => ""
  }

  function Field(e: Entry): string
  {
    Escape(e.0) + "=" + Escape(Primitive(e.1))
  }

  /**
    `querystring.stringify(options)`: one `key=value` field per entry, in the
    object's key order, joined by `&`.
   */
  function Stringify(entries: seq<Entry>): (r: string)
    ensures (r == []) == (entries == [])
  {
    if entries == [] then []
    else if |entries| == 1 then Field(entries[0])
    else Field(entries[0]) + "&" + Stringify(entries[1..])
  }

  /**
    The percent-encoding of a byte sequence is a run of `%XX` triples: every
    third character, from the first on, is `%`, and the two after it are
    upper-case hexadecimal digits.
   */
  lemma {:induction false} PercentEncodeChars(bytes: seq<Utf8.Byte>)
    ensures forall i :: 0 <= i < |PercentEncode(bytes)| ==>
      (i % 3 == 0 ==> PercentEncode(bytes)[i] == '%') && (i % 3 != 0 ==> IsUpperHex(PercentEncode(bytes)[i]))
    ensures forall i :: 0 <= i < |PercentEncode(bytes)| ==> IsEscaped(PercentEncode(bytes)[i])
  {
    if bytes != [] {
      PercentEncodeChars(bytes[1..]);
      var head := ['%', HexDigit(bytes[0] / 16), HexDigit(bytes[0] % 16)];
      var r := PercentEncode(bytes);
      assert r == head + PercentEncode(bytes[1..]);
      forall i | 0 <= i < |r|
        ensures (i % 3 == 0 ==> r[i] == '%') && (i % 3 != 0 ==> IsUpperHex(r[i])) && IsEscaped(r[i])
      {
        if i >= 3 {
          assert r[i] == PercentEncode(bytes[1..])[i - 3];
          assert (i - 3) % 3 == i % 3;
        }
      }
    }
  }

  /** An escaped string holds only unreserved characters and `%`: no `=`, `&`, quote or backslash. */
  lemma {:induction false} EscapeChars(s: string)
    ensures forall i :: 0 <= i < |Escape(s)| ==> IsEscaped(Escape(s)[i])
  {
    if s != [] {
      EscapeChars(s[1..]);
      var head := EscapeChar(s[0]);
      if !Unreserved(s[0]) {
        PercentEncodeChars(Utf8.EncodeChar(s[0]));
      }
      var r := Escape(s);
      forall i | 0 <= i < |r| ensures IsEscaped(r[i]) {
        if i >= |head| {
          assert r[i] == Escape(s[1..])[i - |head|];
        } else {
          assert r[i] == head[i];
        }
      }
    }
  }

  /** Every `%` of an escaped string opens a `%XX` escape: two upper-case hex digits follow it. */
  lemma {:induction false} EscapePercentTriples(s: string)
    ensures forall i :: 0 <= i < |Escape(s)| && Escape(s)[i] == '%' ==>
      i + 2 < |Escape(s)| && IsUpperHex(Escape(s)[i + 1]) && IsUpperHex(Escape(s)[i + 2])
  {
    if s != [] {
      EscapePercentTriples(s[1..]);
      var head := EscapeChar(s[0]);
      var tail := Escape(s[1..]);
      var r := Escape(s);
      assert r == head + tail;
      if !Unreserved(s[0]) {
        PercentEncodeChars(Utf8.EncodeChar(s[0]));
      }
      forall i | 0 <= i < |r| && r[i] == '%'
        ensures i + 2 < |r| && IsUpperHex(r[i + 1]) && IsUpperHex(r[i + 2])
      {
        if i >= |head| {
          assert tail[i - |head|] == '%';
        } else {
          assert head[i] == '%';
          assert !Unreserved(s[0]);
          assert i % 3 == 0;
          assert (i + 1) % 3 != 0 && (i + 2) % 3 != 0;
          assert i + 2 < |head|;
          assert r[i + 1] == head[i + 1] && r[i + 2] == head[i + 2];
        }
      }
    }
  }

  lemma FieldChars(e: Entry)
    ensures forall i :: 0 <= i < |Field(e)| ==> IsQueryChar(Field(e)[i]) && Field(e)[i] != '&'
  {
    var k, v := Escape(e.0), Escape(Primitive(e.1));
    EscapeChars(e.0);
    EscapeChars(Primitive(e.1));
    var f := Field(e);
    forall i | 0 <= i < |f| ensures IsQueryChar(f[i]) && f[i] != '&' {
      if i < |k| {
        assert f[i] == k[i];
      } else if i > |k| {
        assert f[i] == v[i - |k| - 1];
      }
    }
  }

  /**
    A serialised query holds only unreserved characters, `%`, `=` and `&`: it
    is ASCII and holds no quote or backslash.
   */
  lemma {:induction false} StringifyChars(entries: seq<Entry>)
    ensures forall i :: 0 <= i < |Stringify(entries)| ==> IsQueryChar(Stringify(entries)[i])
  {
    if entries != [] {
      FieldChars(entries[0]);
      if |entries| > 1 {
        StringifyChars(entries[1..]);
        var f := Field(entries[0]);
        var r := Stringify(entries);
        forall i | 0 <= i < |r| ensures IsQueryChar(r[i]) {
          if i < |f| {
            assert r[i] == f[i];
          } else if i > |f| {
            assert r[i] == Stringify(entries[1..])[i - |f| - 1];
          }
        }
      }
    }
  }

  /** Escaping works character by character, so it distributes over concatenation. */
  lemma {:induction false} EscapeAppend(a: string, b: string)
    ensures Escape(a + b) == Escape(a) + Escape(b)
  {
    if a != [] {
      assert (a + b)[1..] == a[1..] + b;
      EscapeAppend(a[1..], b);
      Regroup3(EscapeChar(a[0]), Escape(a[1..]), Escape(b));
    } else {
      assert a + b == b;
    }
  }

  lemma Regroup3(x: string, y: string, z: string)
    ensures x + (y + z) == (x + y) + z
  {
  }

  /** A string of unreserved characters is its own escape. */
  lemma {:induction false} EscapeUnreserved(s: string)
    requires forall i :: 0 <= i < |s| ==> Unreserved(s[i])
    ensures Escape(s) == s
  {
    if s != [] {
      EscapeUnreserved(s[1..]);
      assert [s[0]] + s[1..] == s;
    }
  }

  /** The two escapes the test suite shows: `:` as `%3A` and `/` as `%2F`. */
  lemma EscapeColonSlash()
    ensures Escape(":") == "%3A"
    ensures Escape("/") == "%2F"
  {
    assert Utf8.EncodeChar(':') == [0x3A];
    assert Utf8.EncodeChar('/') == [0x2F];
    assert EscapeChar(':') == PercentEncode([0x3A]);
    assert EscapeChar('/') == PercentEncode([0x2F]);
  }

  /** The parameter names and plain words of the test suite escape to themselves. */
  lemma EscapeWord(w: string)
    requires w == "url" || w == "idsite" || w == "rec" || w == "1" || w == "http" || w == "mywebsite.com"
    ensures Escape(w) == w
  {
    assert forall i :: 0 <= i < |w| ==> Unreserved(w[i]);
    EscapeUnreserved(w);
  }

  /** The escape of the page URL of the test suite. */
  lemma EscapeTestPage(page: string)
    requires page == "http://mywebsite.com/"
    ensures Escape(page) == "http%3A%2F%2Fmywebsite.com%2F"
  {
    var scheme, host := "http", "mywebsite.com";
    TestPagePieces(page, scheme, host);
    EscapeAppend(scheme + ":" + "/" + "/" + host, "/");
    EscapeAppend(scheme + ":" + "/" + "/", host);
    EscapeAppend(scheme + ":" + "/", "/");
    EscapeAppend(scheme + ":", "/");
    EscapeAppend(scheme, ":");
    EscapeWord(scheme);
    EscapeWord(host);
    EscapeColonSlash();
    TestPageEscaped(scheme, host);
  }

  lemma TestPagePieces(page: string, scheme: string, host: string)
    requires page == "http://mywebsite.com/" && scheme == "http" && host == "mywebsite.com"
    ensures page == scheme + ":" + "/" + "/" + host + "/"
  {
  }

  lemma TestPageEscaped(scheme: string, host: string)
    requires scheme == "http" && host == "mywebsite.com"
    ensures scheme + "%3A" + "%2F" + "%2F" + host + "%2F" == "http%3A%2F%2Fmywebsite.com%2F"
  {
  }

  // ---------------------------------------------------------------------
  // The decoding the tracking endpoint applies
  // ---------------------------------------------------------------------

  /** Percent-decoding to bytes: `%XX` gives one byte, an ASCII character gives its own code. */
  function UnescapeBytes(t: string): Option<seq<Utf8.Byte>>
    decreases |t|
  {
    if t == [] then Some([])
    else if t[0] == '%' then
      if |t| >= 3 && IsHex(t[1]) && IsHex(t[2]) then
        match UnescapeBytes(t[3..])
        case None => None
        case Some(rest) => Some([HexValue(t[1]) * 16 + HexValue(t[2])] + rest)
      else None
    else if t[0] as int < 0x80 then
      match UnescapeBytes(t[1..])
      case None => None
      case Some(rest) => Some([t[0] as int] + rest)
    else None
  }

  /** Percent-decoding followed by UTF-8 decoding. */
  function Unescape(t: string): Option<string>
  {
    match UnescapeBytes(t)
    case None => None
    case Some(b) => Utf8.Decode(b)
  }

  /** One `%XX` triple decodes to the byte it encodes. */
  lemma UnescapeTriple(b: Utf8.Byte, tail: string)
    ensures UnescapeBytes(['%', HexDigit(b / 16), HexDigit(b % 16)] + tail) ==
      match UnescapeBytes(tail)
      case None => None
      case Some(r) => Some([b] + r)
  {
    var t := ['%', HexDigit(b / 16), HexDigit(b % 16)] + tail;
    assert t[3..] == tail;
  }

  lemma {:induction false} UnescapePercentEncode(bytes: seq<Utf8.Byte>, rest: string)
    ensures UnescapeBytes(PercentEncode(bytes) + rest) ==
      match UnescapeBytes(rest)
      case None => None
      case Some(r) => Some(bytes + r)
  {
    if bytes == [] {
      assert PercentEncode(bytes) + rest == rest;
      match UnescapeBytes(rest)
      case None =>
      case Some(r) => assert bytes + r == r;
    } else {
      var b := bytes[0];
      var head := ['%', HexDigit(b / 16), HexDigit(b % 16)];
      var tail := PercentEncode(bytes[1..]) + rest;
      assert PercentEncode(bytes) + rest == head + tail;
      UnescapePercentEncode(bytes[1..], rest);
      UnescapeTriple(b, tail);
      match UnescapeBytes(rest)
      case None =>
      case Some(r) =>
        Regroup(bytes, r);
    }
  }

  lemma Regroup<T>(xs: seq<T>, ys: seq<T>)
    requires xs != []
    ensures [xs[0]] + (xs[1..] + ys) == xs + ys
  {
  }

  /** Percent-decoding an escaped string gives the UTF-8 bytes of the original. */
  lemma {:induction false} UnescapeBytesOfEscape(s: string)
    ensures UnescapeBytes(Escape(s)) == Some(Utf8.Encode(s))
  {
    if s != [] {
      var c := s[0];
      UnescapeBytesOfEscape(s[1..]);
      if Unreserved(c) {
        var t := Escape(s);
        assert t[1..] == Escape(s[1..]);
      } else {
        UnescapePercentEncode(Utf8.EncodeChar(c), Escape(s[1..]));
      }
    }
  }

  /** `Escape` loses nothing: the endpoint recovers every key and value exactly. */
  lemma EscapeRoundTrip(s: string)
    ensures Unescape(Escape(s)) == Some(s)
  {
    UnescapeBytesOfEscape(s);
    Utf8.DecodeEncode(s);
  }

  /** Splits `s` at every occurrence of `sep`. */
  function Split(s: string, sep: char): (r: seq<string>)
    ensures |r| >= 1
    decreases |s|
  {
    if s == [] then [[]]
    else if s[0] == sep then [[]] + Split(s[1..], sep)
    else
      var rest := Split(s[1..], sep);
      [[s[0]] + rest[0]] + rest[1..]
  }

  lemma {:induction false} SplitWithoutSeparator(a: string, sep: char)
    requires sep !in a
    ensures Split(a, sep) == [a]
  {
    if a != [] {
      SplitWithoutSeparator(a[1..], sep);
      assert [a[0]] + a[1..] == a;
    }
  }

  lemma {:induction false} SplitAtSeparator(a: string, sep: char, b: string)
    requires sep !in a
    ensures Split(a + [sep] + b, sep) == [a] + Split(b, sep)
  {
    var s := a + [sep] + b;
    if a == [] {
      assert s[1..] == b;
    } else {
      assert s[1..] == a[1..] + [sep] + b;
      SplitAtSeparator(a[1..], sep, b);
      assert [a[0]] + a[1..] == a;
    }
  }

  function ParseField(f: string): Option<(string, string)>
  {
    var parts := Split(f, '=');
    if |parts| != 2 then None
    else match (Unescape(parts[0]), Unescape(parts[1]))
      case (Some(k), Some(v)) => Some((k, v))
      case _ => None
  }

  function ParseFields(fs: seq<string>): Option<seq<(string, string)>>
  {
    if fs == [] then Some([])
    else match (ParseField(fs[0]), ParseFields(fs[1..]))
      case (Some(kv), Some(rest)) => Some([kv] + rest)
      case _ => None
  }

  /** Reads a query back into its keys and values, in order. */
  function Parse(q: string): Option<seq<(string, string)>>
  {
    if q == [] then Some([]) else ParseFields(Split(q, '&'))
  }

  /** The keys and the `stringifyPrimitive` texts of the values, in order. */
  function Rendered(entries: seq<Entry>): (r: seq<(string, string)>)
    ensures |r| == |entries|
    ensures forall i :: 0 <= i < |entries| ==> r[i] == (entries[i].0, Primitive(entries[i].1))
  {
    if entries == [] then [] else [(entries[0].0, Primitive(entries[0].1))] + Rendered(entries[1..])
  }

  function Fields(entries: seq<Entry>): seq<string>
  {
    if entries == [] then [] else [Field(entries[0])] + Fields(entries[1..])
  }

  lemma ParseOneField(e: Entry)
    ensures ParseField(Field(e)) == Some((e.0, Primitive(e.1)))
  {
    var k, v := Escape(e.0), Escape(Primitive(e.1));
    EscapeChars(e.0);
    EscapeChars(Primitive(e.1));
    assert '=' !in k && '=' !in v;
    SplitAtSeparator(k, '=', v);
    SplitWithoutSeparator(v, '=');
    EscapeRoundTrip(e.0);
    EscapeRoundTrip(Primitive(e.1));
  }

  lemma {:induction false} SplitStringify(entries: seq<Entry>)
    requires entries != []
    ensures Split(Stringify(entries), '&') == Fields(entries)
  {
    var f := Field(entries[0]);
    FieldChars(entries[0]);
    assert '&' !in f;
    if |entries| == 1 {
      SplitWithoutSeparator(f, '&');
    } else {
      SplitAtSeparator(f, '&', Stringify(entries[1..]));
      SplitStringify(entries[1..]);
    }
  }

  lemma {:induction false} ParseAllFields(entries: seq<Entry>)
    ensures ParseFields(Fields(entries)) == Some(Rendered(entries))
  {
    if entries != [] {
      ParseOneField(entries[0]);
      ParseAllFields(entries[1..]);
      assert Fields(entries)[1..] == Fields(entries[1..]);
    }
  }

  /**
    The endpoint reads back every key, in order, with the text of its value:
    `stringify` loses no parameter and merges none.
   */
  lemma StringifyRoundTrip(entries: seq<Entry>)
    ensures Parse(Stringify(entries)) == Some(Rendered(entries))
  {
    if entries != [] {
      SplitStringify(entries);
      ParseAllFields(entries);
    }
  }
}
