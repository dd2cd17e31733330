/**
  The part of `JSON.stringify` the tracker uses: an object with one field
  holding an array of strings, written without white space.
 */
module Json {
  import Utf8

  function LowerHexDigit(d: nat): char
    requires d < 16
  {
    if d < 10 then ('0' as int + d) as char else ('a' as int + d - 10) as char
  }

  /** A character `JSON.stringify` writes as it is inside a string literal. */
  predicate Plain(c: char)
  {
    c != '"' && c != '\\' && c as int >= 0x20
  }

  /** What `JSON.stringify` writes for one character inside a string literal. */
  function QuoteChar(c: char): (r: string)
    ensures Plain(c) ==> r == [c]
    ensures c as int < 0x80 ==> Utf8.IsAscii(r)
  {
    if c == '"' then "\\\""
    else if c == '\\' then "\\\\"
    else if c as int == 0x08 then "\\b"
    else if c as int == 0x0C then "\\f"
    else if c == '\n' then "\\n"
    else if c == '\r' then "\\r"
    else if c == '\t' then "\\t"
    else if c as int < 0x20 then "\\u00" + [LowerHexDigit(c as int / 16), LowerHexDigit(c as int % 16)]
    else [c]
  }

  function QuoteBody(s: string): string
  {
    if s == [] then [] else QuoteChar(s[0]) + QuoteBody(s[1..])
  }

  /** A JSON string literal. */
  function Quote(s: string): string
  {
    "\"" + QuoteBody(s) + "\""
  }

  /** The string literals of `xs`, separated by commas. */
  function QuotedList(xs: seq<string>): string
  {
    if xs == [] then []
    else if |xs| == 1 then Quote(xs[0])
    else Quote(xs[0]) + "," + QuotedList(xs[1..])
  }

  /** `JSON.stringify({[name]: xs})` for an array of strings `xs`. */
  function ObjectWithStringArray(name: string, xs: seq<string>): string
  {
    "{" + Quote(name) + ":[" + QuotedList(xs) + "]}"
  }

  lemma AsciiConcat(a: string, b: string)
    requires Utf8.IsAscii(a) && Utf8.IsAscii(b)
    ensures Utf8.IsAscii(a + b)
  {
    assert forall i :: 0 <= i < |a + b| ==> (a + b)[i] == if i < |a| then a[i] else b[i - |a|];
  }

  /** A string without quotes, backslashes and control characters is written between quotes as it is. */
  lemma {:induction false} QuotePlain(s: string)
    requires forall i :: 0 <= i < |s| ==> Plain(s[i])
    ensures Quote(s) == "\"" + s + "\""
    ensures QuoteBody(s) == s
  {
    if s != [] {
      QuotePlain(s[1..]);
      assert [s[0]] + s[1..] == s;
    }
  }

  /** The field name of the bulk body needs no escape. */
  lemma QuoteRequests()
    ensures Quote("requests") == "\"" + "requests" + "\""
  {
    assert forall i :: 0 <= i < |"requests"| ==> Plain("requests"[i]);
    QuotePlain("requests");
  }

  /** Escaping keeps ASCII text ASCII. */
  lemma {:induction false} QuoteAscii(s: string)
    requires Utf8.IsAscii(s)
    ensures Utf8.IsAscii(Quote(s))
  {
    QuoteBodyAscii(s);
    AsciiConcat("\"", QuoteBody(s));
    AsciiConcat("\"" + QuoteBody(s), "\"");
  }

  lemma {:induction false} QuoteBodyAscii(s: string)
    requires Utf8.IsAscii(s)
    ensures Utf8.IsAscii(QuoteBody(s))
  {
    if s != [] {
      assert Utf8.IsAscii(s[1..]) by {
        forall i | 0 <= i < |s[1..]| ensures s[1..][i] as int < 0x80 {
          assert s[1..][i] == s[i + 1];
        }
      }
      QuoteBodyAscii(s[1..]);
      AsciiConcat(QuoteChar(s[0]), QuoteBody(s[1..]));
    }
  }

  lemma {:induction false} QuotedListAscii(xs: seq<string>)
    requires forall i :: 0 <= i < |xs| ==> Utf8.IsAscii(xs[i])
    ensures Utf8.IsAscii(QuotedList(xs))
  {
    if xs != [] {
      QuoteAscii(xs[0]);
      if |xs| > 1 {
        QuotedListAscii(xs[1..]);
        AsciiConcat(Quote(xs[0]), ",");
        AsciiConcat(Quote(xs[0]) + ",", QuotedList(xs[1..]));
      }
    }
  }

  /** With an ASCII name and ASCII strings the whole document is ASCII. */
  lemma ObjectAscii(name: string, xs: seq<string>)
    requires Utf8.IsAscii(name)
    requires forall i :: 0 <= i < |xs| ==> Utf8.IsAscii(xs[i])
    ensures Utf8.IsAscii(ObjectWithStringArray(name, xs))
  {
    QuoteAscii(name);
    QuotedListAscii(xs);
    AsciiConcat("{", Quote(name));
    AsciiConcat("{" + Quote(name), ":[");
    AsciiConcat("{" + Quote(name) + ":[", QuotedList(xs));
    AsciiConcat("{" + Quote(name) + ":[" + QuotedList(xs), "]}");
  }
}
