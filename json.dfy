/** `JSON.stringify` applied to an array of strings, the form in which the
    forms send their deletion lists, together with a parser for the JSON
    text it produces. The round trip shows that the receiver recovers the
    list exactly, whatever characters the URLs contain. */
module Json {

  import opened Wrappers

  const HexDigits: string := "0123456789abcdef"

  /** The escape `JSON.stringify` writes for one character of a string. */
  function EscapeChar(c: char): (r: string)
    ensures |r| > 0
  {
    if c == '"' then "\\\""
    else if c == '\\' then "\\\\"
    else if c == '\U{0008}' then "\\b"
    else if c == '\U{000C}' then "\\f"
    else if c == '\n' then "\\n"
    else if c == '\r' then "\\r"
    else if c == '\t' then "\\t"
    else if (c as int) < 0x20 then "\\u00" + [HexDigits[c as int / 16], HexDigits[c as int % 16]]
    else [c]
  }

  function Escape(s: string): string {
    if s == [] then [] else EscapeChar(s[0]) + Escape(s[1..])
  }

  /** `JSON.stringify(s)` for a string `s`. */
  function Quote(s: string): string {
    "\"" + Escape(s) + "\""
  }

  function Elements(xs: seq<string>): string {
    if xs == [] then []
    else if |xs| == 1 then Quote(xs[0])
    else Quote(xs[0]) + "," + Elements(xs[1..])
  }

  /** `JSON.stringify(xs)` for an array of strings `xs`: no white space. */
  function StringArray(xs: seq<string>): (t: string)
    ensures |t| >= 2 && t[0] == '[' && t[|t| - 1] == ']'
    ensures xs == [] <==> t == "[]"
  {
    "[" + Elements(xs) + "]"
  }

  /** The value of a hexadecimal digit of either case. */
  function HexValue(c: char): (r: Option<nat>)
    ensures r.Some? ==> r.value < 16
  {
    if '0' <= c <= '9' then Some(c as int - '0' as int)
    else if 'a' <= c <= 'f' then Some(c as int - 'a' as int + 10)
    else if 'A' <= c <= 'F' then Some(c as int - 'A' as int + 10)
    else None
  }

  /** The code unit named by the four digits of a `\uXXXX` escape; a
      surrogate code unit has no character of its own here. */
  function UnicodeEscape(h: string): Option<char>
    requires |h| == 4
  {
    match (HexValue(h[0]), HexValue(h[1]), HexValue(h[2]), HexValue(h[3]))
    case (Some(a), Some(b), Some(c), Some(d)) =>
      var v := ((a * 16 + b) * 16 + c) * 16 + d;
      if v < 0xD800 || 0xE000 <= v then Some(v as char) else None
    case _ => None
  }

  /** Reads the characters of a JSON string literal after its opening quote,
      up to and including the closing quote; yields the decoded string and
      the text after the closing quote. */
  function ParseStringBody(t: string): (r: Option<(string, string)>)
    ensures r.Some? ==> |r.value.1| < |t|
    decreases |t|
  {
    if t == [] then None
    else if t[0] == '"' then Some(([], t[1..]))
    else if t[0] == '\\' then
      if |t| < 2 then None
      else
        var e := t[1];
        var single :=
          if e == '"' then Some('"')
          else if e == '\\' then Some('\\')
          else if e == '/' then Some('/')
          else if e == 'b' then Some('\U{0008}')
          else if e == 'f' then Some('\U{000C}')
          else if e == 'n' then Some('\n')
          else if e == 'r' then Some('\r')
          else if e == 't' then Some('\t')
          else None;
        if single.Some? then Prepend(single.value, ParseStringBody(t[2..]))
        else if e == 'u' && |t| >= 6 then
          match UnicodeEscape(t[2..6])
          case Some(c) => Prepend(c, ParseStringBody(t[6..]))
          case None => None
        else None
    else if (t[0] as int) < 0x20 then None
    else Prepend(t[0], ParseStringBody(t[1..]))
  }

  function Prepend(c: char, r: Option<(string, string)>): Option<(string, string)> {
    match r
    case Some((s, rest)) => Some(([c] + s, rest))
    case None => None
  }

  /** Reads one or more comma-separated string literals and the closing
      bracket, which must end the text. */
  function ParseElements(t: string): Option<seq<string>>
    decreases |t|, 1
  {
    if t == [] || t[0] != '"' then None
    else
      match ParseStringBody(t[1..])
      case None => None
      case Some((s, rest)) => ParseAfterElement(s, rest)
  }

  /** What follows the string `s` just read: the closing bracket, or a
      comma and further elements. */
  function ParseAfterElement(s: string, rest: string): Option<seq<string>>
    decreases |rest|, 0
  {
    if rest == "]" then Some([s])
    else if rest != [] && rest[0] == ',' then
      match ParseElements(rest[1..])
      case Some(more) => Some([s] + more)
      case None => None
    else None
  }

  /** `JSON.parse` restricted to arrays of strings written without white space. */
  function ParseStringArray(t: string): Option<seq<string>> {
    if t == "[]" then Some([])
    else if t != [] && t[0] == '[' then ParseElements(t[1..])
    else None
  }

  lemma HexDigitRoundTrip(d: nat)
    requires d < 16
    ensures HexValue(HexDigits[d]) == Some(d)
  {
  }

  /** A control character written as `\u00XX` reads back as itself. */
  lemma ControlEscapeRoundTrip(c: char, tail: string)
    requires (c as int) < 0x20
    ensures ParseStringBody("\\u00" + [HexDigits[c as int / 16], HexDigits[c as int % 16]] + tail)
      == Prepend(c, ParseStringBody(tail))
  {
    var hi, lo := c as int / 16, c as int % 16;
    var t := "\\u00" + [HexDigits[hi], HexDigits[lo]] + tail;
    HexDigitRoundTrip(hi);
    HexDigitRoundTrip(lo);
    assert t[0] == '\\' && t[1] == 'u';
    assert t[2..6] == ['0', '0', HexDigits[hi], HexDigits[lo]];
    assert t[6..] == tail;
    assert UnicodeEscape(t[2..6]) == Some(c);
  }

  lemma {:induction false} EscapeCharRoundTrip(c: char, tail: string)
    ensures ParseStringBody(EscapeChar(c) + tail) == Prepend(c, ParseStringBody(tail))
  {
    var t := EscapeChar(c) + tail;
    if c == '"' || c == '\\' || c == '\U{0008}' || c == '\U{000C}' || c == '\n' || c == '\r' || c == '\t' {
      assert t[2..] == tail;
    } else if (c as int) < 0x20 {
      ControlEscapeRoundTrip(c, tail);
    } else {
      assert t[1..] == tail;
    }
  }

  /** A quoted string reads back as itself, leaving the text after it. */
  lemma {:induction false} QuoteRoundTrip(s: string, rest: string)
    ensures ParseStringBody(Escape(s) + "\"" + rest) == Some((s, rest))
    decreases |s|
  {
    if s == [] {
      assert Escape(s) + "\"" + rest == "\"" + rest;
    } else {
      var tail := Escape(s[1..]) + "\"" + rest;
      assert Escape(s) + "\"" + rest == EscapeChar(s[0]) + tail;
      EscapeCharRoundTrip(s[0], tail);
      QuoteRoundTrip(s[1..], rest);
      assert [s[0]] + s[1..] == s;
    }
  }

  /** After a quoted string, the parser reads `rest` as the remainder. */
  lemma ParseAfterQuote(x: string, rest: string)
    ensures ParseElements(Quote(x) + rest) == ParseAfterElement(x, rest)
  {
    var t := Quote(x) + rest;
    assert t[0] == '"';
    assert t[1..] == Escape(x) + "\"" + rest;
    QuoteRoundTrip(x, rest);
  }

  /** Regrouping a quoted element, a comma, the rest and the bracket. */
  lemma Regroup(a: string, e: string)
    ensures a + "," + e + "]" == a + ("," + (e + "]"))
  {
    var lhs, rhs := a + "," + e + "]", a + ("," + (e + "]"));
    forall i | 0 <= i < |lhs| ensures lhs[i] == rhs[i] {
      if i < |a| {
        assert lhs[i] == a[i] && rhs[i] == a[i];
      } else if i == |a| {
        assert lhs[i] == ',' && rhs[i] == ',';
      } else if i < |a| + 1 + |e| {
        assert lhs[i] == e[i - |a| - 1] && rhs[i] == e[i - |a| - 1];
      } else {
        assert lhs[i] == ']' && rhs[i] == ']';
      }
    }
  }

  /** The text of two or more elements is the first one quoted, a comma,
      and the text of the others. */
  lemma ElementsSplit(xs: seq<string>)
    requires |xs| > 1
    ensures Elements(xs) + "]" == Quote(xs[0]) + ("," + (Elements(xs[1..]) + "]"))
  {
    assert Elements(xs) == Quote(xs[0]) + "," + Elements(xs[1..]);
    Regroup(Quote(xs[0]), Elements(xs[1..]));
  }

  /** After a comma, the parser continues with the elements that follow. */
  lemma ParseAfterComma(x: string, ys: seq<string>)
    requires ParseElements(Elements(ys) + "]") == Some(ys)
    ensures ParseAfterElement(x, "," + (Elements(ys) + "]")) == Some([x] + ys)
  {
    var more := "," + (Elements(ys) + "]");
    assert more != "]" && more[0] == ',';
    assert more[1..] == Elements(ys) + "]";
  }

  lemma {:induction false} ElementsRoundTrip(xs: seq<string>)
    requires xs != []
    ensures ParseElements(Elements(xs) + "]") == Some(xs)
    decreases |xs|
  {
    if |xs| == 1 {
      assert Elements(xs) == Quote(xs[0]);
      ParseAfterQuote(xs[0], "]");
      assert xs == [xs[0]];
    } else {
      ElementsSplit(xs);
      ParseAfterQuote(xs[0], "," + (Elements(xs[1..]) + "]"));
      ElementsRoundTrip(xs[1..]);
      ParseAfterComma(xs[0], xs[1..]);
      assert [xs[0]] + xs[1..] == xs;
    }
  }

  /** Parsing the text `JSON.stringify` writes for a string array gives
      back that array. */
  lemma StringArrayRoundTrip(xs: seq<string>)
    ensures ParseStringArray(StringArray(xs)) == Some(xs)
  {
    if xs != [] {
      var t := StringArray(xs);
      assert t[1..] == Elements(xs) + "]";
      ElementsRoundTrip(xs);
      assert Elements(xs) != [];
      assert t != "[]";
    }
  }

  /** Different lists are sent as different texts. */
  lemma StringArrayInjective(xs: seq<string>, ys: seq<string>)
    requires StringArray(xs) == StringArray(ys)
    ensures xs == ys
  {
    StringArrayRoundTrip(xs);
    StringArrayRoundTrip(ys);
  }
}
