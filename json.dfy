/** JSON.stringify of an interview history, as section 25.5.2 of ECMA-262 defines
    it for an array of plain objects with two string properties: no white space,
    properties in creation order (user, then model), strings quoted by
    QuoteJSONString. A decoder for the string escapes reads back what the
    quoting writes. */
module Json {
  import opened Common
  import opened Text

  function HexDigit(d: int): (c: char)
    requires 0 <= d < 16
    ensures IsHexDigit(c) && HexValue(c) == d
  {
    "0123456789abcdef"[d]
  }

  predicate IsHexDigit(c: char)
  {
    ('0' <= c <= '9') || ('a' <= c <= 'f') || ('A' <= c <= 'F')
  }

  function HexValue(c: char): (d: int)
    requires IsHexDigit(c)
    ensures 0 <= d < 16
  {
    if '0' <= c <= '9' then c as int - '0' as int
    else if 'a' <= c <= 'f' then c as int - 'a' as int + 10
    else c as int - 'A' as int + 10
  }

  /** Every quotation mark in s is preceded by a reverse solidus. */
  predicate QuotesEscaped(s: string)
  {
    forall i :: 0 <= i < |s| ==> s[i] != '"' || (i > 0 && s[i - 1] == '\\')
  }

  /** QuoteJSONString for one code point: the two-character escapes for
      backspace, tab, line feed, form feed, carriage return, quotation mark and
      reverse solidus, a \u escape with four lower-case hex digits for the other
      control characters, and the code point itself otherwise. */
  function EscapeChar(c: char): (r: string)
    ensures r != [] && (r[0] == '\\' <==> (c == '"' || c == '\\' || c < ' '))
    ensures r[0] != '\\' ==> r == [c]
    ensures QuotesEscaped(r)
  {
    var n := c as int;
    if n == 0x08 then "\\b"
    else if n == 0x09 then "\\t"
    else if n == 0x0A then "\\n"
    else if n == 0x0C then "\\f"
    else if n == 0x0D then "\\r"
    else if c == '"' then "\\\""
    else if c == '\\' then "\\\\"
    else if n < 0x20 then "\\u00" + [HexDigit(n / 16), HexDigit(n % 16)]
    else [c]
  }

  /** The quoted body of a string, one escape per code point. */
  function Escape(s: string): (r: string)
    ensures QuotesEscaped(r)
  {
    if s == [] then [] else
      var e, rest := EscapeChar(s[0]), Escape(s[1..]);
      QuotesEscapedConcat(e, rest);
      e + rest
  }

  /** A quotation mark in a string whose marks are escaped has a reverse
      solidus right before it. */
  lemma EscapedQuoteAt(s: string, i: nat)
    requires QuotesEscaped(s) && i < |s| && s[i] == '"'
    ensures i > 0 && s[i - 1] == '\\'
  {
  }

  /** Gluing two strings whose quotation marks are all escaped keeps every
      quotation mark escaped: a mark at the start of the second string would
      have no reverse solidus before it within that string. */
  lemma QuotesEscapedConcat(a: string, b: string)
    requires QuotesEscaped(a) && QuotesEscaped(b)
    ensures QuotesEscaped(a + b)
  {
    forall i | 0 <= i < |a + b| && (a + b)[i] == '"'
      ensures i > 0 && (a + b)[i - 1] == '\\'
    {
      if i < |a| {
        assert a[i] == (a + b)[i];
        EscapedQuoteAt(a, i);
        assert (a + b)[i - 1] == a[i - 1];
      } else {
        var j := i - |a|;
        assert b[j] == (a + b)[i];
        EscapedQuoteAt(b, j);
        assert (a + b)[i - 1] == b[j - 1];
      }
    }
  }

  /** QuoteJSONString. */
  function Quote(s: string): string
  {
    "\"" + Escape(s) + "\""
  }

  /** One turn as JSON.stringify writes the object {user, model}. */
  function TurnJson(turn: InterviewTurn): string
  {
    "{\"user\":" + Quote(turn.user) + ",\"model\":" + Quote(turn.model) + "}"
  }

  /** JSON.stringify(history): the turns' objects between brackets, separated by
      commas. It is never the empty string, so getInitialHistory never takes a
      written history for an absent one. */
  function Stringify(history: seq<InterviewTurn>): (r: string)
    ensures 2 <= |r| && r[0] == '[' && r[|r| - 1] == ']'
    ensures history == [] ==> r == "[]"
  {
    "[" + Members(history) + "]"
  }

  /** The turns' objects separated by commas (the array's elements as
      SerializeJSONArray writes them). */
  function Members(history: seq<InterviewTurn>): string
  {
    if history == [] then ""
    else if |history| == 1 then TurnJson(history[0])
    else Members(history[..|history| - 1]) + "," + TurnJson(history[|history| - 1])
  }

  /** The character a \u escape stands for, when its four digits name one. */
  function FromHex4(t: string): (r: Option<char>)
    requires |t| == 4
  {
    if IsHexDigit(t[0]) && IsHexDigit(t[1]) && IsHexDigit(t[2]) && IsHexDigit(t[3]) then
      var n := ((HexValue(t[0]) * 16 + HexValue(t[1])) * 16 + HexValue(t[2])) * 16 + HexValue(t[3]);
      if n < 0xD800 || 0xE000 <= n then Some(n as char) else None
    else None
  }

  function Prepend(c: char, r: Option<string>): Option<string>
  {
    if r.Some? then Some([c] + r.value) else None
  }

  /** Reads a quoted body back: every escape JSON.parse accepts inside a string
      (a surrogate code unit on its own has no code point and is refused), and
      None for an unescaped quotation mark or control character or for a broken
      escape. */
  function Unescape(t: string): (r: Option<string>)
    decreases |t|
  {
    if t == [] then Some([])
    else if t[0] != '\\' then
      if t[0] == '"' || t[0] < ' ' then None else Prepend(t[0], Unescape(t[1..]))
    else if |t| < 2 then None
    else if t[1] == 'u' then
      if |t| < 6 then None
      else
        var c := FromHex4(t[2..6]);
        if c.Some? then Prepend(c.value, Unescape(t[6..])) else None
    else
      var c := t[1];
      var d := if c == 'b' then Some(0x08 as char)
               else if c == 't' then Some(0x09 as char)
               else if c == 'n' then Some(0x0A as char)
               else if c == 'f' then Some(0x0C as char)
               else if c == 'r' then Some(0x0D as char)
               else if c == '"' || c == '\\' || c == '/' then Some(c)
               else None;
      if d.Some? then Prepend(d.value, Unescape(t[2..])) else None
  }

  /** Unescaping one escape followed by more text gives its code point followed
      by the unescaped rest. */
  lemma UnescapeChar(c: char, rest: string)
    ensures Unescape(EscapeChar(c) + rest) == Prepend(c, Unescape(rest))
  {
    var e := EscapeChar(c);
    var t := e + rest;
    var n := c as int;
    if e[0] != '\\' {
      assert t[0] == c && t[1..] == rest;
    } else if n < 0x20 && n != 0x08 && n != 0x09 && n != 0x0A && n != 0x0C && n != 0x0D {
      UnescapeControl(c, rest);
    } else {
      assert |e| == 2 && t[1] == e[1] && t[2..] == rest;
    }
  }

  /** The \u escape of a control character reads back as that character. */
  lemma UnescapeControl(c: char, rest: string)
    requires c < ' ' && c as int != 0x08 && c as int != 0x09 && c as int != 0x0A
    requires c as int != 0x0C && c as int != 0x0D
    ensures Unescape(EscapeChar(c) + rest) == Prepend(c, Unescape(rest))
  {
    var n := c as int;
    var hi, lo := HexDigit(n / 16), HexDigit(n % 16);
    var t := EscapeChar(c) + rest;
    assert EscapeChar(c) == "\\u00" + [hi, lo];
    assert t[2..6] == ['0', '0', hi, lo];
    assert t[6..] == rest;
    assert FromHex4(t[2..6]) == Some(c);
  }

  /** The quoting loses nothing: the escaped body unescapes to the original string. */
  lemma {:induction false} EscapeRoundTrip(s: string)
    ensures Unescape(Escape(s)) == Some(s)
  {
    if s != [] {
      EscapeRoundTrip(s[1..]);
      UnescapeChar(s[0], Escape(s[1..]));
      assert [s[0]] + s[1..] == s;
    }
  }
}
