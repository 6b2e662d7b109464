/** The two pieces of encoding/json the runtime codec relies on: json.Marshal
    of a Go string (HTML-safe escaping) and json.Unmarshal of one JSON value
    into a Go string. Characters above U+007F stand for the UTF-8 bytes Go
    would hold; they pass through both directions unchanged. */
module Json {
  import opened Wrappers

  /** The insignificant white space of RFC 8259, section 2. */
  predicate IsJsonSpace(c: char) {
    c == ' ' || c == '\t' || c == '\n' || c == '\r'
  }

  function TrimJsonSpace(s: string): (r: string)
    ensures r == [] || (!IsJsonSpace(r[0]) && !IsJsonSpace(r[|r| - 1]))
    ensures s != [] && !IsJsonSpace(s[0]) && !IsJsonSpace(s[|s| - 1]) ==> r == s
    decreases |s|
  {
    if s == [] then []
    else if IsJsonSpace(s[0]) then TrimJsonSpace(s[1..])
    else if IsJsonSpace(s[|s| - 1]) then TrimJsonSpace(s[..|s| - 1])
    else s
  }

  const HexDigits: string := "0123456789abcdef"

  /** A hexadecimal digit of either case, as \u escapes are read. */
  function HexValue(c: char): (r: Option<nat>)
    ensures r.Some? ==> r.value < 16
    ensures forall d :: 0 <= d < 16 && c == HexDigits[d] ==> r == Some(d)
  {
    if '0' <= c <= '9' then Some(c as int - '0' as int)
    else if 'a' <= c <= 'f' then Some(c as int - 'a' as int + 10)
    else if 'A' <= c <= 'F' then Some(c as int - 'A' as int + 10)
    else None
  }

  /** The characters json.Marshal writes as an escape: the quote, the
      backslash, control characters, the HTML-sensitive <, > and &, and the
      line and paragraph separators. */
  predicate NeedsEscape(c: char) {
    c < ' ' || c == '"' || c == '\\' || c == '<' || c == '>' || c == '&'
      || c == '\U{2028}' || c == '\U{2029}'
  }

  /** The escape json.Marshal writes for one character, as encoding/json
      does up to Go 1.21: backspace and form feed take the \u00XX form
      (Go 1.22 and later write them as \b and \f). */
  function Escape(c: char): (r: string)
    ensures |r| >= 1
    ensures !NeedsEscape(c) <==> r == [c]
  {
    if c == '"' then "\\\""
    else if c == '\\' then "\\\\"
    else if c == '\n' then "\\n"
    else if c == '\r' then "\\r"
    else if c == '\t' then "\\t"
    else if c < ' ' || c == '<' || c == '>' || c == '&' then
      "\\u00" + [HexDigits[c as int / 16], HexDigits[c as int % 16]]
    else if c == '\U{2028}' then "\\u2028"
    else if c == '\U{2029}' then "\\u2029"
    else [c]
  }

  function EncodeBody(s: string): string {
    if s == [] then [] else Escape(s[0]) + EncodeBody(s[1..])
  }

  /** json.Marshal of a Go string. */
  function EncodeString(s: string): (j: string)
    ensures |j| >= 2 && j[0] == '"' && j[|j| - 1] == '"'
    ensures (forall i :: 0 <= i < |s| ==> !NeedsEscape(s[i])) ==> j == "\"" + s + "\""
  {
    PlainBody(s);
    "\"" + EncodeBody(s) + "\""
  }

  lemma {:induction false} PlainBody(s: string)
    ensures (forall i :: 0 <= i < |s| ==> !NeedsEscape(s[i])) ==> EncodeBody(s) == s
  {
    if s != [] {
      PlainBody(s[1..]);
      if forall i :: 0 <= i < |s| ==> !NeedsEscape(s[i]) {
        assert !NeedsEscape(s[0]);
        assert forall i :: 0 <= i < |s| - 1 ==> !NeedsEscape(s[1..][i]);
        assert s == [s[0]] + s[1..];
      }
    }
  }

  /** The character a \u escape of a code point below 0x10000 stands for; a
      lone surrogate becomes U+FFFD, as in Go. */
  function CodePoint(v: nat): (c: char)
    requires v < 0x1_0000
    ensures v < 0xD800 || 0xE000 <= v ==> c as int == v
  {
    if 0xD800 <= v < 0xE000 then '\U{FFFD}' else v as char
  }

  /** The value of four hexadecimal digits, if they are that. */
  function Hex4(s: string): (r: Option<nat>)
    requires |s| == 4
    ensures r.Some? ==> r.value < 0x1_0000
  {
    match (HexValue(s[0]), HexValue(s[1]), HexValue(s[2]), HexValue(s[3]))
    case (Some(a), Some(b), Some(c), Some(d)) => Some(((a * 16 + b) * 16 + c) * 16 + d)
    case _ => None
  }

  function SimpleEscape(c: char): Option<char> {
    if c == '"' then Some('"')
    else if c == '\\' then Some('\\')
    else if c == '/' then Some('/')
    else if c == 'b' then Some('\U{8}')
    else if c == 'f' then Some('\U{C}')
    else if c == 'n' then Some('\n')
    else if c == 'r' then Some('\r')
    else if c == 't' then Some('\t')
    else None
  }

  function Prepend(c: char, rest: Option<string>): (r: Option<string>)
    ensures r.Some? <==> rest.Some?
    ensures r.Some? ==> r.value == [c] + rest.value
  {
    match rest
    case None => None
    case Some(t) => Some([c] + t)
  }

  /** The characters between the quotes of a JSON string, decoded; None when
      an unescaped quote or control character, a bad escape or a dangling
      backslash shows the text is not one JSON string. */
  function DecodeBody(s: string): (r: Option<string>)
    decreases |s|
  {
    if s == [] then Some([])
    else if s[0] == '"' || s[0] < ' ' then None
    else if s[0] != '\\' then Prepend(s[0], DecodeBody(s[1..]))
    else if |s| < 2 then None
    else if SimpleEscape(s[1]).Some? then Prepend(SimpleEscape(s[1]).value, DecodeBody(s[2..]))
    else if s[1] == 'u' && |s| >= 6 && Hex4(s[2..6]).Some? then
      Prepend(CodePoint(Hex4(s[2..6]).value), DecodeBody(s[6..]))
    else None
  }

  /** json.Unmarshal(j, &target) for a string target: the new value of the
      target, or None for an error. A JSON null leaves the target as it was;
      a value of any other type, or text that is not one JSON value, fails. */
  function UnmarshalString(j: string, target: string): (r: Option<string>)
    ensures r.Some? && TrimJsonSpace(j) != "null" ==>
      var t := TrimJsonSpace(j); |t| >= 2 && t[0] == '"' && t[|t| - 1] == '"'
  {
    var t := TrimJsonSpace(j);
    if t == "null" then Some(target)
    else if |t| >= 2 && t[0] == '"' && t[|t| - 1] == '"' then DecodeBody(t[1..|t| - 1])
    else None
  }

  lemma SimpleEscapeDecodes(c: char, rest: string)
    requires c == '"' || c == '\\' || c == '\n' || c == '\r' || c == '\t'
    ensures DecodeBody(Escape(c) + rest) == Prepend(c, DecodeBody(rest))
  {
    var s := Escape(c) + rest;
    assert s[0] == '\\' && |s| >= 2 && SimpleEscape(s[1]) == Some(c);
    assert s[2..] == rest;
  }

  lemma HexEscapeDecodes(c: char, rest: string)
    requires c < ' ' || c == '<' || c == '>' || c == '&'
    requires !(c == '\n' || c == '\r' || c == '\t')
    ensures DecodeBody(Escape(c) + rest) == Prepend(c, DecodeBody(rest))
  {
    var hi, lo := c as int / 16, c as int % 16;
    var s := Escape(c) + rest;
    assert Escape(c) == "\\u00" + [HexDigits[hi], HexDigits[lo]];
    assert s[0] == '\\' && s[1] == 'u' && |s| >= 6;
    assert SimpleEscape(s[1]).None?;
    assert s[2..6] == ['0', '0', HexDigits[hi], HexDigits[lo]];
    assert Hex4(s[2..6]) == Some(c as int);
    assert s[6..] == rest;
  }

  lemma SeparatorDecodes(c: char, rest: string)
    requires c == '\U{2028}' || c == '\U{2029}'
    ensures DecodeBody(Escape(c) + rest) == Prepend(c, DecodeBody(rest))
  {
    var s := Escape(c) + rest;
    assert s[0] == '\\' && s[1] == 'u' && |s| >= 6;
    assert SimpleEscape(s[1]).None?;
    assert s[2..6] == Escape(c)[2..6];
    assert Hex4(s[2..6]) == Some(c as int);
    assert s[6..] == rest;
  }

  lemma EscapeDecodes(c: char, rest: string)
    ensures DecodeBody(Escape(c) + rest) == Prepend(c, DecodeBody(rest))
  {
    if c == '"' || c == '\\' || c == '\n' || c == '\r' || c == '\t' {
      SimpleEscapeDecodes(c, rest);
    } else if c < ' ' || c == '<' || c == '>' || c == '&' {
      HexEscapeDecodes(c, rest);
    } else if c == '\U{2028}' || c == '\U{2029}' {
      SeparatorDecodes(c, rest);
    } else {
      var s := Escape(c) + rest;
      assert s[0] == c && s[1..] == rest;
    }
  }

  /** Decoding undoes the body encoding. */
  lemma {:induction false} DecodeEncodeBody(s: string)
    ensures DecodeBody(EncodeBody(s)) == Some(s)
  {
    if s != [] {
      DecodeEncodeBody(s[1..]);
      EscapeDecodes(s[0], EncodeBody(s[1..]));
      assert [s[0]] + s[1..] == s;
    }
  }

  /** json.Unmarshal of json.Marshal(s) gives back s, whatever the target held. */
  lemma UnmarshalMarshal(s: string, target: string)
    ensures UnmarshalString(EncodeString(s), target) == Some(s)
  {
    var j := EncodeString(s);
    assert TrimJsonSpace(j) == j;
    assert j != "null" by { assert j[|j| - 1] != "null"[3]; }
    assert j[1..|j| - 1] == EncodeBody(s);
    DecodeEncodeBody(s);
  }
}
