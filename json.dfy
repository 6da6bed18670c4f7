/** The slice of JSON (RFC 8259) that the library relies on: wrapping a token in
    quotes without escaping (writeStringBuffer, e7/attribute.go), reading a JSON
    string back as json.Unmarshal into a Go string does (unmarshalJSON, same
    file), and the shape of a decoded JSON document. */
module Json {
  import opened Wrappers

  // ----- Writing -------------------------------------------------------------

  /** `"` + s + `"`, with no escaping of s. */
  function Quoted(s: string): (r: string)
    ensures |r| == |s| + 2 && r[0] == '"' && r[|r| - 1] == '"'
    ensures r[1..|r| - 1] == s
  {
    "\"" + s + "\""
  }

  /** The characters a JSON string may hold without an escape (section 7 of
      RFC 8259): anything but the quotation mark, the reverse solidus and the
      control characters U+0000 to U+001F. */
  predicate JsonSafe(s: string)
  {
    forall i | 0 <= i < |s| :: s[i] != '"' && s[i] != '\\' && s[i] >= ' '
  }

  /** A growable byte buffer (Go's bytes.Buffer), the part of it writeStringBuffer uses. */
  class Buffer {
    var contents: string

    constructor NewBufferString(s: string)
      ensures contents == s
    {
      contents := s;
    }

    method WriteString(s: string)
      modifies this
      ensures contents == old(contents) + s
    {
      contents := contents + s;
    }

    function Bytes(): string
      reads this
    {
      contents
    }
  }

  /** writeStringBuffer: a fresh buffer holding s between two quotation marks. */
  method WriteStringBuffer(s: string) returns (buf: Buffer)
    ensures fresh(buf)
    ensures buf.Bytes() == Quoted(s)
  {
    buf := new Buffer.NewBufferString("\"");
    buf.WriteString(s);
    buf.WriteString("\"");
  }

  // ----- Reading a JSON string ----------------------------------------------

  /** Why json.Unmarshal into a Go string failed: the text is not a JSON
      string literal (nor null). Syntax errors and type mismatches are not
      told apart here. */
  datatype JsonError = NotAString

  predicate IsWhitespace(c: char)
  {
    c == ' ' || c == '\t' || c == '\n' || c == '\r'
  }

  function TrimLeft(s: string): (r: string)
    ensures |r| <= |s| && r == s[|s| - |r|..]
    ensures r == [] || !IsWhitespace(r[0])
  {
    if s != [] && IsWhitespace(s[0]) then TrimLeft(s[1..]) else s
  }

  function TrimRight(s: string): (r: string)
    ensures |r| <= |s| && r == s[..|r|]
    ensures r == [] || !IsWhitespace(r[|r| - 1])
  {
    if s != [] && IsWhitespace(s[|s| - 1]) then TrimRight(s[..|s| - 1]) else s
  }

  /** The text with the JSON whitespace around it removed. */
  function Trim(s: string): (r: string)
  {
    TrimRight(TrimLeft(s))
  }

  function HexDigit(c: char): (r: Option<int>)
  {
    if '0' <= c <= '9' then Some(c as int - '0' as int)
    else if 'a' <= c <= 'f' then Some(c as int - 'a' as int + 10)
    else if 'A' <= c <= 'F' then Some(c as int - 'A' as int + 10)
    else None
  }

  /** The value of four hexadecimal digits, as after `\u`. */
  function Hex4(s: string): (r: Option<int>)
    requires |s| == 4
    ensures r.Some? ==> 0 <= r.value < 0x1_0000
  {
    match (HexDigit(s[0]), HexDigit(s[1]), HexDigit(s[2]), HexDigit(s[3]))
    case (Some(a), Some(b), Some(c), Some(d)) =>
      assert 0 <= a < 16 && 0 <= b < 16 && 0 <= c < 16 && 0 <= d < 16 by {
        HexDigitRange(s[0]);
        HexDigitRange(s[1]);
        HexDigitRange(s[2]);
        HexDigitRange(s[3]);
      }
      Some(((a * 16 + b) * 16 + c) * 16 + d)
    case _ => None
  }

  lemma HexDigitRange(c: char)
    ensures HexDigit(c).Some? ==> 0 <= HexDigit(c).value < 16
  {
  }

  /** The character a two-character escape `\c` stands for. */
  function SimpleEscape(c: char): (r: Option<char>)
  {
    if c == '"' then Some('"')
    else if c == '\\' then Some('\\')
    else if c == '/' then Some('/')
    else if c == 'b' then Some('\U{0008}')
    else if c == 'f' then Some('\U{000C}')
    else if c == 'n' then Some('\n')
    else if c == 'r' then Some('\r')
    else if c == 't' then Some('\t')
    else None
  }

  function Prepend(c: char, rest: Option<string>): (r: Option<string>)
  {
    if rest.Some? then Some([c] + rest.value) else None
  }

  /** The \u escape starting at s[0] (`\uXXXX`, or a surrogate pair `\uXXXX\uXXXX`):
      the character it stands for and the number of characters it occupies. A
      lone surrogate stands for U+FFFD, as in encoding/json. */
  function UnicodeEscape(s: string): (r: Option<(char, nat)>)
    requires |s| >= 2 && s[0] == '\\' && s[1] == 'u'
    ensures r.Some? ==> r.value.1 in {6, 12} && r.value.1 <= |s|
  {
    if |s| < 6 then None
    else match Hex4(s[2..6])
      case None => None
      case Some(hi) =>
        if hi < 0xD800 || 0xE000 <= hi then Some((hi as char, 6))
        else if hi < 0xDC00 && |s| >= 12 && s[6] == '\\' && s[7] == 'u'
                && Hex4(s[8..12]).Some? && 0xDC00 <= Hex4(s[8..12]).value < 0xE000 then
          var lo := Hex4(s[8..12]).value;
          Some(((0x1_0000 + (hi - 0xD800) * 0x400 + (lo - 0xDC00)) as char, 12))
        else Some(('\U{FFFD}', 6))
  }

  /** The characters a JSON string literal's body `s` (the text between its
      quotation marks) stands for, or None when the body is not well formed:
      an unescaped quotation mark or control character, or a bad escape. */
  function DecodeBody(s: string): (r: Option<string>)
    decreases |s|
  {
    if s == [] then Some([])
    else if s[0] == '"' || s[0] < ' ' then None
    else if s[0] != '\\' then Prepend(s[0], DecodeBody(s[1..]))
    else if |s| < 2 then None
    else if SimpleEscape(s[1]).Some? then Prepend(SimpleEscape(s[1]).value, DecodeBody(s[2..]))
    else if s[1] != 'u' then None
    else match UnicodeEscape(s)
      case None => None
      case Some((c, n)) => Prepend(c, DecodeBody(s[n..]))
  }

  /** json.Unmarshal(b, &str) for a Go string str that starts out empty
      (unmarshalJSON): the decoded string, or the error. `null` leaves str
      empty and is not an error. */
  function Unquote(b: string): (r: Result<string, JsonError>)
    ensures r.Success? ==> |r.value| <= |b|
    ensures r.Success? ==>
      var t := Trim(b);
      t == "null" || (|t| >= 2 && t[0] == '"' && t[|t| - 1] == '"')
    ensures Trim(b) == "null" ==> r == Success("")
  {
    UnquoteTrimmed(Trim(b))
  }

  /** The value of the text once the whitespace around it is gone. */
  function UnquoteTrimmed(t: string): (r: Result<string, JsonError>)
    ensures r.Success? ==> |r.value| <= |t|
  {
    if t == "null" then Success("")
    else if |t| >= 2 && t[0] == '"' && t[|t| - 1] == '"' then
      match DecodeBody(t[1..|t| - 1])
      case Some(s) =>
        DecodeBodyLength(t[1..|t| - 1]);
        Success(s)
      case None => Failure(NotAString)
    else Failure(NotAString)
  }

  // ----- Properties of quoting and unquoting ---------------------------------

  /** An escape-free body decodes to itself. */
  lemma {:induction false} DecodeSafeBody(s: string)
    requires JsonSafe(s)
    ensures DecodeBody(s) == Some(s)
  {
    if s != [] {
      assert JsonSafe(s[1..]) by {
        forall i | 0 <= i < |s[1..]| ensures s[1..][i] != '"' && s[1..][i] != '\\' && s[1..][i] >= ' ' {
          assert s[1..][i] == s[i + 1];
        }
      }
      DecodeSafeBody(s[1..]);
      assert [s[0]] + s[1..] == s;
    }
  }

  /** Decoding never lengthens a body. */
  lemma {:induction false} DecodeBodyLength(s: string)
    requires DecodeBody(s).Some?
    ensures |DecodeBody(s).value| <= |s|
    decreases |s|
  {
    if s != [] {
      if s[0] != '\\' {
        DecodeBodyLength(s[1..]);
      } else if SimpleEscape(s[1]).Some? {
        DecodeBodyLength(s[2..]);
      } else {
        var n := UnicodeEscape(s).value.1;
        DecodeBodyLength(s[n..]);
      }
    }
  }

  /** A body that decodes to itself holds no escape, so it is escape-free. */
  lemma {:induction false} FixedBodyIsSafe(s: string)
    requires DecodeBody(s) == Some(s)
    ensures JsonSafe(s)
    decreases |s|
  {
    if s != [] {
      if s[0] == '\\' {
        if SimpleEscape(s[1]).Some? {
          DecodeBodyLength(s[2..]);
        } else {
          var n := UnicodeEscape(s).value.1;
          DecodeBodyLength(s[n..]);
        }
        assert false;
      }
      var rest := DecodeBody(s[1..]).value;
      assert [s[0]] + rest == s;
      assert rest == s[1..];
      FixedBodyIsSafe(s[1..]);
      forall i | 0 <= i < |s| ensures s[i] != '"' && s[i] != '\\' && s[i] >= ' ' {
        if i > 0 { assert s[i] == s[1..][i - 1]; }
      }
    }
  }

  /** Unquoted quoting returns the very token exactly when the token needs no
      escape, so `"` + s + `"` is a JSON string for s precisely if JsonSafe(s). */
  lemma QuoteRoundTrip(s: string)
    ensures Unquote(Quoted(s)) == Success(s) <==> JsonSafe(s)
  {
    var q := Quoted(s);
    assert TrimLeft(q) == q;
    assert TrimRight(q) == q;
    assert q != "null" by { assert q[0] == '"'; }
    assert q[1..|q| - 1] == s;
    if JsonSafe(s) {
      DecodeSafeBody(s);
    } else if DecodeBody(s) == Some(s) {
      FixedBodyIsSafe(s);
    }
  }

  /** Text made of JSON whitespace only. */
  predicate AllWhitespace(w: string)
  {
    forall i | 0 <= i < |w| :: IsWhitespace(w[i])
  }

  /** Any JSON whitespace around the bytes, before and after, does not change
      what is read. */
  lemma UnquoteIgnoresWhitespace(w1: string, s: string, w2: string)
    requires AllWhitespace(w1) && AllWhitespace(w2)
    ensures Unquote(w1 + s + w2) == Unquote(s)
  {
    TrimAround(w1, s, w2);
  }

  lemma TrimAround(w1: string, s: string, w2: string)
    requires AllWhitespace(w1) && AllWhitespace(w2)
    ensures Trim(w1 + s + w2) == Trim(s)
  {
    assert w1 + s + w2 == w1 + (s + w2);
    TrimLeftLeading(w1, s + w2);
    if TrimLeft(s) == [] {
      TrimLeftWhitespace(s, w2);
    } else {
      TrimLeftAppend(s, w2);
      TrimRightTrailing(TrimLeft(s), w2);
    }
  }

  lemma {:induction false} TrimLeftLeading(w: string, u: string)
    requires AllWhitespace(w)
    ensures TrimLeft(w + u) == TrimLeft(u)
  {
    if w == [] {
      assert w + u == u;
    } else {
      assert (w + u)[0] == w[0];
      assert (w + u)[1..] == w[1..] + u;
      assert AllWhitespace(w[1..]) by {
        forall i | 0 <= i < |w[1..]| ensures IsWhitespace(w[1..][i]) { assert w[1..][i] == w[i + 1]; }
      }
      TrimLeftLeading(w[1..], u);
    }
  }

  lemma {:induction false} TrimRightTrailing(l: string, w: string)
    requires AllWhitespace(w)
    ensures TrimRight(l + w) == TrimRight(l)
  {
    if w == [] {
      assert l + w == l;
    } else {
      var n := |l + w|;
      var w' := w[..|w| - 1];
      assert (l + w)[n - 1] == w[|w| - 1];
      assert (l + w)[..n - 1] == l + w';
      assert AllWhitespace(w') by {
        forall i | 0 <= i < |w'| ensures IsWhitespace(w'[i]) { assert w'[i] == w[i]; }
      }
      TrimRightTrailing(l, w');
    }
  }

  lemma {:induction false} TrimLeftAppend(s: string, w: string)
    ensures TrimLeft(s) != [] ==> TrimLeft(s + w) == TrimLeft(s) + w
  {
    if s != [] {
      assert (s + w)[0] == s[0];
      if IsWhitespace(s[0]) {
        assert (s + w)[1..] == s[1..] + w;
        TrimLeftAppend(s[1..], w);
      }
    }
  }

  lemma {:induction false} TrimLeftWhitespace(s: string, w: string)
    requires TrimLeft(s) == []
    requires AllWhitespace(w)
    ensures TrimLeft(s + w) == []
  {
    if s == [] {
      assert s + w == w + [];
      TrimLeftLeading(w, []);
    } else {
      assert IsWhitespace(s[0]);
      assert TrimLeft(s[1..]) == [];
      assert (s + w)[0] == s[0];
      assert (s + w)[1..] == s[1..] + w;
      TrimLeftWhitespace(s[1..], w);
    }
  }

  // ----- Decoded documents ---------------------------------------------------

  /** A JSON value (section 3 of RFC 8259) as encoding/json reads it. Numbers
      keep their text; an object's members are keyed by name, a repeated name
      keeping its last value. encoding/json does the same for a string
      member, but decodes a repeated object member into the struct the first
      one filled, merging their fields; that is not modelled. */
  datatype JsonValue =
    | JNull
    | JBool(b: bool)
    | JNumber(text: string)
    | JString(s: string)
    | JArray(items: seq<JsonValue>)
    | JObject(members: map<string, JsonValue>)

  /** What encoding/json finds at the start of a stream of bytes: nothing but
      whitespace, exactly one value (with whitespace around it), a value
      followed by more text, or text that does not begin with a well-formed
      value. */
  datatype JsonReading = NoValue | Value(value: JsonValue) | ValueThenMore(value: JsonValue) | Malformed
}
