/**
 * String escaping of mkjson (`json_escaped_len`, `json_escape_string`), the
 * escapes of section 7 of RFC 8259: quotation mark, reverse solidus and the
 * five control characters with a short form become a backslash and a
 * letter; any other control character (below U+0020) becomes `\u` and four
 * lowercase hex digits; everything else is copied. A NULL input gives the
 * four characters "null".
 */
module JsonEscape {
  import opened CStrings

  const BACKSPACE: char := 8 as char
  const FORM_FEED: char := 12 as char

  /** The characters with a two-character escape. */
  predicate ShortEscaped(c: char) {
    c == '"' || c == '\\' || c == BACKSPACE || c == FORM_FEED || c == '\n' || c == '\r' || c == '\t'
  }

  /** The letter after the backslash of a short escape. */
  function ShortLetter(c: char): char
    requires ShortEscaped(c)
  {
    if c == BACKSPACE then 'b'
    else if c == FORM_FEED then 'f'
    else if c == '\n' then 'n'
    else if c == '\r' then 'r'
    else if c == '\t' then 't'
    else c
  }

  /** What the escaping switch writes for one character. */
  function EscapeChar(c: char): (e: string)
    ensures |e| == (if ShortEscaped(c) then 2 else if c < ' ' then 6 else 1)
  {
    if ShortEscaped(c) then ['\\', ShortLetter(c)]
    else if c < ' ' then "\\u" + Hex4(c as int)
    else [c]
  }

  /** The escaped form of a string, character by character. */
  function Escape(s: string): string {
    if s == [] then [] else Escape(s[..|s| - 1]) + EscapeChar(s[|s| - 1])
  }

  /** The escaped form of a possibly NULL string. */
  function EscapeOpt(s: Option<CString>): string {
    match s
    case None => "null"
    case Some(t) => Escape(t)
  }

  /** Escaping distributes over concatenation. */
  lemma {:induction false} EscapeAppend(a: string, b: string)
    ensures Escape(a + b) == Escape(a) + Escape(b)
    decreases |b|
  {
    if b != [] {
      var b' := b[..|b| - 1];
      assert (a + b)[..|a + b| - 1] == a + b';
      EscapeAppend(a, b');
    } else {
      assert a + b == a;
    }
  }

  lemma EscapeCons(c: char, s: string)
    ensures Escape([c] + s) == EscapeChar(c) + Escape(s)
  {
    EscapeAppend([c], s);
    assert [c][..0] == [];
  }

  // ---------------------------------------------------------------- the C functions

  /** `json_escaped_len`: the length the escaped string will have. */
  method JsonEscapedLen(str: Option<CString>) returns (len: nat)
    ensures len == |EscapeOpt(str)|
  {
    if str.None? {
      return 4;
    }
    var s := str.value;
    len := 0;
    var i := 0;
    while i < |s|
      invariant 0 <= i <= |s|
      invariant len == |Escape(s[..i])|
    {
      var c := s[i];
      if c == '"' || c == '\\' || c == BACKSPACE || c == FORM_FEED || c == '\n' || c == '\r' || c == '\t' {
        len := len + 2;
      } else if c < ' ' {
        len := len + 6;
      } else {
        len := len + 1;
      }
      assert s[..i + 1][..i] == s[..i];
      i := i + 1;
    }
    assert s[..i] == s;
  }

  /** One case of the escaping switch: the escape of `c` written at `dst`
      (the `\\u` case through `sprintf`, which also writes a NUL after it). */
  method PutEscaped(buf: array<char>, dst: nat, c: char) returns (next: nat)
    requires dst + |EscapeChar(c)| < buf.Length
    modifies buf
    ensures next == dst + |EscapeChar(c)|
    ensures buf[..next] == old(buf[..dst]) + EscapeChar(c)
  {
    if ShortEscaped(c) {
      buf[dst] := '\\';
      buf[dst + 1] := ShortLetter(c);
      next := dst + 2;
    } else if c < ' ' {
      var hex := Hex4(c as int);
      buf[dst] := '\\';
      buf[dst + 1] := 'u';
      buf[dst + 2] := hex[0];
      buf[dst + 3] := hex[1];
      buf[dst + 4] := hex[2];
      buf[dst + 5] := hex[3];
      buf[dst + 6] := '\0';
      next := dst + 6;
    } else {
      buf[dst] := c;
      next := dst + 1;
    }
  }

  /** The escape of the first `i + 1` characters is no longer than the whole. */
  lemma EscapePrefixFits(s: string, i: nat)
    requires i < |s|
    ensures |Escape(s[..i])| + |EscapeChar(s[i])| <= |Escape(s)|
    ensures Escape(s[..i + 1]) == Escape(s[..i]) + EscapeChar(s[i])
  {
    EscapeAppend(s[..i + 1], s[i + 1..]);
    assert s[..i + 1] + s[i + 1..] == s;
    assert s[..i + 1][..i] == s[..i];
  }

  /**
   * `json_escape_string`: a buffer of `json_escaped_len(str) + 1` bytes,
   * filled through the `dst` pointer; the result is the string it holds.
   */
  method JsonEscapeString(str: Option<CString>) returns (r: string)
    ensures r == EscapeOpt(str)
  {
    if str.None? {
      return "null";
    }
    var s := str.value;
    var n := JsonEscapedLen(str);
    var escaped := new char[n + 1];
    var dst := 0;
    var i := 0;
    while i < |s|
      invariant 0 <= i <= |s|
      invariant dst == |Escape(s[..i])| <= n
      invariant escaped[..dst] == Escape(s[..i])
    {
      EscapePrefixFits(s, i);
      dst := PutEscaped(escaped, dst, s[i]);
      i := i + 1;
    }
    escaped[dst] := '\0';
    assert s[..i] == s;
    r := escaped[..dst];
  }

  // ---------------------------------------------------------------- the partner

  /** A character that may stand for itself inside a JSON string. */
  predicate Plain(c: char) {
    c >= ' ' && c != '"' && c != '\\'
  }

  /** The character a short escape's letter stands for. */
  function FromShortLetter(l: char): Option<char> {
    if l == '"' then Some('"')
    else if l == '\\' then Some('\\')
    else if l == 'b' then Some(BACKSPACE)
    else if l == 'f' then Some(FORM_FEED)
    else if l == 'n' then Some('\n')
    else if l == 'r' then Some('\r')
    else if l == 't' then Some('\t')
    else None
  }

  /** Reading the contents of a JSON string back (the escapes this module
      writes, hex digits in lower case), or None when it is not well formed. */
  function Unescape(s: string): Option<string>
    decreases |s|
  {
    if s == [] then Some([])
    else if s[0] == '\\' then
      if |s| >= 2 && FromShortLetter(s[1]).Some? then
        match Unescape(s[2..])
        case Some(t) => Some([FromShortLetter(s[1]).value] + t)
        case None => None
      else if |s| >= 6 && s[1] == 'u' && forall j :: 2 <= j < 6 ==> IsHexDigit(s[j]) then
        var v := Hex4Value(s[2..6]);
        if 0xD800 <= v < 0xE000 then None
        else
          match Unescape(s[6..])
          case Some(t) => Some([v as char] + t)
          case None => None
      else None
    else if Plain(s[0]) then
      match Unescape(s[1..])
      case Some(t) => Some([s[0]] + t)
      case None => None
    else None
  }

  lemma UnescapeChar(c: char, rest: string)
    ensures Unescape(EscapeChar(c) + rest) ==
      match Unescape(rest)
      case Some(t) => Some([c] + t)
      case None => None
  {
    var e := EscapeChar(c);
    var s := e + rest;
    if ShortEscaped(c) {
      assert s[0] == '\\' && s[1] == ShortLetter(c);
      assert s[2..] == rest;
    } else if c < ' ' {
      var h := Hex4(c as int);
      assert s[0] == '\\' && s[1] == 'u';
      assert s[2..6] == h;
      assert s[6..] == rest;
      Hex4RoundTrip(c as int);
    } else {
      assert s[0] == c;
      assert s[1..] == rest;
    }
  }

  /** Unescaping undoes escaping: the escaped string is well formed and
      stands for exactly the original characters. */
  lemma {:induction false} EscapeRoundTrip(s: string)
    ensures Unescape(Escape(s)) == Some(s)
    decreases |s|
  {
    if s != [] {
      EscapeCons(s[0], s[1..]);
      assert [s[0]] + s[1..] == s;
      EscapeRoundTrip(s[1..]);
      UnescapeChar(s[0], Escape(s[1..]));
    }
  }

  /** Distinct strings escape differently. */
  lemma EscapeInjective(a: string, b: string)
    requires Escape(a) == Escape(b)
    ensures a == b
  {
    EscapeRoundTrip(a);
    EscapeRoundTrip(b);
  }

  /** The escaped string holds no raw control character. */
  lemma {:induction false} EscapeHasNoControl(s: string)
    ensures forall i :: 0 <= i < |Escape(s)| ==> Escape(s)[i] >= ' '
  {
    if s != [] {
      var init := s[..|s| - 1];
      EscapeHasNoControl(init);
      var e := EscapeChar(s[|s| - 1]);
      assert forall i :: 0 <= i < |e| ==> e[i] >= ' ';
      assert Escape(s) == Escape(init) + e;
    }
  }

  /** A string is left unchanged exactly when every character is plain. */
  lemma {:induction false} EscapeIdentity(s: string)
    ensures Escape(s) == s <==> forall i :: 0 <= i < |s| ==> Plain(s[i])
  {
    EscapeLength(s);
    if forall i :: 0 <= i < |s| ==> Plain(s[i]) {
      if s != [] {
        var init := s[..|s| - 1];
        assert forall i :: 0 <= i < |init| ==> Plain(init[i]) by {
          forall i | 0 <= i < |init| ensures Plain(init[i]) {
            assert init[i] == s[i];
          }
        }
        EscapeIdentity(init);
        assert s == init + [s[|s| - 1]];
      }
    }
  }

  /** Escaping never shortens, and lengthens whenever some character is not plain. */
  lemma {:induction false} EscapeLength(s: string)
    ensures |Escape(s)| >= |s|
    ensures (exists i :: 0 <= i < |s| && !Plain(s[i])) ==> |Escape(s)| > |s|
  {
    if s != [] {
      var init := s[..|s| - 1];
      EscapeLength(init);
      if exists i :: 0 <= i < |s| && !Plain(s[i]) {
        var i :| 0 <= i < |s| && !Plain(s[i]);
        if i < |init| {
          assert init[i] == s[i];
        }
      }
    }
  }

  lemma EscapeSingle(c: char)
    ensures Escape([c]) == EscapeChar(c)
  {
    assert [c][..0] == [];
  }

  /** The two-character escapes of the table, one by one. */
  lemma EscapeShortTable()
    ensures Escape("\"") == "\\\"" && Escape("\\") == "\\\\"
    ensures Escape([BACKSPACE]) == "\\b" && Escape([FORM_FEED]) == "\\f"
    ensures Escape("\n") == "\\n" && Escape("\r") == "\\r" && Escape("\t") == "\\t"
  {
    EscapeSingle('"');
    EscapeSingle('\\');
    EscapeSingle(BACKSPACE);
    EscapeSingle(FORM_FEED);
    EscapeSingle('\n');
    EscapeSingle('\r');
    EscapeSingle('\t');
  }

  /** Other control characters take the `\u` form; plain characters stay. */
  lemma EscapeHexTable()
    ensures Escape([1 as char]) == "\\u0001" && Escape([0x1F as char]) == "\\u001f"
    ensures Escape("a/") == "a/"
  {
    assert Hex4(1) == "0001" && Hex4(0x1F) == "001f";
    EscapeSingle(1 as char);
    EscapeSingle(0x1F as char);
    EscapeSingle('a');
    assert Escape("a/") == Escape("a") + EscapeChar('/');
  }
}
