/** The tokenizer and the line collector as the source writes them: the text of
    a token is compacted in place, over the input it was read from. */
module RcParser {
  import opened Tokenizer

  /** The C string at `p`. */
  function CString(b: string, p: nat): string
    requires p <= |b|
    decreases |b| - p
  {
    if p == |b| || b[p] == '\0' then "" else [b[p]] + CString(b, p + 1)
  }

  lemma {:induction false} CStringIs(b: string, p: nat, text: string)
    requires p + |text| < |b| && b[p..p + |text|] == text && b[p + |text|] == '\0' && '\0' !in text
    ensures CString(b, p) == text
    decreases |text|
  {
    if text != "" {
      assert b[p] == text[0];
      assert b[p + 1..p + 1 + |text[1..]|] == text[1..];
      CStringIs(b, p + 1, text[1..]);
    }
  }

  /** Token text holds no NUL. */
  lemma {:induction false} TextNulFree(s: string)
    requires Ended(s)
    ensures '\0' !in LexText(s).text
    decreases |s|, 0
  {
    var c := s[0];
    if c == '"' {
      QuoteNulFree(s[1..]);
    } else if c == '\\' {
      EscapeNulFree(s[1..]);
    } else if c != '\0' && !Blank(c) && c != '\n' {
      TextNulFree(s[1..]);
    }
  }

  lemma {:induction false} QuoteNulFree(s: string)
    requires Ended(s)
    ensures '\0' !in LexQuote(s).text
    decreases |s|, 1
  {
    if s[0] == '"' {
      TextNulFree(s[1..]);
    } else if s[0] != '\0' {
      QuoteNulFree(s[1..]);
    }
  }

  lemma {:induction false} EscapeNulFree(s: string)
    requires Ended(s)
    ensures '\0' !in LexEscape(s).text
    decreases |s|, 1
  {
    var c := s[0];
    if c == 'n' || c == 'r' || c == 't' || c == '\\' {
      TextNulFree(s);
    } else if c == '\n' {
      TextNulFree(SkipIndent(s[1..]));
    } else if c != '\0' {
      TextNulFree(s[1..]);
    }
  }

  lemma {:induction false} LexNulFree(s: string)
    requires Ended(s)
    ensures '\0' !in Lex(s).text
    decreases |s|
  {
    if Blank(s[0]) {
      LexNulFree(s[1..]);
    } else if s[0] != '\0' && s[0] != '\n' && s[0] != '#' {
      TextNulFree(s);
    } else if s[0] == '#' {
      CommentNoText(s);
    }
  }

  lemma {:induction false} CommentNoText(s: string)
    requires Ended(s)
    ensures LexComment(s).text == ""
    decreases |s|
  {
    if s[0] != '\0' && s[0] != '\n' {
      CommentNoText(s[1..]);
    }
  }

  /** Prepending in two goes. */
  lemma PrependMore(a: string, k: nat, b: string, j: nat, r: Lexed)
    ensures Prepend(a, k, Prepend(b, j, r)) == Prepend(a + b, k + j, r)
  {
    assert a + (b + r.text) == (a + b) + r.text;
  }

  /** The text stands at `p` of the buffer as a C string, at or before the reader. */
  ghost predicate HoldsAt(b: string, ptr: nat, newline: bool, p: nat, t: string) {
    && p + |t| <= ptr < |b| && b[p..p + |t|] == t && b[p + |t|] == '\0'
    && (p + |t| == ptr ==> !newline)
  }

  /** Inside or outside quotes. */
  function LexFrom(s: string, quoted: bool): Lexed
    requires Ended(s)
  {
    if quoted then LexQuote(s) else LexText(s)
  }

  class ParseState {
    const buf: array<char>
    var ptr: nat
    var text: nat
    var line: nat
    var nextIsNewline: bool

    ghost predicate Valid()
      reads this, buf
    {
      ptr < buf.Length && buf[buf.Length - 1] == '\0'
    }

    constructor (buf: array<char>)
      requires buf.Length > 0 && buf[buf.Length - 1] == '\0'
      ensures Valid() && this.buf == buf && ptr == 0 && line == 1 && !nextIsNewline
    {
      this.buf := buf;
      ptr, text, line, nextIsNewline := 0, 0, 1, false;
    }

    /** Write one character of the token, behind the reader. */
    method Write(s: nat, c: char)
      requires s < buf.Length && (s == buf.Length - 1 ==> c == '\0')
      modifies buf
      ensures buf[..] == old(buf[..])[s := c]
    {
      buf[s] := c;
    }

    /** What the loop of the tokenizer keeps: the writer at `s` has not passed the reader at `x`. */
    ghost predicate Reading(start: nat, s: nat, x: nat, quoted: bool, lines: nat, whole: string)
      reads this, buf
    {
      && start <= s <= x < buf.Length && buf[buf.Length - 1] == '\0' && Ended(whole)
      && LexText(whole) == Prepend(buf[start..s], lines, LexFrom(buf[x..], quoted))
    }

    /** One turn of the loop inside quotes. */
    method QuotedChar(start: nat, s: nat, x: nat, ghost lines: nat, ghost whole: string) returns (s': nat, x': nat, quoted: bool)
      requires Reading(start, s, x, true, lines, whole) && buf[x] != '\0'
      modifies buf
      ensures Reading(start, s', x', quoted, lines, whole)
      ensures x < x' && buf[x'..] == old(buf[x'..]) && buf[..start] == old(buf[..start])
    {
      ghost var rest := buf[x..];
      assert rest[0] == buf[x] && rest[1..] == buf[x+1..];
      if buf[x] == '"' {
        return s, x + 1, false;
      }
      PrependMore(buf[start..s], lines, [buf[x]], 0, LexQuote(rest[1..]));
      ghost var acc := buf[start..s] + [buf[x]];
      Write(s, buf[x]);
      assert buf[start..s+1] == acc && buf[x+1..] == rest[1..];
      return s + 1, x + 1, true;
    }

    /** One turn of the loop at a character that stands for itself. */
    method PlainChar(start: nat, s: nat, x: nat, ghost lines: nat, ghost whole: string) returns (s': nat, x': nat)
      requires Reading(start, s, x, false, lines, whole)
      requires buf[x] != '\0' && !Blank(buf[x]) && buf[x] != '\n' && buf[x] != '"' && buf[x] != '\\'
      modifies buf
      ensures Reading(start, s', x', false, lines, whole)
      ensures x < x' && buf[x'..] == old(buf[x'..]) && buf[..start] == old(buf[..start])
    {
      ghost var rest := buf[x..];
      assert rest[0] == buf[x] && rest[1..] == buf[x+1..];
      PrependMore(buf[start..s], lines, [buf[x]], 0, LexText(rest[1..]));
      ghost var acc := buf[start..s] + [buf[x]];
      Write(s, buf[x]);
      assert buf[start..s+1] == acc && buf[x+1..] == rest[1..];
      return s + 1, x + 1;
    }

    /** The end of an escape that yields `c`, with the reader moved on to `x`. */
    method EscapeYields(start: nat, s: nat, x: nat, c: char, ghost lines: nat, ghost whole: string) returns (s': nat)
      requires start <= s < x < buf.Length && buf[buf.Length - 1] == '\0' && Ended(whole)
      requires LexText(whole) == Prepend(buf[start..s], lines, Prepend([c], 0, LexText(buf[x..])))
      modifies buf
      ensures Reading(start, s', x, false, lines, whole)
      ensures buf[x..] == old(buf[x..]) && buf[..start] == old(buf[..start])
    {
      PrependMore(buf[start..s], lines, [c], 0, LexText(buf[x..]));
      ghost var rest := buf[x..];
      ghost var acc := buf[start..s] + [c];
      Write(s, c);
      assert buf[start..s+1] == acc && buf[x..] == rest;
      s' := s + 1;
    }

    /** One turn of the loop at a backslash before a character it yields. */
    method EscapedChar(start: nat, s: nat, x: nat, ghost lines: nat, ghost whole: string) returns (s': nat, x': nat)
      requires Reading(start, s, x, false, lines, whole)
      requires buf[x] == '\\' && x + 1 < buf.Length && buf[x + 1] !in {'\0', '\r', '\n'}
      modifies buf
      ensures Reading(start, s', x', false, lines, whole)
      ensures x < x' && buf[x'..] == old(buf[x'..]) && buf[..start] == old(buf[..start])
    {
      hide LexText;
      ghost var rest := buf[x..];
      assert rest[1] == buf[x+1] && rest[1..] == buf[x+1..] && rest[2..] == buf[x+2..];
      TextAtEscape(rest);
      var c := buf[x+1];
      if c == 'n' || c == 'r' || c == 't' || c == '\\' {
        x' := x + 1;
        s' := EscapeYields(start, s, x', if c == 'n' then '\n' else if c == 'r' then '\r' else if c == 't' then '\t' else c, lines, whole);
      } else {
        x' := x + 2;
        s' := EscapeYields(start, s, x', c, lines, whole);
      }
    }

    /** One turn of the loop at a backslash before a line end; `more` counts the line it continues over. */
    method EscapedLineEnd(start: nat, s: nat, x: nat, ghost lines: nat, ghost whole: string) returns (x': nat, more: nat)
      requires Reading(start, s, x, false, lines, whole)
      requires buf[x] == '\\' && x + 1 < buf.Length && (buf[x + 1] == '\r' || buf[x + 1] == '\n')
      ensures Reading(start, s, x', false, lines + more, whole) && x < x'
    {
      hide LexText;
      ghost var rest := buf[x..];
      assert rest[1] == buf[x+1] && rest[2] == buf[x+2] && rest[2..] == buf[x+2..];
      TextAtLineEnd(rest);
      assert buf[start..s] + "" == buf[start..s];
      if buf[x+1] == '\n' {
        PrependMore(buf[start..s], lines, "", 1, LexText(SkipIndent(rest[2..])));
        x' := SkipBlanks(x + 2);
        more := 1;
      } else if buf[x+2] == '\n' {
        PrependMore(buf[start..s], lines, "", 1, LexText(rest[2..]));
        x', more := x + 2, 1;
      } else {
        x', more := x + 2, 0;
      }
    }

    method SkipBlanks(x: nat) returns (x': nat)
      requires x < buf.Length && buf[buf.Length - 1] == '\0'
      ensures x <= x' < buf.Length && buf[x'..] == SkipIndent(buf[x..])
    {
      x' := x;
      while buf[x'] == ' ' || buf[x'] == '\t'
        invariant x <= x' < buf.Length && SkipIndent(buf[x'..]) == SkipIndent(buf[x..])
        decreases buf.Length - x'
      {
        assert buf[x'..][1..] == buf[x'+1..];
        x' := x' + 1;
      }
    }

    /** The loop has come to the end of the token, or of the file. */
    predicate AtEnd(x: nat, quoted: bool)
      requires x < buf.Length && buf[buf.Length - 1] == '\0'
      reads this, buf
    {
      if quoted then buf[x] == '\0'
      else buf[x] == '\0' || (buf[x] == '\\' && buf[x+1] == '\0') || Blank(buf[x]) || buf[x] == '\n'
    }

    /** One turn of the loop. */
    method Turn(start: nat, s: nat, x: nat, quoted: bool, ghost lines: nat, ghost whole: string)
        returns (s': nat, x': nat, quoted': bool, more: nat)
      requires Reading(start, s, x, quoted, lines, whole) && !AtEnd(x, quoted)
      modifies buf
      ensures Reading(start, s', x', quoted', lines + more, whole)
      ensures x < x' && buf[x'..] == old(buf[x'..]) && buf[..start] == old(buf[..start])
    {
      hide LexText, LexQuote;
      s', x', quoted', more := s, x, false, 0;
      if quoted {
        s', x', quoted' := QuotedChar(start, s, x, lines, whole);
      } else if buf[x] == '"' {
        TextAtQuote(buf[x..]);
        assert buf[x..][1..] == buf[x+1..];
        quoted', x' := true, x + 1;
      } else if buf[x] == '\\' {
        if buf[x+1] == '\r' || buf[x+1] == '\n' {
          x', more := EscapedLineEnd(start, s, x, lines, whole);
        } else {
          s', x' := EscapedChar(start, s, x, lines, whole);
        }
      } else {
        s', x' := PlainChar(start, s, x, lines, whole);
      }
    }

    /** The text of a token that starts at `start`. */
    method ReadText(start: nat) returns (t: Token)
      requires start < buf.Length && buf[buf.Length - 1] == '\0'
      modifies this, buf
      ensures Valid() && buf[..start] == old(buf[..start])
      ensures
        var r := LexText(old(buf[start..]));
        && t == r.token && buf[ptr..] == r.rest && line == old(line) + r.lines
        && (t.Text? ==> nextIsNewline == r.newline && text == start && Holds(start, r.text))
    {
      hide LexText, LexQuote;
      ghost var whole := buf[start..];
      text := start;
      var s, x, quoted, lines := start, start, false, 0;
      assert buf[start..s] == "" && "" + LexText(whole).text == LexText(whole).text;
      while !AtEnd(x, quoted)
        invariant Reading(start, s, x, quoted, lines, whole)
        invariant buf[..start] == old(buf[..start]) && line == old(line) && text == start
        decreases buf.Length - x
      {
        var more;
        s, x, quoted, more := Turn(start, s, x, quoted, lines, whole);
        lines := lines + more;
      }
      line := line + lines;
      t := Finish(start, s, x, quoted, lines, whole);
    }

    /** What follows the loop: an open quote ends the file, anything else the token. */
    method Finish(start: nat, s: nat, x: nat, quoted: bool, ghost lines: nat, ghost whole: string) returns (t: Token)
      requires Reading(start, s, x, quoted, lines, whole) && AtEnd(x, quoted)
      modifies this`ptr, this`nextIsNewline, buf
      ensures Valid() && buf[..start] == old(buf[..start])
      ensures
        var r := LexText(whole);
        && t == r.token && buf[ptr..] == r.rest && r.lines == lines
        && (t.Text? ==> nextIsNewline == r.newline && Holds(start, r.text))
    {
      hide LexText, LexQuote;
      ghost var acc := buf[start..s];
      assert acc + "" == acc;
      if quoted {
        QuoteAtNul(buf[x..]);
        ptr := x;
        return Eof;
      }
      nextIsNewline := buf[x] == '\n';
      var x' := if buf[x] == '\0' then x else x + 1;
      assert buf[x] != '\0' ==> buf[x..][1..] == buf[x+1..];
      if Blank(buf[x]) || buf[x] == '\n' {
        TextAtGap(buf[x..]);
      } else {
        TextAtNul(buf[x..]);
      }
      EndText(start, s, x');
      t := Text;
    }

    ghost predicate Holds(p: nat, t: string)
      reads this, buf
    {
      HoldsAt(buf[..], ptr, nextIsNewline, p, t)
    }

    /** The reader stops at `x`, and a NUL ends the text at `s`. */
    method EndText(start: nat, s: nat, x: nat)
      requires start <= s <= x < buf.Length && buf[buf.Length - 1] == '\0'
      requires s == x ==> buf[x] == '\0' && !nextIsNewline
      modifies this`ptr, buf
      ensures Valid() && ptr == x && buf[x..] == old(buf[x..]) && buf[..start] == old(buf[..start])
      ensures Holds(start, old(buf[start..s]))
    {
      ghost var t := buf[start..s];
      ptr := x;
      Write(s, '\0');
      assert buf[start..s] == t;
    }

    method NextToken() returns (t: Token)
      requires Valid()
      modifies this, buf
      ensures Valid() && buf[..old(ptr)] == old(buf[..ptr])
      ensures old(nextIsNewline) ==> t.Newline? && !nextIsNewline && ptr == old(ptr) && buf[..] == old(buf[..]) && line == old(line)
      ensures !old(nextIsNewline) ==>
        var r := Lex(old(buf[ptr..]));
        && t == r.token && buf[ptr..] == r.rest && line == old(line) + r.lines
        && (t.Text? ==> old(ptr) <= text && nextIsNewline == r.newline && Holds(text, r.text))
        && (t.Newline? ==> !nextIsNewline)
    {
      if nextIsNewline {
        nextIsNewline := false;
        return Newline;
      }
      hide LexText, LexComment;
      var x := ptr;
      while Blank(buf[x])
        invariant ptr <= x < buf.Length && Lex(buf[x..]) == Lex(buf[ptr..])
        decreases buf.Length - x
      {
        assert buf[x..][1..] == buf[x+1..];
        x := x + 1;
      }
      assert buf[x..][0] == buf[x] && (buf[x] != '\0' ==> buf[x..][1..] == buf[x+1..]);
      if buf[x] == '\0' {
        ptr := x;
        t := Eof;
      } else if buf[x] == '\n' {
        ptr := x + 1;
        t := Newline;
      } else if buf[x] == '#' {
        t := SkipComment(x);
      } else {
        t := ReadText(x);
        assert buf[..old(ptr)] == buf[..x][..old(ptr)];
      }
    }

    method SkipComment(start: nat) returns (t: Token)
      requires start < buf.Length && buf[buf.Length - 1] == '\0'
      modifies this`ptr
      ensures Valid()
      ensures
        var r := LexComment(buf[start..]);
        t == r.token && buf[ptr..] == r.rest && r.lines == 0
    {
      hide LexComment;
      var x := start;
      while buf[x] != '\0' && buf[x] != '\n'
        invariant buf[buf.Length - 1] == '\0' && start <= x < buf.Length
        invariant LexComment(buf[x..]) == LexComment(buf[start..])
        decreases buf.Length - x
      {
        CommentAt(buf[x..]);
        assert buf[x..][1..] == buf[x+1..];
        x := x + 1;
      }
      CommentAt(buf[x..]);
      if buf[x] == '\n' {
        assert buf[x..][1..] == buf[x+1..];
        ptr := x + 1;
        t := Newline;
      } else {
        ptr := x;
        t := Eof;
      }
    }
  }

  // ---- the tokenizer at one character -------------------------------------

  lemma CommentAt(s: string)
    requires Ended(s)
    ensures LexComment(s) ==
      if s[0] == '\0' then Lexed(Eof, "", s, 0, false)
      else if s[0] == '\n' then Lexed(Newline, "", s[1..], 0, false) else LexComment(s[1..])
  {
  }

  lemma QuoteAtNul(s: string)
    requires Ended(s) && s[0] == '\0'
    ensures LexQuote(s) == Lexed(Eof, "", s, 0, false)
  {
  }

  lemma TextAtNul(s: string)
    requires Ended(s) && (s[0] == '\0' || (s[0] == '\\' && s[1] == '\0'))
    ensures LexText(s) == Lexed(Text, "", if s[0] == '\0' then s else s[1..], 0, false)
  {
  }

  lemma TextAtGap(s: string)
    requires Ended(s) && (Blank(s[0]) || s[0] == '\n')
    ensures LexText(s) == Lexed(Text, "", s[1..], 0, s[0] == '\n')
  {
  }

  lemma TextAtEscape(s: string)
    requires Ended(s) && s[0] == '\\' && s[1] !in {'\0', '\r', '\n'}
    ensures s[1] == 'n' ==> LexText(s) == Prepend("\n", 0, LexText(s[1..]))
    ensures s[1] == 'r' ==> LexText(s) == Prepend("\r", 0, LexText(s[1..]))
    ensures s[1] == 't' ==> LexText(s) == Prepend("\t", 0, LexText(s[1..]))
    ensures s[1] == '\\' ==> LexText(s) == Prepend("\\", 0, LexText(s[1..]))
    ensures s[1] !in {'n', 'r', 't', '\\'} ==> LexText(s) == Prepend([s[1]], 0, LexText(s[2..]))
  {
    assert s[1..][1..] == s[2..];
  }

  lemma TextAtLineEnd(s: string)
    requires Ended(s) && s[0] == '\\' && (s[1] == '\r' || s[1] == '\n')
    ensures s[1] == '\n' ==> LexText(s) == Prepend("", 1, LexText(SkipIndent(s[2..])))
    ensures s[1] == '\r' ==>
      LexText(s) == if s[2] == '\n' then Prepend("", 1, LexText(s[2..])) else LexText(s[2..])
  {
    assert s[1..][1..] == s[2..] && (s[1] == '\r' ==> s[1..][1] == s[2]);
  }

  lemma TextAtQuote(s: string)
    requires Ended(s) && s[0] == '"'
    ensures LexText(s) == LexQuote(s[1..])
  {
  }

  // ---- the line collector -------------------------------------------------

  method ReadString(buf: array<char>, p: nat) returns (text: string)
    requires p < buf.Length && buf[buf.Length - 1] == '\0'
    ensures text == CString(buf[..], p)
  {
    text := "";
    var x := p;
    while buf[x] != '\0'
      invariant p <= x < buf.Length && text + CString(buf[..], x) == CString(buf[..], p)
      decreases buf.Length - x
    {
      text := text + [buf[x]];
      x := x + 1;
    }
  }

  method ReadStrings(buf: array<char>, args: seq<nat>) returns (texts: seq<string>)
    requires buf.Length > 0 && buf[buf.Length - 1] == '\0' && forall k | 0 <= k < |args| :: args[k] < buf.Length
    ensures |texts| == |args| && forall k | 0 <= k < |args| :: texts[k] == CString(buf[..], args[k])
  {
    texts := [];
    while |texts| < |args|
      invariant |texts| <= |args| && forall k | 0 <= k < |texts| :: texts[k] == CString(buf[..], args[k])
    {
      var text := ReadString(buf, args[|texts|]);
      texts := texts + [text];
    }
  }

  /** The arguments point at the words of the current line. */
  ghost predicate PointAt(b: string, ptr: nat, newline: bool, args: seq<nat>, words: seq<string>) {
    && |args| == |words| <= MAXARGS
    && forall k | 0 <= k < |args| :: '\0' !in words[k] && HoldsAt(b, ptr, newline, args[k], words[k])
  }

  lemma {:induction false} PointersRead(b: string, ptr: nat, newline: bool, args: seq<nat>, words: seq<string>, k: nat)
    requires PointAt(b, ptr, newline, args, words) && k < |args|
    ensures args[k] < |b| && CString(b, args[k]) == words[k]
  {
    assert HoldsAt(b, ptr, newline, args[k], words[k]);
    CStringIs(b, args[k], words[k]);
  }

  /** Reading on leaves the words before the reader where they are. */
  lemma {:induction false} PointersStay(b: string, ptr: nat, newline: bool, b': string, ptr': nat, newline': bool, args: seq<nat>, words: seq<string>)
    requires PointAt(b, ptr, newline, args, words) && ptr <= ptr' < |b'| == |b| && b'[..ptr] == b[..ptr]
    requires newline || b[ptr] != '\0'
    ensures PointAt(b', ptr', newline', args, words)
  {
    forall k | 0 <= k < |args| ensures HoldsAt(b', ptr', newline', args[k], words[k]) {
      assert HoldsAt(b, ptr, newline, args[k], words[k]);
      var e := args[k] + |words[k]|;
      assert e < ptr;
      assert b'[args[k]..e] == b'[..ptr][args[k]..e] && b[args[k]..e] == b[..ptr][args[k]..e];
      assert b'[e] == b'[..ptr][e] && b[e] == b[..ptr][e];
    }
  }

  /** The collector's next call, if the next token leads to one. */
  lemma CallsNext(s: string, newline: bool, words: seq<string>)
    requires Ended(s)
    ensures newline ==> Calls(s, true, words) == (if words != [] then [words] else []) + Calls(s, false, [])
    ensures !newline && Lex(s).token.Eof? ==> Calls(s, false, words) == [[]]
    ensures !newline && Lex(s).token.Newline? ==>
      Calls(s, false, words) == (if words != [] then [words] else []) + Calls(Lex(s).rest, false, [])
    ensures !newline && Lex(s).token.Text? ==>
      Calls(s, false, words) ==
      Calls(Lex(s).rest, Lex(s).newline, if |words| < MAXARGS then words + [Lex(s).text] else words)
    ensures !Lex(s).token.Eof? ==> s[0] != '\0' && |Lex(s).rest| < |s| && '\0' !in Lex(s).text
  {
    if s[0] != '\0' {
      LexProgress(s);
    }
    LexNulFree(s);
  }

  method ReadLine(st: ParseState, args: seq<nat>, ghost words: seq<string>) returns (line: seq<string>)
    requires st.Valid() && PointAt(st.buf[..], st.ptr, st.nextIsNewline, args, words)
    ensures line == words
  {
    forall k | 0 <= k < |args| ensures args[k] < st.buf.Length && CString(st.buf[..], args[k]) == words[k] {
      PointersRead(st.buf[..], st.ptr, st.nextIsNewline, args, words, k);
    }
    line := ReadStrings(st.buf, args);
  }

  /** The next token, with the words collected so far left in place. */
  method Advance(st: ParseState, args: seq<nat>, ghost words: seq<string>) returns (t: Token)
    requires st.Valid() && PointAt(st.buf[..], st.ptr, st.nextIsNewline, args, words)
    modifies st, st.buf
    ensures st.Valid()
    ensures t == if old(st.nextIsNewline) then Newline else Lex(old(st.buf[st.ptr..])).token
    ensures old(st.nextIsNewline) ==> !st.nextIsNewline && st.ptr == old(st.ptr) && st.buf[..] == old(st.buf[..])
    ensures !old(st.nextIsNewline) && !t.Eof? ==>
      var r := Lex(old(st.buf[st.ptr..]));
      && st.buf[st.ptr..] == r.rest && st.ptr > old(st.ptr) && st.nextIsNewline == r.newline
      && (t.Text? ==> HoldsAt(st.buf[..], st.ptr, st.nextIsNewline, st.text, r.text))
    ensures !t.Eof? ==> PointAt(st.buf[..], st.ptr, st.nextIsNewline, args, words)
  {
    hide Lex, PointAt;
    ghost var b, ptr, newline := st.buf[..], st.ptr, st.nextIsNewline;
    ghost var rest := st.buf[st.ptr..];
    assert rest[0] == b[ptr];
    CallsNext(rest, newline, words);
    t := st.NextToken();
    if !t.Eof? {
      PointersStay(b, ptr, newline, st.buf[..], st.ptr, st.nextIsNewline, args, words);
    }
  }

  /** parse_config: the arguments of its calls to parse_line, in order. */
  method ParseConfig(buf: array<char>) returns (calls: seq<seq<string>>)
    requires buf.Length > 0 && buf[buf.Length - 1] == '\0'
    modifies buf
    ensures calls == Calls(old(buf[..]), false, [])
  {
    hide Lex, Calls;
    ghost var whole := buf[..];
    var st := new ParseState(buf);
    assert buf[0..] == whole;
    calls := [];
    var args: seq<nat> := [];
    ghost var words: seq<string> := [];
    while true
      invariant fresh(st) && st.buf == buf && st.Valid() && PointAt(buf[..], st.ptr, st.nextIsNewline, args, words)
      invariant calls + Calls(buf[st.ptr..], st.nextIsNewline, words) == Calls(whole, false, [])
      decreases buf.Length - st.ptr, st.nextIsNewline
    {
      ghost var rest := buf[st.ptr..];
      CallsNext(rest, st.nextIsNewline, words);
      var t := Advance(st, args, words);
      match t {
        case Eof =>
          calls := calls + [[]];
          return;
        case Newline =>
          ghost var more := Calls(buf[st.ptr..], false, []);
          assert [] + more == more && calls + ([words] + more) == (calls + [words]) + more;
          if args != [] {
            var line := ReadLine(st, args, words);
            calls := calls + [line];
          }
          args, words := [], [];
        case Text =>
          if |args| < MAXARGS {
            args := args + [st.text];
            words := words + [Lex(rest).text];
          }
      }
    }
  }
}
