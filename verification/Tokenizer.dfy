/** The tokenizer of init's rc files and the line collector of ueventd, as
    functions of the text that is still unread. */
module Tokenizer {
  datatype Token = Eof | Text | Newline

  /** A token, the text that follows it, the lines it continued over, and
      whether the newline after it is still to be reported. */
  datatype Lexed = Lexed(token: Token, text: string, rest: string, lines: nat, newline: bool)

  const MAXARGS: nat := 5

  /** C text: it ends with a NUL. */
  predicate Ended(s: string) {
    |s| > 0 && s[|s| - 1] == '\0'
  }

  predicate Blank(c: char) {
    c == ' ' || c == '\t' || c == '\r'
  }

  function Prepend(text: string, lines: nat, r: Lexed): Lexed {
    r.(text := text + r.text, lines := lines + r.lines)
  }

  /** Skip what may follow an escaped line end. */
  function SkipIndent(s: string): (r: string)
    requires Ended(s)
    ensures Ended(r) && |r| <= |s|
  {
    if s[0] == ' ' || s[0] == '\t' then SkipIndent(s[1..]) else s
  }

  // ---- next_token ---------------------------------------------------------

  /** The text of a token, from some point inside it. */
  function LexText(s: string): (r: Lexed)
    requires Ended(s)
    ensures Ended(r.rest) && |r.rest| <= |s| && (r.newline ==> |r.rest| < |s|) && !r.token.Newline?
    decreases |s|, 0
  {
    var c := s[0];
    if c == '\0' then Lexed(Text, "", s, 0, false)
    else if Blank(c) then Lexed(Text, "", s[1..], 0, false)
    else if c == '\n' then Lexed(Text, "", s[1..], 0, true)
    else if c == '"' then LexQuote(s[1..])
    else if c == '\\' then LexEscape(s[1..])
    else Prepend([c], 0, LexText(s[1..]))
  }

  /** Inside quotes; a quote that never closes ends the file. */
  function LexQuote(s: string): (r: Lexed)
    requires Ended(s)
    ensures Ended(r.rest) && |r.rest| <= |s| && (r.newline ==> |r.rest| < |s|) && !r.token.Newline?
    decreases |s|, 1
  {
    if s[0] == '\0' then Lexed(Eof, "", s, 0, false)
    else if s[0] == '"' then LexText(s[1..])
    else Prepend([s[0]], 0, LexQuote(s[1..]))
  }

  /** After a backslash. The four named escapes leave their letter unread. */
  function LexEscape(s: string): (r: Lexed)
    requires Ended(s)
    ensures Ended(r.rest) && |r.rest| <= |s| && (r.newline ==> |r.rest| < |s|) && !r.token.Newline?
    decreases |s|, 1
  {
    var c := s[0];
    if c == '\0' then Lexed(Text, "", s, 0, false)
    else if c == 'n' then Prepend("\n", 0, LexText(s))
    else if c == 'r' then Prepend("\r", 0, LexText(s))
    else if c == 't' then Prepend("\t", 0, LexText(s))
    else if c == '\\' then Prepend("\\", 0, LexText(s))
    else if c == '\r' then
      if s[1] != '\n' then LexText(s[1..]) else Prepend("", 1, LexText(s[1..]))
    else if c == '\n' then Prepend("", 1, LexText(SkipIndent(s[1..])))
    else Prepend([c], 0, LexText(s[1..]))
  }

  function LexComment(s: string): (r: Lexed)
    requires Ended(s)
    ensures Ended(r.rest) && |r.rest| <= |s| && (r.token.Newline? ==> |r.rest| < |s|) && !r.newline && !r.token.Text?
  {
    if s[0] == '\0' then Lexed(Eof, "", s, 0, false)
    else if s[0] == '\n' then Lexed(Newline, "", s[1..], 0, false)
    else LexComment(s[1..])
  }

  function Lex(s: string): (r: Lexed)
    requires Ended(s)
    ensures Ended(r.rest) && |r.rest| <= |s|
    ensures r.token.Newline? || r.newline ==> |r.rest| < |s|
    ensures r.token.Newline? ==> !r.newline
  {
    var c := s[0];
    if c == '\0' then Lexed(Eof, "", s, 0, false)
    else if c == '\n' then Lexed(Newline, "", s[1..], 0, false)
    else if Blank(c) then Lex(s[1..])
    else if c == '#' then LexComment(s)
    else LexText(s)
  }

  // ---- parse_config -------------------------------------------------------

  lemma {:induction false} TextProgress(s: string)
    requires Ended(s) && s[0] != '\0'
    ensures |LexText(s).rest| < |s|
    decreases |s|
  {
    var c := s[0];
    if c == '\\' {
      if s[1] == '\\' {
        TextProgress(s[1..]);
      }
    }
  }

  lemma {:induction false} LexProgress(s: string)
    requires Ended(s) && s[0] != '\0'
    ensures |Lex(s).rest| < |s|
    decreases |s|
  {
    if !Blank(s[0]) && s[0] != '\n' && s[0] != '#' {
      TextProgress(s);
    } else if s[0] == '#' {
      assert LexComment(s) == LexComment(s[1..]);
    }
  }

  lemma {:induction false} TextIsNotAtEnd(s: string)
    requires Ended(s) && Lex(s).token.Text?
    ensures |Lex(s).rest| < |s|
    decreases |s|
  {
    LexProgress(s);
  }

  /** The calls that the collector makes for the rest of the file, given the
      words of the current line: one for each line with words, and one without
      arguments at the end. A last line without its newline gets no call. */
  function Calls(s: string, newline: bool, args: seq<string>): seq<seq<string>>
    requires Ended(s)
    decreases |s|, newline
  {
    if newline then
      (if args != [] then [args] else []) + Calls(s, false, [])
    else
      var r := Lex(s);
      match r.token
      case Eof => [[]]
      case Newline => (if args != [] then [args] else []) + Calls(r.rest, false, [])
      case Text =>
        TextIsNotAtEnd(s);
        Calls(r.rest, r.newline, if |args| < MAXARGS then args + [r.text] else args)
  }
}
