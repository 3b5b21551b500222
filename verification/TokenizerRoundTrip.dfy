/** A printer for rc files, and the proof that tokenizing and collecting undo it. */
module TokenizerRoundTrip {
  import opened Tokenizer

  /** Ways to write part of a word. */
  datatype Segment = Bare(c: char) | Quoted(q: string) | Escaped(c: char)

  /** A word and the blanks after it. */
  datatype Word = Word(segments: seq<Segment>, gap: string)

  datatype Line = Line(indent: string, words: seq<Word>, comment: string)

  // ---- printing -----------------------------------------------------------

  function ShowSegment(g: Segment): string {
    match g
    case Bare(c) => [c]
    case Quoted(q) => "\"" + q + "\""
    case Escaped(c) => ['\\', c]
  }

  function Show(segments: seq<Segment>): string {
    if segments == [] then "" else ShowSegment(segments[0]) + Show(segments[1..])
  }

  function ShowWords(words: seq<Word>): string {
    if words == [] then "" else Show(words[0].segments) + words[0].gap + ShowWords(words[1..])
  }

  function ShowLine(line: Line): string {
    line.indent + ShowWords(line.words) + line.comment + "\n"
  }

  function ShowAll(lines: seq<Line>): string {
    if lines == [] then "" else ShowLine(lines[0]) + ShowAll(lines[1..])
  }

  // ---- what is printed ----------------------------------------------------

  function SegmentValue(g: Segment): string {
    match g
    case Bare(c) => [c]
    case Quoted(q) => q
    case Escaped(c) => [c]
  }

  function Value(segments: seq<Segment>): string {
    if segments == [] then "" else SegmentValue(segments[0]) + Value(segments[1..])
  }

  function Values(words: seq<Word>): seq<string> {
    if words == [] then [] else [Value(words[0].segments)] + Values(words[1..])
  }

  /** The calls the lines should lead to. */
  function Delivered(lines: seq<Line>): seq<seq<string>> {
    if lines == [] then [[]]
    else (if lines[0].words != [] then [FirstArgs(Values(lines[0].words))] else []) + Delivered(lines[1..])
  }

  function FirstArgs(args: seq<string>): seq<string> {
    if |args| <= MAXARGS then args else args[..MAXARGS]
  }

  // ---- what may be printed ------------------------------------------------

  predicate PlainChar(c: char) {
    c != '\0' && !Blank(c) && c != '\n' && c != '"' && c != '\\'
  }

  predicate SegmentOk(g: Segment) {
    match g
    case Bare(c) => PlainChar(c)
    case Quoted(q) => '"' !in q && '\0' !in q
    case Escaped(c) => c !in {'\0', 'n', 'r', 't', '\\', '\r', '\n'}
  }

  predicate Blanks(s: string) {
    forall i | 0 <= i < |s| :: Blank(s[i])
  }

  /** A word starts with something other than a bare comment sign, and is followed by a blank unless it is the last. */
  predicate WordsOk(words: seq<Word>, closed: bool) {
    words == [] ||
    (&& words[0].segments != [] && words[0].segments[0] != Bare('#')
     && (forall i | 0 <= i < |words[0].segments| :: SegmentOk(words[0].segments[i]))
     && Blanks(words[0].gap) && (words[0].gap != "" || (words[1..] == [] && closed))
     && WordsOk(words[1..], closed))
  }

  predicate LineOk(line: Line) {
    && Blanks(line.indent) && WordsOk(line.words, line.comment == "")
    && (line.comment == "" || (line.comment[0] == '#' && '\n' !in line.comment && '\0' !in line.comment))
  }

  ghost predicate LinesOk(lines: seq<Line>) {
    forall i | 0 <= i < |lines| :: LineOk(lines[i])
  }

  // ---- words --------------------------------------------------------------

  lemma AtBackslash(s: string)
    requires Ended(s) && s[0] == '\\'
    ensures LexText(s) == LexEscape(s[1..])
  {
  }

  lemma {:induction false} QuoteReads(q: string, rest: string)
    requires '"' !in q && '\0' !in q && Ended(rest)
    ensures Ended(q + "\"" + rest) && LexQuote(q + "\"" + rest) == Prepend(q, 0, LexText(rest))
    decreases |q|
  {
    hide LexText;
    var s := q + "\"" + rest;
    if q == "" {
      assert s[0] == '"' && s[1..] == rest;
      assert "" + LexText(rest).text == LexText(rest).text;
    } else {
      var t := q[1..] + "\"" + rest;
      assert s[0] == q[0] && s[1..] == t;
      QuoteReads(q[1..], rest);
      PrependTwice([q[0]], q[1..], LexText(rest));
      assert [q[0]] + q[1..] == q;
    }
  }

  lemma EscapedReads(c: char, rest: string)
    requires SegmentOk(Escaped(c)) && Ended(rest)
    ensures Ended(['\\', c] + rest) && LexText(['\\', c] + rest) == Prepend([c], 0, LexText(rest))
  {
    hide LexText;
    var s := ['\\', c] + rest;
    var t := [c] + rest;
    assert s[1..] == t && t[0] == c && t[1..] == rest;
    AtBackslash(s);
  }

  lemma SegmentReads(g: Segment, rest: string)
    requires SegmentOk(g) && Ended(rest)
    ensures Ended(ShowSegment(g) + rest)
    ensures LexText(ShowSegment(g) + rest) == Prepend(SegmentValue(g), 0, LexText(rest))
  {
    var s := ShowSegment(g) + rest;
    match g
    case Bare(c) => assert s[0] == c && s[1..] == rest;
    case Quoted(q) =>
      assert s[0] == '"' && s[1..] == q + "\"" + rest;
      QuoteReads(q, rest);
    case Escaped(c) => EscapedReads(c, rest);
  }

  lemma PrependTwice(a: string, b: string, r: Lexed)
    ensures Prepend(a, 0, Prepend(b, 0, r)) == Prepend(a + b, 0, r)
  {
    assert a + (b + r.text) == (a + b) + r.text;
  }

  lemma Regroup(a: string, b: string, c: string, rest: string)
    ensures (a + b + c) + rest == a + b + (c + rest)
    ensures b == "" ==> (a + c) + rest == a + (c + rest)
  {
  }

  lemma RegroupLine(words: string, comment: string, rest: string)
    ensures words + comment + "\n" + rest == words + (comment + "\n" + rest)
  {
  }

  lemma {:induction false} WordReads(segments: seq<Segment>, rest: string)
    requires Ended(rest) && forall i | 0 <= i < |segments| :: SegmentOk(segments[i])
    ensures Ended(Show(segments) + rest)
    ensures LexText(Show(segments) + rest) == Prepend(Value(segments), 0, LexText(rest))
    decreases |segments|
  {
    hide LexText, ShowSegment, SegmentValue, SegmentOk;
    if segments == [] {
      assert Show(segments) + rest == rest;
    } else {
      var tail := Show(segments[1..]) + rest;
      WordReads(segments[1..], rest);
      SegmentReads(segments[0], tail);
      Regroup(ShowSegment(segments[0]), "", Show(segments[1..]), rest);
      PrependTwice(SegmentValue(segments[0]), Value(segments[1..]), LexText(rest));
    }
  }

  lemma {:induction false} BlanksSkip(gap: string, rest: string)
    requires Blanks(gap) && Ended(rest)
    ensures Ended(gap + rest) && Lex(gap + rest) == Lex(rest)
    decreases |gap|
  {
    if gap == "" {
      assert gap + rest == rest;
    } else {
      assert (gap + rest)[1..] == gap[1..] + rest;
      BlanksSkip(gap[1..], rest);
    }
  }

  /** The first segment of a word is where the tokenizer starts reading text. */
  lemma WordStarts(segments: seq<Segment>, rest: string)
    requires segments != [] && SegmentOk(segments[0]) && segments[0] != Bare('#') && Ended(Show(segments) + rest)
    ensures Lex(Show(segments) + rest) == LexText(Show(segments) + rest)
  {
    var s := Show(segments) + rest;
    assert s[0] == ShowSegment(segments[0])[0];
  }

  lemma WordEnds(after: string)
    requires Ended(after) && (Blank(after[0]) || after[0] == '\n')
    ensures LexText(after) == Lexed(Text, "", after[1..], 0, after[0] == '\n')
  {
  }

  /** A word followed by a blank or by the end of its line. */
  lemma WordIsToken(w: Word, rest: string)
    requires w.segments != [] && w.segments[0] != Bare('#') && Blanks(w.gap) && Ended(rest)
    requires forall i | 0 <= i < |w.segments| :: SegmentOk(w.segments[i])
    requires w.gap != "" || rest[0] == '\n'
    ensures Ended(Show(w.segments) + w.gap + rest)
    ensures
      var r := Lex(Show(w.segments) + w.gap + rest);
      && r.token.Text? && r.text == Value(w.segments)
      && (if w.gap != "" then !r.newline && r.rest == w.gap[1..] + rest else r.newline && r.rest == rest[1..])
  {
    hide Show, Value, LexText, Lex, SegmentOk;
    var after := w.gap + rest;
    if w.gap != "" {
      assert after[0] == w.gap[0] && after[1..] == w.gap[1..] + rest;
    } else {
      assert after == rest;
    }
    WordReads(w.segments, after);
    assert Show(w.segments) + w.gap + rest == Show(w.segments) + after;
    WordStarts(w.segments, after);
    WordEnds(after);
    assert Value(w.segments) + "" == Value(w.segments);
  }

  // ---- lines --------------------------------------------------------------

  /** Leading blanks change nothing. */
  lemma BlanksIgnored(gap: string, rest: string, args: seq<string>)
    requires Blanks(gap) && Ended(rest)
    ensures Ended(gap + rest) && Calls(gap + rest, false, args) == Calls(rest, false, args)
  {
    BlanksSkip(gap, rest);
  }

  function Add(args: seq<string>, more: seq<string>): seq<string> {
    FirstArgs(args + more)
  }

  lemma {:induction false} CommentReads(comment: string, rest: string)
    requires '\n' !in comment && '\0' !in comment && Ended(rest)
    ensures Ended(comment + "\n" + rest)
    ensures LexComment(comment + "\n" + rest) == Lexed(Newline, "", rest, 0, false)
    decreases |comment|
  {
    var s := comment + "\n" + rest;
    if comment == "" {
      assert s[1..] == rest;
    } else {
      assert s[1..] == comment[1..] + "\n" + rest;
      CommentReads(comment[1..], rest);
    }
  }

  /** The end of a line, with or without a comment, delivers its words. */
  lemma LineEnds(comment: string, rest: string, args: seq<string>)
    requires Ended(rest)
    requires comment == "" || (comment[0] == '#' && '\n' !in comment && '\0' !in comment)
    ensures Ended(comment + "\n" + rest)
    ensures Calls(comment + "\n" + rest, false, args) == (if args != [] then [args] else []) + Calls(rest, false, [])
  {
    var s := comment + "\n" + rest;
    if comment == "" {
      assert s[1..] == rest;
    } else {
      CommentReads(comment, rest);
      assert s[0] == '#';
    }
  }

  lemma WordArgs(args: seq<string>, text: string, more: seq<string>)
    requires |args| <= MAXARGS
    ensures Add(if |args| < MAXARGS then args + [text] else args, more) == Add(args, [text] + more)
  {
    var next := if |args| < MAXARGS then args + [text] else args;
    assert args + ([text] + more) == (args + [text]) + more;
    if |args| == MAXARGS {
      assert (args + more)[..MAXARGS] == args && (args + ([text] + more))[..MAXARGS] == args;
    }
  }

  lemma {:induction false} WordsReads(words: seq<Word>, comment: string, rest: string, args: seq<string>)
    requires Ended(rest) && |args| <= MAXARGS && WordsOk(words, comment == "")
    requires comment == "" || (comment[0] == '#' && '\n' !in comment && '\0' !in comment)
    ensures Ended(ShowWords(words) + comment + "\n" + rest)
    ensures
      var all := Add(args, Values(words));
      Calls(ShowWords(words) + comment + "\n" + rest, false, args) ==
      (if all != [] then [all] else []) + Calls(rest, false, [])
    decreases |words|
  {
    if words == [] {
      assert ShowWords(words) + comment + "\n" + rest == comment + "\n" + rest;
      assert args + [] == args;
      LineEnds(comment, rest, args);
    } else {
      OneWordReads(words, comment, rest, args);
    }
  }

  lemma CallsAfterText(s: string, args: seq<string>)
    requires Ended(s) && Lex(s).token.Text?
    ensures
      var r := Lex(s);
      Calls(s, false, args) == Calls(r.rest, r.newline, if |args| < MAXARGS then args + [r.text] else args)
  {
  }

  lemma CallsAtNewline(s: string, args: seq<string>)
    requires Ended(s)
    ensures Calls(s, true, args) == (if args != [] then [args] else []) + Calls(s, false, [])
  {
  }

  /** Reading one word adds it to the arguments. */
  lemma WordJoins(w: Word, tail: string, args: seq<string>)
    requires w.segments != [] && w.segments[0] != Bare('#') && Blanks(w.gap) && Ended(tail)
    requires forall i | 0 <= i < |w.segments| :: SegmentOk(w.segments[i])
    requires w.gap != "" || tail[0] == '\n'
    ensures Ended(Show(w.segments) + w.gap + tail)
    ensures
      var next := if |args| < MAXARGS then args + [Value(w.segments)] else args;
      Calls(Show(w.segments) + w.gap + tail, false, args) ==
      if w.gap != "" then Calls(tail, false, next)
      else (if next != [] then [next] else []) + Calls(tail[1..], false, [])
  {
    hide Show, Value, Lex, Calls, SegmentOk;
    var next := if |args| < MAXARGS then args + [Value(w.segments)] else args;
    WordIsToken(w, tail);
    CallsAfterText(Show(w.segments) + w.gap + tail, args);
    if w.gap != "" {
      BlanksIgnored(w.gap[1..], tail, next);
    } else {
      CallsAtNewline(tail[1..], next);
    }
  }

  /** The induction step of WordsReads: read the first word, then the others. */
  lemma {:induction false} OneWordReads(words: seq<Word>, comment: string, rest: string, args: seq<string>)
    requires Ended(rest) && |args| <= MAXARGS && WordsOk(words, comment == "") && words != []
    requires comment == "" || (comment[0] == '#' && '\n' !in comment && '\0' !in comment)
    ensures Ended(ShowWords(words) + comment + "\n" + rest)
    ensures
      var all := Add(args, Values(words));
      Calls(ShowWords(words) + comment + "\n" + rest, false, args) ==
      (if all != [] then [all] else []) + Calls(rest, false, [])
    decreases |words|, 0
  {
    hide Show, Value, Calls, SegmentOk, Blanks;
    var w := words[0];
    var tail := ShowWords(words[1..]) + comment + "\n" + rest;
    var next := if |args| < MAXARGS then args + [Value(w.segments)] else args;
    WordsReads(words[1..], comment, rest, next);
    WordArgs(args, Value(w.segments), Values(words[1..]));
    Regroup(Show(w.segments), w.gap, ShowWords(words[1..]), comment + "\n" + rest);
    RegroupLine(ShowWords(words), comment, rest);
    RegroupLine(ShowWords(words[1..]), comment, rest);
    if w.gap == "" {
      LastTail(words[1..], comment, rest);
      assert next + [] == next;
    }
    WordJoins(w, tail, args);
  }

  /** After the last word of a line without a comment comes its newline. */
  lemma LastTail(words: seq<Word>, comment: string, rest: string)
    requires words == [] && comment == ""
    ensures
      var tail := ShowWords(words) + comment + "\n" + rest;
      tail[0] == '\n' && tail[1..] == rest && Values(words) == []
  {
    assert ShowWords(words) + comment + "\n" + rest == "\n" + rest;
  }

  lemma LineReads(line: Line, rest: string)
    requires LineOk(line) && Ended(rest)
    ensures Ended(ShowLine(line) + rest)
    ensures Calls(ShowLine(line) + rest, false, []) ==
      (if line.words != [] then [FirstArgs(Values(line.words))] else []) + Calls(rest, false, [])
  {
    hide WordsOk, ShowWords, Calls, Blanks;
    var s := ShowWords(line.words) + line.comment + "\n" + rest;
    WordsReads(line.words, line.comment, rest, []);
    BlanksIgnored(line.indent, s, []);
    assert ShowLine(line) + rest == line.indent + s;
    assert [] + Values(line.words) == Values(line.words);
    assert line.words != [] ==> Values(line.words) != [];
  }

  /** What may follow the printed lines: nothing, or the newline that read_file adds. */
  predicate Ending(tail: string) {
    tail == "\0" || tail == "\n\0"
  }

  lemma EmptyFile(tail: string)
    requires Ending(tail)
    ensures Ended(tail) && Calls(tail, false, []) == [[]]
  {
    assert Calls("\0", false, []) == [[]];
    if tail == "\n\0" {
      assert tail[1..] == "\0";
      CallsAtNewline(tail, []);
    }
  }

  /** Tokenizing and collecting what was printed delivers exactly the words that
      were printed, line by line, the first five of each. */
  lemma {:induction false} RoundTrip(lines: seq<Line>, tail: string)
    requires LinesOk(lines) && Ending(tail)
    ensures Ended(ShowAll(lines) + tail)
    ensures Calls(ShowAll(lines) + tail, false, []) == Delivered(lines)
    decreases |lines|
  {
    hide LineOk, ShowLine, Calls, Ending;
    EmptyFile(tail);
    if lines == [] {
      assert ShowAll(lines) + tail == tail;
    } else {
      RoundTrip(lines[1..], tail);
      LineReads(lines[0], ShowAll(lines[1..]) + tail);
      assert ShowAll(lines) + tail == ShowLine(lines[0]) + (ShowAll(lines[1..]) + tail);
    }
  }

  // ---- a printer for any words --------------------------------------------

  /** Quoted segments and escaped quotes are enough for any text without NUL. */
  function Spell(text: string): seq<Segment> {
    if text == "" then [Quoted("")]
    else [if text[0] == '"' then Escaped('"') else Quoted([text[0]])] + Spell(text[1..])
  }

  lemma {:induction false} SpellOk(text: string)
    requires '\0' !in text
    ensures Spell(text) != [] && Spell(text)[0] != Bare('#') && Value(Spell(text)) == text
    ensures forall i | 0 <= i < |Spell(text)| :: SegmentOk(Spell(text)[i])
    decreases |text|
  {
    if text != "" {
      SpellOk(text[1..]);
      assert text == [text[0]] + text[1..];
    }
  }

  function SpellWords(texts: seq<string>): seq<Word> {
    if texts == [] then [] else [Word(Spell(texts[0]), " ")] + SpellWords(texts[1..])
  }

  lemma {:induction false} SpellWordsOk(texts: seq<string>)
    requires forall i | 0 <= i < |texts| :: '\0' !in texts[i]
    ensures WordsOk(SpellWords(texts), true) && Values(SpellWords(texts)) == texts
    ensures SpellWords(texts) == [] <==> texts == []
    decreases |texts|
  {
    hide Spell, Value, SegmentOk;
    if texts != [] {
      SpellOk(texts[0]);
      SpellWordsOk(texts[1..]);
    }
  }

  /** The printer: one line for each list of words. */
  function Print(lists: seq<seq<string>>): string {
    if lists == [] then "" else ShowLine(Line("", SpellWords(lists[0]), "")) + Print(lists[1..])
  }

  /** Lines of one to five words without NULs. */
  ghost predicate Storable(lists: seq<seq<string>>) {
    && (forall i | 0 <= i < |lists| :: 1 <= |lists[i]| <= MAXARGS)
    && (forall i, j | 0 <= i < |lists| && 0 <= j < |lists[i]| :: '\0' !in lists[i][j])
  }

  /** Every list of lines of one to five words without NUL survives printing,
      tokenizing and collecting unchanged. */
  lemma {:induction false} PrintedLinesComeBack(lists: seq<seq<string>>, tail: string)
    requires Storable(lists) && Ending(tail)
    ensures Ended(Print(lists) + tail)
    ensures Calls(Print(lists) + tail, false, []) == lists + [[]]
    decreases |lists|
  {
    hide ShowLine, SpellWords, Values, WordsOk, Calls, Ending;
    EmptyFile(tail);
    if lists == [] {
      assert Print(lists) + tail == tail;
    } else {
      var line := Line("", SpellWords(lists[0]), "");
      SpellWordsOk(lists[0]);
      PrintedLinesComeBack(lists[1..], tail);
      LineReads(line, Print(lists[1..]) + tail);
      assert Print(lists) + tail == ShowLine(line) + (Print(lists[1..]) + tail);
      assert lists == [lists[0]] + lists[1..];
    }
  }

  // ---- what the named escapes and CR-LF do --------------------------------

  /** A named escape yields its character and then its letter as well. */
  lemma NamedEscapeKeepsItsLetter(letter: char, value: char, rest: string)
    requires Ended(rest)
    requires (letter == 'n' && value == '\n') || (letter == 'r' && value == '\r') || (letter == 't' && value == '\t')
    ensures LexText(['\\', letter] + rest) == Prepend([value, letter], 0, LexText(rest))
    ensures LexText(['\\', letter] + rest) != Prepend([value], 0, LexText(rest))
  {
    hide LexText;
    var s := ['\\', letter] + rest;
    var t := [letter] + rest;
    assert s[1..] == t && t[1..] == rest;
    AtBackslash(s);
    AtPlain(t);
    assert LexEscape(t) == Prepend([value], 0, LexText(t));
    PrependTwice([value], [letter], LexText(rest));
    assert [value] + [letter] == [value, letter];
    assert |Prepend([value, letter], 0, LexText(rest)).text| == |Prepend([value], 0, LexText(rest)).text| + 1;
  }

  lemma AtPlain(s: string)
    requires Ended(s) && PlainChar(s[0])
    ensures LexText(s) == Prepend([s[0]], 0, LexText(s[1..]))
  {
    hide LexQuote, LexEscape;
  }

  /** A double backslash yields one, and its second half then starts another escape. */
  lemma DoubleBackslash(rest: string)
    requires Ended(rest)
    ensures LexText("\\\\" + rest) == Prepend("\\", 0, LexEscape(rest))
  {
    hide LexText;
    var s := "\\\\" + rest;
    var t := "\\" + rest;
    assert s[1..] == t && t[1..] == rest;
    AtBackslash(s);
    AtBackslash(t);
  }

  /** What may follow a double backslash for it to stand for one. */
  predicate EscapesNothing(rest: string)
    requires Ended(rest)
  {
    var c := rest[0];
    c == '\0' || (PlainChar(c) && c !in {'n', 'r', 't'}) || (c == '\r' && rest[1] == '\0')
  }

  lemma {:induction false} SkippedInQuotes(s: string)
    requires Ended(s)
    ensures |LexQuote(s).text| >= |LexQuote(SkipIndent(s)).text|
    decreases |s|
  {
    if s[0] == ' ' || s[0] == '\t' {
      SkippedInQuotes(s[1..]);
    }
  }

  lemma AtQuote(s: string)
    requires Ended(s) && s[0] == '"'
    ensures LexText(s) == LexQuote(s[1..]) && LexQuote(s) == LexText(s[1..])
  {
  }

  lemma InQuotes(s: string)
    requires Ended(s) && s[0] != '"' && s[0] != '\0'
    ensures LexQuote(s).text == [s[0]] + LexQuote(s[1..]).text
  {
    hide LexText;
  }

  /** Inside quotes only an empty end of them lets text start with a quote. */
  lemma QuoteStartsWithQuote(s: string)
    requires Ended(s) && LexQuote(s).text != "" && LexQuote(s).text[0] == '"'
    ensures s[0] == '"' && LexQuote(s) == LexText(s[1..])
  {
    hide LexText, LexQuote;
    if s[0] == '\0' {
      NothingInQuotes(s);
    } else if s[0] != '"' {
      InQuotes(s);
    } else {
      AtQuote(s);
    }
  }

  lemma NothingInQuotes(s: string)
    requires Ended(s) && s[0] == '\0'
    ensures LexQuote(s).text == ""
  {
    hide LexText;
  }

  lemma AtWordEnd(s: string)
    requires Ended(s) && (s[0] == '\0' || Blank(s[0]) || s[0] == '\n')
    ensures LexText(s).text == ""
  {
    hide LexQuote, LexEscape;
  }

  lemma TextStartsWithQuote(s: string)
    requires Ended(s) && LexText(s).text != "" && LexText(s).text[0] == '"'
    ensures s[0] == '"' || (s[0] == '\\' && LexText(s) == LexEscape(s[1..]))
  {
    hide LexText, LexEscape;
    if PlainChar(s[0]) {
      AtPlain(s);
    } else if s[0] == '\\' {
      AtBackslash(s);
    } else if s[0] != '"' {
      AtWordEnd(s);
    }
  }

  /** The characters whose escape yields something else than a quote at once. */
  lemma EscapeYields(s: string)
    requires Ended(s) && s[0] !in {'"', '\r', '\n', '\0'}
    ensures LexEscape(s).text != "" && LexEscape(s).text[0] != '"'
  {
    hide LexText;
  }

  lemma EscapeSkips(s: string)
    requires Ended(s) && s[0] in {'"', '\r', '\n'}
    ensures s[0] == '"' ==> |LexEscape(s).text| == 1 + |LexText(s[1..]).text|
    ensures s[0] == '\r' ==> LexEscape(s).text == LexText(s[1..]).text
    ensures s[0] == '\n' ==> LexEscape(s).text == LexText(SkipIndent(s[1..])).text
  {
    hide LexText, SkipIndent;
    assert forall r: Lexed :: Prepend("", 1, r).text == r.text;
  }

  /** After a backslash, a quote comes first only if it is escaped or follows a skipped line end. */
  lemma EscapeOfQuote(s: string)
    requires Ended(s) && LexEscape(s).text != "" && LexEscape(s).text[0] == '"'
    ensures s[0] in {'"', '\r', '\n'}
  {
    hide LexEscape;
    if s[0] == '\0' {
      EscapeAtEnd(s);
    } else if s[0] !in {'"', '\r', '\n'} {
      EscapeYields(s);
    }
  }

  lemma EscapeAtEnd(s: string)
    requires Ended(s) && s[0] == '\0'
    ensures LexEscape(s).text == ""
  {
    hide LexText;
  }

  /** Text that starts with a quote is no longer than the same text read inside quotes. */
  lemma {:induction false} QuotedIsLonger(s: string)
    requires Ended(s) && LexText(s).text != "" && LexText(s).text[0] == '"'
    ensures |LexQuote(s).text| >= |LexText(s).text|
    decreases |s|
  {
    hide LexText, LexQuote, LexEscape;
    TextStartsWithQuote(s);
    if s[0] == '"' {
      AtQuote(s);
      QuoteStartsWithQuote(s[1..]);
      AtQuote(s[1..]);
      QuotedIsLonger(s[1..][1..]);
    } else {
      var t := s[1..];
      EscapeOfQuote(t);
      EscapeSkips(t);
      InQuotes(s);
      if t[0] == '"' {
        AtQuote(t);
      } else {
        InQuotes(t);
        if t[0] == '\r' {
          QuotedIsLonger(t[1..]);
        } else {
          QuotedIsLonger(SkipIndent(t[1..]));
          SkippedInQuotes(t[1..]);
        }
      }
    }
  }

  lemma QuoteAfterEscape(rest: string)
    requires Ended(rest) && rest[0] == '"'
    ensures LexEscape(rest) != LexText(rest)
  {
    hide LexText, LexQuote;
    var u := rest[1..];
    AtQuote(rest);
    if LexEscape(rest) == LexText(rest) {
      assert LexQuote(u) == Prepend("\"", 0, LexText(u));
      QuoteStartsWithQuote(u);
      AtQuote(u);
      QuotedIsLonger(u[1..]);
      assert false;
    }
  }

  /** Where a word ends, a backslash before the end makes a difference. */
  lemma EndAfterEscape(rest: string)
    requires Ended(rest) && (Blank(rest[0]) || rest[0] == '\n')
    ensures LexEscape(rest) == LexText(rest) <==> rest[0] == '\r' && rest[1] == '\0'
  {
    if rest[0] == '\r' && rest[1] !in {'\0', '\n'} {
      TextProgress(rest[1..]);
    }
  }

  lemma EscapeIsText(rest: string)
    requires Ended(rest)
    ensures LexEscape(rest) == LexText(rest) <==> EscapesNothing(rest)
  {
    if rest[0] == '"' {
      hide LexText, LexEscape;
      QuoteAfterEscape(rest);
    } else if Blank(rest[0]) || rest[0] == '\n' {
      hide LexText, LexEscape;
      EndAfterEscape(rest);
    } else {
      hide LexQuote;
    }
  }

  /** A double backslash stands for one exactly before the end of the text, before
      a plain character other than n, r and t, and before a last CR. */
  lemma DoubleBackslashExactlyWhen(rest: string)
    requires Ended(rest)
    ensures LexText("\\\\" + rest) == Prepend("\\", 0, LexText(rest)) <==> EscapesNothing(rest)
  {
    hide LexText, LexEscape, EscapesNothing;
    DoubleBackslash(rest);
    EscapeIsText(rest);
    PrependInjective("\\", LexEscape(rest), LexText(rest));
  }

  lemma PrependInjective(text: string, a: Lexed, b: Lexed)
    ensures Prepend(text, 0, a) == Prepend(text, 0, b) <==> a == b
  {
    if Prepend(text, 0, a) == Prepend(text, 0, b) {
      assert a.text == (text + a.text)[|text|..] == (text + b.text)[|text|..] == b.text;
    }
  }

  /** A backslash before a line feed continues the line. */
  lemma LineFeedContinues(rest: string)
    requires Ended(rest)
    ensures LexText("\\\n" + rest) == Prepend("", 1, LexText(SkipIndent(rest)))
  {
    hide LexText;
    var s := "\\\n" + rest;
    var t := "\n" + rest;
    assert s[1..] == t && t[1..] == rest;
    AtBackslash(s);
  }

  /** Before CR-LF a backslash does not: the word and its line end there. */
  lemma CrLfDoesNotContinue(rest: string)
    requires Ended(rest)
    ensures LexText("\\\r\n" + rest) == Lexed(Text, "", rest, 1, true)
  {
    var s := "\\\r\n" + rest;
    var t := "\n" + rest;
    assert s[1..] == "\r\n" + rest && s[1..][1..] == t && t[1..] == rest;
    WordEnds(t);
  }

  /** A backslash before a CR that no line feed follows makes both vanish. */
  lemma EscapedCrVanishes(rest: string)
    requires Ended(rest) && rest[0] != '\n'
    ensures LexText("\\\r" + rest) == LexText(rest)
  {
    hide LexText;
    var s := "\\\r" + rest;
    var t := "\r" + rest;
    assert s[1..] == t && t[1..] == rest && t[1] == rest[0];
    AtBackslash(s);
  }

  // ---- the end of the file ------------------------------------------------

  /** A quote that never closes ends the file. */
  lemma {:induction false} UnclosedQuoteEndsFile(q: string, rest: string)
    requires '"' !in q && '\0' !in q && Ended(rest) && rest[0] == '\0'
    ensures Ended(q + rest) && LexQuote(q + rest).token.Eof? && LexQuote(q + rest).rest == rest
    decreases |q|
  {
    if q == "" {
      assert q + rest == rest;
    } else {
      assert (q + rest)[0] == q[0] && (q + rest)[1..] == q[1..] + rest;
      UnclosedQuoteEndsFile(q[1..], rest);
    }
  }

  /** The words of a last line without its newline are dropped. */
  lemma {:induction false} UnendedLineIsDropped(words: seq<Word>, args: seq<string>)
    requires WordsOk(words, false)
    ensures Ended(ShowWords(words) + "\0") && Calls(ShowWords(words) + "\0", false, args) == [[]]
    decreases |words|
  {
    hide Show, SegmentOk, Blanks, Calls, Value;
    if words == [] {
      assert ShowWords(words) + "\0" == "\0";
      AtNul(args);
    } else {
      var w := words[0];
      var tail := ShowWords(words[1..]) + "\0";
      UnendedLineIsDropped(words[1..], if |args| < MAXARGS then args + [Value(w.segments)] else args);
      WordJoins(w, tail, args);
      assert ShowWords(words) + "\0" == Show(w.segments) + w.gap + tail;
    }
  }

  lemma AtNul(args: seq<string>)
    ensures Ended("\0") && Calls("\0", false, args) == [[]]
  {
  }
}
