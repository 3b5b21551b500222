/** Reading an rc file: the file's text in a buffer, parsed in place. */
module RcFile {
  import opened Tokenizer
  import opened TokenizerRoundTrip
  import opened RcParser

  /** ueventd_parse_config_file: read_file puts the text, a newline and a NUL into a
      buffer, and parse_config works on that. Whatever a file was printed from
      comes back: any lines of one to five words without NULs from `Print`, and
      every other way to write them from `ShowAll`. */
  method ParseConfigFile(data: string) returns (calls: seq<seq<string>>)
    ensures calls == Calls(data + "\n\0", false, [])
    ensures forall lists | Storable(lists) && data == Print(lists) :: calls == lists + [[]]
    ensures forall lines: seq<Line> | LinesOk(lines) && data == ShowAll(lines) :: calls == Delivered(lines)
  {
    hide Calls, Print, ShowAll, Storable, LinesOk, Delivered;
    var text := data + "\n\0";
    var buf := new char[|text|](i requires 0 <= i < |text| => text[i]);
    assert buf[..] == text;
    calls := ParseConfig(buf);
    forall lists | Storable(lists) && data == Print(lists) ensures calls == lists + [[]] {
      PrintedLinesComeBack(lists, "\n\0");
    }
    forall lines: seq<Line> | LinesOk(lines) && data == ShowAll(lines) ensures calls == Delivered(lines) {
      RoundTrip(lines, "\n\0");
    }
  }
}
