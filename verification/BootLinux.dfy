/** boot_linux as the source writes it: a pointer that moves through memory, a
    pass that sizes the command line and a pass that copies it. */
module BootLinux {
  import opened Atags

  method PutByte(mem: array<Byte>, at: nat, b: Byte) returns (next: nat)
    requires at < mem.Length
    modifies mem
    ensures next == at + 1
    ensures mem[..next] == old(mem[..at]) + [b] && mem[next..] == old(mem[next..])
  {
    mem[at] := b;
    next := at + 1;
    assert mem[..at] == old(mem[..at]);
  }

  method PutBytes(mem: array<Byte>, at: nat, bs: seq<Byte>) returns (next: nat)
    requires at + |bs| <= mem.Length
    modifies mem
    ensures next == at + |bs|
    ensures mem[..next] == old(mem[..at]) + bs && mem[next..] == old(mem[next..])
  {
    var i := 0;
    while i < |bs|
      invariant i <= |bs| && mem[..at + i] == old(mem[..at]) + bs[..i] && mem[at + i..] == old(mem[at + i..])
    {
      ghost var before := mem[..at + i];
      ghost var rest := mem[at + i..];
      var _ := PutByte(mem, at + i, bs[i]);
      assert mem[..at + i + 1] == before + [bs[i]] && bs[..i + 1] == bs[..i] + [bs[i]];
      assert rest[1..] == mem[at + i + 1..] && old(mem[at + i..])[1..] == old(mem[at + i + 1..]);
      i := i + 1;
    }
    assert bs[..i] == bs;
    next := at + i;
  }

  method PutWord(mem: array<Byte>, at: nat, w: Word32) returns (next: nat)
    requires at + 4 <= mem.Length
    modifies mem
    ensures next == at + 4
    ensures mem[..next] == old(mem[..at]) + Bytes(w) && mem[next..] == old(mem[next..])
  {
    next := PutBytes(mem, at, Bytes(w));
  }

  /** The two words that begin a tag. */
  method PutHeader(mem: array<Byte>, at: nat, size: Word32, id: Word32) returns (next: nat)
    requires at + 8 <= mem.Length
    modifies mem
    ensures next == at + 8
    ensures mem[..next] == old(mem[..at]) + (Bytes(size) + Bytes(id)) && mem[next..] == old(mem[next..])
  {
    hide Bytes;
    ghost var before := mem[..];
    next := PutWord(mem, at, size);
    assert mem[next..] == before[next..];
    next := PutWord(mem, next, id);
    assert mem[..next] == before[..at] + Bytes(size) + Bytes(id);
    assert mem[next..] == before[next - 4..][4..];
  }

  /** ptentry_to_tag. */
  method PtentryToTag(mem: array<Byte>, at: nat, p: Partition) returns (next: nat)
    requires |p.name| == 16 && at + 28 <= mem.Length
    modifies mem
    ensures next == at + 28
    ensures mem[..next] == old(mem[..at]) + Entry(p) && mem[next..] == old(mem[next..])
  {
    var name := p.name;
    name := name[15 := 0];
    next := PutBytes(mem, at, name + Bytes(p.start) + Bytes(p.length) + Bytes(p.flags));
  }

  method PutEntries(mem: array<Byte>, at: nat, ps: seq<Partition>) returns (next: nat)
    requires (forall i | 0 <= i < |ps| :: |ps[i].name| == 16) && at + 28 * |ps| <= mem.Length
    modifies mem
    ensures next == at + 28 * |ps|
    ensures mem[..next] == old(mem[..at]) + Entries(ps) && mem[next..] == old(mem[next..])
  {
    hide Entry;
    next := at;
    var i := 0;
    assert old(mem[..at]) + [] == old(mem[..at]);
    while i < |ps|
      invariant i <= |ps| && next == at + 28 * i
      invariant mem[..next] == old(mem[..at]) + Entries(ps[..i]) && mem[next..] == old(mem[next..])
    {
      ghost var out := mem[..next];
      ghost var rest := mem[next..];
      next := PtentryToTag(mem, next, ps[i]);
      EntriesSnoc(ps, i);
      assert old(mem[..at]) + (Entries(ps[..i]) + Entry(ps[i])) == out + Entry(ps[i]);
      assert old(mem[next - 28..])[28..] == old(mem[next..]) && rest[28..] == mem[next..];
      i := i + 1;
    }
    assert ps[..i] == ps;
  }

  lemma {:induction false} EntriesSnoc(ps: seq<Partition>, i: nat)
    requires (forall j | 0 <= j < |ps| :: |ps[j].name| == 16) && i < |ps|
    ensures Entries(ps[..i + 1]) == Entries(ps[..i]) + Entry(ps[i])
    decreases i
  {
    hide Entry;
    if i == 0 {
      assert ps[..1] == [ps[0]] && ps[..1][1..] == [];
    } else {
      EntriesSnoc(ps[1..], i - 1);
      assert ps[..i + 1][1..] == ps[1..][..i] && ps[..i][1..] == ps[1..][..i - 1];
      assert Entry(ps[0]) + (Entries(ps[1..][..i - 1]) + Entry(ps[i])) == Entry(ps[0]) + Entries(ps[1..][..i - 1]) + Entry(ps[i]);
    }
  }

  // ---- the command line ---------------------------------------------------

  /** The sizing pass. */
  method SizeCommandLine(c: Config) returns (len: nat)
    ensures len == |CommandLine(c)|
  {
    hide Ascii, EmmcText, SerialText, PauseText, AuthorizedText, ModeText, RebootText, BasebandText;
    len := |c.cmdline|;
    if c.emmc {
      len := len + |EmmcText()|;
    }
    len := len + |SerialText()|;
    len := len + |c.serial|;
    if !c.recovery {
      len := len + |ModeText(false)|;
      len := len + |RebootText(false)|;
    } else {
      len := len + |ModeText(true)|;
      len := len + |RebootText(true)|;
    }
    if c.pause {
      len := len + |PauseText()|;
    }
    if c.authorized {
      len := len + |AuthorizedText()|;
    }
    len := len + |BasebandText(c.baseband)|;
  }

  /** `while ((*dst++ = *src++));` */
  method CopyString(mem: array<Byte>, dst: nat, src: seq<Byte>) returns (dst': nat)
    requires dst + |src| + 1 <= mem.Length && 0 !in src
    modifies mem
    ensures dst' == dst + |src| + 1
    ensures mem[..dst'] == old(mem[..dst]) + src + [0] && mem[dst'..] == old(mem[dst'..])
  {
    dst' := PutBytes(mem, dst, src + [0]);
    assert old(mem[..dst]) + (src + [0]) == old(mem[..dst]) + src + [0];
  }

  /** Append to the string that ends just before `dst`, or begin it there; memory from `limit` on is left alone. */
  method Append(mem: array<Byte>, start: nat, dst: nat, have: bool, ghost text: seq<Byte>, src: seq<Byte>, ghost limit: nat)
      returns (dst': nat)
    requires 0 !in src && start + |text| + |src| + 1 <= limit <= mem.Length
    requires if have then Ends(mem[..], start, dst, text) else dst == start && text == []
    modifies mem
    ensures Ends(mem[..], start, dst', text + src)
    ensures mem[..start] == old(mem[..start]) && mem[limit..] == old(mem[limit..])
  {
    var d := dst;
    if have {
      d := d - 1;
    }
    assert mem[start..d] == text by {
      if have {
        assert mem[start..d] == mem[..][start..dst][..|text|];
      }
    }
    ghost var out := mem[..d];
    dst' := CopyString(mem, d, src);
    assert mem[..dst'] == out + src + [0];
    assert out[start..] == text && out[..start] == old(mem[..start]);
    assert mem[..][start..dst'] == mem[..dst'][start..] == (text + src) + [0];
    assert mem[..start] == mem[..dst'][..start] == out[..start];
    assert mem[limit..] == mem[dst'..][limit - dst'..] && old(mem[limit..]) == old(mem[dst'..])[limit - dst'..];
  }

  /** The text stands at `start`, and its NUL just before `dst`. */
  ghost predicate Ends(m: seq<Byte>, start: nat, dst: nat, text: seq<Byte>) {
    dst == start + |text| + 1 <= |m| && m[start..dst] == text + [0]
  }

  predicate Printable(s: string) {
    forall i | 0 <= i < |s| :: ' ' <= s[i] <= '~'
  }

  lemma {:induction false} PrintableNulFree(s: string)
    requires Printable(s)
    ensures 0 !in Ascii(s)
    decreases |s|
  {
    if s != "" {
      PrintableNulFree(s[1..]);
    }
  }

  lemma FixedTextsPrintable()
    ensures Printable(EmmcText()) && Printable(SerialText()) && Printable(PauseText()) && Printable(AuthorizedText())
  {
  }

  lemma ModeTextsPrintable(recovery: bool)
    ensures Printable(ModeText(recovery)) && Printable(RebootText(recovery))
  {
  }

  lemma BasebandTextPrintable(b: Baseband)
    ensures Printable(BasebandText(b))
  {
  }

  lemma TextsNulFree(b: Baseband, recovery: bool)
    ensures 0 !in Ascii(EmmcText()) && 0 !in Ascii(SerialText()) && 0 !in Ascii(PauseText())
    ensures 0 !in Ascii(AuthorizedText()) && 0 !in Ascii(BasebandText(b))
    ensures 0 !in Ascii(ModeText(recovery)) && 0 !in Ascii(RebootText(recovery))
  {
    hide EmmcText, SerialText, PauseText, AuthorizedText, ModeText, RebootText, BasebandText, Printable, Ascii;
    FixedTextsPrintable();
    ModeTextsPrintable(recovery);
    BasebandTextPrintable(b);
    PrintableNulFree(EmmcText());
    PrintableNulFree(SerialText());
    PrintableNulFree(PauseText());
    PrintableNulFree(AuthorizedText());
    PrintableNulFree(BasebandText(b));
    PrintableNulFree(ModeText(recovery));
    PrintableNulFree(RebootText(recovery));
  }

  lemma NoBaseband()
    ensures BasebandText(Unknown) == "" && Ascii("") == []
  {
  }

  /** The pieces of the command line up to the serial number, and the others. */
  function FirstPart(c: Config): seq<Byte> {
    c.cmdline + Ascii(if c.emmc then EmmcText() else "") + Ascii(SerialText()) + c.serial
  }

  function SecondPart(c: Config): seq<Byte> {
    Ascii(if c.pause then PauseText() else "") + Ascii(if c.authorized then AuthorizedText() else "")
  }

  function ThirdPart(c: Config): seq<Byte> {
    Ascii(BasebandText(c.baseband)) + Ascii(ModeText(c.recovery)) + Ascii(RebootText(c.recovery))
  }

  lemma ThreeParts(c: Config)
    ensures CommandLine(c) == FirstPart(c) + SecondPart(c) + ThirdPart(c)
  {
    hide Ascii, EmmcText, SerialText, PauseText, AuthorizedText, ModeText, RebootText, BasebandText;
  }

  method CopyFirstPart(mem: array<Byte>, start: nat, c: Config, ghost limit: nat) returns (dst: nat)
    requires 0 !in c.cmdline && 0 !in c.serial && start + |FirstPart(c)| + 1 <= limit <= mem.Length
    modifies mem
    ensures Ends(mem[..], start, dst, FirstPart(c))
    ensures mem[..start] == old(mem[..start]) && mem[limit..] == old(mem[limit..])
  {
    hide Ascii, EmmcText, SerialText, Ends;
    TextsNulFree(c.baseband, c.recovery);
    NoBaseband();
    dst := start;
    var have := |c.cmdline| > 0;
    ghost var text: seq<Byte> := [];
    if have {
      dst := Append(mem, start, dst, false, text, c.cmdline, limit);
      text := text + c.cmdline;
    }
    assert text == c.cmdline;
    if c.emmc {
      dst := Append(mem, start, dst, have, text, Ascii(EmmcText()), limit);
      have := true;
    }
    text := text + Ascii(if c.emmc then EmmcText() else "");
    dst := Append(mem, start, dst, have, text, Ascii(SerialText()), limit);
    text := text + Ascii(SerialText());
    dst := Append(mem, start, dst, true, text, c.serial, limit);
  }

  method CopySecondPart(mem: array<Byte>, start: nat, at: nat, c: Config, ghost text: seq<Byte>, ghost limit: nat)
      returns (dst: nat)
    requires start + |text| + |SecondPart(c)| + 1 <= limit <= mem.Length && Ends(mem[..], start, at, text)
    modifies mem
    ensures Ends(mem[..], start, dst, text + SecondPart(c))
    ensures mem[..start] == old(mem[..start]) && mem[limit..] == old(mem[limit..])
  {
    hide Ascii, PauseText, AuthorizedText, Ends;
    TextsNulFree(c.baseband, c.recovery);
    NoBaseband();
    ghost var t := text;
    dst := at;
    if c.pause {
      dst := Append(mem, start, dst, true, t, Ascii(PauseText()), limit);
      t := t + Ascii(PauseText());
    }
    if c.authorized {
      dst := Append(mem, start, dst, true, t, Ascii(AuthorizedText()), limit);
      t := t + Ascii(AuthorizedText());
    }
    assert t == text + SecondPart(c);
  }

  method CopyThirdPart(mem: array<Byte>, start: nat, at: nat, c: Config, ghost text: seq<Byte>, ghost limit: nat)
      returns (dst: nat)
    requires start + |text| + |ThirdPart(c)| + 1 <= limit <= mem.Length && Ends(mem[..], start, at, text)
    modifies mem
    ensures Ends(mem[..], start, dst, text + ThirdPart(c))
    ensures mem[..start] == old(mem[..start]) && mem[limit..] == old(mem[limit..])
  {
    hide Ascii, ModeText, RebootText, BasebandText, Ends;
    TextsNulFree(c.baseband, c.recovery);
    NoBaseband();
    ghost var t := text;
    dst := at;
    if !c.baseband.Unknown? {
      dst := Append(mem, start, dst, true, t, Ascii(BasebandText(c.baseband)), limit);
      t := t + Ascii(BasebandText(c.baseband));
    }
    dst := Append(mem, start, dst, true, t, Ascii(ModeText(c.recovery)), limit);
    t := t + Ascii(ModeText(c.recovery));
    dst := Append(mem, start, dst, true, t, Ascii(RebootText(c.recovery)), limit);
    t := t + Ascii(RebootText(c.recovery));
    assert t == text + ThirdPart(c);
  }

  /** The copying pass. */
  method CopyCommandLine(mem: array<Byte>, start: nat, c: Config, ghost limit: nat)
    requires 0 !in c.cmdline && 0 !in c.serial && start + |CommandLine(c)| + 1 <= limit <= mem.Length
    modifies mem
    ensures mem[start..start + |CommandLine(c)| + 1] == CommandLine(c) + [0]
    ensures mem[..start] == old(mem[..start]) && mem[limit..] == old(mem[limit..])
  {
    hide CommandLine, FirstPart, SecondPart, ThirdPart;
    ThreeParts(c);
    var dst := CopyFirstPart(mem, start, c, limit);
    dst := CopySecondPart(mem, start, dst, c, FirstPart(c), limit);
    dst := CopyThirdPart(mem, start, dst, c, FirstPart(c) + SecondPart(c), limit);
    assert mem[start..dst] == mem[..][start..dst];
  }

  // ---- the tag list -------------------------------------------------------

  method PutRamdisk(mem: array<Byte>, at: nat, c: Config) returns (next: nat)
    requires at + |ShowAll(RamdiskTags(c))| <= mem.Length
    modifies mem
    ensures next == at + |ShowAll(RamdiskTags(c))|
    ensures mem[..next] == old(mem[..at]) + ShowAll(RamdiskTags(c)) && mem[next..] == old(mem[next..])
  {
    hide RamdiskTags, Bytes;
    RamdiskShown(c);
    next := at;
    if c.ramdiskSize != 0 {
      ghost var before := mem[..];
      next := PutWord(mem, next, 4);
      assert mem[next..] == before[next..];
      next := PutWord(mem, next, ATAG_INITRD2);
      assert mem[next..] == before[next..];
      next := PutWord(mem, next, c.ramdisk);
      assert mem[next..] == before[next..];
      next := PutWord(mem, next, c.ramdiskSize);
      assert mem[..next] == old(mem[..at]) + Bytes(4) + Bytes(ATAG_INITRD2) + Bytes(c.ramdisk) + Bytes(c.ramdiskSize);
    }
  }

  method PutPartitions(mem: array<Byte>, at: nat, c: Config) returns (next: nat)
    requires ConfigOk(c) && TagsOk(PartitionTags(c)) && at + |ShowAll(PartitionTags(c))| <= mem.Length
    modifies mem
    ensures next == at + |ShowAll(PartitionTags(c))|
    ensures mem[..next] == old(mem[..at]) + ShowAll(PartitionTags(c)) && mem[next..] == old(mem[next..])
  {
    hide PartitionTags, Bytes, Entries;
    PartitionsShown(c);
    next := at;
    if !c.emmc && |c.partitions| != 0 {
      ghost var before := mem[..];
      next := PutWord(mem, next, 2 + |c.partitions| * 7);
      assert mem[next..] == before[next..];
      next := PutWord(mem, next, ATAG_MSM_PARTITION);
      assert mem[next..] == before[next..];
      next := PutEntries(mem, next, c.partitions);
      assert mem[..next] == old(mem[..at]) + Bytes(2 + |c.partitions| * 7) + Bytes(ATAG_MSM_PARTITION) + Entries(c.partitions);
    }
  }

  method PutCore(mem: array<Byte>) returns (next: nat)
    requires 8 <= mem.Length
    modifies mem
    ensures next == 8 && mem[..next] == ShowAll([Tag(ATAG_CORE, [])]) && mem[next..] == old(mem[next..])
  {
    CoreShown();
    next := PutWord(mem, 0, 2);
    next := PutWord(mem, next, ATAG_CORE);
    assert mem[..next] == Bytes(2) + Bytes(ATAG_CORE);
  }

  /** The tags before the command line, at the start of memory. */
  method PutFirstTags(mem: array<Byte>, c: Config) returns (at: nat)
    requires ConfigOk(c) && TagsOk(FirstTags(c)) && |ShowAll(FirstTags(c))| <= mem.Length
    modifies mem
    ensures at == |ShowAll(FirstTags(c))| && mem[..at] == ShowAll(FirstTags(c)) && mem[at..] == old(mem[at..])
  {
    hide RamdiskTags, PartitionTags, ShowAll, FirstTags;
    FirstTagsShown(c);
    CoreShown();
    ghost var before := mem[..];
    at := PutCore(mem);
    assert mem[at..] == before[at..];
    at := PutRamdisk(mem, at, c);
    assert mem[at..] == before[at..];
    at := PutBytes(mem, at, ShowAll(c.memory));
    assert mem[at..] == before[at..];
    at := PutPartitions(mem, at, c);
  }

  lemma CoreShown()
    ensures ShowAll([Tag(ATAG_CORE, [])]) == Bytes(2) + Bytes(ATAG_CORE)
  {
    ShowOne(Tag(ATAG_CORE, []));
  }

  lemma RamdiskShown(c: Config)
    ensures ShowAll(RamdiskTags(c)) ==
      if c.ramdiskSize != 0 then Bytes(4) + Bytes(ATAG_INITRD2) + Bytes(c.ramdisk) + Bytes(c.ramdiskSize) else []
  {
    hide Bytes;
    if c.ramdiskSize != 0 {
      ShowOne(RamdiskTags(c)[0]);
    }
  }

  lemma PartitionsShown(c: Config)
    requires ConfigOk(c)
    ensures TagsOk(PartitionTags(c))
    ensures ShowAll(PartitionTags(c)) ==
      if !c.emmc && c.partitions != [] then
        Bytes(2 + |c.partitions| * 7) + Bytes(ATAG_MSM_PARTITION) + Entries(c.partitions)
      else []
  {
    hide Bytes, Entries;
    FirstTagsOk(c);
    if !c.emmc && c.partitions != [] {
      ShowOne(PartitionTags(c)[0]);
    }
  }

  lemma FirstTagsShown(c: Config)
    requires ConfigOk(c)
    ensures TagsOk(FirstTags(c)) && TagsOk(RamdiskTags(c)) && TagsOk(PartitionTags(c))
    ensures ShowAll(FirstTags(c)) ==
      ShowAll([Tag(ATAG_CORE, [])]) + ShowAll(RamdiskTags(c)) + ShowAll(c.memory) + ShowAll(PartitionTags(c))
  {
    hide RamdiskTags, PartitionTags, ShowAll;
    FirstTagsOk(c);
    ShowAllConcat([Tag(ATAG_CORE, [])], RamdiskTags(c));
    ShowAllConcat([Tag(ATAG_CORE, [])] + RamdiskTags(c), c.memory);
    ShowAllConcat([Tag(ATAG_CORE, [])] + RamdiskTags(c) + c.memory, PartitionTags(c));
  }

  lemma AllTagsShown(c: Config, line: seq<Byte>, pad: seq<Byte>)
    requires ConfigOk(c) && Padded(line, pad)
    ensures
      var t := Tag(ATAG_CMDLINE, line + [0] + pad);
      && TagOk(t) && |t.data| == Room(|line|)
      && TagsOk(FirstTags(c)) && TagsOk(AllTags(c, line, pad))
      && ShowAll(AllTags(c, line, pad)) == ShowAll(FirstTags(c)) + Show(t)
  {
    hide FirstTags, Bytes;
    var t := Tag(ATAG_CMDLINE, line + [0] + pad);
    FirstTagsOk(c);
    AllTagsOk(c, line, pad);
    assert t == AllTags(c, line, pad)[|FirstTags(c)|];
    ShowOne(t);
    ShowAllConcat(FirstTags(c), [t]);
  }

  /** The data of the command line's tag; what stood behind its NUL stays. */
  method PutLine(mem: array<Byte>, at: nat, c: Config, n: nat, ghost line: seq<Byte>, ghost pad: seq<Byte>)
    requires 0 !in c.cmdline && 0 !in c.serial && line == CommandLine(c)
    requires |line| < n && at + n <= mem.Length && pad == mem[at + |line| + 1..at + n]
    modifies mem
    ensures mem[..at + n] == old(mem[..at]) + (line + [0] + pad) && mem[at + n..] == old(mem[at + n..])
  {
    hide CommandLine;
    ghost var before, len := mem[..], |line|;
    CopyCommandLine(mem, at, c, at + len + 1);
    DataStands(mem[..], at, len, n, before, line, pad);
    assert mem[..at + n] == mem[..at] + mem[..][at..at + n];
    assert mem[at + n..] == mem[at + len + 1..][n - len - 1..];
  }

  /** The command line's tag, in room for `n` bytes. */
  method PutCommandLine(mem: array<Byte>, at: nat, c: Config, n: nat, ghost line: seq<Byte>, ghost pad: seq<Byte>)
      returns (next: nat)
    requires 0 !in c.cmdline && 0 !in c.serial && line == CommandLine(c)
    requires n == Room(|line|) && n / 4 + 2 < 0x1_0000_0000
    requires at + 8 + n <= mem.Length && pad == mem[at + 8 + |line| + 1..at + 8 + n]
    modifies mem
    ensures next == at + 8 + n && |line + [0] + pad| == n
    ensures mem[..next] == old(mem[..at]) + Show(Tag(ATAG_CMDLINE, line + [0] + pad))
    ensures mem[next..] == old(mem[next..])
  {
    hide CommandLine, Bytes, Room;
    ghost var before := mem[..];
    next := PutHeader(mem, at, n / 4 + 2, ATAG_CMDLINE);
    ghost var now := mem[..];
    assert now[next..] == before[next..];
    Inner(now, next, |line| + 1, n);
    Inner(before, next, |line| + 1, n);
    assert mem[next + |line| + 1..next + n] == now[next + |line| + 1..next + n];
    PutLine(mem, next, c, n, line, pad);
    next := next + n;
    assert now[next..] == before[next..] by {
      assert now[next..] == now[next - n..][n..] && before[next..] == before[next - n..][n..];
    }
    assert mem[..next] == before[..at] + (Bytes(n / 4 + 2) + Bytes(ATAG_CMDLINE) + (line + [0] + pad));
  }

  lemma Inner(m: seq<Byte>, at: nat, i: nat, j: nat)
    requires i <= j && at + j <= |m|
    ensures m[at..][i..j] == m[at + i..at + j]
  {
  }

  lemma DataStands(m: seq<Byte>, at: nat, len: nat, n: nat, before: seq<Byte>, line: seq<Byte>, pad: seq<Byte>)
    requires len == |line| < n && at + n <= |m| == |before|
    requires m[at..at + len + 1] == line + [0] && m[at + len + 1..] == before[at + len + 1..]
    requires pad == before[at + len + 1..at + n]
    ensures m[at..at + n] == line + [0] + pad
  {
    assert m[at..at + n] == m[at..at + len + 1] + m[at + len + 1..at + n];
    assert m[at + len + 1..at + n] == m[at + len + 1..][..|pad|] == before[at + len + 1..][..|pad|];
  }

  /** The room that the whole tag list takes. */
  ghost function ImageLength(c: Config): (n: nat)
    requires ConfigOk(c)
    ensures n >= 16 + Room(|CommandLine(c)|)
  {
    FirstTagsOk(c);
    |ShowAll(FirstTags(c))| + 8 + Room(|CommandLine(c)|) + 8
  }

  /** These bytes are the image of the tag list for `c`; `pad` follows the command line in its tag. */
  ghost predicate IsImage(bytes: seq<Byte>, c: Config, pad: seq<Byte>)
    requires ConfigOk(c)
  {
    var line := CommandLine(c);
    Padded(line, pad) && TagsOk(AllTags(c, line, pad)) && bytes == Image(c, line, pad)
  }

  /** boot_linux up to the jump: memory holds the image of the tag list, padded
      with what it held before, and nothing behind the image has changed. */
  method BuildTags(mem: array<Byte>, c: Config) returns (end: nat, ghost pad: seq<Byte>)
    requires ConfigOk(c) && ImageLength(c) <= mem.Length
    modifies mem
    ensures end == ImageLength(c) && |pad| + 8 <= end && pad == old(mem[end - 8 - |pad|..end - 8])
    ensures IsImage(mem[..end], c, pad) && mem[end..] == old(mem[end..])
  {
    hide FirstTags, CommandLine, ShowAll, Bytes, AllTags, Show;
    FirstTagsOk(c);
    ghost var before, line := mem[..], CommandLine(c);
    var len := SizeCommandLine(c);
    var n := Room(len);
    CommandLineLength(c);
    var at := PutFirstTags(mem, c);
    ghost var first := mem[..];
    pad := before[at + 8 + len + 1..at + 8 + n];
    Suffix(first, before, at, at + 8 + len + 1, at + 8 + n);
    AllTagsShown(c, line, pad);
    at := PutCommandLine(mem, at, c, n, line, pad);
    ghost var lined := mem[..];
    Suffix(lined, before, at, at, at + 8);
    end := PutHeader(mem, at, 0, 0);
    assert mem[..end] == lined[..at] + Bytes(0) + Bytes(0);
  }

  /** Memory that agrees from one place on agrees from any later one, and in between. */
  lemma Suffix(a: seq<Byte>, b: seq<Byte>, at: nat, i: nat, j: nat)
    requires |a| == |b| && at <= i <= j <= |a| && a[at..] == b[at..]
    ensures a[i..j] == b[i..j] && a[j..] == b[j..]
  {
    Inner(a, at, i - at, j - at);
    Inner(b, at, i - at, j - at);
    Inner(a, at, j - at, |a| - at);
    Inner(b, at, j - at, |a| - at);
    assert a[j..|a|] == a[j..] && b[j..|b|] == b[j..];
  }

  lemma CommandLineNulFree(c: Config)
    requires 0 !in c.cmdline && 0 !in c.serial
    ensures 0 !in CommandLine(c)
  {
    hide Ascii, EmmcText, SerialText, PauseText, AuthorizedText, ModeText, RebootText, BasebandText;
    TextsNulFree(c.baseband, c.recovery);
    NoBaseband();
  }

  // ---- what the kernel reads ----------------------------------------------

  function HasRamdisk(c: Config): nat {
    if c.ramdiskSize != 0 then 1 else 0
  }

  function HasPartitions(c: Config): nat {
    if !c.emmc && c.partitions != [] then 1 else 0
  }

  predicate TellsRamdisk(t: Tag, c: Config) {
    t.id == ATAG_INITRD2 && |t.data| == 8 && WordAt(t.data, 0) == c.ramdisk && WordAt(t.data, 4) == c.ramdiskSize
  }

  ghost predicate TellsPartitions(t: Tag, c: Config)
    requires ConfigOk(c)
  {
    t.id == ATAG_MSM_PARTITION && ReadEntries(t.data) == Cut(c.partitions)
  }

  /** A list of tags tells the kernel what boot_linux was given: the ramdisk, the
      memory, the partition table with its names cut, and the command line `line`. */
  ghost predicate Tells(tags: seq<Tag>, c: Config, line: seq<Byte>)
    requires ConfigOk(c)
  {
    var first := 1 + HasRamdisk(c);
    var n := first + |c.memory|;
    && |tags| == n + HasPartitions(c) + 1
    && tags[0] == Tag(ATAG_CORE, [])
    && (HasRamdisk(c) == 1 ==> TellsRamdisk(tags[1], c))
    && tags[first..n] == c.memory
    && (HasPartitions(c) == 1 ==> TellsPartitions(tags[n], c))
    && tags[|tags| - 1].id == ATAG_CMDLINE && Text(tags[|tags| - 1].data) == line
  }

  lemma RamdiskTold(c: Config)
    ensures |RamdiskTags(c)| == HasRamdisk(c) && (HasRamdisk(c) == 1 ==> TellsRamdisk(RamdiskTags(c)[0], c))
  {
    hide Bytes;
    WordRoundTrip(c.ramdisk);
    WordRoundTrip(c.ramdiskSize);
    WordAtShift([], Bytes(c.ramdisk), Bytes(c.ramdiskSize), 0);
    WordAtShift(Bytes(c.ramdisk), Bytes(c.ramdiskSize), [], 0);
    assert [] + Bytes(c.ramdisk) + Bytes(c.ramdiskSize) == Bytes(c.ramdisk) + Bytes(c.ramdiskSize) + [];
    assert Bytes(c.ramdisk) + Bytes(c.ramdiskSize) + [] == Bytes(c.ramdisk) + Bytes(c.ramdiskSize);
  }

  lemma PartitionsTold(c: Config)
    requires ConfigOk(c)
    ensures |PartitionTags(c)| == HasPartitions(c)
    ensures HasPartitions(c) == 1 ==> TellsPartitions(PartitionTags(c)[0], c)
  {
    hide Entries, Cut, ReadEntries;
    EntriesRoundTrip(c.partitions);
  }

  lemma AllTagsTell(c: Config, line: seq<Byte>, pad: seq<Byte>)
    requires ConfigOk(c) && 0 !in line
    ensures Tells(AllTags(c, line, pad), c, line)
  {
    hide RamdiskTags, PartitionTags, TellsRamdisk, TellsPartitions, Text, HasRamdisk, HasPartitions;
    RamdiskTold(c);
    PartitionsTold(c);
    TextIs(line, pad);
    ListTells(c, RamdiskTags(c), PartitionTags(c), Tag(ATAG_CMDLINE, line + [0] + pad));
  }

  /** Where the parts of the list stand in it. */
  lemma ListTells(c: Config, ramdisk: seq<Tag>, partitions: seq<Tag>, last: Tag)
    ensures
      var tags := [Tag(ATAG_CORE, [])] + ramdisk + c.memory + partitions + [last];
      var first := 1 + |ramdisk|;
      var n := first + |c.memory|;
      && |tags| == n + |partitions| + 1 && tags[0] == Tag(ATAG_CORE, []) && tags[|tags| - 1] == last
      && (|ramdisk| == 1 ==> tags[1] == ramdisk[0]) && tags[first..n] == c.memory
      && (|partitions| == 1 ==> tags[n] == partitions[0])
  {
  }

  /** The command line that the kernel is to read, in words. */
  function Wanted(c: Config): seq<Byte> {
    c.cmdline
    + (if c.emmc then Ascii(" androidboot.emmc=true") else [])
    + Ascii(" androidboot.serialno=") + c.serial
    + (if c.pause then Ascii(" androidboot.mode=charger") else [])
    + (if c.authorized then Ascii(" androidboot.authorized_kernel=true") else [])
    + WantedBaseband(c.baseband)
    + (if c.recovery then Ascii(" androidboot.bootupmode=recovery reboot=i")
       else Ascii(" androidboot.bootupmode=normal reboot=h"))
  }

  function WantedBaseband(b: Baseband): seq<Byte> {
    if b.Unknown? then [] else
    Ascii(" androidboot.baseband=") +
    match b
    case Apq => Ascii("apq")
    case Msm => Ascii("msm")
    case Csfb => Ascii("csfb")
    case Svlte2a => Ascii("svlte2a")
    case Mdm => Ascii("mdm")
    case _ => Ascii("sglte")
  }

  /** Text is passed on character by character. */
  lemma {:induction false} AsciiChars(s: string, i: nat)
    requires i < |s| && s[i] as int < 256
    ensures Ascii(s)[i] == s[i] as int
    decreases |s|
  {
    if i > 0 {
      AsciiChars(s[1..], i - 1);
    }
  }

  lemma {:induction false} AsciiConcat(a: string, b: string)
    ensures Ascii(a + b) == Ascii(a) + Ascii(b)
    decreases |a|
  {
    if a == "" {
      assert a + b == b;
    } else {
      assert (a + b)[0] == a[0] && (a + b)[1..] == a[1..] + b;
      AsciiConcat(a[1..], b);
    }
  }

  lemma BasebandIsWanted(b: Baseband)
    ensures Ascii(BasebandText(b)) == WantedBaseband(b)
  {
    hide Ascii;
    NoBaseband();
    if !b.Unknown? {
      var name := match b
        case Apq => "apq"
        case Msm => "msm"
        case Csfb => "csfb"
        case Svlte2a => "svlte2a"
        case Mdm => "mdm"
        case _ => "sglte";
      assert BasebandText(b) == " androidboot.baseband=" + name;
      AsciiConcat(" androidboot.baseband=", name);
    }
  }

  lemma ModeIsWanted(recovery: bool)
    ensures Ascii(ModeText(recovery)) + Ascii(RebootText(recovery)) ==
      if recovery then Ascii(" androidboot.bootupmode=recovery reboot=i") else Ascii(" androidboot.bootupmode=normal reboot=h")
  {
    hide Ascii;
    AsciiConcat(ModeText(recovery), RebootText(recovery));
    assert recovery ==> ModeText(true) + RebootText(true) == " androidboot.bootupmode=recovery reboot=i";
    assert !recovery ==> ModeText(false) + RebootText(false) == " androidboot.bootupmode=normal reboot=h";
  }

  lemma FixedTexts()
    ensures EmmcText() == " androidboot.emmc=true" && SerialText() == " androidboot.serialno="
    ensures PauseText() == " androidboot.mode=charger" && AuthorizedText() == " androidboot.authorized_kernel=true"
    ensures Ascii("") == []
  {
  }

  /** The command line that is copied is the one that is wanted. */
  lemma LineIsWanted(c: Config)
    ensures CommandLine(c) == Wanted(c)
  {
    hide Ascii, EmmcText, SerialText, PauseText, AuthorizedText, ModeText, RebootText, BasebandText, WantedBaseband;
    FixedTexts();
    BasebandIsWanted(c.baseband);
    ModeIsWanted(c.recovery);
    var first := c.cmdline + Ascii(if c.emmc then EmmcText() else "") + Ascii(SerialText()) + c.serial
      + Ascii(if c.pause then PauseText() else "") + Ascii(if c.authorized then AuthorizedText() else "")
      + Ascii(BasebandText(c.baseband));
    assert CommandLine(c) == first + Ascii(ModeText(c.recovery)) + Ascii(RebootText(c.recovery));
    assert CommandLine(c) == first + (Ascii(ModeText(c.recovery)) + Ascii(RebootText(c.recovery)));
  }

  /** Both passes agree, and whatever follows the image in memory, the kernel
      walks just the tags that were meant and reads from them what was given. */
  lemma BootParametersArrive(c: Config, line: seq<Byte>, pad: seq<Byte>, after: seq<Byte>)
    requires ConfigOk(c) && line == CommandLine(c) && Padded(line, pad)
    ensures TagsOk(AllTags(c, line, pad)) && Walk(Image(c, line, pad) + after, 0) == Some(AllTags(c, line, pad))
    ensures Tells(AllTags(c, line, pad), c, Wanted(c))
  {
    hide CommandLine, FirstTags, Walk, Image, Tells, Wanted;
    CommandLineNulFree(c);
    LineIsWanted(c);
    KernelFindsEverything(c, line, pad, after);
    AllTagsTell(c, line, pad);
  }

  /** boot_linux up to the jump, and the kernel's side of it: from this memory,
      whatever it held before, the kernel reads what boot_linux was given. */
  method PassParameters(mem: array<Byte>, c: Config) returns (end: nat)
    requires ConfigOk(c) && ImageLength(c) <= mem.Length
    modifies mem
    ensures end == ImageLength(c) && mem[end..] == old(mem[end..])
    ensures Walk(mem[..], 0).Some? && Tells(Walk(mem[..], 0).value, c, Wanted(c))
  {
    hide FirstTags, CommandLine, Walk, Tells, ConfigOk, Image, AllTags, ShowAll, ImageLength, Wanted;
    ghost var pad;
    end, pad := BuildTags(mem, c);
    BootParametersArrive(c, CommandLine(c), pad, mem[end..]);
    assert mem[..] == mem[..end] + mem[end..];
  }
}
