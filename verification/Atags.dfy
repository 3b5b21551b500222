/** The boot parameters that boot_linux hands to the kernel: a list of tags in
    memory, built in two passes over the command line. */
module Atags {
  type Byte = x: int | 0 <= x < 256
  type Word32 = x: int | 0 <= x < 0x1_0000_0000

  const ATAG_CORE: Word32 := 0x54410001
  const ATAG_INITRD2: Word32 := 0x54420005
  const ATAG_MSM_PARTITION: Word32 := 0x4d534d70
  const ATAG_CMDLINE: Word32 := 0x54410009

  // ---- words and tags -----------------------------------------------------

  /** A word in memory, least significant byte first. */
  function Bytes(w: Word32): (b: seq<Byte>)
    ensures |b| == 4
  {
    var q1 := w / 256;
    var q2 := q1 / 256;
    [w % 256, q1 % 256, q2 % 256, q2 / 256]
  }

  function WordAt(m: seq<Byte>, i: nat): Word32
    requires i + 4 <= |m|
  {
    (m[i] as int) + 0x100 * (m[i + 1] as int) + 0x1_0000 * (m[i + 2] as int) + 0x100_0000 * (m[i + 3] as int)
  }

  lemma WordRoundTrip(w: Word32)
    ensures WordAt(Bytes(w), 0) == w
  {
    var q1 := w / 256;
    var q2 := q1 / 256;
    assert w == 256 * q1 + w % 256;
    assert q1 == 256 * q2 + q1 % 256;
    assert q2 == 256 * (q2 / 256) + q2 % 256;
  }

  /** A tag: its identifier and its data, whole words. */
  datatype Tag = Tag(id: Word32, data: seq<Byte>)

  ghost predicate TagOk(t: Tag) {
    |t.data| % 4 == 0 && |t.data| / 4 + 2 < 0x1_0000_0000
  }

  function Show(t: Tag): seq<Byte>
    requires |t.data| / 4 + 2 < 0x1_0000_0000
  {
    Bytes(|t.data| / 4 + 2) + Bytes(t.id) + t.data
  }

  ghost predicate TagsOk(ts: seq<Tag>) {
    forall i | 0 <= i < |ts| :: TagOk(ts[i])
  }

  function ShowAll(ts: seq<Tag>): seq<Byte>
    requires forall i | 0 <= i < |ts| :: |ts[i].data| / 4 + 2 < 0x1_0000_0000
  {
    if ts == [] then [] else Show(ts[0]) + ShowAll(ts[1..])
  }

  datatype Option<T> = None | Some(value: T)

  /** The kernel's walk: from tag to tag by their sizes, up to a tag of size zero. */
  function Walk(m: seq<Byte>, at: nat): Option<seq<Tag>>
    requires at <= |m|
    decreases |m| - at
  {
    if at + 8 > |m| then None else
    var size := WordAt(m, at);
    if size == 0 then Some([])
    else if size < 2 || at + 4 * size > |m| then None
    else
      match Walk(m, at + 4 * size)
      case None => None
      case Some(rest) => Some([Tag(WordAt(m, at + 4), m[at + 8..at + 4 * size])] + rest)
  }

  lemma WordAtShift(a: seq<Byte>, b: seq<Byte>, c: seq<Byte>, i: nat)
    requires i + 4 <= |b|
    ensures WordAt(a + b + c, |a| + i) == WordAt(b, i)
  {
  }

  lemma {:induction false} ShownTag(before: seq<Byte>, t: Tag, after: seq<Byte>)
    requires TagOk(t)
    ensures
      var m := before + Show(t) + after;
      var at := |before|;
      var size := |t.data| / 4 + 2;
      && |Show(t)| == 4 * size && at + 4 * size <= |m| && WordAt(m, at) == size
      && WordAt(m, at + 4) == t.id && m[at + 8..at + 4 * size] == t.data
  {
    var m := before + Show(t) + after;
    var size := |t.data| / 4 + 2;
    WordAtShift(before, Show(t), after, 0);
    WordAtShift(before, Show(t), after, 4);
    WordAtShift([], Bytes(size), Bytes(t.id) + t.data, 0);
    WordAtShift(Bytes(size), Bytes(t.id), t.data, 0);
    assert Show(t) == [] + Bytes(size) + (Bytes(t.id) + t.data);
    WordRoundTrip(size);
    WordRoundTrip(t.id);
    assert m[|before| + 8..|before| + 4 * size] == t.data;
  }

  lemma WalkStep(m: seq<Byte>, at: nat)
    requires at + 8 <= |m| && WordAt(m, at) >= 2 && at + 4 * WordAt(m, at) <= |m|
    ensures
      var size := WordAt(m, at);
      Walk(m, at) ==
      match Walk(m, at + 4 * size)
      case None => None
      case Some(rest) => Some([Tag(WordAt(m, at + 4), m[at + 8..at + 4 * size])] + rest)
  {
  }

  lemma WalkStops(before: seq<Byte>, after: seq<Byte>)
    requires |after| >= 8 && WordAt(after, 0) == 0
    ensures Walk(before + after, |before|) == Some([])
  {
    assert before + after == before + after + [];
    WordAtShift(before, after, [], 0);
  }

  lemma Regroup(a: seq<Byte>, b: seq<Byte>, c: seq<Byte>, d: seq<Byte>)
    ensures a + (b + c) + d == a + b + (c + d) == (a + b) + c + d
  {
  }

  /** Walking a list of tags that ends in a zero word recovers it. */
  lemma {:induction false} WalkShown(before: seq<Byte>, ts: seq<Tag>, after: seq<Byte>)
    requires TagsOk(ts) && |after| >= 8 && WordAt(after, 0) == 0
    ensures Walk(before + ShowAll(ts) + after, |before|) == Some(ts)
    decreases |ts|
  {
    hide Walk, Show, WordAt;
    if ts == [] {
      assert before + ShowAll(ts) + after == before + after;
      WalkStops(before, after);
    } else {
      var t := ts[0];
      var m := before + ShowAll(ts) + after;
      assert TagOk(t);
      ShownTag(before, t, ShowAll(ts[1..]) + after);
      Regroup(before, Show(t), ShowAll(ts[1..]), after);
      WalkShown(before + Show(t), ts[1..], after);
      WalkStep(m, |before|);
      assert ts == [t] + ts[1..];
    }
  }

  // ---- what boot_linux is given -------------------------------------------

  /** A partition; its name is a 16-byte field. */
  datatype Partition = Partition(name: seq<Byte>, start: Word32, length: Word32, flags: Word32)

  datatype Baseband = Apq | Msm | Csfb | Svlte2a | Mdm | Sglte | Unknown

  datatype Config = Config(
    ramdisk: Word32,
    ramdiskSize: Word32,
    memory: seq<Tag>,               // what target_atag_mem appends
    emmc: bool,
    partitions: seq<Partition>,
    cmdline: seq<Byte>,
    serial: seq<Byte>,
    recovery: bool,
    pause: bool,
    authorized: bool,
    baseband: Baseband)

  ghost predicate ConfigOk(c: Config) {
    && TagsOk(c.memory)
    && (forall i | 0 <= i < |c.partitions| :: |c.partitions[i].name| == 16)
    && 7 * |c.partitions| + 2 < 0x1_0000_0000
    && 0 !in c.cmdline && 0 !in c.serial
    && |c.cmdline| + |c.serial| + 400 < 0x1_0000_0000
  }

  function Ascii(s: string): (b: seq<Byte>)
    ensures |b| == |s|
  {
    if s == "" then [] else [(s[0] as int) % 256] + Ascii(s[1..])
  }

  function BasebandText(b: Baseband): string {
    match b
    case Apq => " androidboot.baseband=apq"
    case Msm => " androidboot.baseband=msm"
    case Csfb => " androidboot.baseband=csfb"
    case Svlte2a => " androidboot.baseband=svlte2a"
    case Mdm => " androidboot.baseband=mdm"
    case Sglte => " androidboot.baseband=sglte"
    case Unknown => ""
  }

  function EmmcText(): string { " androidboot.emmc=true" }
  function SerialText(): string { " androidboot.serialno=" }
  function PauseText(): string { " androidboot.mode=charger" }
  function AuthorizedText(): string { " androidboot.authorized_kernel=true" }
  function ModeText(recovery: bool): string {
    if recovery then " androidboot.bootupmode=recovery" else " androidboot.bootupmode=normal"
  }
  function RebootText(recovery: bool): string {
    if recovery then " reboot=i" else " reboot=h"
  }

  /** The command line in the order of the copying pass. */
  function CommandLine(c: Config): seq<Byte> {
    c.cmdline
    + Ascii(if c.emmc then EmmcText() else "")
    + Ascii(SerialText())
    + c.serial
    + Ascii(if c.pause then PauseText() else "")
    + Ascii(if c.authorized then AuthorizedText() else "")
    + Ascii(BasebandText(c.baseband))
    + Ascii(ModeText(c.recovery))
    + Ascii(RebootText(c.recovery))
  }

  /** The room for a command line of `len` bytes: its NUL included, in whole words. */
  function Room(len: nat): (n: nat)
    ensures n % 4 == 0 && len + 1 <= n <= len + 4
  {
    len + 4 - (len + 4) % 4
  }

  /** ptentry_to_tag: the name is cut to leave a NUL in its last byte. */
  function Entry(p: Partition): seq<Byte>
    requires |p.name| == 16
  {
    p.name[15 := 0] + Bytes(p.start) + Bytes(p.length) + Bytes(p.flags)
  }

  function Entries(ps: seq<Partition>): (b: seq<Byte>)
    requires forall i | 0 <= i < |ps| :: |ps[i].name| == 16
    ensures |b| == 28 * |ps|
  {
    if ps == [] then [] else Entry(ps[0]) + Entries(ps[1..])
  }

  function RamdiskTags(c: Config): seq<Tag> {
    if c.ramdiskSize != 0 then [Tag(ATAG_INITRD2, Bytes(c.ramdisk) + Bytes(c.ramdiskSize))] else []
  }

  function PartitionTags(c: Config): seq<Tag>
    requires forall i | 0 <= i < |c.partitions| :: |c.partitions[i].name| == 16
  {
    if !c.emmc && c.partitions != [] then [Tag(ATAG_MSM_PARTITION, Entries(c.partitions))] else []
  }

  /** The tags before the command line. */
  function FirstTags(c: Config): seq<Tag>
    requires forall i | 0 <= i < |c.partitions| :: |c.partitions[i].name| == 16
  {
    [Tag(ATAG_CORE, [])] + RamdiskTags(c) + c.memory + PartitionTags(c)
  }

  /** The tag list with this command line; `pad` is what memory held behind its NUL. */
  function AllTags(c: Config, line: seq<Byte>, pad: seq<Byte>): seq<Tag>
    requires forall i | 0 <= i < |c.partitions| :: |c.partitions[i].name| == 16
  {
    FirstTags(c) + [Tag(ATAG_CMDLINE, line + [0] + pad)]
  }

  // ---- the kernel finds what was meant ------------------------------------

  /** The C string at the start of a tag's data. */
  function Text(data: seq<Byte>): seq<Byte> {
    if data == [] || data[0] == 0 then [] else [data[0]] + Text(data[1..])
  }

  lemma {:induction false} TextIs(text: seq<Byte>, rest: seq<Byte>)
    requires 0 !in text
    ensures Text(text + [0] + rest) == text
    decreases |text|
  {
    var data := text + [0] + rest;
    if text != [] {
      assert data[1..] == text[1..] + [0] + rest;
      TextIs(text[1..], rest);
    }
  }

  /** The partitions the kernel reads from the data of their tag. */
  function ReadEntries(data: seq<Byte>): seq<Partition> {
    if |data| < 28 then []
    else [Partition(data[..16], WordAt(data, 16), WordAt(data, 20), WordAt(data, 24))] + ReadEntries(data[28..])
  }

  function Cut(ps: seq<Partition>): seq<Partition>
    requires forall i | 0 <= i < |ps| :: |ps[i].name| == 16
  {
    if ps == [] then [] else [ps[0].(name := ps[0].name[15 := 0])] + Cut(ps[1..])
  }

  lemma EntryReads(p: Partition, rest: seq<Byte>)
    requires |p.name| == 16
    ensures
      var data := Entry(p) + rest;
      && |data| >= 28 && data[..16] == p.name[15 := 0] && data[28..] == rest
      && WordAt(data, 16) == p.start && WordAt(data, 20) == p.length && WordAt(data, 24) == p.flags
  {
    var data := Entry(p) + rest;
    var name := p.name[15 := 0];
    WordRoundTrip(p.start);
    WordRoundTrip(p.length);
    WordRoundTrip(p.flags);
    WordAtShift(name, Bytes(p.start), Bytes(p.length) + Bytes(p.flags) + rest, 0);
    assert data == name + Bytes(p.start) + (Bytes(p.length) + Bytes(p.flags) + rest);
    WordAtShift(name + Bytes(p.start), Bytes(p.length), Bytes(p.flags) + rest, 0);
    assert data == (name + Bytes(p.start)) + Bytes(p.length) + (Bytes(p.flags) + rest);
    WordAtShift(name + Bytes(p.start) + Bytes(p.length), Bytes(p.flags), rest, 0);
  }

  /** The partition table survives, but for the last byte of each name. */
  lemma {:induction false} EntriesRoundTrip(ps: seq<Partition>)
    requires forall i | 0 <= i < |ps| :: |ps[i].name| == 16
    ensures ReadEntries(Entries(ps)) == Cut(ps)
    decreases |ps|
  {
    if ps != [] {
      EntryReads(ps[0], Entries(ps[1..]));
      EntriesRoundTrip(ps[1..]);
    }
  }

  // ---- the whole list -----------------------------------------------------

  lemma FirstTagsOk(c: Config)
    requires ConfigOk(c)
    ensures TagsOk(FirstTags(c)) && TagsOk([Tag(ATAG_CORE, [])]) && TagsOk(RamdiskTags(c)) && TagsOk(PartitionTags(c))
  {
  }

  lemma TextLengths(b: Baseband, recovery: bool)
    ensures |EmmcText()| <= 40 && |SerialText()| <= 40 && |PauseText()| <= 40 && |AuthorizedText()| <= 40
    ensures |BasebandText(b)| <= 40 && |ModeText(recovery)| <= 40 && |RebootText(recovery)| <= 40
  {
  }

  lemma CommandLineLength(c: Config)
    ensures |CommandLine(c)| <= |c.cmdline| + |c.serial| + 300
  {
    hide Ascii, EmmcText, SerialText, PauseText, AuthorizedText, ModeText, RebootText, BasebandText;
    TextLengths(c.baseband, c.recovery);
  }

  /** `pad` fills the room of the command line. */
  ghost predicate Padded(line: seq<Byte>, pad: seq<Byte>) {
    |line| < 0x1_0000_0000 && |pad| == Room(|line|) - |line| - 1
  }

  lemma AllTagsOk(c: Config, line: seq<Byte>, pad: seq<Byte>)
    requires ConfigOk(c) && Padded(line, pad)
    ensures TagsOk(AllTags(c, line, pad))
  {
    hide FirstTags;
    FirstTagsOk(c);
  }

  lemma {:induction false} ShowAllConcat(a: seq<Tag>, b: seq<Tag>)
    requires TagsOk(a) && TagsOk(b)
    ensures TagsOk(a + b) && ShowAll(a + b) == ShowAll(a) + ShowAll(b)
    decreases |a|
  {
    hide Show;
    if a == [] {
      assert a + b == b;
    } else {
      assert (a + b)[1..] == a[1..] + b && (a + b)[0] == a[0];
      ShowAllConcat(a[1..], b);
    }
  }

  lemma ShowOne(t: Tag)
    requires TagOk(t)
    ensures TagsOk([t]) && ShowAll([t]) == Show(t)
  {
    assert [t][1..] == [];
  }

  /** The bytes of the whole list, from the core tag to the end tag. */
  function Image(c: Config, line: seq<Byte>, pad: seq<Byte>): seq<Byte>
    requires forall i | 0 <= i < |c.partitions| :: |c.partitions[i].name| == 16
    requires forall i | 0 <= i < |AllTags(c, line, pad)| :: |AllTags(c, line, pad)[i].data| / 4 + 2 < 0x1_0000_0000
  {
    ShowAll(AllTags(c, line, pad)) + Bytes(0) + Bytes(0)
  }

  /** From the image, and whatever memory follows it, the kernel's walk recovers
      every tag; the command line it finds is the exact text, ended inside its tag. */
  lemma KernelFindsEverything(c: Config, line: seq<Byte>, pad: seq<Byte>, after: seq<Byte>)
    requires ConfigOk(c) && Padded(line, pad) && 0 !in line
    ensures TagsOk(AllTags(c, line, pad)) && Walk(Image(c, line, pad) + after, 0) == Some(AllTags(c, line, pad))
    ensures
      var last := AllTags(c, line, pad)[|FirstTags(c)|];
      last.id == ATAG_CMDLINE && |last.data| == Room(|line|) && Text(last.data) == line
  {
    hide FirstTags, ShowAll, Walk;
    AllTagsOk(c, line, pad);
    var ending := Bytes(0) + Bytes(0) + after;
    EndWord(after);
    WalkShown([], AllTags(c, line, pad), ending);
    assert [] + ShowAll(AllTags(c, line, pad)) + ending == Image(c, line, pad) + after;
    TextIs(line, pad);
  }

  lemma EndWord(after: seq<Byte>)
    ensures |Bytes(0) + Bytes(0) + after| >= 8 && WordAt(Bytes(0) + Bytes(0) + after, 0) == 0
  {
  }
}
