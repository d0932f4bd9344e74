/** The disk image: the bootstrap with a load table at its end, then the programs, each padded to whole sectors. */
module ImageSpec {
  import opened Defs

  const SECTOR: nat := 512
  /** The last address a program may end at (utils/BuildImage.c:160). */
  const TOP: int := 0x9ffff
  /** How many 16-bit words the table under construction has room for. */
  const N_INFO: nat := 256
  const DRIVE_AT: nat := 508

  type Word16 = n: nat | n < 65536

  /** The two's complement value of the low 16 bits. */
  function Short(x: int): (s: int)
    ensures -32768 <= s < 32768 && (s - x) % 65536 == 0
  {
    (x + 32768) % 65536 - 32768
  }

  function Low16(x: int): Word16 { x % 65536 }

  /** A load address as given: four hex digits on either side of a colon, or one number. */
  datatype Argument = Segmented(segment: Word16, offset: Word16) | Flat(address: int) {
    /** The address as the builder computes it, from signed 16-bit halves. */
    function Computed(): int {
      match this
      case Segmented(s, o) => Short(s) * 16 + Short(o)
      case Flat(a) => a
    }

    predicate Valid() { Flat? ==> address <= TOP }

    function Segment(): Word16 {
      match this
      case Segmented(s, o) => s
      case Flat(a) => Low16(a / 16)
    }

    function Offset(): Word16 {
      match this
      case Segmented(s, o) => o
      case Flat(a) => a % 16
    }

    /** Where the processor will put it. */
    function Real(): nat { Segment() * 16 + Offset() }
  }

  /** The builder checks the real address exactly when no half has its top bit set (or the number is not
      negative): the halves are signed in the builder, unsigned in the processor. */
  lemma ComputedIsReal(a: Argument)
    requires a.Valid()
    ensures a.Computed() == a.Real()
      <==> match a case Segmented(s, o) => s < 0x8000 && o < 0x8000 case Flat(n) => 0 <= n
  {
    match a
    case Segmented(s, o) =>
    case Flat(n) =>
      if 0 <= n {
        assert n / 16 < 65536;
      }
  }

  datatype Program = Program(content: seq<Byte>, at: Argument)

  function Zeros(n: nat): (z: seq<Byte>)
    ensures |z| == n && forall i :: 0 <= i < n ==> z[i] == 0
  {
    seq(n, i => 0)
  }

  function Sectors(content: seq<Byte>): nat { (|content| + SECTOR - 1) / SECTOR }

  /** Padded with null bytes to whole sectors. */
  function Pad(content: seq<Byte>): (r: seq<Byte>)
    ensures |r| == SECTOR * Sectors(content) && content <= r
    ensures forall i :: |content| <= i < |r| ==> r[i] == 0
  {
    content + Zeros(SECTOR * Sectors(content) - |content|)
  }

  function PadAll(progs: seq<Program>): seq<Byte> {
    if progs == [] then [] else Pad(progs[0].content) + PadAll(progs[1..])
  }

  function SectorsAll(progs: seq<Program>): nat {
    if progs == [] then 0 else Sectors(progs[0].content) + SectorsAll(progs[1..])
  }

  lemma {:induction false} PadAllSize(progs: seq<Program>)
    ensures |PadAll(progs)| == SECTOR * SectorsAll(progs)
  {
    if progs != [] {
      PadAllSize(progs[1..]);
    }
  }

  // ---- the load table ----

  datatype Entry = Entry(count: Word16, segment: Word16, offset: Word16)

  function EntryOf(p: Program): Entry {
    Entry(Low16(Sectors(p.content)), p.at.Segment(), p.at.Offset())
  }

  function EntriesOf(progs: seq<Program>): (r: seq<Entry>)
    ensures |r| == |progs| && forall i :: 0 <= i < |r| ==> r[i] == EntryOf(progs[i])
  {
    seq(|progs|, i requires 0 <= i < |progs| => EntryOf(progs[i]))
  }

  /** The table grows downwards: the first entry is last, and within an entry the count is last. */
  function Table(es: seq<Entry>): (r: seq<Word16>)
    ensures |r| == 3 * |es|
  {
    if es == [] then [] else Table(es[1..]) + [es[0].offset, es[0].segment, es[0].count]
  }

  lemma {:induction false} TableSnoc(es: seq<Entry>, e: Entry)
    ensures Table(es + [e]) == [e.offset, e.segment, e.count] + Table(es)
  {
    if es == [] {
      assert (es + [e])[1..] == [];
    } else {
      TableSnoc(es[1..], e);
      assert (es + [e])[1..] == es[1..] + [e];
    }
  }

  /** Entry `k` read from the end of the table. */
  lemma {:induction false} TableAt(es: seq<Entry>, k: nat)
    requires k < |es|
    ensures var t, n := Table(es), 3 * (|es| - k);
            n <= |t| && t[n - 1] == es[k].count && t[n - 2] == es[k].segment && t[n - 3] == es[k].offset
  {
    if k > 0 {
      TableAt(es[1..], k - 1);
    }
  }

  /** The word at byte `at`, low byte first. */
  function WordAt(s: seq<Byte>, at: nat): (w: Word16)
    requires at + 1 < |s|
    ensures w == 0 <==> s[at] == 0 && s[at + 1] == 0
  {
    var low: nat, high: nat := s[at], s[at + 1];
    low + 256 * high
  }

  /** The words as bytes, low byte first. */
  function BytesOf(ws: seq<Word16>): (r: seq<Byte>)
    ensures |r| == 2 * |ws|
    ensures forall i :: 0 <= i < |ws| ==> r[2 * i] == ws[i] % 256 && r[2 * i + 1] == ws[i] / 256
  {
    seq(2 * |ws|, i requires 0 <= i < 2 * |ws| => if i % 2 == 0 then ws[i / 2] % 256 else ws[i / 2] / 256)
  }

  lemma WordOfBytes(ws: seq<Word16>, i: nat)
    requires i < |ws|
    ensures WordAt(BytesOf(ws), 2 * i) == ws[i]
  {
    hide BytesOf;
    var w: nat, bytes := ws[i], BytesOf(ws);
    assert bytes[2 * i] == ws[i] % 256 && bytes[2 * i + 1] == ws[i] / 256;
    assert w % 256 + 256 * (w / 256) == w;
  }

  /** The three words of entry `k`, at their place before the end of the table's bytes. */
  lemma TableBytesAt(es: seq<Entry>, k: nat)
    requires k < |es|
    ensures var t, at := BytesOf(Table(es)), 6 * (|es| - k) - 2;
            && at + 1 < |t| && WordAt(t, at) == es[k].count
            && WordAt(t, at - 2) == es[k].segment && WordAt(t, at - 4) == es[k].offset
  {
    hide Table, BytesOf, WordAt;
    TableAt(es, k);
    var i := 3 * (|es| - k) - 3;
    WordOfBytes(Table(es), i + 2);
    WordOfBytes(Table(es), i + 1);
    WordOfBytes(Table(es), i);
  }

  // ---- building ----

  datatype Problem = BadAddress | TooLarge | TooMany | TooShort | NoRoom
  datatype Built = Image(bytes: seq<Byte>) | Rejected(why: Problem)

  /** What stops one program, given how many words of the table are still unused. */
  function Refusal(p: Program, unused: nat): Option<Problem> {
    if !p.at.Valid() then Some(BadAddress)
    else if p.at.Computed() + Sectors(p.content) * SECTOR > TOP then Some(TooLarge)
    else if unused < 3 then Some(TooMany)
    else None
  }

  function FirstRefusal(progs: seq<Program>, unused: nat): Option<Problem> {
    if progs == [] then None
    else
      match Refusal(progs[0], unused)
      case Some(why) => Some(why)
      case None => FirstRefusal(progs[1..], unused - 3)
  }

  function Patch(s: seq<Byte>, at: nat, data: seq<Byte>): (r: seq<Byte>)
    requires at + |data| <= |s|
    ensures |r| == |s|
    ensures forall i :: 0 <= i < |r| ==> r[i] == if at <= i < at + |data| then data[i - at] else s[i]
  {
    s[..at] + data + s[at + |data|..]
  }

  function TableBytes(progs: seq<Program>): (r: seq<Byte>)
    ensures |r| == 6 * |progs|
  {
    BytesOf(Table(EntriesOf(progs)))
  }

  /** Only zeros are overwritten at the end of the bootstrap. */
  predicate RoomFor(base: seq<Byte>, n: nat) {
    n <= |base| && forall i :: |base| - n <= i < |base| ==> base[i] == 0
  }

  /** The table goes in at the end of the bootstrap, the drive number at its fixed place. */
  function Finish(out: seq<Byte>, bootSize: nat, table: seq<Byte>, drive: Word16): (r: seq<Byte>)
    requires |table| <= bootSize <= |out| && DRIVE_AT + 2 <= |out|
    ensures |r| == |out|
  {
    Patch(Patch(out, bootSize - |table|, table), DRIVE_AT, BytesOf([drive]))
  }

  lemma WholeSectors(n: nat, sectors: nat)
    requires 0 < n <= SECTOR * sectors
    ensures SECTOR <= SECTOR * sectors
  {
  }

  function Build(boot: seq<Byte>, progs: seq<Program>, drive: Word16): Built
    requires progs != []
  {
    var base, table := Pad(boot), TableBytes(progs);
    match FirstRefusal(progs, N_INFO)
    case Some(why) => Rejected(why)
    case None =>
      if |base| < |table| then Rejected(TooShort)
      else if !RoomFor(base, |table|) then Rejected(NoRoom)
      else
        WholeSectors(|table|, Sectors(boot));
        Image(Finish(base + PadAll(progs), |base|, table, drive))
  }

  /** Every program passed its own checks, and there are at most 85 of them. */
  lemma {:induction false} Accepted(progs: seq<Program>, unused: nat)
    ensures FirstRefusal(progs, unused).None? <==>
              && 3 * |progs| <= unused
              && forall k :: 0 <= k < |progs| ==>
                   progs[k].at.Valid() && progs[k].at.Computed() + Sectors(progs[k].content) * SECTOR <= TOP
  {
    if progs != [] {
      if unused >= 3 {
        Accepted(progs[1..], unused - 3);
      }
      assert forall k :: 0 < k < |progs| ==> progs[k] == progs[1..][k - 1];
      assert forall k :: 0 <= k < |progs| - 1 ==> progs[1..][k] == progs[k + 1];
    }
  }

  /** Why a program is refused, in the order of the checks: a flat address above the limit; an end above it, computed
      from signed halves; no room for three words more in the table. */
  lemma RefusalReasons(p: Program, unused: nat)
    ensures var at: int := match p.at
                           case Segmented(s, o) =>
                             (if s < 0x8000 then s else s - 0x10000) * 16 + (if o < 0x8000 then o else o - 0x10000)
                           case Flat(a) => a;
            var sectors: int := (|p.content| + 511) / 512;
            var bad, large := p.at.Flat? && 0x9ffff < at, 0x9ffff < at + 512 * sectors;
            && (Refusal(p, unused) == Some(BadAddress) <==> bad)
            && (Refusal(p, unused) == Some(TooLarge) <==> !bad && large)
            && (Refusal(p, unused) == Some(TooMany) <==> !bad && !large && unused < 3)
            && (Refusal(p, unused) == None <==> !bad && !large && 3 <= unused)
  {
    match p.at
    case Segmented(s, o) =>
      ShortIs(s);
      ShortIs(o);
    case Flat(a) =>
  }

  lemma ShortIs(w: Word16)
    ensures Short(w) == if w < 0x8000 then w as int else w - 0x10000
  {
  }

  /** The build stops at the first program that is refused, each having used three words of the table. */
  lemma {:induction false} FirstRefused(progs: seq<Program>, unused: nat)
    ensures match FirstRefusal(progs, unused)
            case None => forall k :: 0 <= k < |progs| ==> 3 * k <= unused && Refusal(progs[k], unused - 3 * k).None?
            case Some(why) =>
              exists k :: 0 <= k < |progs| && RefusedAt(progs, unused, k, why)
    decreases |progs|
  {
    hide Refusal;
    if progs != [] {
      if Refusal(progs[0], unused).Some? {
        var why := Refusal(progs[0], unused).value;
        assert FirstRefusal(progs, unused) == Some(why);
        assert RefusedAt(progs, unused, 0, why);
      } else {
        EachTakesThree(progs[0], unused);
        FirstRefused(progs[1..], unused - 3);
        if FirstRefusal(progs, unused).Some? {
          var why := FirstRefusal(progs[1..], unused - 3).value;
          var k :| 0 <= k < |progs| - 1 && RefusedAt(progs[1..], unused - 3, k, why);
          LaterRefused(progs, unused, k, why);
          assert FirstRefusal(progs, unused) == Some(why);
        } else {
          forall k | 0 <= k < |progs|
            ensures 3 * k <= unused && Refusal(progs[k], unused - 3 * k).None?
          {
            assert k > 0 ==> progs[k] == progs[1..][k - 1];
          }
        }
      }
    }
  }

  lemma EachTakesThree(p: Program, unused: nat)
    requires Refusal(p, unused).None?
    ensures 3 <= unused
  {
  }

  ghost predicate RefusedAt(progs: seq<Program>, unused: nat, k: nat, why: Problem)
    requires k < |progs|
  {
    && 3 * k <= unused && Refusal(progs[k], unused - 3 * k) == Some(why)
    && forall j :: 0 <= j < k ==> Refusal(progs[j], unused - 3 * j).None?
  }

  lemma LaterRefused(progs: seq<Program>, unused: nat, k: nat, why: Problem)
    requires k + 1 < |progs| && 3 <= unused && Refusal(progs[0], unused).None?
    requires RefusedAt(progs[1..], unused - 3, k, why)
    ensures RefusedAt(progs, unused, k + 1, why)
  {
    hide Refusal;
    assert progs[k + 1] == progs[1..][k];
    forall j | 0 <= j < k + 1
      ensures Refusal(progs[j], unused - 3 * j).None?
    {
      assert j > 0 ==> progs[j] == progs[1..][j - 1] && Refusal(progs[1..][j - 1], unused - 3 - 3 * (j - 1)).None?;
    }
  }

  /** Once no program is refused: too short a bootstrap is, then one with anything but zeros where the table goes. */
  lemma BuildRefuses(boot: seq<Byte>, progs: seq<Program>, drive: Word16)
    requires progs != [] && FirstRefusal(progs, N_INFO).None?
    ensures var base, n := Pad(boot), 6 * |progs|;
            && (Build(boot, progs, drive) == Rejected(TooShort) <==> |base| < n)
            && (Build(boot, progs, drive) == Rejected(NoRoom)
                <==> n <= |base| && exists i :: |base| - n <= i < |base| && base[i] != 0)
            && (Build(boot, progs, drive).Image?
                <==> n <= |base| && forall i :: |base| - n <= i < |base| ==> base[i] == 0)
  {
    hide Pad, TableBytes, Finish, PadAll;
  }

  /** What an accepted build puts on the disk: the padded bootstrap and the padded programs, with the table, in place of
      zeros, at the end of the bootstrap, and the drive number at byte 508, low byte first; nothing else is changed. */
  lemma ImageIs(boot: seq<Byte>, progs: seq<Program>, drive: Word16, i: nat)
    requires progs != [] && Build(boot, progs, drive).Image? && i < |Pad(boot)| + |PadAll(progs)|
    ensures var image, base, n := Build(boot, progs, drive).bytes, Pad(boot), 6 * |progs|;
            && |image| == |base| + |PadAll(progs)| && n <= |base|
            && (i == 508 ==> image[i] == drive % 256) && (i == 509 ==> image[i] == drive / 256)
            && (|base| - n <= i < |base| ==> base[i] == 0)
            && (i != 508 && i != 509 ==>
                  image[i] == if |base| - n <= i < |base| then TableBytes(progs)[i - (|base| - n)]
                    else (base + PadAll(progs))[i])
  {
    hide Pad, PadAll, TableBytes;
  }

  /** The table itself: for each program, counted from the end of the table, its sectors, its segment and its offset as
      16-bit words; a flat address is split into paragraphs and the rest. */
  lemma EntryIs(progs: seq<Program>, k: nat)
    requires k < |progs|
    ensures var t, n, p := TableBytes(progs), 6 * (|progs| - k), progs[k];
            && n <= |t|
            && WordAt(t, n - 2) == (|p.content| + 511) / 512 % 65536
            && (p.at.Segmented? ==> WordAt(t, n - 4) == p.at.segment && WordAt(t, n - 6) == p.at.offset)
            && (p.at.Flat? ==> WordAt(t, n - 4) == p.at.address / 16 % 65536 && WordAt(t, n - 6) == p.at.address % 16)
  {
    hide Table, BytesOf, WordAt, EntriesOf, Sectors;
    TableBytesAt(EntriesOf(progs), k);
    EntryOfIs(progs[k]);
  }

  lemma EntryOfIs(p: Program)
    ensures EntryOf(p).count == (|p.content| + 511) / 512 % 65536
    ensures p.at.Segmented? ==> EntryOf(p).segment == p.at.segment && EntryOf(p).offset == p.at.offset
    ensures p.at.Flat? ==> EntryOf(p).segment == p.at.address / 16 % 65536 && EntryOf(p).offset == p.at.address % 16
  {
  }

  /** An accepted program ends below the limit, if its address was computed right ... */
  lemma AcceptedFits(p: Program, unused: nat)
    requires Refusal(p, unused).None? && p.at.Computed() == p.at.Real()
    ensures p.at.Real() + |Pad(p.content)| <= TOP && Sectors(p.content) < 32768
  {
  }

  /** ... and if not, a program at the very top of memory is accepted. */
  lemma CheckMissesHighSegments(content: seq<Byte>)
    requires |content| <= SECTOR
    ensures var p := Program(content, Segmented(0xF000, 0));
            Refusal(p, N_INFO).None? && TOP < p.at.Real()
  {
    assert Short(0xF000) == -0x1000;
  }
}
