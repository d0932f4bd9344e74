/** Building an image and loading it: what the builder wrote is what ends up in memory. */
module BuildLoad {
  import opened Defs
  import opened ImageSpec
  import opened LoaderSpec

  // ---- one program ----

  lemma PatchTwice(m: seq<Byte>, at: nat, x: seq<Byte>, y: seq<Byte>)
    requires at + |x| + |y| <= |m|
    ensures Patch(Patch(m, at, x), at + |x|, y) == Patch(m, at, x + y)
  {
  }

  lemma StraightNext(es: Word16, bx: Word16, n: nat)
    requires Straight(bx, n) && 1 <= n && es * 16 + bx + SECTOR * n <= 0x10_0000
    ensures bx + SECTOR <= 65536
    ensures n > 1 ==>
              NextSegment(es, bx) * 16 + NextOffset(bx) == es * 16 + bx + SECTOR && Straight(NextOffset(bx), n - 1)
  {
  }

  // ---- what a load must not touch ----

  /** Below this are the interrupt vectors, which every disk read goes through, and the BIOS data. */
  const LOW: nat := 0x500
  /** The loader's stack grows down from here (boot/bootstrap.S:51-55). */
  const STACK_TOP: nat := BOOT + 0x4000

  /** Where the processor finds the address of the disk service, interrupt 13 hex. */
  const DISK_VECTOR: nat := 0x4C

  /** The range stays clear of the vectors, the BIOS data, the loader and its stack. */
  predicate Spares(at: nat, size: nat) {
    (LOW <= at && at + size <= BOOT) || STACK_TOP <= at
  }

  /** The one load the loader makes into its own area: its second sector. */
  predicate SecondSector(at: nat, size: nat) {
    at == SECOND && size == SECTOR
  }

  lemma SparesRest(at: nat, n: nat)
    requires 1 <= n && (Spares(at, SECTOR * n) || SecondSector(at, SECTOR * n))
    ensures n > 1 ==> Spares(at + SECTOR, SECTOR * (n - 1))
  {
  }

  /** On a straight buffer, with the disk and its capacity large enough, `readprog` copies consecutive sectors
      of the disk to consecutive addresses. */
  lemma {:induction false} ReadProgPlaces(g: Geometry, disk: seq<Byte>, m: seq<Byte>, pos: Position, es: Word16,
      bx: Word16, n: Word16)
    requires g.Valid() && pos.On(g) && 1 <= n < 32768 && |m| == MEMORY
    requires Straight(bx, n) && es * 16 + bx + SECTOR * n <= 0x10_0000
    requires Spares(es * 16 + bx, SECTOR * n) || SecondSector(es * 16 + bx, SECTOR * n)
    requires pos.Lba(g) + n < g.Capacity() && SECTOR * (pos.Lba(g) + n) <= |disk|
    ensures var r, lba := ReadProg(g, disk, m, pos, es, bx, n), pos.Lba(g);
            && r.Done? && r.pos.Lba(g) == lba + n
            && r.mem == Patch(m, es * 16 + bx, disk[SECTOR * lba..SECTOR * (lba + n)])
    decreases n
  {
    hide Patch, Position.Lba, Geometry.Capacity, ReadTo, Straight, NextSegment, NextOffset, Next, Spares;
    var lba, base := pos.Lba(g), es * 16 + bx;
    var data := disk[SECTOR * lba..SECTOR * (lba + 1)];
    NextIsSuccessor(g, pos);
    StraightNext(es, bx, n);
    ReadToPatch(m, es, bx, data);
    SparesRest(base, n);
    if n > 1 {
      var rest := disk[SECTOR * (lba + 1)..SECTOR * (lba + n)];
      ReadProgPlaces(g, disk, Patch(m, base, data), Next(g, pos).value, NextSegment(es, bx), NextOffset(bx), n - 1);
      PatchTwice(m, base, data, rest);
      Glued(disk, SECTOR * lba, SECTOR * (lba + 1), SECTOR * (lba + n));
    }
  }

  lemma Glued(disk: seq<Byte>, lo: nat, mid: nat, hi: nat)
    requires lo <= mid <= hi <= |disk|
    ensures disk[lo..mid] + disk[mid..hi] == disk[lo..hi]
  {
  }

  /** The loader freezes as soon as it has read the last sector of the disk, wanted or not. */
  lemma {:induction false} ReadProgTooBig(g: Geometry, disk: seq<Byte>, m: seq<Byte>, pos: Position, es: Word16,
      bx: Word16, n: Word16)
    requires g.Valid() && pos.On(g) && 1 <= n < 32768
    requires g.Capacity() <= pos.Lba(g) + n && SECTOR * (pos.Lba(g) + n) <= |disk|
    ensures ReadProg(g, disk, m, pos, es, bx, n).TooBig?
    decreases n
  {
    hide Position.Lba, Geometry.Capacity;
    NextIsSuccessor(g, pos);
    WithinCapacity(g, pos);
    var lba := pos.Lba(g);
    if n > 1 && Next(g, pos).Some? {
      var m1 := ReadTo(m, es, bx, disk[SECTOR * lba..SECTOR * (lba + 1)]);
      ReadProgTooBig(g, disk, m1, Next(g, pos).value, NextSegment(es, bx), NextOffset(bx), n - 1);
    } else if n == 1 && Next(g, pos).Some? {
      WithinCapacity(g, Next(g, pos).value);
    }
  }

  // ---- the whole table ----

  /** What a program must satisfy to be loaded where it was meant to go: the builder's own size check on the
      real address, a straight buffer, and a range clear of what the loader itself needs. */
  predicate Loadable(p: Program) {
    var n := SECTOR * Sectors(p.content);
    && p.at.Real() + n <= TOP && Straight(p.at.Offset(), Sectors(p.content))
    && Spares(p.at.Real(), n)
  }

  /** Addresses whose bytes the loader, its stack and the BIOS do not use while it runs. */
  predicate Outside(a: nat) {
    LOW <= a < BOOT || STACK_TOP <= a
  }

  /** Agreement on every such address. */
  ghost predicate Agree(m: seq<Byte>, w: seq<Byte>) {
    |m| == |w| == MEMORY && forall a :: 0 <= a < MEMORY && Outside(a) ==> m[a] == w[a]
  }

  /** Why the range matters: 22 sectors at 0900:0000 pass every check of the builder, and end on the word where
      `call readprog` has left its return address. */
  lemma StackOverwritten(p: Program, unused: nat)
    requires p.at == Segmented(0x0900, 0) && Sectors(p.content) == 22 && 3 <= unused
    ensures Refusal(p, unused).None? && p.at.Computed() == p.at.Real() && Straight(p.at.Offset(), Sectors(p.content))
    ensures Covers(p, STACK_TOP - 4) && Covers(p, STACK_TOP - 3) && !Loadable(p)
  {
    hide Pad, Sectors, Short, Low16;
    Passes(p, unused);
  }

  /** ... and one sector at 0000:0000 goes over the vector that each disk read is made through. */
  lemma VectorsOverwritten(p: Program, unused: nat)
    requires p.at == Segmented(0, 0) && Sectors(p.content) == 1 && 3 <= unused
    ensures Refusal(p, unused).None? && p.at.Computed() == p.at.Real() && Straight(p.at.Offset(), Sectors(p.content))
    ensures Covers(p, DISK_VECTOR) && Covers(p, DISK_VECTOR + 3) && !Loadable(p)
  {
    hide Refusal, Argument.Computed, Straight;
    Passes(p, unused);
    AtBottom(p);
  }

  lemma AtBottom(p: Program)
    requires p.at.Real() == 0 && Sectors(p.content) == 1
    ensures Covers(p, DISK_VECTOR) && Covers(p, DISK_VECTOR + 3) && !Loadable(p)
  {
    hide Pad, Sectors, Argument.Real;
  }

  lemma Passes(p: Program, unused: nat)
    requires p.at.Segmented? && p.at.segment < 0x8000 && p.at.offset == 0 && 3 <= unused
    requires p.at.segment * 16 + SECTOR * Sectors(p.content) <= TOP
    ensures Refusal(p, unused).None? && p.at.Computed() == p.at.Real() == p.at.segment * 16
    ensures Straight(p.at.Offset(), Sectors(p.content))
  {
    hide Pad, Sectors;
    assert Short(p.at.segment) == p.at.segment && Short(0) == 0;
  }

  /** The addresses a program takes. */
  predicate Covers(p: Program, a: nat) {
    p.at.Real() <= a < p.at.Real() + |Pad(p.content)|
  }

  /** The programs up to the first empty one, whose zero count ends the table. */
  function Reached(progs: seq<Program>): (r: seq<Program>)
    ensures |r| <= |progs| && r == progs[..|r|]
  {
    if progs == [] || progs[0].content == [] then [] else [progs[0]] + Reached(progs[1..])
  }

  predicate Inside(progs: seq<Program>) {
    forall k :: 0 <= k < |progs| ==> progs[k].at.Real() + |Pad(progs[k].content)| <= MEMORY
  }

  function PlaceAll(m: seq<Byte>, progs: seq<Program>): (r: seq<Byte>)
    requires |m| == MEMORY && Inside(progs)
    ensures |r| == MEMORY
    decreases |progs|
  {
    if progs == [] then m else PlaceAll(Patch(m, progs[0].at.Real(), Pad(progs[0].content)), progs[1..])
  }

  /** Reading the words from `di` down gives these entries and then a zero count. */
  ghost predicate TableFrom(m: seq<Byte>, es: seq<Entry>, di: nat) {
    && BOOT + di + 1 < |m| && 6 * |es| <= di
    && (forall k :: 0 <= k < |es| ==> EntryHere(m, es[k], di - 6 * k))
    && WordAt(m, BOOT + di - 6 * |es|) == 0
  }

  predicate EntryHere(m: seq<Byte>, e: Entry, di: int) {
    && 6 <= di && BOOT + di + 1 < |m|
    && WordAt(m, BOOT + di) == e.count && WordAt(m, BOOT + di - 2) == e.segment && WordAt(m, BOOT + di - 4) == e.offset
  }

  lemma TableNext(m: seq<Byte>, es: seq<Entry>, di: nat)
    requires TableFrom(m, es, di) && es != []
    ensures EntryHere(m, es[0], di) && TableFrom(m, es[1..], di - 6)
  {
    assert EntryHere(m, es[0], di - 6 * 0);
    forall k | 0 <= k < |es| - 1
      ensures EntryHere(m, es[1..][k], di - 6 - 6 * k)
    {
      assert EntryHere(m, es[k + 1], di - 6 * (k + 1));
    }
  }

  /** Loading a program elsewhere leaves the table alone. */
  lemma TableKept(m: seq<Byte>, es: seq<Entry>, di: nat, at: nat, data: seq<Byte>)
    requires TableFrom(m, es, di) && at + |data| <= |m| && di <= FIRST_COUNT
    requires at + |data| <= BOOT || BOOT + 2 * SECTOR <= at
    ensures TableFrom(Patch(m, at, data), es, di)
  {
    var m' := Patch(m, at, data);
    assert forall i {:trigger m'[i]} :: BOOT <= i <= BOOT + di + 1 ==> m'[i] == m[i];
    forall k | 0 <= k < |es|
      ensures EntryHere(m', es[k], di - 6 * k)
    {
      assert EntryHere(m, es[k], di - 6 * k);
    }
  }

  ghost predicate AllLoadable(progs: seq<Program>) {
    forall p :: p in progs ==> Loadable(p)
  }

  lemma LoadableInside(progs: seq<Program>)
    requires AllLoadable(progs)
    ensures Inside(progs)
  {
    forall k | 0 <= k < |progs|
      ensures progs[k].at.Real() + |Pad(progs[k].content)| <= MEMORY
    {
      assert Loadable(progs[k]);
    }
  }

  lemma EntriesTail(progs: seq<Program>)
    requires progs != []
    ensures EntriesOf(progs) != [] && EntriesOf(progs)[0] == EntryOf(progs[0])
      && EntriesOf(progs)[1..] == EntriesOf(progs[1..])
  {
  }

  /** The disk holds the programs from a position on. */
  ghost predicate Holds(disk: seq<Byte>, lba: nat, progs: seq<Program>) {
    var n := |PadAll(progs)|;
    SECTOR * lba + n <= |disk| && disk[SECTOR * lba..SECTOR * lba + n] == PadAll(progs)
  }

  lemma HoldsNext(disk: seq<Byte>, lba: nat, progs: seq<Program>)
    requires Holds(disk, lba, progs) && progs != []
    ensures var n := Sectors(progs[0].content);
            && SECTOR * (lba + n) <= |disk| && disk[SECTOR * lba..SECTOR * (lba + n)] == Pad(progs[0].content)
            && Holds(disk, lba + n, progs[1..])
  {
    hide Pad, PadAll, Sectors;
    PadAllHead(progs);
    CutInTwo(disk, SECTOR * lba, Pad(progs[0].content), PadAll(progs[1..]));
  }

  lemma PadAllHead(progs: seq<Program>)
    requires progs != []
    ensures PadAll(progs) == Pad(progs[0].content) + PadAll(progs[1..])
  {
  }

  lemma CutInTwo(disk: seq<Byte>, lo: nat, x: seq<Byte>, y: seq<Byte>)
    requires lo + |x| + |y| <= |disk| && disk[lo..lo + |x + y|] == x + y
    ensures disk[lo..lo + |x|] == x && disk[lo + |x|..lo + |x| + |y|] == y
  {
    var whole := disk[lo..lo + |x + y|];
    assert whole[..|x|] == disk[lo..lo + |x|];
    assert whole[|x|..] == disk[lo + |x|..lo + |x| + |y|];
  }

  /** One turn of the table walk. */
  lemma WalkStep(g: Geometry, disk: seq<Byte>, p: Program, m: seq<Byte>, pos: Position, di: nat)
    requires g.Valid() && pos.On(g) && |m| == MEMORY && 6 <= di < 65536 && EntryHere(m, EntryOf(p), di)
    requires Loadable(p) && p.content != []
    ensures var n := Sectors(p.content);
            var r := ReadProg(g, disk, m, pos, p.at.Segment(), p.at.Offset(), n);
            && 1 <= n < 32768
            && Walk(g, disk, m, pos, di) == if r.Done? then Walk(g, disk, r.mem, r.pos, di - 6) else r
  {
    hide ReadProg, Position.Lba, Geometry.Capacity, WordAt, Straight;
    assert Low16(di - 2) == di - 2 && Low16(di - 4) == di - 4 && Low16(di - 6) == di - 6;
    assert SECTOR * Sectors(p.content) <= TOP;
    assert EntryOf(p).count == Sectors(p.content);
  }

  /** One program loaded, and everything in place for the next. */
  lemma WalkOne(g: Geometry, disk: seq<Byte>, progs: seq<Program>, m: seq<Byte>, pos: Position, di: nat)
      returns (q: Position)
    requires g.Valid() && pos.On(g) && |m| == MEMORY && di <= FIRST_COUNT
    requires TableFrom(m, EntriesOf(progs), di) && Holds(disk, pos.Lba(g), progs)
    requires progs != [] && progs[0].content != [] && Loadable(progs[0])
    requires pos.Lba(g) + Sectors(progs[0].content) < g.Capacity()
    ensures q.On(g) && q.Lba(g) == pos.Lba(g) + Sectors(progs[0].content)
    ensures progs[0].at.Real() + |Pad(progs[0].content)| <= MEMORY && 6 <= di
    ensures var m' := Patch(m, progs[0].at.Real(), Pad(progs[0].content));
            && TableFrom(m', EntriesOf(progs[1..]), di - 6) && Holds(disk, q.Lba(g), progs[1..])
            && Walk(g, disk, m, pos, di) == Walk(g, disk, m', q, di - 6)
  {
    hide ReadProg, Patch, Position.Lba, Geometry.Capacity, Pad, TableFrom, Holds, Loadable, EntriesOf, WordAt, Walk,
        Straight, Sectors;
    var p := progs[0];
    var n := Sectors(p.content);
    EntriesTail(progs);
    TableNext(m, EntriesOf(progs), di);
    WalkStep(g, disk, p, m, pos, di);
    HoldsNext(disk, pos.Lba(g), progs);
    LoadableReads(p);
    ReadProgPlaces(g, disk, m, pos, p.at.Segment(), p.at.Offset(), n);
    var r := ReadProg(g, disk, m, pos, p.at.Segment(), p.at.Offset(), n);
    TableKept(m, EntriesOf(progs[1..]), di - 6, p.at.Real(), Pad(p.content));
    q := r.pos;
  }

  /** The loader's walk places every program up to the first empty one, in order. */
  lemma {:induction false} WalkPlaces(g: Geometry, disk: seq<Byte>, progs: seq<Program>, m: seq<Byte>, pos: Position,
      di: nat)
    requires g.Valid() && pos.On(g) && |m| == MEMORY && di <= FIRST_COUNT
    requires TableFrom(m, EntriesOf(progs), di) && Holds(disk, pos.Lba(g), progs)
    requires AllLoadable(Reached(progs))
    requires pos.Lba(g) + SectorsAll(Reached(progs)) < g.Capacity()
    ensures Inside(Reached(progs))
    ensures var r := Walk(g, disk, m, pos, di);
            && r.Done? && r.pos.Lba(g) == pos.Lba(g) + SectorsAll(Reached(progs))
            && r.mem == PlaceAll(m, Reached(progs))
    decreases |progs|
  {
    hide Patch, Position.Lba, Geometry.Capacity, Pad, TableFrom, Holds, Loadable, EntriesOf, WordAt, Walk, Sectors,
        PlaceAll, Reached;
    LoadableInside(Reached(progs));
    if progs == [] || progs[0].content == [] {
      NoneReached(m, progs, di);
      WalkEnds(g, disk, m, pos, di);
    } else {
      ReachedTail(progs);
      LoadableTail(Reached(progs));
      var q := WalkOne(g, disk, progs, m, pos, di);
      WalkPlaces(g, disk, progs[1..], Patch(m, progs[0].at.Real(), Pad(progs[0].content)), q, di - 6);
      PlaceOne(m, Reached(progs));
    }
  }

  lemma NoneReached(m: seq<Byte>, progs: seq<Program>, di: nat)
    requires |m| == MEMORY && TableFrom(m, EntriesOf(progs), di) && (progs == [] || progs[0].content == [])
    ensures BOOT + di + 1 < |m| && WordAt(m, BOOT + di) == 0
    ensures Reached(progs) == [] && SectorsAll(Reached(progs)) == 0 && PlaceAll(m, Reached(progs)) == m
  {
    if progs != [] {
      EntriesTail(progs);
      TableNext(m, EntriesOf(progs), di);
    }
  }

  lemma LoadableTail(progs: seq<Program>)
    requires AllLoadable(progs) && progs != []
    ensures Loadable(progs[0]) && AllLoadable(progs[1..])
  {
    hide Loadable;
    assert progs == [progs[0]] + progs[1..];
  }

  lemma PlaceOne(m: seq<Byte>, progs: seq<Program>)
    requires |m| == MEMORY && Inside(progs) && progs != []
    ensures Inside(progs[1..])
    ensures progs[0].at.Real() + |Pad(progs[0].content)| <= MEMORY
    ensures PlaceAll(m, progs) == PlaceAll(Patch(m, progs[0].at.Real(), Pad(progs[0].content)), progs[1..])
  {
  }

  lemma WalkEnds(g: Geometry, disk: seq<Byte>, m: seq<Byte>, pos: Position, di: Word16)
    requires g.Valid() && pos.On(g) && |m| == MEMORY && WordAt(m, BOOT + di) == 0
    ensures Walk(g, disk, m, pos, di) == Done(m, pos)
  {
  }

  lemma ReachedTail(progs: seq<Program>)
    requires progs != [] && progs[0].content != []
    ensures Reached(progs) != [] && Reached(progs)[0] == progs[0] && Reached(progs)[1..] == Reached(progs[1..])
    ensures SectorsAll(Reached(progs)) == Sectors(progs[0].content) + SectorsAll(Reached(progs[1..]))
  {
  }

  lemma LoadableReads(p: Program)
    requires Loadable(p)
    ensures Straight(p.at.Offset(), Sectors(p.content)) && p.at.Real() + SECTOR * Sectors(p.content) <= 0x10_0000
    ensures p.at.Real() + |Pad(p.content)| <= BOOT || BOOT + 2 * SECTOR <= p.at.Real()
    ensures Spares(p.at.Real(), SECTOR * Sectors(p.content))
    ensures |Pad(p.content)| == SECTOR * Sectors(p.content)
  {
  }

  /** The walk freezes when the sectors wanted reach the end of the disk. */
  lemma {:induction false} WalkTooBig(g: Geometry, disk: seq<Byte>, progs: seq<Program>, m: seq<Byte>, pos: Position,
      di: nat)
    requires g.Valid() && pos.On(g) && |m| == MEMORY && di <= FIRST_COUNT
    requires TableFrom(m, EntriesOf(progs), di) && Holds(disk, pos.Lba(g), progs)
    requires AllLoadable(Reached(progs))
    requires g.Capacity() <= pos.Lba(g) + SectorsAll(Reached(progs))
    ensures Walk(g, disk, m, pos, di).TooBig?
    decreases |progs|
  {
    hide Patch, Position.Lba, Geometry.Capacity, Pad, TableFrom, Holds, Loadable, EntriesOf, WordAt, Walk, Sectors,
        Reached, ReadProg;
    WithinCapacity(g, pos);
    if progs == [] || progs[0].content == [] {
      NoneReached(m, progs, di);
    } else {
      var p := progs[0];
      ReachedTail(progs);
      LoadableTail(Reached(progs));
      if pos.Lba(g) + Sectors(p.content) < g.Capacity() {
        var q := WalkOne(g, disk, progs, m, pos, di);
        WalkTooBig(g, disk, progs[1..], Patch(m, p.at.Real(), Pad(p.content)), q, di - 6);
      } else {
        EntriesTail(progs);
        TableNext(m, EntriesOf(progs), di);
        WalkStep(g, disk, p, m, pos, di);
        HoldsNext(disk, pos.Lba(g), progs);
        ReadProgTooBig(g, disk, m, pos, p.at.Segment(), p.at.Offset(), Sectors(p.content));
      }
    }
  }

  // ---- the image ----

  /** A bootstrap of two sectors with a zero word where the table will end. */
  predicate GoodBoot(boot: seq<Byte>, progs: seq<Program>) {
    && |Pad(boot)| == 2 * SECTOR && 6 * |progs| <= FIRST_COUNT
    && WordAt(Pad(boot), FIRST_COUNT - 6 * |progs|) == 0
  }

  lemma FinishAt(out: seq<Byte>, bootSize: nat, table: seq<Byte>, drive: Word16, i: nat)
    requires |table| <= bootSize <= |out| && DRIVE_AT + 2 <= bootSize - |table| && i < |out|
    ensures Finish(out, bootSize, table, drive)[i] ==
            (if bootSize - |table| <= i < bootSize then table[i - (bootSize - |table|)]
             else if i == DRIVE_AT then drive % 256
             else if i == DRIVE_AT + 1 then drive / 256
             else out[i])
  {
    hide Patch;
    var word := BytesOf([drive]);
    assert word[2 * 0] == drive % 256 && word[2 * 0 + 1] == drive / 256;
  }

  /** Bytes of the image: outside the table and the drive word they are the bootstrap's, then the programs'. */
  lemma ImageAt(boot: seq<Byte>, progs: seq<Program>, drive: Word16, i: nat)
    requires progs != [] && Build(boot, progs, drive).Image? && GoodBoot(boot, progs)
    requires i < |Pad(boot)| + |PadAll(progs)|
    ensures var image, table, n := Build(boot, progs, drive).bytes, TableBytes(progs), 2 * SECTOR;
            && |image| == n + |PadAll(progs)| && DRIVE_AT + 2 <= n - |table|
            && image[i] == (if n <= i then PadAll(progs)[i - n]
                            else if n - |table| <= i then table[i - (n - |table|)]
                            else if i == DRIVE_AT then drive % 256
                            else if i == DRIVE_AT + 1 then drive / 256
                            else Pad(boot)[i])
  {
    hide Finish, TableBytes, Pad, PadAll, WordAt;
    Accepted(progs, N_INFO);
    FinishAt(Pad(boot) + PadAll(progs), |Pad(boot)|, TableBytes(progs), drive, i);
  }

  /** Memory with the bootstrap sectors and the size for the kernel in it. */
  function Booted(m: seq<Byte>, disk: seq<Byte>): (r: seq<Byte>)
    requires |m| == MEMORY && 2 * SECTOR <= |disk|
    ensures |r| == MEMORY
  {
    Patch(Patch(m, BOOT, disk[..2 * SECTOR]), MMAP_SECTORS, disk[FIRST_COUNT..FIRST_COUNT + 2])
  }

  /** The table as the loader finds it. */
  lemma {:induction false} TableBooted(boot: seq<Byte>, progs: seq<Program>, drive: Word16, disk: seq<Byte>,
      m: seq<Byte>)
    requires progs != [] && Build(boot, progs, drive).Image? && GoodBoot(boot, progs)
    requires Build(boot, progs, drive).bytes <= disk && |m| == MEMORY
    ensures 2 * SECTOR <= |disk| && TableFrom(Booted(m, disk), EntriesOf(progs), FIRST_COUNT)
  {
    hide Table, EntriesOf, Build, Pad, WordAt, BytesOf, PadAll, Booted, EntryHere, GoodBoot, TableBytes;
    ImageSize(boot, progs, drive);
    var b, es := Booted(m, disk), EntriesOf(progs);
    forall k | 0 <= k < |es|
      ensures EntryHere(b, es[k], FIRST_COUNT - 6 * k)
    {
      EntryBooted(boot, progs, drive, disk, m, k);
    }
    ZeroBooted(boot, progs, drive, disk, m);
  }

  lemma EntryBooted(boot: seq<Byte>, progs: seq<Program>, drive: Word16, disk: seq<Byte>, m: seq<Byte>, k: nat)
    requires progs != [] && Build(boot, progs, drive).Image? && GoodBoot(boot, progs)
    requires Build(boot, progs, drive).bytes <= disk && |m| == MEMORY && k < |progs|
    ensures 2 * SECTOR <= |disk| && EntryHere(Booted(m, disk), EntriesOf(progs)[k], FIRST_COUNT - 6 * k)
  {
    hide Table, EntriesOf, Build, Pad, WordAt, BytesOf, PadAll, Booted, GoodBoot;
    ImageSize(boot, progs, drive);
    TableBytesAt(EntriesOf(progs), k);
    var at := 6 * (|progs| - k) - 2;
    WordBooted(boot, progs, drive, disk, m, at);
    WordBooted(boot, progs, drive, disk, m, at - 2);
    WordBooted(boot, progs, drive, disk, m, at - 4);
  }

  lemma ImageSize(boot: seq<Byte>, progs: seq<Program>, drive: Word16)
    requires progs != [] && Build(boot, progs, drive).Image? && GoodBoot(boot, progs)
    ensures |Build(boot, progs, drive).bytes| == 2 * SECTOR + |PadAll(progs)| && |progs| <= 85
  {
    Accepted(progs, N_INFO);
  }

  lemma WordBooted(boot: seq<Byte>, progs: seq<Program>, drive: Word16, disk: seq<Byte>, m: seq<Byte>, at: nat)
    requires progs != [] && Build(boot, progs, drive).Image? && GoodBoot(boot, progs)
    requires Build(boot, progs, drive).bytes <= disk && |m| == MEMORY && at + 1 < 6 * |progs|
    ensures 2 * SECTOR <= |disk|
    ensures WordAt(Booted(m, disk), BOOT + 2 * SECTOR - 6 * |progs| + at) == WordAt(TableBytes(progs), at)
  {
    hide Build, TableBytes, Pad, PadAll;
    ImageSize(boot, progs, drive);
    ImageAt(boot, progs, drive, 2 * SECTOR - 6 * |progs| + at);
    ImageAt(boot, progs, drive, 2 * SECTOR - 6 * |progs| + at + 1);
  }

  lemma ZeroBooted(boot: seq<Byte>, progs: seq<Program>, drive: Word16, disk: seq<Byte>, m: seq<Byte>)
    requires progs != [] && Build(boot, progs, drive).Image? && GoodBoot(boot, progs)
    requires Build(boot, progs, drive).bytes <= disk && |m| == MEMORY
    ensures 2 * SECTOR <= |disk| && WordAt(Booted(m, disk), BOOT + FIRST_COUNT - 6 * |progs|) == 0
  {
    hide Build, TableBytes, Pad, PadAll;
    ImageSize(boot, progs, drive);
    ImageAt(boot, progs, drive, FIRST_COUNT - 6 * |progs|);
    ImageAt(boot, progs, drive, FIRST_COUNT - 6 * |progs| + 1);
  }

  /** The programs follow the bootstrap. */
  lemma {:induction false} ImageHolds(boot: seq<Byte>, progs: seq<Program>, drive: Word16, disk: seq<Byte>)
    requires progs != [] && Build(boot, progs, drive).Image? && GoodBoot(boot, progs)
    requires Build(boot, progs, drive).bytes <= disk
    ensures Holds(disk, 2, progs)
  {
    hide Build;
    ImageSize(boot, progs, drive);
    var n := |PadAll(progs)|;
    forall i | 0 <= i < n
      ensures disk[2 * SECTOR..2 * SECTOR + n][i] == PadAll(progs)[i]
    {
      ImageAt(boot, progs, drive, 2 * SECTOR + i);
    }
  }

  /** Fetching the second sector. */
  lemma LoadStarts(g: Geometry, disk: seq<Byte>, m: seq<Byte>) returns (q: Position)
    requires g.Valid() && |m| == MEMORY && 2 * SECTOR <= |disk| && 2 < g.Capacity()
    ensures q.On(g) && q.Lba(g) == 2 && Load(g, disk, m) == Walk(g, disk, Booted(m, disk), q, FIRST_COUNT)
  {
    hide Position.Lba, Geometry.Capacity, Walk, ReadProg;
    FirstLba(g);
    ReadProgPlaces(g, disk, Patch(m, BOOT, disk[..SECTOR]), START, 0, SECOND, 1);
    var r := ReadProg(g, disk, Patch(m, BOOT, disk[..SECTOR]), START, 0, SECOND, 1);
    PatchTwice(m, BOOT, disk[..SECTOR], disk[SECTOR..2 * SECTOR]);
    assert disk[..SECTOR] + disk[SECTOR..2 * SECTOR] == disk[..2 * SECTOR];
    assert r.mem[BOOT + FIRST_COUNT..BOOT + FIRST_COUNT + 2] == disk[FIRST_COUNT..FIRST_COUNT + 2];
    q := r.pos;
  }

  lemma FirstLba(g: Geometry)
    requires g.Valid()
    ensures START.On(g) && START.Lba(g) == 1
  {
  }

  lemma CapacityIsLarge(g: Geometry)
    requires g.Valid()
    ensures 2 < g.Capacity()
  {
    hide Number;
    HeadsGrow(g.heads);
    NumberGrows(CYLINDERS, Number(CYLINDERS, g.heads, 0), g.sectors);
    AtLeast(CYLINDERS, g.sectors);
  }

  lemma HeadsGrow(heads: nat)
    requires 1 <= heads
    ensures CYLINDERS <= Number(CYLINDERS, heads, 0)
  {
  }

  lemma AtLeast(n: nat, width: nat)
    requires 2 <= width
    ensures 2 * n <= Number(n, width, 0)
  {
  }

  /** Building and then loading is the identity on the programs: the loader finishes exactly when the disk is
      larger than what it reads; and then memory, outside what the loader and the BIOS use, holds in table order
      the padded bytes of every program up to the first empty one, each at its address. */
  lemma {:induction false} BuildThenLoad(boot: seq<Byte>, progs: seq<Program>, drive: Word16, g: Geometry,
      disk: seq<Byte>, m: seq<Byte>)
    requires progs != [] && Build(boot, progs, drive).Image? && GoodBoot(boot, progs)
    requires Build(boot, progs, drive).bytes <= disk && g.Valid() && |m| == MEMORY
    requires AllLoadable(Reached(progs))
    ensures Inside(Reached(progs)) && 2 * SECTOR <= |disk|
    ensures var r, n := Load(g, disk, m), 2 + SectorsAll(Reached(progs));
            && (r.Done? <==> n < g.Capacity()) && (r.TooBig? <==> g.Capacity() <= n)
            && (r.Done? ==> Agree(r.mem, PlaceAll(Booted(m, disk), Reached(progs))))
  {
    hide Build, Position.Lba, Geometry.Capacity, Walk, PlaceAll, Booted, Load, GoodBoot, Reached, Loadable,
        TableFrom, Holds, EntriesOf;
    LoadableInside(Reached(progs));
    CapacityIsLarge(g);
    TableBooted(boot, progs, drive, disk, m);
    ImageHolds(boot, progs, drive, disk);
    var q := LoadStarts(g, disk, m);
    if 2 + SectorsAll(Reached(progs)) < g.Capacity() {
      WalkPlaces(g, disk, progs, Booted(m, disk), q, FIRST_COUNT);
    } else {
      WalkTooBig(g, disk, progs, Booted(m, disk), q, FIRST_COUNT);
    }
  }

  /** The conditions can be met: one byte at 1000:0000 under a blank bootstrap. */
  lemma OneByte(p: Program)
    requires p == Program([1], Segmented(0x1000, 0))
    ensures Build(Zeros(2 * SECTOR), [p], 0).Image? && GoodBoot(Zeros(2 * SECTOR), [p]) && Loadable(p)
  {
    var boot := Zeros(2 * SECTOR);
    assert Pad(boot) == boot;
    assert p.at.Computed() == 0x10000;
    Accepted([p], N_INFO);
    assert RoomFor(Pad(boot), 6);
  }

  /** Every program is loaded exactly when none is empty. */
  lemma {:induction false} AllReached(progs: seq<Program>)
    ensures Reached(progs) == progs <==> forall k :: 0 <= k < |progs| ==> progs[k].content != []
  {
    if progs != [] && progs[0].content != [] {
      AllReached(progs[1..]);
      assert progs == [progs[0]] + progs[1..];
      assert forall k :: 0 < k < |progs| ==> progs[k] == progs[1..][k - 1];
    }
  }

  /** No two programs share an address. */
  ghost predicate Apart(progs: seq<Program>) {
    forall i, j, a :: 0 <= i < j < |progs| ==> !(Covers(progs[i], a) && Covers(progs[j], a))
  }

  /** Programs that overlap nowhere are all in memory afterwards, byte for byte, and nothing else changed. */
  lemma {:induction false} EachInPlace(m: seq<Byte>, progs: seq<Program>, a: nat)
    requires |m| == MEMORY && Inside(progs) && Apart(progs) && a < MEMORY
    ensures forall k :: 0 <= k < |progs| && Covers(progs[k], a) ==>
              PlaceAll(m, progs)[a] == Pad(progs[k].content)[a - progs[k].at.Real()]
    ensures (forall k :: 0 <= k < |progs| ==> !Covers(progs[k], a)) ==> PlaceAll(m, progs)[a] == m[a]
    decreases |progs|
  {
    hide Pad;
    if progs != [] {
      PlaceOne(m, progs);
      var rest, m1 := progs[1..], Patch(m, progs[0].at.Real(), Pad(progs[0].content));
      forall i, j | 0 <= i < j < |rest|
        ensures !(Covers(rest[i], a) && Covers(rest[j], a))
      {
        assert rest[i] == progs[i + 1] && rest[j] == progs[j + 1];
      }
      assert forall k :: 0 < k < |progs| ==> progs[k] == rest[k - 1];
      assert Apart(rest);
      EachInPlace(m1, rest, a);
    }
  }

  /** In no program, and in nothing that the loader and the BIOS use or write. */
  ghost predicate Elsewhere(progs: seq<Program>, a: nat) {
    Outside(a) && !SizeWord(a) && forall k :: 0 <= k < |progs| ==> !Covers(progs[k], a)
  }

  /** What loading is for: if the programs up to the first empty one overlap nowhere, they are, after the load, in
      memory byte for byte, each at its address; and apart from them and the size word for the kernel, no byte outside
      what the loader and the BIOS use has changed. */
  lemma {:induction false} LoadedByteForByte(boot: seq<Byte>, progs: seq<Program>, drive: Word16, g: Geometry,
      disk: seq<Byte>, m: seq<Byte>)
    requires progs != [] && Build(boot, progs, drive).Image? && GoodBoot(boot, progs)
    requires Build(boot, progs, drive).bytes <= disk && g.Valid() && |m| == MEMORY
    requires AllLoadable(Reached(progs)) && Apart(Reached(progs))
    requires 2 + SectorsAll(Reached(progs)) < g.Capacity()
    ensures var r := Load(g, disk, m);
            && r.Done?
            && (forall k :: 0 <= k < |Reached(progs)| ==> InPlace(r.mem, progs[k]))
            && (forall a :: 0 <= a < MEMORY && Elsewhere(Reached(progs), a) ==> r.mem[a] == m[a])
  {
    hide Build, Position.Lba, Geometry.Capacity, PlaceAll, Booted, Load, GoodBoot, Pad, Loadable, Inside, Apart;
    BuildThenLoad(boot, progs, drive, g, disk, m);
    var r, b, l := Load(g, disk, m), Booted(m, disk), Reached(progs);
    LoadableInside(l);
    forall k | 0 <= k < |l|
      ensures InPlace(r.mem, progs[k])
    {
      assert l[k] == progs[k] && l[k] in l;
      PlacedWhole(b, r.mem, l, k);
    }
    forall a | 0 <= a < MEMORY && Elsewhere(l, a)
      ensures r.mem[a] == m[a]
    {
      EachInPlace(b, l, a);
      BootedElsewhere(m, disk, a);
    }
  }

  /** The kernel finds the number of sectors of the first program, unless a program is loaded over it. */
  lemma {:induction false} SizeNoted(boot: seq<Byte>, progs: seq<Program>, drive: Word16, g: Geometry,
      disk: seq<Byte>, m: seq<Byte>)
    requires progs != [] && Build(boot, progs, drive).Image? && GoodBoot(boot, progs)
    requires Build(boot, progs, drive).bytes <= disk && g.Valid() && |m| == MEMORY
    requires AllLoadable(Reached(progs)) && Apart(Reached(progs))
    requires 2 + SectorsAll(Reached(progs)) < g.Capacity()
    requires forall k, a :: 0 <= k < |Reached(progs)| && SizeWord(a) ==> !Covers(Reached(progs)[k], a)
    ensures var r := Load(g, disk, m);
            r.Done? && WordAt(r.mem, 0x2D0A) == (|progs[0].content| + 511) / 512 % 65536
  {
    hide Build, Position.Lba, Geometry.Capacity, PlaceAll, Booted, Load, GoodBoot, Pad, Loadable, Inside, Apart, Covers,
        WordAt, Reached, TableBytes;
    BuildThenLoad(boot, progs, drive, g, disk, m);
    LoadableInside(Reached(progs));
    EachInPlace(Booted(m, disk), Reached(progs), MMAP_SECTORS);
    EachInPlace(Booted(m, disk), Reached(progs), MMAP_SECTORS + 1);
    SizeBooted(boot, progs, drive, disk, m);
    assert SizeWord(MMAP_SECTORS) && SizeWord(MMAP_SECTORS + 1);
    assert Outside(MMAP_SECTORS) && Outside(MMAP_SECTORS + 1);
    SameTwo(Load(g, disk, m).mem, MMAP_SECTORS, Booted(m, disk), MMAP_SECTORS);
  }

  lemma SizeBooted(boot: seq<Byte>, progs: seq<Program>, drive: Word16, disk: seq<Byte>, m: seq<Byte>)
    requires progs != [] && Build(boot, progs, drive).Image? && GoodBoot(boot, progs)
    requires Build(boot, progs, drive).bytes <= disk && |m| == MEMORY
    ensures 2 * SECTOR <= |disk| && WordAt(Booted(m, disk), MMAP_SECTORS) == (|progs[0].content| + 511) / 512 % 65536
  {
    hide Build, Pad, PadAll, TableBytes, WordAt;
    ImageSize(boot, progs, drive);
    var t, n := TableBytes(progs), 6 * |progs|;
    ImageAt(boot, progs, drive, FIRST_COUNT);
    ImageAt(boot, progs, drive, FIRST_COUNT + 1);
    EntryIs(progs, 0);
    SameTwo(Booted(m, disk), MMAP_SECTORS, t, n - 2);
  }

  lemma SameTwo(a: seq<Byte>, i: nat, b: seq<Byte>, j: nat)
    requires i + 1 < |a| && j + 1 < |b| && a[i] == b[j] && a[i + 1] == b[j + 1]
    ensures WordAt(a, i) == WordAt(b, j)
  {
  }

  predicate SizeWord(a: nat) { MMAP_SECTORS <= a < MMAP_SECTORS + 2 }

  /** The program's padded bytes stand at its address. */
  ghost predicate InPlace(m: seq<Byte>, p: Program) {
    var at, n := p.at.Real(), |Pad(p.content)|;
    at + n <= |m| && m[at..at + n] == Pad(p.content)
  }

  lemma PlacedWhole(b: seq<Byte>, m: seq<Byte>, progs: seq<Program>, k: nat)
    requires |b| == MEMORY && Inside(progs) && Apart(progs) && k < |progs|
    requires Loadable(progs[k]) && Agree(m, PlaceAll(b, progs))
    ensures InPlace(m, progs[k])
  {
    hide PlaceAll, Pad, Sectors, Loadable, Inside, Apart, Outside, Argument.Real;
    var at, data := progs[k].at.Real(), Pad(progs[k].content);
    ClearOf(progs[k]);
    forall i | 0 <= i < |data|
      ensures m[at..at + |data|][i] == data[i]
    {
      assert Covers(progs[k], at + i);
      EachInPlace(b, progs, at + i);
    }
  }

  /** A loadable program lies in memory, clear of what the loader and the BIOS use. */
  lemma ClearOf(p: Program)
    requires Loadable(p)
    ensures p.at.Real() + |Pad(p.content)| <= MEMORY
    ensures forall a :: Covers(p, a) ==> Outside(a)
  {
    hide Pad, Sectors, Straight, Argument.Real;
  }

  lemma BootedElsewhere(m: seq<Byte>, disk: seq<Byte>, a: nat)
    requires |m| == MEMORY && 2 * SECTOR <= |disk| && a < MEMORY && Outside(a) && !SizeWord(a)
    ensures Booted(m, disk)[a] == m[a]
  {
  }

  /** The theorem at work: one byte at 1000:0000, on a disk of 80 * 2 * 18 sectors, is there after the load. */
  lemma OneByteLoaded(p: Program, m: seq<Byte>)
    requires p == Program([1], Segmented(0x1000, 0)) && |m| == MEMORY
    ensures Build(Zeros(2 * SECTOR), [p], 0).Image?
    ensures var r := Load(Geometry(18, 2), Build(Zeros(2 * SECTOR), [p], 0).bytes, m);
            r.Done? && r.mem[0x10000] == 1
  {
    hide Build, GoodBoot, Load, Loadable, PadAll, Zeros;
    var boot, g := Zeros(2 * SECTOR), Geometry(18, 2);
    OneByte(p);
    Floppy();
    ImageSize(boot, [p], 0);
    LoadedByteForByte(boot, [p], 0, g, Build(boot, [p], 0).bytes, m);
    FirstByte(Load(g, Build(boot, [p], 0).bytes, m).mem, p);
  }

  lemma Floppy()
    ensures Geometry(18, 2).Valid() && Geometry(18, 2).Capacity() == 2880
  {
  }

  lemma FirstByte(m: seq<Byte>, p: Program)
    requires p == Program([1], Segmented(0x1000, 0)) && InPlace(m, p)
    ensures 0x10000 < |m| && m[0x10000] == 1
  {
    hide Zeros;
    assert p.content <= Pad(p.content);
    assert Pad(p.content)[0] == p.content[0];
  }
}
