/** The boot loader: disk positions, segment:offset buffers, and the walk down the load table. */
module LoaderSpec {
  import opened Defs
  import opened ImageSpec

  const CYLINDERS: nat := 80
  /** Where the two bootstrap sectors are in memory, and the first count within them. */
  const BOOT: nat := 0x7C00
  const SECOND: nat := 0x7E00
  const FIRST_COUNT: nat := 0x3FE
  /** Where the kernel will look for the size of the first program. */
  const MMAP_SECTORS: nat := 0x2D0A
  /** Every address a segment:offset pair can name. */
  const MEMORY: nat := 0x11_0000

  // ---- positions on the disk ----

  /** Counting in rows of `width`. */
  function Number(hi: nat, width: nat, lo: nat): nat { hi * width + lo }

  lemma NumberNext(hi: nat, width: nat, lo: nat)
    ensures Number(hi, width, lo) + 1 == Number(hi, width, lo + 1)
    ensures lo == width ==> Number(hi, width, lo) == Number(hi + 1, width, 0)
  {
  }

  lemma NumberGrows(a: nat, b: nat, width: nat)
    requires a <= b
    ensures Number(a, width, 0) <= Number(b, width, 0)
  {
    if a < b {
      NumberGrows(a, b - 1, width);
      NumberNext(b - 1, width, width);
    }
  }

  lemma NumberBelow(hi: nat, width: nat, lo: nat, n: nat)
    requires hi < n && lo < width
    ensures Number(hi, width, lo) < Number(n, width, 0)
  {
    NumberGrows(hi + 1, n, width);
    NumberNext(hi, width, width);
  }

  lemma NumberInjective(a: nat, r: nat, b: nat, s: nat, width: nat)
    requires r < width && s < width && Number(a, width, r) == Number(b, width, s)
    ensures a == b && r == s
  {
    if a < b {
      NumberBelow(a, width, r, b);
    } else if b < a {
      NumberBelow(b, width, s, a);
    }
  }

  /** As the BIOS reports it; the loader starts at sector 2, so a track has at least two. */
  datatype Geometry = Geometry(sectors: nat, heads: nat) {
    predicate Valid() { 2 <= sectors <= 63 && 1 <= heads <= 256 }

    /** The bytes the loader compares with: one past the last sector, and one past the last head. */
    function MaxSec(): Byte
      requires Valid()
    {
      sectors + 1
    }

    function MaxHead(): Byte { heads % 256 }

    function Capacity(): nat { Number(Number(CYLINDERS, heads, 0), sectors, 0) }
  }

  datatype Position = Position(track: Byte, head: Byte, sector: Byte) {
    predicate On(g: Geometry) { track < CYLINDERS && head < g.heads && 1 <= sector <= g.sectors }

    /** The sector's number on the disk, counted from 0. */
    function Lba(g: Geometry): (n: nat)
      requires On(g)
    {
      Number(Number(track, g.heads, head), g.sectors, sector - 1)
    }
  }

  /** The step after each sector, in bytes as the registers are; None is the "Too big" freeze. */
  function Next(g: Geometry, p: Position): Option<Position>
    requires g.Valid()
  {
    var cl := (p.sector + 1) % 256;
    if cl != g.MaxSec() then Some(Position(p.track, p.head, cl))
    else
      var dh := (p.head + 1) % 256;
      if dh != g.MaxHead() then Some(Position(p.track, dh, 1))
      else
        var ch := (p.track + 1) % 256;
        if ch != CYLINDERS then Some(Position(ch, 0, 1)) else None
  }

  /** Stepping visits consecutive sectors, and freezes right after the last one of the disk. */
  lemma NextIsSuccessor(g: Geometry, p: Position)
    requires g.Valid() && p.On(g)
    ensures match Next(g, p)
            case Some(q) => q.On(g) && q.Lba(g) == p.Lba(g) + 1
            case None => p.Lba(g) + 1 == g.Capacity()
  {
    hide Number;
    var a := Number(p.track, g.heads, p.head);
    NumberNext(a, g.sectors, p.sector - 1);
    NumberNext(p.track, g.heads, p.head);
    NumberNext(p.track, g.heads, p.head + 1);
    NumberNext(a, g.sectors, g.sectors);
  }

  /** A sector number belongs to one position only. */
  lemma LbaInjective(g: Geometry, p: Position, q: Position)
    requires g.Valid() && p.On(g) && q.On(g) && p.Lba(g) == q.Lba(g)
    ensures p == q
  {
    hide Number;
    NumberInjective(Number(p.track, g.heads, p.head), p.sector - 1, Number(q.track, g.heads, q.head), q.sector - 1,
        g.sectors);
    NumberInjective(p.track, p.head, q.track, q.head, g.heads);
  }

  lemma WithinCapacity(g: Geometry, p: Position)
    requires g.Valid() && p.On(g)
    ensures p.Lba(g) < g.Capacity()
  {
    hide Number;
    NumberBelow(p.track, g.heads, p.head, CYLINDERS);
    NumberBelow(Number(p.track, g.heads, p.head), g.sectors, p.sector - 1, Number(CYLINDERS, g.heads, 0));
  }

  // ---- buffers ----

  /** The address of byte `j` of a buffer: offsets wrap around within the segment. */
  function Cell(es: Word16, bx: Word16, j: nat): (a: nat)
    ensures a < MEMORY
  {
    es * 16 + (bx + j) % 65536
  }

  /** Which byte of the buffer an address of the segment is. */
  function Index(es: Word16, bx: Word16, a: int): nat { (a - es * 16 - bx) % 65536 }

  predicate InSegment(es: Word16, a: int) { es * 16 <= a < es * 16 + 65536 }

  lemma CellIndex(es: Word16, bx: Word16, a: int, j: nat)
    requires InSegment(es, a) && j < SECTOR
    ensures Cell(es, bx, j) == a <==> Index(es, bx, a) == j
  {
    var d := a - es * 16;
    assert (d - bx) % 65536 == if bx <= d then d - bx else d - bx + 65536;
    assert (bx + j) % 65536 == if bx + j < 65536 then bx + j else bx + j - 65536;
  }

  /** Memory after one sector is read to es:bx. */
  function ReadTo(m: seq<Byte>, es: Word16, bx: Word16, data: seq<Byte>): (r: seq<Byte>)
    requires |data| == SECTOR
    ensures |r| == |m|
  {
    seq(|m|, a requires 0 <= a < |m| =>
      if InSegment(es, a) && Index(es, bx, a) < SECTOR then data[Index(es, bx, a)] else m[a])
  }

  /** A buffer that ends within its segment is a plain range. */
  lemma ReadToPatch(m: seq<Byte>, es: Word16, bx: Word16, data: seq<Byte>)
    requires |data| == SECTOR && bx + SECTOR <= 65536 && es * 16 + bx + SECTOR <= |m|
    ensures ReadTo(m, es, bx, data) == Patch(m, es * 16 + bx, data)
  {
    forall a | 0 <= a < |m|
      ensures ReadTo(m, es, bx, data)[a] == Patch(m, es * 16 + bx, data)[a]
    {
      var d := a - es * 16 - bx;
      if 0 <= d < 65536 {
        assert d % 65536 == d;
      } else if -65536 <= d < 0 {
        assert d % 65536 == d + 65536;
      }
    }
  }

  /** A read puts byte `j` of the sector at offset bx + j of the segment, wrapping around within it, and changes nothing
      else. */
  lemma ReadToCells(m: seq<Byte>, es: Word16, bx: Word16, data: seq<Byte>)
    requires |data| == SECTOR
    ensures var r := ReadTo(m, es, bx, data);
            && (forall j :: 0 <= j < SECTOR && Cell(es, bx, j) < |m| ==> r[Cell(es, bx, j)] == data[j])
            && (forall a :: 0 <= a < |m| && (forall j :: 0 <= j < SECTOR ==> Cell(es, bx, j) != a) ==> r[a] == m[a])
  {
    var r := ReadTo(m, es, bx, data);
    forall j | 0 <= j < SECTOR && Cell(es, bx, j) < |m|
      ensures r[Cell(es, bx, j)] == data[j]
    {
      CellIndex(es, bx, Cell(es, bx, j), j);
    }
    forall a | 0 <= a < |m| && (forall j :: 0 <= j < SECTOR ==> Cell(es, bx, j) != a)
      ensures r[a] == m[a]
    {
      if InSegment(es, a) && Index(es, bx, a) < SECTOR {
        CellIndex(es, bx, a, Index(es, bx, a));
      }
    }
  }

  /** The buffer after this one. */
  function NextSegment(es: Word16, bx: Word16): Word16 {
    if bx == 65536 - SECTOR then Low16(es + 0x1000) else es
  }

  function NextOffset(bx: Word16): Word16 {
    if bx == 65536 - SECTOR then 0 else Low16(bx + SECTOR)
  }

  function SegmentAfter(es: Word16, bx: Word16, k: nat): Word16
    decreases k
  {
    if k == 0 then es else SegmentAfter(NextSegment(es, bx), NextOffset(bx), k - 1)
  }

  function OffsetAfter(bx: Word16, k: nat): Word16
    decreases k
  {
    if k == 0 then bx else OffsetAfter(NextOffset(bx), k - 1)
  }

  /** `n` sectors read from es:bx on fill a plain range of memory. */
  predicate Straight(bx: Word16, n: nat) {
    bx % SECTOR == 0 || bx + SECTOR * n <= 65536
  }

  lemma {:induction false} StraightStep(es: Word16, bx: Word16, n: nat, k: nat)
    requires Straight(bx, n) && k < n && es * 16 + bx + SECTOR * n <= 0x10_0000
    ensures SegmentAfter(es, bx, k) * 16 + OffsetAfter(bx, k) == es * 16 + bx + SECTOR * k
    ensures OffsetAfter(bx, k) + SECTOR <= 65536
    decreases k
  {
    if k > 0 {
      assert if bx == 65536 - SECTOR then NextSegment(es, bx) == es + 0x1000 else NextOffset(bx) == bx + SECTOR;
      StraightStep(NextSegment(es, bx), NextOffset(bx), n - 1, k - 1);
    }
  }

  lemma {:induction false} CrookedStep(bx: Word16, k: nat)
    requires bx % SECTOR != 0 && bx + SECTOR * k < 65536
    ensures OffsetAfter(bx, k) == bx + SECTOR * k
    decreases k
  {
    if k > 0 {
      CrookedStep(NextOffset(bx), k - 1);
    }
  }

  /** Exactly then: otherwise some byte of some sector goes elsewhere. */
  lemma StraightExactly(es: Word16, bx: Word16, n: nat)
    requires es * 16 + bx + SECTOR * n <= 0x10_0000
    ensures Straight(bx, n) <==>
              forall k, j :: 0 <= k < n && 0 <= j < SECTOR ==>
                Cell(SegmentAfter(es, bx, k), OffsetAfter(bx, k), j) == es * 16 + bx + SECTOR * k + j
  {
    if Straight(bx, n) {
      forall k, j | 0 <= k < n && 0 <= j < SECTOR
        ensures Cell(SegmentAfter(es, bx, k), OffsetAfter(bx, k), j) == es * 16 + bx + SECTOR * k + j
      {
        StraightStep(es, bx, n, k);
      }
    } else {
      var k := (65536 - bx) / SECTOR;
      CrookedStep(bx, k);
      var j := 65536 - (bx + SECTOR * k);
      CrookedSegment(es, bx, k);
      assert Cell(SegmentAfter(es, bx, k), OffsetAfter(bx, k), j) == es * 16;
    }
  }

  lemma {:induction false} CrookedSegment(es: Word16, bx: Word16, k: nat)
    requires bx % SECTOR != 0 && bx + SECTOR * k < 65536
    ensures SegmentAfter(es, bx, k) == es
    decreases k
  {
    if k > 0 {
      CrookedSegment(es, NextOffset(bx), k - 1);
    }
  }

  // ---- reading ----

  /** Finished, frozen because the disk is used up, or frozen because a sector cannot be read. */
  datatype Outcome = Done(mem: seq<Byte>, pos: Position) | TooBig(mem: seq<Byte>) | Failed(mem: seq<Byte>)

  /** `readprog`: `ax` sectors to es:bx; the count is tested after each sector, as a signed number. */
  function ReadProg(g: Geometry, disk: seq<Byte>, m: seq<Byte>, pos: Position, es: Word16, bx: Word16,
      ax: Word16): (r: Outcome)
    requires g.Valid() && pos.On(g)
    ensures |r.mem| == |m|
    ensures r.Done? ==> r.pos.On(g) && pos.Lba(g) < r.pos.Lba(g)
    decreases ax
  {
    var lba := pos.Lba(g);
    if |disk| < SECTOR * (lba + 1) then Failed(m)
    else
      var m1 := ReadTo(m, es, bx, disk[SECTOR * lba..SECTOR * (lba + 1)]);
      NextIsSuccessor(g, pos);
      match Next(g, pos)
      case None => TooBig(m1)
      case Some(q) =>
        if 1 < Short(ax) then ReadProg(g, disk, m1, q, NextSegment(es, bx), NextOffset(bx), ax - 1) else Done(m1, q)
  }

  /** Memory once `k` sectors of the disk, from sector `lba` on, have been read to es:bx and the buffers after it. */
  function AllRead(m: seq<Byte>, es: Word16, bx: Word16, disk: seq<Byte>, lba: nat, k: nat): (r: seq<Byte>)
    requires SECTOR * (lba + k) <= |disk|
    ensures |r| == |m|
    decreases k
  {
    if k == 0 then m
    else
      AllRead(ReadTo(m, es, bx, disk[SECTOR * lba..SECTOR * (lba + 1)]), NextSegment(es, bx), NextOffset(bx), disk,
              lba + 1, k - 1)
  }

  /** What `readprog` does for every count, a count of 0 or with its top bit set being taken for 1: it finishes if the
      disk has that many sectors left and one more; freezes once it has read the last one otherwise; and freezes before
      the first sector that is not there to be read. */
  lemma {:induction false} ReadProgExactly(g: Geometry, disk: seq<Byte>, m: seq<Byte>, pos: Position, es: Word16,
      bx: Word16, ax: Word16)
    requires g.Valid() && pos.On(g)
    ensures var r, lba, n := ReadProg(g, disk, m, pos, es, bx, ax), pos.Lba(g), if 2 <= ax < 0x8000 then ax else 1;
            var left := g.Capacity() - lba;
            && 1 <= left
            && (n < left && SECTOR * (lba + n) <= |disk| ==>
                  r.Done? && r.mem == AllRead(m, es, bx, disk, lba, n) && r.pos.Lba(g) == lba + n)
            && (left <= n && SECTOR * (lba + left) <= |disk| ==> r == TooBig(AllRead(m, es, bx, disk, lba, left)))
            && forall k :: 0 <= k < n && k < left && SECTOR * (lba + k) <= |disk| < SECTOR * (lba + k + 1) ==>
                 r == Failed(AllRead(m, es, bx, disk, lba, k))
    decreases ax
  {
    hide Position.Lba, Geometry.Capacity, ReadTo, NextSegment, NextOffset, Next;
    var lba := pos.Lba(g);
    WithinCapacity(g, pos);
    NextIsSuccessor(g, pos);
    if SECTOR * (lba + 1) <= |disk| && Next(g, pos).Some? {
      WithinCapacity(g, Next(g, pos).value);
      if 2 <= ax < 0x8000 {
        var m1 := ReadTo(m, es, bx, disk[SECTOR * lba..SECTOR * (lba + 1)]);
        ReadProgExactly(g, disk, m1, Next(g, pos).value, NextSegment(es, bx), NextOffset(bx), ax - 1);
      }
    }
  }

  /** `nextblock`: down the table from `di` to the first zero count. */
  function Walk(g: Geometry, disk: seq<Byte>, m: seq<Byte>, pos: Position, di: Word16): (r: Outcome)
    requires g.Valid() && pos.On(g) && |m| == MEMORY
    ensures |r.mem| == |m|
    ensures r.Done? ==> r.pos.On(g)
    decreases g.Capacity() - pos.Lba(g)
  {
    var ax := WordAt(m, BOOT + di);
    if ax == 0 then Done(m, pos)
    else
      var es, bx := WordAt(m, BOOT + Low16(di - 2)), WordAt(m, BOOT + Low16(di - 4));
      var r := ReadProg(g, disk, m, pos, es, bx, ax);
      if r.Done? then
        WithinCapacity(g, r.pos);
        Walk(g, disk, r.mem, r.pos, Low16(di - 6))
      else r
  }

  /** One entry of the table: the count at `di`, the segment two bytes below and the offset four; none when the count is
      0; a program that is not read to its end ends the walk, and otherwise the next entry is six bytes below. */
  lemma WalkRound(g: Geometry, disk: seq<Byte>, m: seq<Byte>, pos: Position, di: Word16)
    requires g.Valid() && pos.On(g) && |m| == MEMORY && 4 <= di
    ensures var count := WordAt(m, 0x7C00 + di);
            var segment, offset := WordAt(m, 0x7C00 + di - 2), WordAt(m, 0x7C00 + di - 4);
            var r := ReadProg(g, disk, m, pos, segment, offset, count);
            && (count == 0 ==> Walk(g, disk, m, pos, di) == Done(m, pos))
            && (count != 0 && !r.Done? ==> Walk(g, disk, m, pos, di) == r)
            && (count != 0 && r.Done? && 6 <= di ==> Walk(g, disk, m, pos, di) == Walk(g, disk, r.mem, r.pos, di - 6))
  {
    hide ReadProg, WordAt, Position.Lba, Geometry.Capacity;
  }

  const START: Position := Position(0, 0, 2)

  /** From power-on: the BIOS has put the first sector at 7C00; the loader fetches the second, notes the first
      program's size for the kernel, and walks the table. */
  function Load(g: Geometry, disk: seq<Byte>, m: seq<Byte>): (r: Outcome)
    requires g.Valid() && |m| == MEMORY && SECTOR <= |disk|
    ensures |r.mem| == |m|
  {
    var r := ReadProg(g, disk, Patch(m, BOOT, disk[..SECTOR]), START, 0, SECOND, 1);
    if r.Done? then
      var size := r.mem[BOOT + FIRST_COUNT..BOOT + FIRST_COUNT + 2];
      Walk(g, disk, Patch(r.mem, MMAP_SECTORS, size), r.pos, FIRST_COUNT)
    else r
  }
}
