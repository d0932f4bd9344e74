/** boot/bootstrap.S: registers, the position variables and memory, changed in place. */
module BootLoader {
  import opened Defs
  import opened ImageSpec
  import L = LoaderSpec

  datatype Status = Ok | TooBig | CannotRead

  function Result(s: Status, m: seq<Byte>, pos: L.Position): L.Outcome {
    match s
    case Ok => L.Done(m, pos)
    case TooBig => L.TooBig(m)
    case CannotRead => L.Failed(m)
  }

  class Loader {
    const mem: array<Byte>
    const geometry: L.Geometry
    const max_sec: Byte
    const max_head: Byte
    /** The variables `sec` and `head`: sector and track are the two bytes of one word. */
    var sector: Byte
    var track: Byte
    var head: Byte

    ghost predicate Valid()
      reads this
    {
      && mem.Length == L.MEMORY && geometry.Valid()
      && max_sec == geometry.MaxSec() && max_head == geometry.MaxHead()
      && Pos().On(geometry)
    }

    ghost function Pos(): L.Position
      reads this
    {
      L.Position(track, head, sector)
    }

    /** The BIOS reports the last sector of a track in the low six bits of `cl`, and the last head in `dh`. */
    constructor (m: array<Byte>, g: L.Geometry, cl: Byte, dh: Byte)
      requires m.Length == L.MEMORY && g.Valid() && cl % 64 == g.sectors && dh == g.heads - 1
      ensures Valid() && mem == m && geometry == g && Pos() == L.START
    {
      mem, geometry := m, g;
      max_sec := cl % 64 + 1;
      max_head := (dh + 1) % 256;
      sector, track, head := 2, 0, 0;
    }

    /** The BIOS call: one sector from the current position to es:bx. */
    method ReadSector(disk: seq<Byte>, es: Word16, bx: Word16) returns (ok: bool)
      requires Valid()
      modifies mem
      ensures Valid() && ok == (SECTOR * (Pos().Lba(geometry) + 1) <= |disk|)
      ensures mem[..] == if ok then
                L.ReadTo(old(mem[..]), es, bx, disk[SECTOR * Pos().Lba(geometry)..SECTOR * (Pos().Lba(geometry) + 1)])
              else old(mem[..])
    {
      var lba := L.Number(L.Number(track, geometry.heads, head), geometry.sectors, sector - 1);
      ok := SECTOR * (lba + 1) <= |disk|;
      if ok {
        Transfer(disk[SECTOR * lba..SECTOR * (lba + 1)], es, bx);
      }
    }

    method Transfer(data: seq<Byte>, es: Word16, bx: Word16)
      requires Valid() && |data| == SECTOR
      modifies mem
      ensures mem[..] == L.ReadTo(old(mem[..]), es, bx, data)
    {
      var j := 0;
      while j < SECTOR
        invariant j <= SECTOR
        invariant forall a :: 0 <= a < mem.Length ==>
                    mem[a] == if L.InSegment(es, a) && L.Index(es, bx, a) < j then data[L.Index(es, bx, a)]
                      else old(mem[a])
      {
        forall a | L.InSegment(es, a)
          ensures L.Cell(es, bx, j) == a <==> L.Index(es, bx, a) == j
        {
          L.CellIndex(es, bx, a, j);
        }
        mem[L.Cell(es, bx, j)] := data[j];
        j := j + 1;
      }
    }

    /** Sector, then head, then track; false once the last track is used up. */
    method Advance() returns (more: bool)
      requires Valid()
      modifies this`sector, this`head, this`track
      ensures match L.Next(geometry, old(Pos())) case None => !more case Some(q) => more && Valid() && Pos() == q
    {
      L.NextIsSuccessor(geometry, Pos());
      var cl: Byte, dh: Byte, ch: Byte := (sector + 1) % 256, head, track;
      if cl == max_sec {
        cl, dh := 1, (dh + 1) % 256;
        if dh == max_head {
          dh, ch := 0, (ch + 1) % 256;
          if ch == L.CYLINDERS {
            return false;
          }
        }
      }
      sector, head, track := cl, dh, ch;
      more := true;
    }

    /** `readprog` */
    method ReadProg(disk: seq<Byte>, count: Word16, segment: Word16, offset: Word16) returns (status: Status)
      requires Valid()
      modifies this`sector, this`head, this`track, mem
      ensures status.Ok? ==> Valid()
      ensures Result(status, mem[..], Pos()) ==
              L.ReadProg(geometry, disk, old(mem[..]), old(Pos()), segment, offset, count)
    {
      var ax: Word16, es: Word16, bx: Word16 := count, segment, offset;
      while true
        invariant Valid()
        invariant L.ReadProg(geometry, disk, mem[..], Pos(), es, bx, ax) ==
                  L.ReadProg(geometry, disk, old(mem[..]), old(Pos()), segment, offset, count)
        decreases ax
      {
        var ok := ReadSector(disk, es, bx);
        if !ok {
          return CannotRead;
        }
        if bx == 65536 - SECTOR {
          bx, es := 0, Low16(es + 0x1000);
        } else {
          bx := Low16(bx + SECTOR);
        }
        var more := Advance();
        if !more {
          return TooBig;
        }
        if Short(ax) <= 1 {
          return Ok;
        }
        ax := ax - 1;
      }
    }

    /** `nextblock` */
    method LoadPrograms(disk: seq<Byte>) returns (status: Status)
      requires Valid()
      modifies this`sector, this`head, this`track, mem
      ensures Result(status, mem[..], Pos()) == L.Walk(geometry, disk, old(mem[..]), old(Pos()), L.FIRST_COUNT)
    {
      var di: Word16 := L.FIRST_COUNT;
      var ax := Fetch(di);
      while ax != 0
        invariant Valid() && ax == WordAt(mem[..], L.BOOT + di)
        invariant L.Walk(geometry, disk, mem[..], Pos(), di) ==
                  L.Walk(geometry, disk, old(mem[..]), old(Pos()), L.FIRST_COUNT)
        decreases geometry.Capacity() - Pos().Lba(geometry)
      {
        var es := Fetch(Low16(di - 2));
        var bx := Fetch(Low16(di - 4));
        di := Low16(di - 6);
        status := ReadProg(disk, ax, es, bx);
        if !status.Ok? {
          return;
        }
        L.WithinCapacity(geometry, Pos());
        ax := Fetch(di);
      }
      status := Ok;
    }

    /** A word of the bootstrap sectors. */
    method Fetch(di: Word16) returns (w: Word16)
      requires Valid()
      ensures w == WordAt(mem[..], L.BOOT + di)
    {
      var low: nat, high: nat := mem[L.BOOT + di], mem[L.BOOT + di + 1];
      w := low + 256 * high;
    }

    /** From the entry point to `done_loading`, with the first sector already in memory. */
    method Start(disk: seq<Byte>, ghost m: seq<Byte>) returns (status: Status)
      requires Valid() && Pos() == L.START && SECTOR <= |disk| && |m| == L.MEMORY
      requires mem[..] == Patch(m, L.BOOT, disk[..SECTOR])
      modifies this`sector, this`head, this`track, mem
      ensures Result(status, mem[..], Pos()) == L.Load(geometry, disk, m)
    {
      status := ReadProg(disk, 1, 0, L.SECOND);
      if !status.Ok? {
        return;
      }
      ghost var before := mem[..];
      mem[L.MMAP_SECTORS] := mem[L.BOOT + L.FIRST_COUNT];
      mem[L.MMAP_SECTORS + 1] := mem[L.BOOT + L.FIRST_COUNT + 1];
      assert mem[..] == Patch(before, L.MMAP_SECTORS, before[L.BOOT + L.FIRST_COUNT..L.BOOT + L.FIRST_COUNT + 2]);
      status := LoadPrograms(disk);
    }
  }
}
