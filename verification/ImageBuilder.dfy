/** utils/BuildImage.c: the table is filled from its end in `info`, the output grows as files are copied. */
module ImageBuilder {
  import opened Defs
  import opened ImageSpec

  class Builder {
    const info: array<Word16>
    var n_info: nat
    var out: seq<Byte>
    ghost var entries: seq<Entry>

    ghost predicate Valid()
      reads this, info
    {
      && info.Length == N_INFO && n_info + 3 * |entries| == N_INFO
      && info[n_info..] == Table(entries)
    }

    constructor ()
      ensures Valid() && fresh(info) && entries == [] && out == []
    {
      info := new Word16[N_INFO];
      n_info := N_INFO;
      out, entries := [], [];
    }

    /** One read of up to 512 bytes; a short block is filled up with null bytes. */
    static method ReadBlock(file: seq<Byte>, at: nat, buf: array<Byte>) returns (n: nat)
      requires at < |file| && buf.Length == SECTOR
      modifies buf
      ensures 0 < n <= SECTOR && n == (if |file| - at < SECTOR then |file| - at else SECTOR)
      ensures buf[..n] == file[at..at + n] && forall j :: n <= j < SECTOR ==> buf[j] == 0
    {
      n := if |file| - at < SECTOR then |file| - at else SECTOR;
      forall i | 0 <= i < n {
        buf[i] := file[at + i];
      }
      var i := n;
      while i < SECTOR
        invariant n <= i <= SECTOR
        invariant buf[..n] == file[at..at + n]
        invariant forall j :: n <= j < i ==> buf[j] == 0
      {
        buf[i] := 0;
        i := i + 1;
      }
    }

    /** The whole file, block by block. */
    method CopyFile(file: seq<Byte>) returns (sectors: nat)
      requires Valid()
      modifies this`out
      ensures out == old(out) + Pad(file) && sectors == Sectors(file)
    {
      sectors := 0;
      var at := 0;
      var buf := new Byte[SECTOR];
      while at < |file|
        invariant at <= |file| && sectors == Sectors(file[..at])
        invariant at == |file| || at == SECTOR * sectors
        invariant out == old(out) + Pad(file[..at])
      {
        var n := ReadBlock(file, at, buf);
        PadMore(file, at, n, buf[..]);
        out := out + buf[..];
        at, sectors := at + n, sectors + 1;
      }
      assert file[..|file|] == file;
    }

    static lemma PadMore(file: seq<Byte>, at: nat, n: nat, block: seq<Byte>)
      requires at % SECTOR == 0 && at + n <= |file| && 0 < n <= SECTOR == |block|
      requires block[..n] == file[at..at + n] && forall j :: n <= j < SECTOR ==> block[j] == 0
      ensures Pad(file[..at + n]) == Pad(file[..at]) + block && Sectors(file[..at + n]) == Sectors(file[..at]) + 1
    {
      assert Sectors(file[..at]) * SECTOR == at;
      assert Sectors(file[..at + n]) * SECTOR == at + SECTOR;
      assert file[..at + n] == file[..at] + block[..n];
    }

    /** One program: copied first, checked after, and then entered in the table. */
    method ProcessFile(p: Program) returns (problem: Option<Problem>)
      requires Valid()
      modifies this, info
      ensures Valid() && out == old(out) + Pad(p.content)
      ensures problem == Refusal(p, old(n_info))
      ensures entries == if problem.None? then old(entries) + [EntryOf(p)] else old(entries)
    {
      hide Table, Pad;
      var sectors := CopyFile(p.content);
      var address, segment, offset := 0, 0, 0;
      match p.at {
        case Segmented(s, o) =>
          segment, offset := s, o;
          address := Short(s) * 16 + Short(o);
        case Flat(a) =>
          address, segment, offset := a, Low16(a / 16), a % 16;
          if a > TOP {
            return Some(BadAddress);
          }
      }
      if address + sectors * SECTOR > TOP {
        return Some(TooLarge);
      }
      if n_info < 3 {
        return Some(TooMany);
      }
      Enter(Low16(sectors), segment, offset, EntryOf(p));
      problem := None;
    }

    /** Three words more at the front of the table. */
    method Enter(count: Word16, segment: Word16, offset: Word16, ghost e: Entry)
      requires Valid() && 3 <= n_info && e == Entry(count, segment, offset)
      modifies this`n_info, this`entries, info
      ensures Valid() && entries == old(entries) + [e] && n_info == old(n_info) - 3
    {
      n_info := n_info - 1;
      info[n_info] := count;
      n_info := n_info - 1;
      info[n_info] := segment;
      n_info := n_info - 1;
      info[n_info] := offset;
      TableSnoc(entries, e);
      assert info[n_info..] == [offset, segment, count] + old(info[n_info..]);
      entries := entries + [e];
    }

    /** `main`, from the copying of the bootstrap on. */
    method BuildImage(boot: seq<Byte>, progs: seq<Program>, drive: Word16) returns (built: Built)
      requires Valid() && entries == [] && out == [] && progs != []
      modifies this, info
      ensures built == Build(boot, progs, drive)
    {
      hide Table, BytesOf, Finish, RoomFor, Pad, PadAll, FirstRefusal;
      var sectors := CopyFile(boot);
      var problem := ProcessAll(progs);
      if problem.Some? {
        return Rejected(problem.value);
      }
      assert out[..|Pad(boot)|] == Pad(boot);
      built := WriteTable(sectors * SECTOR, drive);
    }

    /** The programs one by one, up to the first that is refused. */
    method ProcessAll(progs: seq<Program>) returns (problem: Option<Problem>)
      requires Valid() && entries == []
      modifies this, info
      ensures Valid() && problem == FirstRefusal(progs, N_INFO)
      ensures problem.None? ==> entries == EntriesOf(progs) && out == old(out) + PadAll(progs)
    {
      hide Table, Refusal, Pad, PadAll, EntriesOf, FirstRefusal;
      NoPrograms(progs, N_INFO);
      var k := 0;
      while k < |progs|
        invariant k <= |progs| && Valid() && entries == EntriesOf(progs[..k])
        invariant out == old(out) + PadAll(progs[..k])
        invariant FirstRefusal(progs, N_INFO) == FirstRefusal(progs[k..], n_info)
      {
        RefusalNext(progs, k, n_info);
        OutputNext(old(out), progs, k);
        problem := ProcessFile(progs[k]);
        if problem.Some? {
          return;
        }
        k := k + 1;
      }
      NoPrograms(progs, n_info);
      problem := None;
    }

    static lemma NoPrograms(progs: seq<Program>, unused: nat)
      ensures progs[..0] == [] && EntriesOf([]) == [] && PadAll([]) == [] && progs[0..] == progs
      ensures progs[..|progs|] == progs && progs[|progs|..] == [] && FirstRefusal([], unused) == None
    {
    }

    static lemma RefusalNext(progs: seq<Program>, k: nat, unused: nat)
      requires k < |progs|
      ensures var problem := Refusal(progs[k], unused);
              if problem.Some? then FirstRefusal(progs[k..], unused) == problem
              else 3 <= unused && FirstRefusal(progs[k..], unused) == FirstRefusal(progs[k + 1..], unused - 3)
    {
      assert progs[k..][1..] == progs[k + 1..];
    }

    static lemma OutputNext(out: seq<Byte>, progs: seq<Program>, k: nat)
      requires k < |progs|
      ensures out + PadAll(progs[..k + 1]) == out + PadAll(progs[..k]) + Pad(progs[k].content)
      ensures EntriesOf(progs[..k + 1]) == EntriesOf(progs[..k]) + [EntryOf(progs[k])]
    {
      hide PadAll, Pad, EntriesOf;
      PadAllSnoc(progs, k);
    }

    static lemma {:induction false} PadAllSnoc(progs: seq<Program>, k: nat)
      requires k < |progs|
      ensures PadAll(progs[..k + 1]) == PadAll(progs[..k]) + Pad(progs[k].content)
      ensures EntriesOf(progs[..k + 1]) == EntriesOf(progs[..k]) + [EntryOf(progs[k])]
    {
      if k > 0 {
        PadAllSnoc(progs[1..], k - 1);
        assert progs[..k + 1][1..] == progs[1..][..k] && progs[..k][1..] == progs[1..][..k - 1];
      } else {
        assert progs[..1][1..] == [] && progs[..0] == [];
      }
    }

    /** Are the last `words` words of the bootstrap all zero? */
    method IsClear(bootSize: nat, words: nat) returns (clear: bool)
      requires 2 * words <= bootSize <= |out|
      ensures clear == RoomFor(out[..bootSize], 2 * words)
    {
      var at, i := bootSize - 2 * words, 0;
      while i < words
        invariant i <= words
        invariant forall j :: at <= j < at + 2 * i ==> out[j] == 0
      {
        if WordAt(out, at + 2 * i) != 0 {
          assert at + 2 * i + 1 < bootSize;
          assert out[..bootSize][at + 2 * i] != 0 || out[..bootSize][at + 2 * i + 1] != 0;
          return false;
        }
        i := i + 1;
      }
      clear := true;
    }

    /** The table goes over zeros at the end of the bootstrap, and the drive number into it. */
    method WriteTable(bootSize: nat, drive: Word16) returns (built: Built)
      requires Valid() && bootSize <= |out| && bootSize % SECTOR == 0 && entries != []
      modifies this`out
      ensures var base, table := old(out)[..bootSize], BytesOf(Table(entries));
              built == if bootSize < |table| then Rejected(TooShort)
                       else if !RoomFor(base, |table|) then Rejected(NoRoom)
                       else Image(Finish(old(out), bootSize, table, drive))
    {
      hide Patch, RoomFor, BytesOf;
      var words := N_INFO - n_info;
      var bytes := 2 * words;
      if bootSize < bytes {
        return Rejected(TooShort);
      }
      var clear := IsClear(bootSize, words);
      if !clear {
        return Rejected(NoRoom);
      }
      out := Patch(out, bootSize - bytes, BytesOf(info[n_info..]));
      out := Patch(out, DRIVE_AT, BytesOf([drive]));
      built := Image(out);
    }
  }
}
