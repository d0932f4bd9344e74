/** Setting up paging: the frame bitmap, the page tables made on demand, and the three mapping loops. */
module Paging {
  import opened Defs

  const PAGE_SIZE: nat := 0x1000
  const TABLE_SIZE: nat := 1024
  const SIZE: nat := 32
  const MEM_START: nat := 0x11F000
  const MNGR_SIZE: nat := 0x1000000
  const DIR_BYTES: nat := 0x2000
  const PHYS_MEM_SIZE: nat := 0x1000000

  /** The pages up to the end of the memory manager's region. */
  const PAGES: nat := (MEM_START + MNGR_SIZE) / PAGE_SIZE

  // ---- the bitmap ----

  /** A word of the bitmap, bit by bit. */
  type Word = w: seq<bool> | |w| == SIZE witness seq(SIZE, i => false)

  const FULL_WORD: Word := seq(SIZE, i => true)

  /** The search skips exactly the words with no clear bit. */
  lemma FullWord(w: Word)
    ensures w == FULL_WORD <==> forall y :: 0 <= y < SIZE ==> w[y]
  {
    if forall y :: 0 <= y < SIZE ==> w[y] {
      assert forall y :: 0 <= y < SIZE ==> w[y] == FULL_WORD[y];
    }
  }

  function ClearByte(w: Word, b: nat): (v: Word)
    ensures forall i :: 0 <= i < SIZE ==> v[i] == (w[i] && i / 8 != b)
  {
    seq(SIZE, i requires 0 <= i < SIZE => w[i] && i / 8 != b)
  }

  predicate Bit(w: seq<Word>, f: nat)
    requires f < SIZE * |w|
  {
    w[f / SIZE][f % SIZE]
  }

  lemma ByteCleared(w: seq<Word>, b: nat, f: nat)
    requires b / 4 < |w| && f < SIZE * |w|
    ensures Bit(w[b / 4 := ClearByte(w[b / 4], b % 4)], f) <==> Bit(w, f) && f / 8 != b
  {
    assert f / 8 == 4 * (f / SIZE) + f % SIZE / 8 && b == 4 * (b / 4) + b % 4;
  }

  /** The frames at or after `f` that are free, in ascending order. */
  function FreeFrom(w: seq<Word>, f: nat): (l: seq<nat>)
    requires f <= SIZE * |w|
    decreases SIZE * |w| - f
  {
    if f == SIZE * |w| then [] else (if Bit(w, f) then [] else [f]) + FreeFrom(w, f + 1)
  }

  lemma {:induction false} FreeBounds(w: seq<Word>, f: nat)
    requires f <= SIZE * |w|
    ensures |FreeFrom(w, f)| <= SIZE * |w| - f
    ensures forall i :: 0 <= i < |FreeFrom(w, f)| ==> f + i <= FreeFrom(w, f)[i] < SIZE * |w|
    decreases SIZE * |w| - f
  {
    if f < SIZE * |w| {
      FreeBounds(w, f + 1);
    }
  }

  /** With every frame below `g` taken, the list starts at `g`. */
  lemma {:induction false} FreeSkips(w: seq<Word>, f: nat, g: nat)
    requires f <= g <= SIZE * |w| && forall h :: f <= h < g ==> Bit(w, h)
    ensures FreeFrom(w, f) == FreeFrom(w, g)
    decreases g - f
  {
    hide Bit;
    if f < g {
      FreeSkips(w, f + 1, g);
    }
  }

  lemma {:induction false} FreeSame(w: seq<Word>, v: seq<Word>, f: nat)
    requires |v| == |w| && f <= SIZE * |w| && forall h :: f <= h < SIZE * |w| ==> Bit(v, h) == Bit(w, h)
    ensures FreeFrom(v, f) == FreeFrom(w, f)
    decreases SIZE * |w| - f
  {
    hide Bit;
    if f < SIZE * |w| {
      FreeSame(w, v, f + 1);
    }
  }

  lemma {:induction false} FreeHead(w: seq<Word>, f: nat)
    requires f <= SIZE * |w|
    ensures var l := FreeFrom(w, f);
            l != [] ==> f <= l[0] < SIZE * |w| && !Bit(w, l[0]) && forall h :: f <= h < l[0] ==> Bit(w, h)
    decreases SIZE * |w| - f
  {
    hide Bit;
    if f < SIZE * |w| && Bit(w, f) {
      FreeHead(w, f + 1);
    }
  }

  /** Taking the lowest free frame takes the head off the list. */
  lemma FreeTaken(w: seq<Word>, v: seq<Word>, g: nat)
    requires |v| == |w| && g < SIZE * |w| && !Bit(w, g) && forall h :: 0 <= h < g ==> Bit(w, h)
    requires forall h :: 0 <= h < SIZE * |w| ==> (Bit(v, h) <==> h == g || Bit(w, h))
    ensures FreeFrom(w, 0) == [g] + FreeFrom(v, 0)
  {
    hide Bit;
    FreeSkips(w, 0, g);
    FreeSkips(v, 0, g + 1);
    FreeSame(w, v, g + 1);
  }

  /** The first `n` free frames are frames 0 to n-1 exactly when none of those is taken. */
  lemma {:induction false} FreePrefix(w: seq<Word>, f: nat, n: nat)
    requires f + n <= SIZE * |w| && n <= |FreeFrom(w, f)|
    ensures (forall i :: 0 <= i < n ==> FreeFrom(w, f)[i] == f + i) <==> forall h :: f <= h < f + n ==> !Bit(w, h)
    decreases n
  {
    hide Bit;
    if n > 0 {
      if Bit(w, f) {
        FreeBounds(w, f + 1);
        assert FreeFrom(w, f)[0] != f;
      } else {
        FreePrefix(w, f + 1, n - 1);
        var l, r := FreeFrom(w, f), FreeFrom(w, f + 1);
        assert forall i :: 0 <= i < n - 1 ==> l[i + 1] == r[i];
        assert forall i :: 0 < i < n ==> l[i] == r[i - 1];
      }
    }
  }

  /** The bitmap once as many of its bytes are cleared as it has words. */
  function Swept(w: seq<Word>): (v: seq<Word>)
    ensures |v| == |w|
  {
    seq(|w|, x requires 0 <= x < |w| => seq(SIZE, y requires 0 <= y < SIZE => w[x][y] && 8 * |w| <= SIZE * x + y))
  }

  lemma SweptBit(w: seq<Word>, f: nat)
    requires f < SIZE * |w|
    ensures Bit(Swept(w), f) <==> 8 * |w| <= f && Bit(w, f)
  {
  }

  lemma SameBits(v: seq<Word>, w: seq<Word>)
    requires |v| == |w| && forall f :: 0 <= f < SIZE * |w| ==> Bit(v, f) == Bit(w, f)
    ensures v == w
  {
    forall x | 0 <= x < |w|
      ensures v[x] == w[x]
    {
      forall y | 0 <= y < SIZE
        ensures v[x][y] == w[x][y]
      {
        assert Bit(v, SIZE * x + y) == Bit(w, SIZE * x + y);
      }
    }
  }

  /** The pages that are given frames are given the frames of the same numbers exactly when the part of the bitmap
      that was not cleared has no stale bit among them. */
  lemma IdentityExactly(w: seq<Word>, n: nat)
    requires n <= |FreeFrom(Swept(w), 0)|
    ensures (forall k :: 0 <= k < n ==> FreeFrom(Swept(w), 0)[k] == k)
            <==> forall f :: 8 * |w| <= f < n && f < SIZE * |w| ==> !Bit(w, f)
  {
    hide Bit, Swept;
    FreeBounds(Swept(w), 0);
    FreePrefix(Swept(w), 0, n);
    forall f | 0 <= f < n
      ensures Bit(Swept(w), f) <==> 8 * |w| <= f && Bit(w, f)
    {
      SweptBit(w, f);
    }
  }

  /** The constants shown: 16 MB of frames are too few for a 16 MB region that starts above 1 MB. */
  lemma TooFewFrames(w: seq<Word>)
    requires |w| == PHYS_MEM_SIZE / PAGE_SIZE / SIZE
    ensures |FreeFrom(w, 0)| < PAGES
  {
    FreeBounds(w, 0);
  }

  /** `frame_loc`, a bit for each frame. */
  class Frames {
    const words: array<Word>

    ghost predicate Taken(f: nat)
      requires f < SIZE * words.Length
      reads words
    {
      Bit(words[..], f)
    }

    /** The free frames, in ascending order. */
    ghost function Free(): seq<nat>
      reads words
    {
      FreeFrom(words[..], 0)
    }

    /** The bitmap is where `kalloc` puts it, and holds whatever that memory held. */
    constructor (stale: seq<Word>)
      ensures fresh(words) && words[..] == stale
    {
      words := new Word[|stale|](i requires 0 <= i < |stale| => stale[i]);
    }

    /** `_memclr` on the bitmap. */
    method Clear(bytes: nat)
      requires bytes <= 4 * words.Length
      modifies words
      ensures forall f :: 0 <= f < SIZE * words.Length ==> (Taken(f) <==> 8 * bytes <= f && old(Taken(f)))
    {
      ghost var was := words[..];
      for b := 0 to bytes
        invariant forall f :: 0 <= f < SIZE * words.Length ==> (Bit(words[..], f) <==> 8 * b <= f && Bit(was, f))
      {
        ghost var now := words[..];
        words[b / 4] := ClearByte(words[b / 4], b % 4);
        assert words[..] == now[b / 4 := ClearByte(now[b / 4], b % 4)];
        forall f | 0 <= f < SIZE * words.Length
          ensures Bit(words[..], f) <==> 8 * (b + 1) <= f && Bit(was, f)
        {
          ByteCleared(now, b, f);
        }
      }
    }

    /** `find_frame`: the lowest clear bit; the source does not say what happens when there is none. */
    method FindFrame() returns (frame: Option<nat>)
      ensures frame == if Free() == [] then None else Some(Free()[0])
      ensures frame.Some? ==> frame.value < SIZE * words.Length
    {
      var x := 0;
      while x < words.Length
        invariant x <= words.Length && forall u :: 0 <= u < x ==> words[u] == FULL_WORD
      {
        FullWord(words[x]);
        if words[x] != FULL_WORD {
          var y := 0;
          while y < SIZE
            invariant y <= SIZE && forall z :: 0 <= z < y ==> words[x][z]
          {
            if !words[x][y] {
              TakenBelow(x, y);
              assert !Taken(SIZE * x + y);
              FreeSkips(words[..], 0, SIZE * x + y);
              return Some(SIZE * x + y);
            }
            y := y + 1;
          }
        }
        x := x + 1;
      }
      TakenBelow(x, 0);
      FreeSkips(words[..], 0, SIZE * x);
      frame := None;
    }

    /** Full words, and then `y` set bits, take every frame up to there. */
    lemma TakenBelow(x: nat, y: nat)
      requires x <= words.Length && y < SIZE && (y > 0 ==> x < words.Length)
      requires forall u :: 0 <= u < x ==> words[u] == FULL_WORD
      requires forall z :: 0 <= z < y ==> words[x][z]
      ensures forall f :: 0 <= f < SIZE * x + y ==> Taken(f)
    {
      forall f | 0 <= f < SIZE * x + y
        ensures Taken(f)
      {
        if f / SIZE < x {
          FullWord(words[f / SIZE]);
        } else {
          assert f / SIZE == x;
        }
      }
    }

    method SetFrame(frame: nat)
      requires frame < SIZE * words.Length
      modifies words
      ensures forall f :: 0 <= f < SIZE * words.Length ==> (Taken(f) <==> f == frame || old(Taken(f)))
      ensures old(Free()) != [] && frame == old(Free())[0] ==> Free() == old(Free())[1..]
    {
      ghost var was := words[..];
      var x, y := frame / SIZE, frame % SIZE;
      words[x] := words[x][y := true];
      forall f | 0 <= f < SIZE * words.Length
        ensures Bit(words[..], f) <==> f == frame || Bit(was, f)
      {
        assert f != frame ==> f / SIZE != x || f % SIZE != y;
      }
      FreeHead(was, 0);
      if FreeFrom(was, 0) != [] && frame == FreeFrom(was, 0)[0] {
        FreeTaken(was, words[..], frame);
      }
    }
  }

  // ---- the tables, as a map from page numbers to entries ----

  datatype Page = Page(pres: bool, rw: bool, user: bool, frame: nat)

  const CLEAR: Page := Page(false, false, false, 0)

  /** The tables made so far, each with its 1024 entries. */
  type Tables = s: seq<Option<seq<Page>>> |
      |s| == TABLE_SIZE && forall t :: 0 <= t < |s| && s[t].Some? ==> |s[t].value| == TABLE_SIZE
    witness seq(TABLE_SIZE, i => None)

  /** What the processor will use for page number `k`. */
  function Lookup(ts: Tables, k: nat): Option<Page> {
    if k / TABLE_SIZE < TABLE_SIZE && ts[k / TABLE_SIZE].Some? then Some(ts[k / TABLE_SIZE].value[k % TABLE_SIZE])
      else None
  }

  function Blank(): (s: seq<Page>)
    ensures |s| == TABLE_SIZE && forall i :: 0 <= i < TABLE_SIZE ==> s[i] == CLEAR
  {
    seq(TABLE_SIZE, i => CLEAR)
  }

  function WithTable(ts: Tables, t: nat): Tables
    requires t < TABLE_SIZE
  {
    if ts[t].Some? then ts else ts[t := Some(Blank())]
  }

  function WithPage(ts: Tables, k: nat, p: Page): Tables
    requires Lookup(ts, k).Some?
  {
    ts[k / TABLE_SIZE := Some(ts[k / TABLE_SIZE].value[k % TABLE_SIZE := p])]
  }

  /** Making a table maps its 1024 pages, all clear, and changes no other page. */
  lemma TableMade(ts: Tables, t: nat, k: nat)
    requires t < TABLE_SIZE
    ensures Lookup(WithTable(ts, t), k) ==
            if k / TABLE_SIZE == t && Lookup(ts, k).None? then Some(CLEAR) else Lookup(ts, k)
  {
  }

  /** Changing a page changes no other page. */
  lemma PageSet(ts: Tables, k: nat, p: Page, j: nat)
    requires Lookup(ts, k).Some?
    ensures Lookup(WithPage(ts, k, p), j) == if j == k then Some(p) else Lookup(ts, j)
  {
    if j / TABLE_SIZE == k / TABLE_SIZE && j % TABLE_SIZE == k % TABLE_SIZE {
      assert j == k;
    }
  }

  /** How many tables could still be made. */
  function Missing(ts: Tables, t: nat): nat
    requires t <= TABLE_SIZE
    decreases TABLE_SIZE - t
  {
    if t == TABLE_SIZE then 0 else (if ts[t].None? then 1 else 0) + Missing(ts, t + 1)
  }

  lemma {:induction false} MissingMade(ts: Tables, u: nat, t: nat)
    requires u < TABLE_SIZE && t <= TABLE_SIZE && ts[u].None?
    ensures Missing(WithTable(ts, u), t) == Missing(ts, t) - if t <= u then 1 else 0
    decreases TABLE_SIZE - t
  {
    if t < TABLE_SIZE {
      MissingMade(ts, u, t + 1);
    }
  }

  lemma {:induction false} MissingBound(ts: Tables, t: nat)
    requires t <= TABLE_SIZE
    ensures Missing(ts, t) <= TABLE_SIZE - t
    decreases TABLE_SIZE - t
  {
    if t < TABLE_SIZE {
      MissingBound(ts, t + 1);
    }
  }

  /** Page `k` has frame `all[k]` for every `k` below `n`; no other page is mapped to anything. */
  ghost predicate Assigned(ts: Tables, all: seq<nat>, n: nat) {
    n <= |all| && forall k: nat :: if k < n then Lookup(ts, k) == Some(Low(all[k])) else Unused(ts, k)
  }

  /** So that no page but page 0 has frame 0, which looks like none. */
  predicate Rising(all: seq<nat>) {
    forall i :: 0 <= i < |all| ==> i <= all[i]
  }

  /** A present page, not writable, for user code. */
  function Low(frame: nat): Page {
    Page(true, false, true, frame)
  }

  predicate Unused(ts: Tables, k: nat) {
    Lookup(ts, k) == None || Lookup(ts, k) == Some(CLEAR)
  }

  lemma AssignedNext(ts: Tables, all: seq<nat>, n: nat)
    requires Assigned(ts, all, n) && n / TABLE_SIZE < TABLE_SIZE
    ensures var made := WithTable(ts, n / TABLE_SIZE);
            && Assigned(made, all, n) && Lookup(made, n) == Some(CLEAR)
            && (n < |all| ==> Assigned(WithPage(made, n, Low(all[n])), all, n + 1))
  {
    var made := WithTable(ts, n / TABLE_SIZE);
    AssignedMade(ts, all, n, n / TABLE_SIZE);
    assert Unused(ts, n);
    TableMade(ts, n / TABLE_SIZE, n);
    if n < |all| {
      forall k: nat
        ensures var ts' := WithPage(made, n, Low(all[n]));
                if k < n + 1 then Lookup(ts', k) == Some(Low(all[k])) else Unused(ts', k)
      {
        PageSet(made, n, Low(all[n]), k);
        assert k != n ==> if k < n then Lookup(made, k) == Some(Low(all[k])) else Unused(made, k);
      }
    }
  }

  lemma AssignedMade(ts: Tables, all: seq<nat>, n: nat, t: nat)
    requires Assigned(ts, all, n) && t < TABLE_SIZE
    ensures Assigned(WithTable(ts, t), all, n)
  {
    forall k: nat
      ensures var ts' := WithTable(ts, t);
              if k < n then Lookup(ts', k) == Some(Low(all[k])) else Unused(ts', k)
    {
      TableMade(ts, t, k);
      assert if k < n then Lookup(ts, k) == Some(Low(all[k])) else Unused(ts, k);
    }
  }

  lemma {:induction false} SameMissing(ts: Tables, k: nat, p: Page, t: nat)
    requires Lookup(ts, k).Some? && t <= TABLE_SIZE
    ensures Missing(WithPage(ts, k, p), t) == Missing(ts, t)
    decreases TABLE_SIZE - t
  {
    if t < TABLE_SIZE {
      SameMissing(ts, k, p, t + 1);
    }
  }

  /** Two pages of memory that do not overlap. */
  predicate Apart(a: nat, b: nat) {
    a + PAGE_SIZE <= b || b + PAGE_SIZE <= a
  }

  /** No two tables share a page of memory. */
  ghost predicate AllApart(ts: Tables, at: seq<nat>)
    requires |at| == TABLE_SIZE
  {
    forall t, u :: 0 <= t < u < TABLE_SIZE && ts[t].Some? && ts[u].Some? ==> Apart(at[t], at[u])
  }

  lemma ApartNext(ts: Tables, at: seq<nat>, t: nat, a: nat)
    requires |at| == TABLE_SIZE && AllApart(ts, at) && t < TABLE_SIZE && ts[t].None?
    requires forall u :: 0 <= u < TABLE_SIZE && ts[u].Some? ==> at[u] + PAGE_SIZE <= a
    ensures AllApart(WithTable(ts, t), at[t := a])
  {
  }

  // ---- the code ----

  class Pager {
    const frames: Frames
    /** The directory: tables made on demand, and what the processor is told of them. */
    const tables: array<array?<Page>>
    const physTables: array<nat>
    var allocAddr: nat
    ghost var made: Tables
    /** Where each table is, and where the first of them may be. */
    ghost var at: seq<nat>
    ghost var floor: nat

    ghost predicate Valid()
      reads this, frames, tables, physTables, Entries()
    {
      && tables.Length == TABLE_SIZE && physTables.Length == TABLE_SIZE
      && tables as object !in Entries() && physTables as object !in Entries() && frames.words as object !in Entries()
      && tables as object != physTables && frames.words as object != tables && frames.words as object != physTables
      && |at| == TABLE_SIZE && MEM_START <= floor <= allocAddr
      && (forall t :: 0 <= t < TABLE_SIZE ==> TableOk(t))
      && (forall t, u :: 0 <= t < u < TABLE_SIZE && tables[t] != null ==> tables[t] != tables[u])
      && AllApart(made, at)
    }

    /** The processor is told of a table's page, and that it is present, writable and for user code. */
    ghost predicate TableOk(t: nat)
      requires t < tables.Length && t < physTables.Length && t < |at|
      reads this, tables, physTables, Entries()
    {
      match made[if t < TABLE_SIZE then t else 0]
      case None => tables[t] == null && physTables[t] == 0
      case Some(pages) =>
        && tables[t] != null && tables[t][..] == pages
        && physTables[t] == at[t] + 7 && at[t] % PAGE_SIZE == 0 && floor <= at[t] && at[t] + PAGE_SIZE <= allocAddr
    }

    ghost function Entries(): set<object>
      reads tables
    {
      set t | 0 <= t < tables.Length && tables[t] != null :: tables[t] as object
    }

    constructor (stale: seq<Word>)
      ensures Valid() && fresh(frames) && fresh(frames.words) && fresh(tables) && fresh(physTables) && Entries() == {}
      ensures frames.words[..] == stale && allocAddr == MEM_START && made == seq(TABLE_SIZE, i => None)
      ensures floor == MEM_START
    {
      frames := new Frames(stale);
      tables := new array?<Page>[TABLE_SIZE](i => null);
      physTables := new nat[TABLE_SIZE](i => 0);
      allocAddr := MEM_START;
      made := seq(TABLE_SIZE, i => None);
      at, floor := seq(TABLE_SIZE, i => 0), MEM_START;
    }

    /** What the processor is told: of every table its own page, on a page boundary, and no two tables share one. */
    lemma TablesApart(t: nat, u: nat)
      requires Valid() && t < TABLE_SIZE && u < TABLE_SIZE && t != u && made[t].Some? && made[u].Some?
      ensures physTables[t] == at[t] + 7 && at[t] % PAGE_SIZE == 0 && MEM_START <= at[t] < physTables[t] < allocAddr
      ensures Apart(at[t], at[u])
    {
      assert TableOk(t);
      assert Apart(at[if t < u then t else u], at[if t < u then u else t]);
    }

    lemma Room(t: nat)
      requires t < TABLE_SIZE
      ensures made[t].None? ==> Missing(WithTable(made, t), 0) + 1 == Missing(made, 0)
      ensures made[t].Some? ==> WithTable(made, t) == made
    {
      if made[t].None? {
        MissingMade(made, t, 0);
      }
    }

    lemma MappedAlready(all: seq<nat>, n: nat, k: nat)
      requires Assigned(made, all, n) && k < n && k / TABLE_SIZE < TABLE_SIZE
      ensures Lookup(made, k) == Some(Low(all[k])) && WithTable(made, k / TABLE_SIZE) == made
    {
    }

    /** `kalloc` before there is a memory manager: addresses only ever grow. */
    method Bump(size: nat, align: bool) returns (address: nat)
      requires Valid() && allocAddr + PAGE_SIZE + size < UINT32
      modifies this`allocAddr
      ensures Valid()
      ensures old(allocAddr) <= address && allocAddr == address + size
      ensures align && old(allocAddr) >= PAGE_SIZE ==>
                address % PAGE_SIZE == 0 && old(allocAddr) < address <= old(allocAddr) + PAGE_SIZE
      ensures !align ==> address == old(allocAddr)
    {
      if allocAddr / PAGE_SIZE != 0 && align {
        allocAddr := allocAddr / PAGE_SIZE * PAGE_SIZE + PAGE_SIZE;
      }
      address := allocAddr;
      allocAddr := allocAddr + size;
      forall t | 0 <= t < TABLE_SIZE
        ensures TableOk(t)
      {
        assert old(TableOk(t));
      }
    }

    /** A table where there is none: a page of its own, and the processor told where (mm/paging.c:102-106). */
    method MakeTable(table: nat)
      requires Valid() && table < TABLE_SIZE && made[table].None? && allocAddr + 2 * PAGE_SIZE < UINT32
      modifies this, tables, physTables
      ensures Valid() && fresh(Entries() - old(Entries()))
      ensures made == WithTable(old(made), table) && tables[table] != null && floor == old(floor)
      ensures at == old(at)[table := allocAddr - PAGE_SIZE] && allocAddr % PAGE_SIZE == 0
      ensures old(allocAddr) + PAGE_SIZE < allocAddr <= old(allocAddr) + 2 * PAGE_SIZE
      ensures forall t :: 0 <= t < TABLE_SIZE && t != table ==> physTables[t] == old(physTables[t])
    {
      hide AllApart, Blank;
      assert TableOk(table);
      NoneAbove();
      ghost var ts := made;
      var phys := Bump(PAGE_SIZE, true);
      var entries := new Page[TABLE_SIZE](i => CLEAR);
      tables[table] := entries;
      physTables[table] := phys + 7;
      ApartNext(ts, at, table, phys);
      made, at := WithTable(made, table), at[table := phys];
      assert entries[..] == Blank();
      forall t | 0 <= t < TABLE_SIZE
        ensures TableOk(t)
      {
        assert old(TableOk(t));
      }
    }

    /** The tables lie below the place where the next one goes. */
    lemma NoneAbove()
      requires Valid()
      ensures forall t :: 0 <= t < TABLE_SIZE && made[t].Some? ==> at[t] + PAGE_SIZE <= allocAddr
    {
      hide AllApart;
      forall t | 0 <= t < TABLE_SIZE && made[t].Some?
        ensures at[t] + PAGE_SIZE <= allocAddr
      {
        assert TableOk(t);
      }
    }

    /** `get_page`: the entry for an address, if there is one or one may be made. */
    method GetPage(addr: nat, create: bool) returns (entry: Option<(array<Page>, nat)>)
      requires Valid() && addr < UINT32
      requires create ==> allocAddr + 2 * PAGE_SIZE < UINT32
      modifies this, tables, physTables
      ensures Valid() && fresh(Entries() - old(Entries()))
      ensures made == if create then WithTable(old(made), addr / PAGE_SIZE / TABLE_SIZE) else old(made)
      ensures entry.Some? <==> Lookup(made, addr / PAGE_SIZE).Some?
      ensures entry.Some? ==>
                && entry.value.0 == tables[addr / PAGE_SIZE / TABLE_SIZE]
                && entry.value.1 == addr / PAGE_SIZE % TABLE_SIZE
      ensures made == old(made) ==> allocAddr == old(allocAddr)
      ensures made != old(made) ==>
        allocAddr % PAGE_SIZE == 0 && old(allocAddr) + PAGE_SIZE < allocAddr <= old(allocAddr) + 2 * PAGE_SIZE
      ensures floor == old(floor)
      ensures var table := addr / PAGE_SIZE / TABLE_SIZE;
              at == if made == old(made) then old(at) else old(at)[table := allocAddr - PAGE_SIZE]
      ensures forall t :: 0 <= t < TABLE_SIZE && old(made)[t].Some? ==> physTables[t] == old(physTables[t])
    {
      hide Blank;
      var page := addr / PAGE_SIZE;
      var table, index := page / TABLE_SIZE, page % TABLE_SIZE;
      assert TableOk(table);
      if tables[table] != null {
        return Some((tables[table], index));
      } else if create {
        MakeTable(table);
        return Some((tables[table], index));
      }
      entry := None;
    }

    /** `falloc` for page `k`, whose entry this is: the lowest free frame, unless the entry has one. */
    method Falloc(entries: array<Page>, index: nat, write: bool, kernel: bool, ghost k: nat) returns (ok: bool)
      requires Valid() && Lookup(made, k).Some? && entries == tables[k / TABLE_SIZE] && index == k % TABLE_SIZE
      modifies this`made, entries, frames.words
      ensures Valid() && at == old(at) && (ok <==> Lookup(old(made), k).value.frame != 0 || old(frames.Free()) != [])
      ensures if ok && Lookup(old(made), k).value.frame == 0 then
                && made == WithPage(old(made), k, Page(true, write, !kernel, old(frames.Free())[0]))
                && frames.Free() == old(frames.Free())[1..]
              else
                made == old(made) && frames.Free() == old(frames.Free())
    {
      assert TableOk(k / TABLE_SIZE);
      if entries[index].frame != 0 {
        return true;
      }
      var frame := frames.FindFrame();
      if frame.None? {
        return false;
      }
      ghost var page := Page(true, write, !kernel, frame.value);
      frames.SetFrame(frame.value);
      entries[index] := Page(true, write, !kernel, frame.value);
      made := WithPage(made, k, page);
      forall t | 0 <= t < TABLE_SIZE
        ensures TableOk(t)
      {
        assert old(TableOk(t));
        assert tables[t] != null ==> tables[t] as object in Entries();
        assert t != k / TABLE_SIZE ==> tables[t] != entries;
      }
      ok := true;
    }

    /** Of the frames `all`, the first `n` are the first `n` pages', in that order, and the others are free. */
    ghost predicate Mapped(all: seq<nat>, n: nat)
      reads this, tables, physTables, Entries(), frames, frames.words
    {
      && Valid() && n <= |all|
      && Assigned(made, all, n) && frames.Free() == all[n..] && Rising(all)
    }

    /** How far `allocAddr` can still move if every missing table is made. */
    ghost function Ceiling(): nat
      reads this
    {
      allocAddr + 2 * PAGE_SIZE * Missing(made, 0)
    }

    /** `falloc(get_page(i, 1, base_dir), 0, 0)`: the next page gets the next frame; a page that has one keeps it,
        except page 0, whose frame 0 looks like none. */
    method MapPage(k: nat, ghost all: seq<nat>, ghost n: nat) returns (ok: bool)
      requires Mapped(all, n) && (k == n || 1 <= k < n) && n < 0x10_0000 && Ceiling() + 2 * PAGE_SIZE < UINT32
      modifies this, tables, physTables, Entries(), frames.words
      ensures Valid() && fresh(Entries() - old(Entries())) && floor == old(floor) && (ok <==> k < n || n < |all|)
      ensures ok ==> Mapped(all, if k < n then n else n + 1)
      ensures old(allocAddr) <= allocAddr && Ceiling() <= old(Ceiling())
      ensures Missing(made, 0) < old(Missing(made, 0)) || allocAddr == old(allocAddr)
    {
      hide Assigned, Lookup, WithPage, WithTable, Missing, FreeFrom;
      if k < n {
        MappedAlready(all, n, k);
      } else {
        AssignedNext(made, all, n);
      }
      Room(k / TABLE_SIZE);
      var entry := GetPage(k * PAGE_SIZE, true);
      ok := Falloc(entry.value.0, entry.value.1, false, false, k);
      if k == n && ok {
        SameMissing(WithTable(old(made), n / TABLE_SIZE), n, Low(all[n]), 0);
        assert all[n..][1..] == all[n + 1..];
      }
    }

    /** The second loop of `_paging_init`: everything below `allocAddr`, which may itself move up meanwhile. */
    method MapLow(ghost all: seq<nat>) returns (ok: bool, n: nat)
      requires Mapped(all, 0) && Ceiling() + 2 * PAGE_SIZE < UINT32
      modifies this, tables, physTables, Entries(), frames.words
      ensures Valid() && fresh(Entries() - old(Entries())) && old(allocAddr) <= allocAddr && Ceiling() <= old(Ceiling())
      ensures floor == old(floor)
      ensures ok ==> Mapped(all, n) && allocAddr + PAGE_SIZE <= n * PAGE_SIZE < allocAddr + 2 * PAGE_SIZE
      ensures !ok ==> |all| * PAGE_SIZE < allocAddr + PAGE_SIZE
    {
      hide Valid, Assigned, Rising, FreeFrom, Missing;
      n := 0;
      while n * PAGE_SIZE < allocAddr + PAGE_SIZE
        invariant Mapped(all, n) && fresh(Entries() - old(Entries()))
        invariant old(allocAddr) <= allocAddr && Ceiling() <= old(Ceiling()) && floor == old(floor)
        invariant n * PAGE_SIZE < allocAddr + 2 * PAGE_SIZE
        decreases Missing(made, 0), allocAddr + PAGE_SIZE - n * PAGE_SIZE
      {
        ok := MapPage(n, all, n);
        if !ok {
          return;
        }
        n := n + 1;
      }
      ok := true;
    }

    /** The first loop: a table for every page of the memory manager's region. */
    method MakeTables(from: nat, to: nat, ghost all: seq<nat>)
      requires Mapped(all, 0) && Ceiling() + 2 * PAGE_SIZE < UINT32 && from <= to <= 0x10_0000
      modifies this, tables, physTables, Entries(), frames.words
      ensures Mapped(all, 0) && fresh(Entries() - old(Entries()))
      ensures old(allocAddr) <= allocAddr && Ceiling() <= old(Ceiling()) && floor == old(floor)
      ensures forall k :: from <= k < to ==> Lookup(made, k).Some?
    {
      hide Valid, Assigned, Rising, FreeFrom, Missing, Lookup, WithTable;
      var k := from;
      while k < to
        invariant from <= k <= to && Mapped(all, 0) && fresh(Entries() - old(Entries()))
        invariant old(allocAddr) <= allocAddr && Ceiling() <= old(Ceiling()) && floor == old(floor)
        invariant forall j :: from <= j < k ==> Lookup(made, j).Some?
      {
        Room(k / TABLE_SIZE);
        AssignedMade(made, all, 0, k / TABLE_SIZE);
        forall j | from <= j < k
          ensures Lookup(WithTable(made, k / TABLE_SIZE), j).Some?
        {
          TableMade(made, k / TABLE_SIZE, j);
        }
        TableMade(made, k / TABLE_SIZE, k);
        var _ := GetPage(k * PAGE_SIZE, true);
        k := k + 1;
      }
    }

    /** The third loop: the region's pages, those already mapped being left alone. */
    method MapRegion(from: nat, to: nat, ghost all: seq<nat>, ghost n: nat) returns (ok: bool)
      requires Mapped(all, n) && Ceiling() + 2 * PAGE_SIZE < UINT32 && 1 <= from <= n <= to < 0x10_0000
      modifies this, tables, physTables, Entries(), frames.words
      ensures Valid() && fresh(Entries() - old(Entries())) && floor == old(floor) && (ok <==> to <= |all|)
      ensures ok ==> Mapped(all, to)
    {
      hide Valid, Assigned, Rising, FreeFrom, Missing;
      var k := from;
      while k < to
        invariant from <= k <= to && Mapped(all, if k < n then n else k)
        invariant fresh(Entries() - old(Entries())) && Ceiling() <= old(Ceiling()) && floor == old(floor)
      {
        ok := MapPage(k, all, if k < n then n else k);
        if !ok {
          return;
        }
        k := k + 1;
      }
      ok := true;
    }

    /** `_paging_init` up to the switch: it succeeds exactly when there is a free frame for every page up to the end
        of the memory manager's region, and then those pages, and no others, have the lowest free frames in order.
        `_memclr` is told the number of words of the bitmap and clears as many bytes.  Every table has a page of its own
        behind the bitmap and the directory, which is where the processor is told that it is. */
    method PagingInit() returns (ok: bool)
      requires Valid() && allocAddr == MEM_START && made == seq(TABLE_SIZE, i => None)
      requires SIZE * frames.words.Length <= 0x10_0000
      modifies this, tables, physTables, Entries(), frames.words
      ensures Valid() && fresh(Entries() - old(Entries()))
      ensures var all := FreeFrom(Swept(old(frames.words[..])), 0);
              && (ok <==> PAGES <= |all|) && (ok ==> Mapped(all, PAGES))
              && (ok ==> forall k :: 0 <= k < PAGES ==> Lookup(made, k) == Some(Page(true, false, true, all[k])))
      ensures floor == (MEM_START + frames.words.Length) / PAGE_SIZE * PAGE_SIZE + PAGE_SIZE + DIR_BYTES
    {
      hide Valid, Assigned, FreeFrom, Missing, Lookup;
      MissingBound(made, 0);
      FreeBounds(Swept(frames.words[..]), 0);
      var _ := Bump(frames.words.Length, false);
      ClearMap();
      var _ := Bump(DIR_BYTES, true);
      Raise();
      NothingAssigned(frames.Free());
      ghost var all := FreeFrom(Swept(old(frames.words[..])), 0);
      ok := MapAll(all);
      if ok {
        LowPages(all, PAGES);
      }
    }

    /** From here on there are tables. */
    ghost method Raise()
      requires Valid() && made == seq(TABLE_SIZE, i => None)
      modifies this`floor
      ensures Valid() && floor == allocAddr
    {
      floor := allocAddr;
      forall t | 0 <= t < TABLE_SIZE
        ensures TableOk(t)
      {
        assert old(TableOk(t));
      }
    }

    lemma LowPages(all: seq<nat>, n: nat)
      requires Mapped(all, n)
      ensures forall k :: 0 <= k < n ==> Lookup(made, k) == Some(Page(true, false, true, all[k]))
    {
      hide Valid, Lookup;
    }

    method ClearMap()
      requires Valid()
      modifies frames.words
      ensures Valid() && frames.words[..] == Swept(old(frames.words[..]))
    {
      ghost var was := frames.words[..];
      frames.Clear(frames.words.Length);
      forall f | 0 <= f < SIZE * |was|
        ensures Bit(frames.words[..], f) == Bit(Swept(was), f)
      {
        SweptBit(was, f);
        assert frames.Taken(f) <==> 8 * |was| <= f && old(frames.Taken(f));
      }
      SameBits(frames.words[..], Swept(was));
      forall t | 0 <= t < TABLE_SIZE
        ensures TableOk(t)
      {
        assert old(TableOk(t));
      }
    }

    lemma NothingAssigned(all: seq<nat>)
      requires made == seq(TABLE_SIZE, i => None)
      ensures Assigned(made, all, 0)
    {
    }

    /** The three loops. */
    method MapAll(ghost all: seq<nat>) returns (ok: bool)
      requires Mapped(all, 0) && Ceiling() + 2 * PAGE_SIZE < MEM_START + MNGR_SIZE && MEM_START <= allocAddr
      modifies this, tables, physTables, Entries(), frames.words
      ensures Valid() && fresh(Entries() - old(Entries())) && floor == old(floor)
      ensures (ok <==> PAGES <= |all|) && (ok ==> Mapped(all, PAGES))
    {
      hide Valid, Assigned, Rising, FreeFrom, Missing;
      MakeTables(MEM_START / PAGE_SIZE, PAGES, all);
      var n;
      ok, n := MapLow(all);
      if ok {
        ok := MapRegion(MEM_START / PAGE_SIZE, PAGES, all, n);
      }
    }
  }
}
