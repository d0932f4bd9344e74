/** The heap over whole runs: nothing is lost, nothing overlaps, and order does not matter. */
module HeapRuns {
  import opened Defs
  import opened HeapSpec

  /** The free list, and the blocks in the callers' hands. */
  datatype Heap = Heap(free: seq<Block>, live: set<Block>)

  datatype Op = Alloc(bytes: U32) | Free(b: Block)

  ghost predicate Held(live: set<Block>, w: nat) {
    exists b :: b in live && b.Has(w)
  }

  /** Free and live blocks, headers included, tile the initial regions: every word is in exactly one block. */
  ghost predicate Tiles(region: seq<Block>, h: Heap) {
    && Separate(h.free)
    && (forall i, b :: 0 <= i < |h.free| && b in h.live ==> Disjoint(h.free[i], b))
    && (forall b, c :: b in h.live && c in h.live && b != c ==> Disjoint(b, c))
    && (forall w: nat :: Covers(region, w) <==> Covers(h.free, w) || Held(h.live, w))
  }

  /** A block is freed only while it is live. */
  predicate OfLive(h: Heap, op: Op) {
    op.Free? ==> op.b in h.live
  }

  /** ... and only when that takes no word of anybody else's. */
  predicate Legal(h: Heap, op: Op) {
    OfLive(h, op) && (op.Free? ==> Roomy(h.free, op.b))
  }

  function Step(h: Heap, op: Op): Heap {
    match op
    case Alloc(bytes) =>
      var d := Request(bytes);
      (match Given(h.free, d)
       case None => h
       case Some(b) => Heap(Left(h.free, d), h.live + {b}))
    case Free(b) => Heap(Release(h.free, b), h.live - {b})
  }

  lemma AllocTiles(region: seq<Block>, h: Heap, d: nat)
    requires Tiles(region, h) && Given(h.free, d).Some?
    ensures Tiles(region, Heap(Left(h.free, d), h.live + {Given(h.free, d).value}))
  {
    hide Covers, Held, Given, Left, Separate;
    var b := Given(h.free, d).value;
    GivenOk(h.free, d);
    forall c | c in h.live
      ensures Fresh(Left(h.free, d), c) && Disjoint(b, c)
    {
      LeftFresh(h.free, d, c);
    }
    forall w: nat
      ensures Covers(region, w) <==> Covers(Left(h.free, d), w) || Held(h.live + {b}, w)
    {
      HeldAdd(h.live, b, w);
    }
  }

  lemma HeldAdd(live: set<Block>, b: Block, w: nat)
    ensures Held(live + {b}, w) <==> Held(live, w) || b.Has(w)
  {
    if Held(live, w) {
      var c :| c in live && c.Has(w);
      assert c in live + {b};
    }
    if b.Has(w) {
      assert b in live + {b};
    }
  }

  /** No word is both free and live. */
  lemma NotBoth(region: seq<Block>, h: Heap, c: Block, w: nat)
    requires Tiles(region, h) && c in h.live && c.Has(w)
    ensures !Covers(h.free, w)
  {
  }

  lemma FreeTiles(region: seq<Block>, h: Heap, b: Block)
    requires Tiles(region, h) && b in h.live && Roomy(h.free, b)
    ensures Tiles(region, Heap(Release(h.free, b), h.live - {b}))
  {
    ReleaseOk(h.free, b);
    forall c | c in h.live - {b}
      ensures Fresh(Release(h.free, b), c)
    {
      ReleaseFresh(h.free, b, c);
    }
    forall w: nat
      ensures Covers(region, w) <==> Covers(Release(h.free, b), w) || Held(h.live - {b}, w)
    {
      assert h.live - {b} + {b} == h.live;
      HeldAdd(h.live - {b}, b, w);
    }
  }

  /** Every legal operation keeps the tiling. */
  lemma StepTiles(region: seq<Block>, h: Heap, op: Op)
    requires Tiles(region, h) && Legal(h, op)
    ensures Tiles(region, Step(h, op))
  {
    match op
    case Alloc(bytes) =>
      if Given(h.free, Request(bytes)).Some? {
        AllocTiles(region, h, Request(bytes));
      }
    case Free(b) => FreeTiles(region, h, b);
  }

  // ---- runs ----

  predicate AllLegal(h: Heap, ops: seq<Op>)
    decreases |ops|
  {
    ops != [] ==> Legal(h, ops[0]) && AllLegal(Step(h, ops[0]), ops[1..])
  }

  function Run(h: Heap, ops: seq<Op>): Heap
    decreases |ops|
  {
    if ops == [] then h else Run(Step(h, ops[0]), ops[1..])
  }

  lemma {:induction false} RunTiles(region: seq<Block>, h: Heap, ops: seq<Op>)
    requires Tiles(region, h) && AllLegal(h, ops)
    ensures Tiles(region, Run(h, ops))
    decreases |ops|
  {
    if ops != [] {
      StepTiles(region, h, ops[0]);
      RunTiles(region, Step(h, ops[0]), ops[1..]);
    }
  }

  /** Once everything is free again, the free list is the initial one. */
  lemma AllFree(region: seq<Block>, h: Heap)
    requires Separate(region) && Tiles(region, h) && h.live == {}
    ensures h.free == region
  {
    assert forall w: nat :: Covers(h.free, w) <==> Covers(region, w);
    Canonical(h.free, region);
  }

  // ---- runs in which every request asks for something ----

  /** What the source asks of its callers: every request comes to at least a word, and only live blocks are freed. */
  predicate Sized(h: Heap, op: Op) {
    OfLive(h, op) && (op.Alloc? ==> Request(op.bytes) > 0)
  }

  predicate AllSized(h: Heap, ops: seq<Op>)
    decreases |ops|
  {
    ops != [] ==> Sized(h, ops[0]) && AllSized(Step(h, ops[0]), ops[1..])
  }

  ghost predicate AllRoom(h: Heap) {
    forall b :: b in h.live ==> b.len > 0
  }

  lemma StepSized(region: seq<Block>, h: Heap, op: Op)
    requires Tiles(region, h) && AllRoom(h) && Sized(h, op)
    ensures Legal(h, op) && Tiles(region, Step(h, op)) && AllRoom(Step(h, op))
  {
    StepTiles(region, h, op);
    if op.Alloc? && Given(h.free, Request(op.bytes)).Some? {
      GivenRoom(h.free, Request(op.bytes));
    }
  }

  /** In such a run every live block has room for a link, so that freeing it is always legal. */
  lemma {:induction false} RunSized(region: seq<Block>, h: Heap, ops: seq<Op>)
    requires Tiles(region, h) && AllRoom(h) && AllSized(h, ops)
    ensures AllLegal(h, ops) && Tiles(region, Run(h, ops)) && AllRoom(Run(h, ops))
    decreases |ops|
  {
    hide Tiles, Sized, Legal, Step;
    if ops != [] {
      StepSized(region, h, ops[0]);
      RunSized(region, Step(h, ops[0]), ops[1..]);
    }
  }

  /** Any run of requests for at least one byte, without wrap-around, and frees of live blocks keeps free and live
      blocks tiling the initial free list; and once everything is free again, the free list is the initial one. */
  lemma HeapSafety(region: seq<Block>, ops: seq<Op>)
    requires Separate(region) && AllSized(Heap(region, {}), ops)
    ensures var h := Run(Heap(region, {}), ops);
            && Tiles(region, h) && AllRoom(h)
            && (h.live == {} ==> h.free == region)
  {
    RunSized(region, Heap(region, {}), ops);
    var h := Run(Heap(region, {}), ops);
    if h.live == {} {
      AllFree(region, h);
    }
  }

  // ---- order ----

  /** Two histories that leave the same blocks live leave the same free list. */
  lemma HistoryForgotten(region: seq<Block>, h: Heap, k: Heap)
    requires Tiles(region, h) && Tiles(region, k) && h.live == k.live
    ensures h == k
  {
    forall w: nat
      ensures Covers(h.free, w) <==> Covers(k.free, w)
    {
      assert Covers(region, w) <==> Covers(h.free, w) || Held(h.live, w);
      assert Covers(region, w) <==> Covers(k.free, w) || Held(k.live, w);
      OneOrOther(region, h, w);
      OneOrOther(region, k, w);
    }
    Canonical(h.free, k.free);
  }

  lemma OneOrOther(region: seq<Block>, h: Heap, w: nat)
    requires Tiles(region, h)
    ensures !(Covers(h.free, w) && Held(h.live, w))
  {
    if Held(h.live, w) {
      var c :| c in h.live && c.Has(w);
      NotBoth(region, h, c, w);
    }
  }

  function ReleaseAll(bs: seq<Block>): (ops: seq<Op>) {
    seq(|bs|, i requires 0 <= i < |bs| => Free(bs[i]))
  }

  ghost predicate Distinct(bs: seq<Block>) {
    forall i, j :: 0 <= i < j < |bs| ==> bs[i] != bs[j]
  }

  ghost function Elements(bs: seq<Block>): set<Block> {
    set b | b in bs
  }

  lemma ElementsCons(bs: seq<Block>)
    requires bs != []
    ensures Elements(bs) == {bs[0]} + Elements(bs[1..])
  {
    forall b
      ensures b in Elements(bs) <==> b in {bs[0]} + Elements(bs[1..])
    {
      assert bs == [bs[0]] + bs[1..];
    }
  }

  lemma {:induction false} ReleasedLive(h: Heap, bs: seq<Block>)
    ensures Run(h, ReleaseAll(bs)).live == h.live - Elements(bs)
    decreases |bs|
  {
    hide Release;
    if bs != [] {
      assert ReleaseAll(bs)[1..] == ReleaseAll(bs[1..]);
      ReleasedLive(Step(h, Free(bs[0])), bs[1..]);
      ElementsCons(bs);
    }
  }

  /** Freeing the same blocks in any two orders that are legal gives the same heap, whatever their sizes. */
  lemma OrderDoesNotMatter(region: seq<Block>, h: Heap, bs: seq<Block>, cs: seq<Block>)
    requires Tiles(region, h) && AllLegal(h, ReleaseAll(bs)) && AllLegal(h, ReleaseAll(cs))
    requires forall b :: b in cs <==> b in bs
    ensures Run(h, ReleaseAll(bs)) == Run(h, ReleaseAll(cs))
  {
    ReleasedLive(h, bs);
    ReleasedLive(h, cs);
    assert Elements(bs) == Elements(cs);
    RunTiles(region, h, ReleaseAll(bs));
    RunTiles(region, h, ReleaseAll(cs));
    HistoryForgotten(region, Run(h, ReleaseAll(bs)), Run(h, ReleaseAll(cs)));
  }

  lemma LongIsRoomy(l: seq<Block>, b: Block)
    requires b.len > 0
    ensures Roomy(l, b)
  {
  }

  /** Among live blocks of at least a word every order is legal that frees none of them twice. */
  lemma {:induction false} EveryOrderLegal(h: Heap, bs: seq<Block>)
    requires Distinct(bs) && forall b :: b in bs ==> b in h.live && b.len > 0
    ensures AllLegal(h, ReleaseAll(bs))
    decreases |bs|
  {
    hide Release, Roomy;
    if bs != [] {
      LongIsRoomy(h.free, bs[0]);
      var h1 := Step(h, Free(bs[0]));
      assert ReleaseAll(bs)[1..] == ReleaseAll(bs[1..]);
      forall b | b in bs[1..]
        ensures b in h1.live && b.len > 0
      {
        var i :| 0 <= i < |bs| - 1 && bs[1..][i] == b;
        assert b == bs[i + 1] && b in bs;
      }
      EveryOrderLegal(h1, bs[1..]);
    }
  }

  /** A free undoes the allocation before it. */
  lemma AllocThenFree(h: Heap, bytes: U32)
    requires Separate(h.free) && Given(h.free, Request(bytes)).Some?
    requires Given(h.free, Request(bytes)).value !in h.live
    ensures Step(Step(h, Alloc(bytes)), Free(Given(h.free, Request(bytes)).value)) == h
  {
    FreeUndoesAlloc(h.free, Request(bytes));
    var b := Given(h.free, Request(bytes)).value;
    assert h.live + {b} - {b} == h.live;
  }

  /** Of two blocks of no words cut from the same free block, the first cannot be freed before the second though
      it is live: its link would land in the word after it, which it does not own. */
  lemma ZeroBytes()
    ensures var h := Heap([Block(8, 10)], {});
            var b := Block(18, 0);
            var h2 := Step(Step(h, Alloc(0)), Alloc(0));
            && h2 == Heap([Block(8, 8)], {b, Block(17, 0)})
            && OfLive(h2, Free(b)) && !Legal(h2, Free(b)) && Legal(h2, Free(Block(17, 0)))
  {
    assert FirstFit([Block(8, 10)], 0, 0) == 0 && FirstFit([Block(8, 9)], 0, 0) == 0;
    assert Place([Block(8, 8)], 18, 0) == 1 && Place([Block(8, 8)], 17, 0) == 1;
  }
}
