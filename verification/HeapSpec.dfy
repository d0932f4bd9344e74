/** The kernel heap: an address-ordered first-fit free list with full coalescing, as a list of blocks.
    Addresses count 4-byte words. */
module HeapSpec {
  import opened Defs

  /** A block: its header word is at `addr`, and `len` usable words follow. */
  datatype Block = Block(addr: nat, len: nat) {
    function End(): nat { addr + 1 + len }

    predicate Has(w: nat) { addr <= w < End() }
  }

  /** `adjacent` in the source: `b` starts where `a` ends. */
  predicate Adjacent(a: Block, b: Block) {
    a.End() == b.addr
  }

  predicate Disjoint(a: Block, b: Block) {
    a.End() <= b.addr || b.End() <= a.addr
  }

  /** Strictly address-ordered, no two adjacent, each with room for its link. */
  ghost predicate Separate(l: seq<Block>) {
    && (forall i, j :: 0 <= i < j < |l| ==> l[i].End() < l[j].addr)
    && (forall i :: 0 <= i < |l| ==> l[i].len > 0)
  }

  ghost predicate Covers(l: seq<Block>, w: nat) {
    exists i :: 0 <= i < |l| && l[i].Has(w)
  }

  // ---- allocation ----

  /** A byte count as whole words; the sum is taken in 32 bits. */
  function Request(bytes: U32): nat {
    Wrap(bytes + 3) / 4
  }

  /** Rounding up gives enough room exactly when the sum does not wrap around. */
  lemma RequestEnough(bytes: U32)
    ensures bytes <= 4 * Request(bytes) <==> bytes + 3 < UINT32
    ensures if bytes + 3 < UINT32 then 4 * Request(bytes) < bytes + 4 else Request(bytes) == 0
  {
  }

  /** The first block at or after `i` with at least `d` words, or `|l|`. */
  function FirstFit(l: seq<Block>, d: nat, i: nat): (r: nat)
    requires i <= |l|
    ensures i <= r <= |l|
    ensures forall j :: i <= j < r ==> l[j].len < d
    ensures r < |l| ==> d <= l[r].len
    decreases |l| - i
  {
    if i < |l| && l[i].len < d then FirstFit(l, d, i + 1) else i
  }

  /** The block a request for `d` words is served with. */
  function Given(l: seq<Block>, d: nat): Option<Block> {
    var i := FirstFit(l, d, 0);
    if i == |l| then None
    else if d + 2 < l[i].len then Some(Block(l[i].addr + l[i].len - d, d))
    else Some(l[i])
  }

  /** The free list after serving it. */
  function Left(l: seq<Block>, d: nat): seq<Block> {
    var i := FirstFit(l, d, 0);
    if i == |l| then l
    else if d + 2 < l[i].len then l[i := Block(l[i].addr, l[i].len - (d + 1))]
    else l[..i] + l[i + 1..]
  }

  // ---- release ----

  /** The first block at or after `i` that does not lie below address `a`. */
  function Place(l: seq<Block>, a: nat, i: nat): (r: nat)
    requires i <= |l|
    ensures i <= r <= |l|
    ensures forall j :: i <= j < r ==> l[j].addr < a
    ensures r < |l| ==> a <= l[r].addr
    decreases |l| - i
  {
    if i < |l| && l[i].addr < a then Place(l, a, i + 1) else i
  }

  function Join(a: Block, b: Block): Block {
    Block(a.addr, a.len + (b.len + 1))
  }

  /** Inserting `b` after the blocks `before`, merged with the last of them if they touch. */
  function PushMerged(before: seq<Block>, b: Block): (r: seq<Block>)
    ensures r != []
  {
    if before != [] && Adjacent(before[|before| - 1], b) then before[..|before| - 1] + [Join(before[|before| - 1], b)]
    else before + [b]
  }

  /** Appending the blocks `after`, the first of them merged into the end of `l` if they touch. */
  function AppendMerged(l: seq<Block>, after: seq<Block>): seq<Block>
    requires l != []
  {
    if after != [] && Adjacent(l[|l| - 1], after[0]) then l[..|l| - 1] + [Join(l[|l| - 1], after[0])] + after[1..]
    else l + after
  }

  /** The free list after releasing `b`. */
  function Release(l: seq<Block>, b: Block): seq<Block> {
    var i := Place(l, b.addr, 0);
    AppendMerged(PushMerged(l[..i], b), l[i..])
  }

  /** Releasing `b` needs no word outside `b`: it has room for a link, or is merged into the block before it and
      needs none. */
  predicate Roomy(l: seq<Block>, b: Block) {
    var i := Place(l, b.addr, 0);
    b.len > 0 || (0 < i && Adjacent(l[i - 1], b))
  }

  /** Exactly when that is not so, the release links `b` in through a word that `b` does not have. */
  lemma {:induction false} LinkOutside(l: seq<Block>, b: Block)
    ensures var i := Place(l, b.addr, 0);
            !Roomy(l, b) <==> PushMerged(l[..i], b) == l[..i] + [b] && !b.Has(b.addr + 1)
  {
    var i := Place(l, b.addr, 0);
    if 0 < i && Adjacent(l[i - 1], b) {
      assert |PushMerged(l[..i], b)| == i;
    }
  }

  // ---- a separate list is determined by the words it covers ----

  lemma CoversHead(l: seq<Block>, w: nat)
    requires l != []
    ensures Covers(l, w) <==> l[0].Has(w) || Covers(l[1..], w)
  {
    if Covers(l, w) {
      var i :| 0 <= i < |l| && l[i].Has(w);
      if i > 0 {
        assert l[1..][i - 1].Has(w);
      }
    }
    if Covers(l[1..], w) {
      var i :| 0 <= i < |l[1..]| && l[1..][i].Has(w);
      assert l[i + 1].Has(w);
    }
  }

  lemma CoversStart(l: seq<Block>)
    requires l != []
    ensures Covers(l, l[0].addr)
  {
    assert l[0].Has(l[0].addr);
  }

  /** The word after the first block is free of the list: that is what separates it. */
  lemma GapAfterHead(l: seq<Block>)
    requires Separate(l) && l != []
    ensures !Covers(l, l[0].End())
  {
  }

  /** The canonical form: two separate lists that cover the same words are the same list. */
  lemma {:induction false} Canonical(l: seq<Block>, m: seq<Block>)
    requires Separate(l) && Separate(m)
    requires forall w: nat :: Covers(l, w) <==> Covers(m, w)
    ensures l == m
    decreases |l|
  {
    if l == [] {
      if m != [] {
        CoversStart(m);
      }
    } else {
      CoversStart(l);
      SameHead(l, m);
      forall w: nat
        ensures Covers(l[1..], w) <==> Covers(m[1..], w)
      {
        CoversHead(l, w);
        CoversHead(m, w);
      }
      Canonical(l[1..], m[1..]);
      assert l == [l[0]] + l[1..] && m == [m[0]] + m[1..];
    }
  }

  lemma HeadStarts(l: seq<Block>, m: seq<Block>)
    requires Separate(l) && Separate(m) && l != [] && m != []
    requires forall w: nat :: Covers(l, w) ==> Covers(m, w)
    ensures m[0].addr <= l[0].addr
  {
    assert l[0].Has(l[0].addr);
    assert Covers(m, l[0].addr);
  }

  /** The head of one list cannot end before the head of the other. */
  lemma HeadEnds(l: seq<Block>, m: seq<Block>)
    requires Separate(l) && Separate(m) && l != [] && m != [] && l[0].addr == m[0].addr
    requires forall w: nat :: Covers(l, w) <==> Covers(m, w)
    ensures m[0].End() <= l[0].End()
  {
    GapAfterHead(l);
    if l[0].End() < m[0].End() {
      assert m[0].Has(l[0].End());
    }
  }

  lemma SameHead(l: seq<Block>, m: seq<Block>)
    requires Separate(l) && Separate(m) && l != [] && m != []
    requires forall w: nat :: Covers(l, w) <==> Covers(m, w)
    ensures l[0] == m[0]
  {
    HeadStarts(l, m);
    HeadStarts(m, l);
    HeadEnds(l, m);
    HeadEnds(m, l);
  }

  // ---- what release does ----

  /** The block `b` overlaps no block of the list. */
  ghost predicate Fresh(l: seq<Block>, b: Block) {
    forall i :: 0 <= i < |l| ==> Disjoint(l[i], b)
  }

  lemma PlaceSplits(l: seq<Block>, b: Block)
    requires Separate(l) && Fresh(l, b)
    ensures var i := Place(l, b.addr, 0);
            && (forall j :: 0 <= j < i ==> l[j].End() <= b.addr)
            && (forall j :: i <= j < |l| ==> b.End() <= l[j].addr)
            && (forall j :: 0 <= j < i - 1 ==> l[j].End() < b.addr)
            && (forall j :: i < j < |l| ==> b.End() < l[j].addr)
  {
    var i := Place(l, b.addr, 0);
    if i < |l| {
      assert forall j :: i < j < |l| ==> l[i].End() < l[j].addr;
    }
    if 0 < i {
      assert forall j :: 0 <= j < i - 1 ==> l[j].End() < l[i - 1].addr;
    }
  }

  /** Two separate lists, one after the other with a gap between, are a separate list. */
  lemma SeparateConcat(a: seq<Block>, b: seq<Block>)
    requires Separate(a) && Separate(b)
    requires a != [] && b != [] ==> a[|a| - 1].End() < b[0].addr
    ensures Separate(a + b)
  {
    if a != [] && b != [] {
      forall i, j | 0 <= i < |a| && 0 <= j < |b|
        ensures a[i].End() < b[j].addr
      {
        assert i < |a| - 1 ==> a[i].End() < a[|a| - 1].addr;
        assert 0 < j ==> b[0].End() < b[j].addr;
      }
    }
  }

  lemma SeparateParts(l: seq<Block>, i: nat)
    requires Separate(l) && i <= |l|
    ensures Separate(l[..i]) && Separate(l[i..])
    ensures 0 < i < |l| ==> l[i - 1].End() < l[i].addr
  {
  }

  lemma SeparateOne(b: Block)
    requires b.len > 0
    ensures Separate([b])
  {
  }

  lemma SeparateBetween(front: seq<Block>, b: Block, rest: seq<Block>)
    requires Separate(front) && Separate(rest) && b.len > 0
    requires front != [] ==> front[|front| - 1].End() < b.addr
    requires rest != [] ==> b.End() < rest[0].addr
    ensures Separate(front + [b] + rest)
  {
    hide Separate;
    SeparateOne(b);
    SeparateConcat(front, [b]);
    SeparateConcat(front + [b], rest);
  }

  lemma AppendMergedSeparate(l: seq<Block>, after: seq<Block>)
    requires l != [] && Separate(l) && Separate(after)
    requires after != [] ==> l[|l| - 1].End() <= after[0].addr
    ensures Separate(AppendMerged(l, after))
  {
    hide Separate;
    if after != [] && Adjacent(l[|l| - 1], after[0]) {
      JoinedSeparate(l, after);
    } else {
      SeparateConcat(l, after);
    }
  }

  lemma JoinedSeparate(l: seq<Block>, after: seq<Block>)
    requires l != [] && after != [] && Separate(l) && Separate(after) && Adjacent(l[|l| - 1], after[0])
    ensures Separate(l[..|l| - 1] + [Join(l[|l| - 1], after[0])] + after[1..])
  {
    hide Separate;
    var n := |l|;
    SeparateParts(l, n - 1);
    SeparateParts(after, 1);
    SeparateBetween(l[..n - 1], Join(l[n - 1], after[0]), after[1..]);
  }

  lemma AppendMergedOk(l: seq<Block>, after: seq<Block>)
    requires l != [] && Separate(l) && Separate(after)
    requires after != [] ==> l[|l| - 1].End() <= after[0].addr
    ensures var r := AppendMerged(l, after);
            && Separate(r)
            && (forall w: nat :: Covers(r, w) <==> Covers(l, w) || Covers(after, w))
  {
    hide Separate;
    AppendMergedSeparate(l, after);
    forall w: nat
      ensures Covers(AppendMerged(l, after), w) <==> Covers(l, w) || Covers(after, w)
    {
      AppendMergedCovers(l, after, w);
    }
  }

  lemma AppendMergedCovers(l: seq<Block>, after: seq<Block>, w: nat)
    requires l != []
    ensures Covers(AppendMerged(l, after), w) <==> Covers(l, w) || Covers(after, w)
  {
    hide Covers;
    var n := |l|;
    if after != [] && Adjacent(l[n - 1], after[0]) {
      var joined := Join(l[n - 1], after[0]);
      assert l == l[..n - 1] + [l[n - 1]] && after == [after[0]] + after[1..];
      CoversConcat(l[..n - 1] + [joined], after[1..], w);
      CoversConcat(l[..n - 1], [joined], w);
      CoversConcat(l[..n - 1], [l[n - 1]], w);
      CoversConcat([after[0]], after[1..], w);
      CoversOne(joined, w);
      CoversOne(l[n - 1], w);
      CoversOne(after[0], w);
    } else {
      CoversConcat(l, after, w);
    }
  }

  lemma PushMergedOk(before: seq<Block>, b: Block)
    requires Separate(before) && (b.len > 0 || (before != [] && Adjacent(before[|before| - 1], b)))
    requires before != [] ==> before[|before| - 1].End() <= b.addr
    ensures var r := PushMerged(before, b);
            && Separate(r) && r[|r| - 1].End() == b.End()
            && (forall w: nat :: Covers(r, w) <==> Covers(before, w) || b.Has(w))
  {
    hide Covers;
    forall w: nat
      ensures Covers([b], w) <==> b.Has(w)
      ensures before == [] ==> !Covers(before, w)
    {
      CoversOne(b, w);
      CoversNone(w);
    }
    if before != [] {
      PushMergedSeparate(before, b);
      assert PushMerged(before, b) == AppendMerged(before, [b]);
      forall w: nat
        ensures Covers(PushMerged(before, b), w) <==> Covers(before, w) || b.Has(w)
      {
        AppendMergedCovers(before, [b], w);
      }
    } else {
      assert PushMerged(before, b) == [b];
    }
  }

  lemma PushMergedSeparate(before: seq<Block>, b: Block)
    requires before != [] && Separate(before) && before[|before| - 1].End() <= b.addr
    requires b.len > 0 || Adjacent(before[|before| - 1], b)
    ensures Separate(PushMerged(before, b))
  {
    hide Separate;
    var n := |before|;
    if Adjacent(before[n - 1], b) {
      SeparateParts(before, n - 1);
      SeparateOne(Join(before[n - 1], b));
      SeparateConcat(before[..n - 1], [Join(before[n - 1], b)]);
    } else {
      SeparateOne(b);
      SeparateConcat(before, [b]);
    }
  }

  lemma CoversNone(w: nat)
    ensures !Covers([], w)
  {
  }

  lemma CoversConcat(a: seq<Block>, b: seq<Block>, w: nat)
    ensures Covers(a + b, w) <==> Covers(a, w) || Covers(b, w)
  {
    var c := a + b;
    if Covers(c, w) {
      var j :| 0 <= j < |c| && c[j].Has(w);
      assert if j < |a| then a[j].Has(w) else b[j - |a|].Has(w);
    }
    if Covers(a, w) {
      var j :| 0 <= j < |a| && a[j].Has(w);
      assert c[j].Has(w);
    }
    if Covers(b, w) {
      var j :| 0 <= j < |b| && b[j].Has(w);
      assert c[|a| + j].Has(w);
    }
  }

  lemma CoversOne(b: Block, w: nat)
    ensures Covers([b], w) <==> b.Has(w)
  {
    assert [b][0] == b;
  }

  lemma CoversSplit(l: seq<Block>, i: nat, w: nat)
    requires i <= |l|
    ensures Covers(l, w) <==> Covers(l[..i], w) || Covers(l[i..], w)
  {
    hide Covers;
    assert l == l[..i] + l[i..];
    CoversConcat(l[..i], l[i..], w);
  }

  /** Releasing a block keeps the list separate, and adds exactly the block's words. */
  lemma {:induction false} ReleaseOk(l: seq<Block>, b: Block)
    requires Separate(l) && Fresh(l, b) && Roomy(l, b)
    ensures var r := Release(l, b);
            && Separate(r)
            && (forall w: nat :: Covers(r, w) <==> Covers(l, w) || b.Has(w))
  {
    hide Covers, Fresh, PushMerged, AppendMerged, Separate;
    var i := Place(l, b.addr, 0);
    PlaceSplits(l, b);
    SeparateParts(l, i);
    PushMergedOk(l[..i], b);
    AppendMergedOk(PushMerged(l[..i], b), l[i..]);
    forall w: nat
      ensures Covers(l, w) <==> Covers(l[..i], w) || Covers(l[i..], w)
    {
      CoversSplit(l, i, w);
    }
  }

  /** Two blocks that are not disjoint share a word. */
  lemma Overlap(a: Block, b: Block) returns (w: nat)
    requires !Disjoint(a, b)
    ensures a.Has(w) && b.Has(w)
  {
    w := if a.addr <= b.addr then b.addr else a.addr;
  }

  /** A release touches no block that overlaps neither the list nor what is released. */
  lemma ReleaseFresh(l: seq<Block>, b: Block, c: Block)
    requires Separate(l) && Fresh(l, b) && Roomy(l, b) && Fresh(l, c) && Disjoint(b, c)
    ensures Fresh(Release(l, b), c)
  {
    ReleaseOk(l, b);
    var r := Release(l, b);
    forall i | 0 <= i < |r|
      ensures Disjoint(r[i], c)
    {
      if !Disjoint(r[i], c) {
        var w := Overlap(r[i], c);
        assert Covers(r, w);
        NotCovered(l, c, w);
      }
    }
  }

  lemma NotCovered(l: seq<Block>, c: Block, w: nat)
    requires Fresh(l, c) && c.Has(w)
    ensures !Covers(l, w)
  {
  }

  // ---- what allocation does ----

  /** An allocation takes exactly the words of the block it hands out, and keeps the list separate.  It fails
      exactly when no free block is long enough, and otherwise cuts its block from the lowest one that is. */
  lemma {:induction false} GivenOk(l: seq<Block>, d: nat)
    requires Separate(l)
    ensures Given(l, d).None? <==> forall i :: 0 <= i < |l| ==> l[i].len < d
    ensures Given(l, d).None? ==> Left(l, d) == l
    ensures Given(l, d).Some? ==>
              var b, i := Given(l, d).value, FirstFit(l, d, 0);
              && i < |l| && d <= b.len <= d + 2
              && b.len == (if d + 2 < l[i].len then d else l[i].len)
              && d <= l[i].len && (forall j :: 0 <= j < i ==> l[j].len < d)
              && l[i].addr <= b.addr && b.End() == l[i].End()
              && Separate(Left(l, d)) && Fresh(Left(l, d), b)
              && (forall w: nat :: Covers(l, w) <==> Covers(Left(l, d), w) || b.Has(w))
  {
    hide Separate, Covers, Fresh;
    if Given(l, d).Some? {
      forall w: nat
        ensures Covers(l, w) <==> Covers(Left(l, d), w) || Given(l, d).value.Has(w)
      {
        GivenCovers(l, d, w);
      }
      LeftSeparate(l, d);
    }
  }

  lemma GivenCovers(l: seq<Block>, d: nat, w: nat)
    requires Given(l, d).Some?
    ensures Covers(l, w) <==> Covers(Left(l, d), w) || Given(l, d).value.Has(w)
  {
    hide Covers;
    var i := FirstFit(l, d, 0);
    var before, after := l[..i], l[i + 1..];
    var kept := if d + 2 < l[i].len then [Block(l[i].addr, l[i].len - (d + 1))] else [];
    TakenFrom(l, i, kept);
    CoversConcat(before + [l[i]], after, w);
    CoversConcat(before, [l[i]], w);
    CoversConcat(before + kept, after, w);
    CoversConcat(before, kept, w);
    CoversOne(l[i], w);
    if kept == [] {
      CoversNone(w);
    } else {
      CoversOne(kept[0], w);
    }
  }

  lemma TakenFrom(l: seq<Block>, i: nat, kept: seq<Block>)
    requires i < |l| && |kept| <= 1
    ensures l == l[..i] + [l[i]] + l[i + 1..]
    ensures l[..i] + kept + l[i + 1..] == if kept == [] then l[..i] + l[i + 1..] else l[i := kept[0]]
  {
  }

  lemma LeftSeparate(l: seq<Block>, d: nat)
    requires Separate(l) && Given(l, d).Some?
    ensures Separate(Left(l, d)) && Fresh(Left(l, d), Given(l, d).value)
  {
    var i := FirstFit(l, d, 0);
    if d + 2 < l[i].len {
      CutSeparate(l, i, Block(l[i].addr, l[i].len - (d + 1)));
    } else {
      DropSeparate(l, i);
    }
  }

  lemma CutSeparate(l: seq<Block>, i: nat, b: Block)
    requires Separate(l) && i < |l| && b.addr == l[i].addr && 0 < b.len < l[i].len
    ensures Separate(l[i := b]) && Fresh(l[i := b], Block(b.End(), l[i].End() - b.End() - 1))
  {
    var r := l[i := b];
    forall j, k | 0 <= j < k < |r|
      ensures r[j].End() < r[k].addr
    {
      assert l[j].End() < l[k].addr;
    }
  }

  lemma DropSeparate(l: seq<Block>, i: nat)
    requires Separate(l) && i < |l|
    ensures Separate(l[..i] + l[i + 1..]) && Fresh(l[..i] + l[i + 1..], l[i])
  {
    var r := l[..i] + l[i + 1..];
    assert forall j :: 0 <= j < |r| ==> r[j] == l[if j < i then j else j + 1];
  }

  lemma CutFresh(l: seq<Block>, i: nat, b: Block, c: Block)
    requires Fresh(l, c) && i < |l| && b.addr == l[i].addr && b.len <= l[i].len
    ensures Fresh(l[i := b], c)
  {
  }

  lemma DropFresh(l: seq<Block>, i: nat, c: Block)
    requires Fresh(l, c) && i < |l|
    ensures Fresh(l[..i] + l[i + 1..], c)
  {
    var r := l[..i] + l[i + 1..];
    assert forall j :: 0 <= j < |r| ==> r[j] == l[if j < i then j else j + 1];
  }

  /** The block handed out, and what is left, lie within what was free. */
  lemma LeftFresh(l: seq<Block>, d: nat, c: Block)
    requires Given(l, d).Some? && Fresh(l, c)
    ensures Fresh(Left(l, d), c) && Disjoint(Given(l, d).value, c)
  {
    var i := FirstFit(l, d, 0);
    assert Disjoint(l[i], c);
    if d + 2 < l[i].len {
      CutFresh(l, i, Block(l[i].addr, l[i].len - (d + 1)), c);
    } else {
      DropFresh(l, i, c);
    }
  }

  /** A request is given a block with room for a link exactly when it asks for something, or when the first block
      is too small to be split. */
  lemma {:induction false} GivenRoom(l: seq<Block>, d: nat)
    requires Separate(l) && Given(l, d).Some?
    ensures l != [] && (Given(l, d).value.len > 0 <==> d > 0 || l[0].len <= 2)
  {
  }

  /** What was just allocated can be released: a block without room for a link is merged back into the block it was
      cut from. */
  lemma {:induction false} GivenRoomy(l: seq<Block>, d: nat)
    requires Separate(l) && Given(l, d).Some?
    ensures Roomy(Left(l, d), Given(l, d).value)
  {
    var b, r := Given(l, d).value, Left(l, d);
    GivenRoom(l, d);
    if b.len == 0 {
      assert r[0].End() == b.addr;
      assert forall j :: 0 < j < |r| ==> r[j] == l[j] && b.addr < r[j].addr;
      assert Place(r, b.addr, 0) == 1;
    }
  }

  /** Releasing what was just allocated restores the free list exactly. */
  lemma {:induction false} FreeUndoesAlloc(l: seq<Block>, d: nat)
    requires Separate(l) && Given(l, d).Some?
    ensures Release(Left(l, d), Given(l, d).value) == l
  {
    hide Roomy;
    GivenOk(l, d);
    GivenRoomy(l, d);
    ReleaseOk(Left(l, d), Given(l, d).value);
    Canonical(Release(Left(l, d), Given(l, d).value), l);
  }
}
