/** How words of memory spell out a free list: a free block at address `a` has its length in word `a` and the
    next free block's address in word `a + 1`; address 0 is the NULL pointer. */
module HeapWords {
  import opened Defs
  import opened HeapSpec

  /** The address of the block at index `i`, or NULL. */
  function AddrAt(l: seq<Block>, i: nat): nat {
    if i < |l| then l[i].addr else 0
  }

  /** In address order without overlap: neighbours may still touch. */
  ghost predicate Ordered(l: seq<Block>) {
    forall i, j :: 0 <= i < j < |l| ==> l[i].End() <= l[j].addr
  }

  /** A block's header is in memory, and the block fits; memory goes on after it. */
  ghost predicate Header(m: seq<nat>, b: Block) {
    0 < b.addr && b.End() < |m| && m[b.addr] == b.len
  }

  ghost predicate Headers(m: seq<nat>, bs: set<Block>) {
    forall b :: b in bs ==> Header(m, b)
  }

  /** The block at index `i`: its header, and its link. */
  ghost predicate Node(m: seq<nat>, l: seq<Block>, i: nat)
    requires i < |l|
  {
    Header(m, l[i]) && l[i].len > 0 && m[l[i].addr + 1] == AddrAt(l, i + 1)
  }

  ghost predicate Chain(m: seq<nat>, l: seq<Block>) {
    Ordered(l) && forall i :: 0 <= i < |l| ==> Node(m, l, i)
  }

  /** No two of the free and live blocks overlap. */
  ghost predicate Apart(l: seq<Block>, live: set<Block>) {
    && (forall b :: b in live ==> Fresh(l, b))
    && (forall b, c :: b in live && c in live && b != c ==> Disjoint(b, c))
  }

  /** The words spell out the free list, and every live block has its header. */
  ghost predicate Spells(m: seq<nat>, l: seq<Block>, live: set<Block>) {
    Separate(l) && Chain(m, l) && Headers(m, live) && Apart(l, live)
  }

  lemma NodeAt(m: seq<nat>, l: seq<Block>, i: nat)
    requires Chain(m, l) && i < |l|
    ensures Node(m, l, i)
  {
  }

  lemma ApartLeft(l: seq<Block>, live: set<Block>, d: nat)
    requires Separate(l) && Given(l, d).Some? && Apart(l, live)
    ensures Separate(Left(l, d)) && Apart(Left(l, d), live + {Given(l, d).value})
  {
    LeftSeparate(l, d);
    forall c | c in live
      ensures Fresh(Left(l, d), c) && Disjoint(Given(l, d).value, c)
    {
      LeftFresh(l, d, c);
    }
  }

  lemma ApartFrom(l: seq<Block>, live: set<Block>, i: nat)
    requires Apart(l, live) && i < |l|
    ensures forall b :: b in live ==> Disjoint(l[i], b)
  {
  }

  lemma ApartRelease(l: seq<Block>, live: set<Block>, b: Block)
    requires Separate(l) && Apart(l, live) && b in live && Roomy(l, b)
    ensures Separate(Release(l, b)) && Apart(Release(l, b), live - {b})
  {
    ReleaseOk(l, b);
    forall c | c in live - {b}
      ensures Fresh(Release(l, b), c)
    {
      ReleaseFresh(l, b, c);
    }
  }

  // ---- words written inside a block that is not live ----

  /** Changing words inside `b` alone keeps every header elsewhere. */
  lemma KeepsHeaders(m: seq<nat>, m': seq<nat>, b: Block, bs: set<Block>)
    requires Headers(m, bs) && |m'| == |m| && forall c :: c in bs ==> Disjoint(b, c)
    requires forall w :: 0 <= w < |m| && !b.Has(w) ==> m'[w] == m[w]
    ensures Headers(m', bs)
  {
    forall c | c in bs
      ensures Header(m', c)
    {
      assert Header(m, c) && !b.Has(c.addr);
    }
  }

  /** ... and every free node elsewhere whose link is still right. */
  lemma KeepsNode(m: seq<nat>, m': seq<nat>, b: Block, l: seq<Block>, i: nat, l': seq<Block>, j: nat)
    requires i < |l| && j < |l'| && Node(m, l, i) && l'[j] == l[i] && AddrAt(l', j + 1) == AddrAt(l, i + 1)
    requires Disjoint(b, l[i]) && |m'| == |m|
    requires forall w :: 0 <= w < |m| && !b.Has(w) ==> m'[w] == m[w]
    ensures Node(m', l', j)
  {
    assert !b.Has(l[i].addr) && !b.Has(l[i].addr + 1);
  }

  // ---- allocation ----

  /** The words after cutting a request for `d` words off the end of the block at index `i`. */
  ghost function CutWords(m: seq<nat>, l: seq<Block>, i: nat, d: nat): (r: seq<nat>)
    requires i < |l| && d + 2 < l[i].len && Header(m, l[i])
    ensures |r| == |m|
  {
    m[l[i].addr + l[i].len - d := d][l[i].addr := l[i].len - (d + 1)]
  }

  lemma CutChain(m: seq<nat>, l: seq<Block>, i: nat, d: nat)
    requires Chain(m, l) && i < |l| && d + 2 < l[i].len && Node(m, l, i)
    ensures var b := Block(l[i].addr + l[i].len - d, d);
            && Chain(CutWords(m, l, i, d), l[i := Block(l[i].addr, l[i].len - (d + 1))])
            && Header(CutWords(m, l, i, d), b)
  {
    var m', l' := CutWords(m, l, i, d), l[i := Block(l[i].addr, l[i].len - (d + 1))];
    forall j | 0 <= j < |l'|
      ensures Node(m', l', j)
    {
      assert Node(m, l, j);
      if j != i {
        KeepsNode(m, m', l[i], l, j, l', j);
      }
    }
  }

  /** A split spells out what is left, and the new live block. */
  lemma CutSpells(m: seq<nat>, l: seq<Block>, live: set<Block>, i: nat, d: nat)
    requires Spells(m, l, live) && i == FirstFit(l, d, 0) < |l| && d + 2 < l[i].len && Node(m, l, i)
    ensures Spells(CutWords(m, l, i, d), Left(l, d), live + {Given(l, d).value})
    ensures AddrAt(Left(l, d), 0) == l[0].addr
  {
    hide Separate, Chain, Apart;
    ApartLeft(l, live, d);
    CutChain(m, l, i, d);
    ApartFrom(l, live, i);
    KeepsHeaders(m, CutWords(m, l, i, d), l[i], live);
  }

  /** The words after the link to the block at index `i` skips it. */
  ghost function DropWords(m: seq<nat>, l: seq<Block>, i: nat): (r: seq<nat>)
    requires i < |l| && (i > 0 ==> Node(m, l, i - 1))
    ensures |r| == |m|
  {
    if i == 0 then m else m[l[i - 1].addr + 1 := AddrAt(l, i + 1)]
  }

  lemma DropOrdered(l: seq<Block>, i: nat)
    requires Ordered(l) && i < |l|
    ensures Ordered(l[..i] + l[i + 1..])
  {
    var l' := l[..i] + l[i + 1..];
    assert forall j :: 0 <= j < |l'| ==> l'[j] == l[if j < i then j else j + 1];
  }

  lemma DropNode(m: seq<nat>, l: seq<Block>, i: nat, j: nat)
    requires Ordered(l) && i < |l| && (i > 0 ==> Node(m, l, i - 1)) && j < |l| && j != i && Node(m, l, j)
    ensures Node(DropWords(m, l, i), l[..i] + l[i + 1..], if j < i then j else j - 1)
  {
    var l', j' := l[..i] + l[i + 1..], if j < i then j else j - 1;
    assert l'[j'] == l[j];
    assert j' + 1 < |l'| ==> l'[j' + 1] == l[if j' + 1 < i then j' + 1 else j' + 2];
    if i > 0 && j != i - 1 {
      KeepsNode(m, DropWords(m, l, i), l[i - 1], l, j, l', j');
    }
  }

  lemma DropChain(m: seq<nat>, l: seq<Block>, i: nat)
    requires Chain(m, l) && i < |l| && (i > 0 ==> Node(m, l, i - 1))
    ensures Chain(DropWords(m, l, i), l[..i] + l[i + 1..])
  {
    var m', l' := DropWords(m, l, i), l[..i] + l[i + 1..];
    DropOrdered(l, i);
    forall j | 0 <= j < |l'|
      ensures Node(m', l', j)
    {
      assert Node(m, l, if j < i then j else j + 1);
      DropNode(m, l, i, if j < i then j else j + 1);
    }
  }

  /** Handing out a whole block spells out what is left, and the new live block. */
  lemma DropSpells(m: seq<nat>, l: seq<Block>, live: set<Block>, i: nat, d: nat)
    requires Spells(m, l, live) && i == FirstFit(l, d, 0) < |l| && l[i].len <= d + 2 && (i > 0 ==> Node(m, l, i - 1))
    ensures Spells(DropWords(m, l, i), Left(l, d), live + {l[i]})
    ensures AddrAt(Left(l, d), 0) == if i == 0 then AddrAt(l, 1) else l[0].addr
  {
    hide Separate, Ordered;
    ApartLeft(l, live, d);
    DropChain(m, l, i);
    NodeAt(m, l, i);
    if i > 0 {
      ApartFrom(l, live, i - 1);
      OrderedApart(l, i);
      KeepsHeaders(m, DropWords(m, l, i), l[i - 1], live + {l[i]});
    }
  }

  lemma OrderedApart(l: seq<Block>, i: nat)
    requires Separate(l) && 0 < i < |l|
    ensures Disjoint(l[i - 1], l[i])
  {
  }

  // ---- release ----

  /** The free list once `b` is linked in at index `i`, but not yet merged with what follows. */
  ghost function Linked(l: seq<Block>, b: Block, i: nat): (r: seq<Block>)
    requires i <= |l|
  {
    if 0 < i && Adjacent(l[i - 1], b) then l[i - 1 := Join(l[i - 1], b)] else l[..i] + [b] + l[i..]
  }

  /** The block at index `k` merged with the next one, if they touch. */
  ghost function Merged(l: seq<Block>, k: nat): (r: seq<Block>)
    requires k < |l|
  {
    if k + 1 < |l| && Adjacent(l[k], l[k + 1]) then l[..k] + [Join(l[k], l[k + 1])] + l[k + 2..] else l
  }

  /** Where `b`, or the block it was merged into, is once it is linked. */
  ghost function LinkedIndex(l: seq<Block>, b: Block, i: nat): nat
    requires i <= |l|
  {
    if 0 < i && Adjacent(l[i - 1], b) then i - 1 else i
  }

  lemma PushedIsLinked(l: seq<Block>, b: Block, i: nat)
    requires i <= |l|
    ensures Linked(l, b, i) == PushMerged(l[..i], b) + l[i..]
    ensures |PushMerged(l[..i], b)| == LinkedIndex(l, b, i) + 1
  {
  }

  lemma AppendedIsMerged(p: seq<Block>, after: seq<Block>)
    requires p != []
    ensures AppendMerged(p, after) == Merged(p + after, |p| - 1)
  {
    var r, k := p + after, |p| - 1;
    assert r[..k] == p[..k] && r[k + 1..] == after;
    if after != [] {
      assert r[k + 2..] == after[1..];
    }
  }

  /** The two stages of a release make the whole. */
  lemma ReleaseInStages(l: seq<Block>, b: Block)
    ensures var i := Place(l, b.addr, 0);
            LinkedIndex(l, b, i) < |Linked(l, b, i)| && Release(l, b) == Merged(Linked(l, b, i), LinkedIndex(l, b, i))
  {
    hide Linked, LinkedIndex, Merged, PushMerged, AppendMerged;
    var i := Place(l, b.addr, 0);
    PushedIsLinked(l, b, i);
    AppendedIsMerged(PushMerged(l[..i], b), l[i..]);
  }

  /** `b` fits between the blocks on either side of index `i`, and linking it in needs no word outside it. */
  ghost predicate Between(l: seq<Block>, b: Block, i: nat) {
    && i <= |l| && (b.len > 0 || (0 < i && Adjacent(l[i - 1], b)))
    && (forall j :: 0 <= j < i ==> l[j].End() <= b.addr)
    && (forall j :: i <= j < |l| ==> b.End() <= l[j].addr)
  }

  /** The words after merging `b` into the block before index `i`. */
  ghost function GrownWords(m: seq<nat>, l: seq<Block>, b: Block, i: nat): (r: seq<nat>)
    requires 0 < i <= |l| && Node(m, l, i - 1)
    ensures |r| == |m|
  {
    m[l[i - 1].addr := l[i - 1].len + (b.len + 1)]
  }

  lemma GrownChain(m: seq<nat>, l: seq<Block>, b: Block, i: nat)
    requires Chain(m, l) && Between(l, b, i) && Header(m, b) && 0 < i && Adjacent(l[i - 1], b)
    requires Node(m, l, i - 1)
    ensures Chain(GrownWords(m, l, b, i), Linked(l, b, i))
  {
    var m', l' := GrownWords(m, l, b, i), Linked(l, b, i);
    forall j | 0 <= j < |l'|
      ensures Node(m', l', j)
    {
      assert Node(m, l, j);
      if j != i - 1 {
        KeepsNode(m, m', l[i - 1], l, j, l', j);
      }
    }
  }

  lemma InsertedIndex(l: seq<Block>, b: Block, i: nat, j: nat)
    requires i <= |l| && j <= |l|
    ensures (l[..i] + [b] + l[i..])[j] == if j < i then l[j] else if j == i then b else l[j - 1]
  {
  }

  lemma InsertedOrdered(l: seq<Block>, b: Block, i: nat)
    requires Ordered(l) && Between(l, b, i)
    ensures Ordered(l[..i] + [b] + l[i..])
  {
    var r := l[..i] + [b] + l[i..];
    forall j, k | 0 <= j < k < |r|
      ensures r[j].End() <= r[k].addr
    {
      InsertedIndex(l, b, i, j);
      InsertedIndex(l, b, i, k);
    }
  }

  /** The words after linking `b` in at index `i`. */
  ghost function InsertedWords(m: seq<nat>, l: seq<Block>, b: Block, i: nat): (r: seq<nat>)
    requires i <= |l| && Header(m, b) && (i > 0 ==> Node(m, l, i - 1))
    ensures |r| == |m|
  {
    var m1 := m[b.addr + 1 := AddrAt(l, i)];
    if i == 0 then m1 else m1[l[i - 1].addr + 1 := b.addr]
  }

  lemma InsertedNode(m: seq<nat>, l: seq<Block>, b: Block, i: nat, j: nat)
    requires Chain(m, l) && Between(l, b, i) && Header(m, b) && b.len > 0 && (i > 0 ==> Node(m, l, i - 1))
    requires j < |l| && Node(m, l, j)
    ensures var r, j' := l[..i] + [b] + l[i..], if j < i then j else j + 1;
            Node(InsertedWords(m, l, b, i), r, j')
  {
    hide InsertedWords, Ordered;
    var r, j' := l[..i] + [b] + l[i..], if j < i then j else j + 1;
    InsertedIndex(l, b, i, j');
    InsertedNext(l, b, i, j);
    InsertedElsewhere(m, l, b, i, j);
  }

  /** What comes after a block once `b` is in. */
  lemma InsertedNext(l: seq<Block>, b: Block, i: nat, j: nat)
    requires i <= |l| && j < |l|
    ensures var r, j' := l[..i] + [b] + l[i..], if j < i then j else j + 1;
            AddrAt(r, j' + 1) == if j + 1 == i then b.addr else AddrAt(l, j + 1)
  {
    var j' := if j < i then j else j + 1;
    if j' < |l| {
      InsertedIndex(l, b, i, j' + 1);
    }
  }

  lemma InsertedElsewhere(m: seq<nat>, l: seq<Block>, b: Block, i: nat, j: nat)
    requires Ordered(l) && Between(l, b, i) && Header(m, b) && b.len > 0 && (i > 0 ==> Node(m, l, i - 1))
    requires j < |l| && Node(m, l, j)
    ensures var m', a := InsertedWords(m, l, b, i), l[j].addr;
            m'[a] == m[a] && m'[a + 1] == if j == i - 1 then b.addr else m[a + 1]
  {
    assert !b.Has(l[j].addr) && !b.Has(l[j].addr + 1);
    assert i > 0 && j != i - 1 ==> Disjoint(l[i - 1], l[j]);
  }

  lemma InsertedSelf(m: seq<nat>, l: seq<Block>, b: Block, i: nat)
    requires Chain(m, l) && Between(l, b, i) && Header(m, b) && b.len > 0 && (i > 0 ==> Node(m, l, i - 1))
    ensures Node(InsertedWords(m, l, b, i), l[..i] + [b] + l[i..], i)
  {
    InsertedIndex(l, b, i, i);
    if i < |l| {
      InsertedIndex(l, b, i, i + 1);
    }
  }

  /** Linking a block in after the one before it, or first. */
  lemma InsertedChain(m: seq<nat>, l: seq<Block>, b: Block, i: nat)
    requires Chain(m, l) && Between(l, b, i) && Header(m, b) && !(0 < i && Adjacent(l[i - 1], b))
    requires i > 0 ==> Node(m, l, i - 1)
    ensures Chain(InsertedWords(m, l, b, i), Linked(l, b, i))
  {
    hide Ordered;
    var r := l[..i] + [b] + l[i..];
    InsertedOrdered(l, b, i);
    InsertedSelf(m, l, b, i);
    forall j | 0 <= j < |r|
      ensures Node(InsertedWords(m, l, b, i), r, j)
    {
      if j != i {
        var j' := if j < i then j else j - 1;
        assert Node(m, l, j');
        InsertedNode(m, l, b, i, j');
      }
    }
  }

  lemma MergedIndex(l: seq<Block>, k: nat, j: nat)
    requires k + 1 < |l| && Adjacent(l[k], l[k + 1]) && j + 1 < |l|
    ensures |Merged(l, k)| == |l| - 1
    ensures Merged(l, k)[j] == if j == k then Join(l[k], l[k + 1]) else l[if j < k then j else j + 1]
  {
  }

  lemma MergedOrdered(l: seq<Block>, k: nat)
    requires k + 1 < |l| && Adjacent(l[k], l[k + 1]) && Ordered(l)
    ensures Ordered(Merged(l, k))
  {
    var r := Merged(l, k);
    forall i, j | 0 <= i < j < |r|
      ensures r[i].End() <= r[j].addr
    {
      MergedIndex(l, k, i);
      MergedIndex(l, k, j);
    }
  }

  /** The words after merging the block at index `k` with the next. */
  ghost function MergedWords(m: seq<nat>, l: seq<Block>, k: nat): (r: seq<nat>)
    requires k + 1 < |l| && Node(m, l, k)
    ensures |r| == |m|
  {
    m[l[k].addr + 1 := AddrAt(l, k + 2)][l[k].addr := l[k].len + (l[k + 1].len + 1)]
  }

  lemma MergedSelf(m: seq<nat>, l: seq<Block>, k: nat)
    requires k + 1 < |l| && Adjacent(l[k], l[k + 1]) && Node(m, l, k) && Node(m, l, k + 1)
    ensures |Merged(l, k)| == |l| - 1 && Node(MergedWords(m, l, k), Merged(l, k), k)
  {
    hide Merged;
    MergedIndex(l, k, k);
    if k + 2 < |l| {
      MergedIndex(l, k, k + 1);
    }
  }

  lemma MergedOther(m: seq<nat>, l: seq<Block>, k: nat, j: nat)
    requires k + 1 < |l| && Adjacent(l[k], l[k + 1]) && Node(m, l, k)
    requires Ordered(l) && j < |l| && j != k && j != k + 1 && Node(m, l, j)
    ensures var j' := if j < k then j else j - 1;
            |Merged(l, k)| == |l| - 1 && Node(MergedWords(m, l, k), Merged(l, k), j')
  {
    hide Merged;
    var j' := if j < k then j else j - 1;
    MergedIndex(l, k, j');
    if j' + 2 < |l| {
      MergedIndex(l, k, j' + 1);
    }
    KeepsNode(m, MergedWords(m, l, k), l[k], l, j, Merged(l, k), j');
  }

  /** Merging a block with the one after it. */
  lemma MergedChain(m: seq<nat>, l: seq<Block>, k: nat)
    requires Chain(m, l) && k + 1 < |l| && Adjacent(l[k], l[k + 1]) && Node(m, l, k) && Node(m, l, k + 1)
    ensures Chain(MergedWords(m, l, k), Merged(l, k)) && AddrAt(Merged(l, k), 0) == l[0].addr
  {
    hide Ordered;
    MergedOrdered(l, k);
    MergedIndex(l, k, 0);
    forall j | 0 <= j < |Merged(l, k)|
      ensures Node(MergedWords(m, l, k), Merged(l, k), j)
    {
      if j == k {
        MergedSelf(m, l, k);
      } else {
        assert Node(m, l, if j < k then j else j + 1);
        MergedOther(m, l, k, if j < k then j else j + 1);
      }
    }
  }

  /** Writing the length of a block that lies after the whole list. */
  lemma LengthWritten(m: seq<nat>, l: seq<Block>, b: Block)
    requires Chain(m, l) && 0 < b.addr && b.End() < |m| && forall i :: 0 <= i < |l| ==> l[i].End() <= b.addr
    ensures Chain(m[b.addr := b.len], l) && Header(m[b.addr := b.len], b)
  {
    var m' := m[b.addr := b.len];
    forall i | 0 <= i < |l|
      ensures Node(m', l, i)
    {
      assert Node(m, l, i);
    }
  }

  /** The words after `b` is linked in at index `i`. */
  ghost function LinkedWords(m: seq<nat>, l: seq<Block>, b: Block, i: nat): (r: seq<nat>)
    requires i <= |l| && Header(m, b) && (i > 0 ==> Node(m, l, i - 1))
    ensures |r| == |m|
  {
    if 0 < i && Adjacent(l[i - 1], b) then GrownWords(m, l, b, i) else InsertedWords(m, l, b, i)
  }

  /** The first stage of a release: the block is on the list, every other live block is untouched. */
  lemma LinkedSpells(m: seq<nat>, l: seq<Block>, live: set<Block>, b: Block, i: nat)
    requires Spells(m, l, live) && b in live && Between(l, b, i) && Header(m, b) && (i > 0 ==> Node(m, l, i - 1))
    ensures Chain(LinkedWords(m, l, b, i), Linked(l, b, i)) && Headers(LinkedWords(m, l, b, i), live - {b})
  {
    var m' := LinkedWords(m, l, b, i);
    if 0 < i && Adjacent(l[i - 1], b) {
      GrownChain(m, l, b, i);
      KeepsHeaders(m, m', l[i - 1], live - {b});
    } else {
      InsertedChain(m, l, b, i);
      var m1 := m[b.addr + 1 := AddrAt(l, i)];
      KeepsHeaders(m, m1, b, live - {b});
      if i > 0 {
        KeepsHeaders(m1, m', l[i - 1], live - {b});
      }
    }
  }

  /** The second stage. */
  lemma MergedSpells(m: seq<nat>, l: seq<Block>, k: nat, others: set<Block>)
    requires Chain(m, l) && k + 1 < |l| && Adjacent(l[k], l[k + 1]) && Node(m, l, k) && Node(m, l, k + 1)
    requires Headers(m, others) && forall c :: c in others ==> Disjoint(l[k], c)
    ensures Chain(MergedWords(m, l, k), Merged(l, k)) && AddrAt(Merged(l, k), 0) == l[0].addr
    ensures Headers(MergedWords(m, l, k), others)
  {
    MergedChain(m, l, k);
    KeepsHeaders(m, MergedWords(m, l, k), l[k], others);
  }

  /** The block just linked in overlaps no other live block. */
  lemma LinkedApart(l: seq<Block>, live: set<Block>, b: Block, i: nat)
    requires Apart(l, live) && b in live && Between(l, b, i)
    ensures var r, k := Linked(l, b, i), LinkedIndex(l, b, i);
            k < |r| && forall c :: c in live - {b} ==> Disjoint(r[k], c)
  {
    var r, k := Linked(l, b, i), LinkedIndex(l, b, i);
    if k < i {
      forall c | c in live - {b}
        ensures Disjoint(r[k], c)
      {
        assert Disjoint(l[i - 1], c) && Disjoint(b, c);
      }
    } else {
      assert r[k] == b;
    }
  }

  lemma SpelledNode(m: seq<nat>, l: seq<Block>, live: set<Block>, i: nat)
    requires Spells(m, l, live) && i < |l|
    ensures Node(m, l, i)
  {
  }

  lemma SpelledHeader(m: seq<nat>, l: seq<Block>, live: set<Block>, b: Block)
    requires Spells(m, l, live) && b in live
    ensures Header(m, b)
  {
  }

  /** What the stages of a release start from, and what they end in. */
  lemma ReleaseSpells(m: seq<nat>, l: seq<Block>, live: set<Block>, b: Block)
    requires Spells(m, l, live) && b in live && Roomy(l, b)
    ensures var i := Place(l, b.addr, 0);
            && Between(l, b, i)
            && Release(l, b) == Merged(Linked(l, b, i), LinkedIndex(l, b, i))
            && LinkedIndex(l, b, i) < |Linked(l, b, i)|
            && (forall c :: c in live - {b} ==> Disjoint(Linked(l, b, i)[LinkedIndex(l, b, i)], c))
            && AddrAt(Linked(l, b, i), LinkedIndex(l, b, i) + 1) == AddrAt(l, i)
    ensures Separate(Release(l, b)) && Apart(Release(l, b), live - {b})
  {
    hide Chain, Headers, Release, Merged;
    PlaceSplits(l, b);
    ApartRelease(l, live, b);
    ReleaseInStages(l, b);
    LinkedApart(l, live, b, Place(l, b.addr, 0));
  }

  // ---- a release that takes a word of somebody else's ----

  /** What `_kfree` does about the block after the one at `used`, word by word. */
  ghost function Joined(m: seq<nat>, used: nat, block: nat): (r: seq<nat>)
    requires used + 1 < |m| && (block != 0 ==> block + 1 < |m|)
    ensures |r| == |m|
  {
    if block != 0 && used + 1 + m[used] == block then
      var m1 := m[used + 1 := m[block + 1]];
      m1[used := m1[used] + (m1[block] + 1)]
    else m
  }

  lemma JoinedIsMerged(m: seq<nat>, l: seq<Block>, k: nat)
    requires Chain(m, l) && k < |l| && Node(m, l, k) && (k + 1 < |l| ==> Node(m, l, k + 1))
    ensures AddrAt(l, k + 1) != 0 ==> AddrAt(l, k + 1) + 1 < |m|
    ensures Joined(m, l[k].addr, AddrAt(l, k + 1)) ==
            if k + 1 < |l| && Adjacent(l[k], l[k + 1]) then MergedWords(m, l, k) else m
  {
  }

  /** The second stage of a release, as the code does it. */
  lemma JoinedSpells(m: seq<nat>, l: seq<Block>, k: nat, others: set<Block>)
    requires Chain(m, l) && k < |l| && Headers(m, others) && forall c :: c in others ==> Disjoint(l[k], c)
    ensures l[k].addr + 1 < |m| && (AddrAt(l, k + 1) != 0 ==> AddrAt(l, k + 1) + 1 < |m|)
    ensures var m' := Joined(m, l[k].addr, AddrAt(l, k + 1));
            Chain(m', Merged(l, k)) && AddrAt(Merged(l, k), 0) == AddrAt(l, 0) && Headers(m', others)
  {
    hide Chain, Headers, Joined;
    NodeAt(m, l, k);
    if k + 1 < |l| {
      NodeAt(m, l, k + 1);
    }
    JoinedIsMerged(m, l, k);
    if k + 1 < |l| && Adjacent(l[k], l[k + 1]) {
      MergedSpells(m, l, k, others);
    }
  }

  /** The words after releasing a block of no words at index `i` that does not touch the free block before it. */
  ghost function StrayWords(m: seq<nat>, l: seq<Block>, b: Block, i: nat): (r: seq<nat>)
    requires i <= |l| && Header(m, b) && (i > 0 ==> Node(m, l, i - 1))
    ensures |r| == |m|
  {
    var m1 := InsertedWords(m, l, b, i);
    if i < |l| && Adjacent(b, l[i]) then m1[b.End() := AddrAt(l, i + 1)][b.addr := AddrAt(l, i + 1) + 1] else m1
  }

  lemma JoinedIsStray(m: seq<nat>, l: seq<Block>, b: Block, i: nat)
    requires Ordered(l) && i <= |l| && Header(m, b) && (i > 0 ==> Node(m, l, i - 1)) && (i < |l| ==> Node(m, l, i))
    requires b.len == 0 && (i > 0 ==> l[i - 1].End() < b.addr) && (i < |l| ==> b.End() <= l[i].addr)
    ensures AddrAt(l, i) != 0 ==> AddrAt(l, i) + 1 < |m|
    ensures Joined(InsertedWords(m, l, b, i), b.addr, AddrAt(l, i)) == StrayWords(m, l, b, i)
  {
  }

  lemma StrayPlace(m: seq<nat>, l: seq<Block>, live: set<Block>, b: Block)
    requires Spells(m, l, live) && b in live && !Roomy(l, b)
    ensures var i := Place(l, b.addr, 0);
            && b.len == 0 && (i > 0 ==> l[i - 1].End() < b.addr) && (i < |l| ==> b.End() <= l[i].addr)
  {
    hide Chain, Headers;
    PlaceSplits(l, b);
  }

  /** Such a release writes the word after the block, whoever it belongs to: of the other live blocks exactly one
      that starts there loses its length, unless that happens to be the address of the next free block; and beyond
      that word only the link before and, if the next free block starts there, the block's own length change. */
  lemma StrayHarms(m: seq<nat>, l: seq<Block>, live: set<Block>, b: Block, c: Block)
    requires Spells(m, l, live) && b in live && !Roomy(l, b) && c in live && c != b
    ensures var i := Place(l, b.addr, 0);
            && Header(m, b) && (i > 0 ==> Node(m, l, i - 1))
            && (Header(StrayWords(m, l, b, i), c) <==> c.addr != b.End() || c.len == AddrAt(l, i))
            && forall w :: 0 <= w < |m| && StrayWords(m, l, b, i)[w] != m[w] ==>
                 w == b.End() || (i > 0 && w == l[i - 1].addr + 1) || (w == b.addr && i < |l| && Adjacent(b, l[i]))
  {
    hide Separate, Ordered;
    StrayPlace(m, l, live, b);
    var i := Place(l, b.addr, 0);
    assert Header(m, b) && Header(m, c) && Disjoint(b, c);
    assert i > 0 ==> Node(m, l, i - 1) && Disjoint(l[i - 1], c);
    assert i < |l| ==> Node(m, l, i) && Disjoint(l[i], c);
  }

  lemma LinkedIsInserted(m: seq<nat>, l: seq<Block>, b: Block, i: nat)
    requires i <= |l| && Header(m, b) && (i > 0 ==> Node(m, l, i - 1)) && (i > 0 ==> l[i - 1].End() < b.addr)
    ensures LinkedWords(m, l, b, i) == InsertedWords(m, l, b, i)
    ensures LinkedIndex(l, b, i) == i < |Linked(l, b, i)| && Linked(l, b, i)[i] == b
    ensures AddrAt(Linked(l, b, i), 0) == if i == 0 then b.addr else AddrAt(l, 0)
  {
  }

  lemma SpelledAt(m: seq<nat>, l: seq<Block>, live: set<Block>, i: nat)
    requires Spells(m, l, live) && i <= |l|
    ensures Ordered(l) && (i < |l| ==> Node(m, l, i))
  {
  }
}
