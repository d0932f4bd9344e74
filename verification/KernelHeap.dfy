/** The heap as the kernel keeps it: the free list is threaded through the managed words themselves. */
module KernelHeap {
  import opened Defs
  import opened HeapSpec
  import opened HeapWords
  import HR = HeapRuns

  class Allocator {
    const mem: array<nat>
    var freelist: nat
    ghost var free: seq<Block>
    ghost var live: set<Block>

    ghost predicate Valid()
      reads this, mem
    {
      freelist == AddrAt(free, 0) && Spells(mem[..], free, live)
    }

    /** The heap these words stand for. */
    ghost function View(): HR.Heap
      reads this
    {
      HR.Heap(free, live)
    }

    /** The chunks of memory found at start-up become the free list, each linked to the one before it. */
    constructor (size: nat, chunks: seq<Block>)
      requires Separate(chunks) && forall i :: 0 <= i < |chunks| ==> 0 < chunks[i].addr && chunks[i].End() <= size
      ensures Valid() && fresh(mem) && View() == HR.Heap(chunks, {})
    {
      mem := new nat[size + 1];
      freelist := 0;
      new;
      var pointer := 0;
      for i := 0 to |chunks|
        invariant freelist == AddrAt(chunks[..i], 0) && Chain(mem[..], chunks[..i])
        invariant pointer == if i == 0 then 0 else chunks[i - 1].addr + 1
      {
        ghost var l, m := chunks[..i], mem[..];
        var block := chunks[i].addr;
        mem[block] := chunks[i].len;
        LengthWritten(m, l, chunks[i]);
        assert i > 0 ==> Node(mem[..], l, i - 1);
        InsertedChain(mem[..], l, chunks[i], i);
        m := InsertedWords(mem[..], l, chunks[i], i);
        mem[block + 1] := 0;
        if pointer == 0 {
          freelist := block;
        } else {
          mem[pointer] := block;
        }
        pointer := block + 1;
        assert mem[..] == m && Linked(l, chunks[i], i) == chunks[..i + 1];
      }
      assert chunks[..|chunks|] == chunks;
      free, live := chunks, {};
    }

    // ---- allocation ----

    /** `_kalloc`: a word address, or 0 for NULL. */
    method Kalloc(bytes: U32) returns (address: nat)
      requires Valid()
      modifies this, mem
      ensures Valid() && View() == HR.Step(old(View()), HR.Alloc(bytes))
      ensures address == match Given(old(free), Request(bytes)) case None => 0 case Some(b) => b.addr + 1
    {
      var d := Wrap(bytes + 3) / 4;
      var pointer, block, i := Search(d);
      if block == 0 {
        return 0;
      }
      if mem[block] > d + 2 {
        block := Split(block, d, i);
      } else {
        Unlink(pointer, block, d, i);
      }
      address := block + 1;
    }

    /** The first-fit search; `pointer` is the cell that holds the link to `block`, 0 for `_freelist`. */
    method Search(d: nat) returns (pointer: nat, block: nat, ghost i: nat)
      requires Valid()
      ensures i == FirstFit(free, d, 0) && (i < |free| ==> Node(mem[..], free, i))
      ensures block == AddrAt(free, FirstFit(free, d, 0))
      ensures pointer == if FirstFit(free, d, 0) == 0 then 0 else free[FirstFit(free, d, 0) - 1].addr + 1
    {
      hide Separate, Apart;
      pointer, block, i := 0, freelist, 0;
      while block != 0 && mem[block] < d
        invariant i <= |free| && block == AddrAt(free, i) && (i < |free| ==> Node(mem[..], free, i))
        invariant pointer == if i == 0 then 0 else free[i - 1].addr + 1
        invariant FirstFit(free, d, 0) == FirstFit(free, d, i)
        decreases |free| - i
      {
        assert i + 1 < |free| ==> Node(mem[..], free, i + 1);
        pointer := block + 1;
        block := mem[block + 1];
        i := i + 1;
      }
    }

    /** The request is cut from the end of the block. */
    method Split(block: nat, d: nat, ghost i: nat) returns (fragment: nat)
      requires Valid() && i == FirstFit(free, d, 0) < |free| && free[i].addr == block && d + 2 < free[i].len
      modifies this, mem
      ensures Valid() && free == Left(old(free), d)
      ensures live == old(live) + {Given(old(free), d).value} && fragment == Given(old(free), d).value.addr
    {
      hide Spells, Left;
      ghost var l, m := free, mem[..];
      SpelledNode(m, l, live, i);
      CutSpells(m, l, live, i, d);
      fragment := block + 1 + mem[block] - (1 + d);
      mem[fragment] := d;
      mem[block] := mem[block] - (1 + d);
      assert mem[..] == CutWords(m, l, i, d);
      free, live := Left(l, d), live + {Given(l, d).value};
    }

    /** The whole block goes, and the cell that pointed at it skips it. */
    method Unlink(pointer: nat, block: nat, d: nat, ghost i: nat)
      requires Valid() && i == FirstFit(free, d, 0) < |free| && free[i].addr == block && free[i].len <= d + 2
      requires pointer == if i == 0 then 0 else free[i - 1].addr + 1
      modifies this, mem
      ensures Valid() && free == Left(old(free), d) && live == old(live) + {old(free)[i]}
    {
      hide Spells, Left;
      ghost var l, m := free, mem[..];
      SpelledNode(m, l, live, i);
      if i > 0 {
        SpelledNode(m, l, live, i - 1);
      }
      DropSpells(m, l, live, i, d);
      if pointer == 0 {
        freelist := mem[block + 1];
      } else {
        mem[pointer] := mem[block + 1];
      }
      assert mem[..] == DropWords(m, l, i);
      free, live := Left(l, d), live + {l[i]};
    }

    // ---- release ----

    /** `_kfree`, for NULL or the address of a live block.  A release that needs a word of somebody else's takes it. */
    method Kfree(address: nat, ghost b: Block)
      requires Valid() && (address != 0 ==> b in live && b.addr + 1 == address)
      modifies this, mem
      ensures address == 0 || Roomy(old(free), b) ==>
                Valid() && View() == if address == 0 then old(View()) else HR.Step(old(View()), HR.Free(b))
      ensures address != 0 && !Roomy(old(free), b) ==>
                && mem[..] == StrayWords(old(mem[..]), old(free), b, Place(old(free), b.addr, 0))
                && freelist == if Place(old(free), b.addr, 0) == 0 then b.addr else old(freelist)
    {
      hide Separate, Apart, Release, Linked, Merged, Chain, Headers, Roomy, StrayWords, Joined, LinkedWords,
        LinkedIndex;
      if address == 0 {
        return;
      }
      var used := address - 1;
      ghost var l, m, roomy := free, mem[..], Roomy(free, b);
      if roomy {
        ReleaseSpells(m, l, live, b);
      } else {
        StrayPlace(m, l, live, b);
      }
      var previous, block, i := FindPlace(used);
      var merged := LinkAfter(previous, used, b, i);
      if roomy {
        LinkedSpells(m, l, live, b, i);
        JoinedSpells(LinkedWords(m, l, b, i), Linked(l, b, i), LinkedIndex(l, b, i), live - {b});
      } else {
        LinkedIsInserted(m, l, b, i);
        SpelledAt(m, l, live, i);
        JoinedIsStray(m, l, b, i);
      }
      JoinNext(merged, block);
      if roomy {
        free, live := Release(l, b), live - {b};
      }
    }

    /** Advancing until `previous` and `block` straddle the freed block. */
    method FindPlace(used: nat) returns (previous: nat, block: nat, ghost i: nat)
      requires Valid()
      ensures i == Place(free, used, 0) && block == AddrAt(free, i)
      ensures previous == if i == 0 then 0 else free[i - 1].addr
    {
      hide Separate, Apart;
      previous, block, i := 0, freelist, 0;
      while block != 0 && block < used
        invariant i <= |free| && block == AddrAt(free, i)
        invariant previous == if i == 0 then 0 else free[i - 1].addr
        invariant Place(free, used, 0) == Place(free, used, i)
        decreases |free| - i
      {
        assert Node(mem[..], free, i);
        previous := block;
        block := mem[block + 1];
        i := i + 1;
      }
      assert i < |free| ==> Node(mem[..], free, i);
    }

    /** Linking, or merging with the block before. */
    method LinkAfter(previous: nat, used: nat, ghost b: Block, ghost i: nat) returns (merged: nat)
      requires Valid() && b in live && b.addr == used && i <= |free|
      requires previous == if i == 0 then 0 else free[i - 1].addr
      modifies this`freelist, mem
      ensures var l, m := free, old(mem[..]);
              && Header(m, b) && (i > 0 ==> Node(m, l, i - 1)) && mem[..] == LinkedWords(m, l, b, i)
              && freelist == AddrAt(Linked(l, b, i), 0)
              && LinkedIndex(l, b, i) < |Linked(l, b, i)| && merged == Linked(l, b, i)[LinkedIndex(l, b, i)].addr
    {
      hide Spells, Chain, Headers;
      ghost var l, m := free, mem[..];
      SpelledHeader(m, l, live, b);
      if i > 0 {
        SpelledNode(m, l, live, i - 1);
      }
      merged := used;
      if previous != 0 {
        if previous + 1 + mem[previous] == used {
          mem[previous] := mem[previous] + (mem[used] + 1);
          merged := previous;
        } else {
          mem[used + 1] := mem[previous + 1];
          mem[previous + 1] := used;
        }
      } else {
        mem[used + 1] := freelist;
        freelist := used;
      }
      assert mem[..] == LinkedWords(m, l, b, i);
    }

    /** Merging with the block after. */
    method JoinNext(used: nat, block: nat)
      requires used + 1 < mem.Length && (block != 0 ==> block + 1 < mem.Length)
      modifies mem
      ensures mem[..] == Joined(old(mem[..]), used, block)
    {
      if block != 0 {
        if used + 1 + mem[used] == block {
          mem[used + 1] := mem[block + 1];
          mem[used] := mem[used] + (mem[block] + 1);
        }
      }
    }
  }
}
