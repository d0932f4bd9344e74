/** Where every PCB and every stack is.  `Core` accounts for all of them, counting the PCBs that a handler
    holds in a variable between taking them off one queue and putting them on another. */
module Placement {
  import opened Defs
  import opened QueueSpec
  import opened KernelSpec

  /** The first `n` table slots, each once. */
  ghost function SlotsBelow(n: nat): (m: multiset<Slot>)
    requires n <= N_PCBS
    ensures |m| == n
    ensures forall p: Slot :: m[p] == if p < n then 1 else 0
  {
    if n == 0 then multiset{} else SlotsBelow(n - 1) + multiset{n - 1}
  }

  /** The PCBs on the first `n` queues, with multiplicity. */
  ghost function PlacedIn(t: seq<seq<Entry>>, n: nat): multiset<Slot>
    requires n <= |t|
  {
    if n == 0 then multiset{} else PlacedIn(t, n - 1) + multiset(Data(t[n - 1]))
  }

  /** The PCBs on any queue: the stack list is the last queue, and holds none. */
  ghost function Placed(t: Table): multiset<Slot> {
    PlacedIn(t, |t| - 1)
  }

  function StackOf(pcbs: Pcbs): seq<Option<Slot>> {
    seq(N_PCBS, p requires 0 <= p < N_PCBS => pcbs[p].stack)
  }

  /** How often stack `k` occurs as some PCB's stack or on the list of free stacks. */
  ghost function StackUses(t: Table, pcbs: Pcbs, k: Slot): nat {
    multiset(StackOf(pcbs))[Some(k)] + multiset(Data(t[STACKS]))[k]
  }

  /** What a PCB may look like on each queue.  A kill leaves its victim where it is. */
  predicate Fits(pcb: Pcb, q: nat, key: nat) {
    if q == PCBS then pcb.stack.None? && pcb.state == FREE
    else
      && pcb.stack.Some?
      && (READING <= q <= ZOMBIES ==> key == pcb.pid)
      && (pcb.state == KILLED ||
          if q < N_PRIORITIES then pcb.state == READY
          else if q == SLEEP then pcb.state == SLEEPING
          else if q == READING then pcb.state == RUNNING || (pcb.state == FREE && pcb.pid == PID_INIT)
          else if q == WAITERS then pcb.state == WAITING
          else pcb.state == ZOMBIE)
  }

  ghost predicate StacksOnce(t: Table, pcbs: Pcbs) {
    forall k: Slot :: StackUses(t, pcbs, k) == 1
  }

  predicate AllFit(t: Table, pcbs: Pcbs) {
    forall q, i :: 0 <= q < STACKS && 0 <= i < |t[q]| ==> Fits(pcbs[t[q][i].data], q, t[q][i].key)
  }

  /** Each PCB is on one queue, once, or held. */
  ghost predicate PcbsOnce(t: Table, held: multiset<Slot>) {
    forall p: Slot :: Placed(t)[p] + held[p] == 1
  }

  ghost predicate Core(t: Table, pcbs: Pcbs, held: multiset<Slot>) {
    && PcbsOnce(t, held)
    && StacksOnce(t, pcbs)
    && |t[PCBS]| == |t[STACKS]|
    && AllFit(t, pcbs)
    && (forall p :: p in held ==> pcbs[p].stack.Some?)
  }

  // ---- counting ----

  lemma Swap(a: multiset<Slot>, x: multiset<Slot>, b: multiset<Slot>, y: multiset<Slot>, c: multiset<Slot>)
    requires a + x == b + y
    ensures (a + c) + x == (b + c) + y
  {
    assert (a + c) + x == (a + x) + c;
  }

  lemma {:induction false} PlacedInSame(t: seq<seq<Entry>>, q: nat, c: seq<Entry>, n: nat)
    requires n <= q < |t|
    ensures PlacedIn(t[q := c], n) == PlacedIn(t, n)
  {
    if n > 0 {
      PlacedInSame(t, q, c, n - 1);
    }
  }

  lemma {:induction false} PlacedInUpdate(t: seq<seq<Entry>>, q: nat, c: seq<Entry>, n: nat)
    requires q < |t| && n <= |t|
    ensures q < n ==> PlacedIn(t[q := c], n) + multiset(Data(t[q])) == PlacedIn(t, n) + multiset(Data(c))
    ensures n <= q ==> PlacedIn(t[q := c], n) == PlacedIn(t, n)
  {
    hide Data;
    if n <= q {
      PlacedInSame(t, q, c, n);
    } else if q == n - 1 {
      PlacedInSame(t, q, c, n - 1);
    } else {
      PlacedInUpdate(t, q, c, n - 1);
      Swap(PlacedIn(t[q := c], n - 1), multiset(Data(t[q])), PlacedIn(t, n - 1), multiset(Data(c)),
          multiset(Data(t[n - 1])));
    }
  }

  lemma {:induction false} PlacedInHas(t: seq<seq<Entry>>, n: nat, q: nat, i: nat)
    requires q < n <= |t| && i < |t[q]|
    ensures t[q][i].data in PlacedIn(t, n)
  {
    if q == n - 1 {
      assert t[q][i].data == Data(t[q])[i];
    } else {
      PlacedInHas(t, n - 1, q, i);
    }
  }

  lemma {:induction false} PlacedInAt(t: seq<seq<Entry>>, n: nat, p: Slot) returns (q: nat, i: nat)
    requires n <= |t| && p in PlacedIn(t, n)
    ensures q < n && i < |t[q]| && t[q][i].data == p
  {
    if p in multiset(Data(t[n - 1])) {
      assert p in Data(t[n - 1]);
      i :| 0 <= i < |t[n - 1]| && Data(t[n - 1])[i] == p;
      q := n - 1;
    } else {
      q, i := PlacedInAt(t, n - 1, p);
    }
  }

  lemma {:induction false} PlacedInSize(t: seq<seq<Entry>>, n: nat)
    requires n <= |t|
    ensures |PlacedIn(t, n)| == NodesIn(t, n)
  {
    if n > 0 {
      PlacedInSize(t, n - 1);
    }
  }

  /** A PCB that a handler holds is on no queue. */
  lemma HeldApart(t: Table, held: multiset<Slot>, p: Slot)
    requires PcbsOnce(t, held) && p in held
    ensures forall q, i :: 0 <= q < STACKS && 0 <= i < |t[q]| ==> t[q][i].data != p
  {
    forall q, i | 0 <= q < STACKS && 0 <= i < |t[q]|
      ensures t[q][i].data != p
    {
      assert Placed(t)[p] + held[p] == 1;
      PlacedInHas(t, |t| - 1, q, i);
    }
  }

  /** Every PCB is on some queue, or held. */
  lemma Somewhere(t: Table, pcbs: Pcbs, held: multiset<Slot>, p: Slot) returns (q: nat, i: nat)
    requires Core(t, pcbs, held) && p !in held
    ensures q < STACKS && i < |t[q]| && t[q][i].data == p
  {
    assert Placed(t)[p] + held[p] == 1;
    q, i := PlacedInAt(t, |t| - 1, p);
  }

  /** The free list of queue nodes is never empty: all the PCBs and stacks together fit. */
  lemma NeverFull(t: Table, pcbs: Pcbs, held: multiset<Slot>)
    requires Core(t, pcbs, held)
    ensures Used(t) + 2 * |held| <= N_PCBS + N_STACKS
    ensures !Full(t)
  {
    PlacedInSize(t, |t| - 1);
    assert Placed(t) + held == SlotsBelow(|pcbs|);
    assert Used(t) == NodesIn(t, |t| - 1) + |t[STACKS]|;
    assert NodesIn(t, |t| - 1) == NodesIn(t, |t| - 2) + |t[PCBS]|;
    assert |Placed(t)| == NodesIn(t, |t| - 1);
  }

  // ---- what each elementary move does to the accounts ----

  lemma SameStacks(t: Table, t': Table, pcbs: Pcbs, pcbs': Pcbs)
    requires StacksOnce(t, pcbs) && t'[STACKS] == t[STACKS]
    requires forall p :: 0 <= p < N_PCBS ==> pcbs'[p].stack == pcbs[p].stack
    ensures StacksOnce(t', pcbs')
  {
    assert StackOf(pcbs') == StackOf(pcbs);
    forall k: Slot
      ensures StackUses(t', pcbs', k) == StackUses(t, pcbs, k)
    {
    }
  }

  lemma Touch(t: Table, pcbs: Pcbs, held: multiset<Slot>, p: Slot, pcb: Pcb)
    requires Core(t, pcbs, held) && p in held && pcb.stack == pcbs[p].stack
    ensures Core(t, pcbs[p := pcb], held)
  {
    var pcbs': Pcbs := pcbs[p := pcb];
    SameStacks(t, t, pcbs, pcbs');
    assert AllFit(t, pcbs') by {
      HeldApart(t, held, p);
    }
  }

  lemma FitInsert(t: Table, pcbs: Pcbs, q: nat, i: nat, e: Entry)
    requires AllFit(t, pcbs) && q < PCBS && i <= |t[q]| && Fits(pcbs[e.data], q, e.key)
    ensures AllFit(t[q := InsertAt(t[q], i, e)], pcbs)
  {
    var c := InsertAt(t[q], i, e);
    assert forall j :: 0 <= j < |c| ==> c[j] == if j < i then t[q][j] else if j == i then e else t[q][j - 1];
  }

  lemma FitRemove(t: Table, pcbs: Pcbs, q: nat, i: nat)
    requires AllFit(t, pcbs) && q < STACKS && i < |t[q]|
    ensures AllFit(t[q := RemoveAt(t[q], i)], pcbs)
  {
    var c := RemoveAt(t[q], i);
    assert forall j :: 0 <= j < |c| ==> c[j] == if j < i then t[q][j] else t[q][j + 1];
  }

  lemma Put(t: Table, pcbs: Pcbs, held: multiset<Slot>, p: Slot, pcb: Pcb, q: nat, i: nat, key: nat)
    requires Core(t, pcbs, held) && p in held && pcb.stack == pcbs[p].stack
    requires q < PCBS && i <= |t[q]| && Fits(pcb, q, key)
    ensures !Full(t)
    ensures Core(t[q := InsertAt(t[q], i, Entry(key, p))], pcbs[p := pcb], held - multiset{p})
  {
    NeverFull(t, pcbs, held);
    Touch(t, pcbs, held, p, pcb);
    var c := InsertAt(t[q], i, Entry(key, p));
    FitInsert(t, pcbs[p := pcb], q, i, Entry(key, p));
    SameStacks(t, t[q := c], pcbs, pcbs[p := pcb]);
    PlacedInUpdate(t, q, c, |t| - 1);
    DataOfInsert(t[q], i, Entry(key, p));
    PutBalance(t, t[q := c], multiset(Data(t[q])), held, p);
  }

  lemma PutBalance(t: Table, t': Table, c: multiset<Slot>, held: multiset<Slot>, p: Slot)
    requires PcbsOnce(t, held) && p in held
    requires Placed(t') + c == Placed(t) + (c + multiset{p})
    ensures PcbsOnce(t', held - multiset{p})
  {
    forall x: Slot
      ensures Placed(t')[x] + (held - multiset{p})[x] == 1
    {
      assert (Placed(t') + c)[x] == (Placed(t) + (c + multiset{p}))[x];
      assert Placed(t)[x] + held[x] == 1;
    }
  }

  lemma TakeBalance(t: Table, t': Table, c: multiset<Slot>, held: multiset<Slot>, p: Slot)
    requires PcbsOnce(t, held)
    requires Placed(t') + (c + multiset{p}) == Placed(t) + c
    ensures PcbsOnce(t', held + multiset{p})
  {
    forall x: Slot
      ensures Placed(t')[x] + (held + multiset{p})[x] == 1
    {
      assert (Placed(t') + (c + multiset{p}))[x] == (Placed(t) + c)[x];
      assert Placed(t)[x] + held[x] == 1;
    }
  }

  lemma TakeOff(t: Table, pcbs: Pcbs, held: multiset<Slot>, q: nat, i: nat)
    requires Core(t, pcbs, held) && q < PCBS && i < |t[q]|
    ensures t[q][i].data !in held
    ensures Core(t[q := RemoveAt(t[q], i)], pcbs, held + multiset{t[q][i].data})
  {
    var p := t[q][i].data;
    if p in held {
      HeldApart(t, held, p);
    }
    assert Fits(pcbs[p], q, t[q][i].key);
    var t' := t[q := RemoveAt(t[q], i)];
    FitRemove(t, pcbs, q, i);
    SameStacks(t, t', pcbs, pcbs);
    PlacedInUpdate(t, q, RemoveAt(t[q], i), |t| - 1);
    DataOfRemove(t[q], i);
    TakeBalance(t, t', multiset(Data(RemoveAt(t[q], i))), held, p);
  }

  /** Rewriting PCBs moves nothing, as long as each keeps its stack, its PID and its state; an allocated
      process may also be marked KILLED. */
  lemma Rewrite(t: Table, pcbs: Pcbs, pcbs': Pcbs, held: multiset<Slot>)
    requires Core(t, pcbs, held)
    requires forall p :: 0 <= p < N_PCBS ==> pcbs'[p].stack == pcbs[p].stack && pcbs'[p].pid == pcbs[p].pid
    requires forall p :: 0 <= p < N_PCBS ==>
      pcbs'[p].state == pcbs[p].state || (pcbs[p].stack.Some? && pcbs'[p].state == KILLED)
    ensures Core(t, pcbs', held)
  {
    SameStacks(t, t, pcbs, pcbs');
    forall q, i | 0 <= q < STACKS && 0 <= i < |t[q]|
      ensures Fits(pcbs'[t[q][i].data], q, t[q][i].key)
    {
      assert Fits(pcbs[t[q][i].data], q, t[q][i].key);
    }
  }

  /** A PCB changes its stack pointer, and the list of free stacks changes to match. */
  lemma MoveStack(t: Table, t': Table, pcbs: Pcbs, pcbs': Pcbs, p: Slot, k: Slot)
    requires StacksOnce(t, pcbs) && pcbs' == pcbs[p := pcbs'[p]]
    requires
      || (pcbs[p].stack == Some(k) && pcbs'[p].stack == None
          && multiset(Data(t'[STACKS])) == multiset(Data(t[STACKS])) + multiset{k})
      || (pcbs[p].stack == None && pcbs'[p].stack == Some(k)
          && multiset(Data(t[STACKS])) == multiset(Data(t'[STACKS])) + multiset{k})
    ensures StacksOnce(t', pcbs')
  {
    assert StackOf(pcbs') == StackOf(pcbs)[p := pcbs'[p].stack];
    forall x: Slot
      ensures StackUses(t', pcbs', x) == 1
    {
      assert StackUses(t, pcbs, x) == 1;
    }
  }

  /** Freeing a process gives back its stack and its PCB, and never fails. */
  lemma Releases(s: State, held: multiset<Slot>, p: Slot)
    requires Core(s.qs, s.pcbs, held) && p in held
    ensures Release(s, p).Ok?
    ensures Core(Release(s, p).s.qs, Release(s, p).s.pcbs, held - multiset{p})
  {
    var t, k := s.qs, s.pcbs[p].stack.value;
    NeverFull(t, s.pcbs, held);
    NodesInUpdate(t, STACKS, t[STACKS] + [Entry(0, k)], |t|);
    GiveBack(t, s.pcbs, held, p);
  }

  lemma GiveBack(t: Table, pcbs: Pcbs, held: multiset<Slot>, p: Slot)
    requires Core(t, pcbs, held) && p in held
    ensures Core(t[STACKS := t[STACKS] + [Entry(0, pcbs[p].stack.value)]][PCBS := t[PCBS] + [Entry(0, p)]],
                 pcbs[p := ZeroPcb], held - multiset{p})
  {
    var k := pcbs[p].stack.value;
    var t1: Table := t[STACKS := t[STACKS] + [Entry(0, k)]];
    var t2: Table := t1[PCBS := t1[PCBS] + [Entry(0, p)]];
    assert Data(t2[STACKS]) == Data(t[STACKS]) + [k];
    MoveStack(t, t2, pcbs, pcbs[p := ZeroPcb], p, k);
    GiveBackPcb(t, t1[STACKS], held, p);
    HeldApart(t, held, p);
  }

  lemma GiveBackPcb(t: Table, stacks: seq<Entry>, held: multiset<Slot>, p: Slot)
    requires PcbsOnce(t, held) && p in held
    ensures PcbsOnce(t[STACKS := stacks][PCBS := t[PCBS] + [Entry(0, p)]], held - multiset{p})
  {
    var t1: Table := t[STACKS := stacks];
    var t2: Table := t1[PCBS := t[PCBS] + [Entry(0, p)]];
    PlacedInUpdate(t, STACKS, stacks, |t| - 1);
    PlacedInUpdate(t1, PCBS, t2[PCBS], |t| - 1);
    assert Data(t2[PCBS]) == Data(t[PCBS]) + [p];
    PutBalance(t, t2, multiset(Data(t[PCBS])), held, p);
  }

  /** What `_sys_fork` takes: a PCB and, since there are as many of those left, a stack. */
  lemma Allocates(t: Table, pcbs: Pcbs, held: multiset<Slot>, pcb: Pcb)
    requires Core(t, pcbs, held) && t[PCBS] != []
    ensures t[STACKS] != []
    ensures pcb.stack == Some(t[STACKS][0].data) ==>
              var p := t[PCBS][0].data;
              && p !in held
              && Core(t[PCBS := RemoveAt(t[PCBS], 0)][STACKS := RemoveAt(t[STACKS], 0)], pcbs[p := pcb],
                 held + multiset{p})
  {
    if pcb.stack == Some(t[STACKS][0].data) {
      var p, k := t[PCBS][0].data, t[STACKS][0].data;
      if p in held {
        HeldApart(t, held, p);
      }
      assert Fits(pcbs[p], PCBS, t[PCBS][0].key);
      var t1: Table := t[PCBS := RemoveAt(t[PCBS], 0)];
      var t2: Table := t1[STACKS := RemoveAt(t[STACKS], 0)];
      var pcbs': Pcbs := pcbs[p := pcb];
      DataOfRemove(t[STACKS], 0);
      MoveStack(t, t2, pcbs, pcbs', p, k);
      assert PcbsOnce(t1, held + multiset{p}) by {
        PlacedInUpdate(t, PCBS, t1[PCBS], |t| - 1);
        DataOfRemove(t[PCBS], 0);
        TakeBalance(t, t1, multiset(Data(t1[PCBS])), held, p);
      }
      PlacedInUpdate(t1, STACKS, t2[STACKS], |t| - 1);
      assert AllFit(t2, pcbs') by {
        FitRemove(t, pcbs, PCBS, 0);
        HeldApart(t2, held + multiset{p}, p);
      }
    }
  }
}
