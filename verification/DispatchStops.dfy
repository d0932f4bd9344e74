/** When a dispatch stops for want of a parent, told from the queues before it. */
module DispatchStops {
  import opened Defs
  import opened QueueSpec
  import opened KernelSpec
  import opened Placement
  import opened Safety
  import opened Families
  import opened Scheduling
  import opened Stranding

  function ParentOf(pcbs: Pcbs, c: Slot): nat {
    PcbFind(pcbs, pcbs[c].ppid, 0)
  }

  /** The `j`-th process on the list is the first whose parent, waiting, wants it: a dispatch that gets there delivers
      and frees it.  The next one with that parent will find it awake. */
  ghost predicate FreedAt(l: seq<Slot>, pcbs: Pcbs, j: nat)
    requires j < |l|
  {
    && WakesParent(pcbs, l[j])
    && forall i :: 0 <= i < j ==> !(WakesParent(pcbs, l[i]) && ParentOf(pcbs, l[i]) == ParentOf(pcbs, l[j]))
  }

  /** Nobody is in use under the PID of the `i`-th process's parent, or that parent is freed before its turn comes. */
  ghost predicate OrphanAt(l: seq<Slot>, pcbs: Pcbs, i: nat)
    requires i < |l|
  {
    ParentOf(pcbs, l[i]) == N_PCBS || exists j :: 0 <= j < i && FreedAt(l, pcbs, j) && ParentOf(pcbs, l[i]) == l[j]
  }

  /** There is such a process among those that a dispatch passes over: all in front of the one it picks, or all. */
  ghost predicate PassesOrphan(s: State) {
    var l, pick := ReadyList(s.qs), PickFrom(s);
    exists i :: 0 <= i < |l| && (pick.Some? ==> i < pick.value.1) && OrphanAt(l, s.pcbs, i)
  }

  // ---- one round that wakes nobody ----

  lemma OverFreed(l: seq<Slot>, a: Pcbs, b: Pcbs, c: Slot, j: nat)
    requires a[c].state == KILLED && b == a[c := a[c].(state := ZOMBIE)] && c !in l && !WakesParent(a, c) && j < |l|
    ensures FreedAt([c] + l, a, j + 1) <==> FreedAt(l, b, j)
  {
    hide WakesParent, PcbFind;
    var l' := [c] + l;
    forall i | 0 <= i < |l|
      ensures l'[i + 1] == l[i]
      ensures ParentOf(b, l[i]) == ParentOf(a, l[i]) && WakesParent(b, l[i]) == WakesParent(a, l[i])
    {
      assert l[i] in l;
      SameWakes(a, b, c, l[i]);
    }
    if FreedAt(l, b, j) {
      assert forall i :: 0 < i < j + 1 ==> l'[i] == l[i - 1];
    }
  }

  lemma OverOrphan(l: seq<Slot>, a: Pcbs, b: Pcbs, c: Slot, i: nat)
    requires a[c].state == KILLED && b == a[c := a[c].(state := ZOMBIE)] && c !in l && !WakesParent(a, c) && i < |l|
    ensures OrphanAt([c] + l, a, i + 1) <==> OrphanAt(l, b, i)
  {
    hide WakesParent, PcbFind, FreedAt;
    var l' := [c] + l;
    assert l'[i + 1] == l[i] && l[i] in l;
    SameWakes(a, b, c, l[i]);
    assert !FreedAt(l', a, 0) by {
      NotFreed(l', a);
    }
    if j :| 0 <= j < i && FreedAt(l, b, j) && ParentOf(b, l[i]) == l[j] {
      OverFreed(l, a, b, c, j);
      assert l'[j + 1] == l[j];
    }
    if j :| 0 <= j < i + 1 && FreedAt(l', a, j) && ParentOf(a, l'[i + 1]) == l'[j] {
      assert j > 0;
      OverFreed(l, a, b, c, j - 1);
      assert l'[j] == l[j - 1];
    }
  }

  lemma NotFreed(l: seq<Slot>, pcbs: Pcbs)
    requires l != [] && !WakesParent(pcbs, l[0])
    ensures !FreedAt(l, pcbs, 0)
  {
  }

  // ---- one round that delivers `c` to its parent `w` ----

  lemma ParentAfter(a: Pcbs, b: Pcbs, c: Slot, w: Slot, id: U32)
    requires Pids(a) && Delivered(a, b, c, w)
    ensures PcbFind(b, id, 0) == if PcbFind(a, id, 0) == c then N_PCBS else PcbFind(a, id, 0)
  {
    hide Pids;
    var p, q := PcbFind(a, id, 0), PcbFind(b, id, 0);
    assert p < N_PCBS && p != c ==> b[p].state != FREE && b[p].pid == id;
    if q < N_PCBS {
      assert q != c && a[q].state != FREE && a[q].pid == id;
      OneUnder(a, p, q);
    }
  }

  lemma OneUnder(a: Pcbs, p: Slot, q: Slot)
    requires Pids(a) && a[p].state != FREE && a[q].state != FREE && a[p].pid == a[q].pid
    ensures p == q
  {
  }

  lemma WakesAfter(a: Pcbs, b: Pcbs, c: Slot, w: Slot, x: Slot)
    requires Pids(a) && Delivered(a, b, c, w) && x != c && x != w
    ensures ParentOf(b, x) == if ParentOf(a, x) == c then N_PCBS else ParentOf(a, x)
    ensures WakesParent(b, x) <==> WakesParent(a, x) && ParentOf(a, x) != w
    ensures WakesParent(a, x) ==> ParentOf(a, x) != c
  {
    hide Pids, PcbFind;
    ParentAfter(a, b, c, w, a[x].ppid);
  }

  lemma WokenFreed(l: seq<Slot>, l2: seq<Slot>, a: Pcbs, b: Pcbs, c: Slot, w: Slot, j: nat)
    requires Pids(a) && Delivered(a, b, c, w) && c !in l && w !in l && j < |l| && j < |l2|
    requires WakesParent(a, c) && ParentOf(a, c) == w && forall i :: 0 <= i <= j ==> l2[i] == l[i]
    ensures FreedAt([c] + l, a, j + 1) <==> FreedAt(l2, b, j)
  {
    hide WakesParent, PcbFind, Pids, Delivered;
    var l' := [c] + l;
    forall i | 0 <= i <= j
      ensures l'[i + 1] == l2[i]
      ensures ParentOf(b, l2[i]) == if ParentOf(a, l2[i]) == c then N_PCBS else ParentOf(a, l2[i])
      ensures WakesParent(b, l2[i]) <==> WakesParent(a, l2[i]) && ParentOf(a, l2[i]) != w
      ensures WakesParent(a, l2[i]) ==> ParentOf(a, l2[i]) != c
    {
      assert l[i] in l;
      WakesAfter(a, b, c, w, l[i]);
    }
    assert l'[0] == c;
    if FreedAt(l', a, j + 1) {
      forall i | 0 <= i < j
        ensures !(WakesParent(b, l2[i]) && ParentOf(b, l2[i]) == ParentOf(b, l2[j]))
      {
        assert l'[i + 1] == l2[i];
      }
    }
    if FreedAt(l2, b, j) {
      forall i | 0 <= i < j + 1
        ensures !(WakesParent(a, l'[i]) && ParentOf(a, l'[i]) == ParentOf(a, l'[j + 1]))
      {
        assert i > 0 ==> l'[i] == l2[i - 1];
      }
    }
  }

  lemma WokenOrphan(l: seq<Slot>, l2: seq<Slot>, a: Pcbs, b: Pcbs, c: Slot, w: Slot, i: nat)
    requires Pids(a) && Delivered(a, b, c, w) && c !in l && w !in l && i < |l| && i < |l2|
    requires WakesParent(a, c) && ParentOf(a, c) == w && forall j :: 0 <= j <= i ==> l2[j] == l[j]
    ensures OrphanAt([c] + l, a, i + 1) <==> OrphanAt(l2, b, i)
  {
    hide WakesParent, PcbFind, Pids, Delivered, FreedAt;
    var l' := [c] + l;
    assert l[i] in l && l'[i + 1] == l2[i] && l'[0] == c;
    WakesAfter(a, b, c, w, l[i]);
    assert FreedAt(l', a, 0) by {
      FreedFirst(l', a);
    }
    if j :| 0 <= j < i && FreedAt(l2, b, j) && ParentOf(b, l2[i]) == l2[j] {
      WokenFreed(l, l2, a, b, c, w, j);
      assert l'[j + 1] == l2[j];
    }
    if j :| 0 <= j < i + 1 && FreedAt(l', a, j) && ParentOf(a, l'[i + 1]) == l'[j] {
      if j > 0 {
        WokenFreed(l, l2, a, b, c, w, j - 1);
        assert l'[j] == l2[j - 1] && l[j - 1] in l;
      }
    }
  }

  lemma FreedFirst(l: seq<Slot>, pcbs: Pcbs)
    requires l != [] && WakesParent(pcbs, l[0])
    ensures FreedAt(l, pcbs, 0)
  {
  }

  // ---- the dispatch ----

  /** Once the head `c` has been passed over, the others are orphans where they were, as far as the dispatch goes. */
  lemma Shifted(s: State, s2: State, c: Slot, l: seq<Slot>)
    requires ReadyList(s.qs) == [c] + l && ParentOf(s.pcbs, c) < N_PCBS
    requires var pick, next := PickFrom(s), PickFrom(s2);
             pick == if next.None? then None else Some((next.value.0, next.value.1 + 1))
    requires var l2, next := ReadyList(s2.qs), PickFrom(s2);
             && (if next.None? then l2 == l else next.value.1 <= |l| && next.value.1 <= |l2|)
             && forall i :: 0 <= i < |l| && i < |l2| && (next.Some? ==> i < next.value.1) ==>
                  (OrphanAt([c] + l, s.pcbs, i + 1) <==> OrphanAt(l2, s2.pcbs, i))
    ensures PassesOrphan(s) <==> PassesOrphan(s2)
  {
    hide PickFrom, ReadyList, PcbFind, FreedAt;
    var l', l2, next := [c] + l, ReadyList(s2.qs), PickFrom(s2);
    assert l'[0] == c && !OrphanAt(l', s.pcbs, 0);
    hide OrphanAt;
    if i :| 0 <= i < |l'| && (PickFrom(s).Some? ==> i < PickFrom(s).value.1) && OrphanAt(l', s.pcbs, i) {
      assert OrphanAt(l2, s2.pcbs, i - 1);
    }
    if i :| 0 <= i < |l2| && (next.Some? ==> i < next.value.1) && OrphanAt(l2, s2.pcbs, i) {
      assert OrphanAt(l', s.pcbs, i + 1);
    }
  }

  lemma OrphanRound(s: State)
    requires AllQueued(s) && Pids(s.pcbs) && FirstReady(s.qs, 0) < N_PRIORITIES
    requires var s1 := Popped(s); s.pcbs[s1.current].state == KILLED && Zombify(s1, s1.current).Ok?
    ensures PassesOrphan(s) <==> PassesOrphan(Zombify(Popped(s), Popped(s).current).s)
  {
    hide Pick, ReadyFrom, FirstReady, Core, PcbFind, Pids, Zombify, Deliver, OrphanAt, PassesOrphan;
    var s1 := Popped(s);
    var c, s2 := s1.current, Zombify(s1, s1.current).s;
    var l, parent := ReadyList(s1.qs), PcbFind(s1.pcbs, s1.pcbs[c].ppid, 0);
    PopsKilled(s);
    KilledRound(s);
    PopFrom(s.qs, 0, FirstReady(s.qs, 0));
    ReadyOnes(s1.qs, s1.pcbs, multiset{c});
    ZombifyTable(s1);
    if Wants(s1.pcbs[parent], s1.pcbs[c].pid) {
      OrphanWoken(s, c, parent);
    } else {
      ZombieQueues(s1);
      ReadyFromSame(s1.qs, s2.qs, 0);
      if PickFrom(s2).Some? {
        PickFits(s2);
      }
      forall i | 0 <= i < |l|
        ensures OrphanAt([c] + l, s.pcbs, i + 1) <==> OrphanAt(l, s2.pcbs, i)
      {
        OverOrphan(l, s.pcbs, s2.pcbs, c, i);
      }
      Shifted(s, s2, c, l);
    }
  }

  lemma OrphanWoken(s: State, c: Slot, w: Slot)
    requires AllQueued(s) && Pids(s.pcbs) && FirstReady(s.qs, 0) < N_PRIORITIES
    requires var s1 := Popped(s);
             && c == s1.current && s.pcbs[c].state == KILLED && Zombify(s1, c).Ok?
             && w == PcbFind(s.pcbs, s.pcbs[c].ppid, 0) && w < N_PCBS && Wants(s.pcbs[w], s.pcbs[c].pid)
    ensures PassesOrphan(s) <==> PassesOrphan(Zombify(Popped(s), c).s)
  {
    hide Pick, ReadyFrom, FirstReady, Core, Pids, Zombify, Deliver, PcbFind, OrphanAt, PassesOrphan;
    var s1 := Popped(s);
    var s2, l, m := Zombify(s1, c).s, ReadyList(s1.qs), |s1.qs[0]|;
    PopsKilled(s);
    KilledRound(s);
    PopFrom(s.qs, 0, FirstReady(s.qs, 0));
    UrgentPopped(s);
    ReadyOnes(s1.qs, s1.pcbs, multiset{c});
    ZombifyTable(s1);
    ZombifyDelivers(s1);
    DeliverTable(s1, w);
    PushUrgent(s1.qs, s2.qs, w);
    assert WakesParent(s.pcbs, c);
    PassAndWake(l, m, s.pcbs, s2.pcbs, |s.qs[0]|, c, w);
    forall i | 0 <= i < PickFrom(s2).value.1
      ensures OrphanAt([c] + l, s.pcbs, i + 1) <==> OrphanAt(ReadyList(s2.qs), s2.pcbs, i)
    {
      WokenOrphan(l, ReadyList(s2.qs), s.pcbs, s2.pcbs, c, w, i);
    }
    Shifted(s, s2, c, l);
  }

  /** A dispatch stops for want of a parent exactly when it passes over an orphan: one whose parent is not there, or
      one whose parent, killed too, is delivered to its own parent before. */
  lemma {:induction false} DispatchOrphans(s: State)
    requires AllQueued(s) && Pids(s.pcbs)
    ensures Dispatch(s) == Halt(NoParent) <==> PassesOrphan(s)
    decreases Killed(s.pcbs)
  {
    hide Core, Zombify, FirstReady, ReadyFrom, Pids, PassesOrphan, PcbFind;
    if FirstReady(s.qs, 0) == N_PRIORITIES {
      NothingReady(s.qs, 0);
      NobodyPassed(s);
    } else {
      var s1 := Popped(s);
      Pops(s);
      PopFrom(s.qs, 0, FirstReady(s.qs, 0));
      if s.pcbs[s1.current].state == READY {
        HeadReady(s);
        NobodyPassed(s);
      } else {
        Zombifies(s1);
        ZombifyFinds(s1);
        if Zombify(s1, s1.current).Ok? {
          PopsKilled(s);
          OrphanRound(s);
          DispatchOrphans(Zombify(s1, s1.current).s);
        } else {
          HeadOrphan(s);
        }
      }
    }
  }

  lemma NobodyPassed(s: State)
    requires ReadyList(s.qs) == [] || (PickFrom(s).Some? && PickFrom(s).value.1 == 0)
    ensures !PassesOrphan(s)
  {
  }

  lemma HeadOrphan(s: State)
    requires ReadyList(s.qs) != [] && s.pcbs[ReadyList(s.qs)[0]].state == KILLED
    requires ParentOf(s.pcbs, ReadyList(s.qs)[0]) == N_PCBS
    ensures PassesOrphan(s)
  {
    hide PcbFind, ReadyList;
    assert OrphanAt(ReadyList(s.qs), s.pcbs, 0);
  }
}
