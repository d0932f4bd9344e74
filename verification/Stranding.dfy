/** Init is the exception to "no wake-up is lost", and exactly when. */
module Stranding {
  import opened Defs
  import opened QueueSpec
  import opened KernelSpec
  import opened Placement
  import opened Safety
  import opened Frames
  import opened Families
  import opened Scheduling
  import opened Scenarios

  /** Waiting for a child of its own that is a zombie already, init included. */
  predicate Stranded(parent: Pcb, child: Pcb) {
    child.state == ZOMBIE && child.ppid == parent.pid && Wants(parent, child.pid)
  }

  ghost predicate SomeoneStranded(pcbs: Pcbs) {
    exists p, z :: 0 <= p < N_PCBS && 0 <= z < N_PCBS && Stranded(pcbs[p], pcbs[z])
  }

  /** Process `c` has a zombie child that init is waiting for. */
  ghost predicate HandsOverZombie(pcbs: Pcbs, c: Slot) {
    exists i, z :: 0 <= i < N_PCBS && 0 <= z < N_PCBS && HandedOver(pcbs[i], pcbs[z], pcbs[c].pid)
  }

  predicate HandedOver(init: Pcb, zombie: Pcb, parent: U32) {
    init.pid == PID_INIT && zombie.state == ZOMBIE && zombie.ppid == parent && Wants(init, zombie.pid)
  }

  /** Process `c` is a child of init that init is waiting for. */
  ghost predicate WakesInit(pcbs: Pcbs, c: Slot) {
    exists i :: 0 <= i < N_PCBS && Awaited(pcbs[i], pcbs[c])
  }

  predicate Awaited(init: Pcb, child: Pcb) {
    init.pid == PID_INIT && child.ppid == PID_INIT && Wants(init, child.pid)
  }

  /** An exit, by any process but init, strands a waiter exactly when it hands init a zombie that init is
      waiting for and does not itself end that wait. */
  lemma ExitStrandsInit(s: State)
    requires Inv(s) && Pids(s.pcbs) && !SomeoneStranded(s.pcbs) && s.pcbs[s.current].pid != PID_INIT
    requires var s1 := s.(pcbs := Reparent(s.pcbs, s.pcbs[s.current].pid)); Zombify(s1, s1.current).Ok?
    ensures var s1 := s.(pcbs := Reparent(s.pcbs, s.pcbs[s.current].pid));
            SomeoneStranded(Zombify(s1, s1.current).s.pcbs)
            <==> HandsOverZombie(s.pcbs, s.current) && !WakesInit(s1.pcbs, s.current)
  {
    NobodyStranded(s.pcbs);
    var s1 := s.(pcbs := Reparent(s.pcbs, s.pcbs[s.current].pid));
    Rewrite(s.qs, s.pcbs, s1.pcbs, multiset{s.current});
    BenignKeeps(s.pcbs, s1.pcbs, PID_INIT);
    ZombifyTable(s1);
    var r, parent := Zombify(s1, s1.current).s.pcbs, PcbFind(s1.pcbs, s1.pcbs[s.current].ppid, 0);
    if SomeoneStranded(r) {
      StrandedWhy(s.pcbs, s1.pcbs, r, s.current, parent);
    }
    if HandsOverZombie(s.pcbs, s.current) && !WakesInit(s1.pcbs, s.current) {
      HandedOverStrands(s.pcbs, s1.pcbs, r, s.current, parent);
    }
  }

  /** The PCBs before an exit, after its reparenting, and after its `_zombify`. */
  ghost predicate ExitTables(a: Pcbs, b: Pcbs, r: Pcbs, c: Slot, parent: Slot) {
    && b == Reparent(a, a[c].pid) && Pids(b)
    && a[c].pid != PID_INIT && IsCurrent(a[c]) && b[parent].state != FREE && b[parent].pid == b[c].ppid
    && if Wants(b[parent], b[c].pid) then
         && r[parent].state == READY && r[c] == ZeroPcb && parent != c
         && (forall p :: 0 <= p < N_PCBS && p != parent && p != c ==> r[p] == b[p])
       else r == b[c := b[c].(state := ZOMBIE)]
  }

  lemma StrandedWhy(a: Pcbs, b: Pcbs, r: Pcbs, c: Slot, parent: Slot)
    requires ExitTables(a, b, r, c, parent) && !SomeoneStranded(a) && SomeoneStranded(r)
    ensures HandsOverZombie(a, c) && !WakesInit(b, c)
  {
    var p, z :| 0 <= p < N_PCBS && 0 <= z < N_PCBS && Stranded(r[p], r[z]);
    assert !Stranded(a[p], a[z]);
    assert p != c && z != c;
    assert HandedOver(a[p], a[z], a[c].pid);
    hide HandsOverZombie, SomeoneStranded;
    NotAwaited(a, b, r, c, parent, p);
  }

  /** Init is still waiting, so that it was not waiting for `c`. */
  lemma NotAwaited(a: Pcbs, b: Pcbs, r: Pcbs, c: Slot, parent: Slot, p: Slot)
    requires ExitTables(a, b, r, c, parent) && r[p].state == WAITING && a[p].pid == PID_INIT && p != c
    ensures !WakesInit(b, c)
  {
    forall i | 0 <= i < N_PCBS
      ensures !Awaited(b[i], b[c])
    {
    }
  }

  lemma HandedOverStrands(a: Pcbs, b: Pcbs, r: Pcbs, c: Slot, parent: Slot)
    requires ExitTables(a, b, r, c, parent) && HandsOverZombie(a, c) && !WakesInit(b, c)
    ensures SomeoneStranded(r)
  {
    var i, z :| 0 <= i < N_PCBS && 0 <= z < N_PCBS && HandedOver(a[i], a[z], a[c].pid);
    assert !Awaited(b[i], b[c]);
    assert Stranded(r[i], r[z]);
  }

  // ---- the dispatch that ends the exit, and every other step ----

  /** Leaving nobody out of account says that nobody is stranded. */
  lemma NobodyStranded(pcbs: Pcbs)
    ensures NoLostWakeup(pcbs, NOBODY) <==> !SomeoneStranded(pcbs)
    ensures NoLostWakeup(pcbs, NOBODY) ==> NoLostWakeup(pcbs, PID_INIT)
  {
    if NoLostWakeup(pcbs, NOBODY) {
      forall p, z | 0 <= p < N_PCBS && 0 <= z < N_PCBS
        ensures !Stranded(pcbs[p], pcbs[z])
      {
        assert !Lost(pcbs[p], pcbs[z], NOBODY);
      }
      forall p, z | 0 <= p < N_PCBS && 0 <= z < N_PCBS
        ensures !Lost(pcbs[p], pcbs[z], PID_INIT)
      {
        assert !Lost(pcbs[p], pcbs[z], NOBODY);
      }
    } else {
      var p, z :| 0 <= p < N_PCBS && 0 <= z < N_PCBS && Lost(pcbs[p], pcbs[z], NOBODY);
      assert Stranded(pcbs[p], pcbs[z]);
    }
  }

  /** Among the first `k` processes on the list is a child of init that init is waiting for. */
  ghost predicate WakesInitAmong(l: seq<Slot>, pcbs: Pcbs, k: nat)
    requires k <= |l|
  {
    exists i :: 0 <= i < k && WakesInit(pcbs, l[i])
  }

  /** The KILLED processes that a dispatch passes over include such a child: its delivery ends init's wait. */
  ghost predicate Rescued(s: State) {
    var pick := PickFrom(s);
    pick.Some? && pick.value.1 <= |ReadyList(s.qs)| && WakesInitAmong(ReadyList(s.qs), s.pcbs, pick.value.1)
  }

  /** A PCB that is neither a waiter nor a zombie, before and after, is not part of a stranding. */
  predicate Aside(a: Pcb, b: Pcb) {
    a.state != WAITING && a.state != ZOMBIE && b.state != WAITING && b.state != ZOMBIE
  }

  lemma SameStranded(a: Pcbs, b: Pcbs)
    requires forall p :: 0 <= p < N_PCBS ==> b[p] == a[p] || Aside(a[p], b[p])
    ensures SomeoneStranded(b) <==> SomeoneStranded(a)
  {
    if SomeoneStranded(a) {
      var p, z :| 0 <= p < N_PCBS && 0 <= z < N_PCBS && Stranded(a[p], a[z]);
      assert Stranded(b[p], b[z]);
    }
    if SomeoneStranded(b) {
      var p, z :| 0 <= p < N_PCBS && 0 <= z < N_PCBS && Stranded(b[p], b[z]);
      assert Stranded(a[p], a[z]);
    }
  }

  predicate WaitingInit(pcb: Pcb) {
    pcb.pid == PID_INIT && pcb.state == WAITING
  }

  /** Whether init waits for `x` depends on init alone. */
  lemma SameAwaited(a: Pcbs, b: Pcbs, x: Slot)
    requires b[x].ppid == a[x].ppid && b[x].pid == a[x].pid
    requires forall i :: 0 <= i < N_PCBS && (WaitingInit(a[i]) || WaitingInit(b[i])) ==> b[i] == a[i]
    ensures WakesInit(b, x) <==> WakesInit(a, x)
  {
    if WakesInit(a, x) {
      var i :| 0 <= i < N_PCBS && Awaited(a[i], a[x]);
      assert Awaited(b[i], b[x]);
    }
    if WakesInit(b, x) {
      var i :| 0 <= i < N_PCBS && Awaited(b[i], b[x]);
      assert Awaited(a[i], a[x]);
    }
  }

  /** The parent found is the only process in use under its PID. */
  lemma OnlyParent(a: Pcbs, c: Slot, p: Slot)
    requires Pids(a) && PcbFind(a, a[c].ppid, 0) < N_PCBS && a[p].state != FREE && a[p].pid == a[c].ppid
    ensures p == PcbFind(a, a[c].ppid, 0)
  {
  }

  /** Passing over `c`, which becomes a zombie its parent does not want. */
  lemma StrandedOver(a: Pcbs, b: Pcbs, c: Slot)
    requires Pids(a) && a[c].state == KILLED && b == a[c := a[c].(state := ZOMBIE)]
    requires var parent := PcbFind(a, a[c].ppid, 0); parent < N_PCBS && !Wants(a[parent], a[c].pid)
    ensures (SomeoneStranded(b) <==> SomeoneStranded(a)) && !WakesInit(a, c)
  {
    hide PcbFind, Pids;
    forall p: Slot | a[p].state == WAITING && a[p].pid == a[c].ppid
      ensures !Wants(a[p], a[c].pid)
    {
      OnlyParent(a, c, p);
    }
    if SomeoneStranded(a) {
      var p, z :| 0 <= p < N_PCBS && 0 <= z < N_PCBS && Stranded(a[p], a[z]);
      assert Stranded(b[p], b[z]);
    }
    if SomeoneStranded(b) {
      var p, z :| 0 <= p < N_PCBS && 0 <= z < N_PCBS && Stranded(b[p], b[z]);
      assert Stranded(a[p], a[z]);
    }
  }

  /** Passing over `c`, which is delivered to its waiting parent `w`. */
  ghost predicate Delivered(a: Pcbs, b: Pcbs, c: Slot, w: Slot) {
    && c != w && a[c].state == KILLED && Wants(a[w], a[c].pid) && a[w].pid == a[c].ppid
    && b[c] == ZeroPcb && b[w].state == READY && b[w].pid == a[w].pid && b[w].ppid == a[w].ppid
    && forall p :: 0 <= p < N_PCBS && p != c && p != w ==> b[p] == a[p]
  }

  lemma InitWoken(a: Pcbs, b: Pcbs, c: Slot, w: Slot)
    requires Delivered(a, b, c, w) && NoLostWakeup(b, PID_INIT) && Pids(a) && a[w].pid == PID_INIT
    ensures WakesInit(a, c) && !SomeoneStranded(b)
  {
    assert Awaited(a[w], a[c]);
    forall p, z | 0 <= p < N_PCBS && 0 <= z < N_PCBS
      ensures !Stranded(b[p], b[z])
    {
      assert !Lost(b[p], b[z], PID_INIT);
      assert b[p].state == WAITING ==> a[p].pid != a[w].pid;
    }
  }

  lemma OtherWoken(a: Pcbs, b: Pcbs, c: Slot, w: Slot)
    requires Delivered(a, b, c, w) && NoLostWakeup(a, PID_INIT) && a[w].pid != PID_INIT
    ensures !WakesInit(a, c) && (SomeoneStranded(b) <==> SomeoneStranded(a))
  {
    if SomeoneStranded(b) {
      var p, z :| 0 <= p < N_PCBS && 0 <= z < N_PCBS && Stranded(b[p], b[z]);
      assert Stranded(a[p], a[z]);
    }
    if SomeoneStranded(a) {
      var p, z :| 0 <= p < N_PCBS && 0 <= z < N_PCBS && Stranded(a[p], a[z]);
      assert !Lost(a[p], a[z], PID_INIT);
      assert Stranded(b[p], b[z]);
    }
  }

  // ---- the dispatch ----

  lemma AmongCons(c: Slot, l: seq<Slot>, a: Pcbs, b: Pcbs, k: nat)
    requires k <= |l| && forall i :: 0 <= i < k ==> (WakesInit(b, l[i]) <==> WakesInit(a, l[i]))
    ensures WakesInitAmong([c] + l, a, k + 1) <==> WakesInit(a, c) || WakesInitAmong(l, b, k)
  {
    hide WakesInit;
    var l' := [c] + l;
    if WakesInitAmong(l', a, k + 1) {
      var i :| 0 <= i < k + 1 && WakesInit(a, l'[i]);
      assert i > 0 ==> l'[i] == l[i - 1];
    }
    if WakesInit(a, c) {
      assert l'[0] == c;
    }
    if WakesInitAmong(l, b, k) {
      var i :| 0 <= i < k && WakesInit(b, l[i]);
      assert l'[i + 1] == l[i];
    }
  }

  lemma AmongPrefix(l: seq<Slot>, l': seq<Slot>, a: Pcbs, k: nat)
    requires k <= |l| && k <= |l'| && forall i :: 0 <= i < k ==> l'[i] == l[i]
    ensures WakesInitAmong(l', a, k) <==> WakesInitAmong(l, a, k)
  {
    hide WakesInit;
    if WakesInitAmong(l, a, k) {
      var i :| 0 <= i < k && WakesInit(a, l[i]);
      assert WakesInit(a, l'[i]);
    }
  }

  lemma PickWithin(l: seq<Slot>, pcbs: Pcbs, urgent: nat)
    requires urgent <= |l| && Pick(l, pcbs, urgent).Some?
    ensures Pick(l, pcbs, urgent).value.1 <= |l|
  {
    hide WakesParent, FirstReadyOn, FirstWaker, PcbFind;
  }

  /** Another round, `rest`, picks what this one picks, having one process fewer to pass over. */
  ghost predicate PicksAfter(s: State, rest: State) {
    var pick, next := PickFrom(s), PickFrom(rest);
    && pick.Some? && next.Some? && pick.value.1 == next.value.1 + 1
    && pick.value.1 <= |ReadyList(s.qs)| && next.value.1 <= |ReadyList(rest.qs)|
  }

  lemma RoundOver(s: State, s2: State, l: seq<Slot>, c: Slot)
    requires ReadyList(s.qs) == [c] + l && ReadyList(s2.qs) == l && PicksAfter(s, s2) && Pids(s.pcbs)
    requires s.pcbs[c].state == KILLED && s2.pcbs == s.pcbs[c := s.pcbs[c].(state := ZOMBIE)]
    requires var parent := PcbFind(s.pcbs, s.pcbs[c].ppid, 0); parent < N_PCBS && !Wants(s.pcbs[parent], s.pcbs[c].pid)
    ensures SomeoneStranded(s.pcbs) && !Rescued(s) <==> SomeoneStranded(s2.pcbs) && !Rescued(s2)
  {
    hide Pids, PcbFind, WakesInit, SomeoneStranded, PickFrom, ReadyList, WakesInitAmong;
    var k := PickFrom(s2).value.1;
    StrandedOver(s.pcbs, s2.pcbs, c);
    forall i | 0 <= i < k
      ensures WakesInit(s2.pcbs, l[i]) <==> WakesInit(s.pcbs, l[i])
    {
      SameAwaited(s.pcbs, s2.pcbs, l[i]);
    }
    AmongCons(c, l, s.pcbs, s2.pcbs, k);
  }

  lemma RoundWoken(s: State, s2: State, l: seq<Slot>, m: nat, c: Slot, w: Slot)
    requires m <= |l| && ReadyList(s.qs) == [c] + l && ReadyList(s2.qs) == l[..m] + [w] + l[m..] && PicksAfter(s, s2)
    requires PickFrom(s2).value.1 <= m && c !in l && w !in l
    requires Pids(s.pcbs) && NoLostWakeup(s.pcbs, PID_INIT) && NoLostWakeup(s2.pcbs, PID_INIT)
    requires Delivered(s.pcbs, s2.pcbs, c, w)
    ensures SomeoneStranded(s.pcbs) && !Rescued(s) <==> SomeoneStranded(s2.pcbs) && !Rescued(s2)
  {
    hide Pids, PcbFind, WakesInit, SomeoneStranded, PickFrom, ReadyList, NoLostWakeup;
    var k := PickFrom(s2).value.1;
    if s.pcbs[w].pid == PID_INIT {
      InitWoken(s.pcbs, s2.pcbs, c, w);
      assert ([c] + l)[0] == c;
    } else {
      hide WakesInitAmong;
      OtherWoken(s.pcbs, s2.pcbs, c, w);
      forall i | 0 <= i < k
        ensures WakesInit(s2.pcbs, l[i]) <==> WakesInit(s.pcbs, l[i])
      {
        assert l[i] in l;
        SameAwaited(s.pcbs, s2.pcbs, l[i]);
      }
      AmongCons(c, l, s.pcbs, s2.pcbs, k);
      AmongPrefix(l, l[..m] + [w] + l[m..], s2.pcbs, k);
    }
  }

  /** One round that passes over a KILLED process. */
  lemma StrandedRound(s: State)
    requires AllQueued(s) && Kin(s, PID_INIT) && FirstReady(s.qs, 0) < N_PRIORITIES
    requires var s1 := Popped(s); s.pcbs[s1.current].state == KILLED && Zombify(s1, s1.current).Ok?
    requires PickFrom(Zombify(Popped(s), Popped(s).current).s).Some?
    ensures var s2 := Zombify(Popped(s), Popped(s).current).s;
            SomeoneStranded(s.pcbs) && !Rescued(s) <==> SomeoneStranded(s2.pcbs) && !Rescued(s2)
  {
    hide Pick, ReadyFrom, FirstReady, Core, PcbFind, Pids, Zombify, Deliver, NoLostWakeup, SomeoneStranded, Rescued;
    var s1 := Popped(s);
    var c, s2 := s1.current, Zombify(s1, s1.current).s;
    var l, parent := ReadyList(s1.qs), PcbFind(s1.pcbs, s1.pcbs[c].ppid, 0);
    PopsKilled(s);
    PopsKin(s, PID_INIT);
    KilledRound(s);
    PopFrom(s.qs, 0, FirstReady(s.qs, 0));
    PickFits(s);
    PickFits(s2);
    ZombifyTable(s1);
    if Wants(s1.pcbs[parent], s1.pcbs[c].pid) {
      StrandedWoken(s, c, parent);
    } else {
      ZombieQueues(s1);
      ReadyFromSame(s1.qs, s2.qs, 0);
      RoundOver(s, s2, l, c);
    }
  }

  lemma PickFits(s: State)
    requires PickFrom(s).Some?
    ensures PickFrom(s).value.1 <= |ReadyList(s.qs)|
  {
    assert |s.qs[0]| <= |ReadyList(s.qs)|;
    PickWithin(ReadyList(s.qs), s.pcbs, |s.qs[0]|);
  }

  lemma StrandedWoken(s: State, c: Slot, w: Slot)
    requires AllQueued(s) && Kin(s, PID_INIT) && FirstReady(s.qs, 0) < N_PRIORITIES
    requires var s1 := Popped(s);
             && c == s1.current && s.pcbs[c].state == KILLED && Zombify(s1, c).Ok? && PicksAfter(s, Zombify(s1, c).s)
             && w == PcbFind(s.pcbs, s.pcbs[c].ppid, 0) && w < N_PCBS && Wants(s.pcbs[w], s.pcbs[c].pid)
    ensures var s2 := Zombify(Popped(s), c).s;
            SomeoneStranded(s.pcbs) && !Rescued(s) <==> SomeoneStranded(s2.pcbs) && !Rescued(s2)
  {
    hide Pick, ReadyFrom, FirstReady, Core, Pids, Zombify, Deliver, NoLostWakeup, SomeoneStranded, Rescued, PcbFind;
    var s1 := Popped(s);
    var s2, l, m := Zombify(s1, c).s, ReadyList(s1.qs), |s1.qs[0]|;
    PopsKilled(s);
    PopsKin(s, PID_INIT);
    PopFrom(s.qs, 0, FirstReady(s.qs, 0));
    UrgentPopped(s);
    ReadyOnes(s1.qs, s1.pcbs, multiset{c});
    ZombifyTable(s1);
    ZombifyDelivers(s1);
    DeliverTable(s1, w);
    PushUrgent(s1.qs, s2.qs, w);
    assert WakesParent(s.pcbs, c);
    PassAndWake(l, m, s.pcbs, s2.pcbs, |s.qs[0]|, c, w);
    RoundWoken(s, s2, l, m, c, w);
  }

  /** The dispatch leaves a waiter stranded exactly when it starts with one and does not rescue init on the way. */
  lemma {:induction false} DispatchStrands(s: State)
    requires AllQueued(s) && Kin(s, PID_INIT) && Dispatch(s).Ok?
    ensures SomeoneStranded(Dispatch(s).s.pcbs) <==> SomeoneStranded(s.pcbs) && !Rescued(s)
    decreases Killed(s.pcbs)
  {
    hide Core, Zombify, FirstReady, ReadyFrom, SomeoneStranded, Rescued;
    var s1 := Popped(s);
    Pops(s);
    PopFrom(s.qs, 0, FirstReady(s.qs, 0));
    if s.pcbs[s1.current].state == READY {
      HeadReady(s);
      HeadNoRescue(s);
      SameStranded(s.pcbs, SetState(s1, s1.current, RUNNING).pcbs);
    } else {
      PopsKilled(s);
      PopsKin(s, PID_INIT);
      DispatchStrands(Zombify(s1, s1.current).s);
      DispatchPicks(Zombify(s1, s1.current).s);
      StrandedRound(s);
    }
  }

  lemma HeadNoRescue(s: State)
    requires PickFrom(s).Some? && PickFrom(s).value.1 == 0
    ensures !Rescued(s)
  {
  }

  // ---- every step ----

  /** The exit that a process is about to perform leaves init waiting for a zombie: it hands init a zombie that
      init is waiting for, does not itself end that wait, and the dispatch after it passes over no KILLED process
      that does. */
  ghost predicate StrandingExit(s: State) {
    var s1 := s.(pcbs := Reparent(s.pcbs, s.pcbs[s.current].pid));
    && HandsOverZombie(s.pcbs, s.current) && !WakesInit(s1.pcbs, s.current)
    && Zombify(s1, s1.current).Ok? && !Rescued(Zombify(s1, s1.current).s)
  }

  lemma ExitStrands(s: State)
    requires Inv(s) && Kin(s, PID_INIT) && !SomeoneStranded(s.pcbs) && s.pcbs[s.current].pid != PID_INIT && Exit(s).Ok?
    ensures SomeoneStranded(Exit(s).s.pcbs) <==> StrandingExit(s)
  {
    hide Core, Pids, NoLostWakeup, Dispatch, Zombify, SomeoneStranded, HandsOverZombie, WakesInit, Rescued;
    var s1 := s.(pcbs := Reparent(s.pcbs, s.pcbs[s.current].pid));
    ExitStrandsInit(s);
    AfterZombify(s);
    DispatchStrands(Zombify(s1, s1.current).s);
  }

  lemma AfterZombify(s: State)
    requires Inv(s) && Kin(s, PID_INIT)
    ensures var s1 := s.(pcbs := Reparent(s.pcbs, s.pcbs[s.current].pid));
            var r := Zombify(s1, s1.current); r.Ok? ==> AllQueued(r.s) && Kin(r.s, PID_INIT)
  {
    hide Core, NoLostWakeup, Zombify;
    var s1 := s.(pcbs := Reparent(s.pcbs, s.pcbs[s.current].pid));
    Rewrite(s.qs, s.pcbs, s1.pcbs, multiset{s.current});
    BenignKeeps(s.pcbs, s1.pcbs, PID_INIT);
    Zombifies(s1);
    ZombifyKin(s1, PID_INIT);
  }

  /** Starting with nobody stranded, a step strands somebody exactly when it is such an exit.  Every other step, be
      it a kill, a `wait`, a tick, a fork or init's own exit, leaves nobody waiting for a zombie child. */
  lemma StepStrands(s: State, ev: Event)
    requires Inv(s) && Pids(s.pcbs) && !SomeoneStranded(s.pcbs) && Step(s, ev).Ok?
    ensures SomeoneStranded(Step(s, ev).s.pcbs)
            <==> Exits(s, ev) && StrandingExit(Trap(s, ev.code, ev.arg1, ev.infoPid))
  {
    hide Perform, Clock, Receive, Core, NoLostWakeup, SomeoneStranded, StrandingExit, Pids;
    NobodyStranded(s.pcbs);
    if Exits(s, ev) {
      ExitStep(s, ev);
    } else if Starts(s, ev) {
      StartStrands(s, ev);
    } else {
      StepKin(s, ev, NOBODY);
      NobodyStranded(Step(s, ev).s.pcbs);
    }
  }

  /** A new process is neither a waiter nor a zombie, whatever its PID. */
  lemma StartStrands(s: State, ev: Event)
    requires Inv(s) && Starts(s, ev) && Step(s, ev).Ok?
    ensures SomeoneStranded(Step(s, ev).s.pcbs) <==> SomeoneStranded(s.pcbs)
  {
    hide Core, Fork, SomeoneStranded;
    var s0 := Trap(s, ev.code, ev.arg1, ev.infoPid);
    Rewrite(s.qs, s.pcbs, s0.pcbs, multiset{s.current});
    ForkTable(s0);
    UnusedIsFree(s0);
    SameStranded(s.pcbs, Step(s, ev).s.pcbs);
  }

  lemma UnusedIsFree(s: State)
    requires Inv(s) && s.qs[PCBS] != []
    ensures s.pcbs[s.qs[PCBS][0].data].state == FREE
  {
    assert Fits(s.pcbs[s.qs[PCBS][0].data], PCBS, s.qs[PCBS][0].key);
  }

  lemma ExitStep(s: State, ev: Event)
    requires Inv(s) && Kin(s, PID_INIT) && !SomeoneStranded(s.pcbs) && Exits(s, ev) && Step(s, ev).Ok?
    ensures SomeoneStranded(Step(s, ev).s.pcbs) <==> StrandingExit(Trap(s, ev.code, ev.arg1, ev.infoPid))
  {
    hide Exit, Core, NoLostWakeup, SomeoneStranded, StrandingExit;
    var s0 := Trap(s, ev.code, ev.arg1, ev.infoPid);
    Rewrite(s.qs, s.pcbs, s0.pcbs, multiset{s.current});
    BenignKeeps(s.pcbs, s0.pcbs, PID_INIT);
    SameStranded(s.pcbs, s0.pcbs);
    ExitStrands(s0);
  }

  // ---- a run that strands init ----

  const STRAND: seq<Event> := [FORK, WAIT, FORK, TICK] + [FORK, TICK, TICK] + [EXIT, EXIT]

  /** Init starts a child and waits; the child starts one. */
  lemma StrandBegins(b: State)
    requires Reaches(b, [], [Proc(1, FREE)], 0, [])
    ensures Reaches(b, [FORK, WAIT, FORK, TICK], [Proc(1, WAITING), Proc(1, READY), Proc(2, RUNNING)], 2, [1])
  {
    hide Run, Reaches;
    ForksAfter(b, [], [Proc(1, FREE)], 0, []);
    var e1, p1 := [] + [FORK], [Proc(1, FREE)] + [Proc(1, READY)];
    assert [] + [1] == [1];
    WaitsAfter(b, e1, p1, 0, [1]);
    var p2 := [Proc(1, WAITING), Proc(1, RUNNING)];
    assert As(As(p1, 0, WAITING), 1, RUNNING) == p2 && [1][1..] == [];
    ForksAfter(b, e1 + [WAIT], p2, 1, []);
    var p3 := p2 + [Proc(2, READY)];
    assert [] + [2] == [2];
    TicksAfter(b, e1 + [WAIT] + [FORK], p3, 1, [2]);
    assert [2] + [1] == [2, 1] && [2, 1][1..] == [1];
    assert As(As(p3, 1, READY), 2, RUNNING) == [Proc(1, WAITING), Proc(1, READY), Proc(2, RUNNING)];
    assert e1 + [WAIT] + [FORK] + [TICK] == [FORK, WAIT, FORK, TICK];
  }

  /** The grandchild starts a child of its own, which comes to run. */
  lemma StrandGoesOn(b: State, e: seq<Event>)
    requires Reaches(b, e, [Proc(1, WAITING), Proc(1, READY), Proc(2, RUNNING)], 2, [1])
    ensures Reaches(b, e + [FORK, TICK, TICK],
                    [Proc(1, WAITING), Proc(1, READY), Proc(2, READY), Proc(3, RUNNING)], 3, [2, 1])
  {
    hide Run, Reaches;
    var p0 := [Proc(1, WAITING), Proc(1, READY), Proc(2, RUNNING)];
    ForksAfter(b, e, p0, 2, [1]);
    var p1 := p0 + [Proc(3, READY)];
    assert [1] + [3] == [1, 3];
    TicksAfter(b, e + [FORK], p1, 2, [1, 3]);
    assert [1, 3] + [2] == [1, 3, 2] && [1, 3, 2][1..] == [3, 2];
    var p2 := [Proc(1, WAITING), Proc(1, RUNNING), Proc(2, READY), Proc(3, READY)];
    assert As(As(p1, 2, READY), 1, RUNNING) == p2;
    TicksAfter(b, e + [FORK] + [TICK], p2, 1, [3, 2]);
    assert [3, 2] + [1] == [3, 2, 1] && [3, 2, 1][1..] == [2, 1];
    assert As(As(p2, 1, READY), 3, RUNNING) == [Proc(1, WAITING), Proc(1, READY), Proc(2, READY), Proc(3, RUNNING)];
    assert e + [FORK] + [TICK] + [TICK] == e + [FORK, TICK, TICK];
  }

  /** It exits, and then its parent does: init inherits the zombie. */
  lemma StrandEnds(b: State, e: seq<Event>)
    requires Reaches(b, e, [Proc(1, WAITING), Proc(1, READY), Proc(2, READY), Proc(3, RUNNING)], 3, [2, 1])
    ensures Reaches(b, e + [EXIT, EXIT], [Proc(1, WAITING), Proc(1, RUNNING), Proc(2, ZOMBIE), Proc(1, ZOMBIE)], 1, [])
  {
    hide Run, Reaches;
    var p0 := [Proc(1, WAITING), Proc(1, READY), Proc(2, READY), Proc(3, RUNNING)];
    ExitsAfter(b, e, p0, 3, [2, 1]);
    var p1 := [Proc(1, WAITING), Proc(1, READY), Proc(2, RUNNING), Proc(3, ZOMBIE)];
    assert As(As(Reparented(p0, 4), 3, ZOMBIE), 2, RUNNING) == p1 && [2, 1][1..] == [1];
    ExitsAfter(b, e + [EXIT], p1, 2, [1]);
    assert As(As(Reparented(p1, 3), 2, ZOMBIE), 1, RUNNING)
        == [Proc(1, WAITING), Proc(1, RUNNING), Proc(2, ZOMBIE), Proc(1, ZOMBIE)];
    assert [1][1..] == [];
    assert e + [EXIT] + [EXIT] == e + [EXIT, EXIT];
  }

  /** In this run from boot init ends up waiting, for any child, with the zombie of process 4 as its child. */
  lemma InitStranded()
    ensures var r := Run(Boot(), STRAND);
            r.Ok? && r.s.pcbs[0].pid == PID_INIT && r.s.pcbs[3].pid == 4 && Stranded(r.s.pcbs[0], r.s.pcbs[3])
  {
    hide Run, Boot;
    var b := Boot();
    AtBoot();
    StrandBegins(b);
    StrandGoesOn(b, [FORK, WAIT, FORK, TICK]);
    StrandEnds(b, [FORK, WAIT, FORK, TICK] + [FORK, TICK, TICK]);
    StrandedShape(Run(b, STRAND).s);
  }

  lemma StrandedShape(s: State)
    requires Shape(s, [Proc(1, WAITING), Proc(1, RUNNING), Proc(2, ZOMBIE), Proc(1, ZOMBIE)], 1, [])
    ensures s.pcbs[0].pid == PID_INIT && s.pcbs[3].pid == 4 && Stranded(s.pcbs[0], s.pcbs[3])
  {
    var procs := [Proc(1, WAITING), Proc(1, RUNNING), Proc(2, ZOMBIE), Proc(1, ZOMBIE)];
    assert Like(s.pcbs[0], procs[0], 0) && Like(s.pcbs[3], procs[3], 3);
  }
}
