/** PIDs, parents and waiting: distinct PIDs, and no wake-up lost between `wait` and `exit`. */
module Families {
  import opened Defs
  import opened QueueSpec
  import opened KernelSpec
  import opened Placement
  import opened Safety
  import opened Frames

  /** PIDs in use are distinct. */
  ghost predicate DistinctPids(pcbs: Pcbs) {
    forall p, q :: 0 <= p < q < N_PCBS && pcbs[p].stack.Some? && pcbs[q].stack.Some? ==> pcbs[p].pid != pcbs[q].pid
  }

  ghost predicate Pids(pcbs: Pcbs) {
    DistinctPids(pcbs) && forall p :: 0 <= p < N_PCBS && pcbs[p].stack.None? ==> pcbs[p].state == FREE
  }

  /** A process in use has this PID. */
  ghost predicate InUse(pcbs: Pcbs, pid: U32) {
    exists p :: 0 <= p < N_PCBS && Holds(pcbs[p], pid)
  }

  predicate Holds(pcb: Pcb, pid: U32) {
    pcb.stack.Some? && pcb.pid == pid
  }

  /** The step starts a process under a PID that is in use. */
  ghost predicate Clashes(s: State, ev: Event) {
    Starts(s, ev) && InUse(s.pcbs, s.nextPid)
  }

  const NOBODY: int := -1

  /** Nobody, leaving the process with PID `w` out of account, is blocked in `wait` for a child of its own that is
      a zombie already.  With PID_INIT for `w` every step without a clash keeps this; with NOBODY, every such step
      but one, and `Stranding` says which. */
  ghost predicate NoLostWakeup(pcbs: Pcbs, w: int) {
    forall p, z :: 0 <= p < N_PCBS && 0 <= z < N_PCBS ==> !Lost(pcbs[p], pcbs[z], w)
  }

  predicate Lost(parent: Pcb, child: Pcb, w: int) {
    parent.pid != w && child.state == ZOMBIE && child.ppid == parent.pid && Wants(parent, child.pid)
  }

  /** Handing a child to init loses no wake-up as long as init is the one left out of account. */
  predicate Adopted(b: Pcb, w: int) {
    w == PID_INIT && b.ppid == PID_INIT
  }

  /** One PCB before and after a move that cannot lose a wake-up. */
  predicate Benign(a: Pcb, b: Pcb, w: int) {
    && (b == ZeroPcb || (b.stack == a.stack && b.pid == a.pid && (b.ppid == a.ppid || Adopted(b, w))))
    && (b.state != FREE ==> a.stack.Some?)
    && (b.state == WAITING ==> a.state == WAITING && b.user.infoPid == a.user.infoPid)
    && (b.state == ZOMBIE ==> a.state == ZOMBIE)
  }

  ghost predicate AllBenign(pcbs: Pcbs, pcbs': Pcbs, w: int) {
    forall p :: 0 <= p < N_PCBS ==> Benign(pcbs[p], pcbs'[p], w)
  }

  ghost predicate Kin(s: State, w: int) {
    Pids(s.pcbs) && NoLostWakeup(s.pcbs, w)
  }

  lemma BenignKeeps(pcbs: Pcbs, pcbs': Pcbs, w: int)
    requires Pids(pcbs) && NoLostWakeup(pcbs, w)
    requires AllBenign(pcbs, pcbs', w)
    ensures Pids(pcbs') && NoLostWakeup(pcbs', w)
  {
    forall p, z | 0 <= p < N_PCBS && 0 <= z < N_PCBS
      ensures !Lost(pcbs'[p], pcbs'[z], w)
    {
      assert Benign(pcbs[p], pcbs'[p], w) && Benign(pcbs[z], pcbs'[z], w) && !Lost(pcbs[p], pcbs[z], w);
    }
    forall p | 0 <= p < N_PCBS
      ensures Benign(pcbs[p], pcbs'[p], w)
    {
    }
  }

  /** The queue entry found under a waiting process's PID is that process. */
  lemma WaiterIsParent(s: State, held: multiset<Slot>, p: Slot)
    requires Core(s.qs, s.pcbs, held) && p !in held && s.pcbs[p].state == WAITING
    requires Pids(s.pcbs)
    ensures var i := KeyIndex(s.qs[WAITERS], DisciplineOf(WAITERS), s.pcbs[p].pid);
            i < |s.qs[WAITERS]| && s.qs[WAITERS][i].data == p
  {
    WaiterQueued(s, held, p);
    var i := KeyIndex(s.qs[WAITERS], DisciplineOf(WAITERS), s.pcbs[p].pid);
    var woken := s.qs[WAITERS][i].data;
    assert Fits(s.pcbs[woken], WAITERS, s.qs[WAITERS][i].key);
  }

  lemma ZombieIsTarget(s: State, held: multiset<Slot>, z: Slot)
    requires Core(s.qs, s.pcbs, held) && z !in held && s.pcbs[z].state == ZOMBIE
    requires Pids(s.pcbs)
    ensures var i := KeyIndex(s.qs[ZOMBIES], DisciplineOf(ZOMBIES), s.pcbs[z].pid);
            i < |s.qs[ZOMBIES]| && s.qs[ZOMBIES][i].data == z
  {
    ZombieQueued(s, held, z);
    var i := KeyIndex(s.qs[ZOMBIES], DisciplineOf(ZOMBIES), s.pcbs[z].pid);
    var found := s.qs[ZOMBIES][i].data;
    assert Fits(s.pcbs[found], ZOMBIES, s.qs[ZOMBIES][i].key);
  }

  /** What a delivery does, whatever the PIDs: `parent` is told, the process found on the waiting queue under its PID
      is made ready, and the current process is freed. */
  ghost predicate Delivery(s: State, parent: Slot, woken: Slot, r: State) {
    var me, par := s.pcbs[s.current], s.pcbs[parent];
    var told := s.pcbs[parent := par.(user := par.user.(infoPid := me.pid, infoStatus := me.user.arg))];
    && r.pcbs == told[s.current := ZeroPcb][woken := told[woken].(state := READY)]
    && r.qs[0] == s.qs[0] + [Entry(0, woken)] && r.nextPid == s.nextPid
    && forall q :: 0 < q < WAITERS ==> r.qs[q] == s.qs[q]
  }

  lemma DeliverMoves(s: State, parent: Slot) returns (woken: Slot)
    requires Core(s.qs, s.pcbs, multiset{s.current}) && parent != s.current && s.pcbs[parent].state == WAITING
    ensures var i := KeyIndex(s.qs[WAITERS], DisciplineOf(WAITERS), s.pcbs[parent].pid);
            i < |s.qs[WAITERS]| && s.qs[WAITERS][i].data == woken
    ensures woken != s.current && Fits(s.pcbs[woken], WAITERS, s.pcbs[parent].pid)
    ensures var r := Deliver(s, s.current, parent); r.Ok? && AllQueued(r.s) && Delivery(s, parent, woken, r.s)
  {
    hide Core, Deliver, Delivery, Fits;
    Delivers(s, parent);
    WaiterQueued(s, multiset{s.current}, parent);
    var i := KeyIndex(s.qs[WAITERS], DisciplineOf(WAITERS), s.pcbs[parent].pid);
    woken := s.qs[WAITERS][i].data;
    WaiterFits(s, i);
    DeliverShape(s, parent, woken);
  }

  lemma WaiterFits(s: State, i: nat)
    requires Core(s.qs, s.pcbs, multiset{s.current}) && i < |s.qs[WAITERS]|
    ensures s.qs[WAITERS][i].data != s.current && Fits(s.pcbs[s.qs[WAITERS][i].data], WAITERS, s.qs[WAITERS][i].key)
  {
    HeldApart(s.qs, multiset{s.current}, s.current);
  }

  lemma DeliverShape(s: State, parent: Slot, woken: Slot)
    requires var i := KeyIndex(s.qs[WAITERS], DisciplineOf(WAITERS), s.pcbs[parent].pid);
             i < |s.qs[WAITERS]| && s.qs[WAITERS][i].data == woken
    requires parent != s.current && woken != s.current && Deliver(s, s.current, parent).Ok?
    ensures Delivery(s, parent, woken, Deliver(s, s.current, parent).s)
  {
    hide KeyIndex, Full;
  }

  /** With distinct PIDs it is the parent itself that is made ready. */
  lemma DeliverTable(s: State, parent: Slot)
    requires Core(s.qs, s.pcbs, multiset{s.current}) && parent != s.current && s.pcbs[parent].state == WAITING
    requires Pids(s.pcbs)
    ensures var r := Deliver(s, s.current, parent);
            var me, par := s.pcbs[s.current], s.pcbs[parent];
            && r.Ok?
            && r.s.pcbs == s.pcbs[parent := par.(state := READY,
                                              user := par.user.(infoPid := me.pid, infoStatus := me.user.arg))]
                                 [s.current := ZeroPcb]
            && r.s.qs[0] == s.qs[0] + [Entry(0, parent)]
            && r.s.nextPid == s.nextPid
            && (forall q :: 0 < q < WAITERS ==> r.s.qs[q] == s.qs[q])
  {
    hide Core, Pids, Deliver;
    var woken := DeliverMoves(s, parent);
    WaiterIsParent(s, multiset{s.current}, parent);
  }

  /** A process becomes a zombie only when the one parent it has does not want it. */
  lemma NewZombieKin(pcbs: Pcbs, c: Slot, w: int)
    requires Pids(pcbs) && NoLostWakeup(pcbs, w) && pcbs[c].stack.Some? && pcbs[c].state != WAITING
    requires var parent := PcbFind(pcbs, pcbs[c].ppid, 0); parent < N_PCBS && !Wants(pcbs[parent], pcbs[c].pid)
    ensures var pcbs' := pcbs[c := pcbs[c].(state := ZOMBIE)]; Pids(pcbs') && NoLostWakeup(pcbs', w)
  {
    var parent := PcbFind(pcbs, pcbs[c].ppid, 0);
    var pcbs': Pcbs := pcbs[c := pcbs[c].(state := ZOMBIE)];
    forall p, z | 0 <= p < N_PCBS && 0 <= z < N_PCBS
      ensures !Lost(pcbs'[p], pcbs'[z], w)
    {
      assert !Lost(pcbs[p], pcbs[z], w);
      assert pcbs[p].state != FREE && pcbs[p].pid == pcbs[c].ppid ==> p == parent;
    }
  }

  lemma DeliverKin(s: State, parent: Slot, w: int)
    requires Core(s.qs, s.pcbs, multiset{s.current}) && parent != s.current && s.pcbs[parent].state == WAITING
      && Kin(s, w)
    ensures var r := Deliver(s, s.current, parent); r.Ok? && Kin(r.s, w)
  {
    hide Deliver, NoLostWakeup;
    DeliverTable(s, parent);
    var r := Deliver(s, s.current, parent);
    BenignKeeps(s.pcbs, r.s.pcbs, w);
  }

  lemma ZombifyKin(s: State, w: int)
    requires Core(s.qs, s.pcbs, multiset{s.current}) && s.pcbs[s.current].state != WAITING && Kin(s, w)
    ensures var r := Zombify(s, s.current); r.Ok? ==> Kin(r.s, w)
  {
    var c, me := s.current, s.pcbs[s.current];
    var parent := PcbFind(s.pcbs, me.ppid, 0);
    if parent < N_PCBS {
      if Wants(s.pcbs[parent], me.pid) {
        DeliverKin(s, parent, w);
      } else {
        NewZombieKin(s.pcbs, c, w);
      }
    }
  }

  lemma CoreStack(s: State)
    requires Core(s.qs, s.pcbs, multiset{s.current})
    ensures s.pcbs[s.current].stack.Some?
  {
  }

  lemma ZombifyPids(s: State)
    requires Core(s.qs, s.pcbs, multiset{s.current}) && s.pcbs[s.current].state != WAITING && Pids(s.pcbs)
    ensures var r := Zombify(s, s.current); r.Ok? ==> Pids(r.s.pcbs)
  {
    hide Core, Zombify, PcbFind;
    CoreStack(s);
    if Zombify(s, s.current).Ok? {
      ZombifyTable(s);
    }
  }

  /** A KILLED process taken by a dispatch turns into a zombie, or is delivered: all is as it was for the next
      round, with one process fewer to pass over. */
  lemma PopsKilled(s: State)
    requires AllQueued(s) && Pids(s.pcbs) && FirstReady(s.qs, 0) < N_PRIORITIES
    requires var s1 := Popped(s); s.pcbs[s1.current].state == KILLED && Zombify(s1, s1.current).Ok?
    ensures var s1 := Popped(s);
            var s2 := Zombify(s1, s1.current).s;
            && Core(s1.qs, s1.pcbs, multiset{s1.current})
            && AllQueued(s2) && Pids(s2.pcbs) && Killed(s2.pcbs) < Killed(s.pcbs)
  {
    hide Core, Zombify, FirstReady, Pids;
    Pops(s);
    Zombifies(Popped(s));
    ZombifyPids(Popped(s));
    ZombifyClearsKill(Popped(s));
  }

  lemma PopsKin(s: State, w: int)
    requires AllQueued(s) && Kin(s, w) && FirstReady(s.qs, 0) < N_PRIORITIES
    requires var s1 := Popped(s); s.pcbs[s1.current].state == KILLED && Zombify(s1, s1.current).Ok?
    ensures var s1 := Popped(s); Kin(s1, w) && Kin(Zombify(s1, s1.current).s, w)
  {
    hide Core, Zombify, FirstReady;
    Pops(s);
    ZombifyKin(Popped(s), w);
  }

  lemma {:induction false} DispatchKin(s: State, w: int)
    requires AllQueued(s) && Kin(s, w)
    ensures var r := Dispatch(s); r.Ok? ==> Kin(r.s, w)
    decreases Killed(s.pcbs)
  {
    hide Core, Zombify, FirstReady;
    if FirstReady(s.qs, 0) < N_PRIORITIES {
      var s1 := Popped(s);
      Pops(s);
      if s.pcbs[s1.current].state == READY {
        BenignKeeps(s.pcbs, SetState(s1, s1.current, RUNNING).pcbs, w);
      } else if Zombify(s1, s1.current).Ok? {
        PopsKilled(s);
        PopsKin(s, w);
        DispatchKin(Zombify(s1, s1.current).s, w);
      }
    }
  }

  lemma ScheduleKin(s: State, p: Slot, prio: Byte, w: int)
    requires Kin(s, w) && s.pcbs[p].stack.Some?
    ensures var r := Schedule(s, p, prio); r.Ok? ==> Kin(r.s, w)
  {
    BenignKeeps(s.pcbs, SetState(s, p, READY).pcbs, w);
  }

  lemma ScheduleDispatchKin(s: State, prio: Byte, w: int)
    requires Core(s.qs, s.pcbs, multiset{s.current}) && Kin(s, w)
    ensures var r := Schedule(s, s.current, prio); r.Ok? && (Dispatch(r.s).Ok? ==> Kin(Dispatch(r.s).s, w))
  {
    ScheduleKin(s, s.current, prio, w);
    Schedules(s, multiset{s.current}, s.current, prio);
    assert multiset{s.current} - multiset{s.current} == multiset{};
    DispatchKin(Schedule(s, s.current, prio).s, w);
  }

  lemma BlockKin(s: State, pcb: Pcb, q: nat, key: U32, failed: Res, w: int)
    requires Core(s.qs, s.pcbs, multiset{s.current}) && pcb.stack == s.pcbs[s.current].stack
    requires q < PCBS && Fits(pcb, q, key) && Kin(Set(s, s.current, pcb), w)
    ensures var r := Block(s, pcb, q, key, failed); r.Ok? ==> Kin(r.s, w)
  {
    Put(s.qs, s.pcbs, multiset{s.current}, s.current, pcb, q, InsertIndex(s.qs[q], DisciplineOf(q), key), key);
    assert multiset{s.current} - multiset{s.current} == multiset{};
    DispatchKin(Insert(Set(s, s.current, pcb), q, Entry(key, s.current)).value, w);
  }

  lemma {:induction false} WakeKin(s: State, w: int)
    requires Core(s.qs, s.pcbs, multiset{s.current}) && Kin(s, w)
    ensures WakeAll(s).Ok? && Kin(WakeAll(s).s, w)
    decreases |s.qs[SLEEP]|
  {
    hide Core;
    var i := KeyIndex(s.qs[SLEEP], DisciplineOf(SLEEP), s.time);
    if i < |s.qs[SLEEP]| {
      WakesOne(s, i);
      ScheduleKin(Take(s, SLEEP, i), s.qs[SLEEP][i].data, 0, w);
      WakeKin(Schedule(Take(s, SLEEP, i), s.qs[SLEEP][i].data, 0).s, w);
    }
  }

  lemma ClockKin(s: State, word: U32, w: int)
    requires Inv(s) && Kin(s, w)
    ensures var r := Clock(s, word); r.Ok? ==> Kin(r.s, w)
  {
    var s1 := Ticked(s, word);
    Rewrite(s.qs, s.pcbs, s1.pcbs, multiset{s.current});
    BenignKeeps(s.pcbs, s1.pcbs, w);
    Wakes(s1);
    WakeKin(s1, w);
    var s2 := WakeAll(s1).s;
    ScheduleDispatchKin(s2, s2.pcbs[s2.current].prio, w);
  }

  lemma ReceiveKin(s: State, ch: Byte, w: int)
    requires Inv(s) && Kin(s, w)
    ensures var r := Receive(s, ch); r.Ok? ==> Kin(r.s, w)
  {
    if s.qs[READING] != [] {
      var p := s.qs[READING][0].data;
      assert Fits(s.pcbs[p], READING, s.qs[READING][0].key);
      var s1 := Return(s.(qs := s.qs[READING := s.qs[READING][1..]]), p, if ch == CR then LF else ch);
      BenignKeeps(s.pcbs, s1.pcbs, w);
      ScheduleKin(s1, p, s1.pcbs[p].prio, w);
    }
  }

  /** A child is nobody's zombie and waits for nobody, and its PID is new. */
  lemma NewChildKin(pcbs: Pcbs, pcbs': Pcbs, p: Slot, w: int)
    requires Pids(pcbs) && NoLostWakeup(pcbs, w)
    requires forall x :: 0 <= x < N_PCBS && x != p ==> Benign(pcbs[x], pcbs'[x], w)
    requires pcbs'[p].stack.Some? && !InUse(pcbs, pcbs'[p].pid) && pcbs'[p].state == READY
    ensures Pids(pcbs') && NoLostWakeup(pcbs', w)
  {
    forall a, z | 0 <= a < N_PCBS && 0 <= z < N_PCBS
      ensures !Lost(pcbs'[a], pcbs'[z], w)
    {
      assert !Lost(pcbs[a], pcbs[z], w);
    }
    assert forall x :: 0 <= x < N_PCBS ==> !Holds(pcbs[x], pcbs'[p].pid);
  }

  lemma ForkRefused(s: State)
    requires s.qs[PCBS] == []
    ensures Fork(s) == Ok(Return(s, s.current, -1))
  {
  }

  lemma ForkTable(s: State)
    requires Inv(s) && s.qs[PCBS] != []
    ensures Fork(s).Ok? && s.qs[STACKS] != []
    ensures var r, p := Fork(s).s, s.qs[PCBS][0].data;
            && p != s.current && s.pcbs[p].stack.None?
            && r.nextPid == Wrap(s.nextPid + 1)
            && r.pcbs == s.pcbs[p := Child(s.pcbs[s.current], s.qs[STACKS][0].data, s.nextPid).(state := READY)]
                               [s.current := Return(s, s.current, s.nextPid).pcbs[s.current]]
  {
    hide Fork;
    ForkSafe(s);
    assert Fits(s.pcbs[s.qs[PCBS][0].data], PCBS, s.qs[PCBS][0].key);
    ForkMakes(s);
  }

  lemma ForkMakes(s: State)
    requires s.qs[PCBS] != [] && s.qs[STACKS] != [] && s.qs[PCBS][0].data != s.current && Fork(s).Ok?
    ensures var r, p := Fork(s).s, s.qs[PCBS][0].data;
            && r.nextPid == Wrap(s.nextPid + 1)
            && r.pcbs == s.pcbs[p := Child(s.pcbs[s.current], s.qs[STACKS][0].data, s.nextPid).(state := READY)]
                               [s.current := Return(s, s.current, s.nextPid).pcbs[s.current]]
  {
    hide Full;
  }

  lemma ForkKin(s: State, w: int)
    requires Inv(s) && Kin(s, w) && (Vacant(s) ==> !InUse(s.pcbs, s.nextPid))
    ensures Fork(s).Ok? && Kin(Fork(s).s, w)
  {
    if s.qs[PCBS] == [] {
      BenignKeeps(s.pcbs, Fork(s).s.pcbs, w);
    } else {
      ForkSomeKin(s, w);
    }
  }

  lemma ForkSomeKin(s: State, w: int)
    requires Inv(s) && Kin(s, w) && !InUse(s.pcbs, s.nextPid) && s.qs[PCBS] != []
    ensures Fork(s).Ok? && Kin(Fork(s).s, w)
  {
    hide Fork, NoLostWakeup;
    ForkTable(s);
    NewChildKin(s.pcbs, Fork(s).s.pcbs, s.qs[PCBS][0].data, w);
  }

  lemma KillKin(s: State, pid: U32, w: int)
    requires Inv(s) && Kin(s, w)
    ensures var r := Kill(s, pid); r.Ok? ==> Kin(r.s, w)
  {
    hide Dispatch, Schedule, Core, Pids, NoLostWakeup;
    var p := PcbFind(s.pcbs, pid, 0);
    if p == N_PCBS {
      CurrentHasStack(s);
      UserKeeps(s.pcbs, Kill(s, pid).s.pcbs, s.current, w);
    } else {
      MarkedKin(s, p, w);
      if p == s.current {
        var s1 := SetState(s, p, KILLED);
        Rewrite(s.qs, s.pcbs, s1.pcbs, multiset{s.current});
        ScheduleDispatchKin(s1, s1.pcbs[p].prio, w);
      }
    }
  }

  lemma MarkedKin(s: State, p: Slot, w: int)
    requires Kin(s, w) && s.pcbs[p].state != FREE
    ensures s.pcbs[p].stack.Some? && Kin(SetState(s, p, KILLED), w)
  {
    hide NoLostWakeup;
    BenignKeeps(s.pcbs, SetState(s, p, KILLED).pcbs, w);
  }

  /** What reaping does, whatever the PIDs: it reports the PID and the status field of the zombie in slot `z`, and
      frees the process, a zombie or a killed one, that it finds on the zombie queue under that PID. */
  lemma ReapMoves(s: State, z: Slot) returns (freed: Slot)
    requires Inv(s) && s.pcbs[z].state == ZOMBIE
    ensures var i := KeyIndex(s.qs[ZOMBIES], DisciplineOf(ZOMBIES), s.pcbs[z].pid);
            i < |s.qs[ZOMBIES]| && s.qs[ZOMBIES][i].data == freed
    ensures freed != s.current && Fits(s.pcbs[freed], ZOMBIES, s.pcbs[z].pid)
    ensures var me, r := s.pcbs[s.current], Reap(s, z);
            && r.Ok? && r.s.current == s.current && r.s.nextPid == s.nextPid
            && r.s.pcbs == s.pcbs[s.current := me.(user := me.user.(infoPid := s.pcbs[z].pid,
               infoStatus := s.pcbs[z].status))]
                                 [freed := ZeroPcb]
  {
    hide Core, Reap, KeyIndex;
    ReapSafe(s, z);
    ReapTakes(s, z);
    ZombieQueued(s, multiset{s.current}, z);
    var i := KeyIndex(s.qs[ZOMBIES], DisciplineOf(ZOMBIES), s.pcbs[z].pid);
    freed := s.qs[ZOMBIES][i].data;
    ZombieFits(s, z);
    ReapShape(s, z, freed);
  }

  lemma ZombieFits(s: State, z: Slot)
    requires Inv(s) && KeyIndex(s.qs[ZOMBIES], DisciplineOf(ZOMBIES), s.pcbs[z].pid) < |s.qs[ZOMBIES]|
    ensures var i := KeyIndex(s.qs[ZOMBIES], DisciplineOf(ZOMBIES), s.pcbs[z].pid);
            Fits(s.pcbs[s.qs[ZOMBIES][i].data], ZOMBIES, s.pcbs[z].pid)
  {
  }

  lemma ReapShape(s: State, z: Slot, freed: Slot)
    requires var i := KeyIndex(s.qs[ZOMBIES], DisciplineOf(ZOMBIES), s.pcbs[z].pid);
             i < |s.qs[ZOMBIES]| && s.qs[ZOMBIES][i].data == freed
    requires freed != s.current && Reap(s, z).Ok?
    ensures var me, r := s.pcbs[s.current], Reap(s, z).s;
            && r.current == s.current && r.nextPid == s.nextPid
            && r.pcbs == s.pcbs[s.current := me.(user := me.user.(infoPid := s.pcbs[z].pid,
               infoStatus := s.pcbs[z].status))]
                               [freed := ZeroPcb]
  {
    hide KeyIndex, Full;
  }

  /** With distinct PIDs reaping frees exactly that zombie. */
  lemma ReapTable(s: State, z: Slot)
    requires Inv(s) && Pids(s.pcbs) && s.pcbs[z].state == ZOMBIE
    ensures var me, r := s.pcbs[s.current], Reap(s, z);
            && r.Ok? && r.s.current == s.current && r.s.nextPid == s.nextPid
            && r.s.pcbs == s.pcbs[s.current := me.(user := me.user.(infoPid := s.pcbs[z].pid,
               infoStatus := s.pcbs[z].status))]
                                 [z := ZeroPcb]
  {
    hide Core, Reap, Pids, KeyIndex;
    var freed := ReapMoves(s, z);
    ZombieIsTarget(s, multiset{s.current}, z);
  }

  lemma ReapKin(s: State, z: Slot, w: int)
    requires Inv(s) && Kin(s, w) && s.pcbs[z].state == ZOMBIE
    ensures Reap(s, z).Ok? && Kin(Reap(s, z).s, w)
  {
    hide Reap, Core;
    ReapTable(s, z);
    BenignKeeps(s.pcbs, Reap(s, z).s.pcbs, w);
  }

  /** A process blocks in `wait` only when nothing it asked for is a zombie child of its own. */
  lemma NewWaiterKin(s: State, w: int)
    requires Kin(s, w) && s.pcbs[s.current].stack.Some? && s.pcbs[s.current].state != ZOMBIE
    requires var t := WaitTarget(s); t < N_PCBS && s.pcbs[t].state != ZOMBIE
    ensures Kin(SetState(s, s.current, WAITING), w)
  {
    var c := s.current;
    var pcbs' := SetState(s, c, WAITING).pcbs;
    forall p, z | 0 <= p < N_PCBS && 0 <= z < N_PCBS
      ensures !Lost(pcbs'[p], pcbs'[z], w)
    {
      assert !Lost(s.pcbs[p], s.pcbs[z], w);
      var t := WaitTarget(s);
      if p == c && z != c && s.pcbs[z].state == ZOMBIE && s.pcbs[z].ppid == s.pcbs[c].pid {
        assert s.pcbs[c].user.infoPid == s.pcbs[z].pid ==> z == t;
      }
    }
  }

  lemma WaitKin(s: State, w: int)
    requires Inv(s) && Kin(s, w)
    ensures var r := Wait(s); r.Ok? ==> Kin(r.s, w)
  {
    var me, t := s.pcbs[s.current], WaitTarget(s);
    if me.user.arg == 0 || t == N_PCBS {
      BenignKeeps(s.pcbs, Wait(s).s.pcbs, w);
    } else if s.pcbs[t].state == ZOMBIE {
      ReapKin(s, t, w);
    } else {
      NewWaiterKin(s, w);
      BlockKin(s, me.(state := WAITING), WAITERS, me.pid, Halt(WaitInsert), w);
    }
  }

  lemma ReparentKin(s: State, w: int)
    requires Kin(s, w) && s.pcbs[s.current].stack.Some? && (w == PID_INIT || s.pcbs[s.current].pid == PID_INIT)
    ensures Kin(s.(pcbs := Reparent(s.pcbs, s.pcbs[s.current].pid)), w)
  {
    hide NoLostWakeup;
    BenignKeeps(s.pcbs, Reparent(s.pcbs, s.pcbs[s.current].pid), w);
  }

  lemma ExitKin(s: State, w: int)
    requires Inv(s) && Kin(s, w) && (w == PID_INIT || s.pcbs[s.current].pid == PID_INIT)
    ensures var r := Exit(s); r.Ok? ==> Kin(r.s, w)
  {
    hide Core, Kin, Zombify, Dispatch;
    CurrentHasStack(s);
    var s1 := s.(pcbs := Reparent(s.pcbs, s.pcbs[s.current].pid));
    Rewrite(s.qs, s.pcbs, s1.pcbs, multiset{s.current});
    ReparentKin(s, w);
    Zombifies(s1);
    ZombifyKin(s1, w);
    if Zombify(s1, s1.current).Ok? {
      DispatchKin(Zombify(s1, s1.current).s, w);
    }
  }

  lemma ExecKin(s: State, prio: U32, w: int)
    requires Inv(s) && Kin(s, w)
    ensures var r := Exec(s, prio); r.Ok? ==> Kin(r.s, w)
  {
    var me := s.pcbs[s.current];
    var s1 := Set(s, s.current, me.(prio := prio % 256, user := User(0, 0, me.user.infoPid, me.user.infoStatus)));
    Rewrite(s.qs, s.pcbs, s1.pcbs, multiset{s.current});
    BenignKeeps(s.pcbs, s1.pcbs, w);
    ScheduleDispatchKin(s1, prio % 256, w);
  }

  /** The current process rewrites its own PCB, without becoming a waiter or a zombie. */
  lemma SetKin(s: State, pcb: Pcb, w: int)
    requires Inv(s) && Kin(s, w) && (s.pcbs[s.current].stack.Some? ==> Benign(s.pcbs[s.current], pcb, w))
    ensures s.pcbs[s.current].stack.Some? && Kin(Set(s, s.current, pcb), w)
  {
    BenignKeeps(s.pcbs, Set(s, s.current, pcb).pcbs, w);
  }

  lemma SleepKin(s: State, ticks: U32, w: int)
    requires Inv(s) && Kin(s, w)
    ensures var r := Sleep(s, ticks); r.Ok? ==> Kin(r.s, w)
  {
    hide Kin, Block, Return, Core;
    SetKin(s, Asleep(s), w);
    BlockKin(s, Asleep(s), SLEEP, Wrap(s.time + ticks), Ok(Return(Set(s, s.current, Asleep(s)), s.current, 0)), w);
  }

  lemma ReadCKin(s: State, w: int)
    requires Inv(s) && Kin(s, w)
    ensures var r := ReadC(s); r.Ok? ==> Kin(r.s, w)
  {
    if s.inp.pending != [] {
      BenignKeeps(s.pcbs, ReadC(s).s.pcbs, w);
    } else {
      var me := s.pcbs[s.current];
      var s1 := Set(s, s.current, me.(status := STATUS_BLOCKED));
      BenignKeeps(s.pcbs, s1.pcbs, w);
      BlockKin(s, me.(status := STATUS_BLOCKED), READING, me.pid, Halt(ReadInsert), w);
    }
  }

  lemma PerformKin(s: State, call: Call, arg1: U32, w: int)
    requires Inv(s) && Kin(s, w) && (call == CFork && Vacant(s) ==> !InUse(s.pcbs, s.nextPid))
    requires w == PID_INIT || call != CExit || s.pcbs[s.current].pid == PID_INIT
    ensures var r := Perform(s, call, arg1); r.Ok? ==> Kin(r.s, w)
  {
    hide Exit, Fork, Exec, Wait, Kill, Sleep, ReadC, Core;
    match call
    case CExit => ExitKin(s, w);
    case CFork => ForkKin(s, w);
    case CExec => ExecKin(s, arg1, w);
    case CWait => WaitKin(s, w);
    case CKill => KillKin(s, arg1, w);
    case CSleep => SleepKin(s, arg1, w);
    case CReadc => ReadCKin(s, w);
    case _ =>
      CurrentHasStack(s);
      PlainKin(s, call, arg1, w);
  }

  lemma CurrentHasStack(s: State)
    requires Inv(s)
    ensures s.pcbs[s.current].stack.Some?
  {
  }

  /** The calls that neither block nor start or end a process. */
  lemma PlainKin(s: State, call: Call, arg1: U32, w: int)
    requires Kin(s, w) && s.pcbs[s.current].stack.Some?
    requires call.CReads? || call.CWritec? || call.CWrites? || call.CGetpid? || call.CGetppid? || call.CGetprio?
             || call.CGettime? || call.CSetprio? || call.CSettime?
    ensures var r := Perform(s, call, arg1); r.Ok? ==> Kin(r.s, w)
  {
    hide Pids, NoLostWakeup;
    var r := Perform(s, call, arg1);
    if r.Ok? {
      PlainTable(s, call, arg1);
      UserKeeps(s.pcbs, r.s.pcbs, s.current, w);
    }
  }

  lemma PlainTable(s: State, call: Call, arg1: U32)
    requires call.CReads? || call.CWritec? || call.CWrites? || call.CGetpid? || call.CGetppid? || call.CGetprio?
             || call.CGettime? || call.CSetprio? || call.CSettime?
    ensures var r := Perform(s, call, arg1); r.Ok? ==> r.s.nextPid == s.nextPid && OnlyUser(s.pcbs, r.s.pcbs, s.current)
  {
  }

  /** Only process `c` has changed, and only in its priority and its own memory. */
  predicate OnlyUser(a: Pcbs, b: Pcbs, c: Slot) {
    b == a[c := a[c].(prio := b[c].prio, user := b[c].user)]
  }

  lemma UserKeeps(a: Pcbs, b: Pcbs, c: Slot, w: int)
    requires Pids(a) && NoLostWakeup(a, w) && OnlyUser(a, b, c)
    requires a[c].state != WAITING || b[c].user.infoPid == a[c].user.infoPid
    ensures Pids(b) && NoLostWakeup(b, w)
  {
    BenignKeeps(a, b, w);
  }

  /** The current process, not init, exits. */
  predicate Exits(s: State, ev: Event) {
    ev.Syscall? && Decode(ev.code) == CExit && s.pcbs[s.current].pid != PID_INIT
  }

  lemma SameInUse(a: Pcbs, b: Pcbs, pid: U32)
    requires forall p :: 0 <= p < N_PCBS ==> b[p].stack == a[p].stack && b[p].pid == a[p].pid
    ensures InUse(b, pid) == InUse(a, pid)
  {
    if p :| 0 <= p < N_PCBS && Holds(a[p], pid) {
      assert Holds(b[p], pid);
    }
    if p :| 0 <= p < N_PCBS && Holds(b[p], pid) {
      assert Holds(a[p], pid);
    }
  }

  lemma StepKin(s: State, ev: Event, w: int)
    requires Inv(s) && Kin(s, w) && !Clashes(s, ev)
    requires w == PID_INIT || !Exits(s, ev)
    ensures var r := Step(s, ev); r.Ok? ==> Kin(r.s, w)
  {
    hide Perform, Clock, Receive, Core;
    match ev
    case Tick(word) => ClockKin(s, word, w);
    case Rx(ch) => ReceiveKin(s, ch, w);
    case Tx =>
    case Syscall(code, arg1, _, infoPid) =>
      var s0 := Trap(s, code, arg1, infoPid);
      Rewrite(s.qs, s.pcbs, s0.pcbs, multiset{s.current});
      BenignKeeps(s.pcbs, s0.pcbs, w);
      SameInUse(s.pcbs, s0.pcbs, s.nextPid);
      PerformKin(s0, Decode(code), arg1, w);
  }

  lemma BootKin(w: int)
    ensures Kin(Boot(), w)
  {
  }

  /** No step of the run starts a process under a PID that is in use. */
  ghost predicate NeverClashes(s: State, evs: seq<Event>)
    decreases |evs|
  {
    evs != [] ==> !Clashes(s, evs[0]) && (Step(s, evs[0]).Ok? ==> NeverClashes(Step(s, evs[0]).s, evs[1..]))
  }

  lemma {:induction false} RunKin(s: State, evs: seq<Event>)
    requires Inv(s) && Kin(s, PID_INIT) && NeverClashes(s, evs)
    ensures var r := Run(s, evs); r.Ok? ==> Inv(r.s) && Kin(r.s, PID_INIT)
    decreases |evs|
  {
    hide Step, Clashes, Inv, Kin;
    if evs != [] {
      StepSafe(s, evs[0]);
      if Step(s, evs[0]).Ok? {
        StepKin(s, evs[0], PID_INIT);
        RunKin(Step(s, evs[0]).s, evs[1..]);
      }
    }
  }

  /** In every state reached without a clash, however long the run and however often the PID counter has come round,
      PIDs in use are distinct, and no process but init waits for a child of its own that is already a zombie. */
  lemma NoWakeupIsLost(evs: seq<Event>, p: Slot, z: Slot)
    requires NeverClashes(Boot(), evs) && Run(Boot(), evs).Ok?
    ensures var pcbs := Run(Boot(), evs).s.pcbs;
            && !Lost(pcbs[p], pcbs[z], PID_INIT)
            && (p != z && pcbs[p].state != FREE && pcbs[z].state != FREE ==> pcbs[p].pid != pcbs[z].pid)
  {
    hide Run, Boot;
    BootSafe();
    BootKin(PID_INIT);
    RunKin(Boot(), evs);
  }

  /** In every such state a process that is WAITING or a ZOMBIE is on that queue, and is what a removal under
      its own PID finds there. */
  lemma FoundUnderItsPid(evs: seq<Event>, p: Slot)
    requires NeverClashes(Boot(), evs) && Run(Boot(), evs).Ok?
    ensures var s := Run(Boot(), evs).s;
            var q := if s.pcbs[p].state == WAITING then WAITERS else ZOMBIES;
            s.pcbs[p].state == WAITING || s.pcbs[p].state == ZOMBIE ==>
              var i := KeyIndex(s.qs[q], DisciplineOf(q), s.pcbs[p].pid);
              i < |s.qs[q]| && s.qs[q][i].data == p && s.qs[q][i].key == s.pcbs[p].pid
  {
    hide Run, Core, Boot;
    BootSafe();
    BootKin(PID_INIT);
    RunKin(Boot(), evs);
    var s := Run(Boot(), evs).s;
    if s.pcbs[p].state == WAITING {
      WaiterIsParent(s, multiset{s.current}, p);
    } else if s.pcbs[p].state == ZOMBIE {
      ZombieIsTarget(s, multiset{s.current}, p);
    }
  }

  /** The PCBs after `_zombify`, in its two cases. */
  lemma ZombifyTable(s: State)
    requires Core(s.qs, s.pcbs, multiset{s.current}) && s.pcbs[s.current].state != WAITING
    requires Pids(s.pcbs) && Zombify(s, s.current).Ok?
    ensures var pcbs', parent, me := Zombify(s, s.current).s.pcbs, PcbFind(s.pcbs, s.pcbs[s.current].ppid, 0),
              s.pcbs[s.current];
            && parent < N_PCBS
            && if Wants(s.pcbs[parent], me.pid) then
                 && pcbs'[s.current] == ZeroPcb && parent != s.current
                 && pcbs'[parent] == s.pcbs[parent].(state := READY, user := pcbs'[parent].user)
                 && (forall p :: 0 <= p < N_PCBS && p != parent && p != s.current ==> pcbs'[p] == s.pcbs[p])
               else pcbs' == s.pcbs[s.current := me.(state := ZOMBIE)]
  {
    var parent := PcbFind(s.pcbs, s.pcbs[s.current].ppid, 0);
    if Wants(s.pcbs[parent], s.pcbs[s.current].pid) {
      DeliverTable(s, parent);
    }
  }
}
