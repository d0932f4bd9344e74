/** What two processes under one PID do to waiting: a wake-up can be lost. */
module SharedPids {
  import opened Defs
  import opened QueueSpec
  import opened KernelSpec
  import opened Placement
  import opened Safety
  import opened Families
  import opened Orphans
  import opened Scenarios
  import opened PidWrap

  // ---- the two acts that bring a waiter and a zombie together, whatever the PIDs ----

  /** A zombie child of this process, under the PID that it asks for. */
  predicate AskedFor(zombie: Pcb, pcb: Pcb) {
    zombie.state == ZOMBIE && zombie.ppid == pcb.pid && zombie.pid == pcb.user.infoPid
  }

  ghost predicate SomeoneAskedFor(pcbs: Pcbs, c: Slot) {
    exists z :: 0 <= z < N_PCBS && AskedFor(pcbs[z], pcbs[c])
  }

  /** Blocking in `wait` loses a wake-up exactly when the process asks for one child by its PID and that child is a
      zombie: the search has found another process under the same PID. */
  lemma BlockingLoses(s: State, w: int)
    requires NoLostWakeup(s.pcbs, w) && s.pcbs[s.current].state != ZOMBIE
    requires var t := WaitTarget(s); t < N_PCBS && s.pcbs[t].state != ZOMBIE
    ensures var me := s.pcbs[s.current];
            NoLostWakeup(SetState(s, s.current, WAITING).pcbs, w)
            <==> me.pid == w || me.user.infoPid == 0 || !SomeoneAskedFor(s.pcbs, s.current)
  {
    hide PcbFind;
    var c, me := s.current, s.pcbs[s.current];
    var b := SetState(s, c, WAITING).pcbs;
    if me.pid != w && me.user.infoPid > 0 && SomeoneAskedFor(s.pcbs, c) {
      var z :| 0 <= z < N_PCBS && AskedFor(s.pcbs[z], me);
      assert Lost(b[c], b[z], w);
    } else {
      forall p, z | 0 <= p < N_PCBS && 0 <= z < N_PCBS
        ensures !Lost(b[p], b[z], w)
      {
        assert !Lost(s.pcbs[p], s.pcbs[z], w);
        assert me.user.infoPid > 0 && me.pid != w ==> !AskedFor(s.pcbs[z], me);
      }
    }
  }

  /** A process under this PID waits for that one. */
  predicate WaitsFor(pcb: Pcb, pid: U32, child: U32) {
    pcb.pid == pid && Wants(pcb, child)
  }

  ghost predicate SomeoneWaits(pcbs: Pcbs, c: Slot, w: int) {
    pcbs[c].ppid != w && exists p :: 0 <= p < N_PCBS && WaitsFor(pcbs[p], pcbs[c].ppid, pcbs[c].pid)
  }

  /** Becoming a zombie loses one exactly when a process waits for this one under its parent's PID: the search has
      found another process under that PID, which does not. */
  lemma EndingLoses(pcbs: Pcbs, c: Slot, w: int)
    requires NoLostWakeup(pcbs, w) && pcbs[c].state != WAITING
    ensures NoLostWakeup(pcbs[c := pcbs[c].(state := ZOMBIE)], w) <==> !SomeoneWaits(pcbs, c, w)
  {
    var b: Pcbs := pcbs[c := pcbs[c].(state := ZOMBIE)];
    if SomeoneWaits(pcbs, c, w) {
      var p :| 0 <= p < N_PCBS && WaitsFor(pcbs[p], pcbs[c].ppid, pcbs[c].pid);
      assert Lost(b[p], b[c], w);
    } else {
      forall p, z | 0 <= p < N_PCBS && 0 <= z < N_PCBS
        ensures !Lost(b[p], b[z], w)
      {
        assert !Lost(pcbs[p], pcbs[z], w);
        assert pcbs[c].ppid != w ==> !WaitsFor(pcbs[p], pcbs[c].ppid, pcbs[c].pid);
      }
    }
  }

  // ---- a run from boot in which it happens ----

  predicate Role(pcb: Pcb, pid: U32, ppid: U32, st: PState) {
    pcb.stack.Some? && pcb.pid == pid && pcb.ppid == ppid && pcb.prio == 0 && pcb.state == st
  }

  predicate Unused(pcb: Pcb) {
    pcb.stack.None? && pcb.state == FREE
  }

  /** Init, its child in slot `q` under PID 0, and that one's child in slot `z` under PID 1, which is init's. */
  ghost predicate Trio(pcbs: Pcbs, q: Slot, z: Slot, init: PState, child: PState, grandchild: PState) {
    && q != 0 && z != 0 && q != z
    && Role(pcbs[0], PID_INIT, PID_INIT, init) && Role(pcbs[q], 0, PID_INIT, child)
    && Role(pcbs[z], 1, 0, grandchild)
    && forall p :: 0 <= p < N_PCBS && p != 0 && p != q && p != z ==> Unused(pcbs[p])
  }

  ghost predicate Duo(pcbs: Pcbs, q: Slot, init: PState, child: PState) {
    && q != 0
    && Role(pcbs[0], PID_INIT, PID_INIT, init) && Role(pcbs[q], 0, PID_INIT, child)
    && forall p :: 0 <= p < N_PCBS && p != 0 && p != q ==> Unused(pcbs[p])
  }

  /** Process `c` has gone from running to `st`, and process `h` runs; nobody's user data matters. */
  predicate Switched(a: Pcbs, b: Pcbs, c: Slot, h: Slot, st: PState) {
    && c != h
    && forall p :: 0 <= p < N_PCBS ==>
         b[p] == a[p].(state := if p == c then st else if p == h then RUNNING else a[p].state, user := b[p].user)
  }

  lemma NoSleepers(s: State)
    requires Inv(s) && forall p :: 0 <= p < N_PCBS ==> s.pcbs[p].state != SLEEPING && s.pcbs[p].state != KILLED
    ensures s.qs[SLEEP] == []
  {
    hide Core;
    if s.qs[SLEEP] != [] {
      SleeperFits(s, 0);
    }
  }

  lemma SleeperFits(s: State, i: nat)
    requires Inv(s) && i < |s.qs[SLEEP]|
    ensures Fits(s.pcbs[s.qs[SLEEP][i].data], SLEEP, s.qs[SLEEP][i].key)
  {
  }

  lemma TickSwitches(s: State, ready: seq<Slot>)
    requires Inv(s) && forall p :: 0 <= p < N_PCBS ==> s.pcbs[p].state != SLEEPING && s.pcbs[p].state != KILLED
    requires ready != [] && s.qs[0] == QueueOf(ready) && s.current !in ready
    requires s.pcbs[ready[0]].state == READY && s.pcbs[s.current].prio == 0
    ensures var r, c, h := Step(s, TICK), s.current, ready[0];
            && r.Ok? && Inv(r.s) && r.s.current == h && r.s.nextPid == s.nextPid
            && r.s.qs[0] == QueueOf(ready[1..] + [c]) && Switched(s.pcbs, r.s.pcbs, c, h, READY)
  {
    hide Dispatch, Core, WakeAll, Full;
    NoSleepers(s);
    Quiet0(s);
    var t := Ticked(s, 0);
    Behind(t, ready);
    var u := Schedule(t, s.current, 0).s;
    DispatchHead(u, ready + [s.current]);
    assert (ready + [s.current])[1..] == ready[1..] + [s.current];
    TickKeeps(s);
  }

  const WAIT1: Event := Syscall(3, 1, 0, 1)

  lemma WaitOneCall(s: State)
    ensures Step(s, WAIT1) == Wait(Trap(s, 3, 1, 1))
  {
    hide Wait;
  }

  /** `wait` for PID 1 by a process that finds init under it. */
  lemma WaitSwitches(s: State, h: Slot)
    requires Inv(s) && s.qs[0] == QueueOf([h]) && h != s.current && s.pcbs[h].state == READY
    requires s.pcbs[0].pid == 1 && s.pcbs[0].state != FREE && s.pcbs[0].state != ZOMBIE
    ensures var r, c := Step(s, WAIT1), s.current;
            && r.Ok? && Switched(s.pcbs, r.s.pcbs, c, h, WAITING) && r.s.pcbs[c].user.infoPid == 1
  {
    hide Dispatch, Core, Full, Wait, Step;
    WaitOneCall(s);
    var t := Trap(s, 3, 1, 1);
    Rewrite(s.qs, s.pcbs, t.pcbs, multiset{s.current});
    InitFirst(t.pcbs);
    WaitOneValue(t, h);
  }

  lemma InitFirst(pcbs: Pcbs)
    requires pcbs[0].state != FREE && pcbs[0].pid == 1
    ensures PcbFind(pcbs, 1, 0) == 0
  {
  }

  lemma WaitOneValue(s: State, h: Slot)
    requires Inv(s) && s.pcbs[s.current].user.arg != 0 && s.pcbs[s.current].user.infoPid == 1
    requires PcbFind(s.pcbs, 1, 0) == 0 && s.pcbs[0].state != ZOMBIE
    requires s.qs[0] == QueueOf([h]) && h != s.current && s.pcbs[h].state == READY
    ensures Wait(s).Ok?
    ensures var c := s.current;
            Wait(s).s.pcbs == s.pcbs[c := s.pcbs[c].(state := WAITING)][h := s.pcbs[h].(state := RUNNING)]
  {
    hide Dispatch, Core, Full, PcbFind;
    NeverFull(s.qs, s.pcbs, multiset{s.current});
    var c := s.current;
    var me := s.pcbs[c].(state := WAITING);
    DispatchHead(Insert(Set(s, c, me), WAITERS, Entry(me.pid, c)).value, [h]);
  }

  lemma DuoForks(s: State, q: Slot) returns (z: Slot)
    requires Inv(s) && s.current == q && Duo(s.pcbs, q, READY, RUNNING) && s.nextPid == 1 && s.qs[0] == QueueOf([0])
    ensures var r := Step(s, FORK);
            && r.Ok? && Inv(r.s) && r.s.current == q
            && Trio(r.s.pcbs, q, z, READY, RUNNING, READY) && r.s.qs[0] == QueueOf([0, z])
  {
    hide Fork, Core;
    ForkCall(s);
    var t := Trap(s, 1, 0, 0);
    TrapInv(s, 1, 0);
    DuoVacant(t, q);
    z := t.qs[PCBS][0].data;
    ForkTable(t);
    ForkQueue(t);
    ForkSafe(t);
    assert QueueOf([0]) + [Entry(0, z)] == QueueOf([0, z]);
  }

  lemma DuoVacant(s: State, q: Slot)
    requires Inv(s) && s.current == q && Duo(s.pcbs, q, READY, RUNNING)
    ensures s.qs[PCBS] != []
  {
    var x: Slot := if q == 1 then 2 else 1;
    var i, j := Somewhere(s.qs, s.pcbs, multiset{s.current}, x);
    assert Fits(s.pcbs[x], i, s.qs[i][j].key);
  }

  lemma GrandchildExits(s: State, q: Slot, z: Slot)
    requires Inv(s) && s.current == z && Trio(s.pcbs, q, z, READY, READY, RUNNING) && s.qs[0] == QueueOf([q, 0])
    ensures var r := Step(s, EXIT);
            && r.Ok? && Inv(r.s) && r.s.current == q
            && Trio(r.s.pcbs, q, z, READY, RUNNING, ZOMBIE) && r.s.qs[0] == QueueOf([0])
  {
    hide Exit, Core, PcbFind, Step;
    ExitCall(s);
    var t := Trap(s, 0, 0, 0);
    TrapInv(s, 0, 0);
    var b := Reparent(t.pcbs, 1);
    assert b == t.pcbs;
    ZeroIsChild(b, q, z);
    ExitValue(t, [q, 0], q);
    ExitKeeps(t);
    assert [q, 0][1..] == [0];
  }

  lemma ZeroIsChild(pcbs: Pcbs, q: Slot, z: Slot)
    requires Trio(pcbs, q, z, READY, READY, RUNNING)
    ensures PcbFind(pcbs, 0, 0) == q
  {
    forall p | 0 <= p < N_PCBS && pcbs[p].state != FREE && pcbs[p].pid == 0
      ensures p == q
    {
    }
  }

  /** Once the PID counter is at 0: init starts process 0, which starts process 1, which ends; process 0 then waits for
      process 1. */
  lemma Loses(s: State, evs: seq<Event>) returns (q: Slot, z: Slot)
    requires Run(s, evs).Ok? && Alone(Run(s, evs).s) && Run(s, evs).s.nextPid == 0
    ensures var r := Run(s, evs + [FORK] + [TICK] + [FORK] + [TICK] + [TICK] + [EXIT] + [WAIT1]);
            && r.Ok? && Trio(r.s.pcbs, q, z, RUNNING, WAITING, ZOMBIE) && r.s.pcbs[q].user.infoPid == 1
  {
    hide Run, Step, Inv, Alone, Trio, Duo, Switched, QueueOf;
    var s0 := Run(s, evs).s;
    var e1 := evs + [FORK];
    var e2 := e1 + [TICK];
    var e3 := e2 + [FORK];
    var e4 := e3 + [TICK];
    var e5 := e4 + [TICK];
    var e6 := e5 + [EXIT];
    RunMore(s, evs, FORK);
    RunMore(s, e1, TICK);
    RunMore(s, e2, FORK);
    RunMore(s, e3, TICK);
    RunMore(s, e4, TICK);
    RunMore(s, e5, EXIT);
    RunMore(s, e6, WAIT1);
    q := LoseOne(s0);
    var s2 := Step(Step(s0, FORK).s, TICK).s;
    z := DuoForks(s2, q);
    var s3 := Step(s2, FORK).s;
    LoseTwo(s3, q, z);
    var s5 := Step(Step(s3, TICK).s, TICK).s;
    GrandchildExits(s5, q, z);
    LoseThree(Step(s5, EXIT).s, q, z);
  }

  lemma LoseOne(s: State) returns (q: Slot)
    requires Alone(s) && s.nextPid == 0
    ensures Step(s, FORK).Ok?
    ensures var r := Step(Step(s, FORK).s, TICK);
            && r.Ok? && Inv(r.s) && r.s.current == q && r.s.nextPid == 1
            && Duo(r.s.pcbs, q, READY, RUNNING) && r.s.qs[0] == QueueOf([0])
  {
    hide Step, Core;
    q := AloneForks(s);
    var s1 := Step(s, FORK).s;
    AliveNow(s1);
    TickSwitches(s1, [q]);
    assert [q][1..] + [0] == [0];
  }

  /** Init, being the current process, is neither asleep nor killed. */
  lemma AliveNow(s: State)
    requires Inv(s)
    ensures s.pcbs[s.current].state != SLEEPING && s.pcbs[s.current].state != KILLED
  {
  }

  lemma LoseTwo(s: State, q: Slot, z: Slot)
    requires Inv(s) && s.current == q && Trio(s.pcbs, q, z, READY, RUNNING, READY) && s.qs[0] == QueueOf([0, z])
    ensures Step(s, TICK).Ok?
    ensures var r := Step(Step(s, TICK).s, TICK);
            && r.Ok? && Inv(r.s) && r.s.current == z
            && Trio(r.s.pcbs, q, z, READY, READY, RUNNING) && r.s.qs[0] == QueueOf([q, 0])
  {
    hide Step, Inv;
    TickSwitches(s, [0, z]);
    assert [0, z][1..] + [q] == [z, q];
    var s1 := Step(s, TICK).s;
    TickSwitches(s1, [z, q]);
    assert [z, q][1..] + [0] == [q, 0];
  }

  lemma LoseThree(s: State, q: Slot, z: Slot)
    requires Inv(s) && s.current == q && Trio(s.pcbs, q, z, READY, RUNNING, ZOMBIE) && s.qs[0] == QueueOf([0])
    ensures var r := Step(s, WAIT1);
            && r.Ok? && Trio(r.s.pcbs, q, z, RUNNING, WAITING, ZOMBIE) && r.s.pcbs[q].user.infoPid == 1
  {
    hide Step, Inv;
    WaitSwitches(s, 0);
  }

  /** In this run from boot a process other than init ends up waiting for a child of its own that is a zombie already:
      the child has init's PID, and it is init that the search for that PID finds. */
  lemma WakeupLost()
    ensures var r := Run(Boot(), Rounds(UINT32 - 2) + [FORK] + [TICK] + [FORK] + [TICK] + [TICK] + [EXIT] + [WAIT1]);
            r.Ok? && exists q, z :: 0 <= q < N_PCBS && 0 <= z < N_PCBS && Lost(r.s.pcbs[q], r.s.pcbs[z], PID_INIT)
  {
    hide Run, Boot, Rounds, Alone, Lost;
    BootAlone();
    RoundsAlone(Boot(), UINT32 - 2);
    var q, z := Loses(Boot(), Rounds(UINT32 - 2));
    var e := Rounds(UINT32 - 2) + [FORK] + [TICK] + [FORK] + [TICK] + [TICK] + [EXIT] + [WAIT1];
    IsLost(Run(Boot(), e).s.pcbs, q, z);
  }

  lemma IsLost(pcbs: Pcbs, q: Slot, z: Slot)
    requires Trio(pcbs, q, z, RUNNING, WAITING, ZOMBIE) && pcbs[q].user.infoPid == 1
    ensures Lost(pcbs[q], pcbs[z], PID_INIT)
  {
  }
}
