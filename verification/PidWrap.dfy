/** What happens to distinct PIDs when the PID counter wraps around. */
module PidWrap {
  import opened Defs
  import opened QueueSpec
  import opened KernelSpec
  import opened Placement
  import opened Safety
  import opened Frames
  import opened Families
  import opened Orphans
  import opened Reaping
  import opened Scenarios

  /** Every process still there was there before, under the same PID. */
  predicate KeptPids(a: Pcbs, b: Pcbs) {
    forall p :: 0 <= p < N_PCBS && b[p].stack.Some? ==> a[p].stack.Some? && b[p].pid == a[p].pid
  }

  /** A process has been started in slot `p` under this PID, and that is all. */
  predicate OneMore(a: Pcbs, b: Pcbs, p: Slot, pid: U32) {
    && a[p].stack.None? && Holds(b[p], pid)
    && forall x :: 0 <= x < N_PCBS && x != p ==> b[x].stack == a[x].stack && b[x].pid == a[x].pid
  }

  ghost predicate SomeoneMore(a: Pcbs, b: Pcbs, pid: U32) {
    exists p: Slot :: OneMore(a, b, p, pid)
  }

  lemma KeptArePids(a: Pcbs, b: Pcbs)
    requires Kept(a, b)
    ensures KeptPids(a, b)
  {
    assert forall p :: 0 <= p < N_PCBS ==> Same(a[p], b[p]);
  }

  /** The child has the next PID, and nobody else's changes. */
  lemma ForkPids(s: State)
    requires Inv(s) && s.qs[PCBS] != []
    ensures Fork(s).Ok? && SomeoneMore(s.pcbs, Fork(s).s.pcbs, s.nextPid)
  {
    hide Fork, Core;
    ForkTable(s);
    assert OneMore(s.pcbs, Fork(s).s.pcbs, s.qs[PCBS][0].data, s.nextPid);
  }

  lemma ReadPids(s: State)
    requires ReadC(s).Ok?
    ensures KeptPids(s.pcbs, ReadC(s).s.pcbs)
  {
    hide Block;
    if s.inp.pending == [] {
      var me := s.pcbs[s.current];
      BlockKept(s, me.(status := STATUS_BLOCKED), READING, me.pid, Halt(ReadInsert));
      KeptArePids(Set(s, s.current, me.(status := STATUS_BLOCKED)).pcbs, ReadC(s).s.pcbs);
    }
  }

  /** What a step does to the PIDs in use. */
  lemma StepPids(s: State, ev: Event)
    requires Inv(s) && Step(s, ev).Ok?
    ensures var r := Step(s, ev).s.pcbs;
            if Starts(s, ev) then SomeoneMore(s.pcbs, r, s.nextPid) else KeptPids(s.pcbs, r)
  {
    hide Perform, Clock, Receive, Core, SomeoneMore, KeptPids;
    match ev
    case Tick(word) =>
      ClockKept(s, word);
      KeptArePids(s.pcbs, Step(s, ev).s.pcbs);
    case Rx(ch) =>
      ReceiveKept(s, ch);
      KeptArePids(s.pcbs, Step(s, ev).s.pcbs);
    case Tx => KeptArePids(s.pcbs, Step(s, ev).s.pcbs);
    case Syscall(code, arg1, _, infoPid) =>
      var s0 := Trap(s, code, arg1, infoPid);
      Rewrite(s.qs, s.pcbs, s0.pcbs, multiset{s.current});
      CallPids(s0, Decode(code), arg1);
      TrapPids(s, s0, Step(s, ev).s.pcbs);
  }

  lemma TrapPids(s: State, s0: State, b: Pcbs)
    requires forall p :: 0 <= p < N_PCBS ==> s0.pcbs[p].stack == s.pcbs[p].stack && s0.pcbs[p].pid == s.pcbs[p].pid
    ensures KeptPids(s0.pcbs, b) ==> KeptPids(s.pcbs, b)
    ensures SomeoneMore(s0.pcbs, b, s.nextPid) ==> SomeoneMore(s.pcbs, b, s.nextPid)
  {
    if p: Slot :| OneMore(s0.pcbs, b, p, s.nextPid) {
      assert OneMore(s.pcbs, b, p, s.nextPid);
    }
  }

  lemma CallPids(s: State, call: Call, arg1: U32)
    requires Inv(s) && Perform(s, call, arg1).Ok?
    ensures var r := Perform(s, call, arg1).s.pcbs;
            if call == CFork && Vacant(s) then SomeoneMore(s.pcbs, r, s.nextPid) else KeptPids(s.pcbs, r)
  {
    hide Exit, Fork, Exec, Wait, Kill, Sleep, ReadC, Core, SomeoneMore, KeptPids;
    if call == CFork {
      ForkSafe(s);
      if Vacant(s) {
        ForkPids(s);
      } else {
        ForkRefused(s);
        KeptArePids(s.pcbs, Fork(s).s.pcbs);
      }
    } else if call == CReadc {
      ReadPids(s);
    } else {
      PerformKept(s, call, arg1);
      KeptArePids(s.pcbs, Perform(s, call, arg1).s.pcbs);
    }
  }

  lemma MoreDistinct(a: Pcbs, b: Pcbs, pid: U32)
    requires DistinctPids(a) && SomeoneMore(a, b, pid)
    ensures DistinctPids(b) <==> !InUse(a, pid)
  {
    var p: Slot :| OneMore(a, b, p, pid);
    if InUse(a, pid) {
      var q :| 0 <= q < N_PCBS && Holds(a[q], pid);
      assert q != p && Holds(b[q], pid) && Holds(b[p], pid);
    } else {
      assert forall q :: 0 <= q < N_PCBS ==> !Holds(a[q], pid);
    }
  }

  /** PIDs in use are distinct after a fork if and only if nobody has the value of the PID counter. */
  lemma ForkDistinct(s: State)
    requires Inv(s) && DistinctPids(s.pcbs) && s.qs[PCBS] != []
    ensures Fork(s).Ok? && (DistinctPids(Fork(s).s.pcbs) <==> !InUse(s.pcbs, s.nextPid))
  {
    hide Fork, Core, DistinctPids, InUse, SomeoneMore;
    ForkPids(s);
    MoreDistinct(s.pcbs, Fork(s).s.pcbs, s.nextPid);
  }

  /** The exact condition, with no bound on anything: PIDs in use stay distinct over a step if and only if it does
      not start a process under a PID that is in use. */
  lemma StepDistinct(s: State, ev: Event)
    requires Inv(s) && DistinctPids(s.pcbs) && Step(s, ev).Ok?
    ensures DistinctPids(Step(s, ev).s.pcbs) <==> !Clashes(s, ev)
  {
    hide Step, Core, InUse, SomeoneMore;
    StepPids(s, ev);
    if Starts(s, ev) {
      MoreDistinct(s.pcbs, Step(s, ev).s.pcbs, s.nextPid);
    }
  }

  // ---- runs ----

  /** PIDs in use are distinct in every state of a run. */
  ghost predicate AlwaysDistinct(s: State, evs: seq<Event>)
    decreases |evs|
  {
    DistinctPids(s.pcbs) && (evs != [] && Step(s, evs[0]).Ok? ==> AlwaysDistinct(Step(s, evs[0]).s, evs[1..]))
  }

  lemma StartGoesOn(s: State, ev: Event)
    requires Inv(s) && Starts(s, ev)
    ensures Step(s, ev).Ok?
  {
    hide Core, Fork;
    var s0 := Trap(s, ev.code, ev.arg1, ev.infoPid);
    Rewrite(s.qs, s.pcbs, s0.pcbs, multiset{s.current});
    ForkSafe(s0);
  }

  /** What the theorems on whole runs ask for, said without the PID counter: a run has no clash if and only if PIDs in
      use are distinct all along. */
  lemma {:induction false} RunDistinct(s: State, evs: seq<Event>)
    requires Inv(s) && DistinctPids(s.pcbs)
    ensures NeverClashes(s, evs) <==> AlwaysDistinct(s, evs)
    decreases |evs|
  {
    hide Step, Inv, DistinctPids, InUse;
    if evs != [] {
      if Step(s, evs[0]).Ok? {
        StepDistinct(s, evs[0]);
        StepSafe(s, evs[0]);
        if !Clashes(s, evs[0]) {
          RunDistinct(Step(s, evs[0]).s, evs[1..]);
        }
      } else if Clashes(s, evs[0]) {
        StartGoesOn(s, evs[0]);
      }
    }
  }

  /** The PIDs that `n` processes started since boot can have: they follow init's, and the last of 2^32 - 1 has 0. */
  predicate Within(pcbs: Pcbs, n: nat) {
    forall p :: 0 <= p < N_PCBS && pcbs[p].stack.Some? ==>
      if pcbs[p].pid == 0 then UINT32 <= n + 1 else pcbs[p].pid <= n + 1
  }

  lemma StepWithin(s: State, ev: Event, n: nat)
    requires Inv(s) && Within(s.pcbs, n) && s.nextPid == Wrap(n + 2) && Step(s, ev).Ok?
    requires Starts(s, ev) ==> n + 1 < UINT32
    ensures !Clashes(s, ev) && Within(Step(s, ev).s.pcbs, if Starts(s, ev) then n + 1 else n)
  {
    hide Step, Core;
    StepPids(s, ev);
    if Starts(s, ev) {
      var b := Step(s, ev).s.pcbs;
      var p: Slot :| OneMore(s.pcbs, b, p, s.nextPid);
    }
  }

  lemma {:induction false} RunWithin(s: State, evs: seq<Event>, n: nat)
    requires Inv(s) && Within(s.pcbs, n) && s.nextPid == Wrap(n + 2) && n + Started(s, evs) < UINT32
    ensures NeverClashes(s, evs)
    decreases |evs|
  {
    hide Step, Inv, Within, Clashes, Starts;
    if evs != [] {
      if Step(s, evs[0]).Ok? {
        StepWithin(s, evs[0], n);
        StepSafe(s, evs[0]);
        StepNextPid(s, evs[0]);
        RunWithin(Step(s, evs[0]).s, evs[1..], if Starts(s, evs[0]) then n + 1 else n);
      } else {
        HaltsFresh(s, evs[0]);
      }
    }
  }

  lemma HaltsFresh(s: State, ev: Event)
    requires Inv(s) && Step(s, ev).Halt?
    ensures !Clashes(s, ev)
  {
    hide Step;
    if Starts(s, ev) {
      StartGoesOn(s, ev);
    }
  }

  /** From boot no run has a clash that starts fewer than 2^32 processes. */
  lemma FewNeverClash(evs: seq<Event>)
    requires Started(Boot(), evs) < UINT32
    ensures NeverClashes(Boot(), evs)
  {
    hide Started, NeverClashes, Boot, Inv, Within;
    BootSafe();
    BootWithin();
    RunWithin(Boot(), evs, 0);
  }

  lemma BootWithin()
    ensures Within(Boot().pcbs, 0) && Boot().nextPid == 2
  {
  }

  // ---- a run that wraps ----

  /** Init alone is in use, and runs. */
  ghost predicate Alone(s: State) {
    && Inv(s) && s.current == 0
    && s.pcbs[0].stack.Some? && s.pcbs[0].pid == PID_INIT && s.pcbs[0].ppid == PID_INIT && s.pcbs[0].prio == 0
    && (forall p :: 0 < p < N_PCBS ==> s.pcbs[p].stack.None? && s.pcbs[p].state == FREE)
  }

  /** Then there is nothing on the ready queues, and a PCB to be had. */
  lemma NothingQueued(s: State)
    requires Alone(s)
    ensures s.qs[0] == [] && s.qs[PCBS] != []
  {
    if s.qs[0] != [] {
      assert Fits(s.pcbs[s.qs[0][0].data], 0, s.qs[0][0].key);
      HeldApart(s.qs, multiset{s.current}, s.qs[0][0].data);
    }
    var q, i := Somewhere(s.qs, s.pcbs, multiset{s.current}, 1);
    assert Fits(s.pcbs[1], q, s.qs[q][i].key);
  }

  /** Init and one child, which is in slot `p`: init is in this state. */
  ghost predicate Pair(s: State, p: Slot, pid: U32, init: PState, child: PState) {
    && p != 0
    && s.pcbs[0].stack.Some? && s.pcbs[0].pid == PID_INIT && s.pcbs[0].ppid == PID_INIT && s.pcbs[0].prio == 0
    && s.pcbs[0].state == init && s.pcbs[p].state == child
    && s.pcbs[p].stack.Some? && s.pcbs[p].pid == pid && s.pcbs[p].ppid == PID_INIT && s.pcbs[p].prio == 0
    && forall x :: 0 < x < N_PCBS && x != p ==> s.pcbs[x].stack.None? && s.pcbs[x].state == FREE
  }

  lemma TrapInv(s: State, code: int, arg1: U32)
    requires Inv(s)
    ensures Inv(Trap(s, code, arg1, 0))
  {
    Rewrite(s.qs, s.pcbs, Trap(s, code, arg1, 0).pcbs, multiset{s.current});
  }

  lemma AloneForks(s: State) returns (p: Slot)
    requires Alone(s)
    ensures var r := Step(s, FORK);
            && r.Ok? && Inv(r.s) && r.s.current == 0 && r.s.nextPid == Wrap(s.nextPid + 1)
            && Pair(r.s, p, s.nextPid, s.pcbs[0].state, READY) && r.s.qs[0] == QueueOf([p])
  {
    hide Fork, Core;
    ForkCall(s);
    NothingQueued(s);
    var t := Trap(s, 1, 0, 0);
    TrapInv(s, 1, 0);
    p := t.qs[PCBS][0].data;
    ForkTable(t);
    ForkQueue(t);
    ForkSafe(t);
    assert [] + [Entry(0, p)] == QueueOf([p]);
  }

  lemma PairWaits(s: State, p: Slot)
    requires Inv(s) && s.current == 0 && Pair(s, p, s.pcbs[p].pid, s.pcbs[0].state, READY) && s.qs[0] == QueueOf([p])
    ensures var r := Step(s, WAIT);
            && r.Ok? && Inv(r.s) && r.s.current == p && r.s.nextPid == s.nextPid
            && Pair(r.s, p, s.pcbs[p].pid, WAITING, RUNNING) && r.s.qs[0] == QueueOf([])
            && r.s.pcbs[0].user.infoPid == 0
  {
    hide Wait, Core, WaitTarget;
    WaitCall(s);
    var t := Trap(s, 3, 1, 0);
    TrapInv(s, 3, 1);
    NoZombies(t);
    assert [p][1..] == [];
    WaitValue(t, [p]);
    WaitKeeps(t);
  }

  lemma NoZombies(s: State)
    requires s.pcbs[s.current].user.infoPid == 0 && forall x :: 0 <= x < N_PCBS ==> s.pcbs[x].state != ZOMBIE
    ensures WaitTarget(s) == N_PCBS - 1
  {
  }

  /** The child's exit delivers it to init, and init runs alone again. */
  lemma PairEnds(s: State, p: Slot, pid: U32)
    requires Inv(s) && s.current == p && Pair(s, p, pid, WAITING, RUNNING) && s.qs[0] == QueueOf([])
    requires s.pcbs[0].user.infoPid == 0 && pid != PID_INIT
    ensures var r := Step(s, EXIT); r.Ok? && Alone(r.s) && r.s.nextPid == s.nextPid
  {
    hide Exit, Core;
    ExitCall(s);
    TrapInv(s, 0, 0);
    PairExits(Trap(s, 0, 0, 0), p, pid);
    ExitKeeps(Trap(s, 0, 0, 0));
  }

  lemma PairExits(s: State, p: Slot, pid: U32)
    requires Inv(s) && s.current == p && Pair(s, p, pid, WAITING, RUNNING) && s.qs[0] == QueueOf([])
    requires s.pcbs[0].user.infoPid == 0 && pid != PID_INIT
    ensures var r := Exit(s);
            && r.Ok? && r.s.current == 0 && r.s.nextPid == s.nextPid
            && r.s.pcbs[0].stack.Some? && r.s.pcbs[0].pid == PID_INIT && r.s.pcbs[0].ppid == PID_INIT
            && r.s.pcbs[0].prio == 0
            && forall x :: 0 < x < N_PCBS ==> r.s.pcbs[x].stack.None? && r.s.pcbs[x].state == FREE
  {
    hide Core, Zombify, Dispatch, Deliver, PcbFind;
    var t := s.(pcbs := Reparent(s.pcbs, pid));
    Rewrite(s.qs, s.pcbs, t.pcbs, multiset{s.current});
    InitIsFirst(t.pcbs);
    InitQueued(t, p);
    Delivers(t, 0);
    DeliverShape(t, 0, 0);
    ExitDelivers(s, p);
    assert QueueOf([]) + [Entry(0, 0)] == QueueOf([0]);
    DispatchHead(Deliver(t, p, 0).s, [0]);
  }

  lemma InitIsFirst(pcbs: Pcbs)
    requires pcbs[0].state == WAITING && pcbs[0].pid == PID_INIT
    ensures PcbFind(pcbs, PID_INIT, 0) == 0
  {
  }

  lemma ExitDelivers(s: State, p: Slot)
    requires var t := s.(pcbs := Reparent(s.pcbs, s.pcbs[s.current].pid));
             && s.current == p && t.pcbs[p].ppid == PID_INIT && PcbFind(t.pcbs, PID_INIT, 0) == 0
             && Wants(t.pcbs[0], t.pcbs[p].pid) && Deliver(t, p, 0).Ok?
    ensures var t := s.(pcbs := Reparent(s.pcbs, s.pcbs[s.current].pid));
            Exit(s) == Dispatch(Deliver(t, p, 0).s)
  {
    hide Deliver, Dispatch, PcbFind, Reparent;
  }

  lemma InitQueued(s: State, p: Slot)
    requires Core(s.qs, s.pcbs, multiset{p}) && p != 0 && s.pcbs[0].state == WAITING && s.pcbs[0].pid == PID_INIT
    requires forall x :: 0 < x < N_PCBS && x != p ==> s.pcbs[x].stack.None?
    ensures var i := KeyIndex(s.qs[WAITERS], DisciplineOf(WAITERS), PID_INIT);
            i < |s.qs[WAITERS]| && s.qs[WAITERS][i].data == 0
  {
    WaiterQueued(s, multiset{p}, 0);
    var i := KeyIndex(s.qs[WAITERS], DisciplineOf(WAITERS), PID_INIT);
    assert Fits(s.pcbs[s.qs[WAITERS][i].data], WAITERS, s.qs[WAITERS][i].key);
    HeldApart(s.qs, multiset{p}, p);
  }

  /** Init starts a child and waits for it, `n` times over. */
  function Rounds(n: nat): seq<Event> {
    if n == 0 then [] else Rounds(n - 1) + [FORK] + [WAIT] + [EXIT]
  }

  lemma OneRound(s: State, evs: seq<Event>)
    requires Run(s, evs).Ok? && Alone(Run(s, evs).s) && Run(s, evs).s.nextPid != PID_INIT
    ensures var r, r' := Run(s, evs), Run(s, evs + [FORK] + [WAIT] + [EXIT]);
            r'.Ok? && Alone(r'.s) && r'.s.nextPid == Wrap(r.s.nextPid + 1)
  {
    hide Run, Step, Inv;
    var s0 := Run(s, evs).s;
    RunMore(s, evs, FORK);
    RunMore(s, evs + [FORK], WAIT);
    RunMore(s, evs + [FORK] + [WAIT], EXIT);
    var p := AloneForks(s0);
    var s1 := Step(s0, FORK).s;
    PairWaits(s1, p);
    PairEnds(Step(s1, WAIT).s, p, s0.nextPid);
  }

  lemma {:induction false} RoundsAlone(s: State, n: nat)
    requires Alone(s) && s.nextPid == 2 && n <= UINT32 - 2
    ensures var r := Run(s, Rounds(n)); r.Ok? && Alone(r.s) && r.s.nextPid == Wrap(2 + n)
  {
    hide Alone, Step;
    if n > 0 {
      RoundsAlone(s, n - 1);
      OneRound(s, Rounds(n - 1));
    }
  }

  lemma BootAlone()
    ensures Alone(Boot()) && Boot().nextPid == 2
  {
    hide Inv;
    BootSafe();
  }

  /** With init and one child in use there is room for another process. */
  lemma PairVacant(s: State, p: Slot)
    requires Inv(s) && s.current == 0 && Pair(s, p, s.pcbs[p].pid, s.pcbs[0].state, READY)
    ensures Vacant(s)
  {
    var x: Slot := if p == 1 then 2 else 1;
    var q, i := Somewhere(s.qs, s.pcbs, multiset{s.current}, x);
    assert Fits(s.pcbs[x], q, s.qs[q][i].key);
  }

  /** A run from boot in which 2^32 - 2 children come and go, and two more are started: the PID counter has come round,
      and the last of them has init's PID. */
  lemma WrapsOntoInit()
    ensures var r := Run(Boot(), Rounds(UINT32 - 2) + [FORK] + [FORK]);
            && r.Ok? && !DistinctPids(r.s.pcbs)
            && Holds(r.s.pcbs[0], PID_INIT) && exists p :: 0 < p < N_PCBS && Holds(r.s.pcbs[p], PID_INIT)
  {
    hide Run, Step, Boot, Rounds, Inv, DistinctPids;
    var b, evs := Boot(), Rounds(UINT32 - 2);
    BootAlone();
    RoundsAlone(b, UINT32 - 2);
    var s := Run(b, evs).s;
    RunMore(b, evs, FORK);
    RunMore(b, evs + [FORK], FORK);
    var p := AloneForks(s);
    var s1 := Step(s, FORK).s;
    PairVacant(s1, p);
    InitHolds(s1, p);
    ForksOnto(s1);
  }

  lemma InitHolds(s: State, p: Slot)
    requires Pair(s, p, 0, s.pcbs[0].state, READY)
    ensures InUse(s.pcbs, PID_INIT) && DistinctPids(s.pcbs) && Holds(s.pcbs[0], PID_INIT)
  {
    assert Holds(s.pcbs[0], PID_INIT);
  }

  lemma ForksOnto(s: State)
    requires Inv(s) && Vacant(s) && DistinctPids(s.pcbs) && InUse(s.pcbs, s.nextPid) && s.current == 0
    requires s.nextPid == PID_INIT && Holds(s.pcbs[0], PID_INIT)
    ensures var r := Step(s, FORK);
            && r.Ok? && !DistinctPids(r.s.pcbs)
            && Holds(r.s.pcbs[0], PID_INIT) && exists p :: 0 < p < N_PCBS && Holds(r.s.pcbs[p], PID_INIT)
  {
    hide Core, Step, DistinctPids, InUse, Fork;
    ForkCall(s);
    var t := Trap(s, 1, 0, 0);
    TrapInv(s, 1, 0);
    ForkTable(t);
    assert Holds(Fork(t).s.pcbs[t.qs[PCBS][0].data], PID_INIT);
    StepDistinct(s, FORK);
  }
}
