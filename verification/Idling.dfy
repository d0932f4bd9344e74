/** With one process that never gives up for good, there is always something to dispatch. */
module Idling {
  import opened Defs
  import opened QueueSpec
  import opened KernelSpec
  import opened Placement
  import opened Safety
  import opened Frames
  import opened Families
  import opened Scheduling
  import opened Reaping

  /** The process in slot `p` runs or could run. */
  predicate Awake(s: State, p: Slot) {
    s.current == p || s.pcbs[p].state == READY
  }

  ghost predicate Lively(r: Res, p: Slot) {
    match r
    case Ok(s) => Awake(s, p)
    case Halt(why) => why != AllQueuesEmpty
  }

  lemma DispatchLively(s: State, p: Slot)
    requires AllQueued(s) && s.pcbs[p].state == READY
    ensures Lively(Dispatch(s), p)
  {
    hide Core, Dispatch;
    DispatchFinds(s, p);
  }

  /** The current process goes to the back of a queue, and may be `p` itself. */
  lemma YieldLively(s: State, prio: Byte, p: Slot)
    requires Core(s.qs, s.pcbs, multiset{s.current}) && Awake(s, p)
    ensures var r := Schedule(s, s.current, prio); r.Ok? && Lively(Dispatch(r.s), p)
  {
    hide Core, Dispatch;
    Schedules(s, multiset{s.current}, s.current, prio);
    assert multiset{s.current} - multiset{s.current} == multiset{};
    DispatchLively(Schedule(s, s.current, prio).s, p);
  }

  lemma BlockLively(s: State, pcb: Pcb, q: nat, key: U32, failed: Res, p: Slot)
    requires Core(s.qs, s.pcbs, multiset{s.current}) && pcb.stack == s.pcbs[s.current].stack
    requires q < PCBS && Fits(pcb, q, key)
    requires p != s.current && s.pcbs[p].state == READY
    ensures Lively(Block(s, pcb, q, key, failed), p)
  {
    hide Core, Dispatch, Fits;
    Put(s.qs, s.pcbs, multiset{s.current}, s.current, pcb, q, InsertIndex(s.qs[q], DisciplineOf(q), key), key);
    assert multiset{s.current} - multiset{s.current} == multiset{};
    var s1 := Insert(Set(s, s.current, pcb), q, Entry(key, s.current)).value;
    DispatchLively(s1, p);
  }

  // ---- the events ----

  lemma {:induction false} WakeStays(s: State, p: Slot)
    requires s.pcbs[p].state == READY
    ensures WakeAll(s).Ok? ==> WakeAll(s).s.pcbs[p].state == READY
    decreases |s.qs[SLEEP]|
  {
    var i := KeyIndex(s.qs[SLEEP], DisciplineOf(SLEEP), s.time);
    if i < |s.qs[SLEEP]| {
      var r := Schedule(Take(s, SLEEP, i), s.qs[SLEEP][i].data, 0);
      if r.Ok? {
        WakeStays(r.s, p);
      }
    }
  }

  lemma ClockLively(s: State, word: U32, p: Slot)
    requires Inv(s) && Awake(s, p)
    ensures Lively(Clock(s, word), p)
  {
    hide Dispatch, WakeAll, Core;
    var s1 := Ticked(s, word);
    Rewrite(s.qs, s.pcbs, s1.pcbs, multiset{s.current});
    Wakes(s1);
    if s.current != p {
      WakeStays(s1, p);
    }
    var s2 := WakeAll(s1).s;
    YieldLively(s2, s2.pcbs[s2.current].prio, p);
  }

  lemma ReceiveLively(s: State, ch: Byte, p: Slot)
    requires Inv(s) && Awake(s, p)
    ensures Lively(Receive(s, ch), p)
  {
    hide Inv;
    ReceiveSafe(s, ch);
  }

  lemma ExitLively(s: State, p: Slot)
    requires Inv(s) && p != s.current && s.pcbs[p].state == READY
    ensures Lively(Exit(s), p)
  {
    hide Core, Zombify, Dispatch, PcbFind;
    CurrentHasStack(s);
    var s1 := s.(pcbs := Reparent(s.pcbs, s.pcbs[s.current].pid));
    Rewrite(s.qs, s.pcbs, s1.pcbs, multiset{s.current});
    Zombifies(s1);
    if Zombify(s1, s1.current).Ok? {
      ZombifyLeaves(s1, p);
      DispatchLively(Zombify(s1, s1.current).s, p);
    }
  }

  lemma ForkLively(s: State, p: Slot)
    requires Inv(s) && Awake(s, p)
    ensures Lively(Fork(s), p)
  {
    hide Core, Fork;
    ForkSafe(s);
    if s.qs[PCBS] == [] {
      ForkRefused(s);
    } else {
      ForkTable(s);
      ForkSameCurrent(s);
    }
  }

  lemma ForkSameCurrent(s: State)
    ensures Fork(s).Ok? ==> Fork(s).s.current == s.current
  {
  }

  /** The process's call ends in blocking, or in its end. */
  predicate GivesUp(s: State, call: Call) {
    match call
    case CExit => true
    case CSleep => true
    case CReadc => s.inp.pending == []
    case CWait => s.pcbs[s.current].user.arg != 0 && WaitTarget(s) < N_PCBS && s.pcbs[WaitTarget(s)].state != ZOMBIE
    case _ => false
  }

  lemma WaitLively(s: State, p: Slot)
    requires Inv(s) && Awake(s, p) && (s.current == p ==> !GivesUp(s, CWait))
    ensures Lively(Wait(s), p)
  {
    hide Core, Block, Reap, WaitTarget;
    var me, t := s.pcbs[s.current], WaitTarget(s);
    if me.user.arg != 0 && t < N_PCBS {
      if s.pcbs[t].state == ZOMBIE {
        var freed := ReapMoves(s, t);
      } else {
        CurrentHasStack(s);
        BlockLively(s, me.(state := WAITING), WAITERS, me.pid, Halt(WaitInsert), p);
      }
    }
  }

  lemma SleepLively(s: State, ticks: U32, p: Slot)
    requires Inv(s) && p != s.current && s.pcbs[p].state == READY
    ensures Lively(Sleep(s, ticks), p)
  {
    hide Block, Return, Core;
    CurrentHasStack(s);
    BlockLively(s, Asleep(s), SLEEP, Wrap(s.time + ticks), Ok(Return(Set(s, s.current, Asleep(s)), s.current, 0)), p);
  }

  lemma ReadLively(s: State, p: Slot)
    requires Inv(s) && Awake(s, p) && (s.current == p ==> s.inp.pending != [])
    ensures Lively(ReadC(s), p)
  {
    hide Block, Core;
    if s.inp.pending == [] {
      var me := s.pcbs[s.current];
      CurrentHasStack(s);
      BlockLively(s, me.(status := STATUS_BLOCKED), READING, me.pid, Halt(ReadInsert), p);
    }
  }

  lemma ExecLively(s: State, prio: U32, p: Slot)
    requires Inv(s) && Awake(s, p)
    ensures Lively(Exec(s, prio), p)
  {
    hide Dispatch, Core;
    var me := s.pcbs[s.current];
    var pcb := me.(prio := prio % 256, user := User(0, 0, me.user.infoPid, me.user.infoStatus));
    var s1 := Set(s, s.current, pcb);
    Rewrite(s.qs, s.pcbs, s1.pcbs, multiset{s.current});
    CurrentHasStack(s);
    YieldLively(s1, prio % 256, p);
  }

  lemma KillLively(s: State, pid: U32, p: Slot)
    requires Inv(s) && Awake(s, p) && (s.current != p ==> PcbFind(s.pcbs, pid, 0) != p)
    ensures Lively(Kill(s, pid), p)
  {
    hide Dispatch, Core, Schedule;
    var x := PcbFind(s.pcbs, pid, 0);
    if x == s.current {
      var s1 := SetState(s, x, KILLED);
      CurrentHasStack(s);
      Rewrite(s.qs, s.pcbs, s1.pcbs, multiset{s.current});
      YieldLively(s1, s1.pcbs[x].prio, p);
    }
  }

  // ---- steps and runs ----

  /** Process `p` does not end or block itself with this event, and nobody kills it. */
  predicate Restless(s: State, ev: Event, p: Slot) {
    ev.Syscall? ==>
      if s.current == p then !GivesUp(Trap(s, ev.code, ev.arg1, ev.infoPid), Decode(ev.code))
      else Decode(ev.code) == CKill ==> PcbFind(s.pcbs, ev.arg1, 0) != p
  }

  lemma CallLively(s: State, call: Call, arg1: U32, p: Slot)
    requires Inv(s) && Awake(s, p)
    requires if s.current == p then !GivesUp(s, call) else call == CKill ==> PcbFind(s.pcbs, arg1, 0) != p
    ensures Lively(Perform(s, call, arg1), p)
  {
    hide Exit, Fork, Exec, Wait, Kill, Sleep, ReadC, Inv, WaitTarget;
    match call
    case CExit => ExitLively(s, p);
    case CFork => ForkLively(s, p);
    case CExec => ExecLively(s, arg1, p);
    case CWait => WaitLively(s, p);
    case CKill => KillLively(s, arg1, p);
    case CSleep => SleepLively(s, arg1, p);
    case CReadc => ReadLively(s, p);
    case _ =>
  }

  /** Every step leaves `p` awake, or stops for another reason than that there is nothing to dispatch. */
  lemma StepLively(s: State, ev: Event, p: Slot)
    requires Inv(s) && Awake(s, p) && Restless(s, ev, p)
    ensures Lively(Step(s, ev), p)
  {
    hide Perform, Clock, Receive, Core, GivesUp, Lively;
    match ev
    case Tick(word) => ClockLively(s, word, p);
    case Rx(ch) => ReceiveLively(s, ch, p);
    case Tx => SendLively(s, p);
    case Syscall(code, arg1, _, infoPid) =>
      var s0 := Trap(s, code, arg1, infoPid);
      Rewrite(s.qs, s.pcbs, s0.pcbs, multiset{s.current});
      SameFind(s.pcbs, s0.pcbs, arg1, 0);
      CallLively(s0, Decode(code), arg1, p);
  }

  lemma SendLively(s: State, p: Slot)
    requires Awake(s, p)
    ensures Lively(Ok(Transmit(s)), p)
  {
  }

  predicate AllRestless(s: State, evs: seq<Event>, p: Slot)
    decreases |evs|
  {
    evs != [] ==> Restless(s, evs[0], p) && (Step(s, evs[0]).Ok? ==> AllRestless(Step(s, evs[0]).s, evs[1..], p))
  }

  /** A run in which one process is awake, never gives up and is never killed does not run out of processes: what an
      idle process is for. */
  lemma {:induction false} NeverEmpty(s: State, evs: seq<Event>, p: Slot)
    requires Inv(s) && Awake(s, p) && AllRestless(s, evs, p)
    ensures Lively(Run(s, evs), p)
    decreases |evs|
  {
    hide Step, Restless, Inv;
    if evs != [] {
      StepLively(s, evs[0], p);
      if Step(s, evs[0]).Ok? {
        StepSafe(s, evs[0]);
        NeverEmpty(Step(s, evs[0]).s, evs[1..], p);
      }
    }
  }

  /** From boot: after any run, and for any process that is awake then. */
  lemma IdleFromBoot(evs: seq<Event>, more: seq<Event>, p: Slot)
    requires Run(Boot(), evs).Ok?
    requires var s := Run(Boot(), evs).s; Awake(s, p) && AllRestless(s, more, p)
    ensures Run(Run(Boot(), evs).s, more) != Halt(AllQueuesEmpty)
  {
    hide Run, Boot, Inv, Started, AllRestless, Awake;
    BootSafe();
    RunSafe(Boot(), evs);
    NeverEmpty(Run(Boot(), evs).s, more, p);
  }

  /** Without such a process it can come to that: init, alone, asking for a character. */
  lemma NobodyIdles()
    ensures Run(Boot(), [Syscall(6, 0, 0, 0)]) == Halt(AllQueuesEmpty)
  {
    var s := Trap(Boot(), 6, 0, 0);
    assert FirstReady(Boot().qs, 0) == N_PRIORITIES;
    NobodyQueued(s);
  }

  lemma NobodyQueued(s: State)
    requires s.inp.pending == [] && !Full(s.qs) && FirstReady(s.qs, 0) == N_PRIORITIES
    ensures ReadC(s) == Halt(AllQueuesEmpty)
  {
    var me := s.pcbs[s.current];
    var t := Insert(Set(s, s.current, me.(status := STATUS_BLOCKED)), READING, Entry(me.pid, s.current)).value;
    assert forall q :: 0 <= q < N_PRIORITIES ==> t.qs[q] == [];
  }
}
