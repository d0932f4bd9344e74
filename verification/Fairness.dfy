/** Bounded waiting: nothing overtakes a ready process of the most urgent priority. */
module Fairness {
  import opened Defs
  import opened QueueSpec
  import opened KernelSpec
  import opened Placement
  import opened Safety
  import opened Families
  import opened Scheduling
  import opened Sleeping
  import opened Scenarios

  /** Process `p` is READY, with `k` entries in front of it in the most urgent queue. */
  predicate At(s: State, p: Slot, k: nat) {
    k < |s.qs[0]| && s.qs[0][k].data == p && s.pcbs[p].state == READY
  }

  /** It has run up to the CPU, or has fewer than `k` entries in front of it. */
  ghost predicate Nearer(s: State, p: Slot, k: nat) {
    s.current == p || exists j :: 0 <= j < k && At(s, p, j)
  }

  ghost predicate NearerIfOk(r: Res, p: Slot, k: nat) {
    r.Ok? ==> Nearer(r.s, p, k)
  }

  lemma IsAt(s: State, p: Slot, j: nat, k: nat)
    requires At(s, p, j) && j < k
    ensures Nearer(s, p, k)
  {
  }

  lemma NearerStill(s: State, p: Slot, j: nat, k: nat)
    requires Nearer(s, p, j) && j <= k
    ensures Nearer(s, p, k)
  {
    if s.current != p {
      var i :| 0 <= i < j && At(s, p, i);
      assert At(s, p, i);
    }
  }

  /** A dispatch takes at least one entry from in front of it, whomever it passes over. */
  lemma {:induction false} DispatchNearer(s: State, p: Slot, k: nat)
    requires At(s, p, k)
    ensures NearerIfOk(Dispatch(s), p, k)
    decreases Killed(s.pcbs)
  {
    hide Zombify;
    assert FirstReady(s.qs, 0) == 0;
    var s1 := Popped(s);
    if s.pcbs[s1.current].state == READY {
      if s1.current != p {
        RestAt(s, p, k);
        IsAt(SetState(s1, s1.current, RUNNING), p, k - 1, k);
      }
    } else if s.pcbs[s1.current].state == KILLED && Zombify(s1, s1.current).Ok? {
      var s2 := Zombify(s1, s1.current).s;
      RestAt(s, p, k);
      ZombifyLeaves(s1, p);
      ZombifyClearsKill(s1);
      DispatchNearer(s2, p, k - 1);
      if Dispatch(s2).Ok? {
        NearerStill(Dispatch(s2).s, p, k - 1, k);
      }
    }
  }

  lemma RestAt(s: State, p: Slot, k: nat)
    requires At(s, p, k) && k > 0
    ensures s.qs[0] != [] && s.qs[0][1..][k - 1] == s.qs[0][k]
  {
  }

  /** The queue has at most grown at its end, and it is still READY. */
  lemma StaysAt(s: State, t: State, p: Slot, k: nat)
    requires At(s, p, k) && s.qs[0] <= t.qs[0] && t.pcbs[p].state == READY
    ensures At(t, p, k)
  {
  }

  lemma StaysThenDispatch(s: State, t: State, p: Slot, k: nat)
    requires At(s, p, k) && s.qs[0] <= t.qs[0] && t.pcbs[p].state == READY
    ensures NearerIfOk(Dispatch(t), p, k)
  {
    hide Dispatch, NearerIfOk;
    StaysAt(s, t, p, k);
    DispatchNearer(t, p, k);
  }

  lemma ScheduleStays(s: State, x: Slot, prio: Byte, p: Slot)
    requires s.pcbs[p].state == READY
    ensures var r := Schedule(s, x, prio); r.Ok? ==> s.qs[0] <= r.s.qs[0] && r.s.pcbs[p].state == READY
  {
    hide Full;
  }

  lemma {:induction false} WakeAt(s: State, p: Slot, k: nat)
    requires At(s, p, k)
    ensures var r := WakeAll(s); r.Ok? ==> At(r.s, p, k)
    decreases |s.qs[SLEEP]|
  {
    hide Full;
    var i := KeyIndex(s.qs[SLEEP], DisciplineOf(SLEEP), s.time);
    if i < |s.qs[SLEEP]| {
      var t := Take(s, SLEEP, i);
      var r := Schedule(t, s.qs[SLEEP][i].data, 0);
      ScheduledAt(s, t, s.qs[SLEEP][i].data, 0, p, k);
      if r.Ok? {
        WakeAt(r.s, p, k);
      }
    }
  }

  lemma ScheduledAt(s: State, t: State, x: Slot, prio: Byte, p: Slot, k: nat)
    requires At(s, p, k) && t.qs[0] == s.qs[0] && t.pcbs[p].state == READY
    ensures var r := Schedule(t, x, prio); r.Ok? ==> At(r.s, p, k)
  {
    hide Schedule;
    ScheduleStays(t, x, prio, p);
  }

  lemma YieldNearer(s: State, t: State, prio: Byte, p: Slot, k: nat)
    requires At(s, p, k) && t.qs[0] == s.qs[0] && t.pcbs[p].state == READY
    ensures var r := Schedule(t, t.current, prio); r.Ok? ==> NearerIfOk(Dispatch(r.s), p, k)
  {
    hide Schedule, Dispatch, NearerIfOk, At;
    ScheduledAt(s, t, t.current, prio, p, k);
    var r := Schedule(t, t.current, prio);
    if r.Ok? {
      DispatchNearer(r.s, p, k);
    }
  }

  lemma ClockNearer(s: State, word: U32, p: Slot, k: nat)
    requires At(s, p, k)
    ensures NearerIfOk(Clock(s, word), p, k)
  {
    hide Dispatch, WakeAll, Schedule, Nearer;
    var t := Ticked(s, word);
    StaysAt(s, t, p, k);
    WakeAt(t, p, k);
    var r := WakeAll(t);
    if r.Ok? {
      YieldNearer(r.s, r.s, r.s.pcbs[r.s.current].prio, p, k);
    }
  }

  // ---- the calls ----

  /** Either nothing has been dispatched, or it has come nearer. */
  ghost predicate NoFarther(r: Res, p: Slot, k: nat) {
    r.Ok? ==> At(r.s, p, k) || Nearer(r.s, p, k)
  }

  lemma BlockNearer(s: State, pcb: Pcb, q: nat, key: U32, failed: Res, p: Slot, k: nat)
    requires At(s, p, k) && p != s.current && 0 < q < N_QUEUES && (failed.Ok? ==> At(failed.s, p, k))
    ensures NoFarther(Block(s, pcb, q, key, failed), p, k)
  {
    hide Dispatch, Nearer, Full;
    var t := Insert(Set(s, s.current, pcb), q, Entry(key, s.current));
    if t.Some? {
      StaysThenDispatch(s, t.value, p, k);
    }
  }

  lemma ExitNearer(s: State, p: Slot, k: nat)
    requires At(s, p, k) && p != s.current
    ensures NearerIfOk(Exit(s), p, k)
  {
    hide Dispatch, Zombify, Nearer;
    var t := s.(pcbs := Reparent(s.pcbs, s.pcbs[s.current].pid));
    if Zombify(t, t.current).Ok? {
      ZombifyLeaves(t, p);
      StaysThenDispatch(s, Zombify(t, t.current).s, p, k);
    }
  }

  lemma ForkStays(s: State, p: Slot, k: nat)
    requires Inv(s) && At(s, p, k)
    ensures var r := Fork(s); r.Ok? ==> At(r.s, p, k)
  {
    hide Core, Fork;
    ForkGrows(s);
    if s.qs[PCBS] == [] {
      ForkRefused(s);
    } else {
      ForkTable(s);
    }
  }

  lemma ForkGrows(s: State)
    ensures var r := Fork(s); r.Ok? ==> s.qs[0] <= r.s.qs[0]
  {
    hide Full;
  }

  lemma ReapStays(s: State, z: Slot, p: Slot, k: nat)
    requires Inv(s) && At(s, p, k) && s.pcbs[z].state == ZOMBIE
    ensures var r := Reap(s, z); r.Ok? ==> At(r.s, p, k)
  {
    hide Core, Reap;
    var freed := ReapMoves(s, z);
    ReapQueues(s, z);
  }

  lemma ReapQueues(s: State, z: Slot)
    ensures var r := Reap(s, z); r.Ok? ==> r.s.qs[0] == s.qs[0]
  {
    hide KeyIndex, Full;
  }

  lemma ExecNearer(s: State, prio: U32, p: Slot, k: nat)
    requires At(s, p, k) && p != s.current
    ensures NearerIfOk(Exec(s, prio), p, k)
  {
    hide Dispatch, Schedule, Nearer;
    var me := s.pcbs[s.current];
    var t := Set(s, s.current, me.(prio := prio % 256, user := User(0, 0, me.user.infoPid, me.user.infoStatus)));
    YieldNearer(s, t, prio % 256, p, k);
  }

  lemma WaitNearer(s: State, p: Slot, k: nat)
    requires Inv(s) && At(s, p, k) && p != s.current
    ensures NoFarther(Wait(s), p, k)
  {
    hide Core, Block, Reap, Nearer, WaitTarget;
    var me, t := s.pcbs[s.current], WaitTarget(s);
    if me.user.arg != 0 && t < N_PCBS {
      if s.pcbs[t].state == ZOMBIE {
        ReapStays(s, t, p, k);
      } else {
        BlockNearer(s, me.(state := WAITING), WAITERS, me.pid, Halt(WaitInsert), p, k);
      }
    }
  }

  lemma KillNearer(s: State, pid: U32, p: Slot, k: nat)
    requires At(s, p, k) && p != s.current && PcbFind(s.pcbs, pid, 0) != p
    ensures NoFarther(Kill(s, pid), p, k)
  {
    hide Dispatch, Schedule, Nearer, PcbFind;
    var x := PcbFind(s.pcbs, pid, 0);
    if x == s.current {
      YieldNearer(s, SetState(s, x, KILLED), s.pcbs[x].prio, p, k);
    }
  }

  lemma CallNearer(s: State, call: Call, arg1: U32, p: Slot, k: nat)
    requires Inv(s) && At(s, p, k) && p != s.current && (call == CKill ==> PcbFind(s.pcbs, arg1, 0) != p)
    ensures NoFarther(Perform(s, call, arg1), p, k)
  {
    hide Exit, Fork, Exec, Wait, Kill, Block, Core, Nearer;
    var me, c := s.pcbs[s.current], s.current;
    match call
    case CExit => ExitNearer(s, p, k);
    case CFork => ForkStays(s, p, k);
    case CExec => ExecNearer(s, arg1, p, k);
    case CWait => WaitNearer(s, p, k);
    case CKill => KillNearer(s, arg1, p, k);
    case CSleep =>
      BlockNearer(s, Asleep(s), SLEEP, Wrap(s.time + arg1), Ok(Return(Set(s, c, Asleep(s)), c, 0)), p, k);
    case CReadc => BlockNearer(s, me.(status := STATUS_BLOCKED), READING, me.pid, Halt(ReadInsert), p, k);
    case _ =>
  }

  // ---- steps and runs ----

  /** This step kills process `p`. */
  predicate Kills(s: State, ev: Event, p: Slot) {
    ev.Syscall? && Decode(ev.code) == CKill && PcbFind(s.pcbs, ev.arg1, 0) == p
  }

  /** One step that does not kill it: a clock tick takes at least one entry from in front of it or gives it the CPU,
      and no other step puts one there. */
  lemma StepAdvances(s: State, ev: Event, p: Slot, k: nat)
    requires Inv(s) && At(s, p, k) && !Kills(s, ev, p) && Step(s, ev).Ok?
    ensures Nearer(Step(s, ev).s, p, if ev.Tick? then k else k + 1)
  {
    hide Clock, Perform, Receive, Core, Nearer, At, PcbFind;
    NotRunning(s, p, k);
    match ev
    case Tick(word) => ClockNearer(s, word, p, k);
    case Rx(ch) =>
      ReceiveStays(s, ch, p, k);
      IsAt(Step(s, ev).s, p, k, k + 1);
    case Tx =>
      SendStays(s, p, k);
      IsAt(Step(s, ev).s, p, k, k + 1);
    case Syscall(code, arg1, _, infoPid) =>
      var t := Trap(s, code, arg1, infoPid);
      Rewrite(s.qs, s.pcbs, t.pcbs, multiset{s.current});
      SameFind(s.pcbs, t.pcbs, arg1, 0);
      TrapStays(s, t, p, k);
      CallNearer(t, Decode(code), arg1, p, k);
      var r := Perform(t, Decode(code), arg1).s;
      if At(r, p, k) {
        IsAt(r, p, k, k + 1);
      } else {
        NearerStill(r, p, k, k + 1);
      }
  }

  lemma NotRunning(s: State, p: Slot, k: nat)
    requires Inv(s) && At(s, p, k)
    ensures p != s.current
  {
  }

  lemma TrapStays(s: State, t: State, p: Slot, k: nat)
    requires At(s, p, k) && t.qs == s.qs && t.pcbs[p].state == s.pcbs[p].state
    ensures At(t, p, k)
  {
  }

  lemma ReceiveStays(s: State, ch: Byte, p: Slot, k: nat)
    requires At(s, p, k)
    ensures Receive(s, ch).Ok? ==> At(Receive(s, ch).s, p, k)
  {
    hide Full;
  }

  lemma SendStays(s: State, p: Slot, k: nat)
    requires At(s, p, k)
    ensures At(Transmit(s), p, k)
  {
  }

  /** At some point of the run `p` is the current process. */
  ghost predicate GetsToRun(s: State, evs: seq<Event>, p: Slot) {
    exists n :: 0 < n <= |evs| && RunsAfter(s, evs[..n], p)
  }

  predicate RunsAfter(s: State, evs: seq<Event>, p: Slot) {
    Run(s, evs).Ok? && Run(s, evs).s.current == p
  }

  lemma RunsLater(s: State, evs: seq<Event>, p: Slot)
    requires evs != [] && Step(s, evs[0]).Ok? && GetsToRun(Step(s, evs[0]).s, evs[1..], p)
    ensures GetsToRun(s, evs, p)
  {
    hide Step;
    var s1 := Step(s, evs[0]).s;
    var n :| 0 < n <= |evs| - 1 && RunsAfter(s1, evs[1..][..n], p);
    assert evs[..n + 1][0] == evs[0] && evs[..n + 1][1..] == evs[1..][..n];
    assert RunsAfter(s, evs[..n + 1], p);
  }

  lemma RunsNow(s: State, evs: seq<Event>, p: Slot)
    requires evs != [] && Step(s, evs[0]).Ok? && Step(s, evs[0]).s.current == p
    ensures GetsToRun(s, evs, p)
  {
    hide Step;
    assert evs[..1][0] == evs[0] && evs[..1][1..] == [];
    assert Run(Step(s, evs[0]).s, []) == Ok(Step(s, evs[0]).s);
    assert RunsAfter(s, evs[..1], p);
  }

  /** Nobody kills process `p` before it gets to run. */
  predicate Spared(s: State, evs: seq<Event>, p: Slot)
    decreases |evs|
  {
    evs != [] ==>
      && !Kills(s, evs[0], p)
      && var r := Step(s, evs[0]); (r.Ok? && r.s.current != p ==> Spared(r.s, evs[1..], p))
  }

  /** A process at index `k` of the most urgent queue gets to run within `k + 1` clock ticks, whatever else happens,
      other processes being killed included, unless it is itself killed before that. */
  lemma {:induction false} UrgentRunsSoon(s: State, evs: seq<Event>, p: Slot, k: nat)
    requires Inv(s) && At(s, p, k) && Spared(s, evs, p) && Run(s, evs).Ok? && k < Ticks(evs)
    ensures GetsToRun(s, evs, p)
    decreases |evs|
  {
    hide Step, GetsToRun, Inv, Kills, At;
    var s1, n := Step(s, evs[0]).s, if evs[0].Tick? then k else k + 1;
    StepAdvances(s, evs[0], p, k);
    if s1.current == p {
      RunsNow(s, evs, p);
    } else {
      StepSafe(s, evs[0]);
      var j :| 0 <= j < n && At(s1, p, j);
      UrgentRunsSoon(s1, evs[1..], p, j);
      RunsLater(s, evs, p);
    }
  }

  // ---- why it must not be killed ----

  /** The tick after which the killed child is a zombie, and init runs on. */
  lemma KilledTick(s: State, init: PState)
    requires Shape(s, [Proc(1, init), Proc(1, KILLED)], 0, [1])
    ensures Step(s, TICK).Ok? && Shape(Step(s, TICK).s, [Proc(1, RUNNING), Proc(1, ZOMBIE)], 0, [])
  {
    hide Dispatch, WakeAll, Full, Core, Peopled;
    var procs, both := [Proc(1, init), Proc(1, KILLED)], [Proc(1, READY), Proc(1, KILLED)];
    var t := Ticked(s, 0);
    Quiet0(s);
    TickedPeople(s, procs, 0);
    Behind(t, [1]);
    Rewrite(s.qs, s.pcbs, t.pcbs, multiset{0});
    Schedules(t, multiset{0}, 0, 0);
    assert multiset{0} - multiset{0} == multiset{};
    PeopledAs(t.pcbs, procs, 0, READY);
    var u := Schedule(t, 0, 0).s;
    assert [1] + [0] == [1, 0];
    assert As(procs, 0, READY) == both;
    KilledPassed(u);
    PeopledAs(u.pcbs, both, 1, ZOMBIE);
    assert As(both, 1, ZOMBIE) == [Proc(1, READY), Proc(1, ZOMBIE)];
    PeopledAs(u.pcbs[1 := u.pcbs[1].(state := ZOMBIE)], [Proc(1, READY), Proc(1, ZOMBIE)], 0, RUNNING);
    assert As([Proc(1, READY), Proc(1, ZOMBIE)], 0, RUNNING) == [Proc(1, RUNNING), Proc(1, ZOMBIE)];
    TickKeeps(s);
  }

  lemma KilledPassed(s: State)
    requires AllQueued(s) && Peopled(s.pcbs, [Proc(1, READY), Proc(1, KILLED)]) && s.qs[0] == QueueOf([1, 0])
    ensures Dispatch(s).Ok?
    ensures var r := Dispatch(s).s;
            && r.pcbs == s.pcbs[1 := s.pcbs[1].(state := ZOMBIE)][0 := s.pcbs[0].(state := RUNNING)]
            && r.current == 0 && r.nextPid == s.nextPid && r.qs[0] == QueueOf([])
            && r.qs[SLEEP] == s.qs[SLEEP] && r.qs[PCBS] == s.qs[PCBS]
  {
    hide Core, Full, PcbFind;
    var procs := [Proc(1, READY), Proc(1, KILLED)];
    PeopledAt(s.pcbs, procs, 0);
    PeopledAt(s.pcbs, procs, 1);
    PeopledPids(s.pcbs, procs);
    FindShape(s.pcbs, 2, 1);
    assert FirstReady(s.qs, 0) == 0;
    var s1 := Popped(s);
    Pops(s);
    BecomesZombie(s1);
    assert s.qs[0][1..] == QueueOf([0]);
    DispatchHead(MakeZombie(s1).s, [0]);
    assert [0][1..] == [];
  }

  lemma {:induction false} KilledRun(s: State, n: nat)
    requires Reaches(s, [], [Proc(1, FREE), Proc(1, READY)], 0, [1])
    ensures var evs := [KILL2] + Times(TICK, n);
            if n == 0 then Reaches(s, evs, [Proc(1, FREE), Proc(1, KILLED)], 0, [1])
            else Reaches(s, evs, [Proc(1, RUNNING), Proc(1, ZOMBIE)], 0, [])
  {
    hide Shape, Step, Run;
    var start := [Proc(1, FREE), Proc(1, READY)];
    if n == 0 {
      RunMore(s, [], KILL2);
      KillShape(Run(s, []).s, 2, start, 0, [1]);
      assert As(start, 1, KILLED) == [Proc(1, FREE), Proc(1, KILLED)];
      assert [] + [KILL2] == [KILL2] + Times(TICK, 0);
    } else {
      var evs, dead := [KILL2] + Times(TICK, n - 1), [Proc(1, RUNNING), Proc(1, ZOMBIE)];
      KilledRun(s, n - 1);
      assert evs + [TICK] == [KILL2] + Times(TICK, n);
      if n == 1 {
        RunMore(s, evs, TICK);
        KilledTick(Run(s, evs).s, FREE);
      } else {
        TicksAfter(s, evs, dead, 0, []);
        assert As(As(dead, 0, READY), 0, RUNNING) == dead && ([] + [0])[1..] == [];
      }
    }
  }

  lemma {:induction false} TimesPrefix(ev: Event, n: nat, m: nat)
    requires m <= n
    ensures |Times(ev, n)| == n && Times(ev, n)[..m] == Times(ev, m)
  {
    if n > 0 {
      TimesPrefix(ev, n - 1, if m < n then m else n - 1);
    }
  }

  /** Init starts a child, which is then next in the most urgent queue, and kills it: whatever the number of clock
      ticks after that, the child never runs. */
  lemma KilledNeverRuns(n: nat)
    ensures Run(Boot(), [FORK]).Ok?
    ensures var s, evs := Run(Boot(), [FORK]).s, [KILL2] + Times(TICK, n);
            Inv(s) && At(s, 1, 0) && Run(s, evs).Ok? && !GetsToRun(s, evs, 1)
  {
    hide Run, Boot, Shape, Inv, At, GetsToRun;
    AtBoot();
    ForksAfter(Boot(), [], [Proc(1, FREE)], 0, []);
    assert [] + [FORK] == [FORK] && [Proc(1, FREE)] + [Proc(1, READY)] == [Proc(1, FREE), Proc(1, READY)];
    assert [] + [1] == [1];
    ChildNext(Run(Boot(), [FORK]).s);
    NeverRuns(Run(Boot(), [FORK]).s, n);
  }

  lemma ChildNext(s: State)
    requires Shape(s, [Proc(1, FREE), Proc(1, READY)], 0, [1])
    ensures Inv(s) && At(s, 1, 0) && Reaches(s, [], [Proc(1, FREE), Proc(1, READY)], 0, [1])
  {
    hide Inv;
    PeopledAt(s.pcbs, [Proc(1, FREE), Proc(1, READY)], 1);
  }

  lemma NeverRuns(s: State, n: nat)
    requires Reaches(s, [], [Proc(1, FREE), Proc(1, READY)], 0, [1])
    ensures var evs := [KILL2] + Times(TICK, n); Run(s, evs).Ok? && !GetsToRun(s, evs, 1)
  {
    hide Reaches, RunsAfter, Times, Run;
    var evs := [KILL2] + Times(TICK, n);
    TimesPrefix(TICK, n, n);
    KilledRun(s, n);
    InitRuns(s, evs, n);
    forall m | 0 < m <= |evs|
      ensures !RunsAfter(s, evs[..m], 1)
    {
      TimesPrefix(TICK, n, m - 1);
      assert evs[..m] == [KILL2] + Times(TICK, m - 1);
      KilledRun(s, m - 1);
      InitRuns(s, [KILL2] + Times(TICK, m - 1), m - 1);
    }
  }

  lemma InitRuns(s: State, evs: seq<Event>, n: nat)
    requires if n == 0 then Reaches(s, evs, [Proc(1, FREE), Proc(1, KILLED)], 0, [1])
             else Reaches(s, evs, [Proc(1, RUNNING), Proc(1, ZOMBIE)], 0, [])
    ensures Run(s, evs).Ok? && !RunsAfter(s, evs, 1)
  {
    hide Run, Inv, Peopled;
  }
}
