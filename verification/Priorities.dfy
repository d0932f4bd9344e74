/** Strict priority: a process never runs while one that is more urgent is ready. */
module Priorities {
  import opened Defs
  import opened QueueSpec
  import opened KernelSpec
  import opened Placement
  import opened Safety
  import opened Families
  import opened Scheduling
  import opened Fairness
  import opened Answers

  ghost predicate InQueue(c: seq<Entry>, p: Slot) {
    exists i :: 0 <= i < |c| && c[i].data == p
  }

  /** Process `p` is READY, and waits for the CPU on queue `q`. */
  ghost predicate OnQueue(s: State, p: Slot, q: nat) {
    q < N_PRIORITIES && s.pcbs[p].state == READY && InQueue(s.qs[q], p)
  }

  /** The ready queues have at most grown at their ends. */
  predicate Longer(a: Table, b: Table) {
    forall q :: 0 <= q < N_PRIORITIES ==> a[q] <= b[q]
  }

  lemma StillIn(a: seq<Entry>, b: seq<Entry>, p: Slot)
    requires InQueue(a, p) && a <= b
    ensures InQueue(b, p)
  {
    var i :| 0 <= i < |a| && a[i].data == p;
    assert b[i] == a[i];
  }

  lemma RestIn(c: seq<Entry>, p: Slot)
    requires InQueue(c, p) && c[0].data != p
    ensures InQueue(c[1..], p)
  {
    var i :| 0 <= i < |c| && c[i].data == p;
    assert c[1..][i - 1] == c[i];
  }

  lemma StaysOn(s: State, t: State, p: Slot, q: nat)
    requires OnQueue(s, p, q) && Longer(s.qs, t.qs) && t.pcbs[p].state == READY
    ensures OnQueue(t, p, q)
  {
    StillIn(s.qs[q], t.qs[q], p);
  }

  // ---- a dispatch ----

  /** Whoever else ends, a READY process is not touched, and the ready queues only grow. */
  lemma ZombifyUntouched(s: State, p: Slot)
    requires Core(s.qs, s.pcbs, multiset{s.current}) && s.pcbs[s.current].state != WAITING
    requires p != s.current && s.pcbs[p].state == READY && Zombify(s, s.current).Ok?
    ensures var r := Zombify(s, s.current).s; r.pcbs[p] == s.pcbs[p] && Longer(s.qs, r.qs)
  {
    hide Core, Deliver, PcbFind, Full, Delivery;
    var parent := PcbFind(s.pcbs, s.pcbs[s.current].ppid, 0);
    if Wants(s.pcbs[parent], s.pcbs[s.current].pid) {
      var woken := DeliverMoves(s, parent);
      Untouched(s, Deliver(s, s.current, parent).s, parent, woken, p);
    }
  }

  lemma Untouched(s: State, r: State, parent: Slot, woken: Slot, p: Slot)
    requires Delivery(s, parent, woken, r) && s.pcbs[parent].state == WAITING
    requires Fits(s.pcbs[woken], WAITERS, s.pcbs[parent].pid) && p != s.current && s.pcbs[p].state == READY
    ensures r.pcbs[p] == s.pcbs[p] && Longer(s.qs, r.qs)
  {
  }

  /** The head that a dispatch takes is another process. */
  lemma HeadIsOther(s: State, p: Slot, q: nat)
    requires AllQueued(s) && OnQueue(s, p, q) && FirstReady(s.qs, 0) < N_PRIORITIES && FirstReady(s.qs, 0) != q
    ensures Popped(s).current != p && OnQueue(Popped(s), p, q)
  {
    hide Core, FirstReady;
    Pops(s);
    var s1 := Popped(s);
    HeldAway(s1, p, q);
  }

  lemma HeldAway(s: State, p: Slot, q: nat)
    requires Core(s.qs, s.pcbs, multiset{s.current}) && q < N_PRIORITIES && InQueue(s.qs[q], p)
    ensures s.current != p
  {
    HeldApart(s.qs, multiset{s.current}, s.current);
  }

  lemma PoppedKeeps(s: State, p: Slot, q: nat)
    requires OnQueue(s, p, q) && FirstReady(s.qs, 0) < N_PRIORITIES && Popped(s).current != p
    ensures OnQueue(Popped(s), p, q)
  {
    hide FirstReady;
    if q == FirstReady(s.qs, 0) {
      RestIn(s.qs[q], p);
    }
  }

  lemma FirstBefore(s: State, p: Slot, q: nat)
    requires OnQueue(s, p, q)
    ensures FirstReady(s.qs, 0) <= q
  {
  }

  /** A READY process is on its queue still after a dispatch, its PCB untouched, unless it has the CPU. */
  lemma {:induction false} DispatchKeeps(s: State, p: Slot, q: nat)
    requires AllQueued(s) && OnQueue(s, p, q) && Dispatch(s).Ok?
    ensures var r := Dispatch(s).s;
            && r.pcbs[p] == s.pcbs[p].(state := if r.current == p then RUNNING else READY)
            && (r.current != p ==> OnQueue(r, p, q))
    decreases Killed(s.pcbs)
  {
    hide Core, Zombify, FirstReady, InQueue;
    FirstBefore(s, p, q);
    var s1 := Popped(s);
    Pops(s);
    if s1.current != p {
      PoppedKeeps(s, p, q);
      if s.pcbs[s1.current].state == KILLED {
        Zombifies(s1);
        ZombifyUntouched(s1, p);
        ZombifyClearsKill(s1);
        StaysOn(s1, Zombify(s1, s1.current).s, p, q);
        DispatchKeeps(Zombify(s1, s1.current).s, p, q);
      }
    }
  }

  /** Of two READY processes on different queues a dispatch does not pick the less urgent one. */
  lemma {:induction false} DispatchRespects(s: State, a: Slot, i: nat, b: Slot, j: nat)
    requires AllQueued(s) && OnQueue(s, a, i) && OnQueue(s, b, j) && i < j && Dispatch(s).Ok?
    ensures Dispatch(s).s.current != b
    decreases Killed(s.pcbs)
  {
    hide Core, Zombify, FirstReady, InQueue;
    FirstBefore(s, a, i);
    HeadIsOther(s, b, j);
    var s1 := Popped(s);
    Pops(s);
    if s.pcbs[s1.current].state == KILLED {
      PoppedKeeps(s, a, i);
      Zombifies(s1);
      ZombifyUntouched(s1, a);
      ZombifyUntouched(s1, b);
      ZombifyClearsKill(s1);
      var s2 := Zombify(s1, s1.current).s;
      StaysOn(s1, s2, a, i);
      StaysOn(s1, s2, b, j);
      DispatchRespects(s2, a, i, b, j);
    }
  }

  /** Two processes made ready at priorities `x < y < 4`: the second is not dispatched first. */
  lemma MoreUrgentFirst(s: State, a: Slot, x: Byte, b: Slot, y: Byte)
    requires x < y < 4 && a != b && Core(s.qs, s.pcbs, multiset{a} + multiset{b})
    ensures Schedule(s, a, x).Ok? && Schedule(Schedule(s, a, x).s, b, y).Ok?
    ensures var r := Dispatch(Schedule(Schedule(s, a, x).s, b, y).s); r.Ok? ==> r.s.current != b
  {
    hide Core, Schedule, Dispatch;
    Schedules(s, multiset{a} + multiset{b}, a, x);
    assert multiset{a} + multiset{b} - multiset{a} == multiset{b};
    var s1 := Schedule(s, a, x).s;
    Schedules(s1, multiset{b}, b, y);
    assert multiset{b} - multiset{b} == multiset{};
    var s2 := Schedule(s1, b, y).s;
    SchedulePlaces(s, a, x);
    SchedulePlaces(s1, b, y);
    LastIn(s.qs[x], a);
    LastIn(s1.qs[y], b);
    assert s2.qs[x] == s.qs[x] + [Entry(0, a)];
    if Dispatch(s2).Ok? {
      DispatchRespects(s2, a, x, b, y);
    }
  }

  lemma LastIn(c: seq<Entry>, p: Slot)
    ensures InQueue(c + [Entry(0, p)], p)
  {
    assert (c + [Entry(0, p)])[|c|].data == p;
  }

  // ---- who has given up the CPU ----

  /** Once the process has yielded at this priority it is, rewritten, either running or READY on the queue that the
      priority names. */
  ghost predicate Yielded(s: State, r: State, pcb: Pcb, prio: Byte) {
    && r.pcbs[s.current] == pcb.(state := if r.current == s.current then RUNNING else READY)
    && (r.current != s.current ==> OnQueue(r, s.current, if prio < 4 then prio else 3))
  }

  lemma YieldEnds(s: State, ev: Event, pcb: Pcb, prio: Byte)
    requires Inv(s) && pcb.stack == s.pcbs[s.current].stack && Yields(s, ev, pcb, prio) && Step(s, ev).Ok?
    ensures Yielded(s, Step(s, ev).s, pcb, prio)
  {
    hide Step, Core, Dispatch, Schedule;
    var c := s.current;
    var u := Set(s, c, pcb);
    SchedulesNow(s, pcb, prio);
    Touch(s.qs, s.pcbs, multiset{c}, c, pcb);
    Schedules(u, multiset{c}, c, prio);
    assert multiset{c} - multiset{c} == multiset{};
    SchedulePlaces(u, c, prio);
    LastIn(s.qs[ReadyQueue(prio)], c);
    DispatchKeeps(Schedule(u, c, prio).s, c, ReadyQueue(prio));
  }

  /** After `exec` the caller has the new priority and the words of its fresh stack, and all else as before; it runs, or
      waits among those of its new priority. */
  lemma ExecEnds(s: State, arg1: U32, arg2: U32, infoPid: U32)
    requires Inv(s) && Step(s, Syscall(2, arg1, arg2, infoPid)).Ok?
    ensures var me := s.pcbs[s.current];
            Yielded(s, Step(s, Syscall(2, arg1, arg2, infoPid)).s,
                    me.(prio := arg1 % 256, user := User(0, 0, infoPid, me.user.infoStatus)), arg1 % 256)
  {
    hide Step, Core, Yields, Yielded;
    var me := s.pcbs[s.current];
    ExecAnswers(s, arg1, arg2, infoPid);
    YieldEnds(s, Syscall(2, arg1, arg2, infoPid),
        me.(prio := arg1 % 256, user := User(0, 0, infoPid, me.user.infoStatus)), arg1 % 256);
  }

  /** After a kill of itself it runs, or waits at its own priority, and nothing about it has changed. */
  lemma KillSelfEnds(s: State, arg1: U32, arg2: U32, infoPid: U32)
    requires Inv(s) && PcbFind(s.pcbs, arg1, 0) == s.current && Step(s, Syscall(4, arg1, arg2, infoPid)).Ok?
    ensures var me := s.pcbs[s.current];
            Yielded(s, Step(s, Syscall(4, arg1, arg2, infoPid)).s,
                    me.(user := User(4, arg1, infoPid, me.user.infoStatus)), me.prio)
  {
    hide Step, Core, Yields, Yielded, PcbFind;
    var me := s.pcbs[s.current];
    KillSelfAnswers(s, arg1, arg2, infoPid);
    YieldEnds(s, Syscall(4, arg1, arg2, infoPid), me.(user := User(4, arg1, infoPid, me.user.infoStatus)), me.prio);
  }

  /** After a tick the process interrupted runs, or waits at its own priority. */
  lemma TickEnds(s: State, word: U32)
    requires Inv(s) && Step(s, Tick(word)).Ok?
    ensures var me := s.pcbs[s.current];
            Yielded(s, Step(s, Tick(word)).s, me.(user := me.user.(arg := word)), me.prio)
  {
    hide Core, Dispatch, Schedule, WakeAll;
    var c, prio, u := s.current, s.pcbs[s.current].prio, Ticked(s, word);
    Rewrite(s.qs, s.pcbs, u.pcbs, multiset{c});
    Wakes(u);
    var v := WakeAll(u).s;
    Schedules(v, multiset{c}, c, prio);
    assert multiset{c} - multiset{c} == multiset{};
    SchedulePlaces(v, c, prio);
    LastIn(v.qs[ReadyQueue(prio)], c);
    DispatchKeeps(Schedule(v, c, prio).s, c, ReadyQueue(prio));
  }

  // ---- the steps ----

  /** The ready queues have at most grown, and whoever was READY is, but for the one killed. */
  ghost predicate Grown(s: State, t: State, victim: int) {
    && Longer(s.qs, t.qs)
    && forall p :: 0 <= p < N_PCBS && p != victim && s.pcbs[p].state == READY ==> t.pcbs[p].state == READY
  }

  /** Whom the step kills, if anybody. */
  function Victim(s: State, ev: Event): int {
    if ev.Syscall? && Decode(ev.code) == CKill then PcbFind(s.pcbs, ev.arg1, 0) else -1
  }

  /** The step ends in state `t`, with the same process running; or in a dispatch that starts there. */
  ghost predicate EndsIn(c: Slot, r: Res, t: State) {
    (r == Ok(t) && t.current == c) || (r == Dispatch(t) && AllQueued(t))
  }

  lemma {:induction false} WakeGrown(s: State)
    ensures var r := WakeAll(s); r.Ok? ==> Grown(s, r.s, -1)
    decreases |s.qs[SLEEP]|
  {
    hide Full;
    var i := KeyIndex(s.qs[SLEEP], DisciplineOf(SLEEP), s.time);
    if i < |s.qs[SLEEP]| {
      var r := Schedule(Take(s, SLEEP, i), s.qs[SLEEP][i].data, 0);
      if r.Ok? {
        WakeGrown(r.s);
      }
    }
  }

  lemma ScheduleGrown(s: State, p: Slot, prio: Byte)
    ensures var r := Schedule(s, p, prio); r.Ok? ==> Grown(s, r.s, -1)
  {
    hide Schedule;
    if Schedule(s, p, prio).Ok? {
      SchedulePlaces(s, p, prio);
    }
  }

  lemma GrownAgain(s: State, t: State, u: State, victim: int)
    requires Grown(s, t, -1) && Grown(t, u, victim)
    ensures Grown(s, u, victim)
  {
  }

  lemma YieldStarts(s: State, prio: Byte) returns (t: State)
    requires Core(s.qs, s.pcbs, multiset{s.current})
    ensures Schedule(s, s.current, prio) == Ok(t) && Grown(s, t, -1) && AllQueued(t)
  {
    hide Core, Schedule, Grown;
    Schedules(s, multiset{s.current}, s.current, prio);
    assert multiset{s.current} - multiset{s.current} == multiset{};
    ScheduleGrown(s, s.current, prio);
    t := Schedule(s, s.current, prio).s;
  }

  lemma ClockStarts(s: State, word: U32) returns (t: State)
    requires Inv(s) && Clock(s, word).Ok?
    ensures Grown(s, t, -1) && EndsIn(s.current, Clock(s, word), t)
  {
    hide Core, Dispatch, WakeAll, Schedule;
    var u := Ticked(s, word);
    Rewrite(s.qs, s.pcbs, u.pcbs, multiset{s.current});
    Wakes(u);
    WakeGrown(u);
    var v := WakeAll(u).s;
    t := YieldStarts(v, v.pcbs[v.current].prio);
    GrownAgain(u, v, t, -1);
  }

  lemma BlockStarts(s: State, pcb: Pcb, q: nat, key: U32, failed: Res) returns (t: State)
    requires Inv(s) && pcb.stack == s.pcbs[s.current].stack && SLEEP <= q < PCBS && Fits(pcb, q, key)
    ensures Grown(s, t, -1) && EndsIn(s.current, Block(s, pcb, q, key, failed), t)
  {
    hide Core, Dispatch, Fits;
    Put(s.qs, s.pcbs, multiset{s.current}, s.current, pcb, q, InsertIndex(s.qs[q], DisciplineOf(q), key), key);
    assert multiset{s.current} - multiset{s.current} == multiset{};
    t := Insert(Set(s, s.current, pcb), q, Entry(key, s.current)).value;
  }

  lemma ExitStarts(s: State) returns (t: State)
    requires Inv(s) && Exit(s).Ok?
    ensures Grown(s, t, -1) && EndsIn(s.current, Exit(s), t)
  {
    hide Core, Dispatch, Zombify;
    var u := s.(pcbs := Reparent(s.pcbs, s.pcbs[s.current].pid));
    Rewrite(s.qs, s.pcbs, u.pcbs, multiset{s.current});
    Zombifies(u);
    t := Zombify(u, u.current).s;
    ZombifyLonger(u);
    forall p: Slot | u.pcbs[p].state == READY
      ensures t.pcbs[p].state == READY
    {
      ZombifyUntouched(u, p);
    }
  }

  lemma ZombifyLonger(s: State)
    requires Zombify(s, s.current).Ok?
    ensures Longer(s.qs, Zombify(s, s.current).s.qs)
  {
    hide KeyIndex, Full;
  }

  lemma WaitStarts(s: State) returns (t: State)
    requires Inv(s) && Wait(s).Ok?
    ensures Grown(s, t, -1) && EndsIn(s.current, Wait(s), t)
  {
    hide Core, Dispatch, Block, Reap, WaitTarget;
    var me, z := s.pcbs[s.current], WaitTarget(s);
    CurrentHasStack(s);
    if me.user.arg == 0 || z == N_PCBS {
      t := Wait(s).s;
    } else if s.pcbs[z].state == ZOMBIE {
      var freed := ReapMoves(s, z);
      ReapLonger(s, z);
      t := Reap(s, z).s;
    } else {
      t := BlockStarts(s, me.(state := WAITING), WAITERS, me.pid, Halt(WaitInsert));
    }
  }

  lemma ReapLonger(s: State, z: Slot)
    ensures var r := Reap(s, z); r.Ok? ==> Longer(s.qs, r.s.qs)
  {
    hide KeyIndex, Full;
  }

  lemma KillStarts(s: State, pid: U32) returns (t: State)
    requires Inv(s) && Kill(s, pid).Ok?
    ensures Grown(s, t, PcbFind(s.pcbs, pid, 0)) && EndsIn(s.current, Kill(s, pid), t)
  {
    hide Core, Dispatch, Schedule, PcbFind;
    var x := PcbFind(s.pcbs, pid, 0);
    if x == s.current {
      KillSelfYields(s, pid);
      t := YieldStarts(s, s.pcbs[x].prio);
    } else {
      t := Kill(s, pid).s;
    }
  }

  lemma CallStarts(s: State, call: Call, arg1: U32) returns (t: State)
    requires Inv(s) && Perform(s, call, arg1).Ok?
    ensures Grown(s, t, if call == CKill then PcbFind(s.pcbs, arg1, 0) else -1)
    ensures EndsIn(s.current, Perform(s, call, arg1), t)
  {
    hide Core, Exit, Fork, Exec, Wait, Kill, Block, Dispatch, Schedule, PcbFind;
    var me, c := s.pcbs[s.current], s.current;
    CurrentHasStack(s);
    match call
    case CExit => t := ExitStarts(s);
    case CFork =>
      t := Fork(s).s;
      ForkStarts(s);
    case CExec => t := ExecStarts(s, arg1);
    case CWait => t := WaitStarts(s);
    case CKill => t := KillStarts(s, arg1);
    case CSleep =>
      t := BlockStarts(s, Asleep(s), SLEEP, Wrap(s.time + arg1), Ok(Return(Set(s, c, Asleep(s)), c, 0)));
    case CReadc =>
      if s.inp.pending != [] {
        t := ReadC(s).s;
      } else {
        t := BlockStarts(s, me.(status := STATUS_BLOCKED), READING, me.pid, Halt(ReadInsert));
      }
    case _ => t := Perform(s, call, arg1).s;
  }

  lemma ForkStarts(s: State)
    requires Inv(s)
    ensures Fork(s).Ok? && Fork(s).s.current == s.current && Grown(s, Fork(s).s, -1)
  {
    hide Core, Fork, Full;
    ForkSafe(s);
    if s.qs[PCBS] == [] {
      ForkRefused(s);
    } else {
      ForkTable(s);
      ForkValue(s);
    }
  }

  lemma ExecStarts(s: State, prio: U32) returns (t: State)
    requires Inv(s)
    ensures Grown(s, t, -1) && EndsIn(s.current, Exec(s, prio), t)
  {
    hide Core, Dispatch, Schedule;
    var me := s.pcbs[s.current];
    var u := Set(s, s.current, me.(prio := prio % 256, user := User(0, 0, me.user.infoPid, me.user.infoStatus)));
    Rewrite(s.qs, s.pcbs, u.pcbs, multiset{s.current});
    t := YieldStarts(u, prio % 256);
  }

  /** Every step, whatever it is, adds to the ready queues at their ends only, and then perhaps dispatches. */
  lemma StepStarts(s: State, ev: Event) returns (t: State)
    requires Inv(s) && Step(s, ev).Ok?
    ensures Grown(s, t, Victim(s, ev)) && EndsIn(s.current, Step(s, ev), t)
  {
    hide Clock, Perform, Receive, Core, Dispatch, PcbFind;
    match ev
    case Tick(word) => t := ClockStarts(s, word);
    case Rx(ch) =>
      t := Receive(s, ch).s;
      ReceiveGrown(s, ch);
    case Tx => t := Transmit(s);
    case Syscall(code, arg1, _, infoPid) =>
      var s0 := Trap(s, code, arg1, infoPid);
      Rewrite(s.qs, s.pcbs, s0.pcbs, multiset{s.current});
      SameFind(s.pcbs, s0.pcbs, arg1, 0);
      t := CallStarts(s0, Decode(code), arg1);
  }

  lemma ReceiveGrown(s: State, ch: Byte)
    ensures var r := Receive(s, ch); r.Ok? ==> Grown(s, r.s, -1) && r.s.current == s.current
  {
    hide Full;
  }

  /** A READY process that is not killed by the step stays where it is, or gets the CPU; and no process that is less
      urgent gets it. */
  lemma StepKeeps(s: State, ev: Event, a: Slot, i: nat)
    requires Inv(s) && Step(s, ev).Ok? && OnQueue(s, a, i) && !Kills(s, ev, a)
    ensures var r := Step(s, ev).s; r.current == a || OnQueue(r, a, i)
  {
    hide Step, Inv, OnQueue, Dispatch, PcbFind;
    var t := StepStarts(s, ev);
    NotVictim(s, t, ev, a, i);
    if t.current != s.current || Step(s, ev) != Ok(t) {
      DispatchKeeps(t, a, i);
    }
  }

  lemma NotVictim(s: State, t: State, ev: Event, p: Slot, q: nat)
    requires OnQueue(s, p, q) && Grown(s, t, Victim(s, ev)) && !Kills(s, ev, p)
    ensures OnQueue(t, p, q)
  {
    StaysOn(s, t, p, q);
  }

  lemma StepRespects(s: State, ev: Event, a: Slot, i: nat, b: Slot, j: nat)
    requires Inv(s) && Step(s, ev).Ok? && OnQueue(s, a, i) && OnQueue(s, b, j) && i < j
    requires !Kills(s, ev, a) && !Kills(s, ev, b)
    ensures Step(s, ev).s.current != b
  {
    hide Step, Inv, OnQueue, Dispatch, PcbFind;
    var t := StepStarts(s, ev);
    NotVictim(s, t, ev, a, i);
    NotVictim(s, t, ev, b, j);
    if t.current != s.current || Step(s, ev) != Ok(t) {
      DispatchRespects(t, a, i, b, j);
    } else {
      NotCurrent(s, b, j);
    }
  }

  lemma NotCurrent(s: State, p: Slot, q: nat)
    requires Inv(s) && OnQueue(s, p, q)
    ensures s.current != p
  {
  }

  /** Over any run: of two processes that are ready, on queues `i < j`, the second gets to run only after the first. A
      run in which it does is one in which the first does, if neither is killed. */
  lemma {:induction false} LessUrgentWaits(s: State, evs: seq<Event>, a: Slot, i: nat, b: Slot, j: nat)
    requires Inv(s) && OnQueue(s, a, i) && OnQueue(s, b, j) && i < j && Run(s, evs).Ok?
    requires Spared(s, evs, a) && Spared(s, evs, b)
    ensures GetsToRun(s, evs, b) ==> GetsToRun(s, evs, a)
    decreases |evs|
  {
    hide Step, GetsToRun, Inv, Kills, OnQueue, Run;
    if evs == [] {
      NobodyRuns(s, b);
    } else if GetsToRun(s, evs, b) {
      FirstStep(s, evs);
      var s1 := Step(s, evs[0]).s;
      StepKeeps(s, evs[0], a, i);
      StepKeeps(s, evs[0], b, j);
      StepRespects(s, evs[0], a, i, b, j);
      if s1.current == a {
        RunsNow(s, evs, a);
      } else {
        StepSafe(s, evs[0]);
        RanLater(s, evs, b);
        LessUrgentWaits(s1, evs[1..], a, i, b, j);
        RunsLater(s, evs, a);
      }
    }
  }

  lemma FirstStep(s: State, evs: seq<Event>)
    requires evs != [] && Run(s, evs).Ok?
    ensures Step(s, evs[0]).Ok? && Run(Step(s, evs[0]).s, evs[1..]).Ok?
  {
    hide Step;
  }

  lemma NobodyRuns(s: State, p: Slot)
    ensures !GetsToRun(s, [], p)
  {
  }

  lemma RanLater(s: State, evs: seq<Event>, p: Slot)
    requires evs != [] && Step(s, evs[0]).Ok? && GetsToRun(s, evs, p) && Step(s, evs[0]).s.current != p
    ensures GetsToRun(Step(s, evs[0]).s, evs[1..], p)
  {
    hide Step;
    var s1 := Step(s, evs[0]).s;
    var n :| 0 < n <= |evs| && RunsAfter(s, evs[..n], p);
    assert evs[..n][0] == evs[0] && evs[..n][1..] == evs[1..][..n - 1];
    assert RunsAfter(s1, evs[1..][..n - 1], p);
  }
}
