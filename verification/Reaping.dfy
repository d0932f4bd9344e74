/** What `wait` returns: whom it reaps, and with which status. */
module Reaping {
  import opened Defs
  import opened QueueSpec
  import opened KernelSpec
  import opened Placement
  import opened Safety
  import opened Families

  // ---- whom ----

  /** A zombie child of the current process. */
  ghost predicate HasZombieChild(s: State) {
    exists z :: 0 <= z < N_PCBS && IsZombieChild(s.pcbs[z], s.pcbs[s.current].pid)
  }

  predicate IsZombieChild(pcb: Pcb, pid: U32) {
    pcb.ppid == pid && pcb.state == ZOMBIE
  }

  /** Waiting for any child looks at a zombie child if there is one, and otherwise at the last table slot,
      whoever that is. */
  lemma AnyTarget(s: State)
    requires s.pcbs[s.current].user.infoPid == 0
    ensures var t := WaitTarget(s);
            && t < N_PCBS
            && (HasZombieChild(s) ==> IsZombieChild(s.pcbs[t], s.pcbs[s.current].pid))
            && (!HasZombieChild(s) ==> t == N_PCBS - 1)
  {
    var z := ZombieChild(s.pcbs, s.pcbs[s.current].pid, 0);
    if z < N_PCBS {
      assert IsZombieChild(s.pcbs[z], s.pcbs[s.current].pid);
    }
  }

  /** A call to `wait` with a usable pointer gives its caller a zombie at once exactly when its target is one;
      that zombie is no child of the caller exactly when the caller named a stranger, or asked for any child,
      has no zombie child, and the last table slot happens to hold somebody's zombie. */
  lemma ReapsStranger(s: State)
    requires Inv(s) && Pids(s.pcbs)
    ensures var me, t := s.pcbs[s.current], WaitTarget(s);
            (t < N_PCBS && s.pcbs[t].state == ZOMBIE && s.pcbs[t].ppid != me.pid)
            <==> if me.user.infoPid > 0 then
                   exists z :: 0 <= z < N_PCBS && s.pcbs[z].pid == me.user.infoPid
                     && s.pcbs[z].state == ZOMBIE && s.pcbs[z].ppid != me.pid
                 else !HasZombieChild(s) && s.pcbs[N_PCBS - 1].state == ZOMBIE
  {
    var me, t := s.pcbs[s.current], WaitTarget(s);
    if me.user.infoPid == 0 {
      AnyTarget(s);
      assert IsZombieChild(s.pcbs[N_PCBS - 1], me.pid) ==> HasZombieChild(s);
    } else if z :| 0 <= z < N_PCBS && s.pcbs[z].pid == me.user.infoPid && s.pcbs[z].state == ZOMBIE {
      assert t < N_PCBS && s.pcbs[t].state != FREE && s.pcbs[t].pid == s.pcbs[z].pid;
      assert t == z;
    }
  }

  /** One of these processes, a zombie or a killed one, is the one that `pcb` has been told about. */
  ghost predicate Told(pcbs: Pcbs, pcb: Pcb) {
    exists z :: 0 <= z < N_PCBS && Names(pcbs[z], pcb)
  }

  predicate Names(child: Pcb, pcb: Pcb) {
    (child.state == ZOMBIE || child.state == KILLED) && child.pid == pcb.user.infoPid
  }

  /** Ready, and perhaps dispatched, with its own memory untouched. */
  predicate Ran(a: Pcb, b: Pcb) {
    (b.state == READY || b.state == RUNNING) && b.user == a.user
  }

  lemma {:induction false} DispatchLeaves(s: State, p: Slot)
    requires AllQueued(s) && Pids(s.pcbs) && Dispatch(s).Ok? && s.pcbs[p].state == READY
    ensures Ran(s.pcbs[p], Dispatch(s).s.pcbs[p])
    decreases Killed(s.pcbs)
  {
    hide Core, Zombify, FirstReady, Pids;
    var s1 := Popped(s);
    Pops(s);
    if s.pcbs[s1.current].state == KILLED {
      PopsKilled(s);
      RoundLeaves(s, p);
      DispatchLeaves(Zombify(s1, s1.current).s, p);
    }
  }

  lemma RoundLeaves(s: State, p: Slot)
    requires AllQueued(s) && Pids(s.pcbs) && FirstReady(s.qs, 0) < N_PRIORITIES
    requires var s1 := Popped(s); s.pcbs[s1.current].state == KILLED && Zombify(s1, s1.current).Ok?
    ensures var s1 := Popped(s);
            var a, b, c := s.pcbs[p], Zombify(s1, s1.current).s.pcbs[p], s.pcbs[s1.current];
            && (a.state == READY ==> b == a)
            && (a.state == WAITING ==> b == a || (b.state == READY && c.pid == b.user.infoPid))
  {
    hide Core, Zombify, FirstReady;
    var s1 := Popped(s);
    PopsKilled(s);
    ZombifyTable(s1);
    var parent := PcbFind(s1.pcbs, s1.pcbs[s1.current].ppid, 0);
    if Wants(s1.pcbs[parent], s1.pcbs[s1.current].pid) {
      ZombifyTells(s1, parent);
    }
  }

  lemma ZombifyTells(s: State, parent: Slot)
    requires Core(s.qs, s.pcbs, multiset{s.current}) && Pids(s.pcbs) && s.pcbs[s.current].state != WAITING
    requires parent == PcbFind(s.pcbs, s.pcbs[s.current].ppid, 0) && Wants(s.pcbs[parent], s.pcbs[s.current].pid)
    ensures var r := Zombify(s, s.current);
            r.Ok? && s.pcbs[s.current].pid == r.s.pcbs[parent].user.infoPid
  {
    DeliverTable(s, parent);
  }

  /** Who is told about in a later round was there in this one. */
  lemma RoundTold(s: State, pcb: Pcb)
    requires AllQueued(s) && Pids(s.pcbs) && FirstReady(s.qs, 0) < N_PRIORITIES
    requires var s1 := Popped(s);
             s.pcbs[s1.current].state == KILLED && Zombify(s1, s1.current).Ok?
               && Told(Zombify(s1, s1.current).s.pcbs, pcb)
    ensures Told(s.pcbs, pcb)
  {
    hide Core, Zombify, FirstReady, PcbFind;
    var s1 := Popped(s);
    PopsKilled(s);
    ZombifyTable(s1);
    var s2 := Zombify(s1, s1.current).s;
    var z :| 0 <= z < N_PCBS && Names(s2.pcbs[z], pcb);
    assert Names(s.pcbs[z], pcb);
  }

  lemma {:induction false} DispatchTells(s: State, p: Slot)
    requires AllQueued(s) && Pids(s.pcbs) && Dispatch(s).Ok? && s.pcbs[p].state == WAITING
    ensures var a, b := s.pcbs[p], Dispatch(s).s.pcbs[p]; b == a || Told(s.pcbs, b)
    decreases Killed(s.pcbs)
  {
    hide Core, Zombify, FirstReady, Pids, Told;
    var s1 := Popped(s);
    Pops(s);
    if s.pcbs[s1.current].state == KILLED {
      var s2 := Zombify(s1, s1.current).s;
      PopsKilled(s);
      RoundLeaves(s, p);
      if s2.pcbs[p].state == WAITING {
        DispatchTells(s2, p);
        if Told(s2.pcbs, Dispatch(s2).s.pcbs[p]) {
          RoundTold(s, Dispatch(s2).s.pcbs[p]);
        }
      } else {
        DispatchLeaves(s2, p);
        ToldNow(s.pcbs, s1.current, Dispatch(s2).s.pcbs[p]);
      }
    }
  }

  lemma ToldNow(pcbs: Pcbs, c: Slot, pcb: Pcb)
    requires Names(pcbs[c], pcb)
    ensures Told(pcbs, pcb)
  {
  }

  /** Waiting for any child never answers that there is none.  When the call is over its caller is blocked and has
      been told nothing, or it has been told the PID of a process that was a zombie or had been killed. */
  lemma AnyNeverRefuses(s: State)
    requires Inv(s) && Pids(s.pcbs) && s.pcbs[s.current].user.arg != 0 && s.pcbs[s.current].user.infoPid == 0
    requires Wait(s).Ok?
    ensures var a, b := s.pcbs[s.current], Wait(s).s.pcbs[s.current]; b == a.(state := WAITING) || Told(s.pcbs, b)
  {
    hide Core, Told, WaitTarget, Block, Reap;
    var t := WaitTarget(s);
    AnyTarget(s);
    if s.pcbs[t].state == ZOMBIE {
      ReapTable(s, t);
      ToldNow(s.pcbs, t, Reap(s, t).s.pcbs[s.current]);
    } else {
      BlockTells(s, t);
    }
  }

  lemma BlockTells(s: State, t: Slot)
    requires Inv(s) && Pids(s.pcbs) && t == WaitTarget(s) && s.pcbs[t].state != ZOMBIE
    requires var me := s.pcbs[s.current]; Block(s, me.(state := WAITING), WAITERS, me.pid, Halt(WaitInsert)).Ok?
    ensures var c, me := s.current, s.pcbs[s.current];
            var b := Block(s, me.(state := WAITING), WAITERS, me.pid, Halt(WaitInsert)).s.pcbs[c];
            b == me.(state := WAITING) || Told(s.pcbs, b)
  {
    hide Core, WaitTarget, Dispatch, Full;
    var c, me := s.current, s.pcbs[s.current];
    CurrentHasStack(s);
    Put(s.qs, s.pcbs, multiset{c}, c, me.(state := WAITING), WAITERS,
        InsertIndex(s.qs[WAITERS], DisciplineOf(WAITERS), me.pid), me.pid);
    assert multiset{c} - multiset{c} == multiset{};
    var s' := Insert(Set(s, c, me.(state := WAITING)), WAITERS, Entry(me.pid, c)).value;
    DispatchTells(s', c);
    var b := Dispatch(s').s.pcbs[c];
    if z :| 0 <= z < N_PCBS && Names(s'.pcbs[z], b) {
      assert Names(s.pcbs[z], b);
    }
  }

  // ---- with which status ----

  /** Exit hands its argument to a parent that is already waiting for it; otherwise the process keeps the
      status field it had. */
  lemma ExitStatus(s: State)
    requires Core(s.qs, s.pcbs, multiset{s.current}) && s.pcbs[s.current].state != WAITING
    requires Pids(s.pcbs) && Zombify(s, s.current).Ok?
    ensures var me, pcbs', parent := s.pcbs[s.current], Zombify(s, s.current).s.pcbs,
              PcbFind(s.pcbs, s.pcbs[s.current].ppid, 0);
            && parent < N_PCBS
            && (Wants(s.pcbs[parent], me.pid) ==>
                  pcbs'[parent].user.infoPid == me.pid && pcbs'[parent].user.infoStatus == me.user.arg)
            && (!Wants(s.pcbs[parent], me.pid) ==>
                  pcbs'[s.current].state == ZOMBIE && pcbs'[s.current].status == me.status)
  {
    ZombifyTable(s);
    var parent := PcbFind(s.pcbs, s.pcbs[s.current].ppid, 0);
    if Wants(s.pcbs[parent], s.pcbs[s.current].pid) {
      DeliverTable(s, parent);
    }
  }

  /** Every process still there keeps its PID and its status field. */
  predicate Kept(a: Pcbs, b: Pcbs) {
    forall p :: 0 <= p < N_PCBS ==> Same(a[p], b[p])
  }

  predicate Same(a: Pcb, b: Pcb) {
    b.stack.None? || (a.stack.Some? && b.pid == a.pid && b.status == a.status)
  }

  lemma ZombifyKept(s: State)
    ensures var r := Zombify(s, s.current); r.Ok? ==> Kept(s.pcbs, r.s.pcbs)
  {
    hide Deliver;
    var parent := PcbFind(s.pcbs, s.pcbs[s.current].ppid, 0);
    if parent < N_PCBS {
      DeliverKept(s, parent);
    }
  }

  lemma DeliverKept(s: State, parent: Slot)
    ensures var r := Deliver(s, s.current, parent); r.Ok? ==> Kept(s.pcbs, r.s.pcbs)
  {
    hide KeyIndex, Full;
  }

  lemma {:induction false} DispatchKept(s: State)
    ensures var r := Dispatch(s); r.Ok? ==> Kept(s.pcbs, r.s.pcbs)
    decreases Killed(s.pcbs)
  {
    hide Zombify, FirstReady;
    if FirstReady(s.qs, 0) < N_PRIORITIES {
      var s1 := Popped(s);
      if s.pcbs[s1.current].state == KILLED {
        ZombifyKept(s1);
        if Zombify(s1, s1.current).Ok? {
          ZombifyClearsKill(s1);
          DispatchKept(Zombify(s1, s1.current).s);
        }
      }
    }
  }

  lemma {:induction false} WakeKept(s: State)
    ensures var r := WakeAll(s); r.Ok? ==> Kept(s.pcbs, r.s.pcbs)
    decreases |s.qs[SLEEP]|
  {
    var i := KeyIndex(s.qs[SLEEP], DisciplineOf(SLEEP), s.time);
    if i < |s.qs[SLEEP]| {
      var r := Schedule(Take(s, SLEEP, i), s.qs[SLEEP][i].data, 0);
      if r.Ok? {
        WakeKept(r.s);
      }
    }
  }

  lemma BlockKept(s: State, pcb: Pcb, q: nat, key: U32, failed: Res)
    requires q < N_QUEUES && (failed.Ok? ==> failed.s.pcbs == Return(Set(s, s.current, pcb), s.current, 0).pcbs)
    ensures var r := Block(s, pcb, q, key, failed); r.Ok? ==> Kept(s.pcbs[s.current := pcb], r.s.pcbs)
  {
    hide Dispatch;
    var r := Insert(Set(s, s.current, pcb), q, Entry(key, s.current));
    if r.Some? {
      DispatchKept(r.value);
    }
  }

  lemma ScheduleDispatchKept(s: State, p: Slot, prio: Byte)
    ensures var r := Schedule(s, p, prio); r.Ok? && Dispatch(r.s).Ok? ==> Kept(s.pcbs, Dispatch(r.s).s.pcbs)
  {
    hide Dispatch;
    var r := Schedule(s, p, prio);
    if r.Ok? {
      DispatchKept(r.s);
    }
  }

  /** The calls that start no process and store no status. */
  lemma PerformKept(s: State, call: Call, arg1: U32)
    requires call != CFork && call != CReadc
    ensures var r := Perform(s, call, arg1); r.Ok? ==> Kept(s.pcbs, r.s.pcbs)
  {
    hide Exit, Wait, Dispatch, Block, Schedule;
    var me, c := s.pcbs[s.current], s.current;
    match call
    case CExit => ExitKept(s);
    case CExec =>
      var s1 := Set(s, c, me.(prio := arg1 % 256, user := User(0, 0, me.user.infoPid, me.user.infoStatus)));
      ScheduleDispatchKept(s1, c, arg1 % 256);
    case CWait => WaitKept(s);
    case CKill =>
      var p := PcbFind(s.pcbs, arg1, 0);
      if p < N_PCBS {
        var s1 := SetState(s, p, KILLED);
        ScheduleDispatchKept(s1, p, s1.pcbs[p].prio);
      }
    case CSleep =>
      BlockKept(s, Asleep(s), SLEEP, Wrap(s.time + arg1), Ok(Return(Set(s, c, Asleep(s)), c, 0)));
    case _ =>
  }

  lemma ExitKept(s: State)
    ensures var r := Exit(s); r.Ok? ==> Kept(s.pcbs, r.s.pcbs)
  {
    hide Zombify, Dispatch;
    var s1 := s.(pcbs := Reparent(s.pcbs, s.pcbs[s.current].pid));
    ZombifyKept(s1);
    if Zombify(s1, s1.current).Ok? {
      DispatchKept(Zombify(s1, s1.current).s);
    }
  }

  lemma WaitKept(s: State)
    ensures var r := Wait(s); r.Ok? ==> Kept(s.pcbs, r.s.pcbs)
  {
    hide Block, Reap;
    var me, t := s.pcbs[s.current], WaitTarget(s);
    BlockKept(s, me.(state := WAITING), WAITERS, me.pid, Halt(WaitInsert));
    if t < N_PCBS {
      ReapKept(s, t);
    }
  }

  lemma ReapKept(s: State, z: Slot)
    ensures var r := Reap(s, z); r.Ok? ==> Kept(s.pcbs, r.s.pcbs)
  {
  }

  lemma ReceiveKept(s: State, ch: Byte)
    ensures var r := Receive(s, ch); r.Ok? ==> Kept(s.pcbs, r.s.pcbs)
  {
  }

  lemma ClockKept(s: State, word: U32)
    ensures var r := Clock(s, word); r.Ok? ==> Kept(s.pcbs, r.s.pcbs)
  {
    hide WakeAll, Dispatch, Schedule;
    var r := WakeAll(Ticked(s, word));
    WakeKept(Ticked(s, word));
    if r.Ok? {
      ScheduleDispatchKept(r.s, r.s.current, r.s.pcbs[r.s.current].prio);
    }
  }

  /** The current process asks for a character when there is none. */
  predicate BlocksReading(s: State, ev: Event) {
    ev.Syscall? && Decode(ev.code) == CReadc && s.inp.pending == []
  }

  /** Of these processes the ones still there: a slot that has been freed is forgotten. */
  ghost function Still(pcbs: Pcbs, readers: set<Slot>): set<Slot> {
    set p | p in readers && pcbs[p].stack.Some?
  }

  ghost function ReadersNow(s: State, ev: Event, readers: set<Slot>): set<Slot> {
    if BlocksReading(s, ev) then readers + {s.current} else readers
  }

  /** The slots of the processes there after a run that have ever blocked in `readc`: in the run, or, the given ones,
      before it. */
  ghost function Readers(s: State, evs: seq<Event>, before: set<Slot>): set<Slot>
    decreases |evs|
  {
    if evs == [] || Step(s, evs[0]).Halt? then before
    else
      var s' := Step(s, evs[0]).s;
      Readers(s', evs[1..], Still(s'.pcbs, ReadersNow(s, evs[0], before)))
  }

  /** The status field of every process says whether it is one of these. */
  ghost predicate Marked(pcbs: Pcbs, readers: set<Slot>) {
    forall p: Slot :: MarkedAt(pcbs[p], p in readers)
  }

  predicate MarkedAt(pcb: Pcb, reader: bool) {
    if pcb.stack.Some? then pcb.status == (if reader then STATUS_BLOCKED else 0) else !reader
  }

  lemma KeptMarked(a: Pcbs, b: Pcbs, readers: set<Slot>)
    requires Marked(a, readers) && Kept(a, b)
    ensures Marked(b, Still(b, readers))
  {
    forall p: Slot
      ensures MarkedAt(b[p], p in Still(b, readers))
    {
      assert MarkedAt(a[p], p in readers) && Same(a[p], b[p]);
    }
  }

  lemma ForkMarked(s: State, readers: set<Slot>)
    requires Inv(s) && Marked(s.pcbs, readers)
    ensures Fork(s).Ok? && Marked(Fork(s).s.pcbs, Still(Fork(s).s.pcbs, readers))
  {
    hide Core, Fork;
    if s.qs[PCBS] == [] {
      ForkRefused(s);
      KeptMarked(s.pcbs, Fork(s).s.pcbs, readers);
    } else {
      ForkTable(s);
      ChildMarked(s.pcbs, Fork(s).s.pcbs, s.qs[PCBS][0].data, readers);
    }
  }

  /** A new process has a clear status field, whoever was in its slot before. */
  lemma ChildMarked(a: Pcbs, b: Pcbs, p: Slot, readers: set<Slot>)
    requires Marked(a, readers) && a[p].stack.None? && b[p].stack.Some? && b[p].status == 0
    requires forall x :: 0 <= x < N_PCBS && x != p ==> Same(a[x], b[x])
    ensures Marked(b, Still(b, readers))
  {
    forall x: Slot
      ensures MarkedAt(b[x], x in Still(b, readers))
    {
      assert MarkedAt(a[x], x in readers) && MarkedAt(a[p], p in readers);
    }
  }

  lemma ReadMarked(s: State, readers: set<Slot>)
    requires Inv(s) && Marked(s.pcbs, readers) && ReadC(s).Ok?
    ensures var r := ReadC(s).s.pcbs;
            Marked(r, Still(r, if s.inp.pending == [] then readers + {s.current} else readers))
  {
    hide Core, Block, Marked, Still;
    CurrentHasStack(s);
    if s.inp.pending == [] {
      var me := s.pcbs[s.current];
      BlockKept(s, me.(status := STATUS_BLOCKED), READING, me.pid, Halt(ReadInsert));
      OneMarked(s.pcbs, s.current, readers);
      KeptMarked(s.pcbs[s.current := me.(status := STATUS_BLOCKED)], ReadC(s).s.pcbs, readers + {s.current});
    } else {
      KeptMarked(s.pcbs, ReadC(s).s.pcbs, readers);
    }
  }

  lemma OneMarked(pcbs: Pcbs, c: Slot, readers: set<Slot>)
    requires Marked(pcbs, readers) && pcbs[c].stack.Some?
    ensures Marked(pcbs[c := pcbs[c].(status := STATUS_BLOCKED)], readers + {c})
  {
    var b: Pcbs := pcbs[c := pcbs[c].(status := STATUS_BLOCKED)];
    forall p: Slot
      ensures MarkedAt(b[p], p in readers + {c})
    {
      assert MarkedAt(pcbs[p], p in readers);
    }
  }

  lemma StepMarked(s: State, ev: Event, readers: set<Slot>)
    requires Inv(s) && Marked(s.pcbs, readers) && Step(s, ev).Ok?
    ensures var r := Step(s, ev).s.pcbs; Marked(r, Still(r, ReadersNow(s, ev, readers)))
  {
    hide Perform, Clock, Receive, Core, Marked, Still;
    match ev
    case Tick(word) =>
      ClockKept(s, word);
      KeptMarked(s.pcbs, Step(s, ev).s.pcbs, readers);
    case Rx(ch) =>
      ReceiveKept(s, ch);
      KeptMarked(s.pcbs, Step(s, ev).s.pcbs, readers);
    case Tx => KeptMarked(s.pcbs, Step(s, ev).s.pcbs, readers);
    case Syscall(code, arg1, _, infoPid) =>
      var s0 := Trap(s, code, arg1, infoPid);
      Rewrite(s.qs, s.pcbs, s0.pcbs, multiset{s.current});
      TrapMarked(s.pcbs, s0.pcbs, readers);
      CallMarked(s0, Decode(code), arg1, readers);
  }

  lemma TrapMarked(a: Pcbs, b: Pcbs, readers: set<Slot>)
    requires Marked(a, readers) && forall p :: 0 <= p < N_PCBS ==> b[p] == a[p].(user := b[p].user)
    ensures Marked(b, readers)
  {
    forall p: Slot
      ensures MarkedAt(b[p], p in readers)
    {
      assert MarkedAt(a[p], p in readers);
    }
  }

  lemma CallMarked(s: State, call: Call, arg1: U32, readers: set<Slot>)
    requires Inv(s) && Marked(s.pcbs, readers) && Perform(s, call, arg1).Ok?
    ensures var r := Perform(s, call, arg1).s.pcbs;
            Marked(r, Still(r, if call == CReadc && s.inp.pending == [] then readers + {s.current} else readers))
  {
    hide Exit, Fork, Exec, Wait, Kill, Sleep, ReadC, Core, Marked, Still;
    if call == CFork {
      ForkMarked(s, readers);
    } else if call == CReadc {
      ReadMarked(s, readers);
    } else {
      PerformKept(s, call, arg1);
      KeptMarked(s.pcbs, Perform(s, call, arg1).s.pcbs, readers);
    }
  }

  lemma {:induction false} RunMarked(s: State, evs: seq<Event>, before: set<Slot>)
    requires Inv(s) && Marked(s.pcbs, before)
    ensures var r := Run(s, evs); r.Ok? ==> Inv(r.s) && Marked(r.s.pcbs, Readers(s, evs, before))
    decreases |evs|
  {
    hide Step, Marked, Still, ReadersNow, Inv;
    if evs != [] && Step(s, evs[0]).Ok? {
      var s' := Step(s, evs[0]).s;
      StepSafe(s, evs[0]);
      StepMarked(s, evs[0], before);
      RunMarked(s', evs[1..], Still(s'.pcbs, ReadersNow(s, evs[0], before)));
    }
  }

  lemma BootMarked()
    ensures Marked(Boot().pcbs, {})
  {
  }

  /** Whatever the run and whatever its PIDs: a parent that waits only after its child has exited is told BLOCKED if
      the child ever blocked reading, and 0 otherwise, whatever the child passed to `exit`. */
  lemma LateWaiterSeesNoStatus(evs: seq<Event>, z: Slot)
    requires Run(Boot(), evs).Ok? && Run(Boot(), evs).s.pcbs[z].state == ZOMBIE
    ensures var s := Run(Boot(), evs).s;
            && Reap(s, z).Ok?
            && Reap(s, z).s.pcbs[s.current].user.infoPid == s.pcbs[z].pid
            && Reap(s, z).s.pcbs[s.current].user.infoStatus
               == if z in Readers(Boot(), evs, {}) then STATUS_BLOCKED else 0
  {
    hide Run, Boot, Reap, Core, Marked, Still;
    BootSafe();
    BootMarked();
    RunMarked(Boot(), evs, {});
    Late(Run(Boot(), evs).s, z, Readers(Boot(), evs, {}));
  }

  lemma Late(s: State, z: Slot, readers: set<Slot>)
    requires Inv(s) && Marked(s.pcbs, readers) && s.pcbs[z].state == ZOMBIE
    ensures Reap(s, z).Ok?
    ensures var told := Reap(s, z).s.pcbs[s.current].user;
            told.infoPid == s.pcbs[z].pid && told.infoStatus == if z in readers then STATUS_BLOCKED else 0
  {
    hide Core, Reap;
    var freed := ReapMoves(s, z);
    ZombieInUse(s, z);
    assert MarkedAt(s.pcbs[z], z in readers);
  }

  lemma ZombieInUse(s: State, z: Slot)
    requires Inv(s) && s.pcbs[z].state == ZOMBIE
    ensures s.pcbs[z].stack.Some?
  {
    var q, i := Somewhere(s.qs, s.pcbs, multiset{s.current}, z);
    assert Fits(s.pcbs[z], q, s.qs[q][i].key);
  }
}
