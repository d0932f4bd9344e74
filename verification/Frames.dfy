/** What scheduling leaves alone, whatever state it starts from. */
module Frames {
  import opened Defs
  import opened QueueSpec
  import opened KernelSpec

  /** Everything but the PCBs, the current process and the queues that scheduling works on. */
  predicate SameElsewhere(s: State, s': State) {
    && s'.nextPid == s.nextPid && s'.time == s.time
    && s'.inp == s.inp && s'.out == s.out && s'.wire == s.wire
    && s'.qs[SLEEP] == s.qs[SLEEP] && s'.qs[READING] == s.qs[READING]
  }

  lemma ZombifyFrame(s: State)
    ensures var r := Zombify(s, s.current); r.Ok? ==> SameElsewhere(s, r.s)
  {
    var parent := PcbFind(s.pcbs, s.pcbs[s.current].ppid, 0);
    if parent < N_PCBS && Wants(s.pcbs[parent], s.pcbs[s.current].pid) {
      DeliverFrame(s, parent);
    }
  }

  lemma DeliverFrame(s: State, parent: Slot)
    ensures var r := Deliver(s, s.current, parent); r.Ok? ==> SameElsewhere(s, r.s)
  {
  }

  lemma {:induction false} DispatchFrame(s: State)
    ensures var r := Dispatch(s); r.Ok? ==> SameElsewhere(s, r.s)
    decreases Killed(s.pcbs)
  {
    hide FirstReady, Zombify;
    var i := FirstReady(s.qs, 0);
    if i < N_PRIORITIES {
      var c := s.qs[i][0].data;
      var s1 := s.(qs := s.qs[i := s.qs[i][1..]], current := c);
      if s.pcbs[c].state == KILLED {
        ZombifyFrame(s1);
        if Zombify(s1, c).Ok? {
          ZombifyClearsKill(s1);
          DispatchFrame(Zombify(s1, c).s);
        }
      }
    }
  }

  /** The wake-up loop touches only the sleepers and the most urgent ready queue. */
  lemma {:induction false} WakeFrame(s: State)
    ensures var r := WakeAll(s);
            r.Ok? ==> SameElsewhere(s.(qs := s.qs[SLEEP := r.s.qs[SLEEP]]), r.s)
    decreases |s.qs[SLEEP]|
  {
    var i := KeyIndex(s.qs[SLEEP], DisciplineOf(SLEEP), s.time);
    if i < |s.qs[SLEEP]| {
      var r := Schedule(Take(s, SLEEP, i), s.qs[SLEEP][i].data, 0);
      if r.Ok? {
        WakeFrame(r.s);
      }
    }
  }

  /** A PCB and a stack are free. */
  predicate Vacant(s: State) {
    s.qs[PCBS] != [] && s.qs[STACKS] != []
  }

  /** What a system call leaves alone. */
  predicate CallFrame(s: State, s': State, call: Call) {
    && s'.nextPid == (if call == CFork && Vacant(s) then Wrap(s.nextPid + 1) else s.nextPid)
    && (call != CSettime ==> s'.time == s.time)
    && (call != CReadc ==> s'.inp == s.inp && s'.qs[READING] == s.qs[READING])
    && (call != CWritec ==> s'.out == s.out && s'.wire == s.wire)
    && (call != CSleep ==> s'.qs[SLEEP] == s.qs[SLEEP])
  }

  lemma BlockFrame(s: State, pcb: Pcb, q: nat, key: U32, failed: Res)
    requires q < N_QUEUES
    ensures var c, r := Insert(Set(s, s.current, pcb), q, Entry(key, s.current)), Block(s, pcb, q, key, failed);
            if c.None? then r == failed else r.Ok? ==> SameElsewhere(c.value, r.s)
  {
    var c := Insert(Set(s, s.current, pcb), q, Entry(key, s.current));
    if c.Some? {
      DispatchFrame(c.value);
    }
  }

  lemma ScheduleDispatchFrame(s: State, p: Slot, prio: Byte)
    ensures var r := Schedule(s, p, prio);
            r.Ok? ==> SameElsewhere(s, r.s) && (Dispatch(r.s).Ok? ==> SameElsewhere(s, Dispatch(r.s).s))
  {
    var r := Schedule(s, p, prio);
    if r.Ok? {
      DispatchFrame(r.s);
    }
  }

  lemma ExitFrame(s: State)
    ensures var r := Exit(s); r.Ok? ==> SameElsewhere(s, r.s)
  {
    var s1 := s.(pcbs := Reparent(s.pcbs, s.pcbs[s.current].pid));
    ZombifyFrame(s1);
    if Zombify(s1, s1.current).Ok? {
      DispatchFrame(Zombify(s1, s1.current).s);
    }
  }

  lemma ForkFrame(s: State)
    ensures var r := Fork(s); r.Ok? ==> CallFrame(s, r.s, CFork)
  {
  }

  lemma ExecFrame(s: State, prio: U32)
    ensures var r := Exec(s, prio); r.Ok? ==> SameElsewhere(s, r.s)
  {
    var me := s.pcbs[s.current];
    ScheduleDispatchFrame(Set(s, s.current,
        me.(prio := prio % 256, user := User(0, 0, me.user.infoPid, me.user.infoStatus))), s.current, prio % 256);
  }

  lemma KillFrame(s: State, pid: U32)
    ensures var r := Kill(s, pid); r.Ok? ==> SameElsewhere(s, r.s)
  {
    var p := PcbFind(s.pcbs, pid, 0);
    if p < N_PCBS {
      var s1 := SetState(s, p, KILLED);
      ScheduleDispatchFrame(s1, p, s1.pcbs[p].prio);
    }
  }

  lemma WaitFrame(s: State)
    ensures var r := Wait(s); r.Ok? ==> SameElsewhere(s, r.s)
  {
    hide Block;
    var me := s.pcbs[s.current];
    BlockFrame(s, me.(state := WAITING), WAITERS, me.pid, Halt(WaitInsert));
  }

  lemma PerformFrame(s: State, call: Call, arg1: U32)
    ensures var r := Perform(s, call, arg1); r.Ok? ==> CallFrame(s, r.s, call)
  {
    hide Exit, Fork, Exec, Wait, Kill, Block;
    var me := s.pcbs[s.current];
    match call
    case CExit => ExitFrame(s);
    case CFork => ForkFrame(s);
    case CExec => ExecFrame(s, arg1);
    case CWait => WaitFrame(s);
    case CKill => KillFrame(s, arg1);
    case CSleep => BlockFrame(s, Asleep(s), SLEEP, Wrap(s.time + arg1),
      Ok(Return(Set(s, s.current, Asleep(s)), s.current, 0)));
    case CReadc => BlockFrame(s, me.(status := STATUS_BLOCKED), READING, me.pid, Halt(ReadInsert));
    case _ =>
  }

  lemma ClockFrame(s: State, word: U32)
    ensures var r, w := Clock(s, word), WakeAll(Ticked(s, word));
            r.Ok? ==>
              && w.Ok? && SameElsewhere(w.s, r.s)
              && SameElsewhere(Ticked(s, word).(qs := s.qs[SLEEP := r.s.qs[SLEEP]]), r.s)
  {
    hide WakeAll, Dispatch, Schedule;
    WakeFrame(Ticked(s, word));
    var w := WakeAll(Ticked(s, word));
    if w.Ok? {
      ScheduleDispatchFrame(w.s, w.s.current, w.s.pcbs[w.s.current].prio);
    }
  }

  /** A fork that gets its PCB and its stack. */
  predicate Starts(s: State, ev: Event) {
    ev.Syscall? && Decode(ev.code) == CFork && Vacant(s)
  }

  /** Only such a fork uses up a PID. */
  lemma StepNextPid(s: State, ev: Event)
    ensures var r := Step(s, ev);
            r.Ok? ==> r.s.nextPid == if Starts(s, ev) then Wrap(s.nextPid + 1) else s.nextPid
  {
    hide Clock, Perform;
    match ev
    case Tick(word) => ClockFrame(s, word);
    case Rx(_) =>
    case Tx =>
    case Syscall(code, arg1, _, infoPid) => PerformFrame(Trap(s, code, arg1, infoPid), Decode(code), arg1);
  }

  /** How many processes a run starts. */
  function Started(s: State, evs: seq<Event>): nat
    decreases |evs|
  {
    if evs == [] then 0
    else
      (if Starts(s, evs[0]) then 1 else 0)
      + if Step(s, evs[0]).Ok? then Started(Step(s, evs[0]).s, evs[1..]) else 0
  }

  /** The forks among the events, refused ones included. */
  function Forks(evs: seq<Event>): nat {
    if evs == [] then 0
    else (if evs[0].Syscall? && Decode(evs[0].code) == CFork then 1 else 0) + Forks(evs[1..])
  }

  lemma {:induction false} FewStarted(s: State, evs: seq<Event>)
    ensures Started(s, evs) <= Forks(evs)
    decreases |evs|
  {
    hide Step;
    if evs != [] && Step(s, evs[0]).Ok? {
      FewStarted(Step(s, evs[0]).s, evs[1..]);
    }
  }
}
