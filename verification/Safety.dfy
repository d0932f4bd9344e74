/** Every step keeps all PCBs and stacks accounted for, and few of the kernel's panics can fire. */
module Safety {
  import opened Defs
  import opened QueueSpec
  import opened KernelSpec
  import opened Placement

  /** The running process.  Only the first one has a state field that nothing has written yet. */
  predicate IsCurrent(pcb: Pcb) {
    pcb.state == RUNNING || (pcb.state == FREE && pcb.pid == PID_INIT)
  }

  ghost predicate Inv(s: State) {
    && Core(s.qs, s.pcbs, multiset{s.current})
    && IsCurrent(s.pcbs[s.current])
  }

  /** Between two dispatches: every process is on a queue. */
  ghost predicate AllQueued(s: State) {
    Core(s.qs, s.pcbs, multiset{})
  }

  /** The ways a dispatch can fail. */
  predicate Stuck(w: Stop) {
    w == NoParent || w == AllQueuesEmpty
  }

  predicate Overrun(w: Stop) {
    w == InputOverrun || w == OutputOverrun
  }

  ghost predicate Dispatched(r: Res) {
    match r
    case Ok(s) => Inv(s)
    case Halt(w) => Stuck(w)
  }

  lemma Schedules(s: State, held: multiset<Slot>, p: Slot, prio: Byte)
    requires Core(s.qs, s.pcbs, held) && p in held
    ensures Schedule(s, p, prio).Ok?
    ensures var s' := Schedule(s, p, prio).s; Core(s'.qs, s'.pcbs, held - multiset{p})
  {
    var q := ReadyQueue(prio);
    var c := s.qs[q];
    assert c + [Entry(0, p)] == InsertAt(c, |c|, Entry(0, p));
    Put(s.qs, s.pcbs, held, p, s.pcbs[p].(state := READY), q, |c|, 0);
  }

  /** A process in state WAITING is on the waiting queue under its own PID, so removal by key succeeds. */
  lemma WaiterQueued(s: State, held: multiset<Slot>, p: Slot)
    requires Core(s.qs, s.pcbs, held) && p !in held && s.pcbs[p].state == WAITING
    ensures KeyIndex(s.qs[WAITERS], DisciplineOf(WAITERS), s.pcbs[p].pid) < |s.qs[WAITERS]|
  {
    var q, i := Somewhere(s.qs, s.pcbs, held, p);
    assert Fits(s.pcbs[p], q, s.qs[q][i].key);
  }

  lemma ZombieQueued(s: State, held: multiset<Slot>, p: Slot)
    requires Core(s.qs, s.pcbs, held) && p !in held && s.pcbs[p].state == ZOMBIE
    ensures KeyIndex(s.qs[ZOMBIES], DisciplineOf(ZOMBIES), s.pcbs[p].pid) < |s.qs[ZOMBIES]|
  {
    var q, i := Somewhere(s.qs, s.pcbs, held, p);
    assert Fits(s.pcbs[p], q, s.qs[q][i].key);
  }

  /** The second half of a delivery: one process is freed and another made ready. */
  lemma Hands(s: State, c: Slot, woken: Slot)
    requires Core(s.qs, s.pcbs, multiset{c} + multiset{woken})
    ensures Release(s, c).Ok? && Schedule(Release(s, c).s, woken, 0).Ok?
    ensures AllQueued(Schedule(Release(s, c).s, woken, 0).s)
  {
    Releases(s, multiset{c} + multiset{woken}, c);
    assert multiset{c} + multiset{woken} - multiset{c} == multiset{woken};
    Schedules(Release(s, c).s, multiset{woken}, woken, 0);
    assert multiset{woken} - multiset{woken} == multiset{};
  }

  lemma DeliverTakes(s: State, parent: Slot)
    requires Core(s.qs, s.pcbs, multiset{s.current}) && parent != s.current && s.pcbs[parent].state == WAITING
    ensures var i, me := KeyIndex(s.qs[WAITERS], DisciplineOf(WAITERS), s.pcbs[parent].pid), s.pcbs[s.current];
            && i < |s.qs[WAITERS]|
            && var s1 := Take(s, WAITERS, i);
               var s2 := Set(s1, parent,
                   s1.pcbs[parent].(user := s1.pcbs[parent].user.(infoPid := me.pid, infoStatus := me.user.arg)));
               Core(s2.qs, s2.pcbs, multiset{s.current} + multiset{s.qs[WAITERS][i].data})
  {
    var c, me := s.current, s.pcbs[s.current];
    WaiterQueued(s, multiset{c}, parent);
    var i := KeyIndex(s.qs[WAITERS], DisciplineOf(WAITERS), s.pcbs[parent].pid);
    var woken := s.qs[WAITERS][i].data;
    TakeOff(s.qs, s.pcbs, multiset{c}, WAITERS, i);
    var s1 := Take(s, WAITERS, i);
    var s2 := Set(s1, parent,
        s1.pcbs[parent].(user := s1.pcbs[parent].user.(infoPid := me.pid, infoStatus := me.user.arg)));
    Rewrite(s1.qs, s1.pcbs, s2.pcbs, multiset{c} + multiset{woken});
  }

  lemma Delivers(s: State, parent: Slot)
    requires Core(s.qs, s.pcbs, multiset{s.current}) && parent != s.current && s.pcbs[parent].state == WAITING
    ensures Deliver(s, s.current, parent).Ok? && AllQueued(Deliver(s, s.current, parent).s)
  {
    hide Core, Release, Schedule, KeyIndex;
    var c, me := s.current, s.pcbs[s.current];
    DeliverTakes(s, parent);
    var i := KeyIndex(s.qs[WAITERS], DisciplineOf(WAITERS), s.pcbs[parent].pid);
    var s1 := Take(s, WAITERS, i);
    var s2 := Set(s1, parent,
        s1.pcbs[parent].(user := s1.pcbs[parent].user.(infoPid := me.pid, infoStatus := me.user.arg)));
    Hands(s2, c, s.qs[WAITERS][i].data);
  }

  lemma BecomesZombie(s: State)
    requires Core(s.qs, s.pcbs, multiset{s.current})
    ensures MakeZombie(s).Ok? && AllQueued(MakeZombie(s).s)
  {
    var c, me := s.current, s.pcbs[s.current];
    var i := InsertIndex(s.qs[ZOMBIES], DisciplineOf(ZOMBIES), me.pid);
    Put(s.qs, s.pcbs, multiset{c}, c, me.(state := ZOMBIE), ZOMBIES, i, me.pid);
    assert multiset{c} - multiset{c} == multiset{};
  }

  lemma Zombifies(s: State)
    requires Core(s.qs, s.pcbs, multiset{s.current}) && s.pcbs[s.current].state != WAITING
    ensures match Zombify(s, s.current)
            case Ok(s') => AllQueued(s')
            case Halt(w) => w == NoParent && PcbFind(s.pcbs, s.pcbs[s.current].ppid, 0) == N_PCBS
  {
    var parent := PcbFind(s.pcbs, s.pcbs[s.current].ppid, 0);
    if parent < N_PCBS {
      if Wants(s.pcbs[parent], s.pcbs[s.current].pid) {
        Delivers(s, parent);
      } else {
        BecomesZombie(s);
      }
    }
  }

  /** The state in which a dispatch looks at the process it has taken. */
  function Popped(s: State): State
    requires FirstReady(s.qs, 0) < N_PRIORITIES
  {
    var i := FirstReady(s.qs, 0);
    s.(qs := s.qs[i := s.qs[i][1..]], current := s.qs[i][0].data)
  }

  lemma Pops(s: State)
    requires AllQueued(s) && FirstReady(s.qs, 0) < N_PRIORITIES
    ensures var s1 := Popped(s);
            && Core(s1.qs, s1.pcbs, multiset{s1.current})
            && s.pcbs[s1.current].stack.Some?
            && (s.pcbs[s1.current].state == READY || s.pcbs[s1.current].state == KILLED)
  {
    var i := FirstReady(s.qs, 0);
    var c := s.qs[i][0].data;
    assert Fits(s.pcbs[c], i, s.qs[i][0].key);
    assert s.qs[i][1..] == RemoveAt(s.qs[i], 0);
    TakeOff(s.qs, s.pcbs, multiset{}, i, 0);
    assert multiset{} + multiset{c} == multiset{c};
  }

  /** Dispatching from a state where every process is queued never meets a state other than READY or
      KILLED; it ends with a running process, or because there is none, or at an orphan of a killed one. */
  lemma {:induction false} Dispatches(s: State)
    requires AllQueued(s)
    ensures Dispatched(Dispatch(s))
    decreases Killed(s.pcbs)
  {
    hide Core, FirstReady, Zombify;
    if FirstReady(s.qs, 0) < N_PRIORITIES {
      var s1 := Popped(s);
      Pops(s);
      if s.pcbs[s1.current].state == READY {
        Touch(s1.qs, s1.pcbs, multiset{s1.current}, s1.current, s1.pcbs[s1.current].(state := RUNNING));
      } else {
        Zombifies(s1);
        if Zombify(s1, s1.current).Ok? {
          ZombifyClearsKill(s1);
          Dispatches(Zombify(s1, s1.current).s);
        }
      }
    }
  }

  /** Blocking on a queue never fails for want of a node, and ends in a dispatch. */
  lemma Blocks(s: State, pcb: Pcb, q: nat, key: U32, failed: Res)
    requires Core(s.qs, s.pcbs, multiset{s.current}) && pcb.stack == s.pcbs[s.current].stack
    requires q < PCBS && Fits(pcb, q, key)
    ensures Dispatched(Block(s, pcb, q, key, failed))
  {
    Put(s.qs, s.pcbs, multiset{s.current}, s.current, pcb, q, InsertIndex(s.qs[q], DisciplineOf(q), key), key);
    assert multiset{s.current} - multiset{s.current} == multiset{};
    Dispatches(Insert(Set(s, s.current, pcb), q, Entry(key, s.current)).value);
  }

  lemma ScheduleAndDispatch(s: State, prio: Byte)
    requires Core(s.qs, s.pcbs, multiset{s.current})
    ensures Schedule(s, s.current, prio).Ok?
    ensures Dispatched(Dispatch(Schedule(s, s.current, prio).s))
  {
    Schedules(s, multiset{s.current}, s.current, prio);
    assert multiset{s.current} - multiset{s.current} == multiset{};
    Dispatches(Schedule(s, s.current, prio).s);
  }

  /** One round of the wake-up loop makes one sleeper ready. */
  lemma WakesOne(s: State, i: nat)
    requires Core(s.qs, s.pcbs, multiset{s.current}) && i < |s.qs[SLEEP]|
    ensures var p := s.qs[SLEEP][i].data;
            var r := Schedule(Take(s, SLEEP, i), p, 0);
            && p != s.current && s.pcbs[p].stack.Some?
            && r.Ok? && r.s.current == s.current && Core(r.s.qs, r.s.pcbs, multiset{s.current})
            && r.s.pcbs == s.pcbs[p := s.pcbs[p].(state := READY)] && |r.s.qs[SLEEP]| < |s.qs[SLEEP]|
  {
    var p, c := s.qs[SLEEP][i].data, multiset{s.current};
    assert Fits(s.pcbs[p], SLEEP, s.qs[SLEEP][i].key);
    TakeOff(s.qs, s.pcbs, c, SLEEP, i);
    Schedules(Take(s, SLEEP, i), c + multiset{p}, p, 0);
    assert c + multiset{p} - multiset{p} == c;
  }

  /** The wake-up loop always runs to its end, and leaves the current process alone. */
  lemma {:induction false} Wakes(s: State)
    requires Core(s.qs, s.pcbs, multiset{s.current})
    ensures WakeAll(s).Ok?
    ensures var s' := WakeAll(s).s;
            Core(s'.qs, s'.pcbs, multiset{s.current}) && s'.current == s.current
              && s'.pcbs[s.current] == s.pcbs[s.current]
    decreases |s.qs[SLEEP]|
  {
    hide Core, Schedule, Take;
    var i := KeyIndex(s.qs[SLEEP], DisciplineOf(SLEEP), s.time);
    if i < |s.qs[SLEEP]| {
      WakesOne(s, i);
      Wakes(Schedule(Take(s, SLEEP, i), s.qs[SLEEP][i].data, 0).s);
    }
  }

  // ---- the steps ----

  /** What a step may end in. */
  ghost predicate Safe(r: Res) {
    match r
    case Ok(s) => Inv(s)
    case Halt(w) => Stuck(w) || Overrun(w)
  }

  lemma ClockSafe(s: State, word: U32)
    requires Inv(s)
    ensures Dispatched(Clock(s, word))
  {
    var s1 := Ticked(s, word);
    Rewrite(s.qs, s.pcbs, s1.pcbs, multiset{s.current});
    Wakes(s1);
    var s2 := WakeAll(s1).s;
    ScheduleAndDispatch(s2, s2.pcbs[s2.current].prio);
  }

  lemma ReceiveSafe(s: State, ch: Byte)
    requires Inv(s)
    ensures Safe(Receive(s, ch))
  {
    if s.qs[READING] != [] {
      var c := multiset{s.current};
      var p := s.qs[READING][0].data;
      assert s.qs[READING][1..] == RemoveAt(s.qs[READING], 0);
      TakeOff(s.qs, s.pcbs, c, READING, 0);
      var s0 := Take(s, READING, 0);
      var s1 := Return(s0, p, if ch == CR then LF else ch);
      Rewrite(s0.qs, s0.pcbs, s1.pcbs, c + multiset{p});
      Schedules(s1, c + multiset{p}, p, s1.pcbs[p].prio);
      assert c + multiset{p} - multiset{p} == c;
    }
  }

  lemma SleepSafe(s: State, ticks: U32)
    requires Inv(s)
    ensures Dispatched(Sleep(s, ticks))
  {
    hide Block, Dispatched;
    Blocks(s, Asleep(s), SLEEP, Wrap(s.time + ticks), Ok(Return(Set(s, s.current, Asleep(s)), s.current, 0)));
  }

  lemma ReadCSafe(s: State)
    requires Inv(s)
    ensures Dispatched(ReadC(s))
  {
    var me := s.pcbs[s.current];
    if s.inp.pending != [] {
      Rewrite(s.qs, s.pcbs, ReadC(s).s.pcbs, multiset{s.current});
    } else {
      Blocks(s, me.(status := STATUS_BLOCKED), READING, me.pid, Halt(ReadInsert));
    }
  }

  lemma ForkSafe(s: State)
    requires Inv(s)
    ensures Fork(s).Ok? && Inv(Fork(s).s)
    ensures s.qs[PCBS] != [] ==> s.qs[STACKS] != []
  {
    var c, me := multiset{s.current}, s.pcbs[s.current];
    if s.qs[PCBS] == [] {
      Rewrite(s.qs, s.pcbs, Fork(s).s.pcbs, c);
    } else {
      var p, k := s.qs[PCBS][0].data, s.qs[STACKS][0].data;
      Allocates(s.qs, s.pcbs, c, Child(me, k, s.nextPid));
      LaunchSafe(Take(Take(s, PCBS, 0), STACKS, 0), c, p, k);
    }
  }

  lemma LaunchSafe(s: State, c: multiset<Slot>, p: Slot, k: Slot)
    requires Core(s.qs, s.pcbs[p := Child(s.pcbs[s.current], k, s.nextPid)], c + multiset{p})
    requires c == multiset{s.current} && p != s.current && IsCurrent(s.pcbs[s.current])
    ensures Launch(s, p, k).Ok? && Inv(Launch(s, p, k).s)
  {
    var me := s.pcbs[s.current];
    var s1 := Set(s.(nextPid := Wrap(s.nextPid + 1)), p, Child(me, k, s.nextPid));
    var s2 := Return(s1, s.current, s.nextPid);
    Rewrite(s1.qs, s1.pcbs, s2.pcbs, c + multiset{p});
    Schedules(s2, c + multiset{p}, p, me.prio);
    assert c + multiset{p} - multiset{p} == c;
  }

  lemma ExecSafe(s: State, prio: U32)
    requires Inv(s)
    ensures Dispatched(Exec(s, prio))
  {
    var me := s.pcbs[s.current];
    var s1 := Set(s, s.current, me.(prio := prio % 256, user := User(0, 0, me.user.infoPid, me.user.infoStatus)));
    Rewrite(s.qs, s.pcbs, s1.pcbs, multiset{s.current});
    ScheduleAndDispatch(s1, prio % 256);
  }

  lemma KillSafe(s: State, pid: U32)
    requires Inv(s)
    ensures Dispatched(Kill(s, pid))
  {
    var p := PcbFind(s.pcbs, pid, 0);
    if p == N_PCBS {
      Rewrite(s.qs, s.pcbs, Kill(s, pid).s.pcbs, multiset{s.current});
    } else {
      var s1 := SetState(s, p, KILLED);
      if p != s.current {
        var q, i := Somewhere(s.qs, s.pcbs, multiset{s.current}, p);
        assert Fits(s.pcbs[p], q, s.qs[q][i].key);
      }
      Rewrite(s.qs, s.pcbs, s1.pcbs, multiset{s.current});
      if p == s.current {
        ScheduleAndDispatch(s1, s1.pcbs[p].prio);
      }
    }
  }

  lemma ReapTakes(s: State, z: Slot)
    requires Inv(s) && s.pcbs[z].state == ZOMBIE
    ensures var i, me := KeyIndex(s.qs[ZOMBIES], DisciplineOf(ZOMBIES), s.pcbs[z].pid), s.pcbs[s.current];
            && i < |s.qs[ZOMBIES]|
            && var s1 := Set(s, s.current,
               me.(user := me.user.(infoPid := s.pcbs[z].pid, infoStatus := s.pcbs[z].status)));
               var p, s2 := s.qs[ZOMBIES][i].data, Take(s1, ZOMBIES, i);
               && Core(s2.qs, s2.pcbs, multiset{s.current} + multiset{p})
               && p != s.current && s2.current == s.current && IsCurrent(s2.pcbs[s.current])
  {
    var c := multiset{s.current};
    ZombieQueued(s, c, z);
    var me := s.pcbs[s.current];
    var s1 := Set(s, s.current, me.(user := me.user.(infoPid := s.pcbs[z].pid, infoStatus := s.pcbs[z].status)));
    Rewrite(s.qs, s.pcbs, s1.pcbs, c);
    TakeOff(s1.qs, s1.pcbs, c, ZOMBIES, KeyIndex(s.qs[ZOMBIES], DisciplineOf(ZOMBIES), s.pcbs[z].pid));
  }

  lemma ReleaseOther(s: State, p: Slot)
    requires p != s.current
    ensures var r := Release(s, p); r.Ok? ==> r.s.current == s.current && r.s.pcbs[s.current] == s.pcbs[s.current]
  {
  }

  lemma ReapSafe(s: State, z: Slot)
    requires Inv(s) && s.pcbs[z].state == ZOMBIE
    ensures Reap(s, z).Ok? && Inv(Reap(s, z).s)
  {
    hide Release, Core, KeyIndex;
    ReapTakes(s, z);
    var i, me := KeyIndex(s.qs[ZOMBIES], DisciplineOf(ZOMBIES), s.pcbs[z].pid), s.pcbs[s.current];
    var s1 := Set(s, s.current, me.(user := me.user.(infoPid := s.pcbs[z].pid, infoStatus := s.pcbs[z].status)));
    var p, s2 := s.qs[ZOMBIES][i].data, Take(s1, ZOMBIES, i);
    Releases(s2, multiset{s.current} + multiset{p}, p);
    ReleaseOther(s2, p);
    assert multiset{s.current} + multiset{p} - multiset{p} == multiset{s.current};
  }

  lemma WaitSafe(s: State)
    requires Inv(s)
    ensures Dispatched(Wait(s))
  {
    var me := s.pcbs[s.current];
    var t := WaitTarget(s);
    if me.user.arg == 0 || t == N_PCBS {
      Rewrite(s.qs, s.pcbs, Wait(s).s.pcbs, multiset{s.current});
    } else if s.pcbs[t].state == ZOMBIE {
      ReapSafe(s, t);
    } else {
      Blocks(s, me.(state := WAITING), WAITERS, me.pid, Halt(WaitInsert));
    }
  }

  lemma ExitSafe(s: State)
    requires Inv(s)
    ensures Dispatched(Exit(s))
  {
    var s1 := s.(pcbs := Reparent(s.pcbs, s.pcbs[s.current].pid));
    Rewrite(s.qs, s.pcbs, s1.pcbs, multiset{s.current});
    Zombifies(s1);
    if Zombify(s1, s1.current).Ok? {
      Dispatches(Zombify(s1, s1.current).s);
    }
  }

  /** The invariant is kept by every step, whatever the event; the only stops a step can reach are a
      process without a parent, no process to dispatch, and an overrun of a serial buffer. */
  lemma StepSafe(s: State, ev: Event)
    requires Inv(s)
    ensures Safe(Step(s, ev))
  {
    match ev
    case Tick(word) => ClockSafe(s, word);
    case Rx(ch) => ReceiveSafe(s, ch);
    case Tx =>
    case Syscall(code, arg1, _, infoPid) =>
      var s0 := Trap(s, code, arg1, infoPid);
      Rewrite(s.qs, s.pcbs, s0.pcbs, multiset{s.current});
      PerformSafe(s0, Decode(code), arg1);
  }

  lemma PerformSafe(s: State, call: Call, arg1: U32)
    requires Inv(s)
    ensures Safe(Perform(s, call, arg1))
  {
    hide Exit, Fork, Exec, Wait, Kill, Sleep, ReadC, Core;
    match call
    case CExit => ExitSafe(s);
    case CFork => ForkSafe(s);
    case CExec => ExecSafe(s, arg1);
    case CWait => WaitSafe(s);
    case CKill => KillSafe(s, arg1);
    case CSleep => SleepSafe(s, arg1);
    case CReadc => ReadCSafe(s);
    case _ =>
      var r := Perform(s, call, arg1);
      if r.Ok? {
        Rewrite(s.qs, s.pcbs, r.s.pcbs, multiset{s.current});
      }
  }

  lemma {:induction false} RunSafe(s: State, evs: seq<Event>)
    requires Inv(s)
    ensures Safe(Run(s, evs))
    decreases |evs|
  {
    if evs != [] {
      StepSafe(s, evs[0]);
      if Step(s, evs[0]).Ok? {
        RunSafe(Step(s, evs[0]).s, evs[1..]);
      }
    }
  }

  // ---- the first state, and what the invariant says ----

  lemma {:induction false} CountUp(d: seq<Slot>, p: Slot)
    requires forall i :: 0 <= i < |d| ==> d[i] == i + 1
    ensures multiset(d)[p] == if 0 < p <= |d| then 1 else 0
  {
    if d != [] {
      var n := |d| - 1;
      CountUp(d[..n], p);
      assert d == d[..n] + [d[n]];
    }
  }

  lemma {:induction false} PlacedInFirst(t: seq<seq<Entry>>, n: nat)
    requires n <= |t| && forall q :: 0 <= q < n ==> t[q] == []
    ensures PlacedIn(t, n) == multiset{}
  {
    if n > 0 {
      PlacedInFirst(t, n - 1);
    }
  }

  lemma BootPcbs(p: Slot)
    ensures var s := Boot(); Placed(s.qs)[p] + multiset{s.current}[p] == 1
  {
    var t := Boot().qs;
    PlacedInFirst(t, |t| - 2);
    CountUp(Data(t[PCBS]), p);
    assert Placed(t) == multiset(Data(t[PCBS]));
  }

  lemma BootStacks(k: Slot)
    ensures StackUses(Boot().qs, Boot().pcbs, k) == 1
  {
    var owners := StackOf(Boot().pcbs);
    CountUp(Data(Boot().qs[STACKS]), k);
    assert owners == [Some(0)] + owners[1..];
    assert forall i :: 0 <= i < |owners| - 1 ==> owners[1..][i] == None;
  }

  lemma BootFits(q: nat, i: nat)
    requires q < STACKS && i < |Boot().qs[q]|
    ensures Fits(Boot().pcbs[Boot().qs[q][i].data], q, Boot().qs[q][i].key)
  {
    assert q == PCBS;
  }

  lemma BootSafe()
    ensures Inv(Boot())
  {
    BootAccounts();
    BootPlaces();
    assert IsCurrent(Boot().pcbs[0]) && Boot().pcbs[0].stack.Some?;
  }

  lemma BootAccounts()
    ensures PcbsOnce(Boot().qs, multiset{Boot().current}) && StacksOnce(Boot().qs, Boot().pcbs)
  {
    hide Boot, Placed, StackUses;
    forall p: Slot
      ensures Placed(Boot().qs)[p] + multiset{Boot().current}[p] == 1
      ensures StackUses(Boot().qs, Boot().pcbs, p) == 1
    {
      BootPcbs(p);
      BootStacks(p);
    }
  }

  lemma BootPlaces()
    ensures AllFit(Boot().qs, Boot().pcbs) && |Boot().qs[PCBS]| == |Boot().qs[STACKS]|
  {
    hide Fits;
    forall q, i | 0 <= q < STACKS && 0 <= i < |Boot().qs[q]|
      ensures Fits(Boot().pcbs[Boot().qs[q][i].data], q, Boot().qs[q][i].key)
    {
      BootFits(q, i);
    }
  }

  /** Any run from boot: the kernel is still safe, or stopped for one of the four reasons left. */
  lemma RunFromBoot(evs: seq<Event>)
    ensures Safe(Run(Boot(), evs))
  {
    BootSafe();
    RunSafe(Boot(), evs);
  }

  /** How often PCB `p` is in queue `q`. */
  ghost function In(s: State, q: nat, p: Slot): nat
    requires q < N_QUEUES
  {
    multiset(Data(s.qs[q]))[p]
  }

  ghost function InFirst(s: State, n: nat, p: Slot): nat
    requires n <= STACKS
  {
    if n == 0 then 0 else InFirst(s, n - 1, p) + In(s, n - 1, p)
  }

  lemma {:induction false} InFirstPlaced(s: State, n: nat, p: Slot)
    requires n <= STACKS
    ensures InFirst(s, n, p) == PlacedIn(s.qs, n)[p]
  {
    if n > 0 {
      InFirstPlaced(s, n - 1, p);
    }
  }

  /** In every reachable state each PCB is in exactly one place, once: the running process, or one entry of
      one queue.  Each stack is on the free list once, or belongs to exactly one PCB, which is in use; and
      the queue nodes in use, at most N_PCBS + N_STACKS of them, never exhaust the pool. */
  lemma ExactlyOnePlace(evs: seq<Event>, p: Slot)
    requires Run(Boot(), evs).Ok?
    ensures var s := Run(Boot(), evs).s;
            && InFirst(s, STACKS, p) + (if s.current == p then 1 else 0) == 1
            && In(s, STACKS, p) + multiset(StackOf(s.pcbs))[Some(p)] == 1
            && (s.pcbs[p].stack.None? <==> In(s, PCBS, p) == 1)
            && Used(s.qs) + 2 <= N_PCBS + N_STACKS < N_QNODES
  {
    RunFromBoot(evs);
    var s := Run(Boot(), evs).s;
    var held := multiset{s.current};
    InFirstPlaced(s, STACKS, p);
    assert Placed(s.qs)[p] + held[p] == 1;
    assert StackUses(s.qs, s.pcbs, p) == 1;
    NeverFull(s.qs, s.pcbs, held);
    if p != s.current {
      var q, i := Somewhere(s.qs, s.pcbs, held, p);
      assert Fits(s.pcbs[p], q, s.qs[q][i].key);
      assert Data(s.qs[q])[i] == p;
      assert InFirst(s, STACKS, p) == InFirst(s, PCBS, p) + In(s, PCBS, p);
      if In(s, PCBS, p) == 1 {
        assert p in Data(s.qs[PCBS]);
        var j :| 0 <= j < |s.qs[PCBS]| && Data(s.qs[PCBS])[j] == p;
        assert Fits(s.pcbs[p], PCBS, s.qs[PCBS][j].key);
      }
    }
  }
}
