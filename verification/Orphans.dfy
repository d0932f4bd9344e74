/** When the "no process parent" panic is out of reach: init is not killed and does not exit, nobody with children is
    killed, and init does not block in `readc` before it has first been descheduled. */
module Orphans {
  import opened Defs
  import opened QueueSpec
  import opened KernelSpec
  import opened Placement
  import opened Safety
  import opened Families
  import opened Scheduling

  /** The table slot that `_init` gives to the first process. */
  const INIT: Slot := 0

  /** In use under this PID, and neither a zombie nor about to be one. */
  predicate Live(pcb: Pcb, pid: U32) {
    pcb.stack.Some? && pcb.pid == pid && !Ending(pcb)
  }

  predicate Ending(pcb: Pcb) {
    pcb.state == ZOMBIE || pcb.state == KILLED
  }

  ghost predicate HasLive(pcbs: Pcbs, pid: U32) {
    exists q :: 0 <= q < N_PCBS && Live(pcbs[q], pid)
  }

  /** Init is there, every process has a live parent, and only init, when in slot `c`, may be in use with its state
      field still FREE.  PIDs need not be distinct. */
  ghost predicate Parented(pcbs: Pcbs, c: int) {
    && Live(pcbs[INIT], PID_INIT)
    && (forall p {:trigger HasLive(pcbs, pcbs[p].ppid)} :: 0 <= p < N_PCBS && pcbs[p].stack.Some? ==>
       HasLive(pcbs, pcbs[p].ppid))
    && (forall p :: 0 <= p < N_PCBS ==> OnlyInitNew(pcbs[p], p, c))
  }

  predicate OnlyInitNew(pcb: Pcb, p: int, c: int) {
    pcb.stack.Some? && pcb.state == FREE ==> p == INIT == c
  }

  /** One PCB before and after a move that ends no process. */
  predicate Calm(a: Pcb, b: Pcb) {
    b.stack == a.stack && b.pid == a.pid && b.ppid == a.ppid && (Ending(b) ==> Ending(a))
  }

  /** A PID keeps a live holder if only slot `z` may have ended, and init is not in it. */
  lemma StaysLive(a: Pcbs, b: Pcbs, z: int, pid: U32)
    requires HasLive(a, pid) && Live(a[INIT], PID_INIT) && z != INIT
    requires 0 <= z < N_PCBS && Live(a[z], pid) ==> pid == PID_INIT
    requires forall p :: 0 <= p < N_PCBS && p != z ==>
      b[p].stack == a[p].stack && b[p].pid == a[p].pid && (Ending(b[p]) ==> Ending(a[p]))
    ensures HasLive(b, pid)
  {
    var q :| 0 <= q < N_PCBS && Live(a[q], pid);
    if q == z {
      assert Live(b[INIT], pid);
    } else {
      assert Live(b[q], pid);
    }
  }

  /** One process, not init, goes or is about to, and is nobody's only live parent. */
  lemma Freed(a: Pcbs, b: Pcbs, c: int, c': int, z: int)
    requires Parented(a, c) && z != INIT
    requires 0 <= z < N_PCBS && !Ending(a[z]) ==>
      forall p :: 0 <= p < N_PCBS && a[p].stack.Some? && a[p].ppid == a[z].pid ==> a[p].ppid == PID_INIT
    requires forall p :: 0 <= p < N_PCBS && p != z ==> Calm(a[p], b[p])
    requires 0 <= z < N_PCBS && b[z].stack.Some? ==> b[z].ppid == a[z].ppid && a[z].stack.Some?
    requires forall p :: 0 <= p < N_PCBS ==> OnlyInitNew(b[p], p, c')
    ensures Parented(b, c')
  {
    hide HasLive;
    assert Calm(a[INIT], b[INIT]);
    forall p | 0 <= p < N_PCBS && b[p].stack.Some?
      ensures HasLive(b, b[p].ppid)
    {
      assert p != z ==> Calm(a[p], b[p]);
      assert HasLive(a, a[p].ppid);
      StaysLive(a, b, z, b[p].ppid);
    }
  }

  lemma CalmKeeps(a: Pcbs, b: Pcbs, c: int, c': int)
    requires Parented(a, c)
    requires forall p :: 0 <= p < N_PCBS ==> Calm(a[p], b[p])
    requires forall p :: 0 <= p < N_PCBS ==> OnlyInitNew(b[p], p, c')
    ensures Parented(b, c')
  {
    hide HasLive;
    Freed(a, b, c, c', -1);
  }

  lemma ParentFound(pcbs: Pcbs, c: Slot)
    requires Parented(pcbs, -1) && pcbs[c].stack.Some?
    ensures PcbFind(pcbs, pcbs[c].ppid, 0) < N_PCBS
  {
    assert HasLive(pcbs, pcbs[c].ppid);
    var q :| 0 <= q < N_PCBS && Live(pcbs[q], pcbs[c].ppid);
    assert OnlyInitNew(pcbs[q], q, -1);
  }

  // ---- an end, and the dispatch ----

  /** The current process, not init, ends: its parent is found, and it leaves no orphan. */
  lemma ZombifyCalm(s: State)
    requires Core(s.qs, s.pcbs, multiset{s.current}) && s.pcbs[s.current].state != WAITING && s.current != INIT
    requires Parented(s.pcbs, -1)
    requires !Ending(s.pcbs[s.current]) ==>
      forall p :: 0 <= p < N_PCBS && s.pcbs[p].stack.Some? && s.pcbs[p].ppid == s.pcbs[s.current].pid ==>
        s.pcbs[p].ppid == PID_INIT
    ensures var r := Zombify(s, s.current); r.Ok? && AllQueued(r.s) && Parented(r.s.pcbs, -1)
  {
    hide HasLive, Core, Zombify, PcbFind, Deliver, Parented;
    CoreStack(s);
    ParentFound(s.pcbs, s.current);
    Zombifies(s);
    ZombifyMoves(s);
    EndsOne(s.pcbs, Zombify(s, s.current).s.pcbs, s.current);
  }

  /** What `_zombify` does to the PCBs, whatever the PIDs: the current process is gone or a zombie, and of the others
      at most one has become READY. */
  ghost predicate Ends(a: Pcbs, b: Pcbs, c: Slot) {
    && (b[c] == ZeroPcb || b[c] == a[c].(state := ZOMBIE))
    && forall p :: 0 <= p < N_PCBS && p != c ==>
         b[p] == a[p].(state := b[p].state, user := b[p].user) && (b[p].state == a[p].state || b[p].state == READY)
  }

  lemma ZombifyMoves(s: State)
    requires Core(s.qs, s.pcbs, multiset{s.current}) && s.pcbs[s.current].state != WAITING
    requires Zombify(s, s.current).Ok?
    ensures Ends(s.pcbs, Zombify(s, s.current).s.pcbs, s.current)
  {
    hide Core, Deliver, PcbFind, Full;
    var parent := PcbFind(s.pcbs, s.pcbs[s.current].ppid, 0);
    if Wants(s.pcbs[parent], s.pcbs[s.current].pid) {
      var woken := DeliverMoves(s, parent);
    }
  }

  lemma EndsOne(a: Pcbs, b: Pcbs, c: Slot)
    requires Parented(a, -1) && a[c].stack.Some? && c != INIT && Ends(a, b, c)
    requires !Ending(a[c]) ==>
      forall p :: 0 <= p < N_PCBS && a[p].stack.Some? && a[p].ppid == a[c].pid ==> a[p].ppid == PID_INIT
    ensures Parented(b, -1)
  {
    hide HasLive;
    forall p | 0 <= p < N_PCBS
      ensures OnlyInitNew(b[p], p, -1)
    {
      assert OnlyInitNew(a[p], p, -1);
    }
    Freed(a, b, -1, -1, c);
  }

  ghost predicate Peaceful(r: Res) {
    match r
    case Ok(s) => Parented(s.pcbs, s.current)
    case Halt(w) => w == AllQueuesEmpty
  }

  /** A dispatch passes over the KILLED without stopping at one. */
  lemma {:induction false} DispatchCalm(s: State)
    requires AllQueued(s) && Parented(s.pcbs, -1)
    ensures Peaceful(Dispatch(s))
    decreases Killed(s.pcbs)
  {
    hide Core, Zombify, FirstReady, Parented;
    if FirstReady(s.qs, 0) < N_PRIORITIES {
      var s1 := Popped(s);
      Pops(s);
      if s.pcbs[s1.current].state == READY {
        Runs(s.pcbs, s1.current);
      } else {
        NotInit(s.pcbs, s1.current);
        ZombifyCalm(s1);
        ZombifyClearsKill(s1);
        DispatchCalm(Zombify(s1, s1.current).s);
      }
    }
  }

  lemma Runs(a: Pcbs, c: Slot)
    requires Parented(a, -1) && a[c].state == READY
    ensures Parented(a[c := a[c].(state := RUNNING)], c)
  {
    hide HasLive;
    var b: Pcbs := a[c := a[c].(state := RUNNING)];
    forall p | 0 <= p < N_PCBS
      ensures OnlyInitNew(b[p], p, c)
    {
      assert OnlyInitNew(a[p], p, -1);
    }
    CalmKeeps(a, b, -1, c);
  }

  lemma NotInit(pcbs: Pcbs, c: Slot)
    requires Parented(pcbs, -1) && Ending(pcbs[c])
    ensures c != INIT
  {
  }

  /** The current process leaves the CPU with its state field written. */
  lemma Leaves(a: Pcbs, b: Pcbs, c: Slot)
    requires Parented(a, c) && forall p :: 0 <= p < N_PCBS ==> Calm(a[p], b[p])
    requires b[c].state != FREE && forall p :: 0 <= p < N_PCBS && p != c ==> b[p].state == FREE ==> a[p].state == FREE
    ensures Parented(b, -1)
  {
    hide HasLive;
    forall p | 0 <= p < N_PCBS
      ensures OnlyInitNew(b[p], p, -1)
    {
      assert OnlyInitNew(a[p], p, c) && Calm(a[p], b[p]);
    }
    CalmKeeps(a, b, c, -1);
  }

  /** It stays, and nobody's state field is cleared. */
  lemma Stays(a: Pcbs, b: Pcbs, c: Slot)
    requires Parented(a, c) && forall p :: 0 <= p < N_PCBS ==> Calm(a[p], b[p])
    requires forall p :: 0 <= p < N_PCBS && b[p].state == FREE ==> a[p].state == FREE
    ensures Parented(b, c)
  {
    hide HasLive;
    forall p | 0 <= p < N_PCBS
      ensures OnlyInitNew(b[p], p, c)
    {
      assert OnlyInitNew(a[p], p, c) && Calm(a[p], b[p]);
    }
    CalmKeeps(a, b, c, c);
  }

  lemma ScheduleDispatchCalm(s: State, prio: Byte)
    requires Core(s.qs, s.pcbs, multiset{s.current}) && Parented(s.pcbs, s.current)
    ensures var r := Schedule(s, s.current, prio); r.Ok? && Peaceful(Dispatch(r.s))
  {
    hide Core, Parented, Dispatch, Peaceful;
    Schedules(s, multiset{s.current}, s.current, prio);
    assert multiset{s.current} - multiset{s.current} == multiset{};
    var s1 := Schedule(s, s.current, prio).s;
    Leaves(s.pcbs, s1.pcbs, s.current);
    DispatchCalm(s1);
  }

  lemma BlockCalm(s: State, pcb: Pcb, q: nat, key: U32, failed: Res)
    requires Core(s.qs, s.pcbs, multiset{s.current}) && Parented(s.pcbs, s.current)
    requires q < PCBS && Fits(pcb, q, key)
    requires Calm(s.pcbs[s.current], pcb) && pcb.state != FREE
    ensures Peaceful(Block(s, pcb, q, key, failed))
  {
    hide Core, Parented, Dispatch, Peaceful, Fits;
    Put(s.qs, s.pcbs, multiset{s.current}, s.current, pcb, q, InsertIndex(s.qs[q], DisciplineOf(q), key), key);
    assert multiset{s.current} - multiset{s.current} == multiset{};
    var s1 := Insert(Set(s, s.current, pcb), q, Entry(key, s.current)).value;
    Leaves(s.pcbs, s1.pcbs, s.current);
    DispatchCalm(s1);
  }

  lemma {:induction false} WakeCalm(s: State)
    requires Core(s.qs, s.pcbs, multiset{s.current}) && Parented(s.pcbs, s.current)
    ensures WakeAll(s).Ok? && Parented(WakeAll(s).s.pcbs, s.current)
    decreases |s.qs[SLEEP]|
  {
    hide Core, Parented;
    var i := KeyIndex(s.qs[SLEEP], DisciplineOf(SLEEP), s.time);
    if i < |s.qs[SLEEP]| {
      WakesOne(s, i);
      var s1 := Schedule(Take(s, SLEEP, i), s.qs[SLEEP][i].data, 0).s;
      Stays(s.pcbs, s1.pcbs, s.current);
      WakeCalm(s1);
    }
  }

  // ---- the events ----

  lemma ClockCalm(s: State, word: U32)
    requires Inv(s) && Parented(s.pcbs, s.current)
    ensures Peaceful(Clock(s, word))
  {
    hide Core, Parented, WakeAll, Dispatch, Peaceful;
    var s1 := Ticked(s, word);
    Rewrite(s.qs, s.pcbs, s1.pcbs, multiset{s.current});
    Stays(s.pcbs, s1.pcbs, s.current);
    Wakes(s1);
    WakeCalm(s1);
    var s2 := WakeAll(s1).s;
    ScheduleDispatchCalm(s2, s2.pcbs[s2.current].prio);
  }

  lemma ReceiveCalm(s: State, ch: Byte)
    requires Inv(s) && Parented(s.pcbs, s.current)
    ensures var r := Receive(s, ch); if r.Ok? then Parented(r.s.pcbs, r.s.current) else Overrun(r.why)
  {
    hide Core, Parented;
    ReceiveSafe(s, ch);
    var r := Receive(s, ch);
    if r.Ok? {
      Stays(s.pcbs, r.s.pcbs, s.current);
    }
  }

  lemma ForkCalm(s: State)
    requires Inv(s) && Parented(s.pcbs, s.current)
    ensures Fork(s).Ok? && Fork(s).s.current == s.current && Parented(Fork(s).s.pcbs, s.current)
  {
    hide Core, Parented;
    if s.qs[PCBS] == [] {
      Stays(s.pcbs, Fork(s).s.pcbs, s.current);
    } else {
      ForkTable(s);
      CurrentHasStack(s);
      NewChild(s.pcbs, Fork(s).s.pcbs, s.qs[PCBS][0].data, s.current);
    }
  }

  lemma NewChild(a: Pcbs, b: Pcbs, p: Slot, c: Slot)
    requires Parented(a, c) && a[p].stack.None? && a[c].stack.Some? && !Ending(a[c])
    requires forall x :: 0 <= x < N_PCBS && x != p ==> Calm(a[x], b[x]) && (b[x].state == FREE ==> a[x].state == FREE)
    requires b[p].state == READY && b[p].ppid == a[c].pid
    ensures Parented(b, c)
  {
    hide HasLive;
    IsLive(a, c);
    assert Calm(a[INIT], b[INIT]);
    forall x | 0 <= x < N_PCBS
      ensures b[x].stack.Some? ==> HasLive(b, b[x].ppid)
      ensures OnlyInitNew(b[x], x, c)
    {
      assert OnlyInitNew(a[x], x, c);
      assert x != p ==> Calm(a[x], b[x]);
      if b[x].stack.Some? {
        assert x != p ==> HasLive(a, a[x].ppid);
        StaysLive(a, b, p, b[x].ppid);
      }
    }
  }

  lemma IsLive(pcbs: Pcbs, c: Slot)
    requires pcbs[c].stack.Some? && !Ending(pcbs[c])
    ensures HasLive(pcbs, pcbs[c].pid)
  {
    assert Live(pcbs[c], pcbs[c].pid);
  }

  /** Freeing a zombie orphans nobody: a live parent is some other process. */
  lemma ReapCalm(s: State, z: Slot)
    requires Inv(s) && s.pcbs[z].state == ZOMBIE && Parented(s.pcbs, s.current)
    ensures Reap(s, z).Ok? && Parented(Reap(s, z).s.pcbs, s.current) && Reap(s, z).s.current == s.current
  {
    hide Core, Reap, Parented;
    var freed := ReapMoves(s, z);
    ReapFreed(s.pcbs, Reap(s, z).s.pcbs, s.current, freed);
  }

  lemma ReapFreed(a: Pcbs, b: Pcbs, c: Slot, z: Slot)
    requires Parented(a, c) && Ending(a[z]) && b[z] == ZeroPcb
    requires forall p :: 0 <= p < N_PCBS && p != z ==> b[p] == a[p].(user := b[p].user)
    ensures Parented(b, c)
  {
    hide HasLive;
    forall p | 0 <= p < N_PCBS
      ensures OnlyInitNew(b[p], p, c)
    {
      assert OnlyInitNew(a[p], p, c);
    }
    Freed(a, b, c, c, z);
  }

  lemma ReparentCalm(a: Pcbs, c: Slot)
    requires Parented(a, c) && c != INIT
    ensures Parented(Reparent(a, a[c].pid), -1)
  {
    hide HasLive;
    var b := Reparent(a, a[c].pid);
    IsLive(a, INIT);
    forall p | 0 <= p < N_PCBS
      ensures b[p].stack.Some? ==> HasLive(b, b[p].ppid)
      ensures OnlyInitNew(b[p], p, -1)
    {
      assert OnlyInitNew(a[p], p, c);
      if b[p].stack.Some? {
        assert HasLive(a, a[p].ppid);
        StaysLive(a, b, -1, b[p].ppid);
      }
    }
  }

  /** A process other than init exits: its parent is found, and it leaves no orphan. */
  lemma ExitCalm(s: State)
    requires Inv(s) && Parented(s.pcbs, s.current) && s.current != INIT
    ensures Peaceful(Exit(s))
  {
    hide Zombify, Dispatch, Core, Parented, Peaceful;
    var c := s.current;
    var s1 := s.(pcbs := Reparent(s.pcbs, s.pcbs[c].pid));
    Rewrite(s.qs, s.pcbs, s1.pcbs, multiset{c});
    ReparentCalm(s.pcbs, c);
    ZombifyCalm(s1);
    DispatchCalm(Zombify(s1, c).s);
  }

  /** No process in use has this one's PID for its parent's. */
  predicate Childless(pcbs: Pcbs, p: Slot) {
    forall x :: 0 <= x < N_PCBS && pcbs[x].stack.Some? ==> pcbs[x].ppid != pcbs[p].pid
  }

  lemma KillCalm(s: State, pid: U32)
    requires Inv(s) && Parented(s.pcbs, s.current)
    requires var p := PcbFind(s.pcbs, pid, 0); p == N_PCBS || p == s.current || (p != INIT && Childless(s.pcbs, p))
    ensures Peaceful(Kill(s, pid))
  {
    hide Dispatch, Core, Parented, PcbFind;
    var p := PcbFind(s.pcbs, pid, 0);
    if p == N_PCBS {
      Stays(s.pcbs, Kill(s, pid).s.pcbs, s.current);
    } else if p == s.current {
      KillSelfYields(s, pid);
      ScheduleDispatchCalm(s, s.pcbs[p].prio);
    } else {
      KilledFreed(s.pcbs, s.current, p);
    }
  }

  lemma KilledFreed(a: Pcbs, c: Slot, p: Slot)
    requires Parented(a, c) && p != INIT && Childless(a, p)
    ensures Parented(a[p := a[p].(state := KILLED)], c)
  {
    hide HasLive;
    var b: Pcbs := a[p := a[p].(state := KILLED)];
    forall x | 0 <= x < N_PCBS
      ensures OnlyInitNew(b[x], x, c)
    {
      assert OnlyInitNew(a[x], x, c);
    }
    Freed(a, b, c, c, p);
  }

  // ---- runs ----

  /** Init does not exit, nobody kills it or a process that has children, and a process that has never been
      descheduled does not block reading. */
  predicate Gentle(s: State, ev: Event) {
    ev.Syscall? ==>
      match Decode(ev.code)
      case CKill =>
        var p := PcbFind(s.pcbs, ev.arg1, 0);
        p == N_PCBS || p == s.current || (p != INIT && Childless(s.pcbs, p))
      case CExit => s.current != INIT
      case CReadc => s.pcbs[s.current].state != FREE || s.inp.pending != []
      case _ => true
  }

  predicate AllGentle(s: State, evs: seq<Event>)
    decreases |evs|
  {
    evs != [] ==> Gentle(s, evs[0]) && (Step(s, evs[0]).Ok? ==> AllGentle(Step(s, evs[0]).s, evs[1..]))
  }

  ghost predicate Quiet(r: Res) {
    match r
    case Ok(s) => Parented(s.pcbs, s.current)
    case Halt(w) => w == AllQueuesEmpty || Overrun(w)
  }

  lemma StepCalm(s: State, ev: Event)
    requires Inv(s) && Parented(s.pcbs, s.current) && Gentle(s, ev)
    ensures Quiet(Step(s, ev))
  {
    hide Clock, Receive, Perform, Core, Parented;
    StepSafe(s, ev);
    match ev
    case Tick(word) => ClockCalm(s, word);
    case Rx(ch) => ReceiveCalm(s, ch);
    case Tx =>
    case Syscall(code, arg1, _, infoPid) =>
      var s0 := Trap(s, code, arg1, infoPid);
      Rewrite(s.qs, s.pcbs, s0.pcbs, multiset{s.current});
      Stays(s.pcbs, s0.pcbs, s.current);
      SameFind(s.pcbs, s0.pcbs, arg1, 0);
      PerformCalm(s0, code, arg1);
  }

  lemma PerformCalm(s: State, code: int, arg1: U32)
    requires Inv(s) && Parented(s.pcbs, s.current) && Gentle(s, Syscall(code, arg1, 0, 0))
    ensures Quiet(Perform(s, Decode(code), arg1))
  {
    hide Exit, Fork, Exec, Wait, Kill, Sleep, ReadC, WriteC, Parented, Inv, Decode, Childless;
    match Decode(code)
    case CExit => ExitCalm(s);
    case CFork => ForkCalm(s);
    case CExec => ExecCalm(s, arg1);
    case CWait => WaitCalm(s);
    case CKill => KillCalm(s, arg1);
    case CSleep => SleepCalm(s, arg1);
    case CReadc => ReadCCalm(s);
    case _ => PlainCalm(s, Decode(code), arg1);
  }

  /** The calls that neither block nor start or end a process. */
  lemma PlainCalm(s: State, call: Call, arg1: U32)
    requires Parented(s.pcbs, s.current)
    requires call.CReads? || call.CWritec? || call.CWrites? || call.CGetpid? || call.CGetppid? || call.CGetprio?
             || call.CGettime? || call.CSetprio? || call.CSettime?
    ensures Quiet(Perform(s, call, arg1))
  {
    hide Parented;
    var r := Perform(s, call, arg1);
    if r.Ok? {
      Stays(s.pcbs, r.s.pcbs, s.current);
    }
  }

  lemma ExecCalm(s: State, prio: U32)
    requires Inv(s) && Parented(s.pcbs, s.current)
    ensures Peaceful(Exec(s, prio))
  {
    hide Dispatch, Parented, Core, Peaceful;
    var me := s.pcbs[s.current];
    var s1 := Set(s, s.current, me.(prio := prio % 256, user := User(0, 0, me.user.infoPid, me.user.infoStatus)));
    Rewrite(s.qs, s.pcbs, s1.pcbs, multiset{s.current});
    Stays(s.pcbs, s1.pcbs, s.current);
    ScheduleDispatchCalm(s1, prio % 256);
  }

  lemma SleepCalm(s: State, ticks: U32)
    requires Inv(s) && Parented(s.pcbs, s.current)
    ensures Peaceful(Sleep(s, ticks))
  {
    hide Block, Parented, Core, Peaceful;
    CurrentHasStack(s);
    BlockCalm(s, Asleep(s), SLEEP, Wrap(s.time + ticks), Ok(Return(Set(s, s.current, Asleep(s)), s.current, 0)));
  }

  lemma ReadCCalm(s: State)
    requires Inv(s) && Parented(s.pcbs, s.current) && (s.pcbs[s.current].state != FREE || s.inp.pending != [])
    ensures Peaceful(ReadC(s))
  {
    hide Block, Parented, Core;
    var me := s.pcbs[s.current];
    CurrentHasStack(s);
    if s.inp.pending != [] {
      Stays(s.pcbs, ReadC(s).s.pcbs, s.current);
    } else {
      BlockCalm(s, me.(status := STATUS_BLOCKED), READING, me.pid, Halt(ReadInsert));
    }
  }

  lemma WaitCalm(s: State)
    requires Inv(s) && Parented(s.pcbs, s.current)
    ensures Peaceful(Wait(s))
  {
    hide Block, Parented, Core, Reap, WaitTarget;
    var me, t := s.pcbs[s.current], WaitTarget(s);
    CurrentHasStack(s);
    if me.user.arg == 0 || t == N_PCBS {
      Stays(s.pcbs, Wait(s).s.pcbs, s.current);
    } else if s.pcbs[t].state == ZOMBIE {
      ReapCalm(s, t);
    } else {
      BlockCalm(s, me.(state := WAITING), WAITERS, me.pid, Halt(WaitInsert));
    }
  }

  lemma {:induction false} RunCalm(s: State, evs: seq<Event>)
    requires Inv(s) && Parented(s.pcbs, s.current) && AllGentle(s, evs)
    ensures Quiet(Run(s, evs))
    decreases |evs|
  {
    hide Step, Inv, Parented, Gentle;
    if evs != [] {
      StepCalm(s, evs[0]);
      if Step(s, evs[0]).Ok? {
        StepSafe(s, evs[0]);
        RunCalm(Step(s, evs[0]).s, evs[1..]);
      }
    }
  }

  /** No gentle run from boot, however long, stops for want of a parent: it can only run out of processes to dispatch
      or overrun a serial buffer. */
  lemma NoOrphanPanic(evs: seq<Event>)
    requires AllGentle(Boot(), evs)
    ensures var r := Run(Boot(), evs); r.Halt? ==> r.why == AllQueuesEmpty || Overrun(r.why)
  {
    hide Boot, Inv, Parented;
    BootSafe();
    BootParented();
    RunCalm(Boot(), evs);
  }

  lemma BootParented()
    ensures Parented(Boot().pcbs, Boot().current)
  {
    assert Live(Boot().pcbs[INIT], PID_INIT);
  }

  // ---- why the conditions are there ----

  lemma RunFirst(s: State, ev: Event, evs: seq<Event>)
    ensures var r := Step(s, ev); Run(s, [ev] + evs) == if r.Halt? then Halt(r.why) else Run(r.s, evs)
  {
    hide Step;
    assert ([ev] + evs)[1..] == evs;
  }

  /** Nobody in use has this PID. */
  lemma NotFound(pcbs: Pcbs, pid: U32)
    requires forall p :: 0 <= p < N_PCBS ==> pcbs[p].state == FREE || pcbs[p].pid != pid
    ensures PcbFind(pcbs, pid, 0) == N_PCBS
  {
  }

  /** Init exiting at once stops the kernel: its state field has never been written, so that it is not found
      as its own parent. */
  lemma InitExitPanics()
    ensures Run(Boot(), [Syscall(0, 0, 0, 0)]) == Halt(NoParent)
  {
    var s := Trap(Boot(), 0, 0, 0);
    RunFirst(Boot(), Syscall(0, 0, 0, 0), []);
    assert [Syscall(0, 0, 0, 0)] + [] == [Syscall(0, 0, 0, 0)];
    NotFound(Reparent(s.pcbs, PID_INIT), PID_INIT);
  }

  /** Init has forked and is still running. */
  ghost predicate Forked(s: State) {
    && s.current == 0 && s.pcbs[0].state == FREE && s.pcbs[0].pid == PID_INIT
    && s.pcbs[1].state == READY && s.pcbs[1].pid == 2 && s.pcbs[1].ppid == PID_INIT
    && (forall p :: 2 <= p < N_PCBS ==> s.pcbs[p].state == FREE)
    && s.qs[0] == [Entry(0, 1)] && s.inp.pending == [] && !Full(s.qs)
  }

  lemma ForkQueue(s: State)
    requires Inv(s) && s.qs[PCBS] != [] && s.pcbs[s.current].prio == 0
    ensures Fork(s).Ok? && Fork(s).s.qs[0] == s.qs[0] + [Entry(0, s.qs[PCBS][0].data)]
    ensures Fork(s).s.inp == s.inp && Fork(s).s.current == s.current
  {
    hide Core;
    ForkSafe(s);
  }

  lemma InitForks()
    ensures Step(Boot(), Syscall(1, 0, 0, 0)).Ok? && Forked(Step(Boot(), Syscall(1, 0, 0, 0)).s)
  {
    hide Fork, Core, StacksOnce;
    var s := Trap(Boot(), 1, 0, 0);
    BootSafe();
    Rewrite(Boot().qs, Boot().pcbs, s.pcbs, multiset{s.current});
    assert s.qs[PCBS][0] == Entry(0, 1);
    ForkSafe(s);
    ForkTable(s);
    ForkQueue(s);
    NeverFull(Fork(s).s.qs, Fork(s).s.pcbs, multiset{Fork(s).s.current});
  }

  lemma InitBlocks(s: State)
    requires Forked(s)
    ensures var r := Step(s, Syscall(6, 0, 0, 0));
            && r.Ok? && r.s.current == 1 && r.s.pcbs[1].pid == 2 && r.s.pcbs[1].ppid == PID_INIT
            && forall p :: 0 <= p < N_PCBS && p != 1 ==> r.s.pcbs[p].state == FREE
  {
  }

  lemma ChildExits(s: State)
    requires s.current == 1 && s.pcbs[1].pid == 2 && s.pcbs[1].ppid == PID_INIT
    requires forall p :: 0 <= p < N_PCBS && p != 1 ==> s.pcbs[p].state == FREE
    ensures Step(s, Syscall(0, 0, 0, 0)) == Halt(NoParent)
  {
    hide Exit, PcbFind;
    ChildExit(Trap(s, 0, 0, 0));
  }

  lemma ChildExit(s: State)
    requires s.current == 1 && s.pcbs[1].pid == 2 && s.pcbs[1].ppid == PID_INIT
    requires forall p :: 0 <= p < N_PCBS && p != 1 ==> s.pcbs[p].state == FREE
    ensures Exit(s) == Halt(NoParent)
  {
    hide PcbFind, Dispatch, Deliver;
    var b := Reparent(s.pcbs, 2);
    NotFound(b, PID_INIT);
    assert b[1].ppid == PID_INIT;
    assert Zombify(s.(pcbs := b), 1) == Halt(NoParent);
  }

  /** Init forking and then blocking in `readc` before its first preemption leaves its child an orphan: the
      child's exit stops the kernel. */
  lemma BlockedInitPanics()
    ensures Run(Boot(), [Syscall(1, 0, 0, 0), Syscall(6, 0, 0, 0), Syscall(0, 0, 0, 0)]) == Halt(NoParent)
  {
    hide Step, Boot, Run, Forked;
    var a, b, c := Syscall(1, 0, 0, 0), Syscall(6, 0, 0, 0), Syscall(0, 0, 0, 0);
    InitForks();
    var s1 := Step(Boot(), a).s;
    InitBlocks(s1);
    var s2 := Step(s1, b).s;
    ChildExits(s2);
    RunFirst(Boot(), a, [b, c]);
    RunFirst(s1, b, [c]);
    RunFirst(s2, c, []);
    assert [a] + [b, c] == [a, b, c] && [b] + [c] == [b, c] && [c] + [] == [c];
  }
}
