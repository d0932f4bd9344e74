/** Short runs from boot, followed on a table of the processes they start. */
module Scenarios {
  import opened Defs
  import opened QueueSpec
  import opened KernelSpec
  import opened Placement
  import opened Safety
  import opened Families
  import opened Orphans
  import opened Sleeping

  /** A process of such a run.  Slots and PIDs are handed out in order: the process in slot `i` has PID `i + 1`. */
  datatype Proc = Proc(ppid: U32, state: PState)

  predicate Like(pcb: Pcb, p: Proc, i: nat) {
    && pcb.stack.Some? && pcb.pid == i + 1 && pcb.ppid == p.ppid && pcb.state == p.state && pcb.prio == 0
    && (p.state == WAITING ==> pcb.user.infoPid == 0)
  }

  function QueueOf(l: seq<Slot>): (c: seq<Entry>)
    ensures |c| == |l| && forall i :: 0 <= i < |c| ==> c[i] == Entry(0, l[i])
  {
    seq(|l|, i requires 0 <= i < |l| => Entry(0, l[i]))
  }

  function FreeFrom(n: nat): (c: seq<Entry>)
    requires n <= N_PCBS
    ensures |c| == N_PCBS - n && forall i :: 0 <= i < |c| ==> c[i] == Entry(0, n + i)
  {
    seq(N_PCBS - n, i requires 0 <= i < N_PCBS - n => Entry(0, n + i))
  }

  ghost predicate Peopled(pcbs: Pcbs, procs: seq<Proc>) {
    && |procs| <= N_PCBS
    && (forall i :: 0 <= i < |procs| ==> Like(pcbs[i], procs[i], i))
    && (forall i :: |procs| <= i < N_PCBS ==> pcbs[i] == ZeroPcb)
  }

  lemma PeopledAt(pcbs: Pcbs, procs: seq<Proc>, i: nat)
    requires Peopled(pcbs, procs) && i < |procs|
    ensures Like(pcbs[i], procs[i], i)
  {
  }

  lemma PeopledAs(pcbs: Pcbs, procs: seq<Proc>, i: nat, st: PState)
    requires Peopled(pcbs, procs) && i < |procs| && (st == WAITING ==> pcbs[i].user.infoPid == 0)
    ensures Peopled(pcbs[i := pcbs[i].(state := st)], As(procs, i, st))
  {
  }

  /** The state of a run in which these processes have been started, `cur` runs and `ready` is the most urgent
      queue; nobody sleeps or reads. */
  ghost predicate Shape(s: State, procs: seq<Proc>, cur: Slot, ready: seq<Slot>) {
    && cur < |procs| <= N_PCBS && s.current == cur && s.nextPid == |procs| + 1
    && Peopled(s.pcbs, procs)
    && s.qs[0] == QueueOf(ready) && s.qs[SLEEP] == [] && s.qs[PCBS] == FreeFrom(|procs|)
    && Inv(s)
  }

  function As(procs: seq<Proc>, i: nat, st: PState): seq<Proc>
    requires i < |procs|
  {
    procs[i := procs[i].(state := st)]
  }

  lemma BootShape()
    ensures Shape(Boot(), [Proc(PID_INIT, FREE)], 0, [])
  {
    hide Inv;
    BootSafe();
    assert Boot().qs[PCBS] == FreeFrom(1);
  }

  // ---- the steps ----

  const FORK: Event := Syscall(1, 0, 0, 0)
  const WAIT: Event := Syscall(3, 1, 0, 0)
  const EXIT: Event := Syscall(0, 0, 0, 0)
  const TICK: Event := Tick(0)
  const KILL2: Event := Syscall(4, 2, 0, 0)

  lemma ForkCall(s: State)
    ensures Step(s, FORK) == Fork(Trap(s, 1, 0, 0))
  {
    hide Fork;
  }

  lemma WaitCall(s: State)
    ensures Step(s, WAIT) == Wait(Trap(s, 3, 1, 0))
  {
    hide Wait;
  }

  lemma ExitCall(s: State)
    ensures Step(s, EXIT) == Exit(Trap(s, 0, 0, 0))
  {
    hide Exit;
  }

  lemma KillCall(s: State, pid: U32)
    ensures Step(s, Syscall(4, pid, 0, 0)) == Kill(Trap(s, 4, pid, 0), pid)
  {
    hide Kill;
  }

  lemma TrapShape(s: State, code: int, arg1: U32, procs: seq<Proc>, cur: Slot, ready: seq<Slot>)
    requires Shape(s, procs, cur, ready) && procs[cur].state != WAITING
    ensures Shape(Trap(s, code, arg1, 0), procs, cur, ready)
  {
    Rewrite(s.qs, s.pcbs, Trap(s, code, arg1, 0).pcbs, multiset{s.current});
  }

  lemma ForkShape(s: State, procs: seq<Proc>, cur: Slot, ready: seq<Slot>)
    requires Shape(s, procs, cur, ready) && procs[cur].state != WAITING && |procs| < N_PCBS
    ensures var r := Step(s, FORK);
            r.Ok? && Shape(r.s, procs + [Proc(cur + 1, READY)], cur, ready + [|procs|])
  {
    hide Fork, Inv, IsCurrent, Step;
    ForkCall(s);
    TrapShape(s, 1, 0, procs, cur, ready);
    var t := Trap(s, 1, 0, 0);
    assert t.qs[PCBS][0] == Entry(0, |procs|);
    ForkSafe(t);
    ForkTable(t);
    ForkQueue(t);
    ForkLists(t);
    var r := Fork(t).s;
    assert r.qs[0] == QueueOf(ready + [|procs|]);
    assert FreeFrom(|procs|)[1..] == FreeFrom(|procs| + 1);
  }

  lemma ForkLists(s: State)
    requires Inv(s) && s.qs[PCBS] != [] && s.pcbs[s.current].prio == 0
    ensures Fork(s).Ok? && Fork(s).s.qs[PCBS] == s.qs[PCBS][1..] && Fork(s).s.qs[SLEEP] == s.qs[SLEEP]
  {
    hide Core;
    ForkSafe(s);
    assert RemoveAt(s.qs[PCBS], 0) == s.qs[PCBS][1..];
  }

  /** Dispatching the READY head of the most urgent queue. */
  lemma DispatchHead(s: State, ready: seq<Slot>)
    requires ready != [] && s.qs[0] == QueueOf(ready) && s.pcbs[ready[0]].state == READY
    ensures var s1 := s.(qs := s.qs[0 := QueueOf(ready[1..])], current := ready[0]);
            Dispatch(s) == Ok(SetState(s1, ready[0], RUNNING))
  {
    assert FirstReady(s.qs, 0) == 0;
    assert s.qs[0][1..] == QueueOf(ready[1..]);
  }

  lemma TickShape(s: State, procs: seq<Proc>, cur: Slot, ready: seq<Slot>)
    requires Shape(s, procs, cur, ready) && cur !in ready
    requires forall r :: r in ready ==> r < |procs| && procs[r].state == READY
    ensures var r, all := Step(s, TICK), ready + [cur];
            r.Ok? && all[0] < |procs| && Shape(r.s, As(As(procs, cur, READY), all[0], RUNNING), all[0], all[1..])
  {
    hide Dispatch, Inv, WakeAll, Full, Peopled;
    var all := ready + [cur];
    var t := Ticked(s, 0);
    Quiet0(s);
    TickedPeople(s, procs, cur);
    Behind(t, ready);
    var u := Schedule(t, cur, 0).s;
    PeopledAs(t.pcbs, procs, cur, READY);
    assert all[0] == (if ready == [] then cur else ready[0]) && (ready != [] ==> ready[0] in ready);
    PeopledAt(u.pcbs, As(procs, cur, READY), all[0]);
    DispatchHead(u, all);
    TickKeeps(s);
    PeopledAs(u.pcbs, As(procs, cur, READY), all[0], RUNNING);
  }

  lemma TickedPeople(s: State, procs: seq<Proc>, cur: Slot)
    requires Peopled(s.pcbs, procs) && s.current == cur < |procs|
    ensures Peopled(Ticked(s, 0).pcbs, procs) && s.pcbs[cur].prio == 0
  {
    PeopledAt(s.pcbs, procs, cur);
  }

  lemma Quiet0(s: State)
    requires Inv(s) && s.qs[SLEEP] == []
    ensures WakeAll(Ticked(s, 0)) == Ok(Ticked(s, 0)) && !Full(s.qs)
  {
    NodesLeft(s);
    NoneDue(Ticked(s, 0));
  }

  lemma Behind(s: State, ready: seq<Slot>)
    requires s.qs[0] == QueueOf(ready) && !Full(s.qs)
    ensures var r := Schedule(s, s.current, 0);
            && r == Ok(SetState(s, s.current, READY).(qs := s.qs[0 := QueueOf(ready + [s.current])]))
  {
    hide Full;
    assert s.qs[0] + [Entry(0, s.current)] == QueueOf(ready + [s.current]);
  }

  lemma TickKeeps(s: State)
    requires Inv(s)
    ensures Clock(s, 0).Ok? ==> Inv(Clock(s, 0).s)
  {
    hide Inv, Clock;
    ClockSafe(s, 0);
  }

  /** The search finds the process with this PID where it is, unless its state says FREE. */
  lemma FindShape(pcbs: Pcbs, n: nat, pid: nat)
    requires 1 <= pid <= n <= N_PCBS
    requires forall i :: 0 <= i < n ==> pcbs[i].pid == i + 1
    requires forall i :: n <= i < N_PCBS ==> pcbs[i].state == FREE
    ensures PcbFind(pcbs, pid, 0) == if pcbs[pid - 1].state == FREE then N_PCBS else pid - 1
  {
    var p := PcbFind(pcbs, pid, 0);
    if p < N_PCBS {
      assert pcbs[p].pid == p + 1;
    }
  }

  /** `wait` for any child, by a process that has no zombie child: it blocks. */
  lemma WaitShape(s: State, procs: seq<Proc>, cur: Slot, ready: seq<Slot>)
    requires Shape(s, procs, cur, ready) && procs[cur].state != WAITING && ready != [] && cur !in ready
    requires ready[0] < |procs| && procs[ready[0]].state == READY
    requires forall i :: 0 <= i < |procs| ==> !(procs[i].ppid == cur + 1 && procs[i].state == ZOMBIE)
    requires |procs| == N_PCBS ==> procs[N_PCBS - 1].state != ZOMBIE
    ensures var r := Step(s, WAIT);
            r.Ok? && Shape(r.s, As(As(procs, cur, WAITING), ready[0], RUNNING), ready[0], ready[1..])
  {
    hide Wait, Inv, Step, Peopled;
    WaitCall(s);
    TrapShape(s, 3, 1, procs, cur, ready);
    var t := Trap(s, 3, 1, 0);
    NoZombieChild(t, procs, cur, ready);
    PeopledAt(t.pcbs, procs, ready[0]);
    WaitValue(t, ready);
    WaitKeeps(t);
    PeopledAs(t.pcbs, procs, cur, WAITING);
    PeopledAs(t.pcbs[cur := t.pcbs[cur].(state := WAITING)], As(procs, cur, WAITING), ready[0], RUNNING);
  }

  lemma WaitValue(s: State, ready: seq<Slot>)
    requires Inv(s) && s.pcbs[s.current].user.arg != 0 && s.pcbs[s.current].user.infoPid == 0
    requires WaitTarget(s) == N_PCBS - 1 && s.pcbs[N_PCBS - 1].state != ZOMBIE
    requires ready != [] && s.qs[0] == QueueOf(ready) && s.current !in ready && s.pcbs[ready[0]].state == READY
    ensures Wait(s).Ok?
    ensures var r, c, h := Wait(s).s, s.current, ready[0];
            && r.pcbs == s.pcbs[c := s.pcbs[c].(state := WAITING)][h := s.pcbs[h].(state := RUNNING)]
            && r.current == h && r.nextPid == s.nextPid
            && r.qs[0] == QueueOf(ready[1..]) && r.qs[SLEEP] == s.qs[SLEEP] && r.qs[PCBS] == s.qs[PCBS]
  {
    hide Dispatch, Inv, Full, WaitTarget;
    NodesLeft(s);
    var c := s.current;
    var me := s.pcbs[c].(state := WAITING);
    DispatchHead(Insert(Set(s, c, me), WAITERS, Entry(me.pid, c)).value, ready);
  }

  lemma NoZombieChild(s: State, procs: seq<Proc>, cur: Slot, ready: seq<Slot>)
    requires Shape(s, procs, cur, ready) && s.pcbs[cur].user.infoPid == 0
    requires forall i :: 0 <= i < |procs| ==> !(procs[i].ppid == cur + 1 && procs[i].state == ZOMBIE)
    requires |procs| == N_PCBS ==> procs[N_PCBS - 1].state != ZOMBIE
    ensures WaitTarget(s) == N_PCBS - 1 && s.pcbs[N_PCBS - 1].state != ZOMBIE
  {
    hide Inv;
    forall i | 0 <= i < N_PCBS
      ensures !(s.pcbs[i].ppid == s.pcbs[cur].pid && s.pcbs[i].state == ZOMBIE)
    {
      assert i < |procs| ==> Like(s.pcbs[i], procs[i], i);
    }
    assert |procs| == N_PCBS ==> Like(s.pcbs[N_PCBS - 1], procs[N_PCBS - 1], N_PCBS - 1);
  }

  lemma WaitKeeps(s: State)
    requires Inv(s)
    ensures Wait(s).Ok? ==> Inv(Wait(s).s)
  {
    hide Inv, Wait;
    WaitSafe(s);
  }

  function Reparented(procs: seq<Proc>, pid: U32): (r: seq<Proc>)
    ensures |r| == |procs|
    ensures forall i :: 0 <= i < |r| ==> r[i] == if procs[i].ppid == pid then procs[i].(ppid := PID_INIT) else procs[i]
  {
    seq(|procs|, i requires 0 <= i < |procs| => if procs[i].ppid == pid then procs[i].(ppid := PID_INIT) else procs[i])
  }

  /** An exit whose parent is there but not waiting: the process becomes a zombie, its children init's. */
  lemma ExitShape(s: State, procs: seq<Proc>, cur: Slot, ready: seq<Slot>)
    requires Shape(s, procs, cur, ready) && procs[cur].state == RUNNING && ready != [] && cur !in ready
    requires ready[0] < |procs| && procs[ready[0]].state == READY
    requires 1 <= procs[cur].ppid <= |procs| && procs[cur].ppid != cur + 1
    requires var parent := procs[procs[cur].ppid - 1]; parent.state != FREE && parent.state != WAITING
    ensures var r := Step(s, EXIT);
            && r.Ok?
            && Shape(r.s, As(As(Reparented(procs, cur + 1), cur, ZOMBIE), ready[0], RUNNING), ready[0], ready[1..])
  {
    hide Exit, Inv, PcbFind, Step, Peopled, Reparented, Reparent;
    ExitCall(s);
    TrapShape(s, 0, 0, procs, cur, ready);
    var t := Trap(s, 0, 0, 0);
    PeopledAt(t.pcbs, procs, ready[0]);
    ParentIs(t.pcbs, procs, cur);
    ExitValue(t, ready, procs[cur].ppid - 1);
    ExitKeeps(t);
    ExitPeople(t.pcbs, procs, cur, ready[0]);
  }

  lemma ParentIs(pcbs: Pcbs, procs: seq<Proc>, cur: Slot)
    requires Peopled(pcbs, procs) && cur < |procs| && procs[cur].state == RUNNING
    requires 1 <= procs[cur].ppid <= |procs| && procs[cur].ppid != cur + 1
    requires var parent := procs[procs[cur].ppid - 1]; parent.state != FREE && parent.state != WAITING
    ensures pcbs[cur].pid == cur + 1
    ensures var b, parent := Reparent(pcbs, cur + 1), procs[cur].ppid - 1;
            PcbFind(b, b[cur].ppid, 0) == parent && pcbs[parent].state != WAITING
  {
    hide PcbFind, Reparented;
    PeopledAt(pcbs, procs, cur);
    PeopledAt(pcbs, procs, procs[cur].ppid - 1);
    Handed(pcbs, procs, cur + 1);
    PeopledPids(Reparent(pcbs, cur + 1), Reparented(procs, cur + 1));
    FindShape(Reparent(pcbs, cur + 1), |procs|, procs[cur].ppid);
  }

  lemma ExitPeople(pcbs: Pcbs, procs: seq<Proc>, cur: Slot, h: Slot)
    requires Peopled(pcbs, procs) && cur < |procs| && h < |procs| && h != cur
    ensures var b, procs' := Reparent(pcbs, cur + 1), Reparented(procs, cur + 1);
            Peopled(b[cur := b[cur].(state := ZOMBIE)][h := b[h].(state := RUNNING)],
              As(As(procs', cur, ZOMBIE), h, RUNNING))
  {
    hide Peopled;
    var b, procs' := Reparent(pcbs, cur + 1), Reparented(procs, cur + 1);
    Handed(pcbs, procs, cur + 1);
    PeopledAs(b, procs', cur, ZOMBIE);
    PeopledAs(b[cur := b[cur].(state := ZOMBIE)], As(procs', cur, ZOMBIE), h, RUNNING);
  }

  lemma Handed(pcbs: Pcbs, procs: seq<Proc>, pid: U32)
    requires Peopled(pcbs, procs) && pid != 0
    ensures Peopled(Reparent(pcbs, pid), Reparented(procs, pid))
  {
  }

  lemma PeopledPids(pcbs: Pcbs, procs: seq<Proc>)
    requires Peopled(pcbs, procs)
    ensures forall i :: 0 <= i < |procs| ==> pcbs[i].pid == i + 1
    ensures forall i :: |procs| <= i < N_PCBS ==> pcbs[i].state == FREE
  {
  }

  lemma ExitValue(s: State, ready: seq<Slot>, parent: Slot)
    requires Inv(s) && s.current != parent && s.pcbs[parent].state != WAITING
    requires var b := Reparent(s.pcbs, s.pcbs[s.current].pid); PcbFind(b, b[s.current].ppid, 0) == parent
    requires ready != [] && s.qs[0] == QueueOf(ready) && s.current !in ready && s.pcbs[ready[0]].state == READY
    ensures Exit(s).Ok?
    ensures var b, r, c, h := Reparent(s.pcbs, s.pcbs[s.current].pid), Exit(s).s, s.current, ready[0];
            && r.pcbs == b[c := b[c].(state := ZOMBIE)][h := b[h].(state := RUNNING)]
            && r.current == h && r.nextPid == s.nextPid
            && r.qs[0] == QueueOf(ready[1..]) && r.qs[SLEEP] == s.qs[SLEEP] && r.qs[PCBS] == s.qs[PCBS]
  {
    hide Dispatch, Inv, Full, PcbFind;
    NodesLeft(s);
    var t := s.(pcbs := Reparent(s.pcbs, s.pcbs[s.current].pid));
    DispatchHead(MakeZombie(t).s, ready);
  }

  lemma ExitKeeps(s: State)
    requires Inv(s)
    ensures Exit(s).Ok? ==> Inv(Exit(s).s)
  {
    hide Inv, Exit;
    ExitSafe(s);
  }

  /** Marking another process KILLED. */
  lemma KillShape(s: State, pid: U32, procs: seq<Proc>, cur: Slot, ready: seq<Slot>)
    requires Shape(s, procs, cur, ready) && procs[cur].state != WAITING
    requires 1 <= pid <= |procs| && pid != cur + 1 && procs[pid - 1].state != FREE
    ensures var r := Step(s, Syscall(4, pid, 0, 0));
            r.Ok? && Shape(r.s, As(procs, pid - 1, KILLED), cur, ready)
  {
    hide Inv, Step;
    KillCall(s, pid);
    TrapShape(s, 4, pid, procs, cur, ready);
    var t := Trap(s, 4, pid, 0);
    FindShape(t.pcbs, |procs|, pid);
    KillKeeps(t, pid);
  }

  lemma KillKeeps(s: State, pid: U32)
    requires Inv(s)
    ensures Kill(s, pid).Ok? ==> Inv(Kill(s, pid).s)
  {
    hide Inv, Kill;
    KillSafe(s, pid);
  }

  // ---- runs from boot ----

  lemma {:induction false} RunMore(s: State, evs: seq<Event>, ev: Event)
    ensures var r := Run(s, evs); Run(s, evs + [ev]) == if r.Ok? then Step(r.s, ev) else r
    decreases |evs|
  {
    hide Step;
    if evs == [] {
      assert [] + [ev] == [ev] && [ev][1..] == [];
    } else {
      assert (evs + [ev])[1..] == evs[1..] + [ev];
      if Step(s, evs[0]).Ok? {
        RunMore(Step(s, evs[0]).s, evs[1..], ev);
      }
    }
  }

  /** The same event `n` times. */
  function Times(ev: Event, n: nat): seq<Event> {
    if n == 0 then [] else Times(ev, n - 1) + [ev]
  }

  /** The run `evs` from `s` ends in a state of this shape. */
  ghost predicate Reaches(s: State, evs: seq<Event>, procs: seq<Proc>, cur: Slot, ready: seq<Slot>) {
    var r := Run(s, evs);
    r.Ok? && Shape(r.s, procs, cur, ready)
  }

  lemma AtBoot()
    ensures Reaches(Boot(), [], [Proc(PID_INIT, FREE)], 0, [])
  {
    hide Boot;
    BootShape();
  }

  lemma ForksAfter(s: State, evs: seq<Event>, procs: seq<Proc>, cur: Slot, ready: seq<Slot>)
    requires Reaches(s, evs, procs, cur, ready) && cur < |procs| < N_PCBS && procs[cur].state != WAITING
    ensures Reaches(s, evs + [FORK], procs + [Proc(cur + 1, READY)], cur, ready + [|procs|])
  {
    hide Shape, Step, Run;
    RunMore(s, evs, FORK);
    ForkShape(Run(s, evs).s, procs, cur, ready);
  }

  lemma TicksAfter(s: State, evs: seq<Event>, procs: seq<Proc>, cur: Slot, ready: seq<Slot>)
    requires Reaches(s, evs, procs, cur, ready) && cur < |procs| && cur !in ready
    requires forall r :: r in ready ==> r < |procs| && procs[r].state == READY
    ensures var all := ready + [cur];
            all[0] < |procs| && Reaches(s, evs + [TICK], As(As(procs, cur, READY), all[0], RUNNING), all[0], all[1..])
  {
    hide Shape, Step, Run;
    RunMore(s, evs, TICK);
    TickShape(Run(s, evs).s, procs, cur, ready);
  }

  lemma WaitsAfter(s: State, evs: seq<Event>, procs: seq<Proc>, cur: Slot, ready: seq<Slot>)
    requires Reaches(s, evs, procs, cur, ready) && cur < |procs| < N_PCBS && procs[cur].state != WAITING
    requires ready != [] && cur !in ready && ready[0] < |procs| && procs[ready[0]].state == READY
    requires forall i :: 0 <= i < |procs| ==> !(procs[i].ppid == cur + 1 && procs[i].state == ZOMBIE)
    ensures Reaches(s, evs + [WAIT], As(As(procs, cur, WAITING), ready[0], RUNNING), ready[0], ready[1..])
  {
    hide Shape, Step, Run;
    RunMore(s, evs, WAIT);
    WaitShape(Run(s, evs).s, procs, cur, ready);
  }

  lemma ExitsAfter(s: State, evs: seq<Event>, procs: seq<Proc>, cur: Slot, ready: seq<Slot>)
    requires Reaches(s, evs, procs, cur, ready) && cur < |procs| && procs[cur].state == RUNNING
    requires ready != [] && cur !in ready && ready[0] < |procs| && procs[ready[0]].state == READY
    requires 1 <= procs[cur].ppid <= |procs| && procs[cur].ppid != cur + 1
    requires var parent := procs[procs[cur].ppid - 1]; parent.state != FREE && parent.state != WAITING
    ensures Reaches(s, evs + [EXIT], As(As(Reparented(procs, cur + 1), cur, ZOMBIE), ready[0], RUNNING),
                    ready[0], ready[1..])
  {
    hide Shape, Step, Run;
    RunMore(s, evs, EXIT);
    ExitShape(Run(s, evs).s, procs, cur, ready);
  }
}
