/** Why "a process always finds its parent" leaves out kills: a run in which a killed parent is reaped. */
module Orphaned {
  import opened Defs
  import opened QueueSpec
  import opened KernelSpec
  import opened Placement
  import opened Safety
  import opened Families
  import opened Orphans
  import opened Scheduling
  import opened Scenarios
  import opened Stranding

  /** Process 3, the running child of process 2, when nobody is in use under PID 2. */
  predicate LostParent(s: State) {
    && s.current == 2 && s.pcbs[2].pid == 3 && s.pcbs[2].ppid == 2
    && forall p :: 0 <= p < N_PCBS ==> s.pcbs[p].state == FREE || s.pcbs[p].pid != 2
  }

  lemma KilledPids(s: State)
    requires Shape(s, [Proc(1, WAITING), Proc(1, KILLED), Proc(2, RUNNING)], 2, [1])
    ensures Pids(s.pcbs)
  {
    hide Inv;
    var procs := [Proc(1, WAITING), Proc(1, KILLED), Proc(2, RUNNING)];
    forall p | 0 <= p < N_PCBS
      ensures if p < 3 then s.pcbs[p].pid == p + 1 && s.pcbs[p].ppid < 4 else s.pcbs[p] == ZeroPcb
    {
      assert p < 3 ==> Like(s.pcbs[p], procs[p], p);
    }
  }

  /** The dispatch that ends the tick delivers the killed process to init and goes on to the next. */
  lemma KilledDispatched(s: State)
    requires AllQueued(s) && Pids(s.pcbs) && s.qs[0] == QueueOf([1, 2])
    requires s.pcbs[0].state == WAITING && s.pcbs[0].pid == 1 && s.pcbs[0].user.infoPid == 0
    requires s.pcbs[1].state == KILLED && s.pcbs[1].pid == 2 && s.pcbs[1].ppid == 1
    requires s.pcbs[2].state == READY && s.pcbs[2].pid == 3 && s.pcbs[2].ppid == 2
    ensures Dispatch(s).Ok? && LostParent(Dispatch(s).s)
  {
    hide Core, Zombify, Deliver;
    assert FirstReady(s.qs, 0) == 0;
    var s1 := Popped(s);
    assert s.qs[0][1..] == QueueOf([2]);
    Pops(s);
    ParentIsInit(s1.pcbs);
    ZombifyDelivers(s1);
    DeliverTable(s1, 0);
    var s2 := Zombify(s1, 1).s;
    assert QueueOf([2]) + [Entry(0, 0)] == QueueOf([2, 0]);
    DispatchHead(s2, [2, 0]);
  }

  lemma ParentIsInit(pcbs: Pcbs)
    requires Pids(pcbs) && pcbs[0].state == WAITING && pcbs[0].pid == 1
    ensures PcbFind(pcbs, 1, 0) == 0
  {
  }

  lemma KilledTick(s: State)
    requires Shape(s, [Proc(1, WAITING), Proc(1, KILLED), Proc(2, RUNNING)], 2, [1])
    ensures Step(s, TICK).Ok? && LostParent(Step(s, TICK).s)
  {
    hide Dispatch, WakeAll, Full, Core;
    var procs := [Proc(1, WAITING), Proc(1, KILLED), Proc(2, RUNNING)];
    var t := Ticked(s, 0);
    assert Like(s.pcbs[0], procs[0], 0) && Like(s.pcbs[1], procs[1], 1) && Like(s.pcbs[2], procs[2], 2);
    KilledPids(s);
    Quiet0(s);
    Behind(t, [1]);
    Rewrite(s.qs, s.pcbs, t.pcbs, multiset{2});
    Schedules(t, multiset{2}, 2, 0);
    assert multiset{2} - multiset{2} == multiset{};
    var u := Schedule(t, 2, 0).s;
    assert [1] + [2] == [1, 2];
    KilledDispatched(u);
  }

  lemma OrphanExits(s: State)
    requires LostParent(s)
    ensures Step(s, EXIT) == Halt(NoParent)
  {
    hide Exit;
    ExitCall(s);
    OrphanExit(Trap(s, 0, 0, 0));
  }

  lemma OrphanExit(s: State)
    requires LostParent(s)
    ensures Exit(s) == Halt(NoParent)
  {
    var b := Reparent(s.pcbs, 3);
    Orphans.NotFound(b, 2);
    assert b[2].ppid == 2;
  }

  /** In this run process 2 is killed while its child runs, and delivered to the waiting init: the child's exit
      stops the kernel. */
  lemma KilledParentPanics()
    ensures Run(Boot(), [FORK, WAIT, FORK, TICK] + [KILL2] + [TICK] + [EXIT]) == Halt(NoParent)
  {
    hide Run, Boot, Step, Shape;
    var b, e := Boot(), [FORK, WAIT, FORK, TICK];
    AtBoot();
    StrandBegins(b);
    var s := Run(b, e).s;
    RunMore(b, e, KILL2);
    RunMore(b, e + [KILL2], TICK);
    RunMore(b, e + [KILL2] + [TICK], EXIT);
    var procs := [Proc(1, WAITING), Proc(1, READY), Proc(2, RUNNING)];
    KillShape(s, 2, procs, 2, [1]);
    assert As(procs, 1, KILLED) == [Proc(1, WAITING), Proc(1, KILLED), Proc(2, RUNNING)];
    var s1 := Step(s, KILL2).s;
    KilledTick(s1);
    OrphanExits(Step(s1, TICK).s);
  }
}
