/** A run in which a `wait` for any child takes a zombie that is another process's child. */
module Strangers {
  import opened Defs
  import opened QueueSpec
  import opened KernelSpec
  import opened Placement
  import opened Safety
  import opened Families
  import opened Reaping
  import opened Scenarios

  const LAST: Slot := N_PCBS - 1

  /** Init and the `n` children it has started. */
  function Crowd(n: nat): (procs: seq<Proc>)
    ensures |procs| == n + 1 && procs[0] == Proc(PID_INIT, FREE)
    ensures forall i :: 1 <= i <= n ==> procs[i] == Proc(PID_INIT, READY)
  {
    seq(n + 1, i requires 0 <= i <= n => Proc(PID_INIT, if i == 0 then FREE else READY))
  }

  function UpTo(n: nat): (l: seq<Slot>)
    requires n < N_PCBS
    ensures |l| == n && forall i :: 0 <= i < n ==> l[i] == i + 1
  {
    seq(n, i requires 0 <= i < n => i + 1)
  }

  /** A full table of init's children and init, process `k` running. */
  function Packed(k: Slot): (procs: seq<Proc>)
    ensures |procs| == N_PCBS
    ensures forall i :: 0 <= i < N_PCBS ==> procs[i] == Proc(PID_INIT, if i == k then RUNNING else READY)
  {
    seq(N_PCBS, i requires 0 <= i < N_PCBS => Proc(PID_INIT, if i == k then RUNNING else READY))
  }

  /** Whose turn it is after process `k`. */
  function After(k: Slot, i: nat): Slot {
    (k + 1 + i) % N_PCBS
  }

  function Others(k: Slot): (l: seq<Slot>)
    ensures |l| == N_PCBS - 1 && forall i :: 0 <= i < N_PCBS - 1 ==> l[i] == After(k, i)
  {
    seq(N_PCBS - 1, i requires 0 <= i < N_PCBS - 1 => After(k, i))
  }

  /** Init fills the table. */
  lemma {:induction false} InitForks(s: State, n: nat)
    requires n < N_PCBS && Reaches(s, [], [Proc(PID_INIT, FREE)], 0, [])
    ensures Reaches(s, Times(FORK, n), Crowd(n), 0, UpTo(n))
  {
    hide Reaches;
    if n == 0 {
      assert Crowd(0) == [Proc(PID_INIT, FREE)] && UpTo(0) == [];
    } else {
      InitForks(s, n - 1);
      ForksAfter(s, Times(FORK, n - 1), Crowd(n - 1), 0, UpTo(n - 1));
      assert Crowd(n - 1) + [Proc(1, READY)] == Crowd(n);
      assert UpTo(n - 1) + [n] == UpTo(n);
    }
  }

  /** Every tick passes the turn to the next process. */
  lemma {:induction false} TurnsPass(s: State, evs: seq<Event>, n: nat)
    requires Reaches(s, evs, Crowd(LAST), 0, UpTo(LAST)) && 1 <= n < N_PCBS
    ensures Reaches(s, evs + Times(TICK, n), Packed(n), n, Others(n))
  {
    hide Reaches;
    if n == 1 {
      TicksAfter(s, evs, Crowd(LAST), 0, UpTo(LAST));
      assert As(As(Crowd(LAST), 0, READY), 1, RUNNING) == Packed(1);
      assert (UpTo(LAST) + [0])[1..] == Others(1);
      assert Times(TICK, 0) + [TICK] == [TICK];
    } else {
      TurnsPass(s, evs, n - 1);
      PassTurn(s, evs + Times(TICK, n - 1), n - 1);
      assert After(n - 1, 0) == n;
      assert evs + Times(TICK, n - 1) + [TICK] == evs + Times(TICK, n);
    }
  }

  lemma TurnReady(k: Slot)
    ensures (Others(k) + [k])[1..] == Others(After(k, 0))
  {
  }

  lemma PassTurn(s: State, evs: seq<Event>, k: Slot)
    requires Reaches(s, evs, Packed(k), k, Others(k))
    ensures Reaches(s, evs + [TICK], Packed(After(k, 0)), After(k, 0), Others(After(k, 0)))
  {
    hide Reaches, Others, Packed;
    TicksAfter(s, evs, Packed(k), k, Others(k));
    TurnReady(k);
    assert As(As(Packed(k), k, READY), After(k, 0), RUNNING) == Packed(After(k, 0));
  }

  /** The process in the last slot exits, init's turn comes, and a tick later that of process 2. */
  lemma LastExits(s: State, evs: seq<Event>)
    requires Reaches(s, evs, Packed(LAST), LAST, Others(LAST))
    ensures Reaches(s, evs + [EXIT] + [TICK], Packed(1)[LAST := Proc(PID_INIT, ZOMBIE)], 1, (UpTo(LAST - 1) + [0])[1..])
  {
    hide Reaches, Others, Packed, UpTo;
    ExitsAfter(s, evs, Packed(LAST), LAST, Others(LAST));
    var procs := Packed(0)[LAST := Proc(PID_INIT, ZOMBIE)];
    assert As(As(Reparented(Packed(LAST), N_PCBS), LAST, ZOMBIE), 0, RUNNING) == procs;
    assert Others(LAST)[0] == 0 && Others(LAST)[1..] == UpTo(LAST - 1);
    TicksAfter(s, evs + [EXIT], procs, 0, UpTo(LAST - 1));
    assert As(As(procs, 0, READY), 1, RUNNING) == Packed(1)[LAST := Proc(PID_INIT, ZOMBIE)];
  }

  const STRANGE: seq<Event> := Times(FORK, LAST) + Times(TICK, LAST) + [EXIT] + [TICK]

  /** In this run from boot process 2, which never had a child, asks for any child of its own: it is given process
      30, which is a child of init and stays unknown to it. */
  lemma StrangerReaped()
    ensures Run(Boot(), STRANGE).Ok?
    ensures var s := Run(Boot(), STRANGE).s;
            var me := s.pcbs[s.current];
            && me.pid == 2 && !HasZombieChild(s) && s.pcbs[LAST].ppid == PID_INIT
            && Step(s, WAIT).Ok? && Step(s, WAIT).s.pcbs[s.current].user.infoPid == 30
               && Step(s, WAIT).s.pcbs[LAST] == ZeroPcb
  {
    hide Run, Boot, Step, Shape;
    var b := Boot();
    AtBoot();
    InitForks(b, LAST);
    TurnsPass(b, Times(FORK, LAST), LAST);
    LastExits(b, Times(FORK, LAST) + Times(TICK, LAST));
    StrangerTaken(Run(b, STRANGE).s);
  }

  lemma StrangerTaken(s: State)
    requires Shape(s, Packed(1)[LAST := Proc(PID_INIT, ZOMBIE)], 1, (UpTo(LAST - 1) + [0])[1..])
    ensures s.current == 1 && s.pcbs[1].pid == 2 && !HasZombieChild(s) && s.pcbs[LAST].ppid == PID_INIT
    ensures var r := Step(s, WAIT); r.Ok? && r.s.pcbs[1].user.infoPid == 30 && r.s.pcbs[LAST] == ZeroPcb
  {
    hide Wait, Step, Reap, Core;
    var procs, ready := Packed(1)[LAST := Proc(PID_INIT, ZOMBIE)], (UpTo(LAST - 1) + [0])[1..];
    var t := Trap(s, 3, 1, 0);
    WaitCall(s);
    TrapShape(s, 3, 1, procs, 1, ready);
    AllInits(t, procs, ready);
    AllInits(s, procs, ready);
    AnyTarget(t);
    ReapTable(t, LAST);
    WaitReaps(t, LAST);
  }

  lemma WaitReaps(s: State, z: Slot)
    requires s.pcbs[s.current].user.arg != 0 && WaitTarget(s) == z && s.pcbs[z].state == ZOMBIE
    ensures Wait(s) == Reap(s, z)
  {
    hide Reap;
  }

  /** Everybody is a child of init, and the last process is a zombie. */
  lemma AllInits(s: State, procs: seq<Proc>, ready: seq<Slot>)
    requires procs == Packed(1)[LAST := Proc(PID_INIT, ZOMBIE)] && Shape(s, procs, 1, ready)
    ensures s.pcbs[1].pid == 2 && !HasZombieChild(s) && Pids(s.pcbs)
    ensures s.pcbs[LAST].state == ZOMBIE && s.pcbs[LAST].pid == 30 && s.pcbs[LAST].ppid == PID_INIT
  {
    hide Inv;
    forall p | 0 <= p < N_PCBS
      ensures s.pcbs[p].stack.Some? && s.pcbs[p].pid == p + 1 && s.pcbs[p].ppid == PID_INIT
    {
      assert Like(s.pcbs[p], procs[p], p);
    }
    assert Like(s.pcbs[LAST], procs[LAST], LAST);
  }
}
