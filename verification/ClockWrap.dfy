/** What becomes of a sleep whose wake-up time lies past the end of the clock. */
module ClockWrap {
  import opened Defs
  import opened QueueSpec
  import opened KernelSpec
  import opened Placement
  import opened Safety
  import opened Frames
  import opened Orphans
  import opened Sleeping
  import opened Families
  import opened Scheduling
  import opened Scenarios

  /** Short of a tick or a settime nothing happens to a sleeper or to the clock. */
  lemma {:induction false} SleepsOn(s: State, evs: seq<Event>, e: Entry)
    requires Inv(s) && Sorted(s.qs[SLEEP]) && e in s.qs[SLEEP] && Run(s, evs).Ok?
    requires NoSettime(evs) && Ticks(evs) == 0
    ensures var s' := Run(s, evs).s; Inv(s') && Sorted(s'.qs[SLEEP]) && s'.time == s.time && e in s'.qs[SLEEP]
    decreases |evs|
  {
    hide Step, Inv, Sorted;
    if evs != [] {
      SleeperStep(s, evs[0], e);
      StepSafe(s, evs[0]);
      StepSorted(s, evs[0]);
      assert forall i :: 0 <= i < |evs[1..]| ==> evs[1..][i] == evs[i + 1];
      SleepsOn(Step(s, evs[0]).s, evs[1..], e);
    }
  }

  /** A sleep that would end past the last value of the clock gets a key that is already behind it, so that the next
      tick ends it however long it was to be; unless that tick wraps the clock too, which then has the key ahead. */
  lemma SleepWraps(s: State, n: U32, evs: seq<Event>, word: U32)
    requires Inv(s) && Sorted(s.qs[SLEEP]) && UINT32 <= s.time + n
    requires Sleep(s, n).Ok? && NoSettime(evs) && Ticks(evs) == 0 && Run(Sleep(s, n).s, evs).Ok?
    requires Clock(Run(Sleep(s, n).s, evs).s, word).Ok?
    ensures var s' := Run(Sleep(s, n).s, evs).s;
            && Entry(s.time + n - UINT32, s.current) in s'.qs[SLEEP]
            && (s.current !in Data(Clock(s', word).s.qs[SLEEP]) <==> s.time + 1 < UINT32 || n == 1)
  {
    hide Run, Sleep, Clock, Inv, Data, Sorted, Position;
    var key := s.time + n - UINT32;
    var e, s1 := Entry(key, s.current), Sleep(s, n).s;
    FallsAsleep(s, n);
    SleepsOn(s1, evs, e);
    var s' := Run(s1, evs).s;
    TickSleeper(s', word, e);
    if key <= Wrap(s.time + 1) {
      LeavesOnTime(s', word, e);
    } else {
      IsData(Clock(s', word).s.qs[SLEEP], e);
    }
  }

  // ---- a run ----

  /** With everybody's parent there a tick always comes to an end. */
  lemma TickEnds(s: State, word: U32)
    requires Inv(s) && Parented(s.pcbs, s.current)
    ensures Clock(s, word).Ok?
  {
    hide Clock, Inv, Parented;
    ClockCalm(s, word);
    ClockFinds(s, word);
  }

  const SETTIME: Event := Syscall(15, UINT32 - 2, 0, 0)
  const SLEEP100: Event := Syscall(5, 100, 0, 0)

  lemma SettimeShape(s: State, procs: seq<Proc>, cur: Slot, ready: seq<Slot>)
    requires Shape(s, procs, cur, ready) && procs[cur].state != WAITING
    ensures var r := Step(s, SETTIME); r.Ok? && Shape(r.s, procs, cur, ready) && r.s.time == UINT32 - 2
  {
    hide Inv, Peopled, Step;
    TrapShape(s, 15, UINT32 - 2, procs, cur, ready);
    SettimeCall(s);
    StepSafe(s, SETTIME);
    ReturnPeople(Trap(s, 15, UINT32 - 2, 0), procs, s.time);
  }

  lemma SettimeCall(s: State)
    ensures var t := Trap(s, 15, UINT32 - 2, 0);
            Step(s, SETTIME) == Ok(Return(t, t.current, t.time).(time := UINT32 - 2))
  {
    hide Exit, Fork, Exec, Wait, Kill, Sleep, ReadC, WriteC, Return, Trap;
  }

  lemma ReturnPeople(s: State, procs: seq<Proc>, eax: int)
    requires Peopled(s.pcbs, procs) && s.current < |procs|
    ensures Peopled(Return(s, s.current, eax).pcbs, procs)
  {
  }

  /** Init, with a child ready, calls `sleep` two ticks before the clock wraps. */
  lemma SleepCall(s: State)
    requires Shape(s, [Proc(1, FREE), Proc(1, READY)], 0, [1]) && s.time == UINT32 - 2
    ensures var t := Trap(s, 5, 100, 0);
            && Inv(t) && t.qs[SLEEP] == [] && t.time == UINT32 - 2 && t.current == 0
            && Step(s, SLEEP100) == Sleep(t, 100) && Sleep(t, 100).Ok?
  {
    hide Inv, Dispatch;
    var procs := [Proc(1, FREE), Proc(1, READY)];
    TrapShape(s, 5, 100, procs, 0, [1]);
    var t := Trap(s, 5, 100, 0);
    NodesLeft(t);
    PeopledAt(t.pcbs, procs, 1);
    SleepEnds(t);
  }

  lemma SleepEnds(s: State)
    requires !Full(s.qs) && s.current == 0 && s.qs[0] == QueueOf([1]) && s.pcbs[1].state == READY
    ensures Sleep(s, 100).Ok?
  {
    hide Dispatch, Full;
    DispatchHead(Insert(Set(s, 0, Asleep(s)), SLEEP, Entry(Wrap(s.time + 100), 0)).value, [1]);
  }

  lemma ShortSleep(s: State)
    requires Shape(s, [Proc(1, FREE), Proc(1, READY)], 0, [1]) && s.time == UINT32 - 2
    requires Parented(s.pcbs, s.current)
    ensures var r := Step(s, SLEEP100);
            && r.Ok? && Entry(98, 0) in r.s.qs[SLEEP]
            && Step(r.s, TICK).Ok? && 0 !in Data(Step(r.s, TICK).s.qs[SLEEP])
  {
    hide Sleep, Clock, Inv, Data, Shape, Parented;
    ShapeInv(s);
    StepCalm(s, SLEEP100);
    SleepCall(s);
    var t := Trap(s, 5, 100, 0);
    var r := Sleep(t, 100).s;
    SleepSafe(t, 100);
    TickEnds(r, 0);
    SleepWraps(t, 100, [], 0);
  }

  lemma ShapeInv(s: State)
    requires Shape(s, [Proc(1, FREE), Proc(1, READY)], 0, [1])
    ensures Inv(s)
  {
    hide Inv;
  }

  lemma NoEvents(s: State)
    ensures Run(s, []) == Ok(s)
  {
  }

  /** In this run from boot init asks for a hundred ticks of sleep and gets one. */
  lemma HundredTicksInOne()
    ensures var r := Run(Boot(), [FORK] + [SETTIME] + [SLEEP100]);
            && r.Ok? && Entry(98, 0) in r.s.qs[SLEEP]
            && Step(r.s, TICK).Ok? && 0 !in Data(Step(r.s, TICK).s.qs[SLEEP])
  {
    hide Run, Boot, Step, Shape, Data, Inv, Parented;
    var b := Boot();
    BootSafe();
    BootParented();
    StepCalm(b, FORK);
    NoEvents(b);
    RunMore(b, [], FORK);
    RunMore(b, [FORK], SETTIME);
    RunMore(b, [FORK] + [SETTIME], SLEEP100);
    assert [] + [FORK] == [FORK];
    BootShape();
    ForkShape(b, [Proc(1, FREE)], 0, []);
    var s1 := Step(b, FORK).s;
    assert [Proc(1, FREE)] + [Proc(1, READY)] == [Proc(1, FREE), Proc(1, READY)] && [] + [1] == [1];
    SettimeShape(s1, [Proc(1, FREE), Proc(1, READY)], 0, [1]);
    ShapeInv(s1);
    StepCalm(s1, SETTIME);
    ShortSleep(Step(s1, SETTIME).s);
  }
}
