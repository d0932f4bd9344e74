/** Sleepers wake on time, and in order. */
module Sleeping {
  import opened Defs
  import opened QueueSpec
  import opened KernelSpec
  import opened Placement
  import opened Safety
  import opened Frames

  /** The entries a wake-up loop appends to the most urgent ready queue for these sleepers. */
  function Woken(c: seq<Entry>): (r: seq<Entry>) {
    seq(|c|, i requires 0 <= i < |c| => Entry(0, c[i].data))
  }

  /** One round, when the head of the queue is due. */
  lemma WakesHead(s: State)
    requires Sorted(s.qs[SLEEP]) && s.qs[SLEEP] != [] && s.qs[SLEEP][0].key <= s.time && WakeAll(s).Ok?
    ensures var p, r := s.qs[SLEEP][0].data, Schedule(Take(s, SLEEP, 0), s.qs[SLEEP][0].data, 0);
            && r.Ok? && WakeAll(s) == WakeAll(r.s)
            && r.s == s.(qs := s.qs[SLEEP := s.qs[SLEEP][1..]][0 := s.qs[0] + [Entry(0, p)]],
                         pcbs := s.pcbs[p := s.pcbs[p].(state := READY)])
  {
    DueIsHead(s.qs[SLEEP], s.time);
    assert RemoveAt(s.qs[SLEEP], 0) == s.qs[SLEEP][1..];
  }

  /** These processes have become READY, and nobody else's PCB has changed. */
  predicate Awakened(a: Pcbs, b: Pcbs, l: seq<Slot>) {
    forall p :: 0 <= p < N_PCBS ==> b[p] == if p in l then a[p].(state := READY) else a[p]
  }

  /** The wake-up loop takes exactly the sleepers whose time has come, in wake-up order with ties in arrival
      order, and appends them to the most urgent queue; it makes them READY, and changes nothing else. */
  lemma {:induction false} WakesTheDue(s: State)
    requires Sorted(s.qs[SLEEP]) && WakeAll(s).Ok?
    ensures var c, s' := s.qs[SLEEP], WakeAll(s).s;
            var d := Position(c, s.time, 0);
            && s'.qs[SLEEP] == c[d..] && s'.qs[0] == s.qs[0] + Woken(c[..d])
            && s' == s.(qs := s.qs[SLEEP := s'.qs[SLEEP]][0 := s'.qs[0]], pcbs := s'.pcbs)
            && Awakened(s.pcbs, s'.pcbs, Data(c[..d]))
    decreases |s.qs[SLEEP]|
  {
    hide Schedule, Take, WakeAll, Find, Position, Woken, Sorted, Awakened, Data;
    var c := s.qs[SLEEP];
    var d := Position(c, s.time, 0);
    if c != [] && c[0].key <= s.time {
      WakesHead(s);
      PositionHead(c, s.time);
      var s1 := Schedule(Take(s, SLEEP, 0), c[0].data, 0).s;
      WakesTheDue(s1);
      WokenHead(c, d);
      var x, w := [Entry(0, c[0].data)], Woken(c[1..][..d - 1]);
      assert (s.qs[0] + x) + w == s.qs[0] + (x + w);
      AwakenedHead(s.pcbs, s1.pcbs, WakeAll(s).s.pcbs, c, d);
    } else {
      NoneDue(s);
      NoneWoken(c, s.time);
      assert s.qs[0] + [] == s.qs[0];
      NoneAwakened(s.pcbs);
    }
  }

  lemma AwakenedHead(a: Pcbs, b: Pcbs, r: Pcbs, c: seq<Entry>, d: nat)
    requires 0 < d <= |c| && b == a[c[0].data := a[c[0].data].(state := READY)]
    requires Awakened(b, r, Data(c[1..][..d - 1]))
    ensures Awakened(a, r, Data(c[..d]))
  {
    assert Data(c[..d]) == [c[0].data] + Data(c[1..][..d - 1]);
  }

  lemma NoneAwakened(a: Pcbs)
    ensures Data([]) == [] && Awakened(a, a, [])
  {
  }

  lemma PositionHead(c: seq<Entry>, time: nat)
    requires Sorted(c) && c != [] && c[0].key <= time
    ensures Sorted(c[1..]) && Position(c, time, 0) == Position(c[1..], time, 0) + 1
  {
    PositionShift(c, time, 1);
  }

  lemma NoneWoken(c: seq<Entry>, time: nat)
    requires c == [] || time < c[0].key
    ensures Position(c, time, 0) == 0 && Woken(c[..0]) == [] && c[0..] == c && c[..0] == []
  {
  }

  lemma NoneDue(s: State)
    requires Sorted(s.qs[SLEEP]) && (s.qs[SLEEP] == [] || s.time < s.qs[SLEEP][0].key)
    ensures WakeAll(s) == Ok(s)
  {
    DueIsHead(s.qs[SLEEP], s.time);
  }

  lemma WokenHead(c: seq<Entry>, d: nat)
    requires 0 < d <= |c|
    ensures c[1..][d - 1..] == c[d..]
    ensures Woken(c[..d]) == [Entry(0, c[0].data)] + Woken(c[1..][..d - 1])
  {
  }

  lemma {:induction false} PositionShift(c: seq<Entry>, key: nat, i: nat)
    requires 0 < i <= |c|
    ensures Position(c, key, i) == Position(c[1..], key, i - 1) + 1
    decreases |c| - i
  {
    if i < |c| && c[i].key <= key {
      PositionShift(c, key, i + 1);
    }
  }

  /** A tick takes the due sleepers off the queue. */
  lemma TickSleepers(s: State, word: U32)
    requires Sorted(s.qs[SLEEP]) && Clock(s, word).Ok?
    ensures var c, s' := s.qs[SLEEP], Clock(s, word).s;
            s'.time == Wrap(s.time + 1) && s'.qs[SLEEP] == c[Position(c, s'.time, 0)..]
  {
    hide Clock, WakeAll;
    ClockFrame(s, word);
    WakesTheDue(Ticked(s, word));
  }

  lemma NodesLeft(s: State)
    requires Inv(s)
    ensures !Full(s.qs)
  {
    NeverFull(s.qs, s.pcbs, multiset{s.current});
  }

  /** A system call leaves the sleepers alone, but for `sleep`, which puts the caller among them. */
  lemma CallSleepers(s: State, code: int, arg1: U32, arg2: U32, infoPid: U32)
    requires Inv(s) && Step(s, Syscall(code, arg1, arg2, infoPid)).Ok?
    ensures var c, s' := s.qs[SLEEP], Step(s, Syscall(code, arg1, arg2, infoPid)).s;
            && (Decode(code) == CSleep ==>
                  var key := Wrap(s.time + arg1);
                  s'.qs[SLEEP] == InsertAt(c, Position(c, key, 0), Entry(key, s.current)))
            && (Decode(code) != CSleep ==> s'.qs[SLEEP] == c)
            && (Decode(code) != CSettime ==> s'.time == s.time)
  {
    hide Perform, Inv, InsertAt, Position, Sleep, Full;
    NodesLeft(s);
    var s0 := Trap(s, code, arg1, infoPid);
    PerformFrame(s0, Decode(code), arg1);
    if Decode(code) == CSleep {
      SleepQueues(s0, arg1);
    }
  }

  lemma SleepQueues(s: State, ticks: U32)
    requires !Full(s.qs)
    ensures Perform(s, CSleep, ticks) == Sleep(s, ticks)
    ensures var key, r := Wrap(s.time + ticks), Sleep(s, ticks);
            r.Ok? ==> r.s.qs[SLEEP] == InsertAt(s.qs[SLEEP], Position(s.qs[SLEEP], key, 0), Entry(key, s.current))
  {
    hide Block;
    BlockFrame(s, Asleep(s), SLEEP, Wrap(s.time + ticks), Ok(Return(Set(s, s.current, Asleep(s)), s.current, 0)));
  }

  /** The sleep queue stays in wake-up order, whatever happens. */
  lemma StepSorted(s: State, ev: Event)
    requires Inv(s) && Sorted(s.qs[SLEEP]) && Step(s, ev).Ok?
    ensures Sorted(Step(s, ev).s.qs[SLEEP])
  {
    hide Clock, Perform, Core;
    match ev
    case Tick(word) => TickSleepers(s, word);
    case Rx(_) =>
    case Tx =>
    case Syscall(code, arg1, arg2, infoPid) =>
      CallSleepers(s, code, arg1, arg2, infoPid);
      InsertIsStable(s.qs[SLEEP], Entry(Wrap(s.time + arg1), s.current), 0);
  }

  lemma {:induction false} RunSorted(s: State, evs: seq<Event>)
    requires Inv(s) && Sorted(s.qs[SLEEP]) && Run(s, evs).Ok?
    ensures Inv(Run(s, evs).s) && Sorted(Run(s, evs).s.qs[SLEEP])
    decreases |evs|
  {
    if evs != [] {
      StepSafe(s, evs[0]);
      StepSorted(s, evs[0]);
      RunSorted(Step(s, evs[0]).s, evs[1..]);
    }
  }

  /** After a tick of any run from boot, every remaining sleeper's wake-up time lies ahead. */
  lemma NobodyOversleeps(evs: seq<Event>, word: U32)
    requires Run(Boot(), evs).Ok? && Clock(Run(Boot(), evs).s, word).Ok?
    ensures var s := Clock(Run(Boot(), evs).s, word).s;
            forall i :: 0 <= i < |s.qs[SLEEP]| ==> s.time < s.qs[SLEEP][i].key
  {
    hide Run, Clock, Core;
    BootSafe();
    RunSorted(Boot(), evs);
    var s := Run(Boot(), evs).s;
    TickSleepers(s, word);
    AheadOfTime(s.qs[SLEEP], Clock(s, word).s.time);
  }

  lemma AheadOfTime(c: seq<Entry>, time: nat)
    requires Sorted(c)
    ensures forall i :: 0 <= i < |c| ==> (Position(c, time, 0) <= i <==> time < c[i].key)
  {
    var d := Position(c, time, 0);
    assert d < |c| ==> forall j :: d <= j < |c| ==> c[d].key <= c[j].key;
  }

  // ---- exact sleep ----

  predicate NoSettime(evs: seq<Event>) {
    forall i :: 0 <= i < |evs| ==> !IsSettime(evs[i])
  }

  predicate IsSettime(ev: Event) { ev.Syscall? && Decode(ev.code) == CSettime }

  function Ticks(evs: seq<Event>): nat {
    if evs == [] then 0 else (if evs[0].Tick? then 1 else 0) + Ticks(evs[1..])
  }

  /** One step: a sleeper leaves the queue on the tick that reaches its time, and on no other occasion. */
  lemma SleeperStep(s: State, ev: Event, e: Entry)
    requires Inv(s) && Sorted(s.qs[SLEEP]) && e in s.qs[SLEEP] && Step(s, ev).Ok?
    ensures var s' := Step(s, ev).s;
            && (!IsSettime(ev) ==> s'.time == if ev.Tick? then Wrap(s.time + 1) else s.time)
            && (e in s'.qs[SLEEP] <==> (ev.Tick? ==> s'.time < e.key))
  {
    hide Clock, Perform, Inv, Receive, Position, Sorted;
    match ev
    case Tick(word) => TickSleeper(s, word, e);
    case Rx(ch) => ReceiveSleepers(s, ch);
    case Tx =>
    case Syscall(code, arg1, arg2, infoPid) =>
      CallSleepers(s, code, arg1, arg2, infoPid);
      InsertKeeps(s.qs[SLEEP], Position(s.qs[SLEEP], Wrap(s.time + arg1), 0), Entry(Wrap(s.time + arg1), s.current), e);
  }

  lemma ReceiveSleepers(s: State, ch: Byte)
    ensures Receive(s, ch).Ok? ==> Receive(s, ch).s.qs[SLEEP] == s.qs[SLEEP] && Receive(s, ch).s.time == s.time
  {
  }

  lemma InsertKeeps(c: seq<Entry>, p: nat, x: Entry, e: Entry)
    requires p <= |c| && e in c
    ensures e in InsertAt(c, p, x)
  {
    var i :| 0 <= i < |c| && c[i] == e;
    assert InsertAt(c, p, x)[if i < p then i else i + 1] == e;
  }

  /** The tick that reaches its time takes a sleeper off the queue. */
  lemma TickSleeper(s: State, word: U32, e: Entry)
    requires Inv(s) && Sorted(s.qs[SLEEP]) && e in s.qs[SLEEP] && Clock(s, word).Ok?
    ensures var s' := Clock(s, word).s; s'.time == Wrap(s.time + 1) && (e in s'.qs[SLEEP] <==> s'.time < e.key)
  {
    hide Clock, Inv;
    var c, c' := s.qs[SLEEP], Clock(s, word).s.qs[SLEEP];
    var i :| 0 <= i < |c| && c[i] == e;
    TickSleepers(s, word);
    AheadOfTime(c, Wrap(s.time + 1));
    var d := Position(c, Wrap(s.time + 1), 0);
    assert d <= i ==> c'[i - d] == e;
  }

  lemma {:induction false} SleeperRun(s: State, evs: seq<Event>, e: Entry)
    requires Inv(s) && Sorted(s.qs[SLEEP]) && e in s.qs[SLEEP] && Run(s, evs).Ok?
    requires NoSettime(evs) && s.time + Ticks(evs) < e.key < UINT32
    ensures var s' := Run(s, evs).s;
            && Inv(s') && Sorted(s'.qs[SLEEP]) && s'.time == s.time + Ticks(evs) && e in s'.qs[SLEEP]
    decreases |evs|
  {
    if evs != [] {
      var s1 := Step(s, evs[0]).s;
      SleeperStep(s, evs[0], e);
      StepSafe(s, evs[0]);
      StepSorted(s, evs[0]);
      assert forall i :: 0 <= i < |evs[1..]| ==> evs[1..][i] == evs[i + 1];
      SleeperRun(s1, evs[1..], e);
    }
  }

  /** No tick of the run brings the clock, whoever has set it, to this time or past it. */
  predicate Early(s: State, evs: seq<Event>, key: nat)
    decreases |evs|
  {
    evs != [] && Step(s, evs[0]).Ok? ==>
      && (evs[0].Tick? ==> Step(s, evs[0]).s.time < key)
      && Early(Step(s, evs[0]).s, evs[1..], key)
  }

  lemma {:induction false} EarlyRun(s: State, evs: seq<Event>, e: Entry)
    requires Inv(s) && Sorted(s.qs[SLEEP]) && e in s.qs[SLEEP] && Run(s, evs).Ok? && Early(s, evs, e.key)
    ensures var s' := Run(s, evs).s; Inv(s') && Sorted(s'.qs[SLEEP]) && e in s'.qs[SLEEP]
    decreases |evs|
  {
    hide Step, Inv, Sorted;
    if evs != [] {
      SleeperStep(s, evs[0], e);
      StepSafe(s, evs[0]);
      StepSorted(s, evs[0]);
      EarlyRun(Step(s, evs[0]).s, evs[1..], e);
    }
  }

  /** The sleeper is on the queue under its wake-up time, whether that wraps or not. */
  lemma FallsAsleep(s: State, n: U32)
    requires Inv(s) && Sorted(s.qs[SLEEP]) && Sleep(s, n).Ok?
    ensures var r, e := Sleep(s, n).s, Entry(Wrap(s.time + n), s.current);
            Inv(r) && Sorted(r.qs[SLEEP]) && e in r.qs[SLEEP] && r.time == s.time
  {
    hide Sleep, Inv, Sorted, Position, InsertAt;
    var e := Entry(Wrap(s.time + n), s.current);
    NodesLeft(s);
    SleepSafe(s, n);
    SleepQueues(s, n);
    InsertIsStable(s.qs[SLEEP], e, 0);
    AtItsPlace(s.qs[SLEEP], Position(s.qs[SLEEP], e.key, 0), e);
    PerformFrame(s, CSleep, n);
  }

  lemma AtItsPlace(c: seq<Entry>, p: nat, e: Entry)
    requires p <= |c|
    ensures e in InsertAt(c, p, e)
  {
    assert InsertAt(c, p, e)[p] == e;
  }

  lemma IsData(c: seq<Entry>, e: Entry)
    requires e in c
    ensures e.data in Data(c)
  {
    var i :| 0 <= i < |c| && c[i] == e;
    assert Data(c)[i] == e.data;
  }

  /** Whatever else happens, settime and wrap-around included: a sleeper stays on the queue under its wake-up time until
      a tick brings the clock there, and that tick and no other takes it off. */
  lemma SleepsUntil(s: State, n: U32, evs: seq<Event>, word: U32)
    requires Inv(s) && Sorted(s.qs[SLEEP]) && Sleep(s, n).Ok? && Run(Sleep(s, n).s, evs).Ok?
    requires Early(Sleep(s, n).s, evs, Wrap(s.time + n)) && Clock(Run(Sleep(s, n).s, evs).s, word).Ok?
    ensures var s', key := Run(Sleep(s, n).s, evs).s, Wrap(s.time + n);
            && Entry(key, s.current) in s'.qs[SLEEP]
            && (s.current !in Data(Clock(s', word).s.qs[SLEEP]) <==> key <= Wrap(s'.time + 1))
  {
    hide Run, Sleep, Clock, Inv, Data, Sorted, Early;
    var e, s1 := Entry(Wrap(s.time + n), s.current), Sleep(s, n).s;
    FallsAsleep(s, n);
    EarlyRun(s1, evs, e);
    var s' := Run(s1, evs).s;
    TickSleeper(s', word, e);
    if e.key <= Wrap(s'.time + 1) {
      LeavesOnTime(s', word, e);
    } else {
      IsData(Clock(s', word).s.qs[SLEEP], e);
    }
  }

  /** A process that sleeps for `n` ticks at time `t`, in a run without settime and before the clock wraps, is
      on the sleep queue until tick `t + n`, and is off it on that tick. */
  lemma SleepsExactly(s: State, n: U32, evs: seq<Event>, word: U32)
    requires Inv(s) && Sorted(s.qs[SLEEP]) && 0 < n && s.time + n < UINT32
    requires Sleep(s, n).Ok? && NoSettime(evs) && Run(Sleep(s, n).s, evs).Ok?
    requires Ticks(evs) < n
    ensures var s' := Run(Sleep(s, n).s, evs).s;
            && s'.time == s.time + Ticks(evs)
            && Entry(s.time + n, s.current) in s'.qs[SLEEP]
            && (Ticks(evs) + 1 == n && Clock(s', word).Ok? ==>
                  Clock(s', word).s.time == s.time + n && s.current !in Data(Clock(s', word).s.qs[SLEEP]))
  {
    hide Run, Sleep, Clock, Inv, Sorted;
    var e, s1 := Entry(s.time + n, s.current), Sleep(s, n).s;
    FallsAsleep(s, n);
    SleeperRun(s1, evs, e);
    if Ticks(evs) + 1 == n && Clock(Run(s1, evs).s, word).Ok? {
      LeavesOnTime(Run(s1, evs).s, word, e);
    }
  }

  /** The tick that reaches a sleeper's time leaves no entry for it: a PCB is on the queue at most once. */
  lemma LeavesOnTime(s: State, word: U32, e: Entry)
    requires Inv(s) && Sorted(s.qs[SLEEP]) && e in s.qs[SLEEP] && Clock(s, word).Ok?
    requires e.key <= Wrap(s.time + 1)
    ensures Clock(s, word).s.time == Wrap(s.time + 1) && e.data !in Data(Clock(s, word).s.qs[SLEEP])
  {
    hide Clock, Core, Data;
    var s' := Clock(s, word).s;
    TickSleepers(s, word);
    var c := s.qs[SLEEP];
    var d := Position(c, Wrap(s.time + 1), 0);
    var i :| 0 <= i < |c| && c[i] == e;
    AheadOfTime(c, Wrap(s.time + 1));
    if e.data in Data(s'.qs[SLEEP]) {
      var j := IndexOfData(c[d..], e.data);
      TwiceQueued(s, SLEEP, i, d + j);
    }
  }

  lemma IndexOfData(c: seq<Entry>, p: Slot) returns (j: nat)
    requires p in Data(c)
    ensures j < |c| && c[j].data == p
  {
    j :| 0 <= j < |c| && Data(c)[j] == p;
  }

  lemma TwiceQueued(s: State, q: nat, i: nat, j: nat)
    requires Inv(s) && q < PCBS && i < j < |s.qs[q]|
    ensures s.qs[q][i].data != s.qs[q][j].data
  {
    var p, t := s.qs[q][i].data, s.qs[q := RemoveAt(s.qs[q], i)];
    TakeOff(s.qs, s.pcbs, multiset{s.current}, q, i);
    assert t[q][j - 1] == s.qs[q][j];
    HeldApart(t, multiset{s.current} + multiset{p}, p);
  }
}
