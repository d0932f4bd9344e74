/** When the serial buffers overrun, told by the history of a run. */
module Overruns {
  import opened Defs
  import opened QueueSpec
  import opened KernelSpec
  import opened Placement
  import opened Safety
  import opened Scenarios
  import opened Serial

  /** The characters put into the input buffer since it was last empty, having started at `n`. */
  function InSince(s: State, evs: seq<Event>, n: nat): nat
    decreases |evs|
  {
    if evs == [] || Step(s, evs[0]).Halt? then n
    else
      var s' := Step(s, evs[0]).s;
      InSince(s', evs[1..],
              if s'.inp.pending == [] then 0 else if |s.inp.pending| < |s'.inp.pending| then n + 1 else n)
  }

  /** The bytes put into the output buffer since the transmitter was last idle. */
  function OutSince(s: State, evs: seq<Event>, n: nat): nat
    decreases |evs|
  {
    if evs == [] || Step(s, evs[0]).Halt? then n
    else
      var s' := Step(s, evs[0]).s;
      OutSince(s', evs[1..], if s'.out.sending then n + Queued(s.out, s'.out) else 0)
  }

  lemma {:induction false} RunCounts(s: State, evs: seq<Event>)
    requires LineOk(s) && Run(s, evs).Ok?
    ensures var s' := Run(s, evs).s;
            LineOk(s') && s'.inp.last == InSince(s, evs, s.inp.last) && s'.out.last == OutSince(s, evs, s.out.last)
    decreases |evs|
  {
    hide Step, LineOk;
    if evs != [] {
      StepLine(s, evs[0]);
      LastCounts(s, evs[0]);
      OutLastCounts(s, evs[0]);
      RunCounts(Step(s, evs[0]).s, evs[1..]);
    }
  }

  /** A character makes a run overrun the input buffer exactly when nobody is waiting for it, the buffer is not full
      and BUF_SIZE characters have gone in since it was last empty. */
  lemma InputOverruns(evs: seq<Event>, ch: Byte)
    requires Run(Boot(), evs).Ok?
    ensures var s := Run(Boot(), evs).s;
            Run(Boot(), evs + [Rx(ch)]) == Halt(InputOverrun)
            <==> s.qs[READING] == [] && |s.inp.pending| < BUF_SIZE == InSince(Boot(), evs, 0)
  {
    hide Run, Inv, Receive, LineOk;
    RunMore(Boot(), evs, Rx(ch));
    BootLine();
    RunCounts(Boot(), evs);
    BootSafe();
    RunSafe(Boot(), evs);
    ReceiveOverrun(Run(Boot(), evs).s, ch);
  }

  lemma BootLine()
    ensures LineOk(Boot()) && Boot().inp.last == 0 && Boot().out.last == 0
  {
  }

  const WRITEC: int := 8

  /** A `writec` makes a run overrun the output buffer exactly when the transmitter is busy and what it would queue
      brings the bytes queued since it was last idle above BUF_SIZE. */
  lemma OutputOverruns(evs: seq<Event>, ch: U32)
    requires Run(Boot(), evs).Ok?
    ensures var s := Run(Boot(), evs).s;
            Run(Boot(), evs + [Syscall(WRITEC, ch, 0, 0)]) == Halt(OutputOverrun)
            <==> s.out.sending && BUF_SIZE < OutSince(Boot(), evs, 0) + |Expand(ch)|
  {
    hide Run, WriteC, LineOk, Expand;
    RunMore(Boot(), evs, Syscall(WRITEC, ch, 0, 0));
    BootLine();
    RunCounts(Boot(), evs);
    var s := Trap(Run(Boot(), evs).s, WRITEC, ch, 0);
    TrapLine(Run(Boot(), evs).s, WRITEC, ch);
    WriteLine(s, ch);
  }

  lemma TrapLine(s: State, code: int, arg1: U32)
    requires LineOk(s)
    ensures LineOk(Trap(s, code, arg1, 0))
  {
  }

  // ---- runs that overrun ----

  const PUT: Event := Syscall(WRITEC, 65, 0, 0)
  const KEY: Event := Rx(65)
  const READ: Event := Syscall(6, 0, 0, 0)

  lemma PutStep(s: State)
    ensures var r := Step(s, PUT);
            if s.out.sending && BUF_SIZE <= s.out.last then r == Halt(OutputOverrun)
            else r.Ok? && r.s.out.sending && r.s.out.last == s.out.last + if s.out.sending then 1 else 0
  {
    var t := Trap(s, WRITEC, 65, 0);
    CharCalls(t, 65);
    assert 65 % 256 == 65;
  }

  lemma {:induction false} Puts(s: State, n: nat)
    requires s.out == OutBuf([], 0, false) && n <= BUF_SIZE + 1
    ensures var r := Run(s, Times(PUT, n));
            r.Ok? && (r.s.out.sending <==> n > 0) && r.s.out.last == if n > 0 then n - 1 else 0
  {
    hide Step;
    if n > 0 {
      Puts(s, n - 1);
      RunMore(s, Times(PUT, n - 1), PUT);
      PutStep(Run(s, Times(PUT, n - 1)).s);
    }
  }

  /** Init writes BUF_SIZE + 2 characters before the transmitter is done with the first. */
  lemma TooMuchWritten()
    ensures Run(Boot(), Times(PUT, BUF_SIZE + 1) + [PUT]) == Halt(OutputOverrun)
  {
    hide Run, Step, Times;
    Puts(Boot(), BUF_SIZE + 1);
    RunMore(Boot(), Times(PUT, BUF_SIZE + 1), PUT);
    PutStep(Run(Boot(), Times(PUT, BUF_SIZE + 1)).s);
  }

  lemma KeyStep(s: State)
    requires s.qs[READING] == [] && |s.inp.pending| < BUF_SIZE
    ensures var r := Step(s, KEY);
            if s.inp.last == BUF_SIZE then r == Halt(InputOverrun)
            else r.Ok? && r.s.qs == s.qs && r.s.inp == InBuf(s.inp.pending + [65], s.inp.last + 1)
  {
  }

  lemma {:induction false} Keys(s: State, n: nat)
    requires s.qs[READING] == [] && s.inp == InBuf([], 0) && n <= BUF_SIZE
    ensures var r := Run(s, Times(KEY, n));
            r.Ok? && r.s.qs[READING] == [] && |r.s.inp.pending| == n == r.s.inp.last
  {
    hide Step;
    if n > 0 {
      Keys(s, n - 1);
      RunMore(s, Times(KEY, n - 1), KEY);
      KeyStep(Run(s, Times(KEY, n - 1)).s);
    }
  }

  lemma ReadStep(s: State)
    requires |s.inp.pending| > 1
    ensures var r := Step(s, READ);
            r.Ok? && r.s.qs == s.qs && r.s.inp == InBuf(s.inp.pending[1..], s.inp.last)
  {
    var t := Trap(s, 6, 0, 0);
    CharCalls(t, 0);
  }

  /** BUF_SIZE characters come, init reads one of them, and one more comes. */
  lemma TooMuchReceived()
    ensures Run(Boot(), Times(KEY, BUF_SIZE) + [READ] + [KEY]) == Halt(InputOverrun)
  {
    hide Run, Step, Times;
    var e := Times(KEY, BUF_SIZE);
    Keys(Boot(), BUF_SIZE);
    RunMore(Boot(), e, READ);
    RunMore(Boot(), e + [READ], KEY);
    ReadStep(Run(Boot(), e).s);
    KeyStep(Run(Boot(), e + [READ]).s);
  }
}
