/** The serial line: nothing is lost, duplicated or reordered on its way through the two buffers. */
module Serial {
  import opened Defs
  import opened QueueSpec
  import opened KernelSpec
  import opened Placement
  import opened Safety
  import opened Frames

  /** A reader waits only while the input buffer is empty; both buffers stay within their arrays. */
  predicate LineOk(s: State) {
    && (s.qs[READING] != [] ==> s.inp.pending == [])
    && |s.inp.pending| <= s.inp.last <= BUF_SIZE && (s.inp.pending == [] ==> s.inp.last == 0)
    && |s.out.pending| <= s.out.last <= BUF_SIZE && (!s.out.sending ==> s.out.pending == [] && s.out.last == 0)
  }

  function Mapped(raw: Byte): Byte {
    if raw == CR then LF else raw
  }

  /** The characters a step takes from the line, CR mapped to LF: all but one that finds the buffer full. */
  function Accepted(s: State, ev: Event): seq<int> {
    if ev.Rx? && (s.qs[READING] != [] || |s.inp.pending| < BUF_SIZE) then [Mapped(ev.ch)] else []
  }

  /** The characters a step hands to a process, as found in its saved EAX afterwards. */
  function Delivered(s: State, ev: Event, s': State): seq<int> {
    if ev.Rx? && s.qs[READING] != [] then [s'.pcbs[s.qs[READING][0].data].user.eax]
    else if ev.Syscall? && Decode(ev.code) == CReadc && s.inp.pending != [] then [s'.pcbs[s.current].user.eax]
    else []
  }

  /** What `writec` sends for this argument: LF becomes CR LF. */
  function Expand(ch: U32): seq<Byte> {
    if ch == LF then [CR, LF] else [ch % 256]
  }

  function Written(ev: Event): seq<Byte> {
    if ev.Syscall? && Decode(ev.code) == CWritec then Expand(ev.arg1) else []
  }

  // ---- single steps ----

  lemma ReceiveLine(s: State, ch: Byte)
    requires LineOk(s) && Receive(s, ch).Ok?
    ensures var s' := Receive(s, ch).s;
            && LineOk(s') && s'.out == s.out && s'.wire == s.wire
            && s.inp.pending + Accepted(s, Rx(ch)) == Delivered(s, Rx(ch), s') + s'.inp.pending
  {
  }

  lemma ReadLine(s: State)
    requires LineOk(s) && ReadC(s).Ok?
    ensures var s' := ReadC(s).s;
            && LineOk(s')
            && s.inp.pending == (if s.inp.pending != [] then [s'.pcbs[s.current].user.eax] else []) + s'.inp.pending
  {
    hide Block;
    if s.inp.pending == [] {
      var me := s.pcbs[s.current];
      BlockFrame(s, me.(status := STATUS_BLOCKED), READING, me.pid, Halt(ReadInsert));
    }
  }

  lemma WriteLine(s: State, ch: U32)
    requires LineOk(s)
    ensures match WriteC(s, ch)
            case Ok(s') =>
              && LineOk(s') && s'.inp == s.inp && s'.qs == s.qs
              && s'.wire + s'.out.pending == s.wire + s.out.pending + Expand(ch)
            case Halt(w) => w == OutputOverrun
    ensures WriteC(s, ch).Halt? <==> s.out.sending && BUF_SIZE < s.out.last + |Expand(ch)|
  {
  }

  /** One step: what was in the buffers, plus what came in, is what went out plus what is in them now. */
  lemma StepLine(s: State, ev: Event)
    requires LineOk(s) && Step(s, ev).Ok?
    ensures var s' := Step(s, ev).s;
            && LineOk(s')
            && s.inp.pending + Accepted(s, ev) == Delivered(s, ev, s') + s'.inp.pending
            && s'.wire + s'.out.pending == s.wire + s.out.pending + Written(ev)
  {
    hide Clock, Receive, Perform, ReadC, WriteC;
    match ev
    case Tick(word) => ClockFrame(s, word);
    case Rx(ch) => ReceiveLine(s, ch);
    case Tx =>
    case Syscall(code, arg1, _, infoPid) =>
      var s0, call := Trap(s, code, arg1, infoPid), Decode(code);
      PerformFrame(s0, call, arg1);
      if call == CReadc || call == CWritec {
        CharCalls(s0, arg1);
        ReadOrWrite(s0, call, arg1);
      }
  }

  lemma CharCalls(s: State, arg1: U32)
    ensures Perform(s, CReadc, arg1) == ReadC(s) && Perform(s, CWritec, arg1) == WriteC(s, arg1)
  {
  }

  lemma ReadOrWrite(s: State, call: Call, arg1: U32)
    requires LineOk(s) && (call == CReadc || call == CWritec)
    requires (call == CReadc ==> ReadC(s).Ok?) && (call == CWritec ==> WriteC(s, arg1).Ok?)
    ensures call == CReadc ==>
              LineOk(ReadC(s).s)
              && s.inp.pending == (if s.inp.pending != [] then [ReadC(s).s.pcbs[s.current].user.eax] else [])
                                  + ReadC(s).s.inp.pending
    ensures call == CWritec ==>
              var s' := WriteC(s, arg1).s;
              && LineOk(s') && s'.inp == s.inp
              && s'.wire + s'.out.pending == s.wire + s.out.pending + Expand(arg1)
  {
    hide ReadC, WriteC;
    if call == CReadc {
      ReadLine(s);
    } else {
      WriteLine(s, arg1);
    }
  }

  // ---- runs ----

  function AllAccepted(s: State, evs: seq<Event>): seq<int>
    decreases |evs|
  {
    if evs == [] || Step(s, evs[0]).Halt? then []
    else Accepted(s, evs[0]) + AllAccepted(Step(s, evs[0]).s, evs[1..])
  }

  function AllDelivered(s: State, evs: seq<Event>): seq<int>
    decreases |evs|
  {
    if evs == [] || Step(s, evs[0]).Halt? then []
    else Delivered(s, evs[0], Step(s, evs[0]).s) + AllDelivered(Step(s, evs[0]).s, evs[1..])
  }

  function Text(evs: seq<Event>): seq<Byte> {
    if evs == [] then [] else Written(evs[0]) + Text(evs[1..])
  }

  lemma Unroll(s: State, evs: seq<Event>)
    requires evs != [] && Run(s, evs).Ok?
    ensures Step(s, evs[0]).Ok?
    ensures var s1 := Step(s, evs[0]).s;
            && Run(s1, evs[1..]) == Run(s, evs)
            && AllAccepted(s, evs) == Accepted(s, evs[0]) + AllAccepted(s1, evs[1..])
            && AllDelivered(s, evs) == Delivered(s, evs[0], s1) + AllDelivered(s1, evs[1..])
            && Text(evs) == Written(evs[0]) + Text(evs[1..])
  {
    hide Step, Accepted, Delivered, Written;
  }

  lemma {:induction false} RunLine(s: State, evs: seq<Event>)
    requires LineOk(s) && Run(s, evs).Ok?
    ensures var s' := Run(s, evs).s;
            && LineOk(s')
            && s.inp.pending + AllAccepted(s, evs) == AllDelivered(s, evs) + s'.inp.pending
            && s'.wire + s'.out.pending == s.wire + s.out.pending + Text(evs)
    decreases |evs|
  {
    hide Step, LineOk, Accepted, Delivered, Written;
    if evs != [] {
      Unroll(s, evs);
      var ev, rest := evs[0], evs[1..];
      var s1, s' := Step(s, ev).s, Run(s, evs).s;
      StepLine(s, ev);
      RunLine(s1, rest);
      Chain(s.inp.pending, Accepted(s, ev), Delivered(s, ev, s1), s1.inp.pending,
            AllAccepted(s1, rest), AllDelivered(s1, rest), s'.inp.pending);
      assert s.wire + s.out.pending + (Written(ev) + Text(rest)) == (s.wire + s.out.pending + Written(ev)) + Text(rest);
    }
  }

  lemma Chain(p: seq<int>, a: seq<int>, d: seq<int>, p1: seq<int>, a1: seq<int>, d1: seq<int>, p2: seq<int>)
    requires p + a == d + p1 && p1 + a1 == d1 + p2
    ensures p + (a + a1) == (d + d1) + p2
  {
    assert p + (a + a1) == (p + a) + a1;
    assert d + (p1 + a1) == (d + p1) + a1;
  }

  /** Any run from boot: the characters delivered, followed by those still buffered, are those accepted; and
      the bytes on the wire, followed by those still buffered, are the text written with each LF as CR LF. */
  lemma NothingLost(evs: seq<Event>)
    requires Run(Boot(), evs).Ok?
    ensures var s := Run(Boot(), evs).s;
            && AllDelivered(Boot(), evs) + s.inp.pending == AllAccepted(Boot(), evs)
            && s.wire + s.out.pending == Text(evs)
            && (s.qs[READING] != [] ==> s.inp.pending == [])
  {
    hide Run;
    RunLine(Boot(), evs);
  }

  /** The receive interrupt runs past its buffer exactly when nobody reads, the buffer has room by its count,
      and BUF_SIZE characters have gone in since it was last empty. */
  lemma ReceiveOverrun(s: State, ch: Byte)
    requires LineOk(s) && Inv(s)
    ensures Receive(s, ch) == Halt(InputOverrun) <==> s.qs[READING] == [] && |s.inp.pending| < BUF_SIZE == s.inp.last
    ensures Receive(s, ch).Halt? ==> Receive(s, ch).why == InputOverrun
  {
    ReceiveSafe(s, ch);
    hide Inv;
  }

  /** `last` counts the characters stored since the buffer was last empty. */
  lemma LastCounts(s: State, ev: Event)
    requires LineOk(s) && Step(s, ev).Ok?
    ensures var i, i' := s.inp, Step(s, ev).s.inp;
            i'.last == if i'.pending == [] then 0 else if |i'.pending| > |i.pending| then i.last + 1 else i.last
  {
    hide Clock, Perform;
    match ev
    case Tick(word) => ClockFrame(s, word);
    case Rx(ch) =>
    case Tx =>
    case Syscall(code, arg1, _, infoPid) =>
      var s0, call := Trap(s, code, arg1, infoPid), Decode(code);
      PerformFrame(s0, call, arg1);
      if call == CReadc {
        CharCalls(s0, arg1);
        ReadLast(s0);
      }
  }

  lemma ReadLast(s: State)
    requires LineOk(s) && ReadC(s).Ok?
    ensures var i, i' := s.inp, ReadC(s).s.inp;
            |i'.pending| <= |i.pending| && i'.last == if i'.pending == [] then 0 else i.last
  {
    hide Block;
    if s.inp.pending == [] {
      var me := s.pcbs[s.current];
      BlockFrame(s, me.(status := STATUS_BLOCKED), READING, me.pid, Halt(ReadInsert));
    }
  }

  /** Of the output buffer, `last` counts the bytes queued since the transmitter was last idle. */
  lemma OutLastCounts(s: State, ev: Event)
    requires LineOk(s) && Step(s, ev).Ok?
    ensures var o, o' := s.out, Step(s, ev).s.out;
            o'.last == if !o'.sending then 0 else o.last + Queued(o, o')
  {
    hide Clock, Perform, Receive, WriteC;
    match ev
    case Tick(word) => ClockFrame(s, word);
    case Rx(ch) => ReceiveLine(s, ch);
    case Tx =>
    case Syscall(code, arg1, _, infoPid) =>
      var s0, call := Trap(s, code, arg1, infoPid), Decode(code);
      PerformFrame(s0, call, arg1);
      if call == CWritec {
        CharCalls(s0, arg1);
        WriteLast(s0, arg1);
      }
  }

  /** How many bytes more are waiting. */
  function Queued(o: OutBuf, o': OutBuf): nat {
    if |o.pending| <= |o'.pending| then |o'.pending| - |o.pending| else 0
  }

  lemma WriteLast(s: State, ch: U32)
    requires LineOk(s) && WriteC(s, ch).Ok?
    ensures var o, o' := s.out, WriteC(s, ch).s.out; o'.sending && o'.last == o.last + Queued(o, o')
  {
  }
}
