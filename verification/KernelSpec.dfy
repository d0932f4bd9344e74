/** The kernel as a transition system.  Interrupt gates make every handler atomic, so a step is one
    clock tick, one UART event or one system call of the current process. */
module KernelSpec {
  import opened Defs
  import opened QueueSpec

  const PID_INIT: U32 := 1
  const BUF_SIZE: nat := 2048
  const STATUS_BLOCKED: int := 5
  const E_BAD_PARAM: int := -1
  const E_NOT_FOUND: int := -4
  const E_UNIMPLEMENTED: int := -5

  datatype PState = FREE | NEW | READY | RUNNING | SLEEPING | BLOCKED | WAITING | KILLED | ZOMBIE

  /** The words of a process's own memory that the kernel touches: the saved EAX, the first argument
      of its last trap, and the `info_t` that argument points at. */
  datatype User = User(eax: int, arg: U32, infoPid: U32, infoStatus: int)

  datatype Pcb = Pcb(stack: Option<Slot>, pid: U32, ppid: U32, status: int, sleeptime: U32, state: PState,
                     prio: Byte, user: User)

  /** What `_memclr` leaves. */
  const ZeroPcb: Pcb := Pcb(None, 0, 0, 0, 0, FREE, 0, User(0, 0, 0, 0))

  /** The serial input buffer: the characters waiting, and the offset of `_inlast`. */
  datatype InBuf = InBuf(pending: seq<Byte>, last: nat)

  /** The serial output buffer: the characters waiting, the offset of `_outlast`, and `_sending`. */
  datatype OutBuf = OutBuf(pending: seq<Byte>, last: nat, sending: bool)

  type Pcbs = t: seq<Pcb> | |t| == N_PCBS witness seq(N_PCBS, _ => ZeroPcb)

  datatype State = State(qs: Table, pcbs: Pcbs, current: Slot, nextPid: U32, time: U32,
                         inp: InBuf, out: OutBuf, wire: seq<Byte>)

  /** Where the kernel stops: a `_kpanic`, or a store past the end of a serial buffer. */
  datatype Stop =
    | NoParent | WaitRemove | StackFree | PcbFree | ZombieInsert
    | ScheduleAppend | AllQueuesEmpty | NonReady
    | ZombieNotOnQueue | WaitInsert | ReadInsert | ForkFreePcb
    | InputOverrun | OutputOverrun

  datatype Res = Ok(s: State) | Halt(why: Stop) {
    predicate IsFailure() { Halt? }
    function PropagateFailure(): Res requires Halt? { this }
    function Extract(): State requires Ok? { s }
  }

  // ---- table and queue access ----

  function Set(s: State, p: Slot, pcb: Pcb): State {
    s.(pcbs := s.pcbs[p := pcb])
  }

  function SetState(s: State, p: Slot, st: PState): State {
    Set(s, p, s.pcbs[p].(state := st))
  }

  function Return(s: State, p: Slot, eax: int): State {
    Set(s, p, s.pcbs[p].(user := s.pcbs[p].user.(eax := eax)))
  }

  /** `_q_append`; None is E_NO_QNODES. */
  function Append(s: State, q: nat, e: Entry): Option<State>
    requires q < N_QUEUES
  {
    if Full(s.qs) then None else Some(s.(qs := s.qs[q := s.qs[q] + [e]]))
  }

  /** `_q_insert`; None is E_NO_QNODES. */
  function Insert(s: State, q: nat, e: Entry): Option<State>
    requires q < N_QUEUES
  {
    if Full(s.qs) then None
    else Some(s.(qs := s.qs[q := InsertAt(s.qs[q], InsertIndex(s.qs[q], DisciplineOf(q), e.key), e)]))
  }

  /** Taking the entry at index `i` off queue `q`. */
  function Take(s: State, q: nat, i: nat): State
    requires q < N_QUEUES && i < |s.qs[q]|
  {
    s.(qs := s.qs[q := RemoveAt(s.qs[q], i)])
  }

  /** `_pcb_find`: the first table slot at or after `i` in use under this PID, or N_PCBS. */
  function PcbFind(pcbs: Pcbs, pid: U32, i: nat): (p: nat)
    requires i <= N_PCBS
    ensures i <= p <= N_PCBS
    ensures p < N_PCBS ==> pcbs[p].state != FREE && pcbs[p].pid == pid
    ensures forall j :: i <= j < p ==> pcbs[j].state == FREE || pcbs[j].pid != pid
    decreases N_PCBS - i
  {
    if i < N_PCBS && (pcbs[i].state == FREE || pcbs[i].pid != pid) then PcbFind(pcbs, pid, i + 1) else i
  }

  // ---- scheduler ----

  function ReadyQueue(prio: Byte): nat {
    if prio < N_PRIORITIES then prio else N_PRIORITIES - 1
  }

  function Schedule(s: State, p: Slot, prio: Byte): Res {
    match Append(SetState(s, p, READY), ReadyQueue(prio), Entry(0, p))
    case None => Halt(ScheduleAppend)
    case Some(s') => Ok(s')
  }

  /** `_stack_free` and then `_pcb_free`, as `_zombify` and `_sys_wait` call them. */
  function Release(s: State, p: Slot): Res {
    match s.pcbs[p].stack
    case None => Halt(StackFree)
    case Some(k) =>
      match Append(s, STACKS, Entry(0, k))
      case None => Halt(StackFree)
      case Some(s1) =>
        match Append(Set(s1, p, ZeroPcb), PCBS, Entry(0, p))
        case None => Halt(PcbFree)
        case Some(s2) => Ok(s2)
  }

  /** Is this process blocked in `wait` for any child, or for the process with this PID? */
  predicate Wants(pcb: Pcb, pid: U32) {
    pcb.state == WAITING && (pcb.user.infoPid == 0 || pcb.user.infoPid == pid)
  }

  /** The waiting parent gets the PID and status of the current process, `p` is released, and the parent
      gets a quick dispatch. */
  function Deliver(s: State, p: Slot, parent: Slot): Res {
    var me := s.pcbs[s.current];
    var i := KeyIndex(s.qs[WAITERS], DisciplineOf(WAITERS), s.pcbs[parent].pid);
    if i == |s.qs[WAITERS]| then Halt(WaitRemove)
    else
      var woken := s.qs[WAITERS][i].data;
      var s1 := Take(s, WAITERS, i);
      var s2 := Set(s1, parent,
          s1.pcbs[parent].(user := s1.pcbs[parent].user.(infoPid := me.pid, infoStatus := me.user.arg)));
      var s3 :- Release(s2, p);
      Schedule(s3, woken, 0)
  }

  function MakeZombie(s: State): Res {
    match Insert(SetState(s, s.current, ZOMBIE), ZOMBIES, Entry(s.pcbs[s.current].pid, s.current))
    case None => Halt(ZombieInsert)
    case Some(s') => Ok(s')
  }

  function Zombify(s: State, p: Slot): Res {
    var parent := PcbFind(s.pcbs, s.pcbs[p].ppid, 0);
    if parent == N_PCBS then Halt(NoParent)
    else if Wants(s.pcbs[parent], s.pcbs[s.current].pid) then Deliver(s, p, parent)
    else MakeZombie(s)
  }

  /** The most urgent non-empty ready queue at or after `i`, or N_PRIORITIES. */
  function FirstReady(qs: Table, i: nat): (r: nat)
    requires i <= N_PRIORITIES
    ensures i <= r <= N_PRIORITIES
    ensures forall j :: i <= j < r ==> qs[j] == []
    ensures r < N_PRIORITIES ==> qs[r] != []
    decreases N_PRIORITIES - i
  {
    if i < N_PRIORITIES && qs[i] == [] then FirstReady(qs, i + 1) else i
  }

  /** The slots marked KILLED: what the dispatch loop runs down. */
  ghost function Killed(pcbs: Pcbs): set<int> {
    set p: int | 0 <= p < N_PCBS && pcbs[p].state == KILLED
  }

  lemma ZombifyClearsKill(s: State)
    requires s.pcbs[s.current].state == KILLED && Zombify(s, s.current).Ok?
    ensures Killed(Zombify(s, s.current).s.pcbs) < Killed(s.pcbs)
  {
    assert s.current as int in Killed(s.pcbs);
  }

  function Dispatch(s: State): Res
    decreases Killed(s.pcbs)
  {
    var i := FirstReady(s.qs, 0);
    if i == N_PRIORITIES then Halt(AllQueuesEmpty)
    else
      var c := s.qs[i][0].data;
      var s1 := s.(qs := s.qs[i := s.qs[i][1..]], current := c);
      match s.pcbs[c].state
      case READY => Ok(SetState(s1, c, RUNNING))
      case KILLED =>
        (match Zombify(s1, c)
         case Halt(w) => Halt(w)
         case Ok(s2) => ZombifyClearsKill(s1); Dispatch(s2))
      case _ => Halt(NonReady)
  }

  // ---- clock interrupt ----

  /** The wake-up loop of `_isr_clock`. */
  function WakeAll(s: State): Res
    decreases |s.qs[SLEEP]|
  {
    var i := KeyIndex(s.qs[SLEEP], DisciplineOf(SLEEP), s.time);
    if i == |s.qs[SLEEP]| then Ok(s)
    else
      match Schedule(Take(s, SLEEP, i), s.qs[SLEEP][i].data, 0)
      case Halt(w) => Halt(w)
      case Ok(s') => WakeAll(s')
  }

  /** There is no quantum: every tick sends the current process to the back of its queue. */
  function Preempt(s: State): Res {
    var s1 :- Schedule(s, s.current, s.pcbs[s.current].prio);
    Dispatch(s1)
  }

  /** The state in which the wake-up loop starts.  `word` is what the interrupted process has on its
      stack where a trap's first argument would be. */
  function Ticked(s: State, word: U32): State {
    var me := s.pcbs[s.current];
    Set(s, s.current, me.(user := me.user.(arg := word))).(time := Wrap(s.time + 1))
  }

  function Clock(s: State, word: U32): Res {
    var s1 :- WakeAll(Ticked(s, word));
    Preempt(s1)
  }

  // ---- serial device ----

  const CR: Byte := 13
  const LF: Byte := 10

  /** An RX interrupt with this character in the receiver. */
  function Receive(s: State, raw: Byte): Res {
    var ch := if raw == CR then LF else raw;
    if s.qs[READING] != [] then
      var p := s.qs[READING][0].data;
      var s1 := Return(s.(qs := s.qs[READING := s.qs[READING][1..]]), p, ch);
      Schedule(s1, p, s1.pcbs[p].prio)
    else if BUF_SIZE <= |s.inp.pending| then Ok(s)
    else if s.inp.last == BUF_SIZE then Halt(InputOverrun)
    else Ok(s.(inp := InBuf(s.inp.pending + [ch], s.inp.last + 1)))
  }

  /** A TX interrupt. */
  function Transmit(s: State): State {
    if s.out.sending && s.out.pending != [] then
      s.(wire := s.wire + [s.out.pending[0]], out := s.out.(pending := s.out.pending[1..]))
    else
      s.(out := OutBuf([], 0, false))
  }

  /** `_sio_readc`, when a character is there. */
  function ReadChar(b: InBuf): InBuf
    requires b.pending != []
  {
    InBuf(b.pending[1..], if |b.pending| == 1 then 0 else b.last)
  }

  /** `_sio_writec` without its LF mapping. */
  function WriteByte(s: State, b: Byte): Res {
    if !s.out.sending then Ok(s.(out := s.out.(sending := true), wire := s.wire + [b]))
    else if BUF_SIZE <= s.out.last then Halt(OutputOverrun)
    else Ok(s.(out := OutBuf(s.out.pending + [b], s.out.last + 1, true)))
  }

  function WriteChar(s: State, ch: U32): Res {
    if ch == LF then
      var s1 :- WriteByte(s, CR);
      WriteByte(s1, LF)
    else WriteByte(s, ch % 256)
  }

  // ---- system calls ----

  /** The current process, rewritten to `pcb`, goes onto an ordered queue and gives up the CPU;
      `failed` is what happens when no queue node is left. */
  function Block(s: State, pcb: Pcb, q: nat, key: U32, failed: Res): Res
    requires q < N_QUEUES
  {
    match Insert(Set(s, s.current, pcb), q, Entry(key, s.current))
    case None => failed
    case Some(s') => Dispatch(s')
  }

  function Asleep(s: State): Pcb {
    s.pcbs[s.current].(sleeptime := s.time, state := SLEEPING)
  }

  function Sleep(s: State, ticks: U32): Res {
    Block(s, Asleep(s), SLEEP, Wrap(s.time + ticks), Ok(Return(Set(s, s.current, Asleep(s)), s.current, 0)))
  }

  /** The process that `_sys_fork` builds in the slot it has allocated. */
  function Child(parent: Pcb, stack: Slot, pid: U32): Pcb {
    ZeroPcb.(stack := Some(stack), pid := pid, ppid := parent.pid, prio := parent.prio, user := parent.user.(eax := 0))
  }

  function Fork(s: State): Res {
    if s.qs[PCBS] == [] then Ok(Return(s, s.current, -1))
    else
      var p := s.qs[PCBS][0].data;
      var s1 := Take(s, PCBS, 0);
      if s1.qs[STACKS] == [] then
        match Append(Set(s1, p, ZeroPcb), PCBS, Entry(0, p))
        case None => Halt(ForkFreePcb)
        case Some(s2) => Ok(Return(s2, s2.current, -1))
      else
        Launch(Take(s1, STACKS, 0), p, s1.qs[STACKS][0].data)
  }

  /** The rest of `_sys_fork`, once the child has its PCB and its stack. */
  function Launch(s: State, p: Slot, k: Slot): Res {
    var me := s.pcbs[s.current];
    var s1 := Set(s.(nextPid := Wrap(s.nextPid + 1)), p, Child(me, k, s.nextPid));
    Schedule(Return(s1, s.current, s.nextPid), p, me.prio)
  }

  function Exec(s: State, prio: U32): Res {
    var me := s.pcbs[s.current];
    var s1 := Set(s, s.current, me.(prio := prio % 256, user := User(0, 0, me.user.infoPid, me.user.infoStatus)));
    var s2 :- Schedule(s1, s.current, prio % 256);
    Dispatch(s2)
  }

  function ReadC(s: State): Res {
    if s.inp.pending != [] then
      Ok(Return(s.(inp := ReadChar(s.inp)), s.current, s.inp.pending[0]))
    else
      var me := s.pcbs[s.current];
      Block(s, me.(status := STATUS_BLOCKED), READING, me.pid, Halt(ReadInsert))
  }

  function WriteC(s: State, ch: U32): Res {
    var s1 :- WriteChar(s, ch);
    Ok(Return(s1, s1.current, 0))
  }

  function Kill(s: State, pid: U32): Res {
    var p := PcbFind(s.pcbs, pid, 0);
    if p == N_PCBS then Ok(Return(s, s.current, E_NOT_FOUND))
    else
      var s1 := SetState(s, p, KILLED);
      if p != s.current then Ok(s1)
      else
        var s2 :- Schedule(s1, p, s1.pcbs[p].prio);
        Dispatch(s2)
  }

  /** The first zombie child of process `pid` at or after slot `i`, or N_PCBS. */
  function ZombieChild(pcbs: Pcbs, pid: U32, i: nat): (p: nat)
    requires i <= N_PCBS
    ensures i <= p <= N_PCBS
    ensures p < N_PCBS ==> pcbs[p].ppid == pid && pcbs[p].state == ZOMBIE
    ensures forall j :: i <= j < p ==> !(pcbs[j].ppid == pid && pcbs[j].state == ZOMBIE)
    decreases N_PCBS - i
  {
    if i < N_PCBS && !(pcbs[i].ppid == pid && pcbs[i].state == ZOMBIE) then ZombieChild(pcbs, pid, i + 1) else i
  }

  /** The process `wait` looks at.  Waiting for any child, the search leaves its cursor on a zombie child
      if there is one and otherwise on the last table slot: the test that was to catch the latter case
      asks for an index beyond N_PCBS, which the loop never reaches. */
  function WaitTarget(s: State): (p: nat)
    ensures p <= N_PCBS
  {
    var me := s.pcbs[s.current];
    if me.user.infoPid > 0 then PcbFind(s.pcbs, me.user.infoPid, 0)
    else
      var z := ZombieChild(s.pcbs, me.pid, 0);
      if z < N_PCBS then z else N_PCBS - 1
  }

  /** Giving a zombie's PID and status to the current process and releasing the zombie. */
  function Reap(s: State, z: Slot): Res {
    var me := s.pcbs[s.current];
    var s1 := Set(s, s.current, me.(user := me.user.(infoPid := s.pcbs[z].pid, infoStatus := s.pcbs[z].status)));
    var i := KeyIndex(s.qs[ZOMBIES], DisciplineOf(ZOMBIES), s.pcbs[z].pid);
    if i == |s.qs[ZOMBIES]| then Halt(ZombieNotOnQueue)
    else Release(Take(s1, ZOMBIES, i), s.qs[ZOMBIES][i].data)
  }

  function Wait(s: State): Res {
    var me := s.pcbs[s.current];
    if me.user.arg == 0 then Ok(Return(s, s.current, E_BAD_PARAM))
    else
      var t := WaitTarget(s);
      if t == N_PCBS then Ok(Set(s, s.current, me.(user := me.user.(infoStatus := E_NOT_FOUND))))
      else if s.pcbs[t].state == ZOMBIE then Reap(s, t)
      else Block(s, me.(state := WAITING), WAITERS, me.pid, Halt(WaitInsert))
  }

  /** `_sys_exit` hands every child of the process to init. */
  function Reparent(pcbs: Pcbs, pid: U32): (r: Pcbs)
    ensures forall p :: 0 <= p < N_PCBS ==> r[p] == if pcbs[p].ppid == pid then pcbs[p].(ppid := PID_INIT) else pcbs[p]
  {
    seq(N_PCBS, p requires 0 <= p < N_PCBS => if pcbs[p].ppid == pid then pcbs[p].(ppid := PID_INIT) else pcbs[p])
  }

  function Exit(s: State): Res {
    var s1 := s.(pcbs := Reparent(s.pcbs, s.pcbs[s.current].pid));
    var s2 :- Zombify(s1, s1.current);
    Dispatch(s2)
  }

  // ---- steps and runs ----

  /** One atomic step.  A system call carries its code, its two argument words, and the PID field of
      the `info_t` that the first argument points at when the call is `wait`. */
  datatype Event =
    | Tick(word: U32)
    | Rx(ch: Byte)
    | Tx
    | Syscall(code: int, arg1: U32, arg2: U32, infoPid: U32)

  /** `syscall` codes (include/syscall.h:26-41); a code outside the table is forced to `exit`. */
  datatype Call = CExit | CFork | CExec | CWait | CKill | CSleep | CReadc | CReads | CWritec | CWrites
                | CGetpid | CGetppid | CGetprio | CGettime | CSetprio | CSettime

  function Decode(code: int): Call {
    match code
    case 1 => CFork
    case 2 => CExec
    case 3 => CWait
    case 4 => CKill
    case 5 => CSleep
    case 6 => CReadc
    case 7 => CReads
    case 8 => CWritec
    case 9 => CWrites
    case 10 => CGetpid
    case 11 => CGetppid
    case 12 => CGetprio
    case 13 => CGettime
    case 14 => CSetprio
    case 15 => CSettime
    case _ => CExit
  }

  /** The trap leaves the call's code in EAX and its arguments on the process's stack. */
  function Trap(s: State, code: int, arg1: U32, infoPid: U32): State {
    var me := s.pcbs[s.current];
    Set(s, s.current, me.(user := User(code, arg1, infoPid, me.user.infoStatus)))
  }

  function Perform(s: State, call: Call, arg1: U32): Res {
    var c := s.current;
    var me := s.pcbs[c];
    match call
    case CExit => Exit(s)
    case CFork => Fork(s)
    case CExec => Exec(s, arg1)
    case CWait => Wait(s)
    case CKill => Kill(s, arg1)
    case CSleep => Sleep(s, arg1)
    case CReadc => ReadC(s)
    case CReads => Ok(Return(s, c, E_UNIMPLEMENTED))
    case CWritec => WriteC(s, arg1)
    case CWrites => Ok(Return(s, c, E_UNIMPLEMENTED))
    case CGetpid => Ok(Return(s, c, me.pid))
    case CGetppid => Ok(Return(s, c, me.ppid))
    case CGetprio => Ok(Return(s, c, me.prio))
    case CGettime => Ok(Return(s, c, s.time))
    case CSetprio => Ok(Set(Return(s, c, me.prio), c, Return(s, c, me.prio).pcbs[c].(prio := arg1 % 256)))
    case CSettime => Ok(Return(s, c, s.time).(time := arg1))
  }

  function Step(s: State, ev: Event): Res {
    match ev
    case Tick(word) => Clock(s, word)
    case Rx(ch) => Receive(s, ch)
    case Tx => Ok(Transmit(s))
    case Syscall(code, arg1, arg2, infoPid) => Perform(Trap(s, code, arg1, infoPid), Decode(code), arg1)
  }

  function Run(s: State, evs: seq<Event>): Res
    decreases |evs|
  {
    if evs == [] then Ok(s)
    else
      match Step(s, evs[0])
      case Halt(w) => Halt(w)
      case Ok(s') => Run(s', evs[1..])
  }

  /** The state `_init` leaves: init is the current process, its state field never written. */
  function Boot(): State {
    var free := seq(N_PCBS - 1, i requires 0 <= i < N_PCBS - 1 => Entry(0, i + 1));
    var init := ZeroPcb.(stack := Some(0), pid := PID_INIT, ppid := PID_INIT);
    State([[], [], [], [], [], [], [], [], free, free],
          seq(N_PCBS, i requires 0 <= i < N_PCBS => if i == 0 then init else ZeroPcb),
          0, PID_INIT + 1, 0, InBuf([], 0), OutBuf([], 0, false), [])
  }
}
