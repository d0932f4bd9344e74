/** What every event does, told by its code and field by field: the answer that the caller finds in EAX, who is made
    ready and at which priority, and in which state the dispatch starts if there is one. */
module Answers {
  import opened Defs
  import opened QueueSpec
  import opened KernelSpec
  import opened Placement
  import opened Safety
  import opened Frames
  import opened Families
  import opened Scheduling
  import opened Sleeping

  /** The PCBs once the caller's memory holds these words. */
  function Told(s: State, eax: int, arg1: U32, infoPid: U32): Pcbs {
    var me := s.pcbs[s.current];
    s.pcbs[s.current := me.(user := User(eax, arg1, infoPid, me.user.infoStatus))]
  }

  // ---- the ready queues ----

  /** A priority names the queue of the same number, and one that is out of range the last; the process goes to its
      end. */
  lemma SchedulePlaces(s: State, p: Slot, prio: Byte)
    requires Schedule(s, p, prio).Ok?
    ensures var r := Schedule(s, p, prio).s;
            && r == s.(qs := r.qs, pcbs := s.pcbs[p := s.pcbs[p].(state := READY)])
            && r.qs == s.qs[ReadyQueue(prio) := s.qs[ReadyQueue(prio)] + [Entry(0, p)]]
            && (prio < 4 ==> r.qs[prio] == s.qs[prio] + [Entry(0, p)])
            && (4 <= prio ==> r.qs[3] == s.qs[3] + [Entry(0, p)])
            && (forall q :: 0 <= q < N_QUEUES && q != (if prio < 4 then prio else 3) ==> r.qs[q] == s.qs[q])
  {
    hide Full;
  }

  // ---- calls that are answered at once ----

  /** A trap leaves the code in EAX and the arguments on the stack, and then the call is performed. */
  lemma CallStep(s: State, code: int, arg1: U32, arg2: U32, infoPid: U32)
    ensures Step(s, Syscall(code, arg1, arg2, infoPid)) ==
            Perform(s.(pcbs := Told(s, code, arg1, infoPid)), Decode(code), arg1)
  {
    hide Perform;
  }

  lemma Retold(s: State, code: int, arg1: U32, infoPid: U32, eax: int)
    ensures var t := s.(pcbs := Told(s, code, arg1, infoPid));
            Return(t, t.current, eax) == s.(pcbs := Told(s, eax, arg1, infoPid))
  {
  }

  /** The identity and clock calls, and the two that are not implemented: which answer belongs to which code. */
  lemma PlainAnswers(s: State, code: int, arg1: U32, arg2: U32, infoPid: U32)
    requires code == 7 || 9 <= code <= 13
    ensures var me := s.pcbs[s.current];
            var answer: int := match code
                               case 10 => me.pid case 11 => me.ppid case 12 => me.prio case 13 => s.time case _ => -5;
            Step(s, Syscall(code, arg1, arg2, infoPid)) == Ok(s.(pcbs := Told(s, answer, arg1, infoPid)))
  {
    hide Exit, Fork, Exec, Wait, Kill, Sleep, ReadC, WriteC, Told, Step, Return;
    CallStep(s, code, arg1, arg2, infoPid);
    ToldAt(s, code, arg1, infoPid);
    Retold(s, code, arg1, infoPid, match code
      case 10 => s.pcbs[s.current].pid case 11 => s.pcbs[s.current].ppid case 12 => s.pcbs[s.current].prio
      case 13 => s.time case _ => -5);
  }

  lemma ToldAt(s: State, code: int, arg1: U32, infoPid: U32)
    ensures var a, b := s.pcbs[s.current], Told(s, code, arg1, infoPid)[s.current];
            b == a.(user := User(code, arg1, infoPid, a.user.infoStatus))
    ensures forall p :: 0 <= p < N_PCBS && p != s.current ==> Told(s, code, arg1, infoPid)[p] == s.pcbs[p]
  {
  }

  /** Setting a priority or the clock answers with the old value; the new priority is the argument's low byte. */
  lemma SetAnswers(s: State, arg1: U32, arg2: U32, infoPid: U32)
    ensures var c, b := s.current, Told(s, s.pcbs[s.current].prio, arg1, infoPid);
            Step(s, Syscall(14, arg1, arg2, infoPid)) == Ok(s.(pcbs := b[c := b[c].(prio := arg1 % 256)]))
    ensures Step(s, Syscall(15, arg1, arg2, infoPid)) == Ok(s.(pcbs := Told(s, s.time, arg1, infoPid), time := arg1))
  {
    hide Exit, Fork, Exec, Wait, Kill, Sleep, ReadC, WriteC, Step;
    CallStep(s, 14, arg1, arg2, infoPid);
    CallStep(s, 15, arg1, arg2, infoPid);
  }

  /** `writec` answers 0 and touches nothing else but the output line. */
  lemma WriteAnswers(s: State, arg1: U32, arg2: U32, infoPid: U32)
    ensures var r := Step(s, Syscall(8, arg1, arg2, infoPid));
            r.Ok? ==> r.s == s.(pcbs := Told(s, 0, arg1, infoPid), out := r.s.out, wire := r.s.wire)
  {
    hide Exit, Fork, Exec, Wait, Kill, Sleep, ReadC, Step;
    CallStep(s, 8, arg1, arg2, infoPid);
  }

  /** `kill` answers E_NOT_FOUND when nobody has the PID; of another process it changes the state and nothing else,
      and the caller's EAX keeps the code of the call. */
  lemma KillAnswers(s: State, arg1: U32, arg2: U32, infoPid: U32)
    requires PcbFind(s.pcbs, arg1, 0) != s.current
    ensures var p := PcbFind(s.pcbs, arg1, 0);
            Step(s, Syscall(4, arg1, arg2, infoPid)) ==
              if p == N_PCBS then Ok(s.(pcbs := Told(s, -4, arg1, infoPid)))
              else Ok(s.(pcbs := Told(s, 4, arg1, infoPid)[p := s.pcbs[p].(state := KILLED)]))
  {
    hide Exit, Fork, Exec, Wait, Sleep, ReadC, WriteC, Step, PcbFind;
    CallStep(s, 4, arg1, arg2, infoPid);
    SameFind(s.pcbs, Told(s, 4, arg1, infoPid), arg1, 0);
  }

  // ---- fork and exec ----

  /** A refused fork answers -1 and changes nothing else.  Otherwise the child has the next free PCB and stack and the
      next PID, it is the caller's child, with its priority and a copy of its memory in which EAX is 0; the caller's
      EAX is the child's PID; and the child is last on the queue of its priority. */
  lemma ForkAnswers(s: State, arg1: U32, arg2: U32, infoPid: U32)
    requires Inv(s)
    ensures Step(s, Syscall(1, arg1, arg2, infoPid)).Ok?
    ensures var c, me, r := s.current, s.pcbs[s.current], Step(s, Syscall(1, arg1, arg2, infoPid)).s;
            if s.qs[PCBS] == [] then r == s.(pcbs := Told(s, -1, arg1, infoPid))
            else
              && s.qs[STACKS] != []
              && var p, k, q := s.qs[PCBS][0].data, s.qs[STACKS][0].data, ReadyQueue(me.prio);
                 && p != c
                 && r.pcbs == Told(s, s.nextPid, arg1, infoPid)
                              [p := Pcb(Some(k), s.nextPid, me.pid, 0, 0, READY, me.prio,
                                        User(0, arg1, infoPid, me.user.infoStatus))]
                 && r.qs == s.qs[PCBS := s.qs[PCBS][1..]][STACKS := s.qs[STACKS][1..]]
                            [q := s.qs[q] + [Entry(0, p)]]
                 && r == s.(pcbs := r.pcbs, qs := r.qs, nextPid := Wrap(s.nextPid + 1))
  {
    hide Exit, Exec, Wait, Kill, Sleep, ReadC, WriteC, Step, Core, Fork;
    var t := s.(pcbs := Told(s, 1, arg1, infoPid));
    CallStep(s, 1, arg1, arg2, infoPid);
    Rewrite(s.qs, s.pcbs, t.pcbs, multiset{s.current});
    ForkSafe(t);
    if s.qs[PCBS] == [] {
      ForkRefused(t);
    } else {
      ForkTable(t);
      ForkValue(t);
    }
  }

  lemma ForkValue(s: State)
    requires s.qs[PCBS] != [] && s.qs[STACKS] != [] && s.qs[PCBS][0].data != s.current && Fork(s).Ok?
    ensures var me, r, p, k := s.pcbs[s.current], Fork(s).s, s.qs[PCBS][0].data, s.qs[STACKS][0].data;
            var q := ReadyQueue(me.prio);
            && r.pcbs == s.pcbs[s.current := me.(user := me.user.(eax := s.nextPid))]
                               [p := Pcb(Some(k), s.nextPid, me.pid, 0, 0, READY, me.prio, me.user.(eax := 0))]
            && r.qs == s.qs[PCBS := s.qs[PCBS][1..]][STACKS := s.qs[STACKS][1..]][q := s.qs[q] + [Entry(0, p)]]
            && r == s.(pcbs := r.pcbs, qs := r.qs, nextPid := Wrap(s.nextPid + 1))
  {
    hide Full;
    assert RemoveAt(s.qs[PCBS], 0) == s.qs[PCBS][1..] && RemoveAt(s.qs[STACKS], 0) == s.qs[STACKS][1..];
  }

  /** The process, rewritten to `pcb` and READY, goes to the end of the queue of this priority, and then there is a
      dispatch. */
  ghost predicate Yields(s: State, ev: Event, pcb: Pcb, prio: Byte) {
    var q := ReadyQueue(prio);
    Step(s, ev) == Dispatch(s.(pcbs := s.pcbs[s.current := pcb.(state := READY)],
                               qs := s.qs[q := s.qs[q] + [Entry(0, s.current)]]))
  }

  lemma SchedulesNow(s: State, pcb: Pcb, prio: Byte)
    requires Inv(s) && pcb.stack == s.pcbs[s.current].stack
    ensures var q := ReadyQueue(prio);
            Schedule(Set(s, s.current, pcb), s.current, prio)
            == Ok(s.(pcbs := s.pcbs[s.current := pcb.(state := READY)],
                     qs := s.qs[q := s.qs[q] + [Entry(0, s.current)]]))
  {
    hide Core, Full;
    NeverFull(s.qs, s.pcbs, multiset{s.current});
    var t := Set(s, s.current, pcb);
    assert t.pcbs[s.current := pcb.(state := READY)] == s.pcbs[s.current := pcb.(state := READY)];
  }

  /** `exec` gives the caller the priority it asks for, the words of a fresh stack, and a place behind the others of
      that priority; its PID, its parent, its stack and its status it keeps. */
  lemma ExecAnswers(s: State, arg1: U32, arg2: U32, infoPid: U32)
    requires Inv(s)
    ensures var me := s.pcbs[s.current];
            Yields(s, Syscall(2, arg1, arg2, infoPid),
                   me.(prio := arg1 % 256, user := User(0, 0, infoPid, me.user.infoStatus)), arg1 % 256)
  {
    hide Exit, Fork, Wait, Kill, Sleep, ReadC, WriteC, Step, Inv, Dispatch, Schedule;
    var c, me, t := s.current, s.pcbs[s.current], s.(pcbs := Told(s, 2, arg1, infoPid));
    CallStep(s, 2, arg1, arg2, infoPid);
    var pcb := me.(prio := arg1 % 256, user := User(0, 0, infoPid, me.user.infoStatus));
    SchedulesNow(s, pcb, arg1 % 256);
    assert t.pcbs[c := pcb] == s.pcbs[c := pcb];
  }

  /** Killing oneself is a yield at one's own priority. */
  lemma KillSelfAnswers(s: State, arg1: U32, arg2: U32, infoPid: U32)
    requires Inv(s) && PcbFind(s.pcbs, arg1, 0) == s.current
    ensures var me := s.pcbs[s.current];
            Yields(s, Syscall(4, arg1, arg2, infoPid), me.(user := User(4, arg1, infoPid, me.user.infoStatus)), me.prio)
  {
    hide Exit, Fork, Exec, Wait, Sleep, ReadC, WriteC, Step, Inv, Dispatch, Schedule, PcbFind, Kill;
    var c, me, t := s.current, s.pcbs[s.current], s.(pcbs := Told(s, 4, arg1, infoPid));
    CallStep(s, 4, arg1, arg2, infoPid);
    SameFind(s.pcbs, t.pcbs, arg1, 0);
    KillSelfYields(t, arg1);
    SchedulesNow(s, me.(user := User(4, arg1, infoPid, me.user.infoStatus)), me.prio);
  }

  // ---- blocking ----

  /** An entry goes into an ordered queue behind all smaller and equal keys in front, before a larger one. */
  ghost predicate Enters(c: seq<Entry>, c': seq<Entry>, e: Entry) {
    exists i :: 0 <= i <= |c| && EntersAt(c, c', e, i)
  }

  predicate EntersAt(c: seq<Entry>, c': seq<Entry>, e: Entry, i: nat)
    requires i <= |c|
  {
    && c' == c[..i] + [e] + c[i..]
    && (forall j :: 0 <= j < i ==> c[j].key <= e.key) && (i < |c| ==> e.key < c[i].key)
  }

  /** The process, rewritten to `pcb`, goes onto queue `q` under this key, and then there is a dispatch. */
  ghost predicate BlocksOn(s: State, ev: Event, pcb: Pcb, q: nat, key: nat)
    requires q < N_QUEUES
  {
    exists c :: Enters(s.qs[q], c, Entry(key, s.current))
      && Step(s, ev) == Dispatch(s.(pcbs := s.pcbs[s.current := pcb], qs := s.qs[q := c]))
  }

  lemma BlocksNow(s: State, ev: Event, t: State, pcb: Pcb, q: nat, key: U32, failed: Res)
    requires Inv(s) && pcb.stack == s.pcbs[s.current].stack && SLEEP <= q < PCBS
    requires t == s.(pcbs := t.pcbs) && t.pcbs[s.current := pcb] == s.pcbs[s.current := pcb]
    requires Step(s, ev) == Block(t, pcb, q, key, failed)
    ensures BlocksOn(s, ev, pcb, q, key)
  {
    hide Step, Dispatch, Core, Full;
    NeverFull(s.qs, s.pcbs, multiset{s.current});
    var e, i := Entry(key, s.current), Position(s.qs[q], key, 0);
    assert EntersAt(s.qs[q], InsertAt(s.qs[q], i, e), e, i);
    assert Enters(s.qs[q], InsertAt(s.qs[q], i, e), e);
  }

  /** `sleep`: SLEEPING, with the time noted, under the wake-up time. */
  lemma SleepAnswers(s: State, arg1: U32, arg2: U32, infoPid: U32)
    requires Inv(s)
    ensures var me := s.pcbs[s.current];
            BlocksOn(s, Syscall(5, arg1, arg2, infoPid),
                     me.(sleeptime := s.time, state := SLEEPING, user := User(5, arg1, infoPid, me.user.infoStatus)),
                     SLEEP, Wrap(s.time + arg1))
  {
    hide Exit, Fork, Exec, Wait, Kill, ReadC, WriteC, Step, Inv, Block;
    var t := s.(pcbs := Told(s, 5, arg1, infoPid));
    CallStep(s, 5, arg1, arg2, infoPid);
    BlocksNow(s, Syscall(5, arg1, arg2, infoPid), t, Asleep(t), SLEEP, Wrap(s.time + arg1),
        Ok(Return(Set(t, t.current, Asleep(t)), t.current, 0)));
  }

  /** `readc`: the oldest character at once if there is one, and otherwise the caller waits, under its PID, with its
      state left alone and BLOCKED in its status field. */
  lemma ReadAnswers(s: State, arg1: U32, arg2: U32, infoPid: U32)
    requires Inv(s)
    ensures var me, ev := s.pcbs[s.current], Syscall(6, arg1, arg2, infoPid);
            if s.inp.pending != [] then
              && Step(s, ev).Ok?
              && Step(s, ev).s == s.(pcbs := Told(s, s.inp.pending[0], arg1, infoPid), inp := Step(s, ev).s.inp)
              && Step(s, ev).s.inp == InBuf(s.inp.pending[1..], if |s.inp.pending| == 1 then 0 else s.inp.last)
            else
              BlocksOn(s, ev, me.(status := 5, user := User(6, arg1, infoPid, me.user.infoStatus)), READING, me.pid)
  {
    hide Exit, Fork, Exec, Wait, Kill, Sleep, WriteC, Step, Inv, Block;
    var me, t := s.pcbs[s.current], s.(pcbs := Told(s, 6, arg1, infoPid));
    CallStep(s, 6, arg1, arg2, infoPid);
    if s.inp.pending == [] {
      BlocksNow(s, Syscall(6, arg1, arg2, infoPid), t,
          me.(status := 5, user := User(6, arg1, infoPid, me.user.infoStatus)), READING, me.pid, Halt(ReadInsert));
    }
  }

  // ---- wait and exit ----

  /** Whom `wait` looks at: the process with the PID asked for; or, asked for any child, the first zombie child in the
      table, and the last slot if there is none. */
  ghost predicate LooksAt(s: State, infoPid: U32, t: nat) {
    var me := s.pcbs[s.current];
    if infoPid > 0 then t == PcbFind(s.pcbs, infoPid, 0)
    else
      && t < N_PCBS
      && (forall j :: 0 <= j < t ==> !(s.pcbs[j].ppid == me.pid && s.pcbs[j].state == ZOMBIE))
      && (t < N_PCBS - 1 ==> s.pcbs[t].ppid == me.pid && s.pcbs[t].state == ZOMBIE)
  }

  lemma TargetIs(s: State, arg1: U32, infoPid: U32)
    ensures LooksAt(s, infoPid, WaitTarget(s.(pcbs := Told(s, 3, arg1, infoPid))))
  {
    hide PcbFind;
    SameFind(s.pcbs, Told(s, 3, arg1, infoPid), infoPid, 0);
  }

  /** `wait` answers E_BAD_PARAM in EAX to a null pointer, and E_NOT_FOUND in the status word when nobody has the PID;
      a zombie's PID and status field go into the caller's `info_t`, and the process on the zombie queue under that PID
      gives back its stack and its PCB; otherwise the caller waits under its PID. */
  lemma WaitAnswers(s: State, arg1: U32, arg2: U32, infoPid: U32) returns (t: nat)
    requires Inv(s)
    ensures t <= N_PCBS && LooksAt(s, infoPid, t)
    ensures var c, me, ev := s.current, s.pcbs[s.current], Syscall(3, arg1, arg2, infoPid);
            if arg1 == 0 then Step(s, ev) == Ok(s.(pcbs := Told(s, -1, arg1, infoPid)))
            else if t == N_PCBS then
              Step(s, ev) == Ok(s.(pcbs := s.pcbs[c := me.(user := User(3, arg1, infoPid, -4))]))
            else if s.pcbs[t].state != ZOMBIE then
              BlocksOn(s, ev, me.(state := WAITING, user := User(3, arg1, infoPid, me.user.infoStatus)),
                       WAITERS, me.pid)
            else
              exists i :: 0 <= i < |s.qs[ZOMBIES]| && Reaps(s, Step(s, ev), arg1, t, i)
  {
    hide Exit, Fork, Exec, Kill, Sleep, ReadC, WriteC, Step, Inv, Block, Reap, WaitTarget;
    var me, u, ev := s.pcbs[s.current], s.(pcbs := Told(s, 3, arg1, infoPid)), Syscall(3, arg1, arg2, infoPid);
    t := WaitTarget(u);
    CallStep(s, 3, arg1, arg2, infoPid);
    TargetIs(s, arg1, infoPid);
    ToldAt(s, 3, arg1, infoPid);
    if arg1 == 0 {
      Retold(s, 3, arg1, infoPid, -1);
    } else if t < N_PCBS {
      TargetState(s, u, t);
      if s.pcbs[t].state == ZOMBIE {
        WaitReaps(s, arg1, infoPid, t);
      } else {
        BlocksNow(s, ev, u, me.(state := WAITING, user := User(3, arg1, infoPid, me.user.infoStatus)), WAITERS, me.pid,
            Halt(WaitInsert));
      }
    }
  }

  lemma TargetState(s: State, u: State, t: Slot)
    requires forall p :: 0 <= p < N_PCBS ==> u.pcbs[p].state == s.pcbs[p].state
    ensures u.pcbs[t].state == s.pcbs[t].state
  {
  }

  /** The zombie in slot `z` is reported, and the `i`-th entry of the zombie queue, the first under its PID, reaped. */
  predicate Reaps(s: State, r: Res, arg1: U32, z: Slot, i: nat)
    requires i < |s.qs[ZOMBIES]|
  {
    var c, me, x, freed := s.current, s.pcbs[s.current], s.pcbs[z], s.qs[ZOMBIES][i].data;
    && s.qs[ZOMBIES][i].key == x.pid && (forall j :: 0 <= j < i ==> s.qs[ZOMBIES][j].key != x.pid)
    && freed != c && s.pcbs[freed].stack.Some?
    && r == Ok(s.(pcbs := s.pcbs[c := me.(user := User(3, arg1, x.pid, x.status))][freed := ZeroPcb],
                  qs := s.qs[ZOMBIES := s.qs[ZOMBIES][..i] + s.qs[ZOMBIES][i + 1..]]
                            [STACKS := s.qs[STACKS] + [Entry(0, s.pcbs[freed].stack.value)]]
                            [PCBS := s.qs[PCBS] + [Entry(0, freed)]]))
  }

  lemma WaitReaps(s: State, arg1: U32, infoPid: U32, z: Slot)
    requires Inv(s) && s.pcbs[z].state == ZOMBIE
    ensures var u := s.(pcbs := Told(s, 3, arg1, infoPid));
            exists i :: 0 <= i < |s.qs[ZOMBIES]| && Reaps(s, Reap(u, z), arg1, z, i)
  {
    hide Core, Reap, KeyIndex;
    var u := s.(pcbs := Told(s, 3, arg1, infoPid));
    Rewrite(s.qs, s.pcbs, u.pcbs, multiset{s.current});
    var freed := ReapMoves(u, z);
    var i := KeyIndex(u.qs[ZOMBIES], DisciplineOf(ZOMBIES), u.pcbs[z].pid);
    FoundFirst(s.qs[ZOMBIES], ZOMBIES, s.pcbs[z].pid);
    NotMe(s, z);
    ReapValue(u, z, i, freed);
    assert Reaps(s, Reap(u, z), arg1, z, i);
  }

  lemma NotMe(s: State, z: Slot)
    requires Inv(s) && s.pcbs[z].state == ZOMBIE
    ensures z != s.current
  {
  }

  lemma FoundFirst(c: seq<Entry>, q: nat, key: nat)
    requires q == WAITERS || q == ZOMBIES
    ensures var i := KeyIndex(c, DisciplineOf(q), key);
            && (i < |c| ==> c[i].key == key) && forall j :: 0 <= j < i ==> c[j].key != key
  {
  }

  lemma ReapValue(s: State, z: Slot, i: nat, freed: Slot)
    requires i == KeyIndex(s.qs[ZOMBIES], DisciplineOf(ZOMBIES), s.pcbs[z].pid) < |s.qs[ZOMBIES]|
    requires s.qs[ZOMBIES][i].data == freed && freed != s.current && s.pcbs[freed].stack.Some? && Reap(s, z).Ok?
    ensures var me, r := s.pcbs[s.current], Reap(s, z).s;
            r == s.(pcbs := s.pcbs[s.current := me.(user := me.user.(infoPid := s.pcbs[z].pid,
                            infoStatus := s.pcbs[z].status))][freed := ZeroPcb],
                    qs := s.qs[ZOMBIES := s.qs[ZOMBIES][..i] + s.qs[ZOMBIES][i + 1..]]
                              [STACKS := s.qs[STACKS] + [Entry(0, s.pcbs[freed].stack.value)]]
                              [PCBS := s.qs[PCBS] + [Entry(0, freed)]])
  {
    hide KeyIndex, Full;
  }

  /** The PCBs once an exit by the current process has handed its children to init. */
  predicate HandedOver(a: Pcbs, b: Pcbs, pid: U32) {
    forall p :: 0 <= p < N_PCBS ==> b[p] == if a[p].ppid == pid then a[p].(ppid := 1) else a[p]
  }

  /** The state in which the dispatch after an exit starts when the parent was waiting for it: the parent is told
      PID and status, the process at the `i`-th place of the waiting queue, the first under the parent's PID, is
      READY at the highest priority, and the stack and the PCB of the one that exits are last on their free lists. */
  predicate DeliversTo(s: State, t: State, b: Pcbs, parent: Slot, i: nat)
    requires i < |s.qs[WAITERS]|
  {
    var c, me, par, woken := s.current, b[s.current], b[parent], s.qs[WAITERS][i].data;
    var told: Pcbs := b[parent := par.(user := par.user.(infoPid := me.pid, infoStatus := me.user.arg))];
    && s.qs[WAITERS][i].key == par.pid && (forall j :: 0 <= j < i ==> s.qs[WAITERS][j].key != par.pid)
    && parent != c && woken != c && me.stack.Some?
    && t == s.(pcbs := told[c := ZeroPcb][woken := told[woken].(state := READY)],
               qs := s.qs[WAITERS := s.qs[WAITERS][..i] + s.qs[WAITERS][i + 1..]]
                         [STACKS := s.qs[STACKS] + [Entry(0, me.stack.value)]]
                         [PCBS := s.qs[PCBS] + [Entry(0, c)]]
                         [0 := s.qs[0] + [Entry(0, woken)]])
  }

  /** ... and when it was not: a zombie, in the zombie queue under its PID. */
  ghost predicate Lingers(s: State, t: State, b: Pcbs) {
    exists c :: Enters(s.qs[ZOMBIES], c, Entry(b[s.current].pid, s.current))
      && t == s.(pcbs := b[s.current := b[s.current].(state := ZOMBIE)], qs := s.qs[ZOMBIES := c])
  }

  /** Code 0, and every code outside the table: the caller's children become init's, its parent is looked for, and
      without one the kernel stops; otherwise the caller is delivered to a parent that waits for it, or lingers, and
      there is a dispatch. */
  lemma ExitAnswers(s: State, code: int, arg1: U32, arg2: U32, infoPid: U32) returns (b: Pcbs, t: State)
    requires Inv(s) && !(1 <= code <= 15)
    ensures HandedOver(Told(s, code, arg1, infoPid), b, s.pcbs[s.current].pid)
    ensures var c, r := s.current, Step(s, Syscall(code, arg1, arg2, infoPid));
            var parent := PcbFind(b, b[c].ppid, 0);
            if parent == N_PCBS then r == Halt(NoParent)
            else
              && r == Dispatch(t)
              && var wants := b[parent].state == WAITING
                              && (b[parent].user.infoPid == 0 || b[parent].user.infoPid == b[c].pid);
                 if wants then exists i :: 0 <= i < |s.qs[WAITERS]| && DeliversTo(s, t, b, parent, i)
                 else Lingers(s, t, b)
  {
    hide Fork, Exec, Wait, Kill, Sleep, ReadC, WriteC, Step, Core, Dispatch, Zombify, PcbFind;
    var u := s.(pcbs := Told(s, code, arg1, infoPid));
    CallStep(s, code, arg1, arg2, infoPid);
    ToldAt(s, code, arg1, infoPid);
    b := Reparent(u.pcbs, s.pcbs[s.current].pid);
    var v := s.(pcbs := b);
    Rewrite(s.qs, s.pcbs, b, multiset{s.current});
    Zombifies(v);
    t := v;
    if PcbFind(b, b[s.current].ppid, 0) < N_PCBS {
      t := Zombify(v, s.current).s;
      EndIs(v);
      if i :| 0 <= i < |v.qs[WAITERS]| && DeliversTo(v, t, b, PcbFind(b, b[s.current].ppid, 0), i) {
        assert DeliversTo(s, t, b, PcbFind(b, b[s.current].ppid, 0), i);
      }
    } else {
      ZombifyFinds(v);
    }
  }

  lemma EndIs(s: State)
    requires Core(s.qs, s.pcbs, multiset{s.current}) && s.pcbs[s.current].state != WAITING
    requires PcbFind(s.pcbs, s.pcbs[s.current].ppid, 0) < N_PCBS
    ensures Zombify(s, s.current).Ok?
    ensures var t, c, parent := Zombify(s, s.current).s, s.current, PcbFind(s.pcbs, s.pcbs[s.current].ppid, 0);
            var wants := s.pcbs[parent].state == WAITING
                         && (s.pcbs[parent].user.infoPid == 0 || s.pcbs[parent].user.infoPid == s.pcbs[c].pid);
            if wants then exists i :: 0 <= i < |s.qs[WAITERS]| && DeliversTo(s, t, s.pcbs, parent, i)
            else Lingers(s, t, s.pcbs)
  {
    hide Core, Deliver, Dispatch, PcbFind, Full, KeyIndex, InsertIndex;
    var parent := PcbFind(s.pcbs, s.pcbs[s.current].ppid, 0);
    if Wants(s.pcbs[parent], s.pcbs[s.current].pid) {
      var woken := DeliverMoves(s, parent);
      var i := KeyIndex(s.qs[WAITERS], DisciplineOf(WAITERS), s.pcbs[parent].pid);
      FoundFirst(s.qs[WAITERS], WAITERS, s.pcbs[parent].pid);
      CoreStack(s);
      DeliverValue(s, parent, i, woken);
      assert DeliversTo(s, Deliver(s, s.current, parent).s, s.pcbs, parent, i);
    } else {
      BecomesZombie(s);
      LingersNow(s);
    }
  }

  lemma LingersNow(s: State)
    requires MakeZombie(s).Ok?
    ensures Lingers(s, MakeZombie(s).s, s.pcbs)
  {
    hide Full;
    var c, e := s.qs[ZOMBIES], Entry(s.pcbs[s.current].pid, s.current);
    var i := Position(c, e.key, 0);
    assert EntersAt(c, InsertAt(c, i, e), e, i);
    assert Enters(c, InsertAt(c, i, e), e);
  }

  lemma DeliverValue(s: State, parent: Slot, i: nat, woken: Slot)
    requires i == KeyIndex(s.qs[WAITERS], DisciplineOf(WAITERS), s.pcbs[parent].pid) < |s.qs[WAITERS]|
    requires s.qs[WAITERS][i].data == woken && parent != s.current && woken != s.current
    requires s.pcbs[s.current].stack.Some? && Deliver(s, s.current, parent).Ok?
    ensures var t, c, me, par := Deliver(s, s.current, parent).s, s.current, s.pcbs[s.current], s.pcbs[parent];
            var told: Pcbs := s.pcbs[parent := par.(user := par.user.(infoPid := me.pid, infoStatus := me.user.arg))];
            t == s.(pcbs := told[c := ZeroPcb][woken := told[woken].(state := READY)],
                    qs := s.qs[WAITERS := s.qs[WAITERS][..i] + s.qs[WAITERS][i + 1..]]
                              [STACKS := s.qs[STACKS] + [Entry(0, me.stack.value)]]
                              [PCBS := s.qs[PCBS] + [Entry(0, c)]]
                              [0 := s.qs[0] + [Entry(0, woken)]])
  {
    hide KeyIndex, Full;
  }

  // ---- the dispatch ----

  /** One round of a dispatch takes the head of the first queue that is not empty: a READY process runs; a KILLED one
      ends as in an exit, and there is another round. */
  lemma DispatchRound(s: State) returns (t: State)
    requires AllQueued(s)
    ensures (forall q :: 0 <= q < N_PRIORITIES ==> s.qs[q] == []) ==> Dispatch(s) == Halt(AllQueuesEmpty)
    ensures forall q :: 0 <= q < N_PRIORITIES && s.qs[q] != [] && (forall j :: 0 <= j < q ==> s.qs[j] == []) ==>
              var c := s.qs[q][0].data;
              var u := s.(qs := s.qs[q := s.qs[q][1..]], current := c);
              var parent := PcbFind(s.pcbs, s.pcbs[c].ppid, 0);
              if s.pcbs[c].state == READY then Dispatch(s) == Ok(u.(pcbs := s.pcbs[c := s.pcbs[c].(state := RUNNING)]))
              else if parent == N_PCBS then Dispatch(s) == Halt(NoParent)
              else
                && Dispatch(s) == Dispatch(t)
                && if s.pcbs[parent].state == WAITING
                      && (s.pcbs[parent].user.infoPid == 0 || s.pcbs[parent].user.infoPid == s.pcbs[c].pid) then
                     exists i :: 0 <= i < |s.qs[WAITERS]| && DeliversTo(u, t, s.pcbs, parent, i)
                   else Lingers(u, t, s.pcbs)
  {
    hide Core, Zombify, PcbFind, DeliversTo, Lingers;
    t := s;
    if FirstReady(s.qs, 0) < N_PRIORITIES {
      Pops(s);
      var u := Popped(s);
      if s.pcbs[u.current].state == KILLED {
        if PcbFind(s.pcbs, s.pcbs[u.current].ppid, 0) < N_PCBS {
          EndIs(u);
          t := Zombify(u, u.current).s;
        } else {
          ZombifyFinds(u);
        }
      }
    }
  }

  // ---- interrupts ----

  /** The state in which the dispatch of a clock tick starts: time is one later; the first `d` sleepers, those whose
      time has come, are READY at the highest priority; and the process interrupted, READY with the word on its stack
      for its argument, is last on the queue of its own priority. */
  ghost predicate TickedTo(s: State, word: U32, d: nat, t: State)
    requires d <= |s.qs[SLEEP]|
  {
    var c, me, sleepers := s.current, s.pcbs[s.current], s.qs[SLEEP];
    var b: Pcbs := s.pcbs[c := me.(state := READY, user := me.user.(arg := word))];
    var ready, q := s.qs[SLEEP := sleepers[d..]][0 := s.qs[0] + Woken(sleepers[..d])], ReadyQueue(me.prio);
    && t.time == (s.time + 1) % UINT32
    && (forall i :: 0 <= i < |sleepers| ==> (sleepers[i].key <= t.time <==> i < d))
    && Awakened(b, t.pcbs, Data(sleepers[..d]))
    && t == s.(time := t.time, pcbs := t.pcbs, qs := ready[q := ready[q] + [Entry(0, c)]])
  }

  lemma TickAnswers(s: State, word: U32) returns (d: nat, t: State)
    requires Inv(s) && Sorted(s.qs[SLEEP])
    ensures d <= |s.qs[SLEEP]| && TickedTo(s, word, d, t) && Step(s, Tick(word)) == Dispatch(t) && AllQueued(t)
  {
    hide Core, Dispatch, WakeAll, Schedule, Awakened, Data, Woken, Position;
    var c, me, u := s.current, s.pcbs[s.current], Ticked(s, word);
    Rewrite(s.qs, s.pcbs, u.pcbs, multiset{c});
    Wakes(u);
    WakesTheDue(u);
    d := Position(s.qs[SLEEP], u.time, 0);
    AheadOfTime(s.qs[SLEEP], u.time);
    var v := WakeAll(u).s;
    Schedules(v, multiset{c}, c, me.prio);
    assert multiset{c} - multiset{c} == multiset{};
    SchedulePlaces(v, c, me.prio);
    t := Schedule(v, c, me.prio).s;
    AwakenedToo(u.pcbs, v.pcbs, Data(s.qs[SLEEP][..d]), c);
    assert u.pcbs[c := u.pcbs[c].(state := READY)] == s.pcbs[c := me.(state := READY, user := me.user.(arg := word))];
  }

  lemma AwakenedToo(a: Pcbs, b: Pcbs, l: seq<Slot>, c: Slot)
    requires Awakened(a, b, l) && b[c] == a[c]
    ensures Awakened(a[c := a[c].(state := READY)], b[c := b[c].(state := READY)], l)
  {
  }

  /** A character, CR being taken for LF, goes to the first reader, who is READY at its own priority; or else into the
      buffer, unless that is full by its count. */
  lemma ReceiveAnswers(s: State, raw: Byte)
    requires Inv(s)
    ensures var ch, r := if raw == 13 then 10 else raw, Step(s, Rx(raw));
            if s.qs[READING] != [] then
              var p := s.qs[READING][0].data;
              var pcb, q := s.pcbs[p], ReadyQueue(s.pcbs[p].prio);
              r == Ok(s.(pcbs := s.pcbs[p := pcb.(state := READY, user := pcb.user.(eax := ch))],
                         qs := s.qs[READING := s.qs[READING][1..]][q := s.qs[q] + [Entry(0, p)]]))
            else if 2048 <= |s.inp.pending| then r == Ok(s)
            else if s.inp.last == 2048 then r == Halt(InputOverrun)
            else r == Ok(s.(inp := InBuf(s.inp.pending + [ch], s.inp.last + 1)))
  {
    hide Core, Schedule, Full;
    ReceiveSafe(s, raw);
    if s.qs[READING] != [] {
      ReceiveSchedules(s, raw);
      var p := s.qs[READING][0].data;
      var u := Return(s.(qs := s.qs[READING := s.qs[READING][1..]]), p, if raw == 13 then 10 else raw);
      SchedulePlaces(u, p, u.pcbs[p].prio);
      assert u.pcbs[p := u.pcbs[p].(state := READY)]
          == s.pcbs[p := s.pcbs[p].(state := READY, user := s.pcbs[p].user.(eax := if raw == 13 then 10 else raw))];
    }
  }

  lemma ReceiveSchedules(s: State, raw: Byte)
    requires s.qs[READING] != []
    ensures Receive(s, raw).Halt? ==> Receive(s, raw).why == ScheduleAppend
  {
  }

  // ---- whose character it is ----

  lemma StepReaders(s: State, ev: Event)
    requires Inv(s) && Sorted(s.qs[READING]) && Step(s, ev).Ok?
    ensures Sorted(Step(s, ev).s.qs[READING])
  {
    hide Clock, Perform, Core, Sorted;
    match ev
    case Tick(word) => ClockFrame(s, word);
    case Rx(ch) =>
      ReceiveAnswers(s, ch);
      TailSorted(s.qs[READING]);
    case Tx =>
    case Syscall(code, arg1, _, infoPid) =>
      var u := Trap(s, code, arg1, infoPid);
      PerformFrame(u, Decode(code), arg1);
      if Decode(code) == CReadc {
        ReadQueues(u, arg1);
        InsertIsStable(s.qs[READING], Entry(u.pcbs[u.current].pid, u.current), 0);
      }
  }

  lemma TailSorted(c: seq<Entry>)
    requires Sorted(c)
    ensures c != [] ==> Sorted(c[1..])
  {
  }

  lemma ReadQueues(s: State, arg1: U32)
    requires Perform(s, CReadc, arg1).Ok?
    ensures var c, e, r := s.qs[READING], Entry(s.pcbs[s.current].pid, s.current), Perform(s, CReadc, arg1).s;
            r.qs[READING] == if s.inp.pending == [] then InsertAt(c, Position(c, e.key, 0), e) else c
  {
    hide Block, Position;
    var me := s.pcbs[s.current];
    BlockFrame(s, me.(status := STATUS_BLOCKED), READING, me.pid, Halt(ReadInsert));
  }

  lemma {:induction false} RunReaders(s: State, evs: seq<Event>)
    requires Inv(s) && Sorted(s.qs[READING])
    ensures var r := Run(s, evs); r.Ok? ==> Inv(r.s) && Sorted(r.s.qs[READING])
    decreases |evs|
  {
    hide Step, Inv, Sorted;
    if evs != [] && Step(s, evs[0]).Ok? {
      StepSafe(s, evs[0]);
      StepReaders(s, evs[0]);
      RunReaders(Step(s, evs[0]).s, evs[1..]);
    }
  }

  /** In every run from boot: if processes wait for a character, the next one goes to the one with the least PID. */
  lemma LeastPidReads(evs: seq<Event>, ch: Byte)
    requires Run(Boot(), evs).Ok? && Run(Boot(), evs).s.qs[READING] != []
    ensures var s := Run(Boot(), evs).s;
            var p := s.qs[READING][0].data;
            && (forall i :: 0 <= i < |s.qs[READING]| ==> s.pcbs[p].pid <= s.pcbs[s.qs[READING][i].data].pid)
            && Step(s, Rx(ch)).Ok?
            && Step(s, Rx(ch)).s.pcbs[p].user.eax == (if ch == 13 then 10 else ch)
            && Step(s, Rx(ch)).s.qs[READING] == s.qs[READING][1..]
  {
    hide Run, Boot, Step, Core;
    BootSafe();
    BootIs();
    RunReaders(Boot(), evs);
    ReceiveAnswers(Run(Boot(), evs).s, ch);
    KeysArePids(Run(Boot(), evs).s);
  }

  lemma KeysArePids(s: State)
    requires Inv(s)
    ensures forall i :: 0 <= i < |s.qs[READING]| ==> s.qs[READING][i].key == s.pcbs[s.qs[READING][i].data].pid
  {
    forall i | 0 <= i < |s.qs[READING]|
      ensures s.qs[READING][i].key == s.pcbs[s.qs[READING][i].data].pid
    {
      assert Fits(s.pcbs[s.qs[READING][i].data], READING, s.qs[READING][i].key);
    }
  }

  /** A transmit interrupt sends the oldest byte waiting, or ends the transmission; it touches nothing else. */
  lemma SendAnswers(s: State)
    ensures var o := s.out;
            Step(s, Tx) == Ok(
              if o.sending && o.pending != [] then
                s.(wire := s.wire + [o.pending[0]], out := OutBuf(o.pending[1..], o.last, true))
              else s.(out := OutBuf([], 0, false)))
  {
  }

  /** The kernel starts with init alone: PID 1, its own parent, at the highest priority, on the first PCB and the first
      stack, and its state field never written; the clock at 0, and 2 for the next PID. */
  lemma BootIs()
    ensures var s := Boot();
            && s.current == 0 && s.nextPid == 2 && s.time == 0 && s.wire == []
            && s.inp == InBuf([], 0) && s.out == OutBuf([], 0, false)
            && s.pcbs[0] == Pcb(Some(0), 1, 1, 0, 0, FREE, 0, User(0, 0, 0, 0))
            && (forall p :: 0 < p < N_PCBS ==> s.pcbs[p] == Pcb(None, 0, 0, 0, 0, FREE, 0, User(0, 0, 0, 0)))
            && (forall q :: 0 <= q < PCBS ==> s.qs[q] == [])
            && |s.qs[PCBS]| == |s.qs[STACKS]| == 29
            && (forall i :: 0 <= i < 29 ==> s.qs[PCBS][i] == s.qs[STACKS][i] == Entry(0, i + 1))
  {
  }
}
