/** The kernel as it runs: the PCB table, the queues, the serial line and the handlers that update them in
    place.  Each handler is proved to take the step that KernelSpec gives for it. */
module Kernel {
  import opened Defs
  import opened QueueSpec
  import Queues
  import SerialLine
  import KS = KernelSpec
  import opened KernelSpec

  /** How a handler ends: it returns, or the kernel stops. */
  datatype Outcome = Pass | Fail(why: Stop) {
    predicate IsFailure() { Fail? }
    function PropagateFailure(): Outcome requires Fail? { this }
  }

  lemma ScheduleKeepsSleepers(s: State, p: Slot)
    ensures var r := KS.Schedule(s, p, 0); r.Ok? ==> r.s.qs[SLEEP] == s.qs[SLEEP]
  {
  }

  /** A free list in its initial order. */
  ghost function Slots(n: nat): (c: seq<Entry>)
    requires n <= N_PCBS
  {
    seq(n, i requires 0 <= i < n => Entry(0, i))
  }

  /** The kernel's data before anything is on a list. */
  ghost function Blank(): State {
    State([[], [], [], [], [], [], [], [], [], []], seq(N_PCBS, _ => ZeroPcb), 0, PID_INIT + 1, 0,
          InBuf([], 0), OutBuf([], 0, false), [])
  }

  class Machine {
    const bank: Queues.Bank
    const pcbs: array<Pcb>
    const line: SerialLine.Line
    var current: Slot
    var nextPid: U32
    var time: U32
    ghost const Repr: set<object>

    ghost predicate Valid()
      reads this, Repr
    {
      && this in Repr && pcbs in Repr && line in Repr && line.inbuffer in Repr && line.outbuffer in Repr
      && bank.pool in Repr && (forall q :: q in bank.queues ==> q in Repr)
         && (forall n :: n in bank.table ==> n in Repr)
      && bank.Valid() && line.Valid() && pcbs.Length == N_PCBS
    }

    ghost function View(): State
      requires Valid()
      reads this, Repr
    {
      State(bank.View(), pcbs[..], current, nextPid, time, line.In(), line.Out(), line.wire)
    }

    /** The handler has taken the step `r`. */
    ghost predicate Took(out: Outcome, r: Res)
      reads this, Repr
    {
      match r
      case Ok(s) => out == Pass && Valid() && View() == s
      case Halt(w) => out == Fail(w)
    }

    /** The static data before `_init`: nothing on any list. */
    constructor ()
      ensures Valid() && fresh(Repr) && View() == Blank()
    {
      hide Queues.Bank.Valid, Queues.Bank.Owned, SerialLine.Line.Valid;
      var b := new Queues.Bank();
      var l := new SerialLine.Line();
      var table := new Pcb[N_PCBS](_ => ZeroPcb);
      bank, line, pcbs := b, l, table;
      current, nextPid, time := 0, PID_INIT + 1, 0;
      Repr := {this, table, l, l.inbuffer, l.outbuffer, b.pool}
              + (set q | q in b.queues :: q as object) + (set n | n in b.table :: n as object);
      new;
      assert bank.View() == Blank().qs;
      assert pcbs[..] == Blank().pcbs;
    }

    /** The parts of `_init` that set up this state (kernel/system.c:275-364): every PCB and stack goes onto
        its free list, and the first of each makes the initial process. */
    method Init()
      requires Valid() && View() == Blank()
      modifies Repr
      ensures Valid() && View() == Boot()
    {
      hide Valid, View;
      NodesInEmpty(View().qs, |View().qs|);
      FillList(PCBS, N_PCBS);
      FillList(STACKS, N_STACKS);
      var _, p := Remove(PCBS);
      var _, k := Remove(STACKS);
      Store(p, ZeroPcb.(stack := Some(k), pid := PID_INIT, ppid := PID_INIT));
      SetCurrent(p);
      assert Slots(N_PCBS)[1..] == Boot().qs[PCBS];
      assert forall q :: 0 <= q < N_QUEUES ==> View().qs[q] == Boot().qs[q];
      assert View().qs == Boot().qs;
      assert View().pcbs == Boot().pcbs;
    }

    /** Freeing slots 0, 1, ... onto an empty list (kernel/process.c:127-132, kernel/stack.c:95-100). */
    method FillList(q: nat, n: nat)
      requires Valid() && q < N_QUEUES && n <= N_PCBS && View().qs[q] == [] && Used(View().qs) + n < N_QNODES
      modifies Repr
      ensures Valid() && View() == old(View()).(qs := old(View()).qs[q := Slots(n)])
      ensures Used(View().qs) == old(Used(View().qs)) + n
    {
      hide Valid, View;
      ghost var s := View();
      assert Slots(0) == [];
      assert s.qs[q := Slots(0)] == s.qs;
      for i := 0 to n
        invariant Valid() && View() == s.(qs := s.qs[q := Slots(i)])
        invariant Used(View().qs) == Used(s.qs) + i
      {
        ghost var t := View().qs;
        NodesInUpdate(t, q, Slots(i + 1), |t|);
        var _ := Append(q, i, 0);
        assert t[q] + [Entry(0, i)] == Slots(i + 1);
        assert View().qs == s.qs[q := Slots(i + 1)];
      }
    }

    // ---- single accesses to the kernel's data, each with its effect on the whole state ----

    method Load(p: Slot) returns (pcb: Pcb)
      requires Valid()
      ensures pcb == View().pcbs[p]
    {
      pcb := pcbs[p];
    }

    method Store(p: Slot, pcb: Pcb)
      requires Valid()
      modifies Repr
      ensures Valid() && View() == Set(old(View()), p, pcb)
    {
      pcbs[p] := pcb;
    }

    /** After a queue operation the machine is consistent, and differs only in its queues. */
    twostate lemma QueuesMoved()
      requires old(Valid()) && bank.Valid()
      requires unchanged(this) && unchanged(pcbs) && unchanged(line) && unchanged(line.inbuffer)
        && unchanged(line.outbuffer)
      ensures Valid() && View() == old(View()).(qs := bank.View())
    {
      hide Queues.Bank.Valid, Queues.Bank.Owned;
    }

    method Append(q: nat, p: Slot, key: nat) returns (stat: Status)
      requires Valid() && q < N_QUEUES
      modifies Repr
      ensures Valid()
      ensures match KS.Append(old(View()), q, Entry(key, p))
              case None => stat != Success
              case Some(s) => stat == Success && View() == s
    {
      hide Queues.Bank.Valid, Queues.Bank.Owned, SerialLine.Line.Valid;
      stat := bank.Append(q, p, key);
      QueuesMoved();
    }

    method Insert(q: nat, p: Slot, key: nat) returns (stat: Status)
      requires Valid() && q < N_QUEUES
      modifies Repr
      ensures Valid()
      ensures match KS.Insert(old(View()), q, Entry(key, p))
              case None => stat != Success && View() == old(View())
              case Some(s) => stat == Success && View() == s
    {
      hide Queues.Bank.Valid, Queues.Bank.Owned, SerialLine.Line.Valid;
      stat := bank.Insert(q, p, key);
      QueuesMoved();
    }

    method Remove(q: nat) returns (stat: Status, p: Slot)
      requires Valid() && q < N_QUEUES
      modifies Repr
      ensures Valid()
      ensures var s := old(View());
              if s.qs[q] == [] then stat == Empty && View() == s
              else
                && stat == Success && p == s.qs[q][0].data
                && View() == s.(qs := s.qs[q := s.qs[q][1..]]) == Take(s, q, 0)
    {
      hide Queues.Bank.Valid, Queues.Bank.Owned, SerialLine.Line.Valid;
      ghost var c := View().qs[q];
      stat, p := bank.Remove(q);
      QueuesMoved();
      assert c != [] ==> RemoveAt(c, 0) == c[1..];
    }

    method RemoveByKey(q: nat, key: nat) returns (stat: Status, p: Slot)
      requires Valid() && q < N_QUEUES
      modifies Repr
      ensures Valid()
      ensures var s := old(View());
              var i := KeyIndex(s.qs[q], DisciplineOf(q), key);
              if i == |s.qs[q]| then stat != Success && View() == s
              else stat == Success && p == s.qs[q][i].data && View() == Take(s, q, i)
    {
      hide Queues.Bank.Valid, Queues.Bank.Owned, SerialLine.Line.Valid;
      stat, p := bank.RemoveByKey(q, key);
      QueuesMoved();
    }

    method FindPcb(pid: U32) returns (p: nat)
      requires Valid()
      ensures p == PcbFind(View().pcbs, pid, 0)
    {
      p := 0;
      while p < N_PCBS && (pcbs[p].state == FREE || pcbs[p].pid != pid)
        invariant p <= N_PCBS && PcbFind(View().pcbs, pid, 0) == PcbFind(View().pcbs, pid, p)
      {
        p := p + 1;
      }
    }

    // ---- scheduler.c and system.c ----

    method Schedule(p: Slot, prio: Byte) returns (out: Outcome)
      requires Valid()
      modifies Repr
      ensures Took(out, KS.Schedule(old(View()), p, prio))
    {
      hide Valid, View;
      var q := prio;
      if q >= N_PRIORITIES {
        q := N_PRIORITIES - 1;
      }
      var pcb := Load(p);
      Store(p, pcb.(state := READY));
      var stat := Append(q, p, 0);
      if stat != Success {
        return Fail(ScheduleAppend);
      }
      out := Pass;
    }

    /** `_stack_free` and `_pcb_free` in a row. */
    method Release(p: Slot) returns (out: Outcome)
      requires Valid()
      modifies Repr
      ensures Took(out, KS.Release(old(View()), p))
    {
      hide Valid, View;
      var pcb := Load(p);
      if pcb.stack.None? {
        return Fail(StackFree);
      }
      var stat := Append(STACKS, pcb.stack.value, 0);
      if stat != Success {
        return Fail(StackFree);
      }
      Store(p, ZeroPcb);
      stat := Append(PCBS, p, 0);
      if stat != Success {
        return Fail(PcbFree);
      }
      out := Pass;
    }

    method Zombify(p: Slot) returns (out: Outcome)
      requires Valid()
      modifies Repr
      ensures Took(out, KS.Zombify(old(View()), p))
    {
      hide Valid, KS.Deliver;
      var pcb := Load(p);
      var me := Load(current);
      var parent := FindPcb(pcb.ppid);
      if parent == N_PCBS {
        return Fail(NoParent);
      }
      var par := Load(parent);
      if par.state == WAITING && (par.user.infoPid == 0 || par.user.infoPid == me.pid) {
        out := Deliver(p, parent);
        return;
      }
      Store(current, me.(state := ZOMBIE));
      var stat := Insert(ZOMBIES, current, me.pid);
      if stat != Success {
        return Fail(ZombieInsert);
      }
      out := Pass;
    }

    /** kernel/system.c:192-224 */
    method Deliver(p: Slot, parent: Slot) returns (out: Outcome)
      requires Valid()
      modifies Repr
      ensures Took(out, KS.Deliver(old(View()), p, parent))
    {
      hide Valid, KS.Release, KS.Schedule;
      var me := Load(current);
      var par := Load(parent);
      var stat, woken := RemoveByKey(WAITERS, par.pid);
      if stat != Success {
        return Fail(WaitRemove);
      }
      Store(parent, par.(user := par.user.(infoPid := me.pid, infoStatus := me.user.arg)));
      :- Release(p);
      :- Schedule(woken, 0);
      out := Pass;
    }

    /** The search of `_dispatch` for a queue that is not empty. */
    method FindQueue() returns (i: nat)
      requires Valid()
      ensures i == FirstReady(View().qs, 0)
    {
      i := 0;
      while i < N_PRIORITIES
        invariant i <= N_PRIORITIES && FirstReady(View().qs, 0) == FirstReady(View().qs, i)
      {
        var empty := bank.IsEmpty(i);
        if !empty {
          break;
        }
        i := i + 1;
      }
    }

    /** Taking the head of the most urgent queue that is not empty. */
    method TakeNext() returns (found: bool)
      requires Valid()
      modifies Repr
      ensures Valid()
      ensures var s, i := old(View()), FirstReady(old(View()).qs, 0);
              if i == N_PRIORITIES then !found && View() == s
              else found && View() == s.(qs := s.qs[i := s.qs[i][1..]], current := s.qs[i][0].data)
    {
      hide Valid, View, FirstReady;
      var i := FindQueue();
      if i >= N_PRIORITIES {
        return false;
      }
      var _, c := Remove(i);
      SetCurrent(c);
      found := true;
    }

    method Dispatch() returns (out: Outcome)
      requires Valid()
      modifies Repr
      ensures Took(out, KS.Dispatch(old(View())))
    {
      hide Valid, KS.Zombify, FirstReady;
      while true
        invariant Valid() && KS.Dispatch(View()) == KS.Dispatch(old(View()))
        decreases Killed(View().pcbs)
      {
        var found := TakeNext();
        if !found {
          return Fail(AllQueuesEmpty);
        }
        ghost var s1 := View();
        var c := current;
        var pcb := Load(c);
        if pcb.state == READY {
          Store(c, pcb.(state := RUNNING));
          return Pass;
        }
        if pcb.state != KILLED {
          return Fail(NonReady);
        }
        :- Zombify(c);
        ZombifyClearsKill(s1);
      }
    }

    method SetCurrent(c: Slot)
      requires Valid()
      modifies Repr
      ensures Valid() && View() == old(View()).(current := c) && current == c
    {
      current := c;
    }

    // ---- interrupts ----

    /** The wake-up loop of `_isr_clock`. */
    method WakeAll() returns (out: Outcome)
      requires Valid()
      modifies Repr
      ensures Took(out, KS.WakeAll(old(View())))
    {
      hide Valid, KS.Schedule, Find;
      var stat, p := RemoveByKey(SLEEP, time);
      while stat == Success
        invariant Valid()
        invariant if stat == Success then
                    var r := KS.Schedule(View(), p, 0);
                    KS.WakeAll(old(View())) == if r.Ok? then KS.WakeAll(r.s) else r
                  else KS.WakeAll(old(View())) == Ok(View())
        decreases |View().qs[SLEEP]|, stat == Success
      {
        ScheduleKeepsSleepers(View(), p);
        :- Schedule(p, 0);
        stat, p := RemoveByKey(SLEEP, time);
      }
      out := Pass;
    }

    /** `_isr_clock`; `word` is on the interrupted process's stack where a trap's first argument would be. */
    method Clock(word: U32) returns (out: Outcome)
      requires Valid()
      modifies Repr
      ensures Took(out, KS.Clock(old(View()), word))
    {
      hide Valid, KS.Schedule, KS.WakeAll, KS.Dispatch;
      var me := Load(current);
      Store(current, me.(user := me.user.(arg := word)));
      SetTime(Wrap(time + 1));
      :- WakeAll();
      me := Load(current);
      :- Schedule(current, me.prio);
      :- Dispatch();
      out := Pass;
    }

    method SetTime(t: U32)
      requires Valid()
      modifies Repr
      ensures Valid() && View() == old(View()).(time := t)
    {
      time := t;
    }

    method TakePid() returns (pid: U32)
      requires Valid()
      modifies Repr
      ensures Valid() && pid == old(nextPid) && View() == old(View()).(nextPid := Wrap(pid + 1))
    {
      pid := nextPid;
      nextPid := Wrap(nextPid + 1);
    }

    /** The RX event of `_isr_sio`. */
    method Receive(raw: Byte) returns (out: Outcome)
      requires Valid()
      modifies Repr
      ensures Took(out, KS.Receive(old(View()), raw))
    {
      hide Valid, KS.Schedule;
      var ch := raw;
      if ch == CR {
        ch := LF;
      }
      var stat, p := Remove(READING);
      if stat == Success {
        var pcb := Load(p);
        Store(p, pcb.(user := pcb.user.(eax := ch)));
        :- Schedule(p, pcb.prio);
      } else {
        var ok := Buffer(ch);
        if !ok {
          return Fail(InputOverrun);
        }
      }
      out := Pass;
    }

    method Buffer(ch: Byte) returns (ok: bool)
      requires Valid()
      modifies Repr
      ensures Valid()
      ensures var s := old(View());
              && ok == (BUF_SIZE <= |s.inp.pending| || s.inp.last != BUF_SIZE)
              && View() == if BUF_SIZE <= |s.inp.pending| || !ok then s
                 else s.(inp := InBuf(s.inp.pending + [ch], s.inp.last + 1))
    {
      ok := line.Store(ch);
    }

    /** The TX event of `_isr_sio`. */
    method Transmit()
      requires Valid()
      modifies Repr
      ensures Valid() && View() == KS.Transmit(old(View()))
    {
      line.Transmit();
    }

    // ---- syscall.c ----

    method Return(eax: int)
      requires Valid()
      modifies Repr
      ensures Valid() && View() == KS.Return(old(View()), old(current), eax)
    {
      hide Valid;
      var me := Load(current);
      Store(current, me.(user := me.user.(eax := eax)));
    }

    method Sleep(ticks: U32) returns (out: Outcome)
      requires Valid()
      modifies Repr
      ensures Took(out, KS.Sleep(old(View()), ticks))
    {
      hide Valid, KS.Dispatch, KS.Insert;
      var key := Wrap(time + ticks);
      var me := Load(current);
      Store(current, me.(sleeptime := time, state := SLEEPING));
      var stat := Insert(SLEEP, current, key);
      if stat != Success {
        Return(0);
        return Pass;
      }
      out := Dispatch();
    }

    method Fork() returns (out: Outcome)
      requires Valid()
      modifies Repr
      ensures Took(out, KS.Fork(old(View())))
    {
      hide Valid, KS.Launch;
      var stat, p := Remove(PCBS);
      if stat != Success {
        Return(-1);
        return Pass;
      }
      var k;
      stat, k := Remove(STACKS);
      if stat != Success {
        Store(p, ZeroPcb);
        stat := Append(PCBS, p, 0);
        if stat != Success {
          return Fail(ForkFreePcb);
        }
        Return(-1);
        return Pass;
      }
      out := Launch(p, k);
    }

    /** kernel/syscall.c:201-278 */
    method Launch(p: Slot, k: Slot) returns (out: Outcome)
      requires Valid()
      modifies Repr
      ensures Took(out, KS.Launch(old(View()), p, k))
    {
      hide Valid, KS.Schedule;
      var me := Load(current);
      var pid := TakePid();
      Store(p, Child(me, k, pid));
      Return(pid);
      out := Schedule(p, me.prio);
    }

    method Exec(prio: U32) returns (out: Outcome)
      requires Valid()
      modifies Repr
      ensures Took(out, KS.Exec(old(View()), prio))
    {
      hide Valid, KS.Schedule, KS.Dispatch;
      var me := Load(current);
      Store(current, me.(prio := prio % 256, user := User(0, 0, me.user.infoPid, me.user.infoStatus)));
      :- Schedule(current, prio % 256);
      out := Dispatch();
    }

    method ReadC() returns (out: Outcome)
      requires Valid()
      modifies Repr
      ensures Took(out, KS.ReadC(old(View())))
    {
      hide Valid, KS.Dispatch;
      var ch := NextChar();
      if ch >= 0 {
        Return(ch);
        return Pass;
      }
      var me := Load(current);
      Store(current, me.(status := STATUS_BLOCKED));
      var stat := Insert(READING, current, me.pid);
      if stat != Success {
        return Fail(ReadInsert);
      }
      out := Dispatch();
    }

    method NextChar() returns (ch: int)
      requires Valid()
      modifies Repr
      ensures Valid()
      ensures var s := old(View());
              if s.inp.pending == [] then ch == -1 && View() == s
              else ch == s.inp.pending[0] && View() == s.(inp := ReadChar(s.inp))
    {
      ch := line.ReadC();
    }

    /** `_sio_writec`: an LF is preceded by a CR. */
    method WriteChar(ch: U32) returns (out: Outcome)
      requires Valid()
      modifies Repr
      ensures Took(out, KS.WriteChar(old(View()), ch))
    {
      hide Valid, KS.WriteByte;
      if ch == LF {
        :- WriteByte(CR);
      }
      out := WriteByte(ch % 256);
    }

    method WriteByte(b: Byte) returns (out: Outcome)
      requires Valid()
      modifies Repr
      ensures Took(out, KS.WriteByte(old(View()), b))
    {
      var ok := line.WriteByte(b);
      out := if ok then Pass else Fail(OutputOverrun);
    }

    method WriteC(ch: U32) returns (out: Outcome)
      requires Valid()
      modifies Repr
      ensures Took(out, KS.WriteC(old(View()), ch))
    {
      hide Valid, KS.WriteChar;
      :- WriteChar(ch);
      Return(0);
      out := Pass;
    }

    method Kill(pid: U32) returns (out: Outcome)
      requires Valid()
      modifies Repr
      ensures Took(out, KS.Kill(old(View()), pid))
    {
      hide Valid, KS.Schedule, KS.Dispatch;
      var p := FindPcb(pid);
      if p == N_PCBS {
        Return(E_NOT_FOUND);
        return Pass;
      }
      var pcb := Load(p);
      Store(p, pcb.(state := KILLED));
      if p == current {
        :- Schedule(p, pcb.prio);
        :- Dispatch();
      }
      out := Pass;
    }

    /** The search of `_sys_wait` for a child, when any will do (kernel/syscall.c:493-510). */
    method FindChild(pid: U32) returns (t: Slot)
      requires Valid()
      ensures var z := ZombieChild(View().pcbs, pid, 0); t == if z < N_PCBS then z else N_PCBS - 1
    {
      var i := 0;
      t := 0;
      while i < N_PCBS
        invariant i <= N_PCBS && ZombieChild(View().pcbs, pid, 0) == ZombieChild(View().pcbs, pid, i)
        invariant i == N_PCBS ==> t == N_PCBS - 1
      {
        t := i;
        if pcbs[t].ppid == pid {
          if pcbs[t].state == ZOMBIE {
            break;
          }
        }
        i := i + 1;
      }
    }

    method Wait() returns (out: Outcome)
      requires Valid()
      modifies Repr
      ensures Took(out, KS.Wait(old(View())))
    {
      hide Valid, KS.Reap, KS.Dispatch, PcbFind, ZombieChild;
      var me := Load(current);
      if me.user.arg == 0 {
        Return(E_BAD_PARAM);
        return Pass;
      }
      var t: nat;
      if me.user.infoPid > 0 {
        t := FindPcb(me.user.infoPid);
        if t == N_PCBS {
          Store(current, me.(user := me.user.(infoStatus := E_NOT_FOUND)));
          return Pass;
        }
      } else {
        t := FindChild(me.pid);
      }
      var target := Load(t);
      if target.state == ZOMBIE {
        out := Reap(t);
        return;
      }
      Store(current, me.(state := WAITING));
      var stat := Insert(WAITERS, current, me.pid);
      if stat != Success {
        return Fail(WaitInsert);
      }
      out := Dispatch();
    }

    /** kernel/syscall.c:548-575 */
    method Reap(z: Slot) returns (out: Outcome)
      requires Valid()
      modifies Repr
      ensures Took(out, KS.Reap(old(View()), z))
    {
      hide Valid, KS.Release;
      var me := Load(current);
      var zombie := Load(z);
      Store(current, me.(user := me.user.(infoPid := zombie.pid, infoStatus := zombie.status)));
      var stat, p := RemoveByKey(ZOMBIES, zombie.pid);
      if stat != Success {
        return Fail(ZombieNotOnQueue);
      }
      out := Release(p);
    }

    method Exit() returns (out: Outcome)
      requires Valid()
      modifies Repr
      ensures Took(out, KS.Exit(old(View())))
    {
      hide Valid, KS.Zombify, KS.Dispatch;
      Reparent();
      :- Zombify(current);
      out := Dispatch();
    }

    /** The loop of `_sys_exit` over the PCB table. */
    method Reparent()
      requires Valid()
      modifies Repr
      ensures Valid()
      ensures View() == old(View()).(pcbs := KS.Reparent(old(View()).pcbs, old(View()).pcbs[old(current)].pid))
    {
      hide Valid;
      ghost var s := View();
      var me := Load(current);
      for p := 0 to N_PCBS
        invariant Valid() && current == s.current
        invariant View() == s.(pcbs := View().pcbs)
        invariant forall x :: 0 <= x < N_PCBS ==>
                    View().pcbs[x] == if x < p && s.pcbs[x].ppid == me.pid then s.pcbs[x].(ppid := PID_INIT)
                      else s.pcbs[x]
      {
        var pcb := Load(p);
        if pcb.ppid == me.pid {
          Store(p, pcb.(ppid := PID_INIT));
        }
      }
      assert View().pcbs == KS.Reparent(s.pcbs, me.pid);
    }

    /** `_isr_syscall`: the code in EAX picks the handler, and any other code forces an exit. */
    method Syscall(code: int, arg1: U32, arg2: U32, infoPid: U32) returns (out: Outcome)
      requires Valid()
      modifies Repr
      ensures Took(out, KS.Step(old(View()), Event.Syscall(code, arg1, arg2, infoPid)))
    {
      hide Valid, KS.Exit, KS.Fork, KS.Exec, KS.Wait, KS.Kill, KS.Sleep, KS.ReadC, KS.WriteC;
      var me := Load(current);
      Store(current, me.(user := User(code, arg1, infoPid, me.user.infoStatus)));
      out := Pass;
      match Decode(code) {
        case CExit => out := Exit();
        case CFork => out := Fork();
        case CExec => out := Exec(arg1);
        case CWait => out := Wait();
        case CKill => out := Kill(arg1);
        case CSleep => out := Sleep(arg1);
        case CReadc => out := ReadC();
        case CWritec => out := WriteC(arg1);
        case CReads => Return(E_UNIMPLEMENTED);
        case CWrites => Return(E_UNIMPLEMENTED);
        case CGetpid => Return(me.pid);
        case CGetppid => Return(me.ppid);
        case CGetprio => Return(me.prio);
        case CGettime => Return(time);
        case CSetprio =>
          Return(me.prio);
          me := Load(current);
          Store(current, me.(prio := arg1 % 256));
        case CSettime =>
          Return(time);
          SetTime(arg1);
      }
    }

    /** One interrupt or trap. */
    method Handle(ev: Event) returns (out: Outcome)
      requires Valid()
      modifies Repr
      ensures Took(out, KS.Step(old(View()), ev))
    {
      hide Valid, KS.Clock, KS.Receive, KS.Transmit, KS.Perform, View;
      match ev {
        case Tick(word) => out := Clock(word);
        case Rx(ch) => out := Receive(ch);
        case Tx =>
          Transmit();
          out := Pass;
        case Syscall(code, arg1, arg2, infoPid) => out := Syscall(code, arg1, arg2, infoPid);
      }
    }

    /** A whole run of them: what is proved of KernelSpec's runs holds of this machine. */
    method HandleAll(evs: seq<Event>) returns (out: Outcome)
      requires Valid()
      modifies Repr
      ensures Took(out, KS.Run(old(View()), evs))
    {
      hide Valid, View, KS.Step;
      var i := 0;
      while i < |evs|
        invariant i <= |evs| && Valid() && KS.Run(View(), evs[i..]) == KS.Run(old(View()), evs)
      {
        assert evs[i..][1..] == evs[i + 1..];
        :- Handle(evs[i]);
        i := i + 1;
      }
      out := Pass;
    }
  }
}
