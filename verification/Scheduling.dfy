/** Which process a dispatch picks. */
module Scheduling {
  import opened Defs
  import opened QueueSpec
  import opened KernelSpec
  import opened Placement
  import opened Safety
  import opened Families

  /** The ready processes in the order the queues offer them: by urgency, then first in first out. */
  function ReadyFrom(t: Table, q: nat): (l: seq<Slot>)
    requires q <= N_PRIORITIES
    decreases N_PRIORITIES - q
  {
    if q == N_PRIORITIES then [] else Data(t[q]) + ReadyFrom(t, q + 1)
  }

  function ReadyList(t: Table): seq<Slot> {
    ReadyFrom(t, 0)
  }

  /** A KILLED process whose parent is there and waiting for it: a dispatch that passes over it wakes the parent. */
  predicate WakesParent(pcbs: Pcbs, c: Slot) {
    var parent := PcbFind(pcbs, pcbs[c].ppid, 0);
    pcbs[c].state == KILLED && parent < N_PCBS && Wants(pcbs[parent], pcbs[c].pid)
  }

  function FirstReadyOn(l: seq<Slot>, pcbs: Pcbs): (r: nat)
    ensures r <= |l| && (r < |l| ==> pcbs[l[r]].state == READY)
    ensures forall i :: 0 <= i < r ==> pcbs[l[i]].state != READY
  {
    if l == [] || pcbs[l[0]].state == READY then 0 else 1 + FirstReadyOn(l[1..], pcbs)
  }

  function FirstWaker(l: seq<Slot>, pcbs: Pcbs): (j: nat)
    ensures j <= |l|
  {
    if l == [] || WakesParent(pcbs, l[0]) then 0 else 1 + FirstWaker(l[1..], pcbs)
  }

  lemma ParentThere(pcbs: Pcbs, c: Slot)
    requires WakesParent(pcbs, c)
    ensures PcbFind(pcbs, pcbs[c].ppid, 0) < N_PCBS
  {
  }

  lemma {:induction false} FirstWakerLeast(l: seq<Slot>, pcbs: Pcbs)
    ensures var j := FirstWaker(l, pcbs);
            && (j < |l| ==> WakesParent(pcbs, l[j]))
            && forall i :: 0 <= i < j ==> !WakesParent(pcbs, l[i])
  {
    hide WakesParent;
    if l != [] && !WakesParent(pcbs, l[0]) {
      FirstWakerLeast(l[1..], pcbs);
      assert forall i :: 0 < i < |l| ==> l[i] == l[1..][i - 1];
    }
  }

  function Max(a: nat, b: nat): nat { if a < b then b else a }

  /** The process a dispatch picks and how many KILLED ones it passes over, going by the ready list `l`, whose
      first `urgent` entries are the most urgent queue, and the PCBs as they are before the dispatch.  A parent
      woken on the way goes behind the most urgent queue and ahead of the others. */
  function Pick(l: seq<Slot>, pcbs: Pcbs, urgent: nat): Option<(Slot, nat)> {
    var r, j := FirstReadyOn(l, pcbs), FirstWaker(l, pcbs);
    if r < |l| && (r < urgent || r < j) then Some((l[r], r))
    else if j < |l| && PcbFind(pcbs, pcbs[l[j]].ppid, 0) < N_PCBS then
      Some((PcbFind(pcbs, pcbs[l[j]].ppid, 0), Max(urgent, j + 1)))
    else None
  }

  function PickFrom(s: State): Option<(Slot, nat)> {
    Pick(ReadyList(s.qs), s.pcbs, |s.qs[0]|)
  }

  /** Said with indices alone: whatever `r` is the least index of a READY process and `j` the least index of a
      KILLED one that wakes its parent, they fix the process picked and the number passed over. */
  lemma PickMeans(l: seq<Slot>, pcbs: Pcbs, urgent: nat, r: nat, j: nat)
    requires r <= |l| && (r < |l| ==> pcbs[l[r]].state == READY) && forall i :: 0 <= i < r ==> pcbs[l[i]].state != READY
    requires j <= |l| && (j < |l| ==> WakesParent(pcbs, l[j])) && forall i :: 0 <= i < j ==> !WakesParent(pcbs, l[i])
    ensures r < |l| && (r < urgent || r < j) ==> Pick(l, pcbs, urgent) == Some((l[r], r))
    ensures !(r < |l| && (r < urgent || r < j)) && j < |l| ==>
              Pick(l, pcbs, urgent) == Some((PcbFind(pcbs, pcbs[l[j]].ppid, 0), Max(urgent, j + 1)))
    ensures r == |l| && j == |l| ==> Pick(l, pcbs, urgent) == None
  {
    hide WakesParent, PcbFind;
    FirstWakerLeast(l, pcbs);
    if j < |l| {
      ParentThere(pcbs, l[j]);
    }
    var r0, j0 := FirstReadyOn(l, pcbs), FirstWaker(l, pcbs);
    assert r == r0 && j == j0;
  }

  lemma {:induction false} ReadyFromSame(t: Table, t': Table, q: nat)
    requires q <= N_PRIORITIES && forall j :: q <= j < N_PRIORITIES ==> t'[j] == t[j]
    ensures ReadyFrom(t', q) == ReadyFrom(t, q)
    decreases N_PRIORITIES - q
  {
    if q < N_PRIORITIES {
      ReadyFromSame(t, t', q + 1);
    }
  }

  /** Taking the head off the most urgent non-empty queue takes the head off the ready list. */
  lemma {:induction false} PopFrom(t: Table, q: nat, i: nat)
    requires q <= i < N_PRIORITIES && t[i] != [] && forall j :: q <= j < i ==> t[j] == []
    ensures ReadyFrom(t, q) == [t[i][0].data] + ReadyFrom(t[i := t[i][1..]], q)
    decreases i - q
  {
    hide Data;
    var t': Table := t[i := t[i][1..]];
    if q < i {
      PopFrom(t, q + 1, i);
      EmptyData(t[q]);
    } else {
      ReadyFromSame(t, t', i + 1);
      HeadData(t[i]);
    }
  }

  lemma EmptyData(c: seq<Entry>)
    requires c == []
    ensures Data(c) == []
  {
  }

  lemma HeadData(c: seq<Entry>)
    requires c != []
    ensures Data(c) == [c[0].data] + Data(c[1..])
  {
  }

  /** A process woken with the most urgent priority goes behind that queue and ahead of the others. */
  lemma PushUrgent(t: Table, t': Table, p: Slot)
    requires t'[0] == t[0] + [Entry(0, p)] && forall q :: 0 < q < N_PRIORITIES ==> t'[q] == t[q]
    ensures |t[0]| <= |ReadyList(t)|
    ensures ReadyList(t') == ReadyList(t)[..|t[0]|] + [p] + ReadyList(t)[|t[0]|..]
  {
    ReadyFromSame(t, t', 1);
    assert Data(t'[0]) == Data(t[0]) + [p];
    assert ReadyList(t)[..|t[0]|] == Data(t[0]);
    assert ReadyList(t)[|t[0]|..] == ReadyFrom(t, 1);
  }

  lemma {:induction false} ReadyMember(t: Table, q: nat, j: nat) returns (i: nat, x: nat)
    requires q <= N_PRIORITIES && j < |ReadyFrom(t, q)|
    ensures q <= i < N_PRIORITIES && x < |t[i]| && t[i][x].data == ReadyFrom(t, q)[j]
    decreases N_PRIORITIES - q
  {
    if j < |t[q]| {
      i, x := q, j;
      assert Data(t[q])[j] == t[q][j].data;
    } else {
      i, x := ReadyMember(t, q + 1, j - |t[q]|);
    }
  }

  /** Every process on the ready list is READY or KILLED, and none is held. */
  lemma ReadyOnes(t: Table, pcbs: Pcbs, held: multiset<Slot>)
    requires Core(t, pcbs, held)
    ensures forall p :: p in ReadyList(t) ==> p !in held && (pcbs[p].state == READY || pcbs[p].state == KILLED)
  {
    forall p | p in ReadyList(t)
      ensures p !in held && (pcbs[p].state == READY || pcbs[p].state == KILLED)
    {
      var j :| 0 <= j < |ReadyList(t)| && ReadyList(t)[j] == p;
      var i, x := ReadyMember(t, 0, j);
      assert Fits(pcbs[p], i, t[i][x].key);
      if p in held {
        HeldApart(t, held, p);
      }
    }
  }

  /** A search depends only on the PIDs and on which PCBs are FREE. */
  lemma {:induction false} SameFind(a: Pcbs, b: Pcbs, pid: U32, i: nat)
    requires i <= N_PCBS
    requires forall p :: 0 <= p < N_PCBS ==> b[p].pid == a[p].pid && (b[p].state == FREE <==> a[p].state == FREE)
    ensures PcbFind(b, pid, i) == PcbFind(a, pid, i)
    decreases N_PCBS - i
  {
    if i < N_PCBS {
      SameFind(a, b, pid, i + 1);
    }
  }

  /** The PCBs once the KILLED process `c` has become a zombie: everybody else's parent is found as before, and
      wants what it wanted. */
  lemma SameWakes(a: Pcbs, b: Pcbs, c: Slot, x: Slot)
    requires a[c].state == KILLED && b == a[c := a[c].(state := ZOMBIE)] && x != c
    ensures PcbFind(b, b[x].ppid, 0) == PcbFind(a, a[x].ppid, 0) && WakesParent(b, x) == WakesParent(a, x)
  {
    hide PcbFind;
    SameFind(a, b, a[x].ppid, 0);
  }

  lemma {:induction false} SameFirsts(l: seq<Slot>, a: Pcbs, b: Pcbs, c: Slot)
    requires a[c].state == KILLED && b == a[c := a[c].(state := ZOMBIE)] && c !in l
    ensures FirstReadyOn(l, b) == FirstReadyOn(l, a) && FirstWaker(l, b) == FirstWaker(l, a)
  {
    hide WakesParent, PcbFind;
    if l != [] {
      SameWakes(a, b, c, l[0]);
      SameFirsts(l[1..], a, b, c);
    }
  }

  lemma FirstsCons(c: Slot, l: seq<Slot>, pcbs: Pcbs)
    requires pcbs[c].state == KILLED
    ensures FirstReadyOn([c] + l, pcbs) == 1 + FirstReadyOn(l, pcbs)
    ensures FirstWaker([c] + l, pcbs) == if WakesParent(pcbs, c) then 0 else 1 + FirstWaker(l, pcbs)
  {
    hide WakesParent;
    assert ([c] + l)[1..] == l;
  }

  /** Passing over a KILLED head whose parent does not want it. */
  lemma PassOver(l: seq<Slot>, a: Pcbs, b: Pcbs, urgent: nat, c: Slot)
    requires a[c].state == KILLED && b == a[c := a[c].(state := ZOMBIE)] && c !in l && !WakesParent(a, c)
    ensures var rest := Pick(l, b, if urgent == 0 then 0 else urgent - 1);
            Pick([c] + l, a, urgent) == if rest.None? then None else Some((rest.value.0, rest.value.1 + 1))
  {
    hide WakesParent, FirstReadyOn, FirstWaker, PcbFind;
    SameFirsts(l, a, b, c);
    FirstsCons(c, l, a);
    if FirstWaker(l, a) < |l| {
      SameWakes(a, b, c, l[FirstWaker(l, a)]);
    }
  }

  /** Passing over a KILLED head whose parent `w` it wakes: `w` goes behind the `m` most urgent processes. */
  lemma PassAndWake(l: seq<Slot>, m: nat, a: Pcbs, b: Pcbs, urgent: nat, c: Slot, w: Slot)
    requires m <= |l| && m == (if urgent == 0 then 0 else urgent - 1) && c !in l && w !in l
    requires WakesParent(a, c) && w == PcbFind(a, a[c].ppid, 0) && b[w].state == READY
    requires forall p :: 0 <= p < N_PCBS && p != c && p != w ==> b[p] == a[p]
    ensures var rest := Pick(l[..m] + [w] + l[m..], b, m + 1);
            && rest.Some? && rest.value.1 <= m
            && Pick([c] + l, a, urgent) == Some((rest.value.0, rest.value.1 + 1))
  {
    hide WakesParent, FirstReadyOn, FirstWaker, PcbFind;
    WakerKilled(a, c);
    FirstsCons(c, l, a);
    ReadyBehind(l, m, a, b, c, w);
    PickBehind(l, m, b, w, FirstReadyOn(l, a));
    PickFirst([c] + l, a, urgent, w);
  }

  lemma WakerKilled(pcbs: Pcbs, c: Slot)
    requires WakesParent(pcbs, c)
    ensures pcbs[c].state == KILLED
  {
  }

  /** With `w` behind the first `m`, the first READY process is picked. */
  lemma PickBehind(l: seq<Slot>, m: nat, b: Pcbs, w: Slot, r: nat)
    requires m <= |l| && FirstReadyOn(l[..m] + [w] + l[m..], b) == (if r < m then r else m)
    requires r < m ==> (l[..m] + [w] + l[m..])[r] == l[r]
    ensures Pick(l[..m] + [w] + l[m..], b, m + 1) == Some(if r < m then (l[r], r) else (w, m))
  {
    hide WakesParent, FirstReadyOn, FirstWaker, PcbFind;
  }

  /** With a waker first, the process picked is among the most urgent, or the one woken. */
  lemma PickFirst(l: seq<Slot>, a: Pcbs, urgent: nat, w: Slot)
    requires l != [] && FirstWaker(l, a) == 0 && w == PcbFind(a, a[l[0]].ppid, 0) && w < N_PCBS
    ensures var r := FirstReadyOn(l, a);
            Pick(l, a, urgent) == Some(if r < |l| && r < urgent then (l[r], r) else (w, Max(urgent, 1)))
  {
    hide WakesParent, FirstReadyOn, FirstWaker, PcbFind;
  }

  /** The first READY process once `w` is in: `w`, unless there is one among the first `m`. */
  lemma ReadyBehind(l: seq<Slot>, m: nat, a: Pcbs, b: Pcbs, c: Slot, w: Slot)
    requires m <= |l| && c !in l && w !in l && b[w].state == READY
    requires forall p :: 0 <= p < N_PCBS && p != c && p != w ==> b[p] == a[p]
    ensures var l2, r := l[..m] + [w] + l[m..], FirstReadyOn(l, a);
            FirstReadyOn(l2, b) == (if r < m then r else m) && (r < m ==> l2[r] == l[r]) && l2[m] == w
  {
    hide FirstReadyOn;
    var l2 := l[..m] + [w] + l[m..];
    assert forall i :: 0 <= i < m ==> l2[i] == l[i] && l[i] in l;
    assert l2[m] == w;
    var r, r2 := FirstReadyOn(l, a), FirstReadyOn(l2, b);
    assert r2 <= m;
    assert r < m ==> a[l[r]].state == READY && b[l2[r]].state == READY;
    assert r2 < m ==> b[l2[r2]].state == READY && a[l[r2]].state == READY;
  }

  lemma ZombieQueues(s: State)
    requires var parent := PcbFind(s.pcbs, s.pcbs[s.current].ppid, 0);
             parent < N_PCBS && !Wants(s.pcbs[parent], s.pcbs[s.current].pid)
    ensures var r := Zombify(s, s.current); r.Ok? ==> forall q :: 0 <= q < N_PRIORITIES ==> r.s.qs[q] == s.qs[q]
  {
  }

  lemma ZombieMade(s: State)
    requires var parent := PcbFind(s.pcbs, s.pcbs[s.current].ppid, 0);
             parent < N_PCBS && !Wants(s.pcbs[parent], s.pcbs[s.current].pid)
    ensures var r := Zombify(s, s.current);
            r.Ok? ==> r.s.pcbs == s.pcbs[s.current := s.pcbs[s.current].(state := ZOMBIE)]
  {
    hide PcbFind;
  }

  lemma ZombifyDelivers(s: State)
    requires var parent := PcbFind(s.pcbs, s.pcbs[s.current].ppid, 0);
             parent < N_PCBS && Wants(s.pcbs[parent], s.pcbs[s.current].pid)
    ensures Zombify(s, s.current) == Deliver(s, s.current, PcbFind(s.pcbs, s.pcbs[s.current].ppid, 0))
  {
  }

  /** What one round of the dispatch loop does to the pick when the process it takes is KILLED. */
  lemma KilledRound(s: State)
    requires Pids(s.pcbs) && FirstReady(s.qs, 0) < N_PRIORITIES
    requires var s1 := Popped(s);
             && s.pcbs[s1.current].state == KILLED && Core(s1.qs, s1.pcbs, multiset{s1.current})
             && Zombify(s1, s1.current).Ok?
    ensures var rest := PickFrom(Zombify(Popped(s), Popped(s).current).s);
            PickFrom(s) == if rest.None? then None else Some((rest.value.0, rest.value.1 + 1))
  {
    hide Pick, ReadyFrom, FirstReady, Core, PcbFind, Pids, Zombify, Deliver;
    var s1 := Popped(s);
    var c, s2 := s1.current, Zombify(s1, s1.current).s;
    var l, parent := ReadyList(s1.qs), PcbFind(s1.pcbs, s1.pcbs[c].ppid, 0);
    PopFrom(s.qs, 0, FirstReady(s.qs, 0));
    UrgentPopped(s);
    ReadyOnes(s1.qs, s1.pcbs, multiset{c});
    ZombifyTable(s1);
    if Wants(s1.pcbs[parent], s1.pcbs[c].pid) {
      ZombifyDelivers(s1);
      DeliverTable(s1, parent);
      PushUrgent(s1.qs, s2.qs, parent);
      PassAndWake(l, |s1.qs[0]|, s.pcbs, s2.pcbs, |s.qs[0]|, c, parent);
    } else {
      ZombieQueues(s1);
      ReadyFromSame(s1.qs, s2.qs, 0);
      PassOver(l, s.pcbs, s2.pcbs, |s.qs[0]|, c);
    }
  }

  lemma UrgentPopped(s: State)
    requires FirstReady(s.qs, 0) < N_PRIORITIES
    ensures |Popped(s).qs[0]| == if s.qs[0] == [] then 0 else |s.qs[0]| - 1
  {
  }

  /** How many KILLED processes a dispatch takes off the queues before it finds one to run, or stops. */
  ghost function PassedOver(s: State): nat
    decreases Killed(s.pcbs)
  {
    if FirstReady(s.qs, 0) == N_PRIORITIES || s.pcbs[Popped(s).current].state != KILLED then 0
    else
      match Zombify(Popped(s), Popped(s).current)
      case Halt(_) => 0
      case Ok(s2) => ZombifyClearsKill(Popped(s)); 1 + PassedOver(s2)
  }

  /** A dispatch picks exactly the process that Pick says, after passing over exactly as many. */
  lemma {:induction false} DispatchPicks(s: State)
    requires AllQueued(s) && Pids(s.pcbs) && Dispatch(s).Ok?
    ensures PickFrom(s) == Some((Dispatch(s).s.current, PassedOver(s)))
    decreases Killed(s.pcbs)
  {
    hide Core, Zombify, FirstReady, ReadyFrom, Pick, Pids;
    var s1 := Popped(s);
    Pops(s);
    PopFrom(s.qs, 0, FirstReady(s.qs, 0));
    if s.pcbs[s1.current].state == READY {
      HeadReady(s);
    } else {
      PopsKilled(s);
      DispatchPicks(Zombify(s1, s1.current).s);
      KilledRound(s);
    }
  }

  lemma HeadReady(s: State)
    requires ReadyList(s.qs) != [] && s.pcbs[ReadyList(s.qs)[0]].state == READY
    ensures PickFrom(s) == Some((ReadyList(s.qs)[0], 0))
  {
  }

  lemma {:induction false} ReadyFromHas(t: Table, q: nat, i: nat, x: nat)
    requires q <= i < N_PRIORITIES && x < |t[i]|
    ensures t[i][x].data in ReadyFrom(t, q)
    decreases i - q
  {
    if q < i {
      ReadyFromHas(t, q + 1, i, x);
    } else {
      assert Data(t[i])[x] == t[i][x].data;
    }
  }

  /** A READY process that no handler holds is on a ready queue: there is no other place for it. */
  lemma ReadyIsListed(s: State, held: multiset<Slot>, p: Slot)
    requires Core(s.qs, s.pcbs, held) && p !in held && s.pcbs[p].state == READY
    ensures p in ReadyList(s.qs)
  {
    var q, i := Somewhere(s.qs, s.pcbs, held, p);
    assert Fits(s.pcbs[p], q, s.qs[q][i].key);
    ReadyFromHas(s.qs, 0, q, i);
  }

  /** Whoever else ends, a READY process stays READY, and keeps its place in the most urgent queue. */
  lemma ZombifyLeaves(s: State, p: Slot)
    requires p != s.current && s.pcbs[p].state == READY && Zombify(s, s.current).Ok?
    ensures var r := Zombify(s, s.current).s; r.pcbs[p].state == READY && s.qs[0] <= r.qs[0]
  {
    hide KeyIndex, Full;
  }

  /** With a process on the ready list some queue is not empty. */
  lemma SomeReady(t: Table, p: Slot)
    requires p in ReadyList(t)
    ensures FirstReady(t, 0) < N_PRIORITIES
  {
    var j :| 0 <= j < |ReadyList(t)| && ReadyList(t)[j] == p;
    var q, x := ReadyMember(t, 0, j);
  }

  /** While a process is READY a dispatch does not run out of processes; and that one then runs or is READY still. */
  lemma {:induction false} DispatchFinds(s: State, p: Slot)
    requires AllQueued(s) && s.pcbs[p].state == READY
    ensures match Dispatch(s)
            case Ok(s') => s'.current == p || s'.pcbs[p].state == READY
            case Halt(why) => why == NoParent
    decreases Killed(s.pcbs)
  {
    hide Core, Zombify, FirstReady, ReadyFrom, PcbFind;
    ReadyIsListed(s, multiset{}, p);
    SomeReady(s.qs, p);
    var s1 := Popped(s);
    Pops(s);
    if s.pcbs[s1.current].state == KILLED {
      Zombifies(s1);
      if Zombify(s1, s1.current).Ok? {
        ZombifyLeaves(s1, p);
        ZombifyClearsKill(s1);
        DispatchFinds(Zombify(s1, s1.current).s, p);
      }
    }
  }

  // ---- when there is nothing to dispatch ----

  /** A KILLED process that a dispatch turns into a zombie, waking nobody. */
  predicate Fruitless(pcbs: Pcbs, c: Slot) {
    pcbs[c].state == KILLED && PcbFind(pcbs, pcbs[c].ppid, 0) < N_PCBS && !WakesParent(pcbs, c)
  }

  ghost predicate AllFruitless(s: State) {
    forall i :: 0 <= i < |ReadyList(s.qs)| ==> Fruitless(s.pcbs, ReadyList(s.qs)[i])
  }

  lemma FruitlessRest(l: seq<Slot>, a: Pcbs, b: Pcbs, c: Slot)
    requires a[c].state == KILLED && b == a[c := a[c].(state := ZOMBIE)] && c !in l && Fruitless(a, c)
    ensures (forall i :: 0 <= i < |l| ==> Fruitless(b, l[i])) <==>
            (forall i :: 0 <= i < |[c] + l| ==> Fruitless(a, ([c] + l)[i]))
  {
    hide WakesParent, PcbFind, Fruitless;
    var l' := [c] + l;
    forall i | 0 <= i < |l|
      ensures l'[i + 1] == l[i] && Fruitless(b, l[i]) == Fruitless(a, l[i])
    {
      assert l[i] in l;
      SameFruitless(a, b, c, l[i]);
    }
    forall i | 0 <= i < |l'|
      ensures i > 0 ==> l'[i] == l[i - 1]
    {
    }
  }

  lemma SameFruitless(a: Pcbs, b: Pcbs, c: Slot, x: Slot)
    requires a[c].state == KILLED && b == a[c := a[c].(state := ZOMBIE)] && x != c
    ensures Fruitless(b, x) == Fruitless(a, x)
  {
    hide WakesParent, PcbFind;
    SameWakes(a, b, c, x);
  }

  /** One round that wakes nobody. */
  lemma FruitlessRound(s: State)
    requires FirstReady(s.qs, 0) < N_PRIORITIES
    requires var s1 := Popped(s);
             && Fruitless(s.pcbs, s1.current) && Core(s1.qs, s1.pcbs, multiset{s1.current})
             && Zombify(s1, s1.current).Ok?
    ensures AllFruitless(s) <==> AllFruitless(Zombify(Popped(s), Popped(s).current).s)
  {
    hide ReadyFrom, FirstReady, Core, PcbFind, Zombify;
    var s1 := Popped(s);
    var c, s2 := s1.current, Zombify(s1, s1.current).s;
    PopFrom(s.qs, 0, FirstReady(s.qs, 0));
    ReadyOnes(s1.qs, s1.pcbs, multiset{c});
    ZombieMade(s1);
    ZombieQueues(s1);
    ReadyFromSame(s1.qs, s2.qs, 0);
    assert ReadyList(s.qs) == [c] + ReadyList(s1.qs);
    assert ReadyList(s2.qs) == ReadyList(s1.qs);
    assert s2.pcbs == s.pcbs[c := s.pcbs[c].(state := ZOMBIE)];
    FruitlessRest(ReadyList(s1.qs), s.pcbs, s2.pcbs, c);
  }

  lemma {:induction false} NothingReady(t: Table, q: nat)
    requires q <= N_PRIORITIES && forall i :: q <= i < N_PRIORITIES ==> t[i] == []
    ensures ReadyFrom(t, q) == []
    decreases N_PRIORITIES - q
  {
    if q < N_PRIORITIES {
      NothingReady(t, q + 1);
      assert Data(t[q]) == [];
    }
  }

  /** Whoever is woken is there to be dispatched. */
  lemma WokenReady(s: State)
    requires AllQueued(s) && FirstReady(s.qs, 0) < N_PRIORITIES
    requires var s1 := Popped(s); WakesParent(s.pcbs, s1.current) && Zombify(s1, s1.current).Ok?
    ensures var s1 := Popped(s);
            var r := Dispatch(Zombify(s1, s1.current).s);
            r.Halt? ==> r.why == NoParent
  {
    hide Core, FirstReady, Dispatch, ReadyFrom, Zombify;
    var s1 := Popped(s);
    var parent := PcbFind(s1.pcbs, s1.pcbs[s1.current].ppid, 0);
    Pops(s);
    ZombifyDelivers(s1);
    var woken := DeliverMoves(s1, parent);
    DispatchFinds(Zombify(s1, s1.current).s, woken);
  }

  /** A dispatch stops with all queues empty exactly when every process on them is a KILLED one that finds its
      parent and wakes nobody. */
  lemma {:induction false} DispatchEmpties(s: State)
    requires AllQueued(s)
    ensures Dispatch(s) == Halt(AllQueuesEmpty) <==> AllFruitless(s)
    decreases Killed(s.pcbs)
  {
    hide Core, Zombify, FirstReady, ReadyFrom, WakesParent, AllFruitless, PcbFind;
    if FirstReady(s.qs, 0) == N_PRIORITIES {
      NothingReady(s.qs, 0);
      NoneFruitful(s);
    } else {
      var s1 := Popped(s);
      Pops(s);
      PopFrom(s.qs, 0, FirstReady(s.qs, 0));
      if AllFruitless(s) {
        FruitlessHead(s);
      }
      if s.pcbs[s1.current].state == KILLED {
        Zombifies(s1);
        ZombifyFinds(s1);
        if Zombify(s1, s1.current).Ok? {
          ZombifyClearsKill(s1);
          if WakesParent(s.pcbs, s1.current) {
            WokenReady(s);
          } else {
            FruitlessRound(s);
            DispatchEmpties(Zombify(s1, s1.current).s);
          }
        }
      }
    }
  }

  lemma NoneFruitful(s: State)
    requires ReadyList(s.qs) == []
    ensures AllFruitless(s)
  {
  }

  /** The process that a dispatch takes first is on the list. */
  lemma FruitlessHead(s: State)
    requires ReadyList(s.qs) != [] && AllFruitless(s)
    ensures Fruitless(s.pcbs, ReadyList(s.qs)[0])
  {
  }

  lemma ZombifyFinds(s: State)
    ensures PcbFind(s.pcbs, s.pcbs[s.current].ppid, 0) == N_PCBS ==> Zombify(s, s.current) == Halt(NoParent)
  {
  }

  /** A clock tick never finds all queues empty: the process it interrupts is there to be dispatched. */
  lemma ClockFinds(s: State, word: U32)
    requires Inv(s)
    ensures var r := Clock(s, word); r.Halt? ==> r.why == NoParent
  {
    hide Dispatch, WakeAll, Core;
    var s1 := Ticked(s, word);
    Rewrite(s.qs, s.pcbs, s1.pcbs, multiset{s.current});
    Wakes(s1);
    var s2 := WakeAll(s1).s;
    var c, prio := s2.current, s2.pcbs[s2.current].prio;
    Schedules(s2, multiset{c}, c, prio);
    assert multiset{c} - multiset{c} == multiset{};
    DispatchFinds(Schedule(s2, c, prio).s, c);
  }

  /** Killing oneself only yields the CPU: scheduling overwrites the mark. */
  lemma KillSelfYields(s: State, pid: U32)
    requires PcbFind(s.pcbs, pid, 0) == s.current
    ensures Kill(s, pid) == Preempt(s)
  {
    hide Dispatch;
    var c := s.current;
    assert SetState(SetState(s, c, KILLED), c, READY) == SetState(s, c, READY);
  }
}
