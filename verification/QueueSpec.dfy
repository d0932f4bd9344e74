/** What a queue holds, and what the queue operations do to it, as plain sequences. */
module QueueSpec {
  import opened Defs

  /** A queue node without its links.  `data` is the table slot that the `void *` points at. */
  datatype Entry = Entry(key: nat, data: Slot)

  datatype RemoveRule = IfEqual | IfLe

  /** The two routines that `_q_reset` installs; None is the NULL routine. */
  datatype Discipline = Discipline(ordered: bool, rule: Option<RemoveRule>)

  predicate Matches(rule: RemoveRule, nodeKey: nat, key: nat) {
    match rule
    case IfEqual => nodeKey == key
    case IfLe => nodeKey <= key
  }

  function InsertAt(c: seq<Entry>, pos: nat, e: Entry): seq<Entry>
    requires pos <= |c|
  {
    c[..pos] + [e] + c[pos..]
  }

  function RemoveAt(c: seq<Entry>, pos: nat): seq<Entry>
    requires pos < |c|
  {
    c[..pos] + c[pos + 1..]
  }

  /** Where a new entry goes: the first index at or after `i` whose key is larger. */
  function Position(c: seq<Entry>, key: nat, i: nat): (pos: nat)
    requires i <= |c|
    ensures i <= pos <= |c|
    ensures forall j :: i <= j < pos ==> c[j].key <= key
    ensures pos < |c| ==> key < c[pos].key
    decreases |c| - i
  {
    if i < |c| && c[i].key <= key then Position(c, key, i + 1) else i
  }

  /** The first index at or after `i` that the rule accepts, or `|c|`. */
  function Find(c: seq<Entry>, rule: RemoveRule, key: nat, i: nat): (pos: nat)
    requires i <= |c|
    ensures i <= pos <= |c|
    ensures forall j :: i <= j < pos ==> !Matches(rule, c[j].key, key)
    ensures pos < |c| ==> Matches(rule, c[pos].key, key)
    decreases |c| - i
  {
    if i < |c| && !Matches(rule, c[i].key, key) then Find(c, rule, key, i + 1) else i
  }

  /** Where `_q_insert` links a new node. */
  function InsertIndex(c: seq<Entry>, d: Discipline, key: nat): (pos: nat)
    ensures pos <= |c|
  {
    if d.ordered then Position(c, key, 0) else |c|
  }

  /** The index that `_q_remove_by_key` unlinks. */
  function KeyIndex(c: seq<Entry>, d: Discipline, key: nat): (pos: nat)
    ensures pos <= |c|
  {
    if d.rule.None? then 0 else Find(c, d.rule.value, key, 0)
  }

  /** The kernel's ten queues: the ready queues come first, so that a priority is its own index. */
  const N_PRIORITIES: nat := 4
  const SLEEP: nat := 4
  const READING: nat := 5
  const WAITERS: nat := 6
  const ZOMBIES: nat := 7
  const PCBS: nat := 8
  const STACKS: nat := 9
  const N_QUEUES: nat := 10

  /** The routines each queue is reset with (kernel/process.c:119-123, kernel/scheduler.c:139). */
  function DisciplineOf(q: nat): Discipline {
    if q == SLEEP then Discipline(true, Some(IfLe))
    else if READING <= q <= ZOMBIES then Discipline(true, Some(IfEqual))
    else Discipline(false, None)
  }

  /** Which entry a removal by key takes, queue by queue: of the sleepers the first that is due; of the readers, the
      waiting and the zombies the first with that very key; elsewhere the head.  And where an entry goes: sleepers,
      readers, waiting and zombies in the order of their keys, and elsewhere at the end. */
  lemma QueueRoutines(c: seq<Entry>, q: nat, key: nat)
    requires q < 10
    ensures var r := KeyIndex(c, DisciplineOf(q), key);
            && r <= |c|
            && (q == 4 ==> (forall j :: 0 <= j < r ==> key < c[j].key) && (r < |c| ==> c[r].key <= key))
            && (5 <= q <= 7 ==> (forall j :: 0 <= j < r ==> c[j].key != key) && (r < |c| ==> c[r].key == key))
            && (q < 4 || 8 <= q ==> r == 0)
    ensures var i := InsertIndex(c, DisciplineOf(q), key);
            && i <= |c|
            && (4 <= q <= 7 ==> (forall j :: 0 <= j < i ==> c[j].key <= key) && (i < |c| ==> key < c[i].key))
            && (q < 4 || 8 <= q ==> i == |c|)
  {
  }

  type Table = t: seq<seq<Entry>> | |t| == N_QUEUES witness [[], [], [], [], [], [], [], [], [], []]

  /** How many queue nodes the first `n` queues hold. */
  function NodesIn(t: seq<seq<Entry>>, n: nat): nat
    requires n <= |t|
  {
    if n == 0 then 0 else NodesIn(t, n - 1) + |t[n - 1]|
  }

  /** How many queue nodes are in use. */
  function Used(t: Table): nat {
    NodesIn(t, |t|)
  }

  predicate Full(t: Table) {
    N_QNODES <= Used(t)
  }

  lemma {:induction false} NodesInEmpty(t: seq<seq<Entry>>, n: nat)
    requires n <= |t| && forall q :: 0 <= q < n ==> t[q] == []
    ensures NodesIn(t, n) == 0
  {
    if n > 0 {
      NodesInEmpty(t, n - 1);
    }
  }

  lemma {:induction false} NodesInUpdate(t: seq<seq<Entry>>, q: nat, c: seq<Entry>, n: nat)
    requires q < |t| && n <= |t|
    ensures NodesIn(t[q := c], n) == NodesIn(t, n) + if q < n then |c| - |t[q]| else 0
  {
    if n > 0 {
      NodesInUpdate(t, q, c, n - 1);
    }
  }

  ghost predicate Sorted(c: seq<Entry>) {
    forall i, j :: 0 <= i < j < |c| ==> c[i].key <= c[j].key
  }

  function Data(c: seq<Entry>): (d: seq<Slot>) {
    seq(|c|, i requires 0 <= i < |c| => c[i].data)
  }

  lemma DataOfInsert(c: seq<Entry>, pos: nat, e: Entry)
    requires pos <= |c|
    ensures multiset(Data(InsertAt(c, pos, e))) == multiset(Data(c)) + multiset{e.data}
  {
    assert Data(InsertAt(c, pos, e)) == Data(c[..pos]) + [e.data] + Data(c[pos..]);
    assert Data(c) == Data(c[..pos]) + Data(c[pos..]);
  }

  lemma DataOfRemove(c: seq<Entry>, pos: nat)
    requires pos < |c|
    ensures multiset(Data(RemoveAt(c, pos))) + multiset{c[pos].data} == multiset(Data(c))
  {
    assert Data(RemoveAt(c, pos)) == Data(c[..pos]) + Data(c[pos + 1..]);
    assert Data(c) == Data(c[..pos]) + [c[pos].data] + Data(c[pos + 1..]);
  }

  /** Ordered insertion keeps the order, and is stable: it is the only place after every
      equal key and before every larger one. */
  lemma InsertIsStable(c: seq<Entry>, e: Entry, pos: nat)
    requires Sorted(c) && pos <= |c|
    ensures Sorted(InsertAt(c, Position(c, e.key, 0), e))
    ensures pos == Position(c, e.key, 0) <==>
            (forall j :: 0 <= j < pos ==> c[j].key <= e.key) && (forall j :: pos <= j < |c| ==> e.key < c[j].key)
  {
    var p := Position(c, e.key, 0);
    LargerFrom(c, e.key);
    InsertSorted(c, e, p);
    if pos < p {
      assert c[pos].key <= e.key;
    }
    if p < pos {
      assert e.key < c[p].key;
    }
  }

  lemma LargerFrom(c: seq<Entry>, key: nat)
    requires Sorted(c)
    ensures forall j :: Position(c, key, 0) <= j < |c| ==> key < c[j].key
  {
    var p := Position(c, key, 0);
    assert p < |c| ==> forall j :: p <= j < |c| ==> c[p].key <= c[j].key;
  }

  lemma InsertSorted(c: seq<Entry>, e: Entry, p: nat)
    requires Sorted(c) && p <= |c|
    requires (forall j :: 0 <= j < p ==> c[j].key <= e.key) && (forall j :: p <= j < |c| ==> e.key < c[j].key)
    ensures Sorted(InsertAt(c, p, e))
  {
    var r := InsertAt(c, p, e);
    forall i, j | 0 <= i < j < |r|
      ensures r[i].key <= r[j].key
    {
      assert r[i] == if i < p then c[i] else if i == p then e else c[i - 1];
      assert r[j] == if j < p then c[j] else if j == p then e else c[j - 1];
    }
  }

  /** In a sorted queue the `<=` rule can only ever pick the head. */
  lemma DueIsHead(c: seq<Entry>, key: nat)
    requires Sorted(c)
    ensures Find(c, IfLe, key, 0) == if c != [] && c[0].key <= key then 0 else |c|
  {
    assert c != [] ==> forall j :: 0 <= j < |c| ==> c[0].key <= c[j].key;
  }
}
