/** The queue module: one fixed table of queue nodes, a free list threaded through it, and
    doubly linked self-ordering queues that take their nodes from that free list. */
module Queues {
  import opened Defs
  import opened QueueSpec

  class QNode {
    var key: nat
    var data: Slot
    var prev: QNode?
    var next: QNode?
    /** The queue this node is linked into; null while it is on the free list. */
    ghost var home: Queue?

    constructor ()
      ensures home == null
    {
      key, data, prev, next, home := 0, 0, null, null, null;
    }
  }

  ghost predicate Distinct(ns: seq<QNode>) {
    forall i, j :: 0 <= i < j < |ns| ==> ns[i] != ns[j]
  }

  /** The node at index `i`, or NULL past either end. */
  ghost function At(ns: seq<QNode>, i: int): QNode? {
    if 0 <= i < |ns| then ns[i] else null
  }

  ghost predicate NotIn(n: QNode, ns: seq<QNode>) {
    forall i :: 0 <= i < |ns| ==> ns[i] != n
  }

  /** The free list `_qnode_avail`, singly linked through `next`. */
  class Pool {
    var avail: QNode?
    ghost var free: seq<QNode>

    ghost predicate Valid()
      reads this, free
    {
      && Distinct(free)
      && avail == At(free, 0)
      && (forall i {:trigger free[i]} :: 0 <= i < |free| ==> free[i].home == null)
      && forall i {:trigger free[i].next} :: 0 <= i < |free| ==> free[i].next == At(free, i + 1)
    }

    constructor ()
      ensures Valid() && free == []
    {
      avail, free := null, [];
    }

    method Alloc() returns (node: QNode?)
      requires Valid()
      modifies this
      ensures Valid()
      ensures old(free) == [] ==> node == null && free == []
      ensures old(free) != [] ==>
        node == old(free)[0] && free == old(free)[1..] && NotIn(node, free) && node.home == null
    {
      node := avail;
      if node != null {
        avail := node.next;
        free := free[1..];
      }
    }

    method Free(node: QNode)
      requires Valid() && NotIn(node, free)
      modifies this, node
      ensures Valid() && free == [node] + old(free)
    {
      node.home := null;
      node.next := avail;
      avail := node;
      free := [node] + free;
    }
  }

  class Queue {
    const discipline: Discipline
    var length: nat
    var head: QNode?
    var tail: QNode?
    ghost var nodes: seq<QNode>
    ghost var contents: seq<Entry>

    ghost predicate Valid()
      reads this, nodes
    {
      && Chained(nodes, contents)
      && length == |nodes|
      && head == At(nodes, 0)
      && tail == At(nodes, |nodes| - 1)
    }

    /** These nodes of this queue are linked to each other in this order, and hold these entries. */
    ghost predicate Chained(ns: seq<QNode>, c: seq<Entry>)
      reads ns
    {
      && Distinct(ns)
      && |c| == |ns|
      && (forall i {:trigger c[i]} {:trigger ns[i].key} :: 0 <= i < |ns| ==> c[i] == Entry(ns[i].key, ns[i].data))
      && (forall i {:trigger ns[i]} :: 0 <= i < |ns| ==> ns[i].home == this)
      && (forall i {:trigger ns[i].next} :: 0 <= i < |ns| ==> ns[i].next == At(ns, i + 1))
      && (forall i {:trigger ns[i].prev} :: 0 <= i < |ns| ==> ns[i].prev == At(ns, i - 1))
    }

    /** `_q_reset` */
    constructor (d: Discipline)
      ensures Valid() && nodes == [] && contents == [] && discipline == d
    {
      discipline := d;
      length, head, tail := 0, null, null;
      nodes, contents := [], [];
    }

    method Append(pool: Pool, data: Slot, key: nat) returns (stat: Status)
      requires Valid() && pool.Valid()
      modifies this, nodes, pool, pool.free
      ensures Valid() && pool.Valid()
      ensures old(pool.free) == [] ==>
        stat == NoQnodes && nodes == old(nodes) && pool.free == [] && contents == old(contents)
      ensures old(pool.free) != [] ==>
                && stat == Success
                && nodes == old(nodes) + [old(pool.free)[0]] && pool.free == old(pool.free)[1..]
                && contents == old(contents) + [Entry(key, data)]
    {
      var qnode := pool.Alloc();
      if qnode == null {
        return NoQnodes;
      }
      qnode.key := key;
      qnode.data := data;
      LinkLast(qnode);
      stat := Success;
    }

    method Insert(pool: Pool, data: Slot, key: nat) returns (stat: Status)
      requires Valid() && pool.Valid()
      modifies this, nodes, pool, pool.free
      ensures Valid() && pool.Valid()
      ensures old(pool.free) == [] ==>
        stat == NoQnodes && nodes == old(nodes) && pool.free == [] && contents == old(contents)
      ensures old(pool.free) != [] ==>
                var i := InsertIndex(old(contents), discipline, key);
                && stat == Success
                && nodes == old(nodes)[..i] + [old(pool.free)[0]] + old(nodes)[i..] && pool.free == old(pool.free)[1..]
                && contents == InsertAt(old(contents), i, Entry(key, data))
    {
      var qnode := pool.Alloc();
      if qnode == null {
        return NoQnodes;
      }
      qnode.key := key;
      qnode.data := data;
      qnode.prev := null;
      qnode.next := null;
      Link(qnode);
      stat := Success;
    }

    /** The rest of `_q_insert`, once the node is filled in (kernel/queue.c:396-450). */
    method Link(qnode: QNode)
      requires Valid() && qnode.home != this && qnode.next == null && qnode.prev == null
      modifies this, nodes, qnode
      ensures Valid()
      ensures var i := InsertIndex(old(contents), discipline, qnode.key);
              && nodes == old(nodes)[..i] + [qnode] + old(nodes)[i..]
              && contents == InsertAt(old(contents), i, Entry(qnode.key, qnode.data))
      ensures qnode.key == old(qnode.key) && qnode.data == old(qnode.data)
    {
      if length < 1 {
        LinkLast(qnode);
      } else if !discipline.ordered {
        LinkLast(qnode);
      } else {
        var curr, i := FindPlace(qnode.key);
        if curr == null {
          LinkLast(qnode);
        } else {
          LinkBefore(qnode, curr, i);
        }
      }
    }

    /** The search loop of `_q_insert` (kernel/queue.c:421-424). */
    method FindPlace(key: nat) returns (curr: QNode?, ghost i: nat)
      requires Valid()
      ensures i == Position(contents, key, 0) && curr == At(nodes, i)
    {
      curr := head;
      i := 0;
      while curr != null && curr.key <= key
        invariant 0 <= i <= |nodes|
        invariant curr == At(nodes, i)
        invariant Position(contents, key, 0) == Position(contents, key, i)
        decreases |nodes| - i
      {
        curr := curr.next;
        i := i + 1;
      }
    }

    /** Linking after the tail (kernel/queue.c:342-354), which is also how `_q_insert` treats an
        empty queue, an unordered one, and a key no smaller than any other (:400-416 and :428-434). */
    method LinkLast(qnode: QNode)
      requires Valid() && qnode.home != this
      modifies this, nodes, qnode
      ensures Valid() && nodes == old(nodes) + [qnode]
      ensures contents == old(contents) + [Entry(qnode.key, qnode.data)]
      ensures qnode.key == old(qnode.key) && qnode.data == old(qnode.data)
    {
      if length < 1 {
        head := qnode;
      } else {
        tail.next := qnode;
      }
      qnode.next := null;
      qnode.prev := tail;
      tail := qnode;
      length := length + 1;
      qnode.home := this;
      Extended(nodes, contents, qnode);
      nodes := nodes + [qnode];
      contents := contents + [Entry(qnode.key, qnode.data)];
    }

    /** Once `n` and the last node point at each other, the chain reads as the old one with `n` at its end. */
    lemma Extended(was: seq<QNode>, c: seq<Entry>, n: QNode)
      requires Distinct(was) && NotIn(n, was) && |c| == |was|
      requires forall k {:trigger c[k]} :: 0 <= k < |was| ==> c[k] == Entry(was[k].key, was[k].data)
      requires n.home == this && forall k {:trigger was[k].home} :: 0 <= k < |was| ==> was[k].home == this
      requires n.next == null && n.prev == At(was, |was| - 1)
      requires forall k {:trigger was[k].next} :: 0 <= k < |was| ==>
        was[k].next == if k == |was| - 1 then n else At(was, k + 1)
      requires forall k {:trigger was[k].prev} :: 0 <= k < |was| ==> was[k].prev == At(was, k - 1)
      ensures Chained(was + [n], c + [Entry(n.key, n.data)])
    {
      var r := was + [n];
      assert forall k :: 0 <= k < |r| ==> r[k] == if k < |was| then was[k] else n;
    }

    /** Linking in front of another node (kernel/queue.c:438-448). */
    method LinkBefore(qnode: QNode, curr: QNode, ghost i: nat)
      requires Valid() && i < |nodes| && nodes[i] == curr
      requires qnode.home != this && qnode.next == null && qnode.prev == null
      modifies this, nodes, qnode
      ensures Valid() && nodes == old(nodes)[..i] + [qnode] + old(nodes)[i..]
      ensures contents == InsertAt(old(contents), i, Entry(qnode.key, qnode.data))
      ensures qnode.key == old(qnode.key) && qnode.data == old(qnode.data)
    {
      hide InsertAt;
      qnode.next := curr;
      if curr.prev == null {
        head := qnode;
      } else {
        curr.prev.next := qnode;
        qnode.prev := curr.prev;
      }
      curr.prev := qnode;
      length := length + 1;
      qnode.home := this;
      SplicedIn(nodes, contents, i, qnode);
      nodes := nodes[..i] + [qnode] + nodes[i..];
      contents := InsertAt(contents, i, Entry(qnode.key, qnode.data));
    }

    /** Once the four links around `n` are set, the chain reads as the old one with `n` at index `i`. */
    lemma SplicedIn(was: seq<QNode>, c: seq<Entry>, i: nat, n: QNode)
      requires Distinct(was) && NotIn(n, was) && i < |was| && |c| == |was|
      requires forall k {:trigger c[k]} :: 0 <= k < |was| ==> c[k] == Entry(was[k].key, was[k].data)
      requires n.home == this && forall k {:trigger was[k].home} :: 0 <= k < |was| ==> was[k].home == this
      requires n.next == was[i] && n.prev == At(was, i - 1)
      requires forall k {:trigger was[k].next} :: 0 <= k < |was| ==>
        was[k].next == if k == i - 1 then n else At(was, k + 1)
      requires forall k {:trigger was[k].prev} :: 0 <= k < |was| ==> was[k].prev == if k == i then n else At(was, k - 1)
      ensures var r := was[..i] + [n] + was[i..];
              && Chained(r, InsertAt(c, i, Entry(n.key, n.data)))
              && At(r, 0) == (if i == 0 then n else was[0]) && At(r, |r| - 1) == was[|was| - 1] && |r| == |was| + 1
    {
      var r := was[..i] + [n] + was[i..];
      assert forall k :: 0 <= k < |r| ==> r[k] == if k < i then was[k] else if k == i then n else was[k - 1];
    }

    method Remove(pool: Pool) returns (stat: Status, data: Slot)
      requires Valid() && pool.Valid()
      modifies this, nodes, pool
      ensures Valid() && pool.Valid()
      ensures old(nodes) == [] ==> stat == Empty && nodes == [] && contents == [] && pool.free == old(pool.free)
      ensures old(nodes) != [] ==>
                && stat == Success && data == old(contents)[0].data
                && nodes == old(nodes)[1..] && pool.free == [old(nodes)[0]] + old(pool.free)
                && contents == old(contents)[1..]
    {
      data := 0;
      if length < 1 {
        return Empty, data;
      }
      var qnode := head;
      length := length - 1;
      head := qnode.next;
      if head == null {
        tail := null;
      } else {
        head.prev := null;
      }
      nodes, contents := nodes[1..], contents[1..];
      data := qnode.data;
      pool.Free(qnode);
      stat := Success;
    }

    method RemoveByKey(pool: Pool, key: nat) returns (stat: Status, data: Slot)
      requires Valid() && pool.Valid()
      modifies this, nodes, pool
      ensures Valid() && pool.Valid()
      ensures var i := KeyIndex(old(contents), discipline, key);
              if old(nodes) == [] || i == |old(nodes)| then
                && stat == (if old(nodes) == [] then Empty else NotFound)
                && nodes == old(nodes) && pool.free == old(pool.free) && contents == old(contents)
              else
                && stat == Success && data == old(contents)[i].data
                && nodes == old(nodes)[..i] + old(nodes)[i + 1..] && pool.free == [old(nodes)[i]] + old(pool.free)
                && contents == RemoveAt(old(contents), i)
    {
      hide Chained, Pool.Valid, Find, Matches;
      SameLength();
      data := 0;
      if length < 1 {
        return Empty, data;
      }
      if discipline.rule.None? {
        stat, data := Remove(pool);
        return;
      }
      var qnode, i := FindKey(discipline.rule.value, key);
      if qnode == null {
        return NotFound, data;
      }
      data := Discard(pool, qnode, i);
      stat := Success;
    }

    lemma SameLength()
      requires Valid()
      ensures |contents| == |nodes|
    {
    }

    /** The rest of it, once the entry is found. */
    method Discard(pool: Pool, qnode: QNode, ghost i: nat) returns (data: Slot)
      requires Valid() && pool.Valid() && i < |nodes| && nodes[i] == qnode && |contents| == |nodes|
      modifies this, nodes, pool
      ensures Valid() && pool.Valid() && data == old(contents)[i].data
      ensures nodes == old(nodes)[..i] + old(nodes)[i + 1..] && pool.free == [old(nodes)[i]] + old(pool.free)
      ensures contents == RemoveAt(old(contents), i)
    {
      hide RemoveAt;
      data := qnode.data;
      Unlink(qnode, i);
      pool.Free(qnode);
    }

    /** The search loop of `_q_remove_by_key` (kernel/queue.c:269-272). */
    method FindKey(rule: RemoveRule, key: nat) returns (qnode: QNode?, ghost i: nat)
      requires Valid()
      ensures i == Find(contents, rule, key, 0) && qnode == At(nodes, i)
    {
      qnode := head;
      i := 0;
      while qnode != null && !Matches(rule, qnode.key, key)
        invariant 0 <= i <= |nodes|
        invariant qnode == At(nodes, i)
        invariant Find(contents, rule, key, 0) == Find(contents, rule, key, i)
        decreases |nodes| - i
      {
        qnode := qnode.next;
        i := i + 1;
      }
    }

    /** kernel/queue.c:269-281 */
    method Unlink(qnode: QNode, ghost i: nat)
      requires Valid() && i < |nodes| && nodes[i] == qnode
      modifies this, nodes
      ensures Valid() && nodes == old(nodes)[..i] + old(nodes)[i + 1..]
      ensures contents == RemoveAt(old(contents), i)
      ensures qnode.data == old(qnode.data)
    {
      hide RemoveAt;
      if qnode.prev != null {
        qnode.prev.next := qnode.next;
      } else {
        head := qnode.next;
      }
      if qnode.next != null {
        qnode.next.prev := qnode.prev;
      } else {
        tail := qnode.prev;
      }
      length := length - 1;
      assert head == At(nodes, if i == 0 then 1 else 0);
      assert tail == At(nodes, if i == |nodes| - 1 then i - 1 else |nodes| - 1);
      SplicedOut(nodes, contents, i);
      nodes, contents := nodes[..i] + nodes[i + 1..], RemoveAt(contents, i);
    }
  
    /** Once its neighbours skip the node at index `i`, the chain reads as the old one without it. */
    lemma SplicedOut(was: seq<QNode>, c: seq<Entry>, i: nat)
      requires Distinct(was) && i < |was| && |c| == |was|
      requires forall k {:trigger c[k]} :: 0 <= k < |was| ==> c[k] == Entry(was[k].key, was[k].data)
      requires forall k {:trigger was[k].home} :: 0 <= k < |was| ==> was[k].home == this
      requires forall k {:trigger was[k].next} :: 0 <= k < |was| && k != i ==>
        was[k].next == At(was, if k == i - 1 then i + 1 else k + 1)
      requires forall k {:trigger was[k].prev} :: 0 <= k < |was| && k != i ==>
        was[k].prev == At(was, if k == i + 1 then i - 1 else k - 1)
      ensures var r := was[..i] + was[i + 1..];
              && Chained(r, RemoveAt(c, i)) && |r| == |was| - 1
              && At(r, 0) == At(was, if i == 0 then 1 else 0)
              && At(r, |r| - 1) == At(was, if i == |was| - 1 then i - 1 else |was| - 1)
    {
      var r := was[..i] + was[i + 1..];
      assert forall k :: 0 <= k < |r| ==> r[k] == if k < i then was[k] else was[k + 1];
    }
  }

  /** `_q_init`: every node of the table goes onto the free list. */
  method FreeNodes() returns (p: Pool, ns: seq<QNode>)
    ensures p.Valid() && fresh(p) && fresh(ns) && |p.free| == N_QNODES
    ensures forall k {:trigger p.free[k]} :: 0 <= k < N_QNODES ==> p.free[k] in ns
  {
    p := new Pool();
    ns := [];
    for i := 0 to N_QNODES
      invariant p.Valid() && |p.free| == |ns| == i && fresh(p)
      invariant forall k :: 0 <= k < i ==> fresh(ns[k])
      invariant forall k {:trigger p.free[k]} :: 0 <= k < i ==> p.free[k] in ns
    {
      var n := new QNode();
      p.Free(n);
      ns := ns + [n];
    }
  }

  /** The `_q_reset` of every queue. */
  method ResetQueues() returns (qs: seq<Queue>)
    ensures |qs| == N_QUEUES && fresh(qs)
    ensures forall k :: 0 <= k < N_QUEUES ==>
      qs[k].Valid() && qs[k].nodes == [] && qs[k].contents == [] && qs[k].discipline == DisciplineOf(k)
    ensures forall j, k :: 0 <= j < k < N_QUEUES ==> qs[j] != qs[k]
  {
    qs := [];
    for i := 0 to N_QUEUES
      invariant |qs| == i
      invariant forall k :: 0 <= k < i ==> fresh(qs[k]) && qs[k].Valid() && qs[k].nodes == [] && qs[k].contents == []
      invariant forall k :: 0 <= k < i ==> qs[k].discipline == DisciplineOf(k)
      invariant forall j, k :: 0 <= j < k < i ==> qs[j] != qs[k]
    {
      var q := new Queue(DisciplineOf(i));
      qs := qs + [q];
    }
  }

  /** All of the queue module's state: the node table, the free list and every queue of the kernel. */
  class Bank {
    const table: seq<QNode>
    const pool: Pool
    const queues: seq<Queue>

    /** The objects one queue operation may touch lie in the bank. */
    ghost predicate Owned()
      reads pool, queues
    {
      && |queues| == N_QUEUES
      && (forall i {:trigger pool.free[i]} :: 0 <= i < |pool.free| ==> pool.free[i] in table)
      && (forall q, i {:trigger queues[q].nodes[i]} ::
            0 <= q < N_QUEUES && 0 <= i < |queues[q].nodes| ==> queues[q].nodes[i] in table)
    }

    ghost predicate Valid()
      reads pool, queues, table
    {
      && Owned()
      && pool.Valid()
      && (forall q :: 0 <= q < N_QUEUES ==> queues[q].Valid() && queues[q].discipline == DisciplineOf(q))
      && (forall p, q :: 0 <= p < q < N_QUEUES ==> queues[p] != queues[q])
      && Used(View()) + |pool.free| == N_QNODES
    }

    ghost function View(): (t: Table)
      requires |queues| == N_QUEUES
      reads queues
    {
      seq(N_QUEUES, q requires 0 <= q < N_QUEUES reads queues => queues[q].contents)
    }

    constructor ()
      ensures Valid() && |queues| == N_QUEUES && fresh(pool) && fresh(queues) && fresh(table)
      ensures forall q :: 0 <= q < N_QUEUES ==> View()[q] == []
    {
      hide Queue.Valid, Queue.Chained, Pool.Valid, Used;
      var p, ns := FreeNodes();
      var qs := ResetQueues();
      table, pool, queues := ns, p, qs;
      new;
      NothingUsed();
    }

    lemma NothingUsed()
      requires |queues| == N_QUEUES && forall q :: 0 <= q < N_QUEUES ==> queues[q].contents == []
      ensures Used(View()) == 0 && forall q :: 0 <= q < N_QUEUES ==> View()[q] == []
    {
      NodesInEmpty(View(), |View()|);
    }

    /** A queue shares no node with the other queues or with the free list. */
    lemma Apart(q: nat)
      requires Valid() && q < N_QUEUES
      ensures forall p, i :: 0 <= p < N_QUEUES && p != q && 0 <= i < |queues[p].nodes| ==>
                queues[p].nodes[i] !in queues[q].nodes && queues[p].nodes[i] !in pool.free
      ensures queues[q].Valid() && queues[q].discipline == DisciplineOf(q) && pool.Valid()
      ensures |queues[q].contents| == |queues[q].nodes| && (pool.free == [] <==> Full(View()))
    {
      forall p, i | 0 <= p < N_QUEUES && p != q && 0 <= i < |queues[p].nodes|
        ensures queues[p].nodes[i] !in queues[q].nodes && queues[p].nodes[i] !in pool.free
      {
        assert queues[p].nodes[i].home == queues[p];
      }
    }

    method Append(q: nat, data: Slot, key: nat) returns (stat: Status)
      requires Valid() && q < N_QUEUES
      modifies pool, queues, table
      ensures Valid()
      ensures stat == if Full(old(View())) then NoQnodes else Success
      ensures View() == if stat == Success then old(View())[q := old(View())[q] + [Entry(key, data)]] else old(View())
    {
      hide Queue.Valid, Queue.Chained, Pool.Valid;
      Apart(q);
      stat := queues[q].Append(pool, data, key);
      Settled(q);
    }

    method Insert(q: nat, data: Slot, key: nat) returns (stat: Status)
      requires Valid() && q < N_QUEUES
      modifies pool, queues, table
      ensures Valid()
      ensures stat == if Full(old(View())) then NoQnodes else Success
      ensures View() == if stat == Success
                        then var c := old(View())[q];
                          old(View())[q := InsertAt(c, InsertIndex(c, DisciplineOf(q), key), Entry(key, data))]
                        else old(View())
    {
      hide InsertAt, InsertIndex, Queue.Valid, Queue.Chained, Pool.Valid;
      Apart(q);
      stat := queues[q].Insert(pool, data, key);
      Settled(q);
    }

    method Remove(q: nat) returns (stat: Status, data: Slot)
      requires Valid() && q < N_QUEUES
      modifies pool, queues, table
      ensures Valid()
      ensures stat == if old(View())[q] == [] then Empty else Success
      ensures stat == Success ==> data == old(View())[q][0].data
      ensures View() == if stat == Success then old(View())[q := old(View())[q][1..]] else old(View())
    {
      hide Queue.Valid, Queue.Chained, Pool.Valid;
      Apart(q);
      stat, data := queues[q].Remove(pool);
      Settled(q);
    }

    method RemoveByKey(q: nat, key: nat) returns (stat: Status, data: Slot)
      requires Valid() && q < N_QUEUES
      modifies pool, queues, table
      ensures Valid()
      ensures var c := old(View())[q];
              var i := KeyIndex(c, DisciplineOf(q), key);
              if i < |c| then
                stat == Success && data == c[i].data && View() == old(View())[q := RemoveAt(c, i)]
              else
                stat == (if c == [] then Empty else NotFound) && View() == old(View())
    {
      hide RemoveAt, KeyIndex, Queue.Valid, Queue.Chained, Pool.Valid;
      Apart(q);
      stat, data := queues[q].RemoveByKey(pool, key);
      Settled(q);
    }

    method IsEmpty(q: nat) returns (empty: bool)
      requires Valid() && q < N_QUEUES
      ensures empty <==> View()[q] == []
    {
      empty := queues[q].length < 1;
    }

    /** After an operation on queue `q` alone the bank is consistent and the other queues read as before. */
    twostate lemma Settled(q: nat)
      requires old(Valid()) && q < N_QUEUES
      requires forall p :: 0 <= p < N_QUEUES && p != q ==> unchanged(queues[p])
      requires forall p, i :: 0 <= p < N_QUEUES && p != q && 0 <= i < |queues[p].nodes| ==>
        unchanged(queues[p].nodes[i])
      requires queues[q].Valid() && pool.Valid() && Owned()
      requires |queues[q].nodes| + |pool.free| == old(|queues[q].nodes| + |pool.free|)
      ensures Valid() && View() == old(View())[q := queues[q].contents]
    {
      NodesInUpdate(old(View()), q, queues[q].contents, N_QUEUES);
      assert View() == old(View())[q := queues[q].contents];
    }
  }
}
