/** The doubly linked queues: a head node, and the nodes behind it in order. */
module LinkedList {
  import opened KernelModel
  import opened KernelInvariant

  class Node {
    const pid: int
    var prev: Node?
    var next: Node?

    constructor (pid: int)
      ensures this.pid == pid
    {
      this.pid := pid;
    }
  }

  /** The nodes of a queue, head first: no node twice, neighbours point at each other, the last one at nothing. */
  ghost predicate Chained(l: seq<Node>)
    reads l
  {
    && l != [] && l[|l| - 1].next == null
    && (forall i, j :: 0 <= i < j < |l| ==> l[i] != l[j])
    && (forall i {:trigger l[i].next} {:trigger l[i + 1]} :: 0 <= i < |l| - 1 ==>
          l[i].next == l[i + 1] && l[i + 1].prev == l[i])
  }

  /** What the queue holds: the pids of the nodes behind the head. */
  ghost function Pids(l: seq<Node>): (r: seq<int>)
    requires l != []
    ensures |r| == |l| - 1 && forall i :: 0 <= i < |r| ==> r[i] == l[i + 1].pid
  {
    seq(|l| - 1, i requires 0 <= i < |l| - 1 => l[i + 1].pid)
  }

  /** append: a new node at the front. */
  method Append(head: Node, pid: int, ghost l: seq<Node>) returns (node: Node)
    requires Chained(l) && l[0] == head
    modifies l
    ensures fresh(node) && node.pid == pid
    ensures Chained([head, node] + l[1..]) && Pids([head, node] + l[1..]) == [pid] + Pids(l)
  {
    node := new Node(pid);
    if head.next == null {
      head.next := node;
      node.prev := head;
      node.next := null;
    } else {
      var next := head.next;
      head.next := node;
      node.prev := head;
      node.next := next;
      next.prev := node;
    }
    ghost var m := [head, node] + l[1..];
    forall i | 0 <= i < |m| - 1 ensures m[i].next == m[i + 1] && m[i + 1].prev == m[i] {
      if i > 1 { assert old(l[i - 1].next) == l[i] && m[i] == l[i - 1] && m[i + 1] == l[i]; }
    }
    assert forall i :: 2 <= i < |m| ==> m[i] == l[i - 1];
  }

  /** append_exist_node: a node from elsewhere at the back. */
  method AppendExistNode(head: Node, target: Node, ghost l: seq<Node>)
    requires Chained(l) && l[0] == head && target !in l
    modifies l, target
    ensures Chained(l + [target]) && Pids(l + [target]) == Pids(l) + [target.pid]
  {
    var cur := head;
    ghost var i := 0;
    while cur.next != null
      invariant 0 <= i < |l| && cur == l[i]
      decreases |l| - i
    {
      cur := cur.next;
      i := i + 1;
    }
    cur.next := target;
    target.prev := cur;
    target.next := null;
  }

  /** remove_from_qs: the first node with this pid is unlinked and points at nothing; without one nothing changes. */
  method RemoveFromQs(head: Node, pid: int, ghost l: seq<Node>) returns (cur: Node?, ghost k: nat)
    requires Chained(l) && l[0] == head
    modifies l
    ensures 1 <= k <= |l| && (cur == null <==> k == |l|) && (cur == null <==> pid !in Pids(l))
    ensures cur == null ==> Chained(l) && Remove(Pids(l), pid) == Pids(l)
    ensures cur != null ==> cur == l[k] && cur.pid == pid && cur.prev == null && cur.next == null
    ensures cur != null ==> Chained(l[..k] + l[k + 1..]) && Pids(l[..k] + l[k + 1..]) == Remove(Pids(l), pid)
  {
    cur := head.next;
    k := 1;
    while cur != null && pid != cur.pid
      invariant 1 <= k <= |l| && cur == (if k == |l| then null else l[k])
      invariant forall i :: 1 <= i < k ==> l[i].pid != pid
      decreases |l| - k
    {
      cur := cur.next;
      k := k + 1;
    }
    PidsRemoved(l, pid, k);
    if cur != null {
      Unlink(cur, l, k);
    }
  }

  method Unlink(cur: Node, ghost l: seq<Node>, ghost k: nat)
    requires Chained(l) && 1 <= k < |l| && cur == l[k]
    modifies l
    ensures cur.prev == null && cur.next == null && Chained(l[..k] + l[k + 1..])
  {
    ghost var m := l[..k] + l[k + 1..];
    assert l[k - 1].next == cur && cur.prev == l[k - 1];
    var prev := cur.prev;
    prev.next := cur.next;
    if cur.next != null {
      cur.next.prev := prev;
    }
    cur.prev := null;
    cur.next := null;
    forall i | 0 <= i < |m| - 1 ensures m[i].next == m[i + 1] && m[i + 1].prev == m[i] {
      if i < k - 1 {
        assert old(l[i].next) == l[i + 1];
      } else if i > k - 1 {
        assert old(l[i + 1].next) == l[i + 2];
      } else {
        assert old(l[k].next) == l[k + 1];
      }
    }
  }

  lemma PidsRemoved(l: seq<Node>, pid: int, k: nat)
    requires 1 <= k <= |l| && (k < |l| ==> l[k].pid == pid) && forall i :: 1 <= i < k ==> l[i].pid != pid
    ensures Remove(Pids(l), pid) == if k == |l| then Pids(l) else Pids(l[..k] + l[k + 1..])
    ensures k == |l| <==> pid !in Pids(l)
  {
    var p := Pids(l);
    if k < |l| {
      assert p[k - 1] == pid;
      RemoveAt(p, k - 1, pid);
      assert p[..k - 1] + p[k..] == Pids(l[..k] + l[k + 1..]);
    } else {
      RemoveAbsent(p, pid);
    }
  }

  // ---- all queues together -------------------------------------------------

  /** The kernel's queues as linked nodes, `lists[i]` behind `heads[i]`. */
  class QueueSet {
    const heads: seq<Node>
    ghost var lists: seq<seq<Node>>

    ghost predicate Valid()
      reads this, Nodes()
    {
      && |lists| == |heads|
      && (forall i :: 0 <= i < |lists| ==> Chained(lists[i]) && lists[i][0] == heads[i])
      && (forall i, j :: 0 <= i < j < |lists| ==> Apart(lists[i], lists[j]))
    }

    /** All nodes, heads included. */
    ghost function Nodes(): set<Node>
      reads this
    {
      AllOf(lists)
    }

    /** Six empty queues, or any other number of them. */
    constructor (count: nat)
      ensures Valid() && |heads| == count && fresh(Nodes())
      ensures forall i :: 0 <= i < count ==> lists[i] == [heads[i]]
    {
      var hs: seq<Node> := [];
      var n := 0;
      while n < count
        invariant |hs| == n <= count
        invariant forall i :: 0 <= i < n ==> fresh(hs[i]) && hs[i].next == null
        invariant forall i, j :: 0 <= i < j < n ==> hs[i] != hs[j]
      {
        var h := new Node(-1);
        h.next := null;
        hs := hs + [h];
        n := n + 1;
      }
      heads := hs;
      lists := seq(count, i requires 0 <= i < count => [hs[i]]);
    }

    lemma Symmetric(i: nat)
      requires Valid() && i < |lists|
      ensures forall j {:trigger lists[j]} :: 0 <= j < |lists| && j != i ==>
                Apart(lists[j], lists[i]) && Apart(lists[i], lists[j])
    {
      forall j | 0 <= j < |lists| && j != i ensures Apart(lists[j], lists[i]) && Apart(lists[i], lists[j]) {
        if j < i { assert Apart(lists[j], lists[i]); } else { assert Apart(lists[i], lists[j]); }
      }
    }

    /** The node with this pid leaves queue `i`; every other queue stays as it is. */
    method Take(i: nat, pid: int) returns (n: Node?)
      requires Valid() && i < |heads|
      modifies this, lists[i]
      ensures Valid() && |lists| == old(|lists|) && forall j :: 0 <= j < |lists| && j != i ==> lists[j] == old(lists[j])
      ensures Pids(lists[i]) == Remove(old(Pids(lists[i])), pid)
      ensures n == null <==> pid !in old(Pids(lists[i]))
      ensures n != null ==> n.pid == pid && n.prev == null && n.next == null && n in old(lists[i]) && n !in Nodes()
      ensures Nodes() <= old(Nodes())
    {
      hide Chained, Apart, Pids, AllOf;
      ghost var l, others := lists[i], lists;
      Symmetric(i);
      ghost var k;
      n, k := Unlink(i, pid);
      if n != null {
        forall j | 0 <= j < |others| && j != i
          ensures Apart(others[j], l[..k] + l[k + 1..]) && Apart(l[..k] + l[k + 1..], others[j])
        {
          ApartLess(others[j], l, k);
        }
        LeftOut(l, k, n, others, i);
        lists := others[i := l[..k] + l[k + 1..]];
      }
    }

    /** The chain without the node is one again, and so is every other. */
    method Unlink(i: nat, pid: int) returns (n: Node?, ghost k: nat)
      requires Valid() && i < |heads|
      modifies lists[i]
      ensures forall j :: 0 <= j < |lists| && j != i ==> Chained(lists[j])
      ensures 1 <= k <= |lists[i]| && (n == null <==> k == |lists[i]|) && (n == null <==> pid !in old(Pids(lists[i])))
      ensures n == null ==> Chained(lists[i]) && Remove(old(Pids(lists[i])), pid) == Pids(lists[i])
      ensures n != null ==>
        && n == lists[i][k] && n.pid == pid && n.prev == null && n.next == null
        && (forall x, y :: 0 <= x < y < |lists[i]| ==> lists[i][x] != lists[i][y])
        && Chained(lists[i][..k] + lists[i][k + 1..])
        && Pids(lists[i][..k] + lists[i][k + 1..]) == Remove(old(Pids(lists[i])), pid)
    {
      ghost var l := lists[i];
      Symmetric(i);
      assert forall x, y :: 0 <= x < y < |l| ==> l[x] != l[y];
      hide Apart, Pids;
      n, k := RemoveFromQs(heads[i], pid, l);
      forall j | 0 <= j < |lists| && j != i ensures Chained(lists[j]) {
        assert old(Chained(lists[j]));
        ApartIs(lists[j], l);
      }
    }

    /** A new node goes to the front of queue `i`; every other queue stays as it is. */
    method Front(i: nat, pid: int) returns (n: Node)
      requires Valid() && i < |heads|
      modifies this, lists[i]
      ensures Valid() && fresh(n) && n.pid == pid && lists == old(lists)[i := [heads[i], n] + old(lists[i])[1..]]
      ensures Pids(lists[i]) == [pid] + old(Pids(lists[i])) && Nodes() == old(Nodes()) + {n}
    {
      ghost var l, others := lists[i], lists;
      Symmetric(i);
      n := Append(heads[i], pid, l);
      forall j | 0 <= j < |others| && j != i ensures Chained(others[j]) {
        assert old(Chained(others[j]));
        ApartIs(others[j], l);
      }
      lists := others[i := [heads[i], n] + l[1..]];
      NodesWith(others, lists, i, n);
    }

    /** A node that is on no queue goes to the back of queue `i`; every other queue stays as it is. */
    method Put(i: nat, n: Node)
      requires Valid() && i < |heads| && n !in Nodes()
      modifies this, lists[i], n
      ensures Valid() && lists == old(lists)[i := old(lists[i]) + [n]]
      ensures Pids(lists[i]) == old(Pids(lists[i])) + [n.pid] && Nodes() == old(Nodes()) + {n}
    {
      ghost var l, others := lists[i], lists;
      assert forall j {:trigger others[j]} :: 0 <= j < |others| && j != i ==> Apart(others[j], l) by { Symmetric(i); }
      AppendExistNode(heads[i], n, l);
      forall j | 0 <= j < |others| && j != i ensures Chained(others[j]) {
        assert old(Chained(others[j]));
        assert forall x :: 0 <= x < |others[j]| ==> others[j][x] !in l && others[j][x] != n;
      }
      lists := others[i := l + [n]];
      NodesWith(others, lists, i, n);
    }
  }

  ghost function AllOf(lists: seq<seq<Node>>): set<Node> {
    set i, j | 0 <= i < |lists| && 0 <= j < |lists[i]| :: lists[i][j]
  }

  lemma NodesWith(a: seq<seq<Node>>, b: seq<seq<Node>>, i: nat, n: Node)
    requires i < |a| == |b| && b == a[i := b[i]] && forall x :: x in b[i] <==> x in a[i] || x == n
    ensures AllOf(b) == AllOf(a) + {n}
  {
    forall x ensures x in AllOf(a) <==> exists j :: 0 <= j < |a| && x in a[j] {}
    forall x ensures x in AllOf(b) <==> exists j :: 0 <= j < |b| && x in b[j] {}
    assert n in b[i];
    forall x | x in AllOf(a) ensures x in AllOf(b) {
      var j :| 0 <= j < |a| && x in a[j];
      assert x in b[j];
    }
    forall x | x in AllOf(b) && x != n ensures x in AllOf(a) {
      var j :| 0 <= j < |b| && x in b[j];
      assert x in a[j];
    }
  }

  ghost predicate Apart(a: seq<Node>, b: seq<Node>) {
    forall n :: n in a ==> n !in b
  }

  lemma ApartIs(a: seq<Node>, b: seq<Node>)
    requires Apart(a, b)
    ensures forall x :: 0 <= x < |a| ==> a[x] !in b
  {
  }

  lemma ApartLess(a: seq<Node>, l: seq<Node>, k: nat)
    requires Apart(a, l) && Apart(l, a) && k < |l|
    ensures Apart(a, l[..k] + l[k + 1..]) && Apart(l[..k] + l[k + 1..], a)
  {
  }

  /** A node taken out of one list is on none of them. */
  lemma LeftOut(l: seq<Node>, k: nat, n: Node, others: seq<seq<Node>>, i: nat)
    requires k < |l| && l[k] == n && i < |others|
    requires forall x, y :: 0 <= x < y < |l| ==> l[x] != l[y]
    requires forall j :: 0 <= j < |others| && j != i ==> Apart(l, others[j])
    requires l == others[i]
    ensures var less := others[i := l[..k] + l[k + 1..]]; AllOf(less) <= AllOf(others) && n !in AllOf(less)
  {
    var less := others[i := l[..k] + l[k + 1..]];
    forall x | x in AllOf(less) ensures x in AllOf(others) && x != n {
      var j :| 0 <= j < |less| && x in less[j];
      assert x in others[j];
    }
  }
}
