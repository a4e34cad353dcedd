/**
 What every kernel step keeps: each process is in exactly one place, waiters and
 their targets match, and parents precede their children.
 */
module KernelInvariant {
  import opened KernelModel

  // ---- lists ---------------------------------------------------------------

  ghost predicate NoDup(l: seq<int>) {
    forall i, j :: 0 <= i < j < |l| ==> l[i] != l[j]
  }

  lemma {:induction false} RemoveIs(l: seq<int>, p: int)
    requires NoDup(l)
    ensures NoDup(Remove(l, p)) && forall x :: x in Remove(l, p) <==> x in l && x != p
  {
    if l != [] {
      RemoveIs(l[1..], p);
      assert l == [l[0]] + l[1..];
      assert l[0] !in l[1..];
    }
  }

  lemma {:induction false} RemoveAt(l: seq<int>, i: nat, p: int)
    requires i < |l| && l[i] == p && p !in l[..i]
    ensures Remove(l, p) == l[..i] + l[i + 1..]
  {
    if i > 0 {
      assert l[0] in l[..i];
      assert l[1..][..i - 1] == l[..i][1..];
      RemoveAt(l[1..], i - 1, p);
    }
  }

  lemma {:induction false} RemoveAbsent(l: seq<int>, p: int)
    requires p !in l
    ensures Remove(l, p) == l
  {
    if l != [] {
      RemoveAbsent(l[1..], p);
    }
  }

  lemma AppendIs(l: seq<int>, p: int)
    requires NoDup(l) && p !in l
    ensures NoDup(l + [p]) && forall x :: x in l + [p] <==> x in l || x == p
  {
  }

  // ---- placement -----------------------------------------------------------

  datatype Place = In(q: Queue) | Nowhere

  /** The queues hold exactly the processes that `h` sends there, once each. */
  ghost predicate PlacedAs(s: State, h: map<int, Place>) {
    && (forall q: Queue :: q in s.qs && NoDup(Q(s, q)))
    && (forall q, p :: p in Q(s, q) <==> p in h && h[p] == In(q))
  }

  /** The running process is on no queue; every other is on the one its status and priority name. */
  ghost function Homes(s: State): map<int, Place> {
    map p | p in s.pcbs ::
      if p == s.running && s.pcbs[p].status == RUNNING then Nowhere else In(Home(s.pcbs[p]))
  }

  ghost predicate Placement(s: State) {
    PlacedAs(s, Homes(s))
  }

  lemma TakeOutPlaced(s: State, h: map<int, Place>, q: Queue, p: int)
    requires PlacedAs(s, h) && p in h && (h[p] == In(q) || h[p] == Nowhere)
    ensures PlacedAs(TakeOut(s, q, p), h[p := Nowhere])
  {
    RemoveIs(Q(s, q), p);
    var s' := TakeOut(s, q, p);
    assert forall r :: Q(s', r) == if r == q then Remove(Q(s, q), p) else Q(s, r);
  }

  lemma PutBackPlaced(s: State, h: map<int, Place>, q: Queue, p: int)
    requires PlacedAs(s, h) && (p in h ==> h[p] == Nowhere)
    ensures PlacedAs(PutBack(s, q, p), h[p := In(q)])
  {
    hide NoDup;
    assert p !in Q(s, q);
    AppendIs(Q(s, q), p);
    var s' := PutBack(s, q, p);
    forall r: Queue, x
      ensures r in s'.qs && NoDup(Q(s', r)) && (x in Q(s', r) <==> x in h[p := In(q)] && h[p := In(q)][x] == In(r))
    {
      assert Q(s', r) == if r == q then Q(s, q) + [p] else Q(s, r);
    }
  }

  lemma MovePlaced(s: State, h: map<int, Place>, from: Queue, to: Queue, p: int)
    requires PlacedAs(s, h) && p in h && (h[p] == In(from) || h[p] == Nowhere)
    ensures PlacedAs(PutBack(TakeOut(s, from, p), to, p), h[p := In(to)])
  {
    TakeOutPlaced(s, h, from, p);
    PutBackPlaced(TakeOut(s, from, p), h[p := Nowhere], to, p);
    assert h[p := Nowhere][p := In(to)] == h[p := In(to)];
  }

  lemma SameQueues(s: State, s': State, h: map<int, Place>)
    requires PlacedAs(s, h) && s'.qs == s.qs
    ensures PlacedAs(s', h)
  {
    assert forall q :: Q(s', q) == Q(s, q);
  }

  // ---- the process table ---------------------------------------------------

  predicate Sorted(l: seq<int>) {
    forall i, j :: 0 <= i < j < |l| ==> l[i] < l[j]
  }

  predicate GoodPcb(p: int, b: Pcb) {
    b.priority in {-1, 0, 1} && (b.ppid == NONE || 1 <= b.ppid < p)
  }

  ghost predicate Table(s: State) {
    && Sorted(s.all) && (forall p :: p in s.all <==> p in s.pcbs)
    && (forall p :: p in s.pcbs ==> 1 <= p < s.maxPid && GoodPcb(p, s.pcbs[p]))
    && (s.running == NONE || s.running in s.pcbs) && 1 <= s.maxPid
  }

  // ---- waiting -------------------------------------------------------------

  /** Blocked in p_waitpid rather than asleep. */
  predicate Waiter(b: Pcb) {
    b.status == BLOCKED && b.sleepTime < 0
  }

  /** waited_by marks match blocked waiters one to one. */
  ghost predicate Waits(pcbs: map<int, Pcb>) {
    && (forall p :: p in pcbs && pcbs[p].waitedBy != NONE ==>
          && pcbs[p].waitedBy == pcbs[p].ppid && !pcbs[p].changed
          && pcbs[p].waitedBy in pcbs && Waiter(pcbs[pcbs[p].waitedBy]))
    && (forall p, r :: p in pcbs && r in pcbs && pcbs[p].waitedBy == pcbs[r].waitedBy != NONE ==> p == r)
    && (forall w :: w in pcbs && Waiter(pcbs[w]) ==> exists p :: p in pcbs && pcbs[p].waitedBy == w)
  }

  // ---- orphans -------------------------------------------------------------

  /** Some ancestor is no longer in the table. */
  ghost predicate Orphan(pcbs: map<int, Pcb>, p: int)
    decreases if p < 0 then 0 else p
  {
    p in pcbs && pcbs[p].ppid != NONE &&
    (pcbs[p].ppid !in pcbs || (1 <= pcbs[p].ppid < p && Orphan(pcbs, pcbs[p].ppid)))
  }

  /** Table, placement and waits, with whatever status the current process has. */
  ghost predicate Loose(s: State) {
    Table(s) && Placement(s) && Waits(s.pcbs) && !Orphan(s.pcbs, s.running)
  }

  ghost predicate Inv(s: State) {
    s.halted || (Loose(s) && !s.finished && (s.running != NONE ==> s.pcbs[s.running].status == RUNNING))
  }

  // ---- waking --------------------------------------------------------------

  /** Waking the waiter of `p` moves exactly that waiter to its ready queue. */
  lemma WakePlaced(s: State, h: map<int, Place>, p: int)
    requires PlacedAs(s, h) && p in s.pcbs && h.Keys == s.pcbs.Keys
    requires s.pcbs[p].waitedBy != NONE ==> s.pcbs[p].waitedBy in h && h[s.pcbs[p].waitedBy] == In(Blocked)
    ensures var w := s.pcbs[p].waitedBy;
            PlacedAs(WakeWaiter(s, p), if w == NONE then h else h[w := In(ReadyQueue(s.pcbs[w].priority))])
  {
    var w := s.pcbs[p].waitedBy;
    if w != NONE {
      var s1 := SetPcb(s, w, s.pcbs[w].(status := RUNNING));
      SameQueues(s, s1, h);
      MovePlaced(s1, h, Blocked, ReadyQueue(s.pcbs[w].priority), w);
      var s2 := PutBack(TakeOut(s1, Blocked, w), ReadyQueue(s.pcbs[w].priority), w);
      SameQueues(s2, WakeWaiter(s, p), h[w := In(ReadyQueue(s.pcbs[w].priority))]);
    }
  }

  /** What waking does to the table. */
  lemma WakePcbs(s: State, p: int)
    requires p in s.pcbs && (s.pcbs[p].waitedBy != NONE ==> s.pcbs[p].waitedBy in s.pcbs && s.pcbs[p].waitedBy != p)
    ensures var w := s.pcbs[p].waitedBy;
            WakeWaiter(s, p).pcbs == if w == NONE then s.pcbs
                                     else s.pcbs[w := s.pcbs[w].(status := RUNNING)][p := s.pcbs[p].(waitedBy := NONE)]
    ensures WakeWaiter(s, p) == s.(pcbs := WakeWaiter(s, p).pcbs, qs := WakeWaiter(s, p).qs)
  {
  }

  // ---- what single table updates keep --------------------------------------

  /** The same processes with the same parents and legal priorities. */
  ghost predicate SameFamily(a: map<int, Pcb>, b: map<int, Pcb>) {
    && a.Keys == b.Keys
    && forall p :: p in a ==> b[p].ppid == a[p].ppid && b[p].priority in {-1, 0, 1}
  }

  lemma TableKeeps(s: State, s': State)
    requires Table(s) && SameFamily(s.pcbs, s'.pcbs) && s'.all == s.all && s'.maxPid == s.maxPid
    requires s'.running == NONE || s'.running in s.pcbs
    ensures Table(s')
  {
    assert forall p :: p in s'.pcbs <==> p in s.pcbs;
  }

  lemma {:induction false} OrphanKeeps(a: map<int, Pcb>, b: map<int, Pcb>, p: int)
    requires SameFamily(a, b)
    ensures Orphan(b, p) <==> Orphan(a, p)
    decreases if p < 0 then 0 else p
  {
    if p in a && 1 <= a[p].ppid < p {
      OrphanKeeps(a, b, a[p].ppid);
    }
  }

  /** `p` takes the value `b` and its waiter, if any, is ready again. */
  function Marked(pcbs: map<int, Pcb>, p: int, b: Pcb): map<int, Pcb>
    requires p in pcbs
  {
    var w := pcbs[p].waitedBy;
    if w == NONE || w !in pcbs then pcbs[p := b] else pcbs[w := pcbs[w].(status := RUNNING)][p := b]
  }

  lemma WaitsMarked(pcbs: map<int, Pcb>, p: int, b: Pcb)
    requires Waits(pcbs) && p in pcbs && !Waiter(pcbs[p]) && !Waiter(b) && b.waitedBy == NONE
    ensures Waits(Marked(pcbs, p, b))
  {
    var m := Marked(pcbs, p, b);
    forall v | v in m && Waiter(m[v]) ensures exists r :: r in m && m[r].waitedBy == v {
      assert Waiter(pcbs[v]);
      var r :| r in pcbs && pcbs[r].waitedBy == v;
      assert r in m && m[r].waitedBy == v;
    }
  }

  /** A change that touches neither waiting nor the parent. */
  lemma WaitsSame(pcbs: map<int, Pcb>, p: int, b: Pcb)
    requires Waits(pcbs) && p in pcbs && Waiter(b) == Waiter(pcbs[p]) && b.waitedBy == pcbs[p].waitedBy
    requires b.ppid == pcbs[p].ppid && (b.waitedBy != NONE ==> !b.changed)
    ensures Waits(pcbs[p := b])
  {
    var m := pcbs[p := b];
    forall v | v in m && Waiter(m[v]) ensures exists r :: r in m && m[r].waitedBy == v {
      assert Waiter(pcbs[v]);
      var r :| r in pcbs && pcbs[r].waitedBy == v;
      assert r in m && m[r].waitedBy == v;
    }
  }

  lemma WaitsBlock(pcbs: map<int, Pcb>, p: int, w: int)
    requires Waits(pcbs) && p in pcbs && w in pcbs && p != w && w != NONE && NONE !in pcbs
    requires pcbs[p].ppid == w && !pcbs[p].changed && pcbs[p].waitedBy == NONE
    requires !Waiter(pcbs[w]) && pcbs[w].sleepTime < 0
    ensures Waits(pcbs[p := pcbs[p].(waitedBy := w)][w := pcbs[w].(status := BLOCKED)])
  {
    var m := pcbs[p := pcbs[p].(waitedBy := w)][w := pcbs[w].(status := BLOCKED)];
    assert m[p].waitedBy == w;
    forall v | v in m && Waiter(m[v]) ensures exists r :: r in m && m[r].waitedBy == v {
      if v != w {
        assert Waiter(pcbs[v]);
        var r :| r in pcbs && pcbs[r].waitedBy == v;
        assert r in m && m[r].waitedBy == v;
      }
    }
  }

  /** Adding or dropping a process nobody waits for and that waits for nobody. */
  lemma WaitsWithout(pcbs: map<int, Pcb>, p: int)
    requires Waits(pcbs) && p in pcbs && !Waiter(pcbs[p]) && pcbs[p].waitedBy == NONE && NONE !in pcbs
    ensures Waits(pcbs - {p})
  {
    var m := pcbs - {p};
    forall v | v in m && Waiter(m[v]) ensures exists r :: r in m && m[r].waitedBy == v {
      assert Waiter(pcbs[v]);
      var r :| r in pcbs && pcbs[r].waitedBy == v;
      assert r in m && m[r].waitedBy == v;
    }
  }

  lemma WaitsWith(pcbs: map<int, Pcb>, p: int, b: Pcb)
    requires Waits(pcbs) && p !in pcbs && !Waiter(b) && b.waitedBy == NONE
    ensures Waits(pcbs[p := b])
  {
    var m := pcbs[p := b];
    forall v | v in m && Waiter(m[v]) ensures exists r :: r in m && m[r].waitedBy == v {
      assert Waiter(pcbs[v]);
      var r :| r in pcbs && pcbs[r].waitedBy == v;
      assert r in m && m[r].waitedBy == v;
    }
  }
}
