/** The kernel's queues as linked nodes: over every run they hold what the model's queues hold. */
module LinkedQueues {
  import opened KernelModel
  import opened KernelInvariant
  import opened KernelSteps
  import opened KernelCalls
  import opened KernelRuns
  import opened KernelGuards
  import opened LinkedList

  function Index(q: Queue): (i: nat)
    ensures i < 6
  {
    match q
    case Neg => 0
    case Zero => 1
    case Pos => 2
    case Blocked => 3
    case Stopped => 4
    case Zombie => 5
  }

  /** Six lists with a head each. */
  ghost predicate Six(lists: seq<seq<Node>>) {
    |lists| == 6 && forall i :: 0 <= i < 6 ==> lists[i] != []
  }

  ghost function Holding(lists: seq<seq<Node>>): (m: map<Queue, seq<int>>)
    requires Six(lists)
    ensures forall q: Queue :: q in m
  {
    map q: Queue | true :: Pids(lists[Index(q)])
  }

  function Nothing(): map<Queue, seq<int>> {
    map[Neg := [], Zero := [], Pos := [], Blocked := [], Stopped := [], Zombie := []]
  }

  lemma ShellQueues()
    ensures var s := Nothing()[Zero := [1] + Nothing()[Zero]];
            && s[Zero := Remove(s[Zero], 1)] == Nothing() && s[Zero] == [1]
            && Nothing()[Neg := Nothing()[Neg] + [1]] == Boot().qs
  {
    assert Remove([1], 1) == [] && Nothing()[Neg] + [1] == [1];
    assert Boot().qs == Nothing()[Neg := [1]];
  }

  lemma HeadsOnly(lists: seq<seq<Node>>)
    requires |lists| == 6 && forall i :: 0 <= i < 6 ==> |lists[i]| == 1
    ensures Six(lists) && Holding(lists) == Nothing()
  {
    assert forall i :: 0 <= i < 6 ==> Pids(lists[i]) == [];
  }

  /** A change of one list is a change of its queue. */
  lemma HoldingWith(a: seq<seq<Node>>, b: seq<seq<Node>>, q: Queue, pids: seq<int>)
    requires Six(a) && Six(b) && Pids(b[Index(q)]) == pids
    requires forall j :: 0 <= j < 6 && j != Index(q) ==> b[j] == a[j]
    ensures Holding(b) == Holding(a)[q := pids]
  {
    hide Pids;
  }

  /** Once an expired sleeper has moved, its waiter is still blocked. */
  lemma RetireWaiter(s: State, p: int, b: Pcb)
    requires Placement(s) && Waits(s.pcbs) && p in s.pcbs && s.pcbs[p].sleepTime == 0
    requires b.waitedBy == s.pcbs[p].waitedBy
    requires b.priority == s.pcbs[p].priority
    ensures var t := PutBack(TakeOut(SetPcb(s, p, b), Blocked, p), Zombie, p);
            p in t.pcbs && t.pcbs[p] == b &&
            (b.waitedBy != NONE ==> b.waitedBy in t.pcbs && b.waitedBy in Q(t, Blocked))
  {
    var w := b.waitedBy;
    if w != NONE {
      WaiterOf(s, p);
      hide Waits;
      assert Homes(s)[w] == In(Blocked);
      assert w in Q(s, Blocked) && NoDup(Q(s, Blocked));
      RemoveIs(Q(s, Blocked), p);
    }
  }

  lemma WaiterBlocked(s: State, p: int)
    requires Placement(s) && Waits(s.pcbs) && p in s.pcbs && !Waiter(s.pcbs[p])
    ensures var w := s.pcbs[p].waitedBy; w != NONE ==> w in s.pcbs && w in Q(s, Blocked)
  {
    if s.pcbs[p].waitedBy != NONE {
      WaiterOf(s, p);
      hide Waits;
      assert Homes(s)[s.pcbs[p].waitedBy] == In(Blocked);
    }
  }

  lemma ReapedQueues(s: State)
    requires s.running != NONE && !s.finished && s.running in s.pcbs && s.pcbs[s.running].cmd != Shell
    ensures Reaped(s).running == NONE
    ensures Reaped(s).qs == PutBack(WakeWaiter(s, s.running), Zombie, s.running).qs
  {
    hide WakeWaiter;
  }

  lemma Dispatched(s: State, rand: real)
    requires Table(s.(running := NONE)) && Placement(s.(running := NONE))
    ensures var t, q := Dispatch(s, rand), Pick(s, rand);
            if Q(s, q) == [] then t.running == NONE && t.qs == s.qs
            else t.running == Q(s, q)[0] && t.qs == TakeOut(s, q, Q(s, q)[0]).qs
  {
    DispatchIs(s, rand);
  }

  lemma SweepOn(s: State, rest: seq<int>)
    requires rest != []
    ensures var p := rest[0];
            var lost := p in s.pcbs && s.pcbs[p].ppid != NONE && s.pcbs[p].ppid !in s.pcbs;
            Sweep(s, rest) == Sweep(if lost then Discard(s, p) else s, rest[1..])
  {
    hide Discard;
  }

  /** The states a pass goes through, and what the nodes need of them. */
  lemma PassStages(s: State)
    requires Ready(s)
    ensures var a := Sleepers(s, 0);
            && Table(a) && Placement(a) && Waits(a.pcbs) && Table(s) && Placement(s) && Waits(s.pcbs)
            && (a.running != NONE && !a.finished ==> a.running in a.pcbs && a.pcbs[a.running].status == RUNNING)
            && a.running == s.running && CurrentKept(s, a)
    ensures var c := Reaped(Sleepers(s, 0)).(finished := false);
            var d := AddBack(Sweep(c, c.all)).(running := NONE);
            Table(d) && Placement(d)
  {
    hide Table, Placement, Waits, Orphan, AddBack, Sleepers, Reaped, Sweep, NoDouble, Expired, Keep;
    var a := Sleepers(s, 0);
    SleepersKeep(s, 0);
    RunningKnown(s);
    var b := Reaped(a);
    ReapedKeeps(a);
    var c := b.(finished := false);
    FlagKeeps(b, c);
    OnlyOrphan(s, a, b);
    SweepWhole(c);
    SweptKeeps(c);
    AddBackKeeps(Without(c, Orphans(c.pcbs)));
  }

  /** Marking a process leaves it on its queue. */
  lemma StaysQueued(s: State, p: int, status: Status)
    requires Table(s) && Placement(s) && Waits(s.pcbs) && p in s.pcbs && !Waiter(s.pcbs[p]) && status != BLOCKED
    requires p != s.running || s.pcbs[p].status != RUNNING
    ensures p in Q(Mark(s, p, status), Home(s.pcbs[p]))
  {
    hide Mark, Table, Home;
    MarkStep(s, p, status);
    if s.pcbs[p].waitedBy != NONE { WaiterOf(s, p); }
    hide Waits;
    assert WokenHomes(s, p)[p] == In(Home(s.pcbs[p]));
  }

  /** The queues after a signal. */
  lemma Answered(s: State, p: int)
    requires p in s.pcbs
    ensures var b := s.pcbs[p];
            && (b.cmd == SleepUnderscore ||
                Cont(s, p).qs == if b.status == RUNNING || b.status == ZOMBIED then s.qs
                                 else PutBack(TakeOut(Mark(s, p, RUNNING), Home(b), p), ReadyQueue(b.priority), p).qs)
            && Stop(s, p).qs == (if b.status == STOPPED || b.status == ZOMBIED then s.qs
                                 else if p == s.running then PutBack(Mark(s, p, STOPPED), Stopped, p).qs
                                 else PutBack(TakeOut(Mark(s, p, STOPPED), Home(b), p), Stopped, p).qs)
            && Term(s, p).qs == if p == s.running then PutBack(Mark(s, p, SIGNALED), Zombie, p).qs
                                else PutBack(TakeOut(Mark(s, p, SIGNALED), Home(b), p), Zombie, p).qs
  {
    hide Mark, TakeOut, Home;
  }

  /** Does the running process lay its node on a queue? */
  predicate Lays(s: State, e: Event) {
    e.Slept? || e.Waited? || (e.Killed? && e.pid == s.running && e.signal != SigCont)
  }

  function Signalled(s: State, p: int, sig: Signal): State
    requires p in s.pcbs
  {
    match sig
    case SigCont => Cont(s, p)
    case SigStop => Stop(s, p)
    case SigTerm => Term(s, p)
  }

  /** What a call needs of the state for its nodes to be there. */
  predicate Fits(s: State, e: Event) {
    match e
    case Slept(_, _) => HasRunning(s)
    case Waited(p, _) => HasRunning(s) && p in s.pcbs
    case Collected(p) => p in s.pcbs
    case Niced(p, _) => p in s.pcbs && p != s.running
    case Killed(p, sig, _) =>
      && p in s.pcbs && !Waiter(s.pcbs[p]) && (p == s.running ==> s.pcbs[p].status == RUNNING)
      && (sig == SigCont ==> s.pcbs[p].cmd != SleepUnderscore)
    case _ => true
  }

  /** The queues after a call that does not look at the status of a process. */
  lemma CallQueues(s: State, e: Event)
    requires Fits(s, e)
    ensures e.Slept? || e.Waited? ==> Call(s, e).qs == PutBack(s, Blocked, s.running).qs
    ensures e.Ticked? || e.Returned? ==> Call(s, e).qs == s.qs
    ensures e.Killed? ==> Call(s, e) == Signalled(s, e.pid, e.signal)
  {
  }

  /** A call by which the process that runs lays its node down. */
  lemma LaidDown(s: State, e: Event)
    requires Fits(s, e) && Loose(s) && Lays(s, e)
    ensures e.Killed? ==> e.pid == s.running && e.signal != SigCont
    ensures e.Killed? ==> e.pid in s.pcbs && s.pcbs[e.pid].status == RUNNING
    ensures e.Killed? ==> Call(s, e) == Signalled(s, e.pid, e.signal)
    ensures !e.Killed? ==> Call(s, e).qs == PutBack(s, Blocked, s.running).qs
  {
    hide Table, Placement, Waits, Signalled;
    CallQueues(s, e);
  }

  /** Who runs after a call did so before and has not laid its node down. */
  predicate StillRuns(s: State, e: Event) {
    && (Lays(s, e) ==> s.running != NONE && s.running in s.pcbs && s.pcbs[s.running].status == RUNNING)
    && var t := Call(s, e);
       t.running != NONE && t.running in t.pcbs && t.pcbs[t.running].status == RUNNING ==>
         !Lays(s, e) && t.running == s.running && s.running in s.pcbs && s.pcbs[s.running].status == RUNNING
  }

  lemma NextIs(s: State, e: Event)
    ensures Passes(s, e) ==> !e.Spawned? && !e.Collected? && !e.Niced? && Next(s, e) == Schedule(Call(s, e), e.rand)
    ensures !Passes(s, e) ==> Next(s, e) == Call(s, e)
  {
  }

  lemma StepFits(s: State, e: Event)
    requires Inv(s) && Allowed(s, e)
    ensures Loose(s) && Fits(s, e) && (Passes(s, e) ==> Ready(Call(s, e)))
    ensures StillRuns(s, e)
  {
    RunningKnown(s);
    if Passes(s, e) { CallReady(s, e); }
    hide Table, Placement, Waits, Orphan, Stop, Term, Cont, Nice, Collect, Ready, NoStray;
    match e
    case Collected(p) => CollectKeeps(s, p);
    case Niced(p, priority) => NiceKeeps(s, p, priority);
    case Killed(p, sig, _) =>
      if sig == SigStop { StopKeeps(s, p); } else if sig == SigTerm { TermKeeps(s, p); } else { ContKeeps(s, p); }
    case _ =>
  }

  /** The walk over the sleepers stopped before the expired `p`, or ended without one. */
  ghost predicate Walked(s: State, t: State, p: int) {
    && Placement(t) && Waits(t.pcbs)
    && if p == NONE then t == Sleepers(s, 0)
       else && p in t.pcbs && p in Q(t, Blocked) && t.pcbs[p].sleepTime == 0 && Sleepers(s, 0) == Retire(t, p)
  }

  lemma WalkedTo(s: State, t: State, p: int)
    requires Placement(t) && Waits(t.pcbs)
    requires if p == NONE then t == Sleepers(s, 0)
             else p in t.pcbs && p in Q(t, Blocked) && t.pcbs[p].sleepTime == 0 && Sleepers(s, 0) == Retire(t, p)
    ensures Walked(s, t, p)
  {
  }

  /** The six queues and the node of the running process; the process table stays a value. */
  class Links {
    const queues: QueueSet
    var current: Node?

    ghost predicate Valid()
      reads queues, queues.Nodes()
    {
      queues.Valid() && |queues.heads| == 6
    }

    /** The pids on each queue. */
    ghost function Qs(): (m: map<Queue, seq<int>>)
      requires Valid()
      ensures forall q: Queue :: q in m
      reads queues, queues.Nodes()
    {
      Holding(queues.lists)
    }

    /** The nodes hold exactly what the queues of `s` hold. */
    ghost predicate Holds(s: State)
      reads queues, queues.Nodes()
    {
      Valid() && Qs() == s.qs
    }

    /** A process that runs has its node in hand, off all queues. */
    ghost predicate Carries(s: State)
      reads this`current, queues
    {
      s.running != NONE && s.running in s.pcbs && s.pcbs[s.running].status == RUNNING ==> InHand(s.running)
    }

    ghost predicate InHand(p: int)
      reads this`current, queues
    {
      current != null && current.pid == p && current !in queues.Nodes()
    }

    ghost function Repr(): set<object>
      reads this`current, queues
    {
      {queues} + queues.Nodes() + if current == null then {} else {current}
    }

    constructor ()
      ensures Holds(Boot()) && Carries(Boot()) && fresh(Repr())
    {
      queues := new QueueSet(6);
      current := null;
      new;
      hide Chained, Apart, Pids, Boot;
      HeadsOnly(queues.lists);
      hide QueueSet.Valid, AllOf, Holding, Six;
      AddShell();
    }

    /** The shell's node goes to the middle queue, then to the first one. */
    method AddShell()
      requires Valid() && Qs() == Nothing()
      modifies queues, queues.Nodes()
      ensures Holds(Boot()) && fresh(queues.Nodes() - old(queues.Nodes()))
    {
      hide QueueSet.Valid, AllOf, Holding, Six;
      ShellQueues();
      FrontNode(Zero, 1);
      var shell := TakeNode(Zero, 1);
      PutNode(Neg, shell);
    }

    // ---- one queue ---------------------------------------------------------

    method TakeNode(q: Queue, p: int) returns (n: Node?)
      requires Valid()
      modifies queues, queues.Nodes()
      ensures Valid() && Qs() == old(Qs())[q := Remove(old(Qs())[q], p)]
      ensures n == null <==> p !in old(Qs())[q]
      ensures n != null ==> n.pid == p && n in old(queues.Nodes()) && n !in queues.Nodes()
      ensures queues.Nodes() <= old(queues.Nodes())
    {
      ghost var was := queues.lists;
      hide Chained, Apart, Remove, Pids;
      n := queues.Take(Index(q), p);
      HoldingWith(was, queues.lists, q, Remove(old(Qs())[q], p));
    }

    method FrontNode(q: Queue, p: int)
      requires Valid()
      modifies queues, queues.Nodes()
      ensures Valid() && Qs() == old(Qs())[q := [p] + old(Qs())[q]]
      ensures old(queues.Nodes()) <= queues.Nodes() && fresh(queues.Nodes() - old(queues.Nodes()))
    {
      ghost var was := queues.lists;
      hide Chained, Apart, Pids, Index, Holding;
      assert |was[Index(q)]| > 0;
      var n := queues.Front(Index(q), p);
      HoldingWith(was, queues.lists, q, [p] + old(Qs())[q]);
    }

    method PutNode(q: Queue, n: Node)
      requires Valid() && n !in queues.Nodes()
      modifies queues, queues.Nodes(), n
      ensures Valid() && Qs() == old(Qs())[q := old(Qs())[q] + [n.pid]]
      ensures queues.Nodes() == old(queues.Nodes()) + {n}
    {
      ghost var was := queues.lists;
      hide Chained, Apart, Pids;
      queues.Put(Index(q), n);
      HoldingWith(was, queues.lists, q, old(Qs())[q] + [n.pid]);
    }

    /** The k-th node of a queue, the head being the 0-th. */
    lemma Along(q: Queue, k: nat)
      requires Valid() && k <= |Qs()[q]|
      ensures var l := queues.lists[Index(q)];
              && k < |l| && (k + 1 < |l| ==> l[k].next != null)
              && l[k].next == (if k + 1 == |l| then null else l[k + 1]) && l[0] == queues.heads[Index(q)]
              && |l| == |Qs()[q]| + 1 && (k > 0 ==> Qs()[q][k - 1] == l[k].pid)
    {
      assert Chained(queues.lists[Index(q)]);
    }

    /** remove_from_qs finds the node, append_exist_node takes it. */
    method Move(from: Queue, to: Queue, p: int, ghost s: State)
      requires Holds(s) && p in Q(s, from)
      modifies queues, queues.Nodes()
      ensures Holds(PutBack(TakeOut(s, from, p), to, p))
      ensures queues.Nodes() <= old(queues.Nodes())
    {
      var n := TakeNode(from, p);
      PutNode(to, n);
    }

    // ---- the scheduling pass -----------------------------------------------

    /** The waiter's node goes from the blocked queue to a ready queue. */
    method Wake(s: State, p: int)
      requires Holds(s) && p in s.pcbs
      requires var w := s.pcbs[p].waitedBy; w != NONE ==> w in s.pcbs && w in Q(s, Blocked)
      modifies queues, queues.Nodes()
      ensures Holds(WakeWaiter(s, p)) && queues.Nodes() <= old(queues.Nodes())
    {
      hide QueueSet.Valid, AllOf, Holding, Six, Qs, Chained, Pids, Apart, Index;
      var w := s.pcbs[p].waitedBy;
      if w != NONE {
        Move(Blocked, ReadyQueue(s.pcbs[w].priority), w, s);
      }
    }

    /** An expired sleeper's node goes to the zombie queue. */
    method RetireNode(s: State, p: int)
      requires Holds(s) && Placement(s) && Waits(s.pcbs) && p in s.pcbs && p in Q(s, Blocked)
      requires s.pcbs[p].sleepTime == 0
      modifies queues, queues.Nodes()
      ensures Holds(Retire(s, p)) && queues.Nodes() <= old(queues.Nodes())
    {
      var b := s.pcbs[p].(sleepTime := -1, status := ZOMBIED, changed := true);
      var s1 := SetPcb(s, p, b);
      RetireWaiter(s, p, b);
      hide Placement, Waits, TakeOut, PutBack, QueueSet.Valid, AllOf, Holding, Six, WakeWaiter;
      Move(Blocked, Zombie, p, s1);
      Wake(PutBack(TakeOut(s1, Blocked, p), Zombie, p), p);
    }

    /** check_sleeping_threads, along the nodes of the blocked queue. */
    method RunTimers(s: State) returns (t: State)
      requires Holds(s) && Table(s) && Placement(s) && Waits(s.pcbs)
      modifies queues, queues.Nodes()
      ensures t == Sleepers(s, 0) && Holds(t) && queues.Nodes() <= old(queues.Nodes())
    {
      hide QueueSet.Valid, AllOf, Holding, Six, Qs, Placement, Table, Waits, Retire, Sleepers;
      var p;
      t, p := WalkNodes(s);
      if p != NONE {
        RetireNode(t, p);
        t := Retire(t, p);
      }
    }

    /** The walk runs the timers down and stops at the first expired one. */
    method WalkNodes(s: State) returns (t: State, p: int)
      requires Holds(s) && Table(s) && Placement(s) && Waits(s.pcbs)
      ensures Holds(t) && queues.Nodes() == old(queues.Nodes()) && Walked(s, t, p)
    {
      ghost var l := queues.lists[Index(Blocked)];
      hide QueueSet.Valid, AllOf, Holding, Six, Placement, Table, Waits, SetPcb, Retire, Sleepers, RunDown, PassKept,
           NoDouble, Walked, Qs, Index, Chained, Pids, Apart;
      t, p := s, NONE;
      Along(Blocked, 0);
      var cur := queues.heads[Index(Blocked)].next;
      ghost var i := 0;
      while cur != null
        invariant Holds(t) && queues.lists == old(queues.lists) && queues.Nodes() == old(queues.Nodes())
        invariant Table(t) && Placement(t) && Waits(t.pcbs) && Sleepers(t, i) == Sleepers(s, 0)
        invariant 0 <= i < |l| && cur == if i + 1 == |l| then null else l[i + 1]
        decreases |l| - i
      {
        Along(Blocked, i + 1);
        WalkOn(t, i);
        if t.pcbs[cur.pid].sleepTime == 0 {
          p := cur.pid;
          WalkedTo(s, t, p);
          return;
        }
        t := SetPcb(t, cur.pid, RunDown(t.pcbs[cur.pid]));
        cur := cur.next;
        i := i + 1;
      }
      WalkEnd(t, i);
      WalkedTo(s, t, p);
    }

    /** The node in hand goes to a queue. */
    method PutCurrent(q: Queue, ghost s: State, p: int)
      requires Holds(s) && InHand(p)
      modifies queues, queues.Nodes(), current
      ensures Holds(PutBack(s, q, p)) && queues.Nodes() == old(queues.Nodes()) + {current}
    {
      PutNode(q, current);
    }

    /** The node of a process whose function returned goes to the zombie queue. */
    method Reap(s: State) returns (t: State)
      requires Holds(s) && Carries(s) && Table(s) && Placement(s) && Waits(s.pcbs)
      requires s.running != NONE && !s.finished ==> s.pcbs[s.running].status == RUNNING
      modifies Repr()
      ensures t == Reaped(s) && Holds(t) && Carries(t) && Repr() <= old(Repr())
    {
      t := Reaped(s);
      if s.running != NONE && !s.finished && s.pcbs[s.running].cmd != Shell {
        WaiterBlocked(s, s.running);
        ReapedQueues(s);
        assert InHand(s.running);
        hide *;
        ReapCurrent(s, s.running);
      }
    }

    method ReapCurrent(s: State, p: int)
      requires Holds(s) && InHand(p) && p in s.pcbs
      requires var w := s.pcbs[p].waitedBy; w != NONE ==> w in s.pcbs && w in Q(s, Blocked)
      modifies Repr()
      ensures Holds(PutBack(WakeWaiter(s, p), Zombie, p)) && Repr() <= old(Repr())
    {
      hide TakeOut, PutBack, QueueSet.Valid, AllOf, Holding, Six, WakeWaiter;
      Wake(s, p);
      PutCurrent(Zombie, WakeWaiter(s, p), p);
    }

    /** check_orphan_child: the nodes of orphans are dropped. */
    method DropOrphans(s: State) returns (t: State)
      requires Holds(s) && Carries(s)
      modifies Repr()
      ensures t == Sweep(s, s.all) && Holds(t) && Carries(t) && Repr() <= old(Repr())
    {
      hide QueueSet.Valid, AllOf, Holding, Six, Sweep, Discard, Home;
      t := s;
      var rest := s.all;
      while rest != []
        invariant Holds(t) && Carries(t) && Repr() <= old(Repr())
        invariant Sweep(t, rest) == Sweep(s, s.all)
        decreases |rest|
      {
        var p := rest[0];
        SweepOn(t, rest);
        if p in t.pcbs && t.pcbs[p].ppid != NONE && t.pcbs[p].ppid !in t.pcbs {
          DiscardIs(t, p);
          if p != t.running {
            var n := TakeNode(Home(t.pcbs[p]), p);
          }
          t := Discard(t, p);
        }
        rest := rest[1..];
      }
      SweepEnd(t);
    }

    /** The process that runs goes back to its ready queue. */
    method Enqueue(s: State)
      requires Holds(s) && Carries(s)
      modifies Repr()
      ensures Holds(AddBack(s)) && Repr() <= old(Repr())
    {
      hide QueueSet.Valid, AllOf, Holding, Six;
      if s.running != NONE && s.running in s.pcbs && s.pcbs[s.running].status == RUNNING {
        PutCurrent(ReadyQueue(s.pcbs[s.running].priority), s, s.running);
      }
    }

    /** The first node of the picked queue is taken in hand. */
    method Choose(s: State, rand: real) returns (t: State)
      requires Holds(s) && Table(s.(running := NONE)) && Placement(s.(running := NONE))
      modifies this, Repr()
      ensures t == Dispatch(s, rand) && Holds(t) && Carries(t) && Repr() <= old(Repr())
    {
      Dispatched(s, rand);
      hide QueueSet.Valid, AllOf, Holding, Six, Pick, Placement, Table, Dispatch, TakeOut, Qs, Index;
      t := Dispatch(s, rand);
      if Q(s, Pick(s, rand)) != [] {
        Draw(Pick(s, rand), s);
      }
    }

    /** The first node of a queue is taken in hand. */
    method Draw(q: Queue, ghost s: State)
      requires Holds(s) && Q(s, q) != []
      modifies this, Repr()
      ensures Holds(TakeOut(s, q, Q(s, q)[0])) && InHand(Q(s, q)[0]) && Repr() <= old(Repr())
    {
      hide QueueSet.Valid, AllOf, Holding, Six, Remove, Index, Qs, Pids;
      Along(q, 0);
      Along(q, 1);
      var first := queues.heads[Index(q)].next;
      current := TakeNode(q, first.pid);
    }

    /** schedule, on the nodes. */
    method Pass(s: State, rand: real) returns (t: State)
      requires Holds(s) && Carries(s) && Ready(s)
      modifies this, Repr()
      ensures t == Schedule(s, rand) && Holds(t) && (!t.halted ==> Carries(t)) && Repr() <= old(Repr())
    {
      PassStages(s);
      hide *;
      t := RunTimers(s);
      assert Carries(t);
      t := Reap(t);
      t := t.(finished := false);
      t := DropOrphans(t);
      if !HasShell(t) {
        t := t.(halted := true);
      } else {
        Enqueue(t);
        t := Choose(AddBack(t), rand);
      }
    }

    // ---- kernel calls ------------------------------------------------------

    /** A process is marked changed and its waiter's node becomes ready. */
    method MarkNode(s: State, p: int, status: Status)
      requires Holds(s) && Placement(s) && Waits(s.pcbs) && p in s.pcbs && !Waiter(s.pcbs[p])
      modifies queues, queues.Nodes()
      ensures Holds(Mark(s, p, status)) && queues.Nodes() <= old(queues.Nodes())
    {
      WaiterBlocked(s, p);
      hide Placement, Waits, QueueSet.Valid, AllOf, Holding, Six, WakeWaiter, Waiter;
      Wake(SetPcb(s, p, s.pcbs[p].(status := status, changed := true)), p);
    }

    /** The node of a process that is on a queue moves to another: remove_from_qs finds it. */
    method Requeue(s: State, p: int, status: Status, to: Queue)
      requires Holds(s) && Table(s) && Placement(s) && Waits(s.pcbs) && p in s.pcbs && !Waiter(s.pcbs[p])
      requires status != BLOCKED
      requires p != s.running || s.pcbs[p].status != RUNNING
      modifies queues, queues.Nodes()
      ensures Holds(PutBack(TakeOut(Mark(s, p, status), Home(s.pcbs[p]), p), to, p))
      ensures queues.Nodes() <= old(queues.Nodes())
    {
      StaysQueued(s, p, status);
      MarkNode(s, p, status);
      hide *;
      Move(Home(s.pcbs[p]), to, p, Mark(s, p, status));
    }

    /** The process that runs is marked and lays its node on a queue. */
    method Lay(s: State, p: int, status: Status, to: Queue)
      requires Holds(s) && InHand(p) && Placement(s) && Waits(s.pcbs) && p in s.pcbs && !Waiter(s.pcbs[p])
      modifies Repr()
      ensures Holds(PutBack(Mark(s, p, status), to, p)) && Repr() <= old(Repr())
    {
      hide QueueSet.Valid, AllOf, Holding, Six, Mark, PutBack, Placement, Waits;
      MarkNode(s, p, status);
      PutCurrent(to, Mark(s, p, status), p);
    }

    /** k_process_kill with SIGCONT. */
    method Continue(s: State, p: int)
      requires Holds(s) && Loose(s) && p in s.pcbs && !Waiter(s.pcbs[p]) && s.pcbs[p].cmd != SleepUnderscore
      requires p == s.running ==> s.pcbs[p].status == RUNNING
      modifies queues, queues.Nodes()
      ensures Holds(Cont(s, p)) && queues.Nodes() <= old(queues.Nodes())
    {
      Answered(s, p);
      hide QueueSet.Valid, AllOf, Holding, Six, Mark, TakeOut, PutBack, Placement, Waits, Table, Orphan, Home, Stop,
           Term, Cont, Qs;
      if s.pcbs[p].status != RUNNING && s.pcbs[p].status != ZOMBIED {
        Requeue(s, p, RUNNING, ReadyQueue(s.pcbs[p].priority));
      }
    }

    /** k_process_kill with SIGSTOP to a process that is not current. */
    method Suspend(s: State, p: int)
      requires Holds(s) && Loose(s) && p in s.pcbs && !Waiter(s.pcbs[p]) && p != s.running
      modifies queues, queues.Nodes()
      ensures Holds(Stop(s, p)) && queues.Nodes() <= old(queues.Nodes())
    {
      Answered(s, p);
      hide QueueSet.Valid, AllOf, Holding, Six, Mark, TakeOut, PutBack, Placement, Waits, Table, Orphan, Home, Stop,
           Term, Cont, Qs;
      if s.pcbs[p].status != STOPPED && s.pcbs[p].status != ZOMBIED {
        Requeue(s, p, STOPPED, Stopped);
      }
    }

    /** k_process_kill with SIGTERM to a process that is not current. */
    method Terminate(s: State, p: int)
      requires Holds(s) && Loose(s) && p in s.pcbs && !Waiter(s.pcbs[p]) && p != s.running
      modifies queues, queues.Nodes()
      ensures Holds(Term(s, p)) && queues.Nodes() <= old(queues.Nodes())
    {
      Answered(s, p);
      hide QueueSet.Valid, AllOf, Holding, Six, Mark, TakeOut, PutBack, Placement, Waits, Table, Orphan, Home, Stop,
           Term, Cont, Qs;
      Requeue(s, p, SIGNALED, Zombie);
    }

    /** A signal to the process that runs. */
    method KillCurrent(s: State, p: int, sig: Signal)
      requires Holds(s) && Loose(s) && p in s.pcbs && p == s.running && s.pcbs[p].status == RUNNING && InHand(p)
      requires sig != SigCont
      modifies Repr()
      ensures Holds(Signalled(s, p, sig)) && Repr() <= old(Repr())
    {
      Answered(s, p);
      hide QueueSet.Valid, AllOf, Holding, Six, Mark, TakeOut, PutBack, Placement, Waits, Table, Orphan, Home, Stop,
           Term, Cont, Qs;
      if sig == SigStop {
        Lay(s, p, STOPPED, Stopped);
      } else {
        Lay(s, p, SIGNALED, Zombie);
      }
    }

    /** p_nice. */
    method Renice(s: State, p: int, priority: int)
      requires Holds(s) && Placement(s) && p in s.pcbs && p != s.running
      modifies queues, queues.Nodes()
      ensures Holds(Nice(s, p, priority)) && queues.Nodes() <= old(queues.Nodes())
    {
      hide QueueSet.Valid, AllOf, Holding, Six, TakeOut, PutBack;
      if s.pcbs[p].status == RUNNING {
        assert Homes(s)[p] == In(Home(s.pcbs[p]));
        Move(Home(s.pcbs[p]), ReadyQueue(priority), p, s);
      }
    }

    /** A signal after which the process that runs still runs. */
    method KillOther(s: State, p: int, sig: Signal)
      requires Holds(s) && Loose(s) && p in s.pcbs && !Waiter(s.pcbs[p]) && (p != s.running || sig == SigCont)
      requires p == s.running ==> s.pcbs[p].status == RUNNING
      requires sig == SigCont ==> s.pcbs[p].cmd != SleepUnderscore
      modifies queues, queues.Nodes()
      ensures Holds(Signalled(s, p, sig)) && queues.Nodes() <= old(queues.Nodes())
    {
      hide QueueSet.Valid, AllOf, Holding, Six, Stop, Term, Cont, Table, Placement, Waits, Orphan, Qs;
      if sig == SigCont {
        Continue(s, p);
      } else if sig == SigStop {
        Suspend(s, p);
      } else {
        Terminate(s, p);
      }
    }

    /** The calls that leave the process that runs alone. */
    method Aside(s: State, e: Event)
      requires Holds(s) && Placement(s) && !e.Killed? && !e.Slept? && !e.Waited?
      requires e.Collected? ==> e.child in s.pcbs
      requires e.Niced? ==> e.pid in s.pcbs && e.pid != s.running
      modifies queues, queues.Nodes()
      ensures Holds(Call(s, e)) && fresh(queues.Nodes() - old(queues.Nodes()))
    {
      hide QueueSet.Valid, AllOf, Holding, Six, Nice, Placement, Remove;
      match e
      case Spawned(_) => FrontNode(Zero, s.maxPid);
      case Collected(p) =>
        if s.pcbs[p].status == ZOMBIED || s.pcbs[p].status == SIGNALED {
          var n := TakeNode(Zombie, p);
        }
      case Niced(p, priority) => Renice(s, p, priority);
      case _ =>
    }

    /** A call by which the process that runs lays its node down. */
    method LayDown(s: State, e: Event)
      requires Holds(s) && Loose(s) && Fits(s, e) && Lays(s, e) && InHand(s.running)
      modifies Repr()
      ensures Holds(Call(s, e)) && Repr() <= old(Repr())
    {
      hide QueueSet.Valid, AllOf, Holding, Six, PutBack, Signalled, Loose, Qs, Call, Fits, Lays, Chained, Pids, Apart,
           Index;
      LaidDown(s, e);
      if e.Killed? {
        KillCurrent(s, e.pid, e.signal);
      } else {
        PutCurrent(Blocked, s, s.running);
      }
    }

    /** Any other call. */
    method StayOn(s: State, e: Event)
      requires Holds(s) && Loose(s) && Fits(s, e) && !Lays(s, e)
      modifies queues, queues.Nodes()
      ensures Holds(Call(s, e)) && fresh(queues.Nodes() - old(queues.Nodes()))
    {
      CallQueues(s, e);
      hide QueueSet.Valid, AllOf, Holding, Six, Signalled, Table, Placement, Waits, Orphan, Qs, Call;
      if e.Killed? {
        KillOther(s, e.pid, e.signal);
      } else {
        Aside(s, e);
      }
    }

    /** A kernel call, up to the scheduling pass. */
    method Enter(s: State, e: Event)
      requires Holds(s) && Loose(s) && Fits(s, e) && Carries(s) && StillRuns(s, e)
      modifies Repr()
      ensures Holds(Call(s, e)) && Carries(Call(s, e)) && fresh(Repr() - old(Repr()))
    {
      hide QueueSet.Valid, AllOf, Holding, Six, Qs, Call, Loose, Fits, Lays;
      if Lays(s, e) {
        LayDown(s, e);
      } else {
        StayOn(s, e);
      }
    }

    /** Every admissible step changes the nodes as it changes the queues of the model, and
        the process that runs afterwards has its node in hand. */
    method Step(s: State, e: Event) returns (t: State)
      requires Holds(s) && Carries(s) && Inv(s) && Allowed(s, e)
      modifies this, Repr()
      ensures t == Next(s, e) && Holds(t) && (!t.halted ==> Carries(t)) && fresh(Repr() - old(Repr()))
    {
      StepFits(s, e);
      NextIs(s, e);
      hide *;
      Enter(s, e);
      t := Call(s, e);
      if Passes(s, e) {
        t := Pass(t, e.rand);
      }
    }
  }

  /** Over every run from the start the nodes hold what the model's queues hold. */
  method RunNodes(es: seq<Event>) returns (links: Links, s: State)
    requires Admissible(Boot(), es)
    ensures s == Run(Boot(), es) && links.Holds(s) && (!s.halted ==> links.Carries(s))
  {
    links := new Links();
    s := Boot();
    BootIs();
    var rest := es;
    hide *;
    while rest != []
      invariant links.Holds(s) && (!s.halted ==> links.Carries(s)) && fresh(links) && fresh(links.Repr())
      invariant Inv(s) && Admissible(s, rest) && Run(s, rest) == Run(Boot(), es)
      decreases |rest|
    {
      RunStep(s, rest);
      ghost var was := links.Repr();
      label Before:
      s := links.Step(s, rest[0]);
      forall o | o in links.Repr() && o !in was ensures fresh(o) {
        assert o in links.Repr() - was && !old@Before(allocated(o));
      }
      rest := rest[1..];
    }
    RunStep(s, rest);
  }

  lemma RunStep(s: State, es: seq<Event>)
    requires Admissible(s, es) && Inv(s)
    ensures if es == [] then Run(s, es) == s
            else var t := Next(s, es[0]);
                 Allowed(s, es[0]) && !s.halted && Admissible(t, es[1..]) && Run(s, es) == Run(t, es[1..]) && Inv(t)
  {
    if es != [] { NextKeeps(s, es[0]); }
    hide Next, Inv;
  }
}
