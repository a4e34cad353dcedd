/** What the entry points of the kernel need at each point of a scheduling pass. */
module KernelGuards {
  import opened KernelModel
  import opened KernelInvariant
  import opened KernelSteps
  import opened KernelCalls
  import opened KernelRuns
  import opened KernelLimits

  /** Queues and marks name processes of the table. */
  ghost predicate Linked(s: State) {
    && (forall q, p {:trigger p in Q(s, q)} :: p in Q(s, q) ==> p in s.pcbs)
    && (forall p :: p in s.pcbs && s.pcbs[p].waitedBy != NONE ==> s.pcbs[p].waitedBy in s.pcbs)
  }

  lemma InQueue(s: State, q: Queue, i: nat)
    requires Linked(s) && i < |Q(s, q)|
    ensures Q(s, q)[i] in s.pcbs
  {
    var p := Q(s, q)[i];
    assert p in Q(s, q);
  }

  lemma MarkLinked(s: State, p: int)
    requires Linked(s) && p in s.pcbs
    ensures s.pcbs[p].waitedBy != NONE ==> s.pcbs[p].waitedBy in s.pcbs
  {
  }

  lemma TimerLinked(s: State, p: int, t: int)
    requires Linked(s) && p in s.pcbs
    ensures Linked(SetPcb(s, p, s.pcbs[p].(sleepTime := t)))
  {
    assert forall q :: Q(SetPcb(s, p, s.pcbs[p].(sleepTime := t)), q) == Q(s, q);
  }

  lemma LinkedIs(s: State)
    requires Placement(s) && Waits(s.pcbs)
    ensures Linked(s)
  {
    hide NoDup;
    forall q, p | p in Q(s, q) ensures p in s.pcbs {
      assert p in Homes(s);
    }
  }

  /** No SIGNALED process is an orphan, and parents are older than their children. */
  ghost predicate Sweepable(s: State) {
    NoStray(s) && forall p :: p in s.pcbs ==> GoodPcb(p, s.pcbs[p])
  }

  lemma FirstOf(l: seq<int>)
    requires NoDup(l) && l != []
    ensures NoDup(l[1..]) && l[0] !in l[1..]
  {
  }

  ghost function SweptOne(s: State, p: int): State
    requires p in s.pcbs
  {
    if s.pcbs[p].ppid != NONE && s.pcbs[p].ppid !in s.pcbs then Discard(s, p) else s
  }

  /** A process becomes a zombie and its waiter ready. */
  ghost function Buried(s: State, p: int): State
    requires p in s.pcbs
  {
    var s1 := WakeWaiter(s, p);
    PutBack(if p in s1.pcbs then SetPcb(s1, p, s1.pcbs[p].(status := ZOMBIED, changed := true)) else s1, Zombie, p)
  }

  lemma ReapedIs(s: State)
    requires s.running != NONE ==> s.running in s.pcbs
    ensures Reaped(s) == if s.running != NONE && !s.finished && s.pcbs[s.running].cmd != Shell
                         then Buried(s, s.running).(running := NONE) else s
  {
    hide WakeWaiter;
  }

  lemma KilledIs(s: State, p: int, signal: Signal, rand: real)
    requires p in s.pcbs
    ensures Next(s, Killed(p, signal, rand)) ==
            match signal
            case SigCont => Cont(s, p)
            case SigStop => (if p == s.running then Schedule(Stop(s, p), rand) else Stop(s, p))
            case SigTerm => if p == s.running then Schedule(Term(s, p), rand) else Term(s, p)
  {
    hide Cont, Stop, Term, Schedule;
  }

  /** A process whose parent is gone is no SIGNALED one, and freeing it makes nobody else an orphan. */
  lemma StrayIs(s: State, p: int)
    requires Sweepable(s) && p in s.pcbs && s.pcbs[p].ppid != NONE && s.pcbs[p].ppid !in s.pcbs
    ensures Known(s.pcbs[p]) && Sweepable(Discard(s, p)) && Discard(s, p).pcbs == s.pcbs - {p}
  {
    assert Orphan(s.pcbs, p);
    forall r | r in s.pcbs - {p} && s.pcbs[r].status == SIGNALED ensures !Orphan(s.pcbs - {p}, r) {
      OrphanLess(s.pcbs, p, r);
    }
  }

  /** The sweep goes on from the state the look at one process leaves. */
  lemma SweepAt(s: State, rest: seq<int>)
    requires Sweepable(s) && rest != [] && NoDup(rest) && forall p :: p in rest ==> p in s.pcbs
    ensures var p := rest[0];
            && p in s.pcbs && (s.pcbs[p].ppid != NONE && s.pcbs[p].ppid !in s.pcbs ==> Known(s.pcbs[p]))
            && Sweep(s, rest) == Sweep(SweptOne(s, p), rest[1..])
            && Sweepable(SweptOne(s, p)) && NoDup(rest[1..])
            && forall x :: x in rest[1..] ==> x in SweptOne(s, p).pcbs
  {
    hide Sweepable;
    var p := rest[0];
    FirstOf(rest);
    if s.pcbs[p].ppid != NONE && s.pcbs[p].ppid !in s.pcbs { StrayIs(s, p); }
    hide Discard, NoDup;
  }

  lemma SweepEnd(s: State)
    ensures Sweep(s, []) == s
  {
  }

  /** One step of the walk over the blocked queue. */
  lemma SleepersAt(s: State, i: nat)
    requires Linked(s) && i < |Q(s, Blocked)|
    ensures var p := Q(s, Blocked)[i];
            && p in s.pcbs
            && var t := SetPcb(s, p, RunDown(s.pcbs[p]));
            && Sleepers(s, i) == (if s.pcbs[p].sleepTime == 0 then Retire(s, p) else Sleepers(t, i + 1))
            && t.qs == s.qs && Linked(t)
  {
    InQueue(s, Blocked, i);
    hide Linked, Retire;
    var p := Q(s, Blocked)[i];
    TimerLinked(s, p, RunDown(s.pcbs[p]).sleepTime);
    if s.pcbs[p].sleepTime < 0 { assert s.pcbs[p := s.pcbs[p]] == s.pcbs; }
  }

  /** Consuming a change, in the order the code does it. */
  lemma CollectIs(s: State, p: int)
    requires p in s.pcbs
    ensures var s1 := SetPcb(s, p, s.pcbs[p].(changed := false, waitedBy := NONE));
            Collect(s, p) == if s.pcbs[p].status == ZOMBIED || s.pcbs[p].status == SIGNALED
                             then TakeOut(s1.(pcbs := s1.pcbs - {p}, all := Remove(s1.all, p)), Zombie, p) else s1
  {
    hide Remove;
  }

  /** The ready queues are sorted by priority. */
  ghost predicate Sorting(s: State) {
    forall q, p :: p in Q(s, q) && q in {Neg, Zero, Pos} ==>
      p in s.pcbs && s.pcbs[p].priority in {-1, 0, 1} && ReadyQueue(s.pcbs[p].priority) == q
  }

  lemma HeadSorted(s: State, q: Queue)
    requires Sorting(s) && q in {Neg, Zero, Pos} && Q(s, q) != []
    ensures var p := Q(s, q)[0]; p in s.pcbs && s.pcbs[p].priority in {-1, 0, 1} && ReadyQueue(s.pcbs[p].priority) == q
  {
    assert Q(s, q)[0] in Q(s, q);
  }

  // ---- along a scheduling pass ---------------------------------------------

  /** Nobody becomes SIGNALED. */
  ghost predicate NoNewSignal(a: map<int, Pcb>, b: map<int, Pcb>) {
    forall p :: p in a && p in b && b[p].status == SIGNALED ==> a[p].status == SIGNALED
  }

  lemma SignalMarked(pcbs: map<int, Pcb>, p: int, b: Pcb)
    requires p in pcbs && b.status != SIGNALED
    ensures NoNewSignal(pcbs, Marked(pcbs, p, b))
  {
  }

  lemma {:induction false} SleepersSignals(s: State, i: nat)
    requires Table(s) && Placement(s) && Waits(s.pcbs) && NoDouble(s, i)
    ensures NoNewSignal(s.pcbs, Sleepers(s, i).pcbs)
    decreases |Q(s, Blocked)| - i
  {
    hide Table, Placement, Waits, PassKept, Marked, Retire, NoDouble, Sleepers;
    if i >= |Q(s, Blocked)| {
      WalkEnd(s, i);
    } else {
      WalkOn(s, i);
      var p := Q(s, Blocked)[i];
      if s.pcbs[p].sleepTime == 0 {
        RetireKeeps(s, p);
        SignalMarked(s.pcbs, p, s.pcbs[p].(sleepTime := -1, status := ZOMBIED, changed := true, waitedBy := NONE));
      } else {
        var t := SetPcb(s, p, RunDown(s.pcbs[p]));
        SleepersSignals(t, i + 1);
        SignalTrans(s, t, Sleepers(t, i + 1), p);
      }
    }
  }

  lemma SignalTrans(s: State, t: State, u: State, p: int)
    requires p in s.pcbs && t == SetPcb(s, p, RunDown(s.pcbs[p])) && NoNewSignal(t.pcbs, u.pcbs)
    ensures NoNewSignal(s.pcbs, u.pcbs)
  {
  }

  lemma StrayKeeps(s: State, t: State)
    requires NoStray(s) && NoNewSignal(s.pcbs, t.pcbs) && SameFamily(s.pcbs, t.pcbs)
    ensures NoStray(t)
  {
    forall p | p in t.pcbs && t.pcbs[p].status == SIGNALED ensures !Orphan(t.pcbs, p) {
      OrphanKeeps(s.pcbs, t.pcbs, p);
    }
  }

  lemma ParentsOlder(s: State)
    requires Table(s) && NoStray(s)
    ensures Sweepable(s)
  {
    hide Sorted, Orphan;
  }

  lemma SortingIs(s: State)
    requires Table(s) && Placement(s)
    ensures Sorting(s) && forall q :: NONE !in Q(s, q)
  {
    hide NoDup, Sorted;
    forall q, p | p in Q(s, q)
      ensures p in s.pcbs
      ensures q in {Neg, Zero, Pos} ==> s.pcbs[p].priority in {-1, 0, 1} && ReadyQueue(s.pcbs[p].priority) == q
    {
      assert p in Homes(s) && Homes(s)[p] == In(q);
    }
    forall q ensures NONE !in Q(s, q) {
      assert NONE !in Homes(s);
    }
  }

  /** The states a scheduling pass goes through, and what holds in each. */
  lemma PassGuards(s: State)
    requires Ready(s) && NoStray(s)
    ensures Linked(s)
    ensures var a := Sleepers(s, 0); Linked(a) && (a.running == NONE || a.running in a.pcbs)
    ensures var c := Reaped(Sleepers(s, 0)).(finished := false); Sweepable(c) && Swung(Sweep(c, c.all))
  {
    hide Table, Placement, Waits, Orphan, AddBack, Sleepers, Reaped, Sweep, NoDouble, Expired, Marked, NoStray,
         Linked, Sorting;
    var a := Sleepers(s, 0);
    SleepersKeep(s, 0);
    SleepersSignals(s, 0);
    LinkedIs(s);
    LinkedIs(a);
    RunningKnown(a);
    var b := Reaped(a);
    ReapedKeeps(a);
    OnlyOrphan(s, a, b);
    var c := b.(finished := false);
    FlagKeeps(b, c);
    StrayKeeps(s, a);
    ReapedSignals(a);
    StrayKeeps(a, c);
    ParentsOlder(c);
    SweepWhole(c);
    SweptKeeps(c);
    SwungIs(Sweep(c, c.all));
  }

  lemma ReapedSignals(s: State)
    requires Table(s) && Placement(s) && Waits(s.pcbs)
    requires s.running != NONE && !s.finished ==> s.running in s.pcbs && s.pcbs[s.running].status == RUNNING
    ensures NoNewSignal(s.pcbs, Reaped(s).pcbs)
  {
    ReapedKeeps(s);
    hide Table, Placement, Waits, Reaped, Marked;
    if s.running != NONE && !s.finished && s.pcbs[s.running].cmd != Shell {
      SignalMarked(s.pcbs, s.running, s.pcbs[s.running].(status := ZOMBIED, changed := true, waitedBy := NONE));
    }
  }

  /** Ready to choose: the current process is known, and once it is back on its queue the ready queues are sorted. */
  ghost predicate Swung(s: State) {
    (s.running == NONE || s.running in s.pcbs) && Sorting(AddBack(s)) && forall q :: NONE !in Q(AddBack(s), q)
  }

  lemma SwungIs(s: State)
    requires Table(s) && Placement(s)
    ensures Swung(s)
  {
    hide Placement, Sorting, AddBack;
    AddBackKeeps(s);
    RunningKnown(s);
    var t := AddBack(s).(running := NONE);
    SortingIs(t);
    SortingSame(t, AddBack(s));
  }

  lemma SortingSame(s: State, t: State)
    requires Sorting(s) && t.pcbs == s.pcbs && t.qs == s.qs && forall q :: NONE !in Q(s, q)
    ensures Sorting(t) && forall q :: NONE !in Q(t, q)
  {
    assert forall q :: Q(t, q) == Q(s, q);
  }

  // ---- before a step -------------------------------------------------------

  lemma KillGuards(s: State, p: int, signal: Signal, rand: real)
    requires Inv(s) && Allowed(s, Killed(p, signal, rand))
    ensures p in s.pcbs && Linked(s) && Known(s.pcbs[p]) && s.pcbs[p].priority in {-1, 0, 1}
    ensures p == s.running && signal == SigStop ==> Ready(Stop(s, p)) && NoStray(Stop(s, p))
    ensures p == s.running && signal == SigTerm ==> Ready(Term(s, p)) && NoStray(Term(s, p))
  {
    hide Placement, Waits, Orphan, Sorted, Ready, NoStray, Stop, Term, Cont;
    LinkedIs(s);
    if p == s.running && signal != SigCont {
      CallReady(s, Killed(p, signal, rand));
      PassStray(s, Killed(p, signal, rand));
    }
  }

  /** Before a scheduling pass no SIGNALED process is an orphan. */
  lemma PassStray(s: State, e: Event)
    requires Inv(s) && Allowed(s, e) && Passes(s, e)
    ensures NoStray(Call(s, e))
  {
    hide Placement, Waits, Orphan, Sorted, Stop, Term, Cont, Expired, MayWait, Marked;
    RunningKnown(s);
    match e
    case Killed(p, sig, _) =>
      if sig == SigStop { StopKeeps(s, p); } else { TermKeeps(s, p); }
      StrayMarked(s, Call(s, e), p);
    case Slept(ticks, _) => StraySame(s, Call(s, e));
    case Waited(p, _) => StraySame(s, Call(s, e));
    case _ =>
  }

  lemma StraySame(s: State, t: State)
    requires NoStray(s) && t.pcbs.Keys == s.pcbs.Keys
    requires forall p :: p in s.pcbs ==> t.pcbs[p].ppid == s.pcbs[p].ppid && t.pcbs[p].priority == s.pcbs[p].priority
                                         && (t.pcbs[p].status == SIGNALED ==> s.pcbs[p].status == SIGNALED)
    requires forall p :: p in s.pcbs ==> s.pcbs[p].priority in {-1, 0, 1}
    ensures NoStray(t)
  {
    forall p | p in t.pcbs && t.pcbs[p].status == SIGNALED ensures !Orphan(t.pcbs, p) {
      OrphanKeeps(s.pcbs, t.pcbs, p);
    }
  }

  /** The running process may become SIGNALED, but it is no orphan. */
  lemma StrayMarked(s: State, t: State, p: int)
    requires NoStray(s) && p in s.pcbs && !Orphan(s.pcbs, p) && Table(s)
    requires exists b: Pcb :: b.ppid == s.pcbs[p].ppid && b.priority in {-1, 0, 1} && t.pcbs == Marked(s.pcbs, p, b)
    ensures NoStray(t)
  {
    var b: Pcb :| b.ppid == s.pcbs[p].ppid && b.priority in {-1, 0, 1} && t.pcbs == Marked(s.pcbs, p, b);
    MarkedFamily(s.pcbs, p, b);
    hide Sorted;
    forall x | x in t.pcbs && t.pcbs[x].status == SIGNALED ensures !Orphan(t.pcbs, x) {
      OrphanKeeps(s.pcbs, t.pcbs, x);
    }
  }

  /** What each entry point asks for, from the invariant and what is admissible. */
  lemma StepGuards(s: State, e: Event)
    requires Inv(s) && Allowed(s, e)
    ensures s.maxPid !in s.pcbs
    ensures Passes(s, e) ==> Ready(Call(s, e)) && NoStray(Call(s, e))
    ensures e.Niced? && s.pcbs[e.pid].status == RUNNING ==> Known(s.pcbs[e.pid])
    ensures e.Waited? || e.Collected? ==> |s.all| != 1
  {
    hide Placement, Waits, Orphan, Ready, NoStray, Call, Expired;
    if Passes(s, e) {
      CallReady(s, e);
      PassStray(s, e);
    }
    if e.Waited? || e.Collected? {
      TwoThere(s, e.child);
    }
  }

  lemma TwoThere(s: State, p: int)
    requires Table(s) && p in s.pcbs && s.running in s.pcbs && p != s.running
    ensures |s.all| != 1
  {
    assert p in s.all && s.running in s.all;
  }
}
