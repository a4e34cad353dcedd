/** Exactly when waiting and continuing keep every process in one place. */
module KernelLimits {
  import opened KernelModel
  import opened KernelInvariant
  import opened KernelSteps
  import opened KernelCalls
  import opened KernelRuns

  /** Continuing leaves every process in its place unless it would move a process whose command is "sleep_":
      that one becomes RUNNING on the blocked queue. */
  lemma ContExactly(s: State, p: int)
    requires Inv(s) && !s.halted && p in s.pcbs && !Waiter(s.pcbs[p])
    ensures Placement(Cont(s, p)) <==> s.pcbs[p].status in {RUNNING, ZOMBIED} || s.pcbs[p].cmd != SleepUnderscore
    ensures s.pcbs[p].status !in {RUNNING, ZOMBIED} && s.pcbs[p].cmd == SleepUnderscore ==>
              var t := Cont(s, p);
              p in t.pcbs && t.pcbs[p].status == RUNNING && forall q :: p in Q(t, q) <==> q == Blocked
  {
    hide Table, Placement, Waits, Orphan, Cont, Waiter;
    var b := s.pcbs[p];
    RunningKnown(s);
    if b.cmd != SleepUnderscore {
      ContKeeps(s, p);
    } else if b.status != RUNNING && b.status != ZOMBIED {
      SleeperMoved(s, p);
      MisplacedRunner(Cont(s, p), p);
    } else {
      assert Cont(s, p) == s by { ContSettled(s, p); }
    }
  }

  lemma ContSettled(s: State, p: int)
    requires p in s.pcbs && s.pcbs[p].status in {RUNNING, ZOMBIED}
    ensures Cont(s, p) == s
  {
  }

  /** A RUNNING process on the blocked queue is misplaced. */
  lemma MisplacedRunner(s: State, p: int)
    requires p in s.pcbs && s.pcbs[p].status == RUNNING && p in Q(s, Blocked)
    ensures !Placement(s)
  {
    assert Homes(s)[p] != In(Blocked);
  }

  lemma SleeperMoved(s: State, p: int)
    requires Inv(s) && !s.halted && p in s.pcbs && !Waiter(s.pcbs[p])
    requires s.pcbs[p].status !in {RUNNING, ZOMBIED} && s.pcbs[p].cmd == SleepUnderscore
    ensures var t := Cont(s, p);
            p in t.pcbs && t.pcbs[p].status == RUNNING && forall q :: p in Q(t, q) <==> q == Blocked
  {
    hide Orphan, Sorted, PlacedAs, TakeOut, PutBack, Mark, WakeWaiter;
    var b, m := s.pcbs[p], Mark(s, p, RUNNING);
    if b.waitedBy != NONE { WaiterOf(s, p); }
    MarkStep(s, p, RUNNING);
    hide Table, Waits, Waiter;
    MovePlaced(m, WokenHomes(s, p), Home(b), Blocked, p);
    MovedPcbs(m, Home(b), Blocked, p);
    PlaceOnly(Cont(s, p), WokenHomes(s, p)[p := In(Blocked)], p);
  }

  lemma PlaceOnly(s: State, h: map<int, Place>, p: int)
    requires PlacedAs(s, h) && p in h
    ensures forall q :: p in Q(s, q) <==> h[p] == In(q)
  {
  }

  // ---- waiting for a sleeper that is about to be retired -------------------

  /** `w` is current, and also on the ready queue of its priority. */
  ghost predicate Twice(s: State, w: int) {
    && w in s.pcbs && w == s.running && s.pcbs[w].status == RUNNING && !Orphan(s.pcbs, w)
    && w in Q(s, ReadyQueue(s.pcbs[w].priority))
  }

  /** Retiring the sleeper its current waiter waits for. */
  lemma RetireTwice(s: State, p: int, w: int)
    requires p in s.pcbs && w in s.pcbs && p != w && s.pcbs[p].waitedBy == w != NONE && w == s.running
    requires !Orphan(s.pcbs, w) && forall r :: r in s.pcbs ==> s.pcbs[r].priority in {-1, 0, 1}
    ensures Twice(Retire(s, p), w) && Retire(s, p).finished == s.finished
  {
    hide Orphan, Remove;
    var t := Retire(s, p);
    assert t.pcbs[w] == s.pcbs[w].(status := RUNNING);
    OrphanKeeps(s.pcbs, t.pcbs, w);
  }

  lemma {:induction false} SleepersTwice(s: State, i: nat, p: int, w: int)
    requires Placement(s) && Expired(s, i) == p && p in s.pcbs && w in s.pcbs && p != w && p != NONE
    requires s.pcbs[p].waitedBy == w != NONE && w == s.running && !Orphan(s.pcbs, w)
    requires forall r :: r in s.pcbs ==> s.pcbs[r].priority in {-1, 0, 1}
    ensures Twice(Sleepers(s, i), w) && Sleepers(s, i).finished == s.finished
    decreases |Q(s, Blocked)| - i
  {
    hide Placement, Orphan, Retire, Twice;
    var x := Q(s, Blocked)[i];
    BlockedMember(s, i);
    if s.pcbs[x].sleepTime == 0 {
      RetireTwice(s, p, w);
    } else if s.pcbs[x].sleepTime > 0 {
      var t := if s.pcbs[x].sleepTime > 1 then s.pcbs[x].sleepTime - 2 else 0;
      var s1 := SetPcb(s, x, s.pcbs[x].(sleepTime := t));
      TimerPlaced(s, x, t);
      ExpiredKeeps(s, s1, i + 1);
      OrphanKeeps(s.pcbs, s1.pcbs, w);
      SleepersTwice(s1, i + 1, p, w);
    } else {
      SleepersTwice(s, i + 1, p, w);
    }
  }

  lemma TimerPlaced(s: State, x: int, t: int)
    requires Placement(s) && x in s.pcbs
    ensures Placement(SetPcb(s, x, s.pcbs[x].(sleepTime := t)))
  {
    hide PlacedAs;
    var s1 := SetPcb(s, x, s.pcbs[x].(sleepTime := t));
    SameQueues(s, s1, Homes(s));
    assert Homes(s1) == Homes(s);
  }

  /** Freeing an orphan orphans nobody who was not one. */
  lemma {:induction false} OrphanLess(pcbs: map<int, Pcb>, x: int, w: int)
    requires !Orphan(pcbs, w) && Orphan(pcbs, x)
    requires forall r :: r in pcbs ==> pcbs[r].ppid == NONE || 1 <= pcbs[r].ppid < r
    ensures !Orphan(pcbs - {x}, w)
    decreases if w < 0 then 0 else w
  {
    if w in pcbs && pcbs[w].ppid != NONE {
      OrphanLess(pcbs, x, pcbs[w].ppid);
    }
  }

  lemma DiscardTwice(s: State, x: int, w: int)
    requires Twice(s, w) && x in s.pcbs && Orphan(s.pcbs, x)
    requires forall r :: r in s.pcbs ==> s.pcbs[r].ppid == NONE || 1 <= s.pcbs[r].ppid < r
    ensures Twice(Discard(s, x), w) && Discard(s, x).pcbs == s.pcbs - {x} && Discard(s, x).finished == s.finished
  {
    OrphanLess(s.pcbs, x, w);
    hide Orphan;
    var q := ReadyQueue(s.pcbs[w].priority);
    RemoveOther(Q(s, q), x, w);
  }

  lemma {:induction false} RemoveOther(l: seq<int>, x: int, w: int)
    requires x != w
    ensures w in l <==> w in Remove(l, x)
  {
    if l != [] {
      RemoveOther(l[1..], x, w);
    }
  }

  lemma {:induction false} SweepTwice(s: State, rest: seq<int>, w: int)
    requires Twice(s, w) && forall r :: r in s.pcbs ==> s.pcbs[r].ppid == NONE || 1 <= s.pcbs[r].ppid < r
    ensures Twice(Sweep(s, rest), w)
    decreases |rest|
  {
    hide Twice;
    if rest != [] {
      if rest[0] in s.pcbs && s.pcbs[rest[0]].ppid != NONE && s.pcbs[rest[0]].ppid !in s.pcbs {
        DiscardTwice(s, rest[0], w);
        hide Discard;
        SweepTwice(Discard(s, rest[0]), rest[1..], w);
      } else {
        SweepTwice(s, rest[1..], w);
      }
    }
  }

  /** Whatever the draw, a process queued twice ends up running and queued, or queued twice. */
  lemma DispatchTwice(s: State, rand: real, w: int)
    requires Twice(s, w) && w != NONE
    ensures !Placement(Dispatch(AddBack(s), rand))
  {
    hide Pick, Orphan;
    var u := AddBack(s);
    var t := Dispatch(u, rand);
    var r := ReadyQueue(s.pcbs[w].priority);
    var q := Pick(u, rand);
    PickIs(u, rand);
    assert Q(u, q) != [];
    var l := Q(s, r);
    var i :| 0 <= i < |l| && l[i] == w;
    assert Q(u, r) == l + [w];
    if q != r {
      assert Q(t, r) == l + [w];
      DupBreaks(t, r, i, |l|);
    } else {
      assert Q(t, r) == (l + [w])[1..];
      if (l + [w])[0] == w {
        assert Q(t, r)[|l| - 1] == w;
        RunningQueued(t, r, w);
      } else {
        DupBreaks(t, r, i - 1, |l| - 1);
      }
    }
  }

  lemma DupBreaks(s: State, q: Queue, i: nat, j: nat)
    requires i < j < |Q(s, q)| && Q(s, q)[i] == Q(s, q)[j]
    ensures !Placement(s)
  {
  }

  lemma RunningQueued(s: State, q: Queue, w: int)
    requires w in s.pcbs && w == s.running && s.pcbs[w].status == RUNNING && w in Q(s, q)
    ensures !Placement(s)
  {
    assert Homes(s)[w] == Nowhere;
  }

  /** The waiter is queued twice exactly when the child it waits for is the sleeper the next pass
      retires; in every other case the wait keeps the invariant. */
  lemma WaitExactly(s: State, p: int, rand: real)
    requires Inv(s) && !s.halted && HasRunning(s) && MayWait(s, p) && NoStray(s)
    requires !Next(s, Waited(p, rand)).halted
    ensures Inv(Next(s, Waited(p, rand))) <==> Expired(Wait(s, p), 0) != p
  {
    hide Expired, Schedule, Wait;
    if Expired(Wait(s, p), 0) != p {
      hide Inv, Placement, Orphan, Waits, MayWait;
      NextKeeps(s, Waited(p, rand));
    } else {
      WaitTwice(s, p, rand);
    }
  }

  lemma WaitTwice(s: State, p: int, rand: real)
    requires Inv(s) && !s.halted && HasRunning(s) && MayWait(s, p)
    requires !Schedule(Wait(s, p), rand).halted && Expired(Wait(s, p), 0) == p
    ensures !Placement(Schedule(Wait(s, p), rand))
  {
    hide Placement, Orphan, Waits, Expired, Dispatch, AddBack, Sweep, Sleepers, Sorted, HasShell;
    var w, c := s.running, Wait(s, p);
    WaitPcbs(s, p);
    WaitPlaced(s, p);
    OrphanKeeps(s.pcbs, c.pcbs, w);
    SleepersTwice(c, 0, p, w);
    var a := Sleepers(c, 0);
    SleepersParents(c, 0);
    var b := a.(finished := false);
    SweepTwice(b, b.all, w);
    DispatchTwice(Sweep(b, b.all), rand, w);
  }

  /** Timers and wake-ups leave parents as they are. */
  lemma {:induction false} SleepersParents(s: State, i: nat)
    ensures Sleepers(s, i).pcbs.Keys == s.pcbs.Keys
    ensures forall r :: r in s.pcbs ==> Sleepers(s, i).pcbs[r].ppid == s.pcbs[r].ppid
    decreases |Q(s, Blocked)| - i
  {
    hide TakeOut, PutBack;
    if i < |Q(s, Blocked)| && Q(s, Blocked)[i] in s.pcbs {
      var x := Q(s, Blocked)[i];
      var b := s.pcbs[x];
      if b.sleepTime > 0 {
        SleepersParents(SetPcb(s, x, b.(sleepTime := if b.sleepTime > 1 then b.sleepTime - 2 else 0)), i + 1);
      } else if b.sleepTime < 0 {
        SleepersParents(s, i + 1);
      } else {
        RetireParents(s, x);
      }
    }
  }

  lemma RetireParents(s: State, p: int)
    requires p in s.pcbs
    ensures Retire(s, p).pcbs.Keys == s.pcbs.Keys
    ensures forall r :: r in s.pcbs ==> Retire(s, p).pcbs[r].ppid == s.pcbs[r].ppid
  {
  }

  // ---- signals and priorities ----------------------------------------------

  /** A signal to a process blocked in p_waitpid leaves a child marked with a process that no longer waits. */
  lemma WaiterSignalled(s: State, p: int)
    requires Inv(s) && !s.halted && p in s.pcbs && Waiter(s.pcbs[p])
    ensures !Waits(Stop(s, p).pcbs) && !Waits(Term(s, p).pcbs) && !Waits(Cont(s, p).pcbs)
  {
    WaiterHas(s, p);
    var c :| c in s.pcbs && s.pcbs[c].waitedBy == p;
    hide Inv, Waits, TakeOut, PutBack;
    forall status | status != BLOCKED ensures !Waits(Mark(s, p, status).pcbs) { StaleMark(s, p, c, status); }
    forall q: Queue, t: State ensures PutBack(t, q, p).pcbs == t.pcbs { PutPcbs(t, q, p); }
    forall q: Queue, t: State ensures TakeOut(t, q, p).pcbs == t.pcbs { TakePcbs(t, q, p); }
  }

  lemma TakePcbs(s: State, q: Queue, p: int)
    ensures TakeOut(s, q, p) == s.(qs := TakeOut(s, q, p).qs)
  {
  }

  lemma WaiterHas(s: State, p: int)
    requires Inv(s) && !s.halted && p in s.pcbs && Waiter(s.pcbs[p])
    ensures exists c :: c in s.pcbs && s.pcbs[c].waitedBy == p
    ensures p != s.running && 1 <= p && forall c :: c in s.pcbs && s.pcbs[c].waitedBy == p ==> c != p
    ensures s.pcbs[p].waitedBy != NONE ==> s.pcbs[p].waitedBy in s.pcbs && s.pcbs[p].waitedBy < p
    ensures forall c, d :: c in s.pcbs && d in s.pcbs && s.pcbs[c].waitedBy == p == s.pcbs[d].waitedBy ==> c == d
    ensures forall c :: c in s.pcbs && s.pcbs[c].waitedBy == p ==> p < c
  {
    hide Placement, Orphan, Sorted;
  }

  /** After `p` is marked, its child `c` still names it, but it is not blocked any more. */
  lemma StaleMark(s: State, p: int, c: int, status: Status)
    requires p in s.pcbs && c in s.pcbs && c != p && s.pcbs[c].waitedBy == p != NONE && status != BLOCKED
    requires s.pcbs[p].waitedBy != NONE ==> s.pcbs[p].waitedBy in s.pcbs && s.pcbs[p].waitedBy < p < c
    ensures !Waits(Mark(s, p, status).pcbs)
  {
    hide TakeOut, PutBack;
    var m := Mark(s, p, status).pcbs;
    WakePcbs(SetPcb(s, p, s.pcbs[p].(status := status, changed := true)), p);
    assert m[c].waitedBy == p && !Waiter(m[p]);
  }

  /** Does the signal take the process off the queue find_which_queue names? */
  predicate Requeues(s: State, p: int, signal: Signal)
    requires p in s.pcbs
  {
    match signal
    case SigCont => s.pcbs[p].status != RUNNING && s.pcbs[p].status != ZOMBIED
    case SigStop => s.pcbs[p].status != STOPPED && s.pcbs[p].status != ZOMBIED && p != s.running
    case SigTerm => p != s.running
  }

  /** A signal works on a queue that find_which_queue does not know exactly when its target is SIGNALED. The
      target is on the zombie queue then, and on no other; were that the answer, every signal would keep
      places and marks. */
  lemma SignalExactly(s: State, p: int, signal: Signal)
    requires Inv(s) && !s.halted && p in s.pcbs
    ensures Requeues(s, p, signal) && !Known(s.pcbs[p]) <==> s.pcbs[p].status == SIGNALED
    ensures s.pcbs[p].status == SIGNALED ==>
              && (forall q :: p in Q(s, q) <==> q == Zombie) && Home(s.pcbs[p]) == Zombie
              && Loose(Stop(s, p)) && Loose(Term(s, p)) && (s.pcbs[p].cmd != SleepUnderscore ==> Loose(Cont(s, p)))
  {
    hide Placement, Waits, Orphan, Sorted, Stop, Term, Cont;
    if s.pcbs[p].status == SIGNALED {
      RunningKnown(s);
      InvPlaces(s, p);
      StopKeeps(s, p);
      TermKeeps(s, p);
      if s.pcbs[p].cmd != SleepUnderscore { ContKeeps(s, p); }
    }
  }

  /** p_nice keeps the invariant exactly for a legal priority of a process that is not running. */
  lemma NiceExactly(s: State, p: int, priority: int)
    requires Inv(s) && !s.halted && p in s.pcbs
    ensures Inv(Nice(s, p, priority)) <==> p != s.running && priority in {-1, 0, 1}
  {
    hide Placement, Waits, Orphan, Sorted;
    RunningKnown(s);
    if p != s.running && priority in {-1, 0, 1} {
      hide Nice;
      NiceKeeps(s, p, priority);
      NiceFlags(s, p, priority);
    } else if p == s.running {
      RunningQueued(Nice(s, p, priority), ReadyQueue(priority), p);
    } else {
      assert Nice(s, p, priority).pcbs[p].priority == priority;
    }
  }

  lemma NiceFlags(s: State, p: int, priority: int)
    requires p in s.pcbs
    ensures Nice(s, p, priority).halted == s.halted && Nice(s, p, priority).finished == s.finished
    ensures p != s.running && s.running in s.pcbs ==>
              s.running in Nice(s, p, priority).pcbs && Nice(s, p, priority).pcbs[s.running] == s.pcbs[s.running]
  {
  }

  /** Blocking on `p` leaves marks and waiters matched exactly when `p` is an unchanged child nobody waits
      for and the caller has never slept. */
  lemma WaitMarksExactly(s: State, p: int)
    requires Inv(s) && !s.halted && HasRunning(s) && p in s.pcbs
    ensures Waits(Wait(s, p).pcbs) <==> MayWait(s, p)
  {
    hide Placement, Orphan, Sorted;
    var w, m := s.running, Wait(s, p).pcbs;
    if MayWait(s, p) {
      WaitPcbs(s, p);
      WaitsBlock(s.pcbs, p, w);
    } else if p == w {
      assert m[p].waitedBy == w && s.pcbs[p].ppid < p;
    } else {
      WaitPcbs(s, p);
      assert m[p].waitedBy == w && m[p].ppid == s.pcbs[p].ppid;
    }
  }

  /** The sweep leaves a mark that names nobody exactly when it frees the waiter and not the process waited for.
      It never does so to a process that waits for its own child. */
  lemma WaiterSwept(s: State, p: int)
    requires Table(s) && Placement(s) && !Orphan(s.pcbs, s.running) && p in s.pcbs && s.pcbs[p].waitedBy in s.pcbs
    ensures var t, w := Sweep(s, s.all), s.pcbs[p].waitedBy;
            && (p in t.pcbs && t.pcbs[p].waitedBy !in t.pcbs <==> Orphan(s.pcbs, w) && !Orphan(s.pcbs, p))
            && (w == s.pcbs[p].ppid ==> !(p in t.pcbs && t.pcbs[p].waitedBy !in t.pcbs))
  {
    hide Placement, Sorted;
    SweepWhole(s);
    PidPositive(s, p);
    PidPositive(s, s.pcbs[p].waitedBy);
  }

  // ---- the sweep and SIGNALED orphans --------------------------------------

  /** Does the sweep over `rest` ask for the queue of a SIGNALED process that is not running? */
  function SweepAsks(s: State, rest: seq<int>): bool
    decreases |rest|
  {
    if rest == [] then false
    else if rest[0] in s.pcbs && s.pcbs[rest[0]].ppid != NONE && s.pcbs[rest[0]].ppid !in s.pcbs then
      (rest[0] != s.running && s.pcbs[rest[0]].status == SIGNALED) || SweepAsks(Discard(s, rest[0]), rest[1..])
    else SweepAsks(s, rest[1..])
  }

  ghost predicate StrayFrom(s: State, i: nat) {
    exists j ::
      i <= j < |s.all| && s.all[j] in s.pcbs && Orphan(s.pcbs, s.all[j]) && s.pcbs[s.all[j]].status == SIGNALED
  }

  lemma {:induction false} SweepAsksIs(s: State, i: nat, dead: set<int>)
    requires Table(s) && Placement(s) && i <= |s.all| && Swept(s, i, dead) && !Orphan(s.pcbs, s.running)
    ensures SweepAsks(Without(s, dead), s.all[i..]) <==> StrayFrom(s, i)
    decreases |s.all| - i
  {
    hide Placement, Sorted, Discard, Orphan, StrayFrom;
    if i < |s.all| {
      var p := s.all[i];
      SweepTest(s, i, dead);
      SweptNext(s, i, dead);
      StrayNext(s, i);
      NotDead(s, i, dead);
      assert s.all[i..][0] == p && s.all[i..][1..] == s.all[i + 1..];
      if Orphan(s.pcbs, p) {
        DiscardOne(s, dead, p);
        SweepAsksIs(s, i + 1, dead + {p});
      } else {
        SweepAsksIs(s, i + 1, dead);
      }
    } else {
      NoStrayFrom(s, i);
    }
  }

  lemma StrayNext(s: State, i: nat)
    requires i < |s.all| && s.all[i] in s.pcbs
    ensures StrayFrom(s, i) <==>
              (Orphan(s.pcbs, s.all[i]) && s.pcbs[s.all[i]].status == SIGNALED) || StrayFrom(s, i + 1)
  {
    hide Orphan;
  }

  lemma NoStrayFrom(s: State, i: nat)
    requires i >= |s.all|
    ensures !StrayFrom(s, i)
  {
    hide Orphan;
  }

  lemma NotDead(s: State, i: nat, dead: set<int>)
    requires Swept(s, i, dead) && !Orphan(s.pcbs, s.running)
    ensures s.running !in dead && Without(s, dead).running == s.running
  {
    hide Orphan;
  }

  /** The sweep asks for a queue that find_which_queue does not know exactly when some SIGNALED process is an orphan. */
  lemma SweepExactly(s: State)
    requires Table(s) && Placement(s) && !Orphan(s.pcbs, s.running)
    ensures SweepAsks(s, s.all) <==> !NoStray(s)
  {
    hide Placement, Sorted, Orphan;
    assert Swept(s, 0, {});
    WithoutNobody(s);
    SweepAsksIs(s, 0, {});
    assert s.all[0..] == s.all;
    if !NoStray(s) {
      var p :| p in s.pcbs && s.pcbs[p].status == SIGNALED && Orphan(s.pcbs, p);
      assert p in s.all;
      var j :| 0 <= j < |s.all| && s.all[j] == p;
      assert StrayFrom(s, 0);
    }
  }
}
