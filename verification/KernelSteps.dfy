/** Each kernel step keeps the invariant. */
module KernelSteps {
  import opened KernelModel
  import opened KernelInvariant

  // ---- signals -------------------------------------------------------------

  /** The waiter of a process that is not itself waiting. */
  lemma WaiterOf(s: State, p: int)
    requires Waits(s.pcbs) && p in s.pcbs && !Waiter(s.pcbs[p]) && s.pcbs[p].waitedBy != NONE
    ensures var w := s.pcbs[p].waitedBy;
            w in s.pcbs && w != p && s.pcbs[w].status == BLOCKED && Homes(s)[w] == In(Blocked)
  {
  }

  ghost function WokenHomes(s: State, p: int): map<int, Place>
    requires p in s.pcbs
  {
    var w := s.pcbs[p].waitedBy;
    if w == NONE || w !in s.pcbs then Homes(s) else Homes(s)[w := In(ReadyQueue(s.pcbs[w].priority))]
  }

  /** Marking a process and waking its waiter, in terms of places: the waiter moves, `p` stays put. */
  lemma MarkStep(s: State, p: int, status: Status)
    requires Table(s) && Placement(s) && Waits(s.pcbs) && p in s.pcbs && !Waiter(s.pcbs[p]) && status != BLOCKED
    ensures Mark(s, p, status).pcbs ==
            Marked(s.pcbs, p, s.pcbs[p].(status := status, changed := true, waitedBy := NONE))
    ensures Mark(s, p, status) == s.(pcbs := Mark(s, p, status).pcbs, qs := Mark(s, p, status).qs)
    ensures PlacedAs(Mark(s, p, status), WokenHomes(s, p))
    ensures Waits(Mark(s, p, status).pcbs) && SameFamily(s.pcbs, Mark(s, p, status).pcbs)
  {
    hide PlacedAs, Waits, Orphan, TakeOut, PutBack, WakeWaiter, Sorted;
    var b := s.pcbs[p].(status := status, changed := true, waitedBy := NONE);
    var s1 := SetPcb(s, p, b.(waitedBy := s.pcbs[p].waitedBy));
    if s.pcbs[p].waitedBy != NONE { WaiterOf(s, p); }
    SameQueues(s, s1, Homes(s));
    WakePlaced(s1, Homes(s), p);
    WakePcbs(s1, p);
    RetirePcbs(s, s1, p, b);
    WaitsMarked(s.pcbs, p, b);
    MarkedFamily(s.pcbs, p, b);
  }

  /** Where everybody belongs after `p` was marked and its waiter woken. */
  lemma HomesMarked(s: State, s2: State, p: int, b: Pcb)
    requires Table(s) && Waits(s.pcbs) && p in s.pcbs && !Waiter(s.pcbs[p]) && s2.pcbs == Marked(s.pcbs, p, b)
    requires s2.running == s.running || (s.running == p && s2.running == NONE)
    requires s.running != NONE && s.pcbs[p].waitedBy != NONE ==> s.pcbs[p].waitedBy != s.running
    ensures Homes(s2) == WokenHomes(s, p)[p := if p == s2.running && b.status == RUNNING then Nowhere else In(Home(b))]
  {
    hide Orphan, Sorted;
    if s.pcbs[p].waitedBy != NONE { WaiterOf(s, p); }
    hide Waits;
  }

  lemma SettlePlaced(s: State, s2: State, p: int, b: Pcb, from: Queue)
    requires Table(s) && Placement(s) && Waits(s.pcbs) && p in s.pcbs && !Waiter(s.pcbs[p]) && b.status != BLOCKED
    requires b == s.pcbs[p].(status := b.status, changed := true, waitedBy := NONE)
    requires s.running != NONE && s.pcbs[p].waitedBy != NONE ==> s.pcbs[p].waitedBy != s.running
    requires p != s.running || s.pcbs[p].status != RUNNING
    requires from == Home(s.pcbs[p]) && s2 == PutBack(TakeOut(Mark(s, p, b.status), from, p), Home(b), p)
    requires p == s.running ==> b.status != RUNNING
    ensures Placement(s2) && Table(s2) && Waits(s2.pcbs) && SameFamily(s.pcbs, s2.pcbs) && s2.running == s.running
    ensures s2.pcbs == Marked(s.pcbs, p, b)
  {
    hide PlacedAs, Waits, Orphan, TakeOut, PutBack, Mark, WakeWaiter, Sorted, Marked;
    if s.pcbs[p].waitedBy != NONE { WaiterOf(s, p); }
    MarkStep(s, p, b.status);
    var s1 := Mark(s, p, b.status);
    MovePlaced(s1, WokenHomes(s, p), from, Home(b), p);
    MovedPcbs(s1, from, Home(b), p);
    HomesMarked(s, s2, p, b);
    TableKeeps(s, s2);
  }

  lemma ContKeeps(s: State, p: int)
    requires Loose(s) && p in s.pcbs && !Waiter(s.pcbs[p]) && s.pcbs[p].cmd != SleepUnderscore
    requires s.running != NONE ==> s.pcbs[s.running].status == RUNNING
    ensures Loose(Cont(s, p)) && Cont(s, p).running == s.running
    ensures s.running != NONE ==> s.running in Cont(s, p).pcbs && Cont(s, p).pcbs[s.running].status == RUNNING
    ensures var b := s.pcbs[p];
            Cont(s, p).pcbs == if b.status in {RUNNING, ZOMBIED} then s.pcbs
                               else Marked(s.pcbs, p, b.(status := RUNNING, changed := true, waitedBy := NONE))
  {
    hide Placement, Table, Waits, Orphan, TakeOut, PutBack, Mark, Marked, Waiter;
    var b := s.pcbs[p];
    RunningKnown(s);
    if b.status != RUNNING && b.status != ZOMBIED {
      var b' := b.(status := RUNNING, changed := true, waitedBy := NONE);
      NotWaitedByRunning(s, p);
      SettlePlaced(s, Cont(s, p), p, b', Home(b));
      OrphanKeeps(s.pcbs, Cont(s, p).pcbs, s.running);
      if s.running != NONE { RunnerMarked(s, p, b'); }
    }
  }

  lemma MovedPcbs(s: State, from: Queue, to: Queue, p: int)
    ensures PutBack(TakeOut(s, from, p), to, p) == s.(qs := PutBack(TakeOut(s, from, p), to, p).qs)
  {
  }

  lemma NotWaitedByRunning(s: State, p: int)
    requires Waits(s.pcbs) && p in s.pcbs
    requires s.running != NONE ==> s.running in s.pcbs && s.pcbs[s.running].status == RUNNING
    ensures s.pcbs[p].waitedBy != NONE ==> s.pcbs[p].waitedBy != s.running
  {
  }

  /** The running process is marked and put on its queue; it may stay current. */
  lemma SettleRunning(s: State, s2: State, p: int, b: Pcb)
    requires Table(s) && Placement(s) && Waits(s.pcbs) && p == s.running && p in s.pcbs && s.pcbs[p].status == RUNNING
    requires b == s.pcbs[p].(status := b.status, changed := true, waitedBy := NONE) && b.status != BLOCKED
    requires b.status != RUNNING
    requires s2.running == p || s2.running == NONE
    requires s2 == PutBack(Mark(s, p, b.status), Home(b), p).(running := s2.running, finished := s2.finished)
    ensures Placement(s2) && Table(s2) && Waits(s2.pcbs) && SameFamily(s.pcbs, s2.pcbs)
    ensures s2.pcbs == Marked(s.pcbs, p, b)
  {
    hide PlacedAs, Waits, Orphan, TakeOut, Mark, WakeWaiter, Sorted, Marked;
    NotWaitedByRunning(s, p);
    MarkStep(s, p, b.status);
    var s1 := Mark(s, p, b.status);
    assert WokenHomes(s, p)[p] == Nowhere;
    PutBackPlaced(s1, WokenHomes(s, p), Home(b), p);
    SameQueues(PutBack(s1, Home(b), p), s2, WokenHomes(s, p)[p := In(Home(b))]);
    HomesMarked(s, s2, p, b);
    TableKeeps(s, s2);
  }

  lemma StopKeeps(s: State, p: int)
    requires Loose(s) && p in s.pcbs && !Waiter(s.pcbs[p])
    requires s.running != NONE ==> s.pcbs[s.running].status == RUNNING
    ensures Loose(Stop(s, p)) && (Stop(s, p).running == if p == s.running then NONE else s.running)
    ensures s.running != NONE && p != s.running ==>
              s.running in Stop(s, p).pcbs && Stop(s, p).pcbs[s.running].status == RUNNING
    ensures var b := s.pcbs[p];
            Stop(s, p).pcbs == if b.status in {STOPPED, ZOMBIED} then s.pcbs
                               else Marked(s.pcbs, p, b.(status := STOPPED, changed := true, waitedBy := NONE))
  {
    hide Placement, Table, Waits, Orphan, TakeOut, PutBack, Mark, Stop, Marked, Waiter;
    var b := s.pcbs[p];
    RunningKnown(s);
    StopIs(s, p);
    if b.status != STOPPED && b.status != ZOMBIED {
      NotWaitedByRunning(s, p);
      var b' := b.(status := STOPPED, changed := true, waitedBy := NONE);
      if p == s.running {
        SettleRunning(s, Stop(s, p), p, b');
        NoneIsNoOrphan(Stop(s, p));
      } else {
        SettlePlaced(s, Stop(s, p), p, b', Home(b));
        OrphanKeeps(s.pcbs, Stop(s, p).pcbs, s.running);
        if s.running != NONE { RunnerMarked(s, p, b'); }
      }
    }
  }

  lemma StopIs(s: State, p: int)
    requires p in s.pcbs
    ensures var b := s.pcbs[p];
            Stop(s, p) == if b.status == STOPPED || b.status == ZOMBIED then s
                          else if p == s.running
                          then PutBack(Mark(s, p, STOPPED), Stopped, p).(running := NONE, finished := true)
                          else PutBack(TakeOut(Mark(s, p, STOPPED), Home(b), p), Stopped, p)
  {
    hide Mark, TakeOut, PutBack, Home;
  }

  /** Marking another process leaves the running one RUNNING. */
  lemma RunnerMarked(s: State, p: int, b: Pcb)
    requires p in s.pcbs && s.running in s.pcbs && s.pcbs[s.running].status == RUNNING
    requires p == s.running ==> b.status == RUNNING
    ensures s.running in Marked(s.pcbs, p, b) && Marked(s.pcbs, p, b)[s.running].status == RUNNING
  {
  }

  lemma PidPositive(s: State, p: int)
    requires Table(s) && p in s.pcbs
    ensures 1 <= p != NONE && NONE !in s.pcbs
  {
  }

  lemma NoneIsNoOrphan(s: State)
    requires Table(s)
    ensures !Orphan(s.pcbs, NONE)
  {
  }

  lemma TermKeeps(s: State, p: int)
    requires Loose(s) && p in s.pcbs && !Waiter(s.pcbs[p])
    requires s.running != NONE ==> s.running in s.pcbs && s.pcbs[s.running].status == RUNNING
    ensures Loose(Term(s, p)) && (Term(s, p).running != NONE ==> Term(s, p).running == s.running)
    ensures Term(s, p).running != NONE ==>
              && s.running in Term(s, p).pcbs
              && Term(s, p).pcbs[s.running].status == if p == s.running then SIGNALED else RUNNING
    ensures Term(s, p).pcbs == Marked(s.pcbs, p, s.pcbs[p].(status := SIGNALED, changed := true, waitedBy := NONE))
  {
    hide Placement, Table, Waits, Orphan, TakeOut, PutBack, Mark;
    var b := s.pcbs[p];
    PidPositive(s, p);
    NotWaitedByRunning(s, p);
    var b' := b.(status := SIGNALED, changed := true, waitedBy := NONE);
    if p == s.running {
      SettleRunning(s, Term(s, p), p, b');
      NoneIsNoOrphan(Term(s, p));
    } else {
      SettlePlaced(s, Term(s, p), p, b', Home(b));
    }
    OrphanKeeps(s.pcbs, Term(s, p).pcbs, s.running);
  }

  // ---- the scheduling pass -------------------------------------------------

  /** Retiring an expired sleeper, in terms of places. */
  lemma RetirePlaced(s: State, p: int)
    requires Placement(s) && Waits(s.pcbs) && p in s.pcbs && s.pcbs[p].status == BLOCKED && s.pcbs[p].sleepTime == 0
    ensures PlacedAs(Retire(s, p), WokenHomes(s, p)[p := In(Zombie)])
  {
    hide PlacedAs, Waits, WakeWaiter, TakeOut, PutBack;
    var b := s.pcbs[p].(sleepTime := -1, status := ZOMBIED, changed := true);
    if s.pcbs[p].waitedBy != NONE { WaiterOf(s, p); }
    var s1 := SetPcb(s, p, b);
    SameQueues(s, s1, Homes(s));
    MovePlaced(s1, Homes(s), Blocked, Zombie, p);
    MovedPcbs(s1, Blocked, Zombie, p);
    WakePlaced(PutBack(TakeOut(s1, Blocked, p), Zombie, p), Homes(s)[p := In(Zombie)], p);
    RetireHomes(s, p);
  }

  /** What it does to the table. */
  lemma RetireIs(s: State, p: int)
    requires p in s.pcbs && (s.pcbs[p].waitedBy != NONE ==> s.pcbs[p].waitedBy in s.pcbs && s.pcbs[p].waitedBy != p)
    ensures var b := s.pcbs[p].(sleepTime := -1, status := ZOMBIED, changed := true, waitedBy := NONE);
            Retire(s, p).pcbs == Marked(s.pcbs, p, b)
    ensures Retire(s, p) == s.(pcbs := Retire(s, p).pcbs, qs := Retire(s, p).qs)
  {
    hide WakeWaiter, Marked, TakeOut, PutBack;
    var b := s.pcbs[p].(sleepTime := -1, status := ZOMBIED, changed := true);
    var s1 := SetPcb(s, p, b);
    MovedPcbs(s1, Blocked, Zombie, p);
    var s2 := PutBack(TakeOut(s1, Blocked, p), Zombie, p);
    WakePcbs(s2, p);
    RetirePcbs(s, s2, p, b.(waitedBy := NONE));
  }

  /** Retiring an expired sleeper. */
  lemma RetireKeeps(s: State, p: int)
    requires Table(s) && Placement(s) && Waits(s.pcbs) && p in s.pcbs
    requires s.pcbs[p].status == BLOCKED && s.pcbs[p].sleepTime == 0
    requires s.running != NONE && s.pcbs[p].waitedBy != NONE ==> s.pcbs[p].waitedBy != s.running
    ensures var b := s.pcbs[p].(sleepTime := -1, status := ZOMBIED, changed := true, waitedBy := NONE);
            Retire(s, p).pcbs == Marked(s.pcbs, p, b)
    ensures Placement(Retire(s, p)) && Table(Retire(s, p)) && Waits(Retire(s, p).pcbs)
    ensures SameFamily(s.pcbs, Retire(s, p).pcbs)
    ensures Retire(s, p) == s.(pcbs := Retire(s, p).pcbs, qs := Retire(s, p).qs)
  {
    hide PlacedAs, Waits, Orphan, Sorted, Marked, Homes, WokenHomes, Retire;
    var b := s.pcbs[p].(sleepTime := -1, status := ZOMBIED, changed := true, waitedBy := NONE);
    if s.pcbs[p].waitedBy != NONE { WaiterOf(s, p); }
    RetirePlaced(s, p);
    RetireIs(s, p);
    WaitsMarked(s.pcbs, p, b);
    HomesMarked(s, Retire(s, p), p, b);
    MarkedFamily(s.pcbs, p, b);
    TableKeeps(s, Retire(s, p));
  }

  lemma RetireHomes(s: State, p: int)
    requires p in s.pcbs && (s.pcbs[p].waitedBy != NONE ==> s.pcbs[p].waitedBy in s.pcbs && s.pcbs[p].waitedBy != p)
    ensures var w := s.pcbs[p].waitedBy;
            WokenHomes(s, p)[p := In(Zombie)] ==
            if w == NONE then Homes(s)[p := In(Zombie)]
            else Homes(s)[p := In(Zombie)][w := In(ReadyQueue(s.pcbs[w].priority))]
  {
  }

  lemma RetirePcbs(s: State, s2: State, p: int, b: Pcb)
    requires p in s.pcbs && b.waitedBy == NONE && s2.pcbs == s.pcbs[p := b.(waitedBy := s.pcbs[p].waitedBy)]
    requires s.pcbs[p].waitedBy != NONE ==> s.pcbs[p].waitedBy in s.pcbs && s.pcbs[p].waitedBy != p
    ensures WakeWaiter(s2, p).pcbs == Marked(s.pcbs, p, b)
  {
    WakePcbs(s2, p);
  }

  lemma MarkedFamily(pcbs: map<int, Pcb>, p: int, b: Pcb)
    requires p in pcbs && b.ppid == pcbs[p].ppid && b.priority in {-1, 0, 1}
    requires forall r :: r in pcbs ==> pcbs[r].priority in {-1, 0, 1}
    ensures SameFamily(pcbs, Marked(pcbs, p, b))
  {
  }

  /** The first expired sleeper at or behind position `i` of the blocked queue. */
  function Expired(s: State, i: nat): int
    decreases |Q(s, Blocked)| - i
  {
    if i >= |Q(s, Blocked)| then NONE
    else if Q(s, Blocked)[i] in s.pcbs && s.pcbs[Q(s, Blocked)[i]].sleepTime == 0 then Q(s, Blocked)[i]
    else Expired(s, i + 1)
  }

  /** Running down a timer in front does not change who expires first behind it. */
  lemma {:induction false} ExpiredKeeps(s: State, s': State, i: nat)
    requires s'.qs == s.qs && s'.pcbs.Keys == s.pcbs.Keys
    requires forall j :: i <= j < |Q(s, Blocked)| && Q(s, Blocked)[j] in s.pcbs ==>
               s'.pcbs[Q(s, Blocked)[j]].sleepTime == s.pcbs[Q(s, Blocked)[j]].sleepTime
    ensures Expired(s', i) == Expired(s, i)
    decreases |Q(s, Blocked)| - i
  {
    if i < |Q(s, Blocked)| {
      ExpiredKeeps(s, s', i + 1);
    }
  }

  /** Changing one timer without reaching or leaving "not asleep". */
  lemma TimerKeeps(s: State, p: int, t: int)
    requires Table(s) && Placement(s) && Waits(s.pcbs) && p in s.pcbs && s.pcbs[p].sleepTime >= 0 && t >= 0
    ensures var s' := SetPcb(s, p, s.pcbs[p].(sleepTime := t));
            Table(s') && Placement(s') && Waits(s'.pcbs) && SameFamily(s.pcbs, s'.pcbs)
  {
    hide PlacedAs, Waits, Sorted;
    var b := s.pcbs[p].(sleepTime := t);
    var s' := SetPcb(s, p, b);
    TimerWaits(s, p, t);
    SameQueues(s, s', Homes(s));
    assert Homes(s') == Homes(s);
    TableKeeps(s, s');
  }

  lemma TimerWaits(s: State, p: int, t: int)
    requires Waits(s.pcbs) && p in s.pcbs && s.pcbs[p].sleepTime >= 0 && t >= 0
    ensures Waits(s.pcbs[p := s.pcbs[p].(sleepTime := t)])
  {
    WaitsSame(s.pcbs, p, s.pcbs[p].(sleepTime := t));
  }

  /** The process that is still current when the scheduler starts is not asleep, and its entry is as it was. */
  ghost predicate CurrentKept(s: State, s': State) {
    s.running in s.pcbs && !(s.pcbs[s.running].status == BLOCKED && s.pcbs[s.running].sleepTime >= 0) ==>
      s.running in s'.pcbs && s'.pcbs[s.running] == s.pcbs[s.running]
  }

  /** Good table, placement and waits again, for the same processes and the same current one. */
  ghost predicate PassKept(s: State, s': State) {
    && Table(s') && Placement(s') && Waits(s'.pcbs) && SameFamily(s.pcbs, s'.pcbs)
    && s' == s.(pcbs := s'.pcbs, qs := s'.qs) && CurrentKept(s, s')
  }

  lemma PassTrans(s: State, s1: State, s2: State)
    requires PassKept(s, s1) && PassKept(s1, s2)
    ensures PassKept(s, s2)
  {
    hide Table, Placement, Waits;
  }

  lemma PassTimer(s: State, p: int, t: int)
    requires Table(s) && Placement(s) && Waits(s.pcbs) && p in s.pcbs && t >= 0
    requires s.pcbs[p].status == BLOCKED && s.pcbs[p].sleepTime >= 0
    ensures PassKept(s, SetPcb(s, p, s.pcbs[p].(sleepTime := t)))
  {
    TimerKeeps(s, p, t);
    hide Table, Placement, Waits;
  }

  lemma PassRetire(s: State, p: int)
    requires Table(s) && Placement(s) && Waits(s.pcbs) && p in s.pcbs
    requires s.pcbs[p].status == BLOCKED && s.pcbs[p].sleepTime == 0
    requires s.running != NONE ==> s.pcbs[p].waitedBy != s.running
    ensures PassKept(s, Retire(s, p))
  {
    RetireKeeps(s, p);
    PidPositive(s, p);
    hide Table, Placement, Waits, Retire;
  }

  /** A process on the blocked queue after one more pass. */
  function RunDown(b: Pcb): Pcb {
    if b.sleepTime <= 0 then b else b.(sleepTime := if b.sleepTime > 1 then b.sleepTime - 2 else 0)
  }

  /** One step of the walk over the sleepers, from position `i`: the expired one is retired and ends it, every
      other timer runs down. */
  lemma WalkOn(s: State, i: nat)
    requires Table(s) && Placement(s) && Waits(s.pcbs) && i < |Q(s, Blocked)|
    ensures var p := Q(s, Blocked)[i];
            && p in s.pcbs && p in Q(s, Blocked) && p != NONE && s.pcbs[p].status == BLOCKED
            && (forall j :: i < j < |Q(s, Blocked)| ==> Q(s, Blocked)[j] != p)
            && if s.pcbs[p].sleepTime == 0
               then Sleepers(s, i) == Retire(s, p) &&
                    (NoDouble(s, i) && s.running != NONE ==> s.pcbs[p].waitedBy != s.running)
               else var t := SetPcb(s, p, RunDown(s.pcbs[p]));
                    && Sleepers(s, i) == Sleepers(t, i + 1) && t.qs == s.qs
                    && PassKept(s, t) && Table(t) && Placement(t) && Waits(t.pcbs)
                    && (NoDouble(s, i) ==> NoDouble(t, i + 1))
  {
    hide Table, Placement, Waits, PassKept, Retire;
    var p := Q(s, Blocked)[i];
    BlockedMember(s, i);
    PidPositive(s, p);
    var b, s1 := s.pcbs[p], SetPcb(s, p, RunDown(s.pcbs[p]));
    if b.sleepTime > 0 {
      PassTimer(s, p, RunDown(b).sleepTime);
      KeptParts(s, s1);
      ExpiredKeeps(s, s1, i + 1);
      ExpiredIn(s, i + 1);
    } else if b.sleepTime < 0 {
      assert s.pcbs[p := b] == s.pcbs;
      KeptSelf(s);
    }
  }

  lemma WalkEnd(s: State, i: nat)
    requires i >= |Q(s, Blocked)|
    ensures Sleepers(s, i) == s
  {
  }

  /** check_sleeping_threads, as long as the first expired sleeper is not waited for by the
      process that is still current. */
  lemma {:induction false} SleepersKeep(s: State, i: nat)
    requires Table(s) && Placement(s) && Waits(s.pcbs) && NoDouble(s, i)
    ensures PassKept(s, Sleepers(s, i))
    decreases |Q(s, Blocked)| - i
  {
    hide Table, Placement, Waits, PassKept, NoDouble, Sleepers, Retire, SetPcb;
    if i >= |Q(s, Blocked)| {
      WalkEnd(s, i);
      KeptSelf(s);
    } else {
      WalkOn(s, i);
      var p := Q(s, Blocked)[i];
      if s.pcbs[p].sleepTime == 0 {
        PassRetire(s, p);
      } else {
        var t := SetPcb(s, p, RunDown(s.pcbs[p]));
        SleepersKeep(t, i + 1);
        PassTrans(s, t, Sleepers(t, i + 1));
      }
    }
  }

  lemma KeptParts(s: State, s': State)
    requires PassKept(s, s')
    ensures Table(s') && Placement(s') && Waits(s'.pcbs)
  {
  }

  lemma KeptSelf(s: State)
    requires Table(s) && Placement(s) && Waits(s.pcbs)
    ensures PassKept(s, s)
  {
  }

  /** The current process does not wait for the sleeper this pass will retire. */
  ghost predicate NoDouble(s: State, i: nat) {
    s.running != NONE && Expired(s, i) != NONE ==>
      Expired(s, i) in s.pcbs && s.pcbs[Expired(s, i)].waitedBy != s.running
  }

  lemma {:induction false} ExpiredIn(s: State, i: nat)
    requires Placement(s)
    ensures Expired(s, i) != NONE ==> exists j :: i <= j < |Q(s, Blocked)| && Q(s, Blocked)[j] == Expired(s, i)
    decreases |Q(s, Blocked)| - i
  {
    if i < |Q(s, Blocked)| {
      ExpiredIn(s, i + 1);
    }
  }

  lemma BlockedMember(s: State, i: nat)
    requires Placement(s) && i < |Q(s, Blocked)|
    ensures var p := Q(s, Blocked)[i];
            && p in s.pcbs && s.pcbs[p].status == BLOCKED
            && forall j :: i < j < |Q(s, Blocked)| ==> Q(s, Blocked)[j] != p
  {
    assert Q(s, Blocked)[i] in Q(s, Blocked);
  }

  /** A finished process becomes a zombie and its waiter is ready. */
  lemma ReapedKeeps(s: State)
    requires Table(s) && Placement(s) && Waits(s.pcbs)
    requires s.running != NONE && !s.finished ==> s.running in s.pcbs && s.pcbs[s.running].status == RUNNING
    ensures Table(Reaped(s)) && Placement(Reaped(s)) && Waits(Reaped(s).pcbs) && SameFamily(s.pcbs, Reaped(s).pcbs)
    ensures Reaped(s).running == NONE || Reaped(s) == s
    ensures var p := s.running;
            Reaped(s).pcbs == if p == NONE || s.finished || s.pcbs[p].cmd == Shell then s.pcbs
                              else Marked(s.pcbs, p, s.pcbs[p].(status := ZOMBIED, changed := true, waitedBy := NONE))
  {
    hide PlacedAs, Waits, Orphan, WakeWaiter, Sorted, Marked, PutBack;
    var p := s.running;
    if p != NONE && !s.finished && s.pcbs[p].cmd != Shell {
      var b := s.pcbs[p].(status := ZOMBIED, changed := true, waitedBy := NONE);
      if s.pcbs[p].waitedBy != NONE { WaiterOf(s, p); }
      NotWaitedByRunning(s, p);
      WakePlaced(s, Homes(s), p);
      WakePcbs(s, p);
      var s1 := WakeWaiter(s, p);
      var s2 := SetPcb(s1, p, s1.pcbs[p].(status := ZOMBIED, changed := true));
      ReapedPcbs(s, p, b);
      SameQueues(s1, s2, WokenHomes(s, p));
      PutBackPlaced(s2, WokenHomes(s, p), Zombie, p);
      SameQueues(PutBack(s2, Zombie, p), Reaped(s), WokenHomes(s, p)[p := In(Zombie)]);
      PutPcbs(s2, Zombie, p);
      WaitsMarked(s.pcbs, p, b);
      HomesMarked(s, Reaped(s), p, b);
      MarkedFamily(s.pcbs, p, b);
      TableKeeps(s, Reaped(s));
    } else {
      FamilySelf(s);
    }
  }

  lemma FamilySelf(s: State)
    requires Table(s)
    ensures SameFamily(s.pcbs, s.pcbs)
  {
  }

  lemma PutPcbs(s: State, q: Queue, p: int)
    ensures PutBack(s, q, p) == s.(qs := PutBack(s, q, p).qs)
  {
  }

  lemma ReapedPcbs(s: State, p: int, b: Pcb)
    requires p in s.pcbs && b == s.pcbs[p].(status := ZOMBIED, changed := true, waitedBy := NONE)
    requires s.pcbs[p].waitedBy != NONE ==> s.pcbs[p].waitedBy in s.pcbs && s.pcbs[p].waitedBy != p
    ensures var s1 := WakeWaiter(s, p);
            p in s1.pcbs && s1.pcbs[p := s1.pcbs[p].(status := ZOMBIED, changed := true)] == Marked(s.pcbs, p, b)
    ensures s.pcbs[p].waitedBy == NONE ==> WakeWaiter(s, p) == s
  {
    WakePcbs(s, p);
  }

  // ---- the orphan sweep ----------------------------------------------------

  function Keep(l: seq<int>, dead: set<int>): (r: seq<int>)
    ensures forall x :: x in r <==> x in l && x !in dead
  {
    if l == [] then [] else if l[0] in dead then Keep(l[1..], dead) else [l[0]] + Keep(l[1..], dead)
  }

  ghost function Orphans(pcbs: map<int, Pcb>): set<int> {
    set p | p in pcbs && Orphan(pcbs, p)
  }

  lemma {:induction false} KeepRemove(l: seq<int>, dead: set<int>, p: int)
    requires NoDup(l) && p !in dead
    ensures Remove(Keep(l, dead), p) == Keep(l, dead + {p})
  {
    if l != [] {
      assert l == [l[0]] + l[1..] && l[0] !in l[1..];
      if l[0] == p {
        KeepAbsent(l[1..], dead, p);
      } else {
        KeepRemove(l[1..], dead, p);
      }
    }
  }

  lemma {:induction false} KeepAbsent(l: seq<int>, dead: set<int>, p: int)
    requires p !in l
    ensures Keep(l, dead + {p}) == Keep(l, dead)
  {
    if l != [] {
      KeepAbsent(l[1..], dead, p);
    }
  }

  lemma {:induction false} KeepNoDup(l: seq<int>, dead: set<int>)
    requires NoDup(l)
    ensures NoDup(Keep(l, dead))
  {
    if l != [] {
      KeepNoDup(l[1..], dead);
      assert l == [l[0]] + l[1..];
    }
  }

  lemma SortedRest(x: int, l: seq<int>)
    requires Sorted([x] + l)
    ensures Sorted(l) && forall y :: y in l ==> x < y
  {
    var m := [x] + l;
    forall i, j | 0 <= i < j < |l| ensures l[i] < l[j] { assert m[i + 1] < m[j + 1]; }
    forall y | y in l ensures x < y {
      var j :| 0 <= j < |l| && l[j] == y;
      assert m[0] < m[j + 1];
    }
  }

  lemma SortedCons(x: int, l: seq<int>)
    requires Sorted(l) && forall y :: y in l ==> x < y
    ensures Sorted([x] + l)
  {
    var m := [x] + l;
    forall i, j | 0 <= i < j < |m| ensures m[i] < m[j] {
      assert m[j] == l[j - 1] && l[j - 1] in l;
      if i > 0 { assert m[i] == l[i - 1] < l[j - 1]; }
    }
  }

  lemma {:induction false} KeepSorted(l: seq<int>, dead: set<int>)
    requires Sorted(l)
    ensures Sorted(Keep(l, dead))
  {
    if l != [] {
      assert l == [l[0]] + l[1..];
      SortedRest(l[0], l[1..]);
      KeepSorted(l[1..], dead);
      hide Sorted;
      if l[0] !in dead { SortedCons(l[0], Keep(l[1..], dead)); }
    }
  }

  lemma {:induction false} KeepAll(l: seq<int>)
    ensures Keep(l, {}) == l
  {
    if l != [] {
      KeepAll(l[1..]);
    }
  }

  /** The state once the processes in `dead` are gone. */
  function Without(s: State, dead: set<int>): State {
    s.(pcbs := s.pcbs - dead, all := Keep(s.all, dead),
       qs := map q | q in s.qs :: Keep(s.qs[q], dead),
       running := if s.running in dead then NONE else s.running)
  }

  /** Freeing one more orphan. */
  lemma DiscardOne(s: State, dead: set<int>, p: int)
    requires Table(s) && Placement(s) && p in s.pcbs && p !in dead
    requires p == s.running ==> s.pcbs[p].status == RUNNING
    ensures Discard(Without(s, dead), p) == Without(s, dead + {p})
  {
    PidPositive(s, p);
    SortedNoDup(s.all);
    KeepRemove(s.all, dead, p) by { hide Keep, Remove; }
    QueuesLess(s, dead, p);
    DiscardIs(Without(s, dead), p);
    LessPcbs(s.pcbs, dead, p);
    hide Placement, Sorted, NoDup, Home, Keep, Remove, Table, TakeOut, Q, Discard;
  }

  lemma LessPcbs(pcbs: map<int, Pcb>, dead: set<int>, p: int)
    ensures pcbs - dead - {p} == pcbs - (dead + {p})
  {
  }

  /** Freeing a process, whichever queue it is on. */
  lemma DiscardIs(s: State, p: int)
    requires p in s.pcbs
    ensures Discard(s, p) ==
            if p == s.running then s.(pcbs := s.pcbs - {p}, all := Remove(s.all, p), running := NONE)
            else s.(pcbs := s.pcbs - {p}, all := Remove(s.all, p), qs := TakeOut(s, Home(s.pcbs[p]), p).qs)
  {
    hide Remove, Home;
  }

  /** The queues without one more process. */
  lemma QueuesLess(s: State, dead: set<int>, p: int)
    requires Placement(s) && p in s.pcbs && p !in dead
    requires p == s.running ==> s.pcbs[p].status == RUNNING
    ensures var u, h := Without(s, dead), Home(s.pcbs[p]);
            Without(s, dead + {p}).qs == if p == s.running then u.qs else TakeOut(u, h, p).qs
  {
    hide PlacedAs, NoDup, Home, Keep, Remove;
    QueuesWithout(s, dead, p);
    var h := Home(s.pcbs[p]);
    assert Without(s, dead + {p}).qs ==
           if p == s.running then Without(s, dead).qs
           else Without(s, dead).qs[h := Remove(Keep(s.qs[h], dead), p)];
  }

  lemma QueuesWithout(s: State, dead: set<int>, p: int)
    requires Placement(s) && p in s.pcbs && p !in dead
    requires p == s.running ==> s.pcbs[p].status == RUNNING
    ensures forall q: Queue :: q in s.qs
    ensures forall q: Queue :: Keep(s.qs[q], dead + {p}) ==
              if q == Home(s.pcbs[p]) && p != s.running then Remove(Keep(s.qs[q], dead), p) else Keep(s.qs[q], dead)
  {
    hide NoDup, Home;
    forall q: Queue
      ensures Keep(s.qs[q], dead + {p}) ==
              if q == Home(s.pcbs[p]) && p != s.running then Remove(Keep(s.qs[q], dead), p) else Keep(s.qs[q], dead)
    {
      assert NoDup(Q(s, q));
      if q == Home(s.pcbs[p]) && p != s.running {
        KeepRemove(s.qs[q], dead, p);
      } else {
        assert Homes(s)[p] != In(q);
        assert p !in Q(s, q);
        KeepAbsent(s.qs[q], dead, p);
      }
    }
  }

  lemma SortedNoDup(l: seq<int>)
    requires Sorted(l)
    ensures NoDup(l)
  {
  }

  /** Of the processes before position `i`, exactly the orphans are in `dead`. */
  ghost predicate Swept(s: State, i: nat, dead: set<int>) {
    forall p :: p in dead <==>
      p in s.pcbs && Orphan(s.pcbs, p) && exists j :: 0 <= j < i && j < |s.all| && s.all[j] == p
  }

  /** Parents come first, so one look at the parent tells whether a process is an orphan. */
  lemma SweepTest(s: State, i: nat, dead: set<int>)
    requires Table(s) && i < |s.all| && Swept(s, i, dead)
    ensures var p := s.all[i];
            && p in s.pcbs && p !in dead
            && (Orphan(s.pcbs, p) <==> s.pcbs[p].ppid != NONE && s.pcbs[p].ppid !in s.pcbs - dead)
  {
    var p := s.all[i];
    assert p in s.all;
    var f := s.pcbs[p].ppid;
    assert forall j :: 0 <= j < i ==> s.all[j] != p;
    if f != NONE && f in s.pcbs && Orphan(s.pcbs, f) {
      var j :| 0 <= j < |s.all| && s.all[j] == f;
      assert j < i;
    }
  }

  lemma SweptNext(s: State, i: nat, dead: set<int>)
    requires Table(s) && i < |s.all| && Swept(s, i, dead)
    ensures Swept(s, i + 1, if Orphan(s.pcbs, s.all[i]) then dead + {s.all[i]} else dead)
  {
    hide Orphan, Sorted;
    assert s.all[i] in s.all;
  }

  /** One pass over the process list removes exactly the processes with a missing ancestor. */
  lemma {:induction false} SweepIs(s: State, i: nat, dead: set<int>)
    requires Table(s) && Placement(s) && i <= |s.all| && Swept(s, i, dead)
    requires s.running != NONE && Orphan(s.pcbs, s.running) ==> s.pcbs[s.running].status == RUNNING
    ensures Sweep(Without(s, dead), s.all[i..]) == Without(s, Orphans(s.pcbs))
    decreases |s.all| - i
  {
    hide Placement, Sorted, Discard;
    if i == |s.all| {
      assert dead == Orphans(s.pcbs) by { AllSwept(s, dead); }
    } else {
      var p := s.all[i];
      SweepTest(s, i, dead);
      SweptNext(s, i, dead);
      assert s.all[i..][0] == p && s.all[i..][1..] == s.all[i + 1..];
      if Orphan(s.pcbs, p) {
        DiscardOne(s, dead, p);
        SweepIs(s, i + 1, dead + {p});
      } else {
        SweepIs(s, i + 1, dead);
      }
    }
  }

  lemma AllSwept(s: State, dead: set<int>)
    requires Table(s) && Swept(s, |s.all|, dead)
    ensures dead == Orphans(s.pcbs)
  {
    forall p ensures p in dead <==> p in Orphans(s.pcbs) {
      if p in s.pcbs {
        assert p in s.all;
      }
    }
  }

  /** The sweep of a whole pass, in terms of the table it started from. */
  lemma SweepWhole(s: State)
    requires Table(s) && Placement(s)
    requires s.running != NONE && Orphan(s.pcbs, s.running) ==> s.pcbs[s.running].status == RUNNING
    ensures Sweep(s, s.all) == Without(s, Orphans(s.pcbs))
  {
    hide Sorted;
    assert Swept(s, 0, {});
    WithoutNobody(s);
    SweepIs(s, 0, {});
    assert s.all[0..] == s.all;
  }

  lemma WithoutNobody(s: State)
    ensures Without(s, {}) == s
  {
    KeepAll(s.all);
    forall q | q in s.qs ensures Keep(s.qs[q], {}) == s.qs[q] { KeepAll(s.qs[q]); }
    assert s.pcbs - {} == s.pcbs;
    assert Without(s, {}).qs == s.qs;
  }

  /** After the sweep nobody is an orphan and everything else is as before. */
  lemma SweptKeeps(s: State)
    requires Table(s) && Placement(s) && Waits(s.pcbs)
    ensures var s' := Without(s, Orphans(s.pcbs));
            && Table(s') && Placement(s') && Waits(s'.pcbs)
            && forall p :: !Orphan(s'.pcbs, p)
  {
    SweptTable(s);
    assert NONE !in s.pcbs;
    SweptPlacement(s);
    SweptWaits(s);
    forall p ensures !Orphan(s.pcbs - Orphans(s.pcbs), p) { NoOrphanLeft(s, p); }
  }

  lemma SweptTable(s: State)
    requires Table(s)
    ensures Table(Without(s, Orphans(s.pcbs)))
  {
    hide Orphan;
    KeepSorted(s.all, Orphans(s.pcbs));
  }

  lemma SweptPlacement(s: State)
    requires Placement(s) && NONE !in s.pcbs
    ensures Placement(Without(s, Orphans(s.pcbs)))
  {
    hide NoDup, Orphans, PlacedAs, Home;
    var dead := Orphans(s.pcbs);
    var s' := Without(s, dead);
    KeepPlaced(s, Homes(s), s', dead);
    assert Homes(s) - dead == Homes(s') by { NoneOutside(s, dead); }
  }

  lemma NoneOutside(s: State, dead: set<int>)
    ensures forall p :: p in s.pcbs && p !in dead ==>
              (p == s.running <==> p == Without(s, dead).running) || p == NONE
  {
  }

  lemma KeepPlaced(s: State, h: map<int, Place>, s': State, dead: set<int>)
    requires PlacedAs(s, h) && s'.qs == map q | q in s.qs :: Keep(s.qs[q], dead)
    ensures PlacedAs(s', h - dead)
  {
    hide NoDup;
    forall q: Queue ensures q in s'.qs && NoDup(Q(s', q)) {
      KeepNoDup(Q(s, q), dead);
    }
    forall q, p ensures p in Q(s', q) <==> p in h - dead && (h - dead)[p] == In(q) {
      assert p in Q(s, q) <==> p in h && h[p] == In(q);
    }
  }

  lemma SweptWaits(s: State)
    requires Table(s) && Waits(s.pcbs)
    ensures Waits(s.pcbs - Orphans(s.pcbs))
  {
    hide Sorted;
    var dead := Orphans(s.pcbs);
    var m := s.pcbs - dead;
    forall p | p in m && m[p].waitedBy != NONE ensures m[p].waitedBy in m {
      assert m[p].ppid == m[p].waitedBy && !Orphan(s.pcbs, p);
    }
    forall w | w in m && Waiter(m[w]) ensures exists p :: p in m && m[p].waitedBy == w {
      assert w in s.pcbs && Waiter(s.pcbs[w]);
      var p :| p in s.pcbs && s.pcbs[p].waitedBy == w;
      assert !Orphan(s.pcbs, p) by { assert s.pcbs[p].ppid == w && !Orphan(s.pcbs, w); }
      assert p in m && m[p].waitedBy == w;
    }
  }

  lemma {:induction false} NoOrphanLeft(s: State, p: int)
    requires Table(s)
    ensures !Orphan(s.pcbs - Orphans(s.pcbs), p)
    decreases if p < 0 then 0 else p
  {
    var m := s.pcbs - Orphans(s.pcbs);
    if p in m && m[p].ppid != NONE {
      assert !Orphan(s.pcbs, p);
      NoOrphanLeft(s, m[p].ppid);
    }
  }

  // ---- choosing the next process -------------------------------------------

  /** For every random number the pick is a ready queue, and an empty one only when all are. */
  lemma PickIs(s: State, rand: real)
    ensures Pick(s, rand) in {Neg, Zero, Pos}
    ensures Q(s, Pick(s, rand)) == [] <==> Q(s, Neg) == [] && Q(s, Zero) == [] && Q(s, Pos) == []
  {
  }

  /** With everybody on a queue, a queue is empty of RUNNING processes only if there are none. */
  lemma IdleMeansNone(s: State, p: int)
    requires Placement(s.(running := NONE)) && p in s.pcbs && p != NONE && s.pcbs[p].status == RUNNING
    ensures Q(s, ReadyQueue(s.pcbs[p].priority)) != []
  {
    assert Homes(s.(running := NONE))[p] == In(ReadyQueue(s.pcbs[p].priority));
    assert p in Q(s.(running := NONE), ReadyQueue(s.pcbs[p].priority));
  }

  lemma {:induction false} NoneRunning(s: State, l: seq<int>)
    requires forall p :: p in s.pcbs ==> s.pcbs[p].status != RUNNING
    ensures FirstRunning(s, l) == NONE
  {
    if l != [] {
      NoneRunning(s, l[1..]);
    }
  }

  /** The scheduler idles exactly when no process is RUNNING, so the backup node is never used;
      otherwise the head of a ready queue runs. */
  lemma DispatchIs(s: State, rand: real)
    requires Table(s.(running := NONE)) && Placement(s.(running := NONE))
    ensures var t := Dispatch(s, rand);
            && (t.running == NONE <==> forall p :: p in s.pcbs ==> s.pcbs[p].status != RUNNING)
            && (t.running != NONE ==> Q(s, Pick(s, rand)) != [] && t.running == Q(s, Pick(s, rand))[0]
                                      && t.running in s.pcbs && s.pcbs[t.running].status == RUNNING)
            && (t.running == NONE ==> t == s.(running := NONE))
  {
    hide PlacedAs, Sorted, Pick;
    var q := Pick(s, rand);
    var u := s.(running := NONE);
    PickIs(s, rand);
    if Q(s, q) == [] {
      forall p | p in s.pcbs ensures s.pcbs[p].status != RUNNING {
        if s.pcbs[p].status == RUNNING { IdleMeansNone(s, p); }
      }
      NoneRunning(s, s.all);
    } else {
      HeadReady(u, q);
    }
  }

  lemma HeadReady(s: State, q: Queue)
    requires Placement(s) && q in {Neg, Zero, Pos} && Q(s, q) != [] && NONE !in s.pcbs && s.running == NONE
    ensures var p := Q(s, q)[0];
            p in s.pcbs && s.pcbs[p].status == RUNNING && Homes(s)[p] == In(q) && p != NONE
  {
    var p := Q(s, q)[0];
    assert p in Q(s, q);
    assert p in Homes(s) && Homes(s)[p] == In(q);
  }

  lemma AddBackKeeps(s: State)
    requires Table(s) && Placement(s)
    ensures var t := AddBack(s).(running := NONE);
            Table(t) && Placement(t) && t.pcbs == s.pcbs
  {
    hide PlacedAs, Sorted, Home;
    var t := AddBack(s).(running := NONE);
    var r := s.running;
    if r != NONE && s.pcbs[r].status == RUNNING {
      var q := ReadyQueue(s.pcbs[r].priority);
      PutBackPlaced(s, Homes(s), q, r);
      SameQueues(PutBack(s, q, r), t, Homes(s)[r := In(q)]);
      RunningHome(s.pcbs[r]);
      assert Homes(s)[r := In(q)] == Homes(t);
    } else {
      SameQueues(s, t, Homes(s));
      assert Homes(s) == Homes(t);
    }
  }

  lemma RunningHome(b: Pcb)
    requires b.status == RUNNING
    ensures Home(b) == ReadyQueue(b.priority)
  {
  }

  /** The idle context runs exactly when no process is RUNNING. */
  ghost predicate IdlesRightly(s: State) {
    s.running == NONE <==> forall p :: p in s.pcbs ==> s.pcbs[p].status != RUNNING
  }

  lemma DispatchKeeps(s: State, rand: real)
    requires Table(s.(running := NONE)) && Placement(s.(running := NONE)) && Waits(s.pcbs)
    requires !s.finished && forall p :: !Orphan(s.pcbs, p)
    ensures Inv(Dispatch(s, rand)) && Dispatch(s, rand).pcbs == s.pcbs && IdlesRightly(Dispatch(s, rand))
  {
    hide PlacedAs, Sorted, Pick, Home, Orphan, Waits;
    var u, t := s.(running := NONE), Dispatch(s, rand);
    DispatchIs(s, rand);
    if t.running != NONE {
      var q, p := Pick(s, rand), t.running;
      PickIs(s, rand);
      HeadReady(u, q);
      TakeOutPlaced(u, Homes(u), q, p);
      SameQueues(TakeOut(u, q, p), t, Homes(u)[p := Nowhere]);
      assert Homes(u)[p := Nowhere] == Homes(t);
      assert t.all == s.all && t.maxPid == s.maxPid;
    }
  }

  /** Everything a scheduling pass needs of the state a call leaves behind. */
  ghost predicate Ready(s: State) {
    && Loose(s) && NoDouble(s, 0)
    && (s.running != NONE && !s.finished ==> s.pcbs[s.running].status == RUNNING)
    && (s.running != NONE ==> !(s.pcbs[s.running].status == BLOCKED && s.pcbs[s.running].sleepTime >= 0))
  }

  lemma ScheduleKeeps(s: State, rand: real)
    requires Ready(s)
    ensures Inv(Schedule(s, rand))
    ensures Survivors(s, Schedule(s, rand))
    ensures !Schedule(s, rand).halted ==> IdlesRightly(Schedule(s, rand))
  {
    hide Table, Placement, Waits, Orphan, Dispatch, AddBack, Sleepers, Reaped, Sweep, HasShell, NoDouble, Expired,
         Keep, IdlesRightly;
    var a := Sleepers(s, 0);
    SleepersKeep(s, 0);
    RunningKnown(s);
    var b := Reaped(a);
    ReapedKeeps(a);
    OrphanKeeps(s.pcbs, a.pcbs, b.running);
    OrphanKeeps(a.pcbs, b.pcbs, b.running);
    var c := b.(finished := false);
    FlagKeeps(b, c);
    OnlyOrphan(s, a, b);
    SweepWhole(c);
    SweptKeeps(c);
    var d := Without(c, Orphans(c.pcbs));
    AddBackKeeps(d);
    AddBackPcbs(d);
    DispatchKeeps(AddBack(d), rand);
    BlockedAlone(d, rand);
    KeptQueue(c, Orphans(c.pcbs), Blocked);
  }

  /** After a whole pass the scheduler idles exactly when no process is RUNNING. */
  lemma ScheduleIdles(s: State, rand: real)
    requires Ready(s) && !Schedule(s, rand).halted
    ensures var t := Schedule(s, rand);
            t.running == NONE <==> forall p :: p in t.pcbs ==> t.pcbs[p].status != RUNNING
  {
    hide Ready, Schedule;
    ScheduleKeeps(s, rand);
  }

  lemma KeptQueue(s: State, dead: set<int>, q: Queue)
    ensures Q(Without(s, dead), q) == Keep(Q(s, q), dead)
  {
  }

  /** The pass retires, reaps and sweeps; choosing the next process changes only ready queues. */
  ghost predicate Survivors(s: State, t: State) {
    var b := Reaped(Sleepers(s, 0));
    t.pcbs == b.pcbs - Orphans(b.pcbs) && Q(t, Blocked) == Keep(Q(b, Blocked), Orphans(b.pcbs))
  }

  lemma BlockedAlone(s: State, rand: real)
    ensures Q(Dispatch(AddBack(s), rand), Blocked) == Q(s, Blocked)
  {
    PickIs(AddBack(s), rand);
    hide Pick;
  }

  lemma RunningKnown(s: State)
    requires Table(s)
    ensures (s.running != NONE ==> s.running in s.pcbs) && NONE !in s.pcbs
  {
  }

  lemma FlagKeeps(s: State, t: State)
    requires Table(s) && Placement(s) && t == s.(finished := t.finished)
    ensures Table(t) && Placement(t)
  {
    SameQueues(s, t, Homes(s));
    assert Homes(t) == Homes(s);
  }

  lemma OnlyOrphan(s: State, a: State, b: State)
    requires !Orphan(s.pcbs, s.running) && a.running == s.running && SameFamily(s.pcbs, a.pcbs)
    requires Table(b) && SameFamily(a.pcbs, b.pcbs) && (b.running == NONE || b == a)
    ensures !Orphan(b.pcbs, b.running)
  {
    OrphanKeeps(s.pcbs, a.pcbs, b.running);
    OrphanKeeps(a.pcbs, b.pcbs, b.running);
  }

  lemma AddBackPcbs(s: State)
    ensures AddBack(s) == s.(qs := AddBack(s).qs)
  {
  }
}
