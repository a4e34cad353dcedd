/** System calls of the running process, and what they leave for the next scheduling pass. */
module KernelCalls {
  import opened KernelModel
  import opened KernelInvariant
  import opened KernelSteps

  // ---- p_spawn -------------------------------------------------------------

  lemma FrontPlaced(s: State, s': State, h: map<int, Place>, q: Queue, p: int)
    requires PlacedAs(s, h) && p !in h && s'.qs == s.qs[q := [p] + Q(s, q)]
    ensures PlacedAs(s', h[p := In(q)])
  {
    assert p !in Q(s, q);
    forall r: Queue, x
      ensures r in s'.qs && NoDup(Q(s', r)) && (x in Q(s', r) <==> x in h[p := In(q)] && h[p := In(q)][x] == In(r))
    {
      assert Q(s', r) == if r == q then [p] + Q(s, q) else Q(s, r);
      assert NoDup(Q(s, r));
    }
  }

  /** A new process changes nobody's ancestors. */
  lemma {:induction false} OrphanNew(pcbs: map<int, Pcb>, c: int, b: Pcb, p: int)
    requires c !in pcbs && p < c && forall r :: r in pcbs ==> pcbs[r].ppid < r
    ensures Orphan(pcbs[c := b], p) <==> Orphan(pcbs, p)
    decreases if p < 0 then 0 else p
  {
    if p in pcbs && 1 <= pcbs[p].ppid < p {
      OrphanNew(pcbs, c, b, pcbs[p].ppid);
    }
  }

  lemma SpawnKeeps(s: State, cmd: Cmd)
    requires Loose(s) && (s.running != NONE ==> s.pcbs[s.running].status == RUNNING)
    ensures var s' := Spawn(s, cmd);
            Loose(s') && s'.running == s.running && (s.running != NONE ==> s'.pcbs[s.running] == s.pcbs[s.running])
  {
    hide PlacedAs, Waits, Orphan;
    var s', c := Spawn(s, cmd), s.maxPid;
    assert c !in s.pcbs;
    FrontPlaced(s, s', Homes(s), Zero, c);
    assert Homes(s') == Homes(s)[c := In(Zero)];
    WaitsWith(s.pcbs, c, s'.pcbs[c]);
    OrphanNew(s.pcbs, c, s'.pcbs[c], s.running);
    SpawnTable(s, cmd);
  }

  lemma SpawnTable(s: State, cmd: Cmd)
    requires Table(s)
    ensures Table(Spawn(s, cmd))
  {
    var s' := Spawn(s, cmd);
    assert forall i :: 0 <= i < |s.all| ==> s.all[i] in s.all;
  }

  // ---- p_sleep -------------------------------------------------------------

  /** What sleeping does to the process table. */
  lemma SleepPcbs(s: State, ticks: nat)
    requires s.running in s.pcbs
    ensures SleepFor(s, ticks).pcbs ==
            s.pcbs[s.running := s.pcbs[s.running].(status := BLOCKED, sleepTime := ticks * 10)]
    ensures Q(SleepFor(s, ticks), Blocked) == Q(s, Blocked) + [s.running]
  {
  }

  lemma SleepReady(s: State, ticks: nat)
    requires Loose(s) && s.running != NONE && s.pcbs[s.running].status == RUNNING
    ensures Ready(SleepFor(s, ticks))
  {
    hide PlacedAs, Waits, Orphan, Sorted;
    var w, s' := s.running, SleepFor(s, ticks);
    var b := s.pcbs[w].(status := BLOCKED, sleepTime := ticks * 10);
    var s1 := SetPcb(s, w, b);
    NotWaitedByRunning(s, w);
    SameQueues(s, s1, Homes(s));
    PutBackPlaced(s1, Homes(s), Blocked, w);
    SameQueues(PutBack(s1, Blocked, w), s', Homes(s)[w := In(Blocked)]);
    assert Homes(s') == Homes(s)[w := In(Blocked)];
    SleepWaits(s, b);
    TableKeeps(s, s');
    NoneIsNoOrphan(s');
  }

  lemma SleepWaits(s: State, b: Pcb)
    requires Waits(s.pcbs) && s.running in s.pcbs && s.pcbs[s.running].status == RUNNING
    requires b == s.pcbs[s.running].(status := BLOCKED, sleepTime := b.sleepTime) && b.sleepTime >= 0
    ensures Waits(s.pcbs[s.running := b])
  {
    WaitsSame(s.pcbs, s.running, b);
  }

  // ---- p_waitpid -----------------------------------------------------------

  /** What waiting does to the process table. */
  lemma WaitPcbs(s: State, p: int)
    requires s.running in s.pcbs && p in s.pcbs && p != s.running
    ensures Wait(s, p).pcbs == s.pcbs[p := s.pcbs[p].(waitedBy := s.running)]
                                     [s.running := s.pcbs[s.running].(status := BLOCKED)]
    ensures Q(Wait(s, p), Blocked) == Q(s, Blocked) + [s.running]
  {
  }

  lemma WaitPlaced(s: State, p: int)
    requires Table(s) && Placement(s) && s.running != NONE && s.pcbs[s.running].status == RUNNING
    requires p in s.pcbs && p != s.running
    ensures Placement(Wait(s, p)) && Table(Wait(s, p)) && SameFamily(s.pcbs, Wait(s, p).pcbs)
  {
    hide PlacedAs, Sorted, Wait, PutBack, Homes;
    var w, s' := s.running, Wait(s, p);
    WaitIs(s, p);
    WaitHomes(s, p);
    PutBackPlaced(s, Homes(s), Blocked, w);
    SameQueues(PutBack(s, Blocked, w), s', Homes(s)[w := In(Blocked)]);
    TableKeeps(s, s');
  }

  lemma WaitIs(s: State, p: int)
    requires s.running in s.pcbs && p in s.pcbs && p != s.running
    requires forall r :: r in s.pcbs ==> s.pcbs[r].priority in {-1, 0, 1}
    ensures var s' := Wait(s, p);
            && s'.qs == PutBack(s, Blocked, s.running).qs && s'.all == s.all && s'.maxPid == s.maxPid
            && s'.running == s.running && SameFamily(s.pcbs, s'.pcbs)
  {
  }

  lemma WaitHomes(s: State, p: int)
    requires s.running in s.pcbs && p in s.pcbs && p != s.running && s.pcbs[s.running].status == RUNNING
    ensures s.running in Homes(s) && Homes(s)[s.running] == Nowhere
    ensures Homes(Wait(s, p)) == Homes(s)[s.running := In(Blocked)]
  {
  }

  /** The caller waits for an unchanged child nobody waits for, and has never slept. */
  predicate MayWait(s: State, p: int) {
    && s.running in s.pcbs && p in s.pcbs && s.pcbs[p].ppid == s.running && p != s.running
    && !s.pcbs[p].changed && s.pcbs[p].waitedBy == NONE && s.pcbs[s.running].sleepTime < 0
  }

  lemma WaitReady(s: State, p: int)
    requires Loose(s) && s.running != NONE && s.pcbs[s.running].status == RUNNING && MayWait(s, p)
    requires Expired(Wait(s, p), 0) != p
    ensures Ready(Wait(s, p))
  {
    hide Placement, Waits, Orphan, Sorted, Expired;
    var s' := Wait(s, p);
    WaitPlaced(s, p);
    WaitsBlock(s.pcbs, p, s.running);
    OrphanKeeps(s.pcbs, s'.pcbs, s.running);
    WaitNoDouble(s, p);
  }

  lemma WaitNoDouble(s: State, p: int)
    requires s.running in s.pcbs && s.pcbs[s.running].status == RUNNING && MayWait(s, p)
    requires Placement(Wait(s, p)) && Waits(s.pcbs) && s.running != NONE && p != NONE
    ensures NoDouble(Wait(s, p), 0) <==> Expired(Wait(s, p), 0) != p
  {
    hide Expired;
    var s' := Wait(s, p);
    ExpiredIn(s', 0);
    var e := Expired(s', 0);
    if e != NONE {
      var j :| 0 <= j < |Q(s', Blocked)| && Q(s', Blocked)[j] == e;
      BlockedMember(s', j);
      ExpiredZero(s', 0);
      if e != p && e != s.running { assert s'.pcbs[e].waitedBy == s.pcbs[e].waitedBy; }
    }
    assert s'.pcbs[p].waitedBy == s.running;
  }

  lemma {:induction false} ExpiredZero(s: State, i: nat)
    ensures Expired(s, i) != NONE ==> Expired(s, i) in s.pcbs && s.pcbs[Expired(s, i)].sleepTime == 0
    decreases |Q(s, Blocked)| - i
  {
    if i < |Q(s, Blocked)| {
      ExpiredZero(s, i + 1);
    }
  }

  lemma CollectPlaced(s: State, p: int)
    requires Placement(s) && p in s.pcbs && p != s.running
    ensures Placement(Collect(s, p))
  {
    hide PlacedAs;
    var s' := Collect(s, p);
    if s.pcbs[p].status == ZOMBIED || s.pcbs[p].status == SIGNALED {
      TakeOutPlaced(s, Homes(s), Zombie, p);
      SameQueues(TakeOut(s, Zombie, p), s', Homes(s)[p := Nowhere]);
      LessPlaced(s', Homes(s)[p := Nowhere], p);
      assert Homes(s') == Homes(s)[p := Nowhere] - {p};
    } else {
      SameQueues(s, s', Homes(s));
      assert Homes(s') == Homes(s);
    }
  }

  /** What collecting does to the process table. */
  lemma CollectPcbs(s: State, p: int)
    requires p in s.pcbs && s.pcbs[p].waitedBy == NONE
    ensures var s' := Collect(s, p);
            && s'.pcbs == (if s.pcbs[p].status in {ZOMBIED, SIGNALED} then s.pcbs - {p}
                           else s.pcbs[p := s.pcbs[p].(changed := false)])
            && s'.all == (if s.pcbs[p].status in {ZOMBIED, SIGNALED} then Remove(s.all, p) else s.all)
            && s' == s.(pcbs := s'.pcbs, all := s'.all, qs := s'.qs)
  {
  }

  lemma CollectKeeps(s: State, p: int)
    requires Loose(s) && s.running != NONE && s.pcbs[s.running].status == RUNNING
    requires p in s.pcbs && s.pcbs[p].ppid == s.running && s.pcbs[p].changed
    ensures var s' := Collect(s, p);
            Loose(s') && s'.running == s.running && s.running in s'.pcbs && s'.pcbs[s.running] == s.pcbs[s.running]
  {
    hide Sorted, Placement, Waits, Orphan, Collect;
    ChangedUnwaited(s, p);
    CollectPcbs(s, p);
    RunnerApart(s, p);
    CollectPlaced(s, p);
    if s.pcbs[p].status in {ZOMBIED, SIGNALED} {
      CollectDead(s, p);
    } else {
      CollectLive(s, p);
    }
  }

  lemma RunnerApart(s: State, p: int)
    requires Table(s) && p in s.pcbs && s.running != NONE && s.pcbs[p].ppid == s.running
    ensures p != s.running && s.running in s.pcbs
  {
    hide Sorted;
  }

  lemma CollectDead(s: State, p: int)
    requires Loose(s) && p in s.pcbs && s.pcbs[p].ppid == s.running && p != s.running && s.running in s.pcbs
    requires s.pcbs[p].waitedBy == NONE && s.pcbs[p].status in {ZOMBIED, SIGNALED}
    ensures var m := s.pcbs - {p};
            Waits(m) && !Orphan(m, s.running) && Table(s.(pcbs := m, all := Remove(s.all, p)))
  {
    hide Placement, Waits, Orphan, Sorted;
    PidPositive(s, p);
    WaitsWithout(s.pcbs, p);
    CollectTable(s, p);
    OrphanWithout(s.pcbs, p, s.running);
  }

  lemma CollectLive(s: State, p: int)
    requires Loose(s) && p in s.pcbs && s.pcbs[p].ppid == s.running
    requires s.pcbs[p].waitedBy == NONE && s.pcbs[p].status !in {ZOMBIED, SIGNALED}
    ensures var m := s.pcbs[p := s.pcbs[p].(changed := false)];
            Waits(m) && !Orphan(m, s.running) && Table(s.(pcbs := m))
  {
    hide Placement, Waits, Orphan, Sorted;
    var s' := s.(pcbs := s.pcbs[p := s.pcbs[p].(changed := false)]);
    WaitsSame(s.pcbs, p, s.pcbs[p].(changed := false));
    TableKeeps(s, s');
    OrphanKeeps(s.pcbs, s'.pcbs, s.running);
  }

  lemma ChangedUnwaited(s: State, p: int)
    requires Waits(s.pcbs) && p in s.pcbs && s.pcbs[p].changed
    ensures s.pcbs[p].waitedBy == NONE
  {
  }

  lemma LessPlaced(s: State, h: map<int, Place>, p: int)
    requires PlacedAs(s, h) && p in h && h[p] == Nowhere
    ensures PlacedAs(s, h - {p})
  {
  }

  lemma CollectTable(s: State, p: int)
    requires Table(s) && p in s.pcbs && p != s.running
    ensures Table(s.(pcbs := s.pcbs - {p}, all := Remove(s.all, p)))
  {
    SortedNoDup(s.all);
    RemoveIs(s.all, p);
    RemoveSorted(s.all, p);
  }

  lemma RemoveSorted(l: seq<int>, p: int)
    requires Sorted(l)
    ensures Sorted(Remove(l, p))
  {
    hide Sorted, NoDup;
    SortedNoDup(l);
    KeepAll(l);
    KeepRemove(l, {}, p);
    KeepSorted(l, {} + {p});
  }

  /** Removing a process orphans only later ones. */
  lemma {:induction false} OrphanWithout(pcbs: map<int, Pcb>, c: int, p: int)
    requires p < c && forall r :: r in pcbs ==> pcbs[r].ppid < r
    ensures Orphan(pcbs - {c}, p) <==> Orphan(pcbs, p)
    decreases if p < 0 then 0 else p
  {
    if p in pcbs && pcbs[p].ppid != NONE && 1 <= pcbs[p].ppid < p {
      OrphanWithout(pcbs, c, pcbs[p].ppid);
    }
  }

  // ---- p_nice --------------------------------------------------------------

  lemma NicePlaced(s: State, p: int, priority: int)
    requires Placement(s) && p in s.pcbs && p != s.running && priority in {-1, 0, 1}
    ensures Placement(Nice(s, p, priority))
    ensures Nice(s, p, priority) ==
            s.(pcbs := s.pcbs[p := s.pcbs[p].(priority := priority)], qs := Nice(s, p, priority).qs)
  {
    hide PlacedAs, TakeOut, PutBack;
    var s', b := Nice(s, p, priority), s.pcbs[p];
    var q := ReadyQueue(priority);
    MovedPcbs(s, Home(b), q, p);
    if b.status == RUNNING {
      MovePlaced(s, Homes(s), Home(b), q, p);
      SameQueues(PutBack(TakeOut(s, Home(b), p), q, p), s', Homes(s)[p := In(q)]);
      assert Homes(s') == Homes(s)[p := In(q)];
    } else {
      SameQueues(s, s', Homes(s));
      assert Homes(s') == Homes(s);
    }
  }

  lemma NiceKeeps(s: State, p: int, priority: int)
    requires Loose(s) && (s.running != NONE ==> s.pcbs[s.running].status == RUNNING)
    requires p in s.pcbs && p != s.running && priority in {-1, 0, 1}
    ensures Loose(Nice(s, p, priority)) && Nice(s, p, priority).running == s.running
    ensures Nice(s, p, priority).pcbs == s.pcbs[p := s.pcbs[p].(priority := priority)]
  {
    hide Placement, Waits, Orphan, Sorted, Nice;
    var s' := Nice(s, p, priority);
    NicePlaced(s, p, priority);
    WaitedSame(s, p);
    WaitsSame(s.pcbs, p, s'.pcbs[p]);
    TableKeeps(s, s');
    OrphanKeeps(s.pcbs, s'.pcbs, s.running);
  }

  lemma WaitedSame(s: State, p: int)
    requires Waits(s.pcbs) && p in s.pcbs
    ensures s.pcbs[p].waitedBy != NONE ==> !s.pcbs[p].changed
  {
  }
}
