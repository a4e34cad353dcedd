/** Waits and wake-ups match: whatever changes a process someone waits for readies the waiter in the same step. */
module KernelWaits {
  import opened KernelModel
  import opened KernelInvariant
  import opened KernelSteps
  import opened KernelCalls
  import opened KernelRuns

  /** From table `a` to table `b`, a mark either stays or goes together with the wake-up it stands for. */
  ghost predicate Woke(a: map<int, Pcb>, b: map<int, Pcb>) {
    forall p :: p in a && p in b && a[p].waitedBy != NONE && b[p].waitedBy != a[p].waitedBy ==>
      b[p].waitedBy == NONE && b[p].changed && (a[p].waitedBy in b ==> b[a[p].waitedBy].status == RUNNING)
  }

  /** From `a` to `b` no change is consumed and nobody but `x` stops being RUNNING. */
  ghost predicate Steady(a: map<int, Pcb>, b: map<int, Pcb>, x: int) {
    forall p :: p in a && p in b ==>
      (a[p].changed ==> b[p].changed) && (p != x && a[p].status == RUNNING ==> b[p].status == RUNNING)
      && (a[p].waitedBy == NONE ==> b[p].waitedBy == NONE)
  }

  lemma WokeTrans(a: map<int, Pcb>, b: map<int, Pcb>, c: map<int, Pcb>, x: int)
    requires Woke(a, b) && Woke(b, c) && Steady(b, c, x) && c.Keys <= b.Keys
    requires forall p :: p in a && a[p].waitedBy != NONE ==> a[p].waitedBy != x
    ensures Woke(a, c)
  {
  }

  lemma SteadyTrans(a: map<int, Pcb>, b: map<int, Pcb>, c: map<int, Pcb>, x: int)
    requires Steady(a, b, x) && Steady(b, c, x) && c.Keys <= b.Keys
    ensures Steady(a, c, x)
  {
  }

  lemma WokeMarked(pcbs: map<int, Pcb>, p: int, b: Pcb)
    requires Waits(pcbs) && p in pcbs && !Waiter(pcbs[p]) && b.changed && b.waitedBy == NONE
    ensures Woke(pcbs, Marked(pcbs, p, b)) && Steady(pcbs, Marked(pcbs, p, b), p)
    ensures pcbs[p].status != RUNNING || b.status == RUNNING ==> Steady(pcbs, Marked(pcbs, p, b), NONE)
  {
  }

  /** Setting a timer changes no mark. */
  lemma WokeTimer(pcbs: map<int, Pcb>, p: int)
    requires p in pcbs
    ensures var m := pcbs[p := RunDown(pcbs[p])]; Woke(pcbs, m) && Steady(pcbs, m, NONE)
  {
  }

  lemma {:induction false} SleepersWoke(s: State, i: nat)
    requires Table(s) && Placement(s) && Waits(s.pcbs) && NoDouble(s, i)
    ensures Woke(s.pcbs, Sleepers(s, i).pcbs) && Steady(s.pcbs, Sleepers(s, i).pcbs, NONE)
    decreases |Q(s, Blocked)| - i
  {
    hide Table, Placement, Waits, PassKept, Woke, Steady, Marked, Retire, NoDouble, Sleepers, RunDown;
    if i >= |Q(s, Blocked)| {
      WalkEnd(s, i);
      WokeSelf(s.pcbs);
    } else {
      WalkOn(s, i);
      var p := Q(s, Blocked)[i];
      if s.pcbs[p].sleepTime == 0 {
        RetireKeeps(s, p);
        WokeMarked(s.pcbs, p, s.pcbs[p].(sleepTime := -1, status := ZOMBIED, changed := true, waitedBy := NONE));
      } else {
        var t := SetPcb(s, p, RunDown(s.pcbs[p]));
        SleepersWoke(t, i + 1);
        WokeTimer(s.pcbs, p);
        SleepersKeep(t, i + 1);
        KeptKeys(t, Sleepers(t, i + 1));
        WokeTrans(s.pcbs, t.pcbs, Sleepers(t, i + 1).pcbs, NONE);
        SteadyTrans(s.pcbs, t.pcbs, Sleepers(t, i + 1).pcbs, NONE);
      }
    }
  }

  lemma WokeSelf(pcbs: map<int, Pcb>)
    ensures Woke(pcbs, pcbs) && Steady(pcbs, pcbs, NONE)
  {
  }

  lemma KeptKeys(s: State, s': State)
    requires PassKept(s, s')
    ensures s'.pcbs.Keys == s.pcbs.Keys
  {
  }

  // ---- one step ------------------------------------------------------------

  lemma CallWoke(s: State, e: Event)
    requires Inv(s) && Allowed(s, e)
    ensures Woke(s.pcbs, Call(s, e).pcbs)
  {
    hide Table, Placement, Orphan, Expired, Stop, Term, Cont, NoStray, NoDouble, Marked, Woke;
    RunningKnown(s);
    match e
    case Killed(p, sig, _) =>
      forall to ensures Woke(s.pcbs, Marked(s.pcbs, p, s.pcbs[p].(status := to, changed := true, waitedBy := NONE))) {
        WokeMarked(s.pcbs, p, s.pcbs[p].(status := to, changed := true, waitedBy := NONE));
      }
      WokeSelf(s.pcbs);
      if sig == SigStop { StopKeeps(s, p); } else if sig == SigTerm { TermKeeps(s, p); } else { ContKeeps(s, p); }
    case _ => CallUnmarked(s, e);
  }

  /** The other calls take no mark away. */
  lemma CallUnmarked(s: State, e: Event)
    requires Inv(s) && Allowed(s, e) && !e.Killed?
    ensures Woke(s.pcbs, Call(s, e).pcbs)
  {
    hide Placement, Orphan, Expired, NoStray, NoDouble, Wait, Nice, Collect, SleepFor, Woke, Waits, Sorted;
    match e
    case Niced(p, priority) => NicePlaced(s, p, priority); WokeEdit(s.pcbs, p, s.pcbs[p].(priority := priority));
    case Collected(p) => CollectWoke(s, p);
    case Spawned(cmd) => WokeEdit(s.pcbs, s.maxPid, Spawn(s, cmd).pcbs[s.maxPid]);
    case Waited(p, _) => WaitWoke(s, p);
    case Slept(ticks, _) =>
      SleepPcbs(s, ticks);
      WokeEdit(s.pcbs, s.running, s.pcbs[s.running].(status := BLOCKED, sleepTime := ticks * 10));
    case Ticked(_) => WokeSelf(s.pcbs);
    case Returned(_) => WokeSelf(s.pcbs);
    case Killed(_, _, _) => assert false;
  }

  lemma WokeEdit(pcbs: map<int, Pcb>, p: int, b: Pcb)
    requires p in pcbs ==> b.waitedBy == pcbs[p].waitedBy
    ensures Woke(pcbs, pcbs[p := b])
  {
  }

  lemma WaitWoke(s: State, p: int)
    requires MayWait(s, p)
    ensures Woke(s.pcbs, Wait(s, p).pcbs)
  {
    WaitPcbs(s, p);
    hide Wait;
  }

  lemma CollectWoke(s: State, p: int)
    requires Waits(s.pcbs) && p in s.pcbs && s.pcbs[p].changed
    ensures Woke(s.pcbs, Collect(s, p).pcbs)
  {
    ChangedUnwaited(s, p);
    CollectPcbs(s, p);
    hide Collect, Waits;
  }

  /** A pass as a whole, seen from the state before the call. */
  lemma PassWoke(s: State, e: Event)
    requires Inv(s) && Allowed(s, e) && Passes(s, e)
    ensures var b := Reaped(Sleepers(Call(s, e), 0)).pcbs; Woke(s.pcbs, b) && b.Keys == Call(s, e).pcbs.Keys
  {
    hide Table, Placement, Waits, Orphan, Expired, NoStray, NoDouble, Woke, Steady, Marked, Stop, Term, Wait, SleepFor,
      Sleepers, Reaped;
    var c := Call(s, e);
    var a := Sleepers(c, 0);
    CallReady(s, e);
    CallWoke(s, e);
    SleepersKeep(c, 0);
    SleepersWoke(c, 0);
    KeptKeys(c, a);
    WokeTrans(s.pcbs, c.pcbs, a.pcbs, NONE);
    RunningKnown(c);
    ReapedKeeps(a);
    var r := c.running;
    if r != NONE && !c.finished && a.pcbs[r].cmd != Shell {
      OnlyReturned(s, e);
      RunningUnwaiting(s, r);
      var b := a.pcbs[r].(status := ZOMBIED, changed := true, waitedBy := NONE);
      WokeMarked(a.pcbs, r, b);
      WokeTrans(s.pcbs, a.pcbs, Reaped(a).pcbs, r);
    }
  }

  lemma OnlyReturned(s: State, e: Event)
    requires Inv(s) && Allowed(s, e) && Passes(s, e)
    requires Call(s, e).running != NONE && !Call(s, e).finished
    ensures Call(s, e) == s
  {
    hide Table, Placement, Waits, Orphan, Expired, NoStray, Mark;
    if e.Killed? { StopKeeps(s, e.pid); TermCurrent(s, e.pid); }
  }

  lemma RunningUnwaiting(s: State, r: int)
    requires Waits(s.pcbs) && r in s.pcbs && s.pcbs[r].status == RUNNING
    ensures forall p :: p in s.pcbs && s.pcbs[p].waitedBy != NONE ==> s.pcbs[p].waitedBy != r
  {
  }

  /** Who is still there after a step still has its parent, unless the parent was collected. */
  lemma ParentStays(s: State, e: Event, p: int)
    requires Inv(s) && Allowed(s, e) && p in s.pcbs && p in Next(s, e).pcbs && s.pcbs[p].waitedBy != NONE
    ensures s.pcbs[p].waitedBy in Next(s, e).pcbs
  {
    hide Placement, Expired, NoStray, Schedule, Call, Sleepers, Reaped, Loose;
    var w := s.pcbs[p].waitedBy;
    WaitedParent(s, p);
    if Passes(s, e) {
      CallReady(s, e);
      ScheduleKeeps(Call(s, e), e.rand);
      PassWoke(s, e);
      PassFamily(s, e);
    } else {
      CallFamily(s, e, w);
    }
  }

  lemma WaitedParent(s: State, p: int)
    requires Inv(s) && !s.halted && p in s.pcbs && s.pcbs[p].waitedBy != NONE
    ensures var w := s.pcbs[p].waitedBy;
            w == s.pcbs[p].ppid && 1 <= w < p && w in s.pcbs && s.pcbs[w].status == BLOCKED && !s.pcbs[p].changed
  {
  }

  lemma PassFamily(s: State, e: Event)
    requires Inv(s) && Allowed(s, e) && Passes(s, e)
    ensures var b := Reaped(Sleepers(Call(s, e), 0)).pcbs;
            SameFamily(s.pcbs, b)
  {
    hide Table, Placement, Waits, Orphan, Expired, NoStray, NoDouble, Marked, Mark, Sleepers, Reaped;
    var c := Call(s, e);
    CallReady(s, e);
    SleepersKeep(c, 0);
    RunningKnown(c);
    ReapedKeeps(Sleepers(c, 0));
    CallSame(s, e);
  }

  lemma CallSame(s: State, e: Event)
    requires Inv(s) && Allowed(s, e) && Passes(s, e)
    ensures SameFamily(s.pcbs, Call(s, e).pcbs)
  {
    hide Placement, Waits, Orphan, Expired, NoStray, NoDouble, Stop, Term, Marked, Wait, SleepFor;
    if e.Killed? {
      var b := s.pcbs[e.pid];
      StopKeeps(s, e.pid);
      TermKeeps(s, e.pid);
      MarkedFamily(s.pcbs, e.pid, b.(status := STOPPED, changed := true, waitedBy := NONE));
      MarkedFamily(s.pcbs, e.pid, b.(status := SIGNALED, changed := true, waitedBy := NONE));
    } else if e.Slept? {
      SleepPcbs(s, e.ticks);
    } else if e.Waited? {
      WaitPcbs(s, e.child);
    }
  }

  lemma CallFamily(s: State, e: Event, w: int)
    requires Inv(s) && Allowed(s, e) && !Passes(s, e) && w in s.pcbs && s.pcbs[w].status == BLOCKED
    ensures w in Call(s, e).pcbs
  {
    hide Table, Placement, Orphan, Expired, NoStray, NoDouble, Stop, Term, Cont;
    RunningKnown(s);
    match e
    case Killed(p, sig, _) =>
      if sig == SigStop { StopKeeps(s, p); } else if sig == SigTerm { TermKeeps(s, p); } else { ContKeeps(s, p); }
    case _ =>
  }

  /** The step that marks a waited-for process as changed also readies its waiter, and no other step does. */
  lemma WakeStep(s: State, e: Event, p: int)
    requires Inv(s) && Allowed(s, e) && !Next(s, e).halted
    requires p in s.pcbs && p in Next(s, e).pcbs && s.pcbs[p].waitedBy != NONE
    ensures var w, t := s.pcbs[p].waitedBy, Next(s, e);
            && w in t.pcbs && !s.pcbs[p].changed && s.pcbs[w].status == BLOCKED && w in Q(s, Blocked)
            && if t.pcbs[p].changed
               then t.pcbs[p].waitedBy == NONE && t.pcbs[w].status == RUNNING
                    && (w == t.running || w in Q(t, ReadyQueue(t.pcbs[w].priority)))
               else t.pcbs[p].waitedBy == w && t.pcbs[w].status == BLOCKED && w in Q(t, Blocked)
  {
    hide Passes, Schedule, Call, Inv, Home, NoStray, MayWait, Waiter;
    var w, t := s.pcbs[p].waitedBy, Next(s, e);
    NextKeeps(s, e);
    ParentStays(s, e, p);
    WaitedParent(s, p);
    NextWoke(s, e);
    AtHome(s, w);
    AtHome(t, w);
    if t.pcbs[p].waitedBy == w { WaitedParent(t, p); }
  }

  lemma AtHome(s: State, w: int)
    requires Inv(s) && !s.halted && w in s.pcbs
    ensures w == s.running || w in Q(s, Home(s.pcbs[w]))
    ensures s.pcbs[w].status == BLOCKED ==> w in Q(s, Blocked)
    ensures s.pcbs[w].status == RUNNING ==> Home(s.pcbs[w]) == ReadyQueue(s.pcbs[w].priority)
  {
    InvPlaces(s, w);
    hide NoDup, Inv, ReadyQueue;
    InvRunning(s);
  }

  lemma NextWoke(s: State, e: Event)
    requires Inv(s) && Allowed(s, e)
    ensures Woke(s.pcbs, Next(s, e).pcbs)
  {
    hide Inv, Allowed, Ready, Schedule, Call, Sleepers, Reaped, Orphans;
    if Passes(s, e) {
      CallReady(s, e);
      ScheduleKeeps(Call(s, e), e.rand);
      PassWoke(s, e);
    } else {
      CallWoke(s, e);
    }
  }

  /** In every state a run of the kernel reaches: a mark names a parent blocked on the blocked queue,
      and every process blocked in p_waitpid has exactly one child marked with it. */
  lemma WaitsMatch(es: seq<Event>, p: int)
    requires Admissible(Boot(), es) && !Run(Boot(), es).halted && p in Run(Boot(), es).pcbs
    ensures var s := Run(Boot(), es);
            && (s.pcbs[p].waitedBy != NONE ==>
                  s.pcbs[p].waitedBy == s.pcbs[p].ppid && s.pcbs[p].ppid in Q(s, Blocked) && !s.pcbs[p].changed)
            && (Waiter(s.pcbs[p]) ==> exists c :: c in s.pcbs && s.pcbs[c].waitedBy == p)
            && forall c, d :: c in s.pcbs && d in s.pcbs && s.pcbs[c].waitedBy == p == s.pcbs[d].waitedBy ==> c == d
  {
    hide Admissible, Run;
    var s := Run(Boot(), es);
    BootIs();
    RunKeeps(Boot(), es);
    hide Placement, Orphan, Sorted;
    if s.pcbs[p].waitedBy != NONE {
      WaitedParent(s, p);
      AtHome(s, s.pcbs[p].waitedBy);
    }
  }
}
