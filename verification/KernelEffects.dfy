/** What each step of the kernel does to the process it is about, as its callers see it afterwards. */
module KernelEffects {
  import opened KernelModel
  import opened KernelInvariant
  import opened KernelSteps
  import opened KernelCalls
  import opened KernelRuns
  import opened KernelWaits
  import opened KernelLaws

  // ---- a pass --------------------------------------------------------------

  /** Its function has returned, and it is no shell. */
  predicate Over(s: State, p: int) {
    p == s.running && p in s.pcbs && p != NONE && !s.finished && s.pcbs[p].cmd != Shell
  }

  /** A pass frees exactly the orphans. Who is not blocked stays as it is, except that a process whose function
      has returned is a zombie with a change for its parent to collect. */
  lemma PassLaw(s: State, rand: real)
    requires Ready(s)
    ensures var t := Schedule(s, rand);
            && (forall p :: p in t.pcbs <==> p in s.pcbs && !Orphan(s.pcbs, p))
            && (forall p :: p in t.pcbs && s.pcbs[p].status != BLOCKED && !Over(s, p) ==> t.pcbs[p] == s.pcbs[p])
            && (forall p :: p in t.pcbs && Over(s, p) ==>
                  t.pcbs[p] == s.pcbs[p].(status := ZOMBIED, changed := true, waitedBy := NONE))
  {
    hide Table, Placement, Waits, Orphan, Sleepers, Reaped, Schedule, NoDouble, Expired, Marked, Keep, Waiter;
    var a := Sleepers(s, 0);
    var b, t := Reaped(a), Schedule(s, rand);
    ScheduleKeeps(s, rand);
    SleepersKeep(s, 0);
    RunningKnown(s);
    ReapedKeeps(a);
    forall p ensures Orphan(b.pcbs, p) <==> Orphan(s.pcbs, p) {
      OrphanKeeps(s.pcbs, a.pcbs, p);
      OrphanKeeps(a.pcbs, b.pcbs, p);
    }
    forall p | p in t.pcbs && s.pcbs[p].status != BLOCKED
      ensures b.pcbs[p] == if Over(s, p) then s.pcbs[p].(status := ZOMBIED, changed := true, waitedBy := NONE)
                           else s.pcbs[p]
    {
      RunningKept(s, 0, p);
      if s.running != NONE && Over(s, s.running) { OverMarked(s, a, p); }
    }
  }

  lemma OverMarked(s: State, a: State, p: int)
    requires Ready(s) && a == Sleepers(s, 0) && Waits(a.pcbs) && a.pcbs.Keys == s.pcbs.Keys
    requires Over(s, s.running) && p in s.pcbs && s.pcbs[p].status != BLOCKED && a.pcbs[p] == s.pcbs[p]
    ensures var r := s.running;
            && r in a.pcbs
            && var m := Marked(a.pcbs, r, a.pcbs[r].(status := ZOMBIED, changed := true, waitedBy := NONE));
               && p in m
               && m[p] == if p == r then s.pcbs[p].(status := ZOMBIED, changed := true, waitedBy := NONE) else s.pcbs[p]
  {
    hide Table, Placement, Orphan, Sleepers, NoDouble, Expired, Waits;
    var r := s.running;
    var b := a.pcbs[r].(status := ZOMBIED, changed := true, waitedBy := NONE);
    if p != r { MarkedOther(a, r, b, p); }
  }

  // ---- a sleeper in a pass -------------------------------------------------

  /** The walk leaves a sleeper it has passed already as it is. */
  lemma {:induction false} PastKept(s: State, i: nat, p: int)
    requires Table(s) && Placement(s) && Waits(s.pcbs) && NoDouble(s, i) && p in s.pcbs && !Waiter(s.pcbs[p])
    requires forall j :: i <= j < |Q(s, Blocked)| ==> Q(s, Blocked)[j] != p
    ensures p in Sleepers(s, i).pcbs && Sleepers(s, i).pcbs[p] == s.pcbs[p]
    decreases |Q(s, Blocked)| - i
  {
    hide Table, Placement, Waits, PassKept, Marked, Retire, NoDouble, Sleepers, RunDown, Waiter;
    if i >= |Q(s, Blocked)| {
      WalkEnd(s, i);
    } else {
      WalkOn(s, i);
      var x := Q(s, Blocked)[i];
      if s.pcbs[x].sleepTime == 0 {
        var b := s.pcbs[x].(sleepTime := -1, status := ZOMBIED, changed := true, waitedBy := NONE);
        RetireKeeps(s, x);
        MarkedOther(s, x, b, p);
      } else {
        PastKept(SetPcb(s, x, RunDown(s.pcbs[x])), i + 1, p);
      }
    }
  }

  /** A timer that has not expired runs down once, or not at all if the walk ends before. */
  lemma {:induction false} SleeperKept(s: State, i: nat, p: int)
    requires Table(s) && Placement(s) && Waits(s.pcbs) && NoDouble(s, i) && p in s.pcbs && s.pcbs[p].sleepTime > 0
    ensures p in Sleepers(s, i).pcbs && Sleepers(s, i).pcbs[p] in {s.pcbs[p], RunDown(s.pcbs[p])}
    decreases |Q(s, Blocked)| - i
  {
    hide Table, Placement, Waits, PassKept, Marked, Retire, NoDouble, Sleepers;
    if i >= |Q(s, Blocked)| {
      WalkEnd(s, i);
    } else {
      WalkOn(s, i);
      var x := Q(s, Blocked)[i];
      var t := SetPcb(s, x, RunDown(s.pcbs[x]));
      if s.pcbs[x].sleepTime == 0 {
        var b := s.pcbs[x].(sleepTime := -1, status := ZOMBIED, changed := true, waitedBy := NONE);
        RetireKeeps(s, x);
        MarkedOther(s, x, b, p);
      } else if x == p {
        PastKept(t, i + 1, p);
      } else {
        SleeperKept(t, i + 1, p);
      }
    }
  }

  // ---- steps without a pass ------------------------------------------------

  lemma AfterSpawn(s: State, cmd: Cmd)
    requires Inv(s) && Allowed(s, Spawned(cmd))
    ensures var t, c := Next(s, Spawned(cmd)), s.maxPid;
            && c !in s.pcbs && t.pcbs == s.pcbs[c := Pcb(s.running, 0, RUNNING, false, -1, -1, cmd, false)]
            && t.running == s.running && t.maxPid == c + 1 && Q(t, Zero) == [c] + Q(s, Zero)
  {
    hide Placement, Waits, Orphan, Sorted;
  }

  /** A dead child is gone, a stopped or continued one has no change left to collect; nobody else is touched. */
  lemma AfterCollect(s: State, p: int)
    requires Inv(s) && Allowed(s, Collected(p))
    ensures var t := Next(s, Collected(p));
            && t.running == s.running
            && t.pcbs == if s.pcbs[p].status in {ZOMBIED, SIGNALED} then s.pcbs - {p}
                         else s.pcbs[p := s.pcbs[p].(changed := false)]
  {
    hide Placement, Orphan, Sorted, Waits;
    ChangedUnwaited(s, p);
    CollectPcbs(s, p);
    hide Collect;
  }

  /** The process has the priority, and if it wants to run, it stands at the end of the queue of that priority. */
  lemma AfterNice(s: State, p: int, priority: int)
    requires Inv(s) && Allowed(s, Niced(p, priority))
    ensures var t := Next(s, Niced(p, priority));
            && t.running == s.running && t.pcbs == s.pcbs[p := s.pcbs[p].(priority := priority)]
            && (s.pcbs[p].status == RUNNING ==>
                  var l := Q(t, if priority == -1 then Neg else if priority == 0 then Zero else Pos);
                  l != [] && l[|l| - 1] == p)
  {
    hide Placement, Waits, Orphan, Sorted, TakeOut;
    RunningKnown(s);
    NiceKeeps(s, p, priority);
  }

  /** A signal to another process, or SIGCONT: what it does to the target, and whom it wakes. */
  lemma AfterSignal(s: State, p: int, sig: Signal)
    requires Inv(s) && Allowed(s, Killed(p, sig, 0.0)) && (p != s.running || sig == SigCont)
    ensures var t, b := Next(s, Killed(p, sig, 0.0)), s.pcbs[p];
            var quiet := match sig
                         case SigCont => b.status in {RUNNING, ZOMBIED}
                         case SigStop => b.status in {STOPPED, ZOMBIED}
                         case SigTerm => false;
            && t.running == s.running && (quiet ==> t.pcbs == s.pcbs)
            && (!quiet ==>
                  && p in t.pcbs && t.pcbs[p].changed && t.pcbs[p].waitedBy == NONE
                  && (sig == SigCont ==> t.pcbs[p].status == RUNNING)
                  && (sig == SigStop ==> t.pcbs[p].status == STOPPED)
                  && (sig == SigTerm ==> t.pcbs[p].status == SIGNALED)
                  && (b.waitedBy != NONE ==> b.waitedBy in t.pcbs && t.pcbs[b.waitedBy].status == RUNNING)
                  && forall r :: r != p && r != b.waitedBy ==>
                       (r in t.pcbs <==> r in s.pcbs) && (r in s.pcbs ==> t.pcbs[r] == s.pcbs[r]))
  {
    hide Placement, Waits, Orphan, Sorted, Stop, Cont, Term, Waiter, NoStray;
    RunningKnown(s);
    if s.pcbs[p].waitedBy != NONE { WaiterOf(s, p); }
    match sig
    case SigCont => ContKeeps(s, p);
    case SigStop => StopKeeps(s, p);
    case SigTerm => TermKeeps(s, p); TermOther(s, p);
  }

  lemma TermOther(s: State, p: int)
    requires p in s.pcbs && p != s.running
    ensures Term(s, p).running == s.running
  {
    hide WakeWaiter, Home, Remove, Mark;
    MarkFlags(s, p, SIGNALED);
  }

  // ---- steps with a pass ---------------------------------------------------

  /** The timer takes nothing but the processor from the process that runs. */
  lemma AfterTick(s: State, rand: real)
    requires Inv(s) && Allowed(s, Ticked(rand))
    ensures var t := Next(s, Ticked(rand));
            && (forall p :: p in t.pcbs <==> p in s.pcbs && !Orphan(s.pcbs, p))
            && (forall p :: p in t.pcbs && s.pcbs[p].status != BLOCKED ==> t.pcbs[p] == s.pcbs[p])
            && (s.running != NONE ==> s.running in t.pcbs && t.pcbs[s.running] == s.pcbs[s.running])
  {
    hide Table, Placement, Waits, Orphan, Schedule, NoStray;
    RunningKnown(s);
    InvRunning(s);
    CallReady(s, Ticked(rand));
    PassLaw(Call(s, Ticked(rand)), rand);
  }

  /** A process whose function returns is a zombie with a change to collect, on the zombie queue. */
  lemma AfterReturn(s: State, rand: real)
    requires Inv(s) && Allowed(s, Returned(rand))
    ensures var t, p := Next(s, Returned(rand)), s.running;
            && p in t.pcbs && t.pcbs[p] == s.pcbs[p].(status := ZOMBIED, changed := true, waitedBy := NONE)
            && (!t.halted ==> p in Q(t, Zombie) && p != t.running)
            && (forall r :: r in t.pcbs && r in s.pcbs && r != p && s.pcbs[r].status != BLOCKED ==>
                  t.pcbs[r] == s.pcbs[r])
  {
    hide Table, Placement, Waits, Orphan, Schedule, NoStray;
    RunningKnown(s);
    InvRunning(s);
    CallReady(s, Returned(rand));
    PassLaw(s, rand);
    NextKeeps(s, Returned(rand));
    var t := Next(s, Returned(rand));
    if !t.halted { InvPlaces(t, s.running); }
  }

  /** A process that stops or terminates itself is stopped or terminated, with a change to collect. */
  lemma AfterOwnSignal(s: State, sig: Signal, rand: real)
    requires s.running in s.pcbs && Inv(s) && Allowed(s, Killed(s.running, sig, rand)) && sig != SigCont
    ensures var t, p := Next(s, Killed(s.running, sig, rand)), s.running;
            && p in t.pcbs && t.pcbs[p].status == (if sig == SigStop then STOPPED else SIGNALED) && t.pcbs[p].changed
            && (!t.halted ==> p in Q(t, if sig == SigStop then Stopped else Zombie) && p != t.running)
  {
    hide Table, Placement, Waits, Orphan, Schedule, NoStray, Stop, Term, Waiter;
    var e, p := Killed(s.running, sig, rand), s.running;
    RunningKnown(s);
    InvRunning(s);
    if sig == SigStop { StopKeeps(s, p); } else { TermKeeps(s, p); TermCurrent(s, p); }
    CallReady(s, e);
    PassLaw(Call(s, e), rand);
    NextKeeps(s, e);
    CallSame(s, e);
    OrphanKeeps(s.pcbs, Call(s, e).pcbs, p);
    if !Next(s, e).halted { InvPlaces(Next(s, e), p); }
  }

  /** A pass that starts without a process to reap changes a table as its walk does, and frees the orphans. */
  lemma PassWalk(s: State, rand: real)
    requires Ready(s) && (s.running == NONE || s.finished)
    ensures forall p :: p in Schedule(s, rand).pcbs ==>
              p in Sleepers(s, 0).pcbs && Schedule(s, rand).pcbs[p] == Sleepers(s, 0).pcbs[p]
    ensures CurrentKept(s, Sleepers(s, 0))
  {
    hide Table, Placement, Waits, Orphan, Sleepers, Schedule, NoDouble, Expired, Keep, CurrentKept;
    ScheduleKeeps(s, rand);
    SleepersKeep(s, 0);
    assert Reaped(Sleepers(s, 0)) == Sleepers(s, 0);
  }

  /** A process that goes to sleep for a time is blocked with ten times that on its timer, less two if the
      walk has come to it already. */
  lemma AfterSleep(s: State, ticks: nat, rand: real)
    requires Inv(s) && Allowed(s, Slept(ticks, rand)) && ticks > 0
    ensures var t, p := Next(s, Slept(ticks, rand)), s.running;
            && p in t.pcbs && t.pcbs[p].status == BLOCKED && t.pcbs[p].sleepTime in {10 * ticks, 10 * ticks - 2}
            && t.pcbs[p] == s.pcbs[p].(status := BLOCKED, sleepTime := t.pcbs[p].sleepTime)
            && (!t.halted ==> p in Q(t, Blocked) && p != t.running)
  {
    hide Table, Placement, Waits, Orphan, Schedule, NoStray, Sleepers, SleepFor, CurrentKept, NoDouble, Expired;
    var e, p := Slept(ticks, rand), s.running;
    var c := SleepFor(s, ticks);
    RunningKnown(s);
    CallReady(s, e);
    SleepPcbs(s, ticks);
    assert c.running == NONE by { SleepNone(s, ticks); }
    SleeperKept(c, 0, p);
    PassWalk(c, rand);
    PassLaw(c, rand);
    CallSame(s, e);
    OrphanKeeps(s.pcbs, c.pcbs, p);
    NextKeeps(s, e);
    var t := Next(s, e);
    if !t.halted { InvPlaces(t, p); InvRunning(t); }
  }

  lemma SleepNone(s: State, ticks: nat)
    requires s.running in s.pcbs
    ensures SleepFor(s, ticks).running == NONE
  {
  }

  /** A process that waits is blocked, and nothing else about it has changed. */
  lemma AfterWait(s: State, c: int, rand: real)
    requires Inv(s) && Allowed(s, Waited(c, rand))
    ensures var t, p := Next(s, Waited(c, rand)), s.running;
            && p in t.pcbs && t.pcbs[p] == s.pcbs[p].(status := BLOCKED)
            && (!t.halted ==> p in Q(t, Blocked) && p != t.running)
  {
    hide Table, Placement, Waits, Orphan, Schedule, NoStray, Sleepers, Wait, NoDouble, Expired;
    var e, p := Waited(c, rand), s.running;
    var v := Wait(s, c);
    RunningKnown(s);
    InvRunning(s);
    CallReady(s, e);
    WaitPcbs(s, c);
    WaitPlaced(s, c);
    assert v.running == p && v.finished by { WaitCurrent(s, c); }
    PassWalk(v, rand);
    PassLaw(v, rand);
    OrphanKeeps(s.pcbs, v.pcbs, p);
    NextKeeps(s, e);
    var t := Next(s, e);
    if !t.halted { InvPlaces(t, p); InvRunning(t); }
  }

  lemma WaitCurrent(s: State, c: int)
    requires s.running in s.pcbs && c in s.pcbs
    ensures Wait(s, c).running == s.running && Wait(s, c).finished
  {
  }
}
