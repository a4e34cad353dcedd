/** Runs of the kernel: every admissible sequence of steps keeps every process in its place. */
module KernelRuns {
  import opened KernelModel
  import opened KernelInvariant
  import opened KernelSteps
  import opened KernelCalls

  /** The kernel's steps; `rand` is the scheduler's draw where a scheduling pass follows. */
  datatype Event =
    | Spawned(cmd: Cmd)
    | Slept(ticks: nat, rand: real)
    | Waited(child: int, rand: real)
    | Collected(child: int)
    | Niced(pid: int, priority: int)
    | Killed(pid: int, signal: Signal, rand: real)
    | Ticked(rand: real)
    | Returned(rand: real)

  /** Does a scheduling pass follow? */
  predicate Passes(s: State, e: Event) {
    match e
    case Spawned(_) => false
    case Collected(_) => false
    case Niced(_, _) => false
    case Killed(p, sig, _) => p == s.running && sig != SigCont
    case _ => true
  }

  predicate HasRunning(s: State) {
    s.running != NONE && s.running in s.pcbs
  }

  /** find_which_queue knows no queue for a SIGNALED process, so none may be an orphan when the sweep comes. */
  ghost predicate NoStray(s: State) {
    forall p :: p in s.pcbs && s.pcbs[p].status == SIGNALED ==> !Orphan(s.pcbs, p)
  }

  /** What the code needs of its callers. */
  ghost predicate Allowed(s: State, e: Event) {
    && !s.halted
    && (Passes(s, e) ==> NoStray(s))
    && match e
       case Spawned(_) => true
       case Slept(ticks, _) => HasRunning(s) && ticks * 10 < 0x8000_0000
       case Waited(p, _) => HasRunning(s) && MayWait(s, p) && Expired(Wait(s, p), 0) != p
       case Collected(p) => HasRunning(s) && p in s.pcbs && s.pcbs[p].ppid == s.running && s.pcbs[p].changed
       case Niced(p, priority) => p in s.pcbs && p != s.running && priority in {-1, 0, 1}
       case Killed(p, sig, _) =>
         && p in s.pcbs && !Waiter(s.pcbs[p]) && s.pcbs[p].status != SIGNALED
         && (sig == SigCont ==> s.pcbs[p].cmd != SleepUnderscore)
         && (sig == SigTerm ==> s.pcbs[p].cmd != Shell)
       case Ticked(_) => true
       case Returned(_) => HasRunning(s) && s.pcbs[s.running].cmd != Shell
  }

  /** The state a step leaves for the scheduler, or for its caller when no pass follows. */
  function Call(s: State, e: Event): State {
    match e
    case Spawned(cmd) => Spawn(s, cmd)
    case Slept(ticks, _) => if HasRunning(s) then SleepFor(s, ticks) else s
    case Waited(p, _) => if HasRunning(s) && p in s.pcbs then Wait(s, p) else s
    case Collected(p) => if p in s.pcbs then Collect(s, p) else s
    case Niced(p, priority) => if p in s.pcbs then Nice(s, p, priority) else s
    case Killed(p, sig, _) =>
      if p !in s.pcbs then s
      else (match sig case SigCont => Cont(s, p) case SigStop => Stop(s, p) case SigTerm => Term(s, p))
    case Ticked(_) => s.(finished := true)
    case Returned(_) => s
  }

  function Next(s: State, e: Event): State {
    if Passes(s, e) then Schedule(Call(s, e), e.rand) else Call(s, e)
  }

  // ---- one step ------------------------------------------------------------

  lemma RunningNoDouble(s: State)
    requires Waits(s.pcbs) && Placement(s)
    requires s.running != NONE ==> s.running in s.pcbs && s.pcbs[s.running].status != BLOCKED
    ensures NoDouble(s, 0)
  {
    ExpiredIn(s, 0);
    if Expired(s, 0) != NONE {
      var j :| 0 <= j < |Q(s, Blocked)| && Q(s, Blocked)[j] == Expired(s, 0);
      BlockedMember(s, j);
    }
  }

  lemma InvRunning(s: State)
    requires Inv(s) && !s.halted
    ensures s.running in s.pcbs ==> s.pcbs[s.running].status == RUNNING
  {
  }

  lemma CallReady(s: State, e: Event)
    requires Inv(s) && Allowed(s, e) && Passes(s, e)
    ensures Ready(Call(s, e))
  {
    hide Table, Placement, Waits, Orphan, Expired, Stop, Term, Wait, NoStray, NoDouble;
    var s' := Call(s, e);
    RunningKnown(s);
    match e
    case Slept(ticks, _) => SleepReady(s, ticks);
    case Waited(p, _) => WaitReady(s, p);
    case Killed(p, sig, _) =>
      if sig == SigStop { StopKeeps(s, p); StopCurrent(s, p); } else { TermKeeps(s, p); TermCurrent(s, p); }
      RunningNoDouble(s');
    case Ticked(_) =>
      FlagKeeps(s, s');
      RunningNoDouble(s');
    case Returned(_) =>
      RunningNoDouble(s');
    case Spawned(_) => assert false;
    case Collected(_) => assert false;
    case Niced(_, _) => assert false;
  }

  lemma StopCurrent(s: State, p: int)
    requires p in s.pcbs && p == s.running && s.pcbs[p].status == RUNNING
    ensures Stop(s, p).running == NONE
  {
  }

  lemma TermCurrent(s: State, p: int)
    requires p in s.pcbs && p == s.running
    ensures Term(s, p).finished
  {
  }

  lemma CallKeeps(s: State, e: Event)
    requires Inv(s) && Allowed(s, e) && !Passes(s, e)
    ensures Inv(Call(s, e))
  {
    hide Table, Placement, Waits, Orphan, Expired, Stop, Term, Cont, Wait, NoStray, NoDouble, Nice, Collect, Spawn;
    RunningKnown(s);
    CallFlags(s, e);
    match e
    case Spawned(cmd) => SpawnKeeps(s, cmd);
    case Collected(p) => CollectKeeps(s, p);
    case Niced(p, priority) => NiceKeeps(s, p, priority); if s.running != NONE { NiceRunning(s, p, priority); }
    case Killed(p, sig, _) =>
      if sig == SigStop { StopKeeps(s, p); } else if sig == SigTerm { TermKeeps(s, p); } else { ContKeeps(s, p); }
    case _ => assert false;
  }

  lemma NiceRunning(s: State, p: int, priority: int)
    requires p in s.pcbs && p != s.running && s.running in s.pcbs
    ensures s.running in Nice(s, p, priority).pcbs && Nice(s, p, priority).pcbs[s.running] == s.pcbs[s.running]
  {
  }

  lemma CallFlags(s: State, e: Event)
    requires !Passes(s, e)
    ensures Call(s, e).finished == s.finished && Call(s, e).halted == s.halted
  {
    hide WakeWaiter, Home, ReadyQueue, Remove;
    if e.Killed? && e.pid in s.pcbs {
      forall to ensures Mark(s, e.pid, to).finished == s.finished && Mark(s, e.pid, to).halted == s.halted {
        MarkFlags(s, e.pid, to);
      }
    }
  }

  lemma MarkFlags(s: State, p: int, status: Status)
    requires p in s.pcbs
    ensures Mark(s, p, status) == s.(pcbs := Mark(s, p, status).pcbs, qs := Mark(s, p, status).qs)
  {
  }

  /** Every admissible step keeps the invariant. */
  lemma NextKeeps(s: State, e: Event)
    requires Inv(s) && Allowed(s, e)
    ensures Inv(Next(s, e))
  {
    hide Inv, Allowed, Ready, Schedule, Call;
    if Passes(s, e) {
      CallReady(s, e);
      ScheduleKeeps(Call(s, e), e.rand);
    } else {
      CallKeeps(s, e);
    }
  }

  // ---- runs ----------------------------------------------------------------

  function Run(s: State, es: seq<Event>): State
    decreases |es|
  {
    if es == [] then s else Run(Next(s, es[0]), es[1..])
  }

  ghost predicate Admissible(s: State, es: seq<Event>)
    decreases |es|
  {
    es == [] || (Allowed(s, es[0]) && Admissible(Next(s, es[0]), es[1..]))
  }

  /** The kernel as it starts: the shell alone, at the highest priority, about to be scheduled. */
  function Boot(): State {
    var shell := Pcb(NONE, -1, RUNNING, false, -1, NONE, Shell, true);
    State(map[1 := shell], [1],
          map[Neg := [1], Zero := [], Pos := [], Blocked := [], Stopped := [], Zombie := []],
          NONE, false, 2, false)
  }

  /** It comes from an empty kernel by spawning the shell, marking it and raising its priority. */
  lemma BootSpawns()
    ensures var none := map[Neg := [], Zero := [], Pos := [], Blocked := [], Stopped := [], Zombie := []];
            var s := Spawn(State(map[], [], none, NONE, false, 1, false), Shell);
            Boot() == Nice(SetPcb(s, 1, s.pcbs[1].(isShell := true)), 1, -1)
  {
    var none := map[Neg := [], Zero := [], Pos := [], Blocked := [], Stopped := [], Zombie := []];
    var s := Spawn(State(map[], [], none, NONE, false, 1, false), Shell);
    var t := SetPcb(s, 1, s.pcbs[1].(isShell := true));
    assert Home(t.pcbs[1]) == Zero && Q(t, Zero) == [1] && Remove([1], 1) == [];
    var u := TakeOut(t, Zero, 1);
    assert Q(u, Neg) == [] && Q(u, Zero) == [];
    var v := PutBack(u, Neg, 1);
    assert u.qs.Keys == {Neg, Zero, Pos, Blocked, Stopped, Zombie};
    assert v.qs.Keys == Boot().qs.Keys;
    assert v.qs[Neg] == [1] && v.qs[Zero] == [];
    assert v.qs[Pos] == [] && v.qs[Blocked] == [] && v.qs[Stopped] == [] && v.qs[Zombie] == [];
    assert v.qs == Boot().qs;
    assert Nice(t, 1, -1).pcbs == Boot().pcbs;
  }

  lemma BootIs()
    ensures Inv(Boot())
  {
    var s := Boot();
    forall q: Queue ensures q in s.qs && Q(s, q) == if q == Neg then [1] else [] {
      match q { case Neg => case Zero => case Pos => case Blocked => case Stopped => case Zombie => }
    }
    assert Homes(s) == map[1 := In(Neg)];
    assert !Orphan(s.pcbs, NONE);
  }

  lemma {:induction false} RunKeeps(s: State, es: seq<Event>)
    requires Inv(s) && Admissible(s, es)
    ensures Inv(Run(s, es))
    decreases |es|
  {
    hide Inv, Allowed, Next;
    if es != [] {
      NextKeeps(s, es[0]);
      RunKeeps(Next(s, es[0]), es[1..]);
    }
  }

  /** In every state a run of the kernel reaches, a process is running and on no queue, or
      it is once on the queue its status and priority name and on no other; and no queue
      holds anything else. */
  lemma ExactlyOnePlace(es: seq<Event>, p: int)
    requires Admissible(Boot(), es) && !Run(Boot(), es).halted
    ensures var s := Run(Boot(), es);
            && (p in s.all <==> p in s.pcbs)
            && (p in s.pcbs && p == s.running ==> s.pcbs[p].status == RUNNING && forall q :: p !in Q(s, q))
            && (p in s.pcbs && p != s.running ==> forall q :: p in Q(s, q) <==> q == Home(s.pcbs[p]))
            && (forall q :: NoDup(Q(s, q)))
            && (p !in s.pcbs ==> (p == s.running ==> p == NONE) && forall q :: p !in Q(s, q))
            && var there := p in s.pcbs && p != s.running;
               && (p in Q(s, Neg) <==> there && s.pcbs[p].status == RUNNING && s.pcbs[p].priority == -1)
               && (p in Q(s, Zero) <==> there && s.pcbs[p].status == RUNNING && s.pcbs[p].priority == 0)
               && (p in Q(s, Pos) <==> there && s.pcbs[p].status == RUNNING && s.pcbs[p].priority == 1)
               && (p in Q(s, Blocked) <==> there && s.pcbs[p].status == BLOCKED)
               && (p in Q(s, Stopped) <==> there && s.pcbs[p].status == STOPPED)
               && (p in Q(s, Zombie) <==> there && s.pcbs[p].status in {ZOMBIED, SIGNALED})
  {
    hide Admissible, Run, Inv;
    BootIs();
    RunKeeps(Boot(), es);
    InvPlaces(Run(Boot(), es), p);
    if p in Run(Boot(), es).pcbs { InvPriority(Run(Boot(), es), p); }
  }

  lemma InvPriority(s: State, p: int)
    requires Inv(s) && !s.halted && p in s.pcbs
    ensures s.pcbs[p].priority in {-1, 0, 1}
  {
  }

  lemma InvPlaces(s: State, p: int)
    requires Inv(s) && !s.halted
    ensures p in s.all <==> p in s.pcbs
    ensures p in s.pcbs && p == s.running ==> s.pcbs[p].status == RUNNING && forall q :: p !in Q(s, q)
    ensures p in s.pcbs && p != s.running ==> forall q :: p in Q(s, q) <==> q == Home(s.pcbs[p])
    ensures forall q :: NoDup(Q(s, q))
    ensures p !in s.pcbs ==> (p == s.running ==> p == NONE) && forall q :: p !in Q(s, q)
  {
    hide NoDup, Home, Orphan, Sorted, Waits;
    forall q ensures p in Q(s, q) <==> p in Homes(s) && Homes(s)[p] == In(q) {}
    forall q ensures NoDup(Q(s, q)) {}
  }
}
