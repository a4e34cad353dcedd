/** What the kernel promises its users: who runs next and in what order, what a new process is, and that the
    shell is there to the end. */
module KernelLaws {
  import opened KernelModel
  import opened KernelInvariant
  import opened KernelSteps
  import opened KernelCalls
  import opened KernelRuns

  // ---- who runs next -------------------------------------------------------

  /** Some process of this priority wants to run. */
  ghost predicate Level(pcbs: map<int, Pcb>, priority: int) {
    exists p :: p in pcbs && pcbs[p].status == RUNNING && pcbs[p].priority == priority
  }

  /** The state from which a pass picks: retired, reaped, swept, and the process that ran at the back. */
  function Queued(s: State): State {
    var c := Reaped(Sleepers(s, 0)).(finished := false);
    AddBack(Sweep(c, c.all))
  }

  lemma PassPicks(s: State, rand: real)
    requires Ready(s) && !Schedule(s, rand).halted
    ensures var u := Queued(s);
            && Schedule(s, rand) == Dispatch(u, rand) && Schedule(s, rand).pcbs == u.pcbs
            && Table(u.(running := NONE)) && Placement(u.(running := NONE))
  {
    hide Table, Placement, Waits, Orphan, Dispatch, AddBack, Sleepers, Reaped, Sweep, HasShell, NoDouble, Expired,
         Keep, IdlesRightly;
    PassSweeps(s);
    var c := Reaped(Sleepers(s, 0)).(finished := false);
    var d := Without(c, Orphans(c.pcbs));
    AddBackKeeps(d);
    AddBackPcbs(d);
    assert Waits(d.pcbs) && !d.finished && forall p :: !Orphan(d.pcbs, p);
    DispatchKeeps(AddBack(d), rand);
  }

  /** A pass up to the moment before the process that ran is put back. */
  lemma PassSweeps(s: State)
    requires Ready(s)
    ensures var c := Reaped(Sleepers(s, 0)).(finished := false);
            var d := Without(c, Orphans(c.pcbs));
            && Table(c) && Placement(c) && Sweep(c, c.all) == d
            && Table(d) && Placement(d) && Waits(d.pcbs) && forall p :: !Orphan(d.pcbs, p)
  {
    hide Table, Placement, Waits, Orphan, Sleepers, Reaped, Sweep, NoDouble, Expired, Keep;
    var a := Sleepers(s, 0);
    SleepersKeep(s, 0);
    RunningKnown(s);
    var b := Reaped(a);
    ReapedKeeps(a);
    OrphanKeeps(s.pcbs, a.pcbs, b.running);
    OrphanKeeps(a.pcbs, b.pcbs, b.running);
    var c := b.(finished := false);
    FlagKeeps(b, c);
    OnlyOrphan(s, a, b);
    SweepWhole(c);
    SweptKeeps(c);
  }

  /** A ready queue holds somebody exactly when somebody of its priority wants to run. */
  lemma LevelQueue(u: State, priority: int)
    requires Table(u.(running := NONE)) && Placement(u.(running := NONE)) && priority in {-1, 0, 1}
    ensures Level(u.pcbs, priority) <==> Q(u, ReadyQueue(priority)) != []
    ensures Q(u, ReadyQueue(priority)) != [] ==>
      var p := Q(u, ReadyQueue(priority))[0];
      p in u.pcbs && u.pcbs[p].status == RUNNING && u.pcbs[p].priority == priority && p != NONE
  {
    hide PlacedAs, Sorted;
    var v, q := u.(running := NONE), ReadyQueue(priority);
    if Q(u, q) != [] {
      HeadReady(v, q);
      RunningHome(u.pcbs[Q(u, q)[0]]);
    }
    if Level(u.pcbs, priority) {
      var p :| p in u.pcbs && u.pcbs[p].status == RUNNING && u.pcbs[p].priority == priority;
      IdleMeansNone(u, p);
    }
  }

  /** Which ready queue a draw picks: 9 to 6 to 4 among three, 3 to 2 between neighbours, 9 to 4 between the first
      and the last. */
  lemma PickDraws(s: State, rand: real)
    ensures var n, z, p := Q(s, Neg) != [], Q(s, Zero) != [], Q(s, Pos) != [];
      && (n && z && p ==> Pick(s, rand) == if rand < 0.4737 then Neg else if rand < 0.7895 then Zero else Pos)
      && (n && z && !p ==> Pick(s, rand) == if rand < 0.6 then Neg else Zero)
      && (n && !z && p ==> Pick(s, rand) == if rand < 0.3077 then Pos else Neg)
      && (!n && z && p ==> Pick(s, rand) == if rand < 0.6 then Zero else Pos)
  {
  }

  /** After a pass the process that runs has the priority the draw names, among the priorities at which
      somebody wants to run. */
  lemma DrawLaw(s: State, rand: real)
    requires Ready(s) && !Schedule(s, rand).halted
    ensures var t := Schedule(s, rand);
            var first, middle, last := Level(t.pcbs, -1), Level(t.pcbs, 0), Level(t.pcbs, 1);
            && (t.running != NONE <==> first || middle || last)
            && (t.running != NONE ==>
                  && t.running in t.pcbs && t.pcbs[t.running].status == RUNNING
                  && var priority := t.pcbs[t.running].priority;
                     && priority in {-1, 0, 1}
                     && (first && middle && last ==>
                           (priority == -1 <==> rand < 0.4737) && (priority == 1 <==> rand >= 0.7895))
                     && (first && middle && !last ==> (priority == -1 <==> rand < 0.6))
                     && (first && !middle && last ==> (priority == 1 <==> rand < 0.3077))
                     && (!first && middle && last ==> (priority == 0 <==> rand < 0.6)))
  {
    hide Ready, Schedule, Queued, Pick, Placement, Sorted, Level;
    PassPicks(s, rand);
    var u := Queued(s);
    DispatchIs(u, rand);
    PickIs(u, rand);
    PickDraws(u, rand);
    LevelQueue(u, -1);
    LevelQueue(u, 0);
    LevelQueue(u, 1);
    Levels(u.pcbs);
  }

  lemma Levels(pcbs: map<int, Pcb>)
    requires forall p :: p in pcbs ==> pcbs[p].priority in {-1, 0, 1}
    ensures (forall p :: p in pcbs ==> pcbs[p].status != RUNNING) <==>
            !Level(pcbs, -1) && !Level(pcbs, 0) && !Level(pcbs, 1)
  {
    forall p | p in pcbs && pcbs[p].status == RUNNING ensures Level(pcbs, pcbs[p].priority) {}
  }

  /** The higher of two priorities has the larger share: for each draw that picks the lower one, another picks
      the higher one, and no two draws share theirs. */
  lemma HigherOftener(s: State, x: real)
    requires 0.0 <= x <= 1.0
    ensures var n, z, p := Q(s, Neg) != [], Q(s, Zero) != [], Q(s, Pos) != [];
      && (n && z && !p && Pick(s, x) == Zero ==> Pick(s, 1.0 - x) == Neg)
      && (n && !z && p && Pick(s, x) == Pos ==> Pick(s, 1.0 - x) == Neg)
      && (!n && z && p && Pick(s, x) == Pos ==> Pick(s, 1.0 - x) == Zero)
      && (n && z && p && Pick(s, x) == Zero ==> x - 0.4737 >= 0.0 && Pick(s, x - 0.4737) == Neg)
      && (n && z && p && Pick(s, x) == Pos ==> x - 0.25 >= 0.0 && Pick(s, x - 0.25) == Zero)
  {
    PickDraws(s, x);
  }

  // ---- a new process -------------------------------------------------------

  /** What p_spawn makes, in every state: a child of the process that runs, ready at the middle priority, unchanged,
      not asleep, waited for by nobody, no shell, in front of its queue. Everybody else is as before. */
  lemma SpawnIs(s: State, cmd: Cmd)
    requires s.maxPid !in s.pcbs
    ensures var t, c := Spawn(s, cmd), s.maxPid;
      && c in t.pcbs && t.pcbs[c].ppid == s.running && t.pcbs[c].priority == 0 && t.pcbs[c].status == RUNNING
      && !t.pcbs[c].changed && t.pcbs[c].sleepTime == -1 && t.pcbs[c].waitedBy == -1 && !t.pcbs[c].isShell
      && t.pcbs[c].cmd == cmd
      && (forall p :: p != c ==> (p in t.pcbs <==> p in s.pcbs) && (p in s.pcbs ==> t.pcbs[p] == s.pcbs[p]))
      && t.all == s.all + [c] && t.maxPid == c + 1 && Q(t, Zero) == [c] + Q(s, Zero)
      && (forall q :: q != Zero ==> Q(t, q) == Q(s, q))
      && t.running == s.running && t.finished == s.finished && t.halted == s.halted
  {
  }

  /** A process that has never slept can wait for a child it has just spawned, and then it is blocked, whatever the
      draw, and its child is as it was. */
  lemma FreshChild(s: State, cmd: Cmd, rand: real)
    requires Inv(s) && !s.halted && HasRunning(s) && s.pcbs[s.running].sleepTime < 0 && NoStray(s)
    ensures var w, c, t := s.running, s.maxPid, Spawn(s, cmd);
            && MayWait(t, c) && Allowed(t, Waited(c, rand))
            && var u := Next(t, Waited(c, rand));
               !u.halted ==>
                 && w in u.pcbs && u.pcbs[w].status == BLOCKED && w in Q(u, Blocked) && w != u.running
                 && c in u.pcbs && u.pcbs[c] == t.pcbs[c].(waitedBy := w)
  {
    hide Inv, Schedule, Allowed, Table, Placement, Waits, Orphan, NoStray, Expired, NoDouble, Spawn, Wait;
    var w, c, t := s.running, s.maxPid, Spawn(s, cmd);
    var u := Next(t, Waited(c, rand));
    FreshAllowed(s, cmd, rand);
    NextKeeps(t, Waited(c, rand));
    if !u.halted {
      CallReady(t, Waited(c, rand));
      FreshPass(t, c, rand);
      InvPlaces(u, w);
      InvRunning(u);
    }
  }

  lemma FreshAllowed(s: State, cmd: Cmd, rand: real)
    requires Inv(s) && !s.halted && HasRunning(s) && s.pcbs[s.running].sleepTime < 0 && NoStray(s)
    ensures var c, t := s.maxPid, Spawn(s, cmd);
            && Inv(t) && Loose(t) && !t.halted && t.running == s.running && HasRunning(t)
            && t.pcbs[t.running].status == RUNNING && t.pcbs[c].status == RUNNING
            && MayWait(t, c) && Allowed(t, Waited(c, rand))
  {
    hide Placement, Waits, Orphan, Expired;
    var w, c, t := s.running, s.maxPid, Spawn(s, cmd);
    SpawnKeeps(s, cmd);
    assert c !in s.pcbs && w < c;
    hide Sorted;
    forall p | p in t.pcbs && t.pcbs[p].status == SIGNALED ensures !Orphan(t.pcbs, p) {
      OrphanNew(s.pcbs, c, t.pcbs[c], p);
    }
    WaitPcbs(t, c);
    ExpiredZero(Wait(t, c), 0);
  }

  /** The pass after waiting leaves the waiter blocked and a RUNNING child as it is. */
  lemma FreshPass(s: State, c: int, rand: real)
    requires Loose(s) && HasRunning(s) && s.pcbs[s.running].status == RUNNING && MayWait(s, c)
    requires s.pcbs[c].status == RUNNING && Ready(Wait(s, c)) && !Schedule(Wait(s, c), rand).halted
    ensures var w, u := s.running, Schedule(Wait(s, c), rand);
            && w in u.pcbs && u.pcbs[w].status == BLOCKED && c in u.pcbs && u.pcbs[c] == s.pcbs[c].(waitedBy := w)
  {
    hide Table, Placement, Waits, Orphan, Sleepers, Schedule, NoDouble, Expired;
    var w, v := s.running, Wait(s, c);
    WaitPcbs(s, c);
    WaitPlaced(s, c);
    ScheduleKeeps(v, rand);
    SleepersKeep(v, 0);
    RunningKept(v, 0, c);
    var a := Sleepers(v, 0);
    OrphanKeeps(s.pcbs, v.pcbs, w);
    OrphanKeeps(v.pcbs, a.pcbs, w);
    assert Reaped(a) == a;
    ChildOf(a.pcbs, c, w);
  }

  lemma ChildOf(pcbs: map<int, Pcb>, c: int, w: int)
    requires c in pcbs && w in pcbs && pcbs[c].ppid == w && !Orphan(pcbs, w)
    ensures !Orphan(pcbs, c)
  {
  }

  /** The walk over the sleepers leaves a process that is not blocked as it is. */
  lemma {:induction false} RunningKept(s: State, i: nat, p: int)
    requires Table(s) && Placement(s) && Waits(s.pcbs) && NoDouble(s, i) && p in s.pcbs && s.pcbs[p].status != BLOCKED
    ensures p in Sleepers(s, i).pcbs && Sleepers(s, i).pcbs[p] == s.pcbs[p]
    decreases |Q(s, Blocked)| - i
  {
    hide Table, Placement, Waits, PassKept, Marked, Retire, NoDouble, Sleepers, RunDown;
    if i >= |Q(s, Blocked)| {
      WalkEnd(s, i);
    } else {
      WalkOn(s, i);
      var x := Q(s, Blocked)[i];
      if s.pcbs[x].sleepTime == 0 {
        var b := s.pcbs[x].(sleepTime := -1, status := ZOMBIED, changed := true, waitedBy := NONE);
        RetireKeeps(s, x);
        MarkedOther(s, x, b, p);
      } else {
        RunningKept(SetPcb(s, x, RunDown(s.pcbs[x])), i + 1, p);
      }
    }
  }

  lemma MarkedOther(s: State, x: int, b: Pcb, p: int)
    requires Waits(s.pcbs) && x in s.pcbs && p in s.pcbs && p != x && !Waiter(s.pcbs[p])
    ensures p in Marked(s.pcbs, x, b) && Marked(s.pcbs, x, b)[p] == s.pcbs[p]
  {
  }

  // ---- the shell -----------------------------------------------------------

  /** Nobody's parent, command or shell flag is another one. */
  ghost predicate SameNature(a: map<int, Pcb>, b: map<int, Pcb>) {
    forall p :: p in a && p in b ==>
      b[p].isShell == a[p].isShell && b[p].ppid == a[p].ppid && b[p].cmd == a[p].cmd
  }

  lemma NatureTrans(a: map<int, Pcb>, b: map<int, Pcb>, c: map<int, Pcb>)
    requires SameNature(a, b) && SameNature(b, c) && c.Keys <= b.Keys
    ensures SameNature(a, c)
  {
  }

  lemma NatureEdit(pcbs: map<int, Pcb>, p: int, b: Pcb)
    requires p in pcbs && b.isShell == pcbs[p].isShell && b.ppid == pcbs[p].ppid && b.cmd == pcbs[p].cmd
    ensures SameNature(pcbs, pcbs[p := b]) && SameNature(pcbs, Marked(pcbs, p, b))
    ensures Marked(pcbs, p, b).Keys == pcbs.Keys
  {
  }

  lemma {:induction false} SleepersNature(s: State, i: nat)
    requires Table(s) && Placement(s) && Waits(s.pcbs) && NoDouble(s, i)
    ensures SameNature(s.pcbs, Sleepers(s, i).pcbs) && Sleepers(s, i).pcbs.Keys == s.pcbs.Keys
    decreases |Q(s, Blocked)| - i
  {
    hide Table, Placement, Waits, PassKept, Marked, Retire, NoDouble, Sleepers, RunDown, SameNature;
    if i >= |Q(s, Blocked)| {
      WalkEnd(s, i);
      NatureSelf(s.pcbs);
    } else {
      WalkOn(s, i);
      var x := Q(s, Blocked)[i];
      if s.pcbs[x].sleepTime == 0 {
        RetireKeeps(s, x);
        NatureEdit(s.pcbs, x, s.pcbs[x].(sleepTime := -1, status := ZOMBIED, changed := true, waitedBy := NONE));
      } else {
        var t := SetPcb(s, x, RunDown(s.pcbs[x]));
        RunDownIs(s.pcbs[x]);
        SleepersNature(t, i + 1);
        NatureEdit(s.pcbs, x, RunDown(s.pcbs[x]));
        NatureTrans(s.pcbs, t.pcbs, Sleepers(t, i + 1).pcbs);
      }
    }
  }

  lemma NatureSelf(pcbs: map<int, Pcb>)
    ensures SameNature(pcbs, pcbs)
  {
  }

  lemma RunDownIs(b: Pcb)
    ensures RunDown(b) == b.(sleepTime := RunDown(b).sleepTime)
  {
  }

  /** What a pass leaves of the table. */
  lemma PassNature(s: State, rand: real)
    requires Ready(s)
    ensures SameNature(s.pcbs, Schedule(s, rand).pcbs)
    ensures forall p :: p in s.pcbs && s.pcbs[p].ppid == NONE ==> p in Schedule(s, rand).pcbs
    ensures Schedule(s, rand).pcbs.Keys <= s.pcbs.Keys
  {
    hide Table, Placement, Waits, Sleepers, Reaped, Schedule, NoDouble, Expired, Marked, SameNature, Keep;
    var a := Sleepers(s, 0);
    var b, t := Reaped(a), Schedule(s, rand);
    ScheduleKeeps(s, rand);
    SleepersKeep(s, 0);
    SleepersNature(s, 0);
    RunningKnown(s);
    ReapedKeeps(a);
    NatureSelf(a.pcbs);
    if s.running != NONE && !s.finished {
      var r := s.running;
      NatureEdit(a.pcbs, r, a.pcbs[r].(status := ZOMBIED, changed := true, waitedBy := NONE));
    }
    NatureTrans(s.pcbs, a.pcbs, b.pcbs);
    NatureLess(b.pcbs, Orphans(b.pcbs));
    NatureTrans(s.pcbs, b.pcbs, t.pcbs);
  }

  lemma NatureLess(pcbs: map<int, Pcb>, dead: set<int>)
    ensures SameNature(pcbs, pcbs - dead)
  {
  }

  /** The program exits exactly when no shell is left in the table. */
  lemma ExitsIff(s: State, rand: real)
    requires Ready(s) && !s.halted
    ensures var t := Schedule(s, rand); t.halted <==> forall p :: p in t.pcbs ==> !t.pcbs[p].isShell
  {
    hide Table, Placement, Waits, Orphan, Sleepers, Sweep, NoDouble, Expired, Keep, Reaped, AddBack, Pick, Dispatch;
    SleepersKeep(s, 0);
    PassSweeps(s);
    var c := Reaped(Sleepers(s, 0)).(finished := false);
    var d := Without(c, Orphans(c.pcbs));
    AddBackPcbs(d);
    AddBackKeeps(d);
    DispatchKeeps(AddBack(d), rand);
    HaltedKept(AddBack(d), rand);
    ReapedHalted(Sleepers(s, 0));
  }

  lemma HaltedKept(s: State, rand: real)
    ensures Dispatch(s, rand).halted == s.halted
  {
  }

  lemma ReapedHalted(s: State)
    ensures Reaped(s).halted == s.halted
  {
    hide Remove;
  }

  /** A call that is no spawn makes nobody another process, and frees no process without a parent. */
  lemma CallNature(s: State, e: Event)
    requires Inv(s) && Allowed(s, e)
    ensures SameNature(s.pcbs, Call(s, e).pcbs) && Call(s, e).halted == s.halted
    ensures forall p :: p in s.pcbs && s.pcbs[p].ppid == NONE ==> p in Call(s, e).pcbs
  {
    hide Placement, Orphan, Expired, NoStray, Stop, Term, Cont, Marked, SameNature, Waits, Sorted;
    RunningKnown(s);
    CallHalted(s, e);
    NatureSelf(s.pcbs);
    match e
    case Spawned(cmd) => NatureNew(s.pcbs, s.maxPid, Spawn(s, cmd).pcbs[s.maxPid]);
    case Killed(p, sig, _) =>
      forall to
        ensures var m := Marked(s.pcbs, p, s.pcbs[p].(status := to, changed := true, waitedBy := NONE));
                SameNature(s.pcbs, m) && m.Keys == s.pcbs.Keys
      {
        NatureEdit(s.pcbs, p, s.pcbs[p].(status := to, changed := true, waitedBy := NONE));
      }
      if sig == SigStop { StopKeeps(s, p); } else if sig == SigTerm { TermKeeps(s, p); } else { ContKeeps(s, p); }
    case _ => QuietNature(s, e);
  }

  lemma NatureNew(pcbs: map<int, Pcb>, p: int, b: Pcb)
    requires p !in pcbs
    ensures SameNature(pcbs, pcbs[p := b])
  {
  }

  lemma QuietNature(s: State, e: Event)
    requires Inv(s) && Allowed(s, e) && !e.Killed? && !e.Spawned?
    ensures SameNature(s.pcbs, Call(s, e).pcbs)
    ensures forall p :: p in s.pcbs && s.pcbs[p].ppid == NONE ==> p in Call(s, e).pcbs
  {
    hide Placement, Orphan, Expired, NoStray, Waits, Sorted, SleepFor, Wait, Collect, Nice;
    RunningKnown(s);
    match e
    case Slept(ticks, _) => SleepPcbs(s, ticks);
    case Waited(p, _) => WaitPcbs(s, p);
    case Collected(p) => ChangedUnwaited(s, p); CollectPcbs(s, p);
    case Niced(p, priority) => NicePlaced(s, p, priority);
    case _ =>
  }

  lemma CallHalted(s: State, e: Event)
    ensures Call(s, e).halted == s.halted
  {
    hide WakeWaiter, Home, ReadyQueue, Remove, Mark;
    if e.Killed? && e.pid in s.pcbs {
      forall to ensures Mark(s, e.pid, to).halted == s.halted { MarkFlags(s, e.pid, to); }
    }
  }

  /** The process the kernel starts with. */
  predicate HasFirst(s: State) {
    1 in s.pcbs && s.pcbs[1].isShell && s.pcbs[1].ppid == NONE && s.pcbs[1].cmd == Shell
  }

  lemma FirstStays(s: State, e: Event)
    requires Inv(s) && Allowed(s, e) && HasFirst(s) && !s.halted
    ensures HasFirst(Next(s, e)) && !Next(s, e).halted
  {
    hide Inv, Allowed, Ready, Schedule, Call;
    CallNature(s, e);
    if Passes(s, e) {
      CallReady(s, e);
      PassNature(Call(s, e), e.rand);
      ExitsIff(Call(s, e), e.rand);
    }
  }

  /** No admissible run ends the program, and the shell it started with is there in every state. */
  lemma {:induction false} ShellStays(s: State, es: seq<Event>)
    requires Inv(s) && Admissible(s, es) && !s.halted && HasFirst(s)
    ensures !Run(s, es).halted && HasFirst(Run(s, es))
    decreases |es|
  {
    hide Inv, Allowed, Next, HasFirst;
    if es != [] {
      NextKeeps(s, es[0]);
      FirstStays(s, es[0]);
      ShellStays(Next(s, es[0]), es[1..]);
    }
  }

  lemma NeverExits(es: seq<Event>)
    requires Admissible(Boot(), es)
    ensures !Run(Boot(), es).halted && HasFirst(Run(Boot(), es))
  {
    BootIs();
    hide Admissible, Run;
    ShellStays(Boot(), es);
  }
}
