/** Runs from the start state that reach the states in which the code goes wrong. */
module KernelWitness {
  import opened KernelModel
  import opened KernelInvariant
  import opened KernelSteps
  import opened KernelCalls
  import opened KernelRuns
  import opened KernelLimits

  const ShellPcb := Pcb(NONE, -1, RUNNING, false, -1, NONE, Shell, true)

  /** The child of the shell. */
  function Child(cmd: Cmd, status: Status, changed: bool, sleepTime: int): Pcb {
    Pcb(1, 0, status, changed, sleepTime, NONE, cmd, false)
  }

  function Queues(neg: seq<int>, zero: seq<int>, blocked: seq<int>, stopped: seq<int>): map<Queue, seq<int>> {
    map[Neg := neg, Zero := zero, Pos := [], Blocked := blocked, Stopped := stopped, Zombie := []]
  }

  /** The shell is running, alone. */
  function Alone(): State {
    State(map[1 := ShellPcb], [1], Queues([], [], [], []), 1, false, 2, false)
  }

  /** The shell and one child. */
  function Pair(child: Pcb, qs: map<Queue, seq<int>>, running: int): State {
    State(map[1 := ShellPcb, 2 := child], [1, 2], qs, running, false, 3, false)
  }

  // ---- passes over these states --------------------------------------------

  lemma {:induction false} NothingSwept(s: State, rest: seq<int>)
    requires forall p :: p in s.pcbs ==> s.pcbs[p].ppid == NONE || s.pcbs[p].ppid in s.pcbs
    ensures Sweep(s, rest) == s
    decreases |rest|
  {
    if rest != [] { NothingSwept(s, rest[1..]); }
  }

  /** A pass without orphans and without a process that returned. */
  lemma QuietPass(s: State, a: State, rand: real)
    requires a == Sleepers(s, 0).(finished := false) && (s.running == NONE || Sleepers(s, 0).finished)
    requires s.running == Sleepers(s, 0).running
    requires HasShell(a) && forall p :: p in a.pcbs ==> a.pcbs[p].ppid == NONE || a.pcbs[p].ppid in a.pcbs
    ensures Schedule(s, rand) == Dispatch(AddBack(a), rand)
  {
    hide Dispatch, AddBack, Sleepers, HasShell;
    assert Reaped(Sleepers(s, 0)) == Sleepers(s, 0);
    NothingSwept(a, a.all);
  }

  lemma NoSleepers(s: State)
    requires Q(s, Blocked) == []
    ensures Sleepers(s, 0) == s
  {
  }

  lemma OneSleeper(s: State, p: int)
    requires Q(s, Blocked) == [p] && p in s.pcbs && s.pcbs[p].sleepTime > 1
    ensures Sleepers(s, 0) == SetPcb(s, p, s.pcbs[p].(sleepTime := s.pcbs[p].sleepTime - 2))
  {
    var t := SetPcb(s, p, s.pcbs[p].(sleepTime := s.pcbs[p].sleepTime - 2));
    assert Q(t, Blocked) == [p];
    assert Sleepers(t, 1) == t;
  }

  lemma SameQs(s: State, neg: seq<int>, zero: seq<int>, blocked: seq<int>, stopped: seq<int>)
    requires s.qs.Keys == {Neg, Zero, Pos, Blocked, Stopped, Zombie}
    requires s.qs[Neg] == neg && s.qs[Zero] == zero && s.qs[Pos] == [] && s.qs[Blocked] == blocked
    requires s.qs[Stopped] == stopped && s.qs[Zombie] == []
    ensures s.qs == Queues(neg, zero, blocked, stopped)
  {
  }

  lemma BootTick()
    ensures Next(Boot(), Ticked(0.0)) == Alone()
  {
    var s := Boot().(finished := true);
    var a := s.(finished := false);
    NoSleepers(s);
    assert a.pcbs[1].isShell;
    QuietPass(s, a, 0.0);
    assert AddBack(a) == a && Pick(a, 0.0) == Neg && Q(a, Neg) == [1];
    var t := Dispatch(a, 0.0);
    assert Remove([1], 1) == [];
    SameQs(t, [], [], [], []);
  }

  lemma ShellSpawns(cmd: Cmd)
    ensures Next(Alone(), Spawned(cmd)) == Pair(Child(cmd, RUNNING, false, -1), Queues([], [2], [], []), 1)
  {
    var t := Next(Alone(), Spawned(cmd));
    SameQs(t, [], [2], [], []);
    assert t.pcbs == map[1 := ShellPcb, 2 := Child(cmd, RUNNING, false, -1)];
  }

  // ---- a stopped "sleep_" process ------------------------------------------

  lemma SleeperStopped()
    ensures Next(Pair(Child(SleepUnderscore, RUNNING, false, -1), Queues([], [2], [], []), 1),
                Killed(2, SigStop, 0.0)) ==
            Pair(Child(SleepUnderscore, STOPPED, true, -1), Queues([], [], [], [2]), 1)
  {
    var s := Pair(Child(SleepUnderscore, RUNNING, false, -1), Queues([], [2], [], []), 1);
    var t := Next(s, Killed(2, SigStop, 0.0));
    assert Home(s.pcbs[2]) == Zero && Q(s, Zero) == [2] && Remove([2], 2) == [];
    SameQs(t, [], [], [], [2]);
    assert t.pcbs == map[1 := ShellPcb, 2 := Child(SleepUnderscore, STOPPED, true, -1)];
  }

  const StoppedSleeper := [Ticked(0.0), Spawned(SleepUnderscore), Killed(2, SigStop, 0.0)]

  /** The shell spawns a process called "sleep_" and stops it: continuing it now would misplace it. */
  lemma ContGoesWrong()
    ensures Admissible(Boot(), StoppedSleeper) && 2 in Run(Boot(), StoppedSleeper).pcbs
    ensures !Placement(Cont(Run(Boot(), StoppedSleeper), 2))
  {
    hide Next, Inv, Placement, Cont;
    var s2 := Pair(Child(SleepUnderscore, RUNNING, false, -1), Queues([], [2], [], []), 1);
    var s3 := Pair(Child(SleepUnderscore, STOPPED, true, -1), Queues([], [], [], [2]), 1);
    BootTick();
    ShellSpawns(SleepUnderscore);
    SleeperStopped();
    NoSignals(Boot());
    RunThree(Boot(), StoppedSleeper);
    BootIs();
    RunKeeps(Boot(), StoppedSleeper);
    ContExactly(s3, 2);
  }

  lemma NoSignals(s: State)
    requires forall p :: p in s.pcbs ==> s.pcbs[p].status != SIGNALED
    ensures NoStray(s)
  {
    hide Orphan;
  }

  lemma RunThree(s: State, es: seq<Event>)
    requires |es| == 3 && Allowed(s, es[0]) && Allowed(Next(s, es[0]), es[1])
    requires Allowed(Next(Next(s, es[0]), es[1]), es[2])
    ensures Admissible(s, es) && Run(s, es) == Next(Next(Next(s, es[0]), es[1]), es[2])
  {
    hide Next, Allowed;
    AdmissibleOne(Next(Next(s, es[0]), es[1]), es[2]);
    assert es[1..] == [es[1], es[2]] && [es[1], es[2]][1..] == [es[2]];
  }

  lemma AdmissibleOne(s: State, e: Event)
    requires Allowed(s, e)
    ensures Admissible(s, [e]) && Run(s, [e]) == Next(s, e)
  {
    hide Next, Allowed;
    var t := Next(s, e);
    assert [e][1..] == [];
    assert Run(t, []) == t && Admissible(t, []);
  }

  // ---- a sleeping child about to be retired --------------------------------

  /** The shell runs while its child sleeps. */
  function Dozing(t: int): State {
    Pair(Child(Other, BLOCKED, false, t), Queues([], [], [2], []), 1)
  }

  /** A preempted shell goes back to its queue. */
  lemma ShellBack(child: Pcb, zero: seq<int>, blocked: seq<int>)
    ensures AddBack(Pair(child, Queues([], zero, blocked, []), 1)) == Pair(child, Queues([1], zero, blocked, []), 1)
  {
    SameQs(AddBack(Pair(child, Queues([], zero, blocked, []), 1)), [1], zero, blocked, []);
  }

  lemma ShellChosen(child: Pcb, blocked: seq<int>, running: int)
    ensures Dispatch(Pair(child, Queues([1], [], blocked, []), running), 0.0) ==
              Pair(child, Queues([], [], blocked, []), 1)
  {
    var s := Pair(child, Queues([1], [], blocked, []), running);
    assert Q(s, Neg) == [1] && Q(s, Zero) == [] && Q(s, Pos) == [];
    assert Pick(s, 0.0) == Neg && Remove([1], 1) == [];
    SameQs(Dispatch(s, 0.0), [], [], blocked, []);
  }

  lemma ChildChosen(child: Pcb)
    ensures Dispatch(Pair(child, Queues([1], [2], [], []), 1), 0.9) == Pair(child, Queues([1], [], [], []), 2)
  {
    var s := Pair(child, Queues([1], [2], [], []), 1);
    assert Q(s, Neg) == [1] && Q(s, Zero) == [2] && Q(s, Pos) == [];
    assert Pick(s, 0.9) == Zero && Remove([2], 2) == [];
    SameQs(Dispatch(s, 0.9), [1], [], [], []);
  }

  lemma ShellThere(child: Pcb, qs: map<Queue, seq<int>>, running: int)
    requires child.ppid == 1
    ensures var a := Pair(child, qs, running);
            HasShell(a) && forall p :: p in a.pcbs ==> a.pcbs[p].ppid == NONE || a.pcbs[p].ppid in a.pcbs
  {
    assert Pair(child, qs, running).pcbs[1].isShell;
  }

  lemma TickIs(s: State, rand: real)
    ensures Next(s, Ticked(rand)) == Schedule(s.(finished := true), rand)
  {
    hide Schedule;
  }

  lemma ChildRuns()
    ensures Next(Pair(Child(Other, RUNNING, false, -1), Queues([], [2], [], []), 1), Ticked(0.9)) ==
            Pair(Child(Other, RUNNING, false, -1), Queues([1], [], [], []), 2)
  {
    var child := Child(Other, RUNNING, false, -1);
    var a := Pair(child, Queues([], [2], [], []), 1);
    NoSleepers(a.(finished := true));
    ShellThere(child, a.qs, 1);
    ShellBack(child, [2], []);
    ChildChosen(child);
    TickIs(a, 0.9);
    hide Sleepers, AddBack, Dispatch, HasShell, Schedule, Next;
    QuietPass(a.(finished := true), a, 0.9);
  }

  /** The current child is not RUNNING, or nobody is current: nothing goes back. */
  lemma NobodyBack(child: Pcb, qs: map<Queue, seq<int>>)
    ensures AddBack(Pair(child, qs, NONE)) == Pair(child, qs, NONE)
  {
  }

  lemma SleepStart()
    ensures SleepFor(Pair(Child(Other, RUNNING, false, -1), Queues([1], [], [], []), 2), 1) ==
            Pair(Child(Other, BLOCKED, false, 10), Queues([1], [], [2], []), NONE).(finished := true)
  {
    var c := SleepFor(Pair(Child(Other, RUNNING, false, -1), Queues([1], [], [], []), 2), 1);
    SameQs(c, [1], [], [2], []);
    assert c.pcbs == map[1 := ShellPcb, 2 := Child(Other, BLOCKED, false, 10)];
  }

  lemma TimerRuns(neg: seq<int>, t: int, running: int)
    requires t > 1
    ensures Sleepers(Pair(Child(Other, BLOCKED, false, t), Queues(neg, [], [2], []), running).(finished := true), 0) ==
            Pair(Child(Other, BLOCKED, false, t - 2), Queues(neg, [], [2], []), running).(finished := true)
  {
    var s := Pair(Child(Other, BLOCKED, false, t), Queues(neg, [], [2], []), running).(finished := true);
    assert Q(s, Blocked) == [2];
    OneSleeper(s, 2);
    hide Sleepers;
    assert Sleepers(s, 0).pcbs == map[1 := ShellPcb, 2 := Child(Other, BLOCKED, false, t - 2)];
  }

  lemma ChildSleeps()
    ensures Next(Pair(Child(Other, RUNNING, false, -1), Queues([1], [], [], []), 2), Slept(1, 0.0)) == Dozing(8)
  {
    var child := Child(Other, BLOCKED, false, 8);
    var c := Pair(Child(Other, BLOCKED, false, 10), Queues([1], [], [2], []), NONE).(finished := true);
    var a := Pair(child, Queues([1], [], [2], []), NONE);
    SleepStart();
    TimerRuns([1], 10, NONE);
    ShellThere(child, a.qs, NONE);
    NobodyBack(child, a.qs);
    ShellChosen(child, [2], NONE);
    hide Sleepers, AddBack, Dispatch, HasShell, Schedule, SleepFor;
    QuietPass(c, a, 0.0);
  }

  /** A quantum passes. */
  lemma ChildDreams(t: int)
    requires t > 1
    ensures Next(Dozing(t), Ticked(0.0)) == Dozing(t - 2)
  {
    var child := Child(Other, BLOCKED, false, t - 2);
    var a := Pair(child, Queues([], [], [2], []), 1);
    TimerRuns([], t, 1);
    ShellThere(child, a.qs, 1);
    ShellBack(child, [], [2]);
    ShellChosen(child, [2], 1);
    TickIs(Dozing(t), 0.0);
    hide Sleepers, AddBack, Dispatch, HasShell, Schedule, Next;
    QuietPass(Dozing(t).(finished := true), a, 0.0);
  }

  lemma TickAllowed(t: int)
    ensures Allowed(Dozing(t), Ticked(0.0))
  {
    NoSignals(Dozing(t));
  }

  /** Four quanta and the time is up. */
  function Quanta(n: nat): seq<Event> {
    if n == 0 then [] else [Ticked(0.0)] + Quanta(n - 1)
  }

  lemma {:induction false} QuantaPass(n: nat, t: int)
    requires t >= 2 * n
    ensures Admissible(Dozing(t), Quanta(n)) && Run(Dozing(t), Quanta(n)) == Dozing(t - 2 * n)
  {
    hide *;
    QuantaNext(n);
    if n > 0 {
      ChildDreams(t);
      TickAllowed(t);
      QuantaPass(n - 1, t - 2);
      RunCons(Dozing(t), Ticked(0.0), Quanta(n - 1));
    } else {
      RunNothing(Dozing(t));
    }
  }

  lemma RunNothing(s: State)
    ensures Run(s, []) == s && Admissible(s, [])
  {
    hide Next, Allowed;
  }

  lemma QuantaNext(n: nat)
    ensures Quanta(n) == if n == 0 then [] else [Ticked(0.0)] + Quanta(n - 1)
  {
  }

  lemma RunCons(s: State, e: Event, rest: seq<Event>)
    ensures Run(s, [e] + rest) == Run(Next(s, e), rest)
    ensures Allowed(s, e) && Admissible(Next(s, e), rest) ==> Admissible(s, [e] + rest)
  {
    hide Next, Allowed;
    assert ([e] + rest)[1..] == rest;
  }

  const SleepingChild := [Ticked(0.0), Spawned(Other), Ticked(0.9)]

  lemma {:induction false} RunAppend(s: State, a: seq<Event>, b: seq<Event>)
    ensures Run(s, a + b) == Run(Run(s, a), b)
    ensures Admissible(s, a + b) <==> Admissible(s, a) && Admissible(Run(s, a), b)
    decreases |a|
  {
    hide Next, Allowed;
    if a == [] {
      assert a + b == b;
    } else {
      assert (a + b)[1..] == a[1..] + b;
      RunAppend(Next(s, a[0]), a[1..], b);
    }
  }

  lemma DozingExpires()
    ensures HasRunning(Dozing(0)) && MayWait(Dozing(0), 2) && Expired(Wait(Dozing(0), 2), 0) == 2
  {
    var s := Dozing(0);
    assert Q(Wait(s, 2), Blocked) == [2, 1];
    assert Wait(s, 2).pcbs[2].sleepTime == 0;
  }

  /** The child of the shell sleeps until its timer is 0: waiting for it now queues the shell twice. */
  lemma WaitGoesWrong(rand: real) returns (es: seq<Event>)
    ensures Admissible(Boot(), es) && !Run(Boot(), es).halted
    ensures var s := Run(Boot(), es);
            && HasRunning(s) && MayWait(s, 2) && NoStray(s) && Expired(Wait(s, 2), 0) == 2
            && !Inv(Next(s, Waited(2, rand)))
  {
    es := SleepingChild + ([Slept(1, 0.0)] + Quanta(4));
    ReachDozing(es);
    var s := Dozing(0);
    NoSignals(s);
    DozingExpires();
    hide Next, Inv, Wait, Expired, Admissible, Run;
    BootIs();
    RunKeeps(Boot(), es);
    StillUp(s, rand);
    WaitExactly(s, 2, rand);
  }

  // ---- the shell survives --------------------------------------------------

  ghost predicate ShellIn(s: State) {
    1 in s.pcbs && s.pcbs[1].isShell && s.pcbs[1].ppid == NONE
  }

  lemma ShellWoken(s: State, p: int)
    requires ShellIn(s) && p in s.pcbs
    ensures ShellIn(Retire(s, p)) && ShellIn(WakeWaiter(s, p))
  {
  }

  lemma {:induction false} ShellSlept(s: State, i: nat)
    requires ShellIn(s)
    ensures ShellIn(Sleepers(s, i)) && Sleepers(s, i).running == s.running && Sleepers(s, i).finished == s.finished
    decreases |Q(s, Blocked)| - i
  {
    if i < |Q(s, Blocked)| && Q(s, Blocked)[i] in s.pcbs {
      var p := Q(s, Blocked)[i];
      var b := s.pcbs[p];
      hide ShellIn, Retire;
      if b.sleepTime > 0 {
        var t := SetPcb(s, p, b.(sleepTime := if b.sleepTime > 1 then b.sleepTime - 2 else 0));
        ShellTimed(s, p, t.pcbs[p].sleepTime);
        ShellSlept(t, i + 1);
      } else if b.sleepTime < 0 {
        ShellSlept(s, i + 1);
      } else {
        ShellWoken(s, p);
        RetireFlags(s, p);
      }
    }
  }

  lemma ShellTimed(s: State, p: int, t: int)
    requires ShellIn(s) && p in s.pcbs
    ensures ShellIn(SetPcb(s, p, s.pcbs[p].(sleepTime := t)))
  {
  }

  lemma RetireFlags(s: State, p: int)
    requires p in s.pcbs
    ensures Retire(s, p).running == s.running && Retire(s, p).finished == s.finished
  {
  }

  lemma {:induction false} ShellSwept(s: State, rest: seq<int>)
    requires ShellIn(s)
    ensures ShellIn(Sweep(s, rest))
    decreases |rest|
  {
    if rest != [] {
      ShellSwept(s, rest[1..]);
      if rest[0] != 1 { ShellSwept(Discard(s, rest[0]), rest[1..]); }
    }
  }

  lemma DozingWaits(c: State, rand: real)
    requires c == Wait(Dozing(0), 2)
    ensures ShellIn(c) && c.finished && !c.halted && Next(Dozing(0), Waited(2, rand)) == Schedule(c, rand)
  {
    hide Schedule;
    assert c.pcbs[1] == ShellPcb.(status := BLOCKED);
  }

  lemma StillUp(s: State, rand: real)
    requires s == Dozing(0)
    ensures !Next(s, Waited(2, rand)).halted
  {
    var c := Wait(s, 2);
    DozingWaits(c, rand);
    hide Next, Wait, Sleepers, Sweep, Schedule, ShellIn;
    ShellSlept(c, 0);
    var a := Sleepers(c, 0).(finished := false);
    ShellSwept(a, a.all);
    NotHalted(c, rand);
  }

  /** The program exits only when the sweep leaves no shell. */
  lemma NotHalted(s: State, rand: real)
    requires !s.halted && s.finished && Sleepers(s, 0).finished
    requires var a := Sleepers(s, 0).(finished := false); ShellIn(Sweep(a, a.all))
    ensures !Schedule(s, rand).halted
  {
    var a := Sleepers(s, 0).(finished := false);
    HaltedSlept(s, 0);
    HaltedSwept(a, a.all);
    hide Sleepers, Sweep, Pick, FirstRunning;
    assert HasShell(Sweep(a, a.all));
  }

  lemma {:induction false} HaltedSlept(s: State, i: nat)
    ensures Sleepers(s, i).halted == s.halted
    decreases |Q(s, Blocked)| - i
  {
    if i < |Q(s, Blocked)| && Q(s, Blocked)[i] in s.pcbs {
      var p := Q(s, Blocked)[i];
      var b := s.pcbs[p];
      HaltedSlept(SetPcb(s, p, b.(sleepTime := b.sleepTime - 2)), i + 1);
      HaltedSlept(SetPcb(s, p, b.(sleepTime := 0)), i + 1);
      HaltedSlept(s, i + 1);
    }
  }

  lemma {:induction false} HaltedSwept(s: State, rest: seq<int>)
    ensures Sweep(s, rest).halted == s.halted
    decreases |rest|
  {
    if rest != [] {
      HaltedSwept(s, rest[1..]);
      HaltedSwept(Discard(s, rest[0]), rest[1..]);
    }
  }

  lemma ReachDozing(es: seq<Event>)
    requires es == SleepingChild + ([Slept(1, 0.0)] + Quanta(4))
    ensures Admissible(Boot(), es) && Run(Boot(), es) == Dozing(0)
  {
    hide Next, Quanta;
    var s2 := Pair(Child(Other, RUNNING, false, -1), Queues([], [2], [], []), 1);
    var s3 := Pair(Child(Other, RUNNING, false, -1), Queues([1], [], [], []), 2);
    BootTick();
    ShellSpawns(Other);
    ChildRuns();
    ChildSleeps();
    NoSignals(Boot());
    NoSignals(s2);
    NoSignals(s3);
    RunThree(Boot(), SleepingChild);
    AdmissibleOne(s3, Slept(1, 0.0));
    QuantaPass(4, 8);
    hide Admissible, Run, Allowed;
    RunAppend(s3, [Slept(1, 0.0)], Quanta(4));
    RunAppend(Boot(), SleepingChild, [Slept(1, 0.0)] + Quanta(4));
  }

  // ---- waiting for somebody else's child -----------------------------------

  const Middle := Child(Other, RUNNING, false, -1)

  function Grandchild(status: Status): Pcb {
    Pcb(2, 0, status, false, -1, NONE, Other, false)
  }

  /** The shell, its child and the child's child. */
  function Three(shell: Pcb, status: Status, qs: map<Queue, seq<int>>, running: int): State {
    State(map[1 := shell, 2 := Middle, 3 := Grandchild(status)], [1, 2, 3], qs, running, false, 4, false)
  }

  lemma MiddleSpawns()
    ensures Next(Pair(Middle, Queues([1], [], [], []), 2), Spawned(Other)) ==
            Three(ShellPcb, RUNNING, Queues([1], [3], [], []), 2)
  {
    var t := Next(Pair(Middle, Queues([1], [], [], []), 2), Spawned(Other));
    SameQs(t, [1], [3], [], []);
    assert t.pcbs == map[1 := ShellPcb, 2 := Middle, 3 := Grandchild(RUNNING)];
  }

  lemma FamilyThere(shell: Pcb, status: Status, qs: map<Queue, seq<int>>, running: int)
    requires shell.isShell && shell.ppid == NONE
    ensures var a := Three(shell, status, qs, running);
            HasShell(a) && forall p :: p in a.pcbs ==> a.pcbs[p].ppid == NONE || a.pcbs[p].ppid in a.pcbs
  {
    assert Three(shell, status, qs, running).pcbs[1].isShell;
  }

  lemma GrandchildRuns()
    ensures Next(Three(ShellPcb, RUNNING, Queues([1], [3], [], []), 2), Ticked(0.9)) ==
            Three(ShellPcb, RUNNING, Queues([1], [2], [], []), 3)
  {
    var a := Three(ShellPcb, RUNNING, Queues([1], [3], [], []), 2);
    NoSleepers(a.(finished := true));
    FamilyThere(ShellPcb, RUNNING, a.qs, 2);
    var b := AddBack(a);
    SameQs(b, [1], [3, 2], [], []);
    assert Q(b, Neg) == [1] && Q(b, Zero) == [3, 2] && Q(b, Pos) == [] && Pick(b, 0.9) == Zero;
    assert Remove([3, 2], 3) == [2];
    SameQs(Dispatch(b, 0.9), [1], [2], [], []);
    TickIs(a, 0.9);
    hide Sleepers, AddBack, Dispatch, HasShell, Schedule, Next;
    QuietPass(a.(finished := true), a, 0.9);
  }

  const WaitedShell := ShellPcb.(waitedBy := 3)

  /** The grandchild waits for the shell. */
  lemma GrandchildWaits()
    ensures Next(Three(ShellPcb, RUNNING, Queues([1], [2], [], []), 3), Waited(1, 0.0)) ==
            Three(WaitedShell, BLOCKED, Queues([], [2], [3], []), 1)
  {
    var s := Three(ShellPcb, RUNNING, Queues([1], [2], [], []), 3);
    var a := Three(WaitedShell, BLOCKED, Queues([1], [2], [3], []), 3);
    var c := a.(finished := true);
    hide Sleepers, AddBack, Dispatch, HasShell, Schedule, Next, Wait;
    GrandchildBlocks(s, c);
    SkipsWaiter(c);
    FamilyThere(WaitedShell, BLOCKED, a.qs, 3);
    ShellFollows(a);
    WaitIs(s, 1, 0.0);
    QuietPass(c, a, 0.0);
  }

  lemma WaitIs(s: State, p: int, rand: real)
    requires HasRunning(s) && p in s.pcbs
    ensures Next(s, Waited(p, rand)) == Schedule(Wait(s, p), rand)
  {
    hide Schedule, Wait;
  }

  lemma ShellFollows(a: State)
    requires a == Three(WaitedShell, BLOCKED, Queues([1], [2], [3], []), 3)
    ensures Dispatch(AddBack(a), 0.0) == Three(WaitedShell, BLOCKED, Queues([], [2], [3], []), 1)
  {
    assert AddBack(a) == a;
    assert Q(a, Neg) == [1] && Q(a, Zero) == [2] && Q(a, Pos) == [] && Pick(a, 0.0) == Neg && Remove([1], 1) == [];
    SameQs(Dispatch(a, 0.0), [], [2], [3], []);
  }

  lemma GrandchildBlocks(s: State, c: State)
    requires s == Three(ShellPcb, RUNNING, Queues([1], [2], [], []), 3)
    requires c == Three(WaitedShell, BLOCKED, Queues([1], [2], [3], []), 3).(finished := true)
    ensures Wait(s, 1) == c
  {
    SameQs(Wait(s, 1), [1], [2], [3], []);
    assert Wait(s, 1).pcbs == map[1 := WaitedShell, 2 := Middle, 3 := Grandchild(BLOCKED)];
  }

  lemma SkipsWaiter(s: State)
    requires Q(s, Blocked) == [3] && 3 in s.pcbs && s.pcbs[3].sleepTime == -1
    ensures Sleepers(s, 0) == s
  {
    assert Sleepers(s, 1) == s;
  }

  /** The shell terminates its child. */
  lemma MiddleTerminated()
    ensures var s := Three(WaitedShell, BLOCKED, Queues([], [2], [3], []), 1);
            Next(s, Killed(2, SigTerm, 0.0)) ==
            s.(pcbs := s.pcbs[2 := Child(Other, SIGNALED, true, -1)], qs := Queues([], [], [3], [])[Zombie := [2]])
  {
    var s := Three(WaitedShell, BLOCKED, Queues([], [2], [3], []), 1);
    var t, m := Next(s, Killed(2, SigTerm, 0.0)), Mark(s, 2, SIGNALED);
    var u := TakeOut(m, Zero, 2);
    assert Home(s.pcbs[2]) == Zero && Q(s, Zero) == [2] && Remove([2], 2) == [];
    assert m.qs == s.qs && u.qs == s.qs[Zero := []] == Queues([], [], [3], []);
    assert t.qs == PutBack(u, Zombie, 2).qs && Q(u, Zombie) == [] && [] + [2] == [2];
    assert t.qs == u.qs[Zombie := [2]];
    assert t.pcbs == s.pcbs[2 := Child(Other, SIGNALED, true, -1)];
  }

  /** The shell and the waiter without its parent. */
  function Bereft(): State {
    State(map[1 := WaitedShell, 3 := Grandchild(BLOCKED)], [1, 3], Queues([], [], [3], []), 1, false, 4, false)
  }

  lemma MiddleCollected()
    ensures var s := Three(WaitedShell, BLOCKED, Queues([], [2], [3], []), 1);
            Next(s.(pcbs := s.pcbs[2 := Child(Other, SIGNALED, true, -1)],
                    qs := Queues([], [], [3], [])[Zombie := [2]]), Collected(2)) == Bereft()
  {
    var s := Three(WaitedShell, BLOCKED, Queues([], [2], [3], []), 1);
    var u := s.(pcbs := s.pcbs[2 := Child(Other, SIGNALED, true, -1)],
                qs := Queues([], [], [3], [])[Zombie := [2]]);
    assert Remove([2], 2) == [] && Remove([1, 2, 3], 2) == [1] + Remove([2, 3], 2) == [1, 3];
    SameQs(Next(u, Collected(2)), [], [], [3], []);
    assert Next(u, Collected(2)).pcbs == Bereft().pcbs;
  }

  /** The sweep frees the waiter; its mark stays. */
  lemma WaiterGone()
    ensures var t := Next(Bereft(), Ticked(0.0)); t.pcbs == map[1 := WaitedShell] && !t.halted
  {
    var a := Bereft();
    var c := a.(finished := true);
    var d := Discard(a, 3);
    hide Sleepers, AddBack, Dispatch, Sweep, Discard, Next, HasShell;
    SkipsWaiter(c);
    TickIs(a, 0.0);
    BereftSwept(a, d);
    assert Reaped(c).(finished := false) == a;
    SwungBack(d);
  }

  lemma BereftSwept(a: State, d: State)
    requires a == Bereft() && d == Discard(a, 3)
    ensures Sweep(a, a.all) == d && d.pcbs == map[1 := WaitedShell] && HasShell(d) && !d.halted
  {
    assert Home(a.pcbs[3]) == Blocked;
    hide Home;
    DiscardIs(a, 3);
    assert d.pcbs == map[1 := WaitedShell] && d.pcbs[1].isShell;
    assert [1, 3][1..] == [3] && [3][1..] == [];
    hide Discard, HasShell;
    assert Sweep(a, [1, 3]) == Sweep(a, [3]) == Sweep(d, []) == d;
  }

  lemma SwungBack(s: State)
    ensures Dispatch(AddBack(s), 0.0).pcbs == s.pcbs && Dispatch(AddBack(s), 0.0).halted == s.halted
  {
  }

  const Family := [Ticked(0.0), Spawned(Other), Ticked(0.9), Spawned(Other), Ticked(0.9)]
  const Farewell := [Killed(2, SigTerm, 0.0), Collected(2), Ticked(0.0)]

  /** A process waits for one that is not its child, nothing else being wrong: once its parent is gone the sweep
      frees it, and the mark of the process waited for names nobody. */
  lemma StrangerGoesWrong()
    ensures Admissible(Boot(), Family)
    ensures var s := Run(Boot(), Family);
            && !s.halted && HasRunning(s) && 1 in s.pcbs && 1 != s.running && !s.pcbs[1].changed
            && s.pcbs[1].waitedBy == NONE && s.pcbs[s.running].sleepTime < 0 && NoStray(s)
            && var u := Next(s, Waited(1, 0.0));
               var t := Run(u, Farewell);
               && Admissible(u, Farewell) && !t.halted && 1 in t.pcbs
               && t.pcbs[1].waitedBy != NONE && t.pcbs[1].waitedBy !in t.pcbs
  {
    hide *;
    FamilyRuns();
    GrandchildWaits();
    FarewellRuns();
    StrangerGuards();
  }

  lemma StrangerGuards()
    ensures var s := Three(ShellPcb, RUNNING, Queues([1], [2], [], []), 3);
            && !s.halted && HasRunning(s) && 1 in s.pcbs && 1 != s.running && !s.pcbs[1].changed
            && s.pcbs[1].waitedBy == NONE && s.pcbs[s.running].sleepTime < 0 && NoStray(s)
  {
    NoSignals(Three(ShellPcb, RUNNING, Queues([1], [2], [], []), 3));
  }

  lemma FamilyRuns()
    ensures Admissible(Boot(), Family) && Run(Boot(), Family) == Three(ShellPcb, RUNNING, Queues([1], [2], [], []), 3)
  {
    var s2 := Pair(Middle, Queues([], [2], [], []), 1);
    var s3 := Pair(Middle, Queues([1], [], [], []), 2);
    var s4 := Three(ShellPcb, RUNNING, Queues([1], [3], [], []), 2);
    FamilyAllowed();
    assert Family[..3] == [Ticked(0.0), Spawned(Other), Ticked(0.9)];
    assert Family == Family[..3] + ([Spawned(Other)] + [Ticked(0.9)]);
    hide *;
    BootTick();
    ShellSpawns(Other);
    ChildRuns();
    MiddleSpawns();
    GrandchildRuns();
    RunThree(Boot(), Family[..3]);
    AdmissibleOne(s4, Ticked(0.9));
    RunCons(s3, Spawned(Other), [Ticked(0.9)]);
    RunAppend(Boot(), Family[..3], [Spawned(Other)] + [Ticked(0.9)]);
  }

  lemma FamilyAllowed()
    ensures Allowed(Boot(), Ticked(0.0)) && Allowed(Alone(), Spawned(Other))
    ensures Allowed(Pair(Middle, Queues([], [2], [], []), 1), Ticked(0.9))
    ensures Allowed(Pair(Middle, Queues([1], [], [], []), 2), Spawned(Other))
    ensures Allowed(Three(ShellPcb, RUNNING, Queues([1], [3], [], []), 2), Ticked(0.9))
  {
    NoSignals(Boot());
    NoSignals(Pair(Middle, Queues([], [2], [], []), 1));
    NoSignals(Three(ShellPcb, RUNNING, Queues([1], [3], [], []), 2));
  }

  lemma FarewellAllowed(u: State, v: State)
    requires u == Three(WaitedShell, BLOCKED, Queues([], [2], [3], []), 1)
    requires v == u.(pcbs := u.pcbs[2 := Child(Other, SIGNALED, true, -1)],
                     qs := Queues([], [], [3], [])[Zombie := [2]])
    ensures Allowed(u, Killed(2, SigTerm, 0.0)) && Allowed(v, Collected(2)) && Allowed(Bereft(), Ticked(0.0))
  {
    NoSignals(Bereft());
  }

  lemma FarewellRuns()
    ensures var u := Three(WaitedShell, BLOCKED, Queues([], [2], [3], []), 1);
            var t := Run(u, Farewell);
            && Admissible(u, Farewell) && !t.halted
            && t.pcbs == map[1 := WaitedShell] && t.pcbs[1].waitedBy == 3 != NONE
  {
    var u := Three(WaitedShell, BLOCKED, Queues([], [2], [3], []), 1);
    var v := u.(pcbs := u.pcbs[2 := Child(Other, SIGNALED, true, -1)], qs := Queues([], [], [3], [])[Zombie := [2]]);
    FarewellAllowed(u, v);
    assert WaitedShell.waitedBy == 3 != NONE && Farewell == [Killed(2, SigTerm, 0.0), Collected(2), Ticked(0.0)];
    hide *;
    MiddleTerminated();
    MiddleCollected();
    WaiterGone();
    RunThree(u, Farewell);
  }
}
