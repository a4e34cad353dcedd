/** First come, first served: how long a ready process waits for its turn. */
module KernelTurns {
  import opened KernelModel
  import opened KernelInvariant
  import opened KernelSteps
  import opened KernelRuns
  import opened KernelLaws

  // ---- positions -----------------------------------------------------------

  /** How many stand in front of `p`. */
  function Position(l: seq<int>, p: int): (n: nat)
    requires p in l
    ensures n < |l| && l[n] == p && p !in l[..n]
  {
    if l[0] == p then 0 else 1 + Position(l[1..], p)
  }

  lemma PositionIs(l: seq<int>, p: int, n: nat)
    requires n < |l| && l[n] == p && p !in l[..n]
    ensures Position(l, p) == n
  {
  }

  lemma PositionAppend(l: seq<int>, m: seq<int>, p: int)
    requires p in l
    ensures p in l + m && Position(l + m, p) == Position(l, p)
  {
    var n := Position(l, p);
    assert (l + m)[n] == p && (l + m)[..n] == l[..n];
    PositionIs(l + m, p, n);
  }

  lemma PositionFront(l: seq<int>, x: int, p: int)
    requires p in l && x != p
    ensures p in [x] + l && Position([x] + l, p) == Position(l, p) + 1
  {
    assert ([x] + l)[1..] == l;
  }

  /** Taking somebody else out makes nobody wait longer. */
  lemma {:induction false} PositionRemove(l: seq<int>, x: int, p: int)
    requires p in l && x != p
    ensures p in Remove(l, x) && Position(Remove(l, x), p) <= Position(l, p)
  {
    if l[0] != x && l[0] != p {
      PositionRemove(l[1..], x, p);
      PositionFront(Remove(l[1..], x), l[0], p);
    }
  }

  lemma {:induction false} PositionKeep(l: seq<int>, dead: set<int>, p: int)
    requires p in l && p !in dead
    ensures p in Keep(l, dead) && Position(Keep(l, dead), p) <= Position(l, p)
  {
    if l[0] != p {
      PositionKeep(l[1..], dead, p);
      if l[0] !in dead { PositionFront(Keep(l[1..], dead), l[0], p); }
    }
  }

  // ---- what keeps the turn -------------------------------------------------

  /** `p` is still on the queue, and nobody got in front of it. */
  ghost predicate KeepsTurn(s: State, t: State, q: Queue, p: int) {
    p in Q(s, q) ==> p in Q(t, q) && Position(Q(t, q), p) <= Position(Q(s, q), p)
  }

  lemma TurnSame(s: State, t: State, q: Queue, p: int)
    requires Q(t, q) == Q(s, q)
    ensures KeepsTurn(s, t, q, p)
  {
  }

  lemma TurnTrans(s: State, t: State, u: State, q: Queue, p: int)
    requires KeepsTurn(s, t, q, p) && KeepsTurn(t, u, q, p)
    ensures KeepsTurn(s, u, q, p)
  {
  }

  lemma TurnTakeOut(s: State, r: Queue, x: int, q: Queue, p: int)
    requires r != q || x != p
    ensures KeepsTurn(s, TakeOut(s, r, x), q, p)
  {
    if p in Q(s, q) && r == q { PositionRemove(Q(s, q), x, p); }
  }

  lemma TurnPutBack(s: State, r: Queue, x: int, q: Queue, p: int)
    ensures KeepsTurn(s, PutBack(s, r, x), q, p)
  {
    if p in Q(s, q) && r == q { PositionAppend(Q(s, q), [x], p); }
  }

  lemma TurnMove(s: State, from: Queue, to: Queue, x: int, q: Queue, p: int)
    requires from != q || x != p
    ensures KeepsTurn(s, PutBack(TakeOut(s, from, x), to, x), q, p)
  {
    hide KeepsTurn, TakeOut, PutBack;
    TurnTakeOut(s, from, x, q, p);
    TurnPutBack(TakeOut(s, from, x), to, x, q, p);
    TurnTrans(s, TakeOut(s, from, x), PutBack(TakeOut(s, from, x), to, x), q, p);
  }

  lemma TurnWake(s: State, x: int, q: Queue, p: int)
    requires q in {Neg, Zero, Pos}
    ensures KeepsTurn(s, WakeWaiter(s, x), q, p)
  {
    hide KeepsTurn, TakeOut, PutBack;
    if x !in s.pcbs || s.pcbs[x].waitedBy == NONE || s.pcbs[x].waitedBy !in s.pcbs {
      TurnSame(s, WakeWaiter(s, x), q, p);
    } else {
      var w := s.pcbs[x].waitedBy;
      var s1 := SetPcb(s, w, s.pcbs[w].(status := RUNNING));
      var to := ReadyQueue(s.pcbs[w].priority);
      var s2 := PutBack(TakeOut(s1, Blocked, w), to, w);
      TurnSame(s, s1, q, p);
      TurnMove(s1, Blocked, to, w, q, p);
      TurnTrans(s, s1, s2, q, p);
      TurnSame(s2, WakeWaiter(s, x), q, p);
      TurnTrans(s, s2, WakeWaiter(s, x), q, p);
    }
  }

  lemma TurnRetire(s: State, x: int, q: Queue, p: int)
    requires x in s.pcbs && q in {Neg, Zero, Pos}
    ensures KeepsTurn(s, Retire(s, x), q, p)
  {
    hide KeepsTurn, TakeOut, PutBack, WakeWaiter;
    var s1 := SetPcb(s, x, s.pcbs[x].(sleepTime := -1, status := ZOMBIED, changed := true));
    var s2 := PutBack(TakeOut(s1, Blocked, x), Zombie, x);
    TurnSame(s, s1, q, p);
    TurnMove(s1, Blocked, Zombie, x, q, p);
    TurnTrans(s, s1, s2, q, p);
    TurnWake(s2, x, q, p);
    TurnTrans(s, s2, Retire(s, x), q, p);
  }

  lemma {:induction false} TurnSleepers(s: State, i: nat, q: Queue, p: int)
    requires q in {Neg, Zero, Pos}
    ensures KeepsTurn(s, Sleepers(s, i), q, p)
    decreases |Q(s, Blocked)| - i
  {
    hide KeepsTurn, Retire;
    if i < |Q(s, Blocked)| && Q(s, Blocked)[i] in s.pcbs {
      var x := Q(s, Blocked)[i];
      var b := s.pcbs[x];
      if b.sleepTime > 0 {
        var s1 := SetPcb(s, x, b.(sleepTime := if b.sleepTime > 1 then b.sleepTime - 2 else 0));
        TurnSame(s, s1, q, p);
        TurnSleepers(s1, i + 1, q, p);
        TurnTrans(s, s1, Sleepers(s, i), q, p);
      } else if b.sleepTime == 0 {
        TurnRetire(s, x, q, p);
      } else {
        TurnSleepers(s, i + 1, q, p);
      }
    } else {
      TurnSame(s, Sleepers(s, i), q, p);
    }
  }

  lemma TurnReaped(s: State, q: Queue, p: int)
    requires q in {Neg, Zero, Pos}
    ensures KeepsTurn(s, Reaped(s), q, p)
  {
    hide KeepsTurn, PutBack, WakeWaiter;
    if s.running != NONE && s.running in s.pcbs && !s.finished && s.pcbs[s.running].cmd != Shell {
      var r := s.running;
      var s1 := WakeWaiter(s, r);
      var s2 := if r in s1.pcbs then SetPcb(s1, r, s1.pcbs[r].(status := ZOMBIED, changed := true)) else s1;
      TurnWake(s, r, q, p);
      TurnSame(s1, s2, q, p);
      TurnTrans(s, s1, s2, q, p);
      TurnPutBack(s2, Zombie, r, q, p);
      TurnTrans(s, s2, PutBack(s2, Zombie, r), q, p);
      TurnSame(PutBack(s2, Zombie, r), Reaped(s), q, p);
      TurnTrans(s, PutBack(s2, Zombie, r), Reaped(s), q, p);
    } else {
      TurnSame(s, Reaped(s), q, p);
    }
  }

  lemma TurnAddBack(s: State, q: Queue, p: int)
    ensures KeepsTurn(s, AddBack(s), q, p)
  {
    hide KeepsTurn, PutBack;
    if s.running != NONE && s.running in s.pcbs && s.pcbs[s.running].status == RUNNING {
      TurnPutBack(s, ReadyQueue(s.pcbs[s.running].priority), s.running, q, p);
    } else {
      TurnSame(s, AddBack(s), q, p);
    }
  }

  lemma TurnSweep(s: State, q: Queue, p: int)
    requires Table(s) && Placement(s) && p !in Orphans(s.pcbs)
    ensures KeepsTurn(s, Without(s, Orphans(s.pcbs)), q, p)
  {
    hide Table, Placement, Orphan, Without;
    KeptQueue(s, Orphans(s.pcbs), q);
    if p in Q(s, q) { PositionKeep(Q(s, q), Orphans(s.pcbs), p); }
  }

  // ---- one step ------------------------------------------------------------

  /** A pass up to the pick. */
  lemma TurnPass(s: State, q: Queue, p: int)
    requires Ready(s) && q in {Neg, Zero, Pos} && p in Queued(s).pcbs
    ensures KeepsTurn(s, Queued(s), q, p)
  {
    hide KeepsTurn, Ready, Table, Placement, Waits, Orphan, Sleepers, Reaped, Sweep, AddBack, Without;
    PassSweeps(s);
    var a := Sleepers(s, 0);
    var b := Reaped(a);
    var c := b.(finished := false);
    var d := Without(c, Orphans(c.pcbs));
    TurnSleepers(s, 0, q, p);
    TurnReaped(a, q, p);
    TurnTrans(s, a, b, q, p);
    TurnSame(b, c, q, p);
    TurnTrans(s, b, c, q, p);
    AddBackPcbs(d);
    assert p !in Orphans(c.pcbs) by { WithoutPcbs(c, Orphans(c.pcbs)); }
    TurnSweep(c, q, p);
    TurnTrans(s, c, d, q, p);
    TurnAddBack(d, q, p);
    TurnTrans(s, d, AddBack(d), q, p);
  }

  lemma WithoutPcbs(s: State, dead: set<int>)
    ensures Without(s, dead).pcbs == s.pcbs - dead
  {
  }

  /** The priority of the process that runs after a pass is that of `q`. */
  predicate Picked(t: State, q: Queue) {
    t.running in t.pcbs && ReadyQueue(t.pcbs[t.running].priority) == q
  }

  /** A pick brings everybody on its queue forward by one place. */
  lemma TurnPick(u: State, rand: real, q: Queue, p: int)
    requires Table(u.(running := NONE)) && Placement(u.(running := NONE)) && q in {Neg, Zero, Pos} && p in Q(u, q)
    ensures var t := Dispatch(u, rand);
      t.running == p ||
      (p in Q(t, q) && Position(Q(t, q), p) + (if Picked(t, q) then 1 else 0) <= Position(Q(u, q), p))
  {
    hide Placement, Sorted, Pick, Home;
    var t, r := Dispatch(u, rand), Pick(u, rand);
    DispatchIs(u, rand);
    PickIs(u, rand);
    if t.running != NONE && t.running != p {
      var l := Q(u, r);
      HeadReady(u.(running := NONE), r);
      RunningHome(u.pcbs[t.running]);
      assert l == [l[0]] + l[1..];
      if r == q { PositionFront(l[1..], l[0], p); }
    }
  }

  /** A step that does not concern `p`. */
  predicate Leaves(e: Event, p: int) {
    !(e.Niced? && e.pid == p) && !(e.Killed? && e.pid == p && e.signal != SigCont)
  }


  lemma TurnMark(s: State, x: int, status: Status, q: Queue, p: int)
    requires x in s.pcbs && q in {Neg, Zero, Pos}
    ensures KeepsTurn(s, Mark(s, x, status), q, p)
  {
    hide KeepsTurn, WakeWaiter;
    var s1 := SetPcb(s, x, s.pcbs[x].(status := status, changed := true));
    TurnSame(s, s1, q, p);
    TurnWake(s1, x, q, p);
    TurnTrans(s, s1, Mark(s, x, status), q, p);
  }

  lemma TurnRequeue(s: State, x: int, status: Status, from: Queue, to: Queue, q: Queue, p: int)
    requires x in s.pcbs && q in {Neg, Zero, Pos} && x != p
    ensures KeepsTurn(s, PutBack(TakeOut(Mark(s, x, status), from, x), to, x), q, p)
  {
    hide KeepsTurn, Mark, TakeOut, PutBack;
    TurnMark(s, x, status, q, p);
    TurnMove(Mark(s, x, status), from, to, x, q, p);
    TurnTrans(s, Mark(s, x, status), PutBack(TakeOut(Mark(s, x, status), from, x), to, x), q, p);
  }

  lemma TurnLay(s: State, x: int, status: Status, to: Queue, q: Queue, p: int)
    requires x in s.pcbs && q in {Neg, Zero, Pos}
    ensures KeepsTurn(s, PutBack(Mark(s, x, status), to, x), q, p)
  {
    hide KeepsTurn, Mark, TakeOut, PutBack;
    TurnMark(s, x, status, q, p);
    TurnPutBack(Mark(s, x, status), to, x, q, p);
    TurnTrans(s, Mark(s, x, status), PutBack(Mark(s, x, status), to, x), q, p);
  }

  /** Nobody is on a ready queue without being RUNNING, nor while it runs. */
  lemma OnReady(s: State, q: Queue, p: int)
    requires Inv(s) && !s.halted && q in {Neg, Zero, Pos} && p in Q(s, q)
    ensures p in s.pcbs && s.pcbs[p].status == RUNNING && p != s.running && ReadyQueue(s.pcbs[p].priority) == q
  {
    hide Waits, Orphan, Sorted, NoDup, Inv;
    InvPlaces(s, p);
    InvRunning(s);
  }

  lemma TurnKilled(s: State, x: int, sig: Signal, q: Queue, p: int)
    requires x in s.pcbs && q in {Neg, Zero, Pos} && (x == p ==> sig == SigCont && s.pcbs[p].status == RUNNING)
    ensures var t := match sig case SigCont => Cont(s, x) case SigStop => Stop(s, x) case SigTerm => Term(s, x);
            KeepsTurn(s, t, q, p)
  {
    hide KeepsTurn, Mark, TakeOut, PutBack;
    var b := s.pcbs[x];
    TurnSame(s, s, q, p);
    match sig
    case SigCont =>
      if x != p {
        TurnRequeue(s, x, RUNNING, Home(b), Blocked, q, p);
        TurnRequeue(s, x, RUNNING, Home(b), ReadyQueue(b.priority), q, p);
      }
    case SigStop =>
      TurnRequeue(s, x, STOPPED, Home(b), Stopped, q, p);
      TurnLay(s, x, STOPPED, Stopped, q, p);
      TurnFlags(s, PutBack(Mark(s, x, STOPPED), Stopped, x), Stop(s, x), q, p);
    case SigTerm =>
      TurnRequeue(s, x, SIGNALED, Home(b), Zombie, q, p);
      TurnLay(s, x, SIGNALED, Zombie, q, p);
      TurnFlags(s, PutBack(Mark(s, x, SIGNALED), Zombie, x), Term(s, x), q, p);
  }

  lemma TurnFlags(s: State, t: State, u: State, q: Queue, p: int)
    requires KeepsTurn(s, t, q, p)
    ensures u.qs == t.qs ==> KeepsTurn(s, u, q, p)
  {
  }

  /** The queues after a call that is no signal. */
  lemma CallMoves(s: State, e: Event)
    requires !e.Killed?
    requires (e.Slept? || e.Waited? ==> HasRunning(s)) && (e.Waited? ==> e.child in s.pcbs)
    requires (e.Collected? ==> e.child in s.pcbs) && (e.Niced? ==> e.pid in s.pcbs)
    ensures e.Slept? || e.Waited? ==> Call(s, e).qs == PutBack(s, Blocked, s.running).qs
    ensures e.Collected? ==> Call(s, e).qs == s.qs || Call(s, e).qs == TakeOut(s, Zombie, e.child).qs
    ensures e.Niced? ==>
              (Call(s, e).qs == s.qs ||
               Call(s, e).qs == PutBack(TakeOut(s, Home(s.pcbs[e.pid]), e.pid), ReadyQueue(e.priority), e.pid).qs)
    ensures e.Ticked? || e.Returned? ==> Call(s, e).qs == s.qs
  {
    hide Remove;
  }

  lemma TurnCall(s: State, e: Event, q: Queue, p: int)
    requires Inv(s) && Allowed(s, e) && q in {Neg, Zero, Pos} && p in Q(s, q) && Leaves(e, p) && !e.Spawned?
    ensures KeepsTurn(s, Call(s, e), q, p)
  {
    OnReady(s, q, p);
    if e.Killed? {
      hide Inv, NoStray, Stop, Term, Cont, Waiter, KeepsTurn;
      TurnKilled(s, e.pid, e.signal, q, p);
    } else {
      hide Inv, NoStray, Expired, KeepsTurn, Call, TakeOut, PutBack, Home;
      CallMoves(s, e);
      TurnSame(s, s, q, p);
      TurnFlags(s, s, Call(s, e), q, p);
      match e
      case Collected(x) =>
        TurnTakeOut(s, Zombie, x, q, p);
        TurnFlags(s, TakeOut(s, Zombie, x), Call(s, e), q, p);
      case Niced(x, priority) =>
        var from, to := Home(s.pcbs[x]), ReadyQueue(priority);
        TurnMove(s, from, to, x, q, p);
        TurnFlags(s, PutBack(TakeOut(s, from, x), to, x), Call(s, e), q, p);
      case _ =>
        TurnPutBack(s, Blocked, s.running, q, p);
        TurnFlags(s, PutBack(s, Blocked, s.running), Call(s, e), q, p);
    }
  }

  /** One step brings a ready process that is not itself signalled or reniced to the processor, or no further
      from it; a pick of its priority brings it one place forward, a child spawned in front of it one back. */
  lemma TurnStep(s: State, e: Event, q: Queue, p: int)
    requires Inv(s) && Allowed(s, e) && !Next(s, e).halted && q in {Neg, Zero, Pos}
    requires p in Q(s, q) && Leaves(e, p) && p in Next(s, e).pcbs
    ensures var t := Next(s, e);
      t.running == p ||
      (p in Q(t, q) &&
       Position(Q(t, q), p) + Pick1(s, e, q) <= Position(Q(s, q), p) + Spawn1(e, q))
  {
    OnReady(s, q, p);
    hide Inv, Allowed, Schedule, Call, Picked, Ready, KeepsTurn;
    var c := Call(s, e);
    if e.Spawned? {
      SpawnTurn(s, e.cmd, q, p);
    } else {
      TurnCall(s, e, q, p);
      if Passes(s, e) {
        CallReady(s, e);
        TurnSchedule(c, e.rand, q, p);
      }
      TurnIs(s, c, q, p);
    }
  }

  lemma TurnIs(s: State, t: State, q: Queue, p: int)
    requires KeepsTurn(s, t, q, p) && p in Q(s, q)
    ensures p in Q(t, q) && Position(Q(t, q), p) <= Position(Q(s, q), p)
  {
  }

  /** A pass, for somebody on a ready queue who is there afterwards. */
  lemma TurnSchedule(c: State, rand: real, q: Queue, p: int)
    requires Ready(c) && !Schedule(c, rand).halted && q in {Neg, Zero, Pos}
    requires p in Schedule(c, rand).pcbs && p in Q(c, q)
    ensures var t := Schedule(c, rand);
      t.running == p ||
      (p in Q(t, q) && Position(Q(t, q), p) + (if Picked(t, q) then 1 else 0) <= Position(Q(c, q), p))
  {
    hide Ready, Schedule, Table, Placement, Dispatch, Queued, Picked, KeepsTurn;
    PassPicks(c, rand);
    TurnPass(c, q, p);
    TurnIs(c, Queued(c), q, p);
    TurnPick(Queued(c), rand, q, p);
  }

  lemma SpawnTurn(s: State, cmd: Cmd, q: Queue, p: int)
    requires p in Q(s, q) && p != s.maxPid
    ensures p in Q(Spawn(s, cmd), q)
    ensures Position(Q(Spawn(s, cmd), q), p) == Position(Q(s, q), p) + if q == Zero then 1 else 0
  {
    PositionFront(Q(s, q), s.maxPid, p);
  }

  /** One if a pass picks from this queue. */
  function Pick1(s: State, e: Event, q: Queue): nat {
    if Passes(s, e) && Picked(Next(s, e), q) then 1 else 0
  }

  /** One if a child is put in front. */
  function Spawn1(e: Event, q: Queue): nat {
    if e.Spawned? && q == Zero then 1 else 0
  }

  // ---- runs ----------------------------------------------------------------

  /** Over the whole run `p` is there, is left alone, and does not get the processor. */
  ghost predicate Waiting(s: State, es: seq<Event>, p: int)
    decreases |es|
  {
    && !s.halted && p in s.pcbs && p != s.running
    && (es == [] || (Leaves(es[0], p) && Waiting(Next(s, es[0]), es[1..], p)))
  }

  /** The passes that pick from this queue. */
  function Picks(s: State, es: seq<Event>, q: Queue): nat
    decreases |es|
  {
    if es == [] then 0 else Pick1(s, es[0], q) + Picks(Next(s, es[0]), es[1..], q)
  }

  function Spawns(es: seq<Event>, q: Queue): nat {
    if es == [] then 0 else Spawn1(es[0], q) + Spawns(es[1..], q)
  }

  /** While a ready process waits, its priority is picked at most as often as there were processes in front
      of it, and children spawned there since: with the next pick it runs. */
  lemma {:induction false} TurnComes(s: State, es: seq<Event>, q: Queue, p: int)
    requires Inv(s) && Admissible(s, es) && q in {Neg, Zero, Pos} && p in Q(s, q) && Waiting(s, es, p)
    ensures p in Q(Run(s, es), q)
    ensures Picks(s, es, q) + Position(Q(Run(s, es), q), p) <= Position(Q(s, q), p) + Spawns(es, q)
    decreases |es|
  {
    hide Inv, Allowed, Next, Leaves, Pick1, Spawn1;
    if es != [] {
      NextKeeps(s, es[0]);
      TurnStep(s, es[0], q, p);
      TurnComes(Next(s, es[0]), es[1..], q, p);
    }
  }

  /** A process that a pass takes from the processor stands at the end of its queue. */
  lemma RunnerLast(s: State, rand: real)
    requires Ready(s) && !Schedule(s, rand).halted && s.running != NONE
    ensures var t, p := Schedule(s, rand), s.running;
      p in t.pcbs && t.pcbs[p].status == RUNNING && p != t.running ==>
        var l := Q(t, ReadyQueue(t.pcbs[p].priority)); l != [] && l[|l| - 1] == p
  {
    hide Ready, Table, Placement, Waits, Orphan, Sleepers, Reaped, Sweep, HasShell, Pick, Dispatch, Schedule, Expired,
         NoDouble;
    PassPicks(s, rand);
    PassSweeps(s);
    RunnerStays(s);
    var u, t, p := Queued(s), Schedule(s, rand), s.running;
    if p in t.pcbs && t.pcbs[p].status == RUNNING && p != t.running {
      DispatchLast(u, rand, ReadyQueue(t.pcbs[p].priority), p);
    }
  }

  lemma RunnerStays(s: State)
    requires Ready(s) && s.running != NONE
    ensures var c := Reaped(Sleepers(s, 0)).(finished := false);
            s.running in c.pcbs && c.pcbs[s.running].status == RUNNING ==> c.running == s.running
  {
    hide Table, Placement, Waits, Orphan, Expired, NoDouble, Sleepers, WakeWaiter, PutBack, Marked;
    SleepersKeep(s, 0);
    RunningKnown(s);
    ReapedKeeps(Sleepers(s, 0));
    MarkedAt(Sleepers(s, 0).pcbs, s.running);
  }

  lemma MarkedAt(pcbs: map<int, Pcb>, p: int)
    requires p in pcbs
    ensures forall b :: Marked(pcbs, p, b)[p] == b
  {
  }

  lemma DispatchLast(u: State, rand: real, q: Queue, p: int)
    requires q in {Neg, Zero, Pos} && Q(u, q) != [] && Q(u, q)[|Q(u, q)| - 1] == p && p != Dispatch(u, rand).running
    ensures var l := Q(Dispatch(u, rand), q); l != [] && l[|l| - 1] == p
  {
    PickIs(u, rand);
    hide Pick;
    var l := Q(u, Pick(u, rand));
    if l != [] { assert Remove(l, l[0]) == l[1..]; }
  }
}
