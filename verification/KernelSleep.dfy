/** How long a sleeper sleeps: between its own time and one extra pass for every sleeper queued ahead of it. */
module KernelSleep {
  import opened KernelModel
  import opened KernelInvariant
  import opened KernelSteps
  import opened KernelCalls
  import opened KernelRuns

  predicate Asleep(s: State, p: int) {
    p in s.pcbs && s.pcbs[p].status == BLOCKED && s.pcbs[p].sleepTime >= 0
  }

  /** How many sleepers stand in front of `p`. */
  function Ahead(l: seq<int>, pcbs: map<int, Pcb>, p: int): nat {
    if l == [] || l[0] == p then 0
    else (if l[0] in pcbs && pcbs[l[0]].sleepTime >= 0 then 1 else 0) + Ahead(l[1..], pcbs, p)
  }

  function AheadOf(s: State, p: int): nat {
    Ahead(Q(s, Blocked), s.pcbs, p)
  }

  function Half(t: int): int {
    (t + 1) / 2
  }

  /** The first pass that can retire sleeper `p`, and the last one it may have to wait for. */
  function Soonest(s: State, p: int): int
    requires p in s.pcbs
  {
    Half(s.pcbs[p].sleepTime) + 1
  }

  function Latest(s: State, p: int): int
    requires p in s.pcbs
  {
    Soonest(s, p) + AheadOf(s, p)
  }

  // ---- the queue in front of a sleeper -------------------------------------

  /** No timer starts from table `a` to table `b`. */
  ghost predicate NoNewSleeper(l: seq<int>, a: map<int, Pcb>, b: map<int, Pcb>) {
    forall x :: x in l && x in b && b[x].sleepTime >= 0 ==> x in a && a[x].sleepTime >= 0
  }

  lemma {:induction false} AheadTable(l: seq<int>, a: map<int, Pcb>, b: map<int, Pcb>, p: int)
    requires NoNewSleeper(l, a, b)
    ensures Ahead(l, b, p) <= Ahead(l, a, p)
  {
    if l != [] && l[0] != p {
      assert NoNewSleeper(l[1..], a, b);
      AheadTable(l[1..], a, b, p);
    }
  }

  lemma {:induction false} AheadRemove(l: seq<int>, pcbs: map<int, Pcb>, x: int, p: int)
    requires x != p
    ensures Ahead(Remove(l, x), pcbs, p) <= Ahead(l, pcbs, p)
  {
    if l != [] && l[0] != x {
      AheadRemove(l[1..], pcbs, x, p);
    }
  }

  /** A sleeper taken out from in front counts. */
  lemma {:induction false} AheadLess(l: seq<int>, pcbs: map<int, Pcb>, x: int, p: int, i: nat)
    requires x != p && i < |l| && l[i] == x && x in pcbs && pcbs[x].sleepTime >= 0 && p !in l[..i]
    ensures Ahead(Remove(l, x), pcbs, p) + 1 <= Ahead(l, pcbs, p)
  {
    if l[0] != x {
      assert l[..i][0] == l[0] && l[1..][..i - 1] == l[..i][1..];
      AheadLess(l[1..], pcbs, x, p, i - 1);
    }
  }

  lemma {:induction false} AheadAppend(l: seq<int>, pcbs: map<int, Pcb>, x: int, p: int)
    requires p in l
    ensures Ahead(l + [x], pcbs, p) == Ahead(l, pcbs, p)
  {
    if l[0] != p {
      assert (l + [x])[1..] == l[1..] + [x];
      AheadAppend(l[1..], pcbs, x, p);
    }
  }

  lemma {:induction false} AheadKeep(l: seq<int>, pcbs: map<int, Pcb>, dead: set<int>, p: int)
    requires p !in dead
    ensures Ahead(Keep(l, dead), pcbs, p) <= Ahead(l, pcbs, p)
  {
    if l != [] {
      AheadKeep(l[1..], pcbs, dead, p);
    }
  }

  // ---- what leaves a sleeper alone -----------------------------------------

  /** `p` sleeps on with its timer as it is, and nobody got in front of it. */
  ghost predicate Calm(s: State, t: State, p: int) {
    && p in s.pcbs && p in t.pcbs && t.pcbs[p].status == s.pcbs[p].status && t.pcbs[p].sleepTime == s.pcbs[p].sleepTime
    && AheadOf(t, p) <= AheadOf(s, p)
  }

  /** The table keeps every timer and the status of `p`; the blocked queue loses at most others. */
  lemma CalmWake(s: State, x: int, p: int)
    requires x in s.pcbs && p in s.pcbs && s.pcbs[x].waitedBy != p
    ensures Calm(s, WakeWaiter(s, x), p)
  {
    var w := s.pcbs[x].waitedBy;
    var t := WakeWaiter(s, x);
    if w != NONE && w in s.pcbs {
      assert Q(t, Blocked) == Remove(Q(s, Blocked), w);
      AheadRemove(Q(s, Blocked), s.pcbs, w, p);
    }
    AheadTable(Q(t, Blocked), s.pcbs, t.pcbs, p);
  }

  lemma CalmTrans(s: State, t: State, u: State, p: int)
    requires Calm(s, t, p) && Calm(t, u, p)
    ensures Calm(s, u, p)
  {
  }

  /** Updating another process without starting a timer. */
  lemma CalmSet(s: State, x: int, b: Pcb, p: int)
    requires p in s.pcbs && x in s.pcbs && (b.sleepTime >= 0 ==> s.pcbs[x].sleepTime >= 0)
    requires x == p ==> b.status == s.pcbs[p].status && b.sleepTime == s.pcbs[p].sleepTime
    ensures Calm(s, SetPcb(s, x, b), p)
  {
    AheadTable(Q(s, Blocked), s.pcbs, SetPcb(s, x, b).pcbs, p);
  }

  /** Moving another process between queues, not onto the blocked one. */
  lemma CalmMove(s: State, from: Queue, to: Queue, x: int, p: int)
    requires p in s.pcbs && x != p && to != Blocked
    ensures Calm(s, PutBack(TakeOut(s, from, x), to, x), p)
    ensures Calm(s, PutBack(s, to, x), p)
  {
    AheadRemove(Q(s, Blocked), s.pcbs, x, p);
    assert Q(PutBack(TakeOut(s, from, x), to, x), Blocked) ==
           if from == Blocked then Remove(Q(s, Blocked), x) else Q(s, Blocked);
    assert Q(PutBack(s, to, x), Blocked) == Q(s, Blocked);
  }

  lemma CalmMark(s: State, x: int, status: Status, p: int)
    requires x in s.pcbs && p in s.pcbs && x != p && s.pcbs[x].waitedBy != p
    ensures Calm(s, Mark(s, x, status), p)
  {
    hide Calm, WakeWaiter;
    var b := s.pcbs[x].(status := status, changed := true);
    CalmSet(s, x, b, p);
    CalmWake(SetPcb(s, x, b), x, p);
    CalmTrans(s, SetPcb(s, x, b), Mark(s, x, status), p);
  }

  lemma CalmSelf(s: State, p: int)
    requires p in s.pcbs
    ensures Calm(s, s, p)
  {
  }

  /** Nobody waits on behalf of a sleeper. */
  lemma SleeperUnwaiting(s: State, p: int)
    requires Waits(s.pcbs) && Asleep(s, p)
    ensures forall x :: x in s.pcbs && s.pcbs[x].waitedBy == p ==> p == NONE
  {
  }

  // ---- one walk over the blocked queue -------------------------------------

  lemma CalmRetire(s: State, x: int, p: int)
    requires x in s.pcbs && p in s.pcbs && x != p && s.pcbs[x].waitedBy != p
    ensures Calm(s, Retire(s, x), p)
  {
    hide Calm, WakeWaiter, TakeOut, PutBack;
    var b := s.pcbs[x].(sleepTime := -1, status := ZOMBIED, changed := true);
    var s1 := SetPcb(s, x, b);
    var s2 := PutBack(TakeOut(s1, Blocked, x), Zombie, x);
    CalmSet(s, x, b, p);
    CalmMove(s1, Blocked, Zombie, x, p);
    MovedPcbs(s1, Blocked, Zombie, x);
    CalmWake(s2, x, p);
    CalmTrans(s, s1, s2, p);
    CalmTrans(s, s2, Retire(s, x), p);
  }

  /** Retiring the first sleeper shortens the queue in front of those behind it. */
  lemma RetireLess(s: State, x: int, p: int, i: nat)
    requires x in s.pcbs && p in s.pcbs && x != p && s.pcbs[x].waitedBy != p && s.pcbs[x].sleepTime == 0
    requires i < |Q(s, Blocked)| && Q(s, Blocked)[i] == x && p !in Q(s, Blocked)[..i]
    ensures AheadOf(Retire(s, x), p) + 1 <= AheadOf(s, p)
  {
    hide Calm, WakeWaiter;
    var b := s.pcbs[x].(sleepTime := -1, status := ZOMBIED, changed := true);
    var s2 := PutBack(TakeOut(SetPcb(s, x, b), Blocked, x), Zombie, x);
    AheadLess(Q(s, Blocked), s.pcbs, x, p, i);
    assert Q(s2, Blocked) == Remove(Q(s, Blocked), x);
    AheadTable(Q(s2, Blocked), s.pcbs, s2.pcbs, p);
    CalmWake(s2, x, p);
    CalmIs(s2, Retire(s, x), p);
  }

  lemma CalmIs(s: State, t: State, p: int)
    requires Calm(s, t, p)
    ensures p in t.pcbs && AheadOf(t, p) <= AheadOf(s, p) && (Asleep(s, p) ==> Asleep(t, p))
  {
  }

  /** The walk behind `p` does not touch it. */
  lemma {:induction false} SleepersCalm(s: State, i: nat, p: int)
    requires Table(s) && Placement(s) && Waits(s.pcbs) && NoDouble(s, i) && Asleep(s, p)
    requires forall j :: i <= j < |Q(s, Blocked)| ==> Q(s, Blocked)[j] != p
    ensures Calm(s, Sleepers(s, i), p)
    decreases |Q(s, Blocked)| - i
  {
    hide Table, Placement, Waits, PassKept, Calm, Retire, NoDouble, Sleepers;
    if i >= |Q(s, Blocked)| {
      WalkEnd(s, i);
      CalmSelf(s, p);
    } else {
      WalkOn(s, i);
      PidPositive(s, p);
      SleeperUnwaiting(s, p);
      var x := Q(s, Blocked)[i];
      if s.pcbs[x].sleepTime == 0 {
        CalmRetire(s, x, p);
      } else {
        var t := SetPcb(s, x, RunDown(s.pcbs[x]));
        SleepersCalm(t, i + 1, p);
        CalmSet(s, x, RunDown(s.pcbs[x]), p);
        CalmTrans(s, t, Sleepers(t, i + 1), p);
      }
    }
  }

  /** One walk: the sleeper's time runs down by at most one pass, and it comes one pass closer to its latest one. */
  ghost predicate Closer(s: State, t: State, p: int) {
    && p in s.pcbs && p in t.pcbs
    && ((Asleep(t, p) && Soonest(t, p) + 1 >= Soonest(s, p) && Latest(t, p) + 1 <= Latest(s, p))
        || (t.pcbs[p].status == ZOMBIED && Soonest(s, p) == 1))
  }

  lemma {:induction false} SleepersCloser(s: State, i: nat, p: int, at: nat)
    requires Table(s) && Placement(s) && Waits(s.pcbs) && NoDouble(s, i) && Asleep(s, p)
    requires i <= at < |Q(s, Blocked)| && Q(s, Blocked)[at] == p
    ensures Closer(s, Sleepers(s, i), p)
    decreases |Q(s, Blocked)| - i
  {
    hide Table, Placement, Waits, PassKept, Calm, Retire, Closer, NoDouble, Sleepers;
    WalkOn(s, i);
    var x := Q(s, Blocked)[i];
    PidPositive(s, x);
    SleeperUnwaiting(s, p);
    BeforeFirst(s, at, p);
    if s.pcbs[x].sleepTime == 0 {
      if i == at {
        OwnRetire(s, p);
      } else {
        CalmRetire(s, x, p);
        RetireLess(s, x, p, i);
        RetiredCloser(s, Retire(s, x), p);
      }
    } else {
      var t := SetPcb(s, x, RunDown(s.pcbs[x]));
      if i == at {
        SleepersCalm(t, i + 1, p);
        OwnTimer(s, t, Sleepers(t, i + 1), p, RunDown(s.pcbs[x]).sleepTime);
      } else {
        SleepersCloser(t, i + 1, p, at);
        CalmSet(s, x, RunDown(s.pcbs[x]), p);
        CalmCloser(s, t, Sleepers(t, i + 1), p);
      }
    }
  }

  lemma BeforeFirst(s: State, at: nat, p: int)
    requires Placement(s) && at < |Q(s, Blocked)| && Q(s, Blocked)[at] == p
    ensures forall i :: 0 <= i < at ==> Q(s, Blocked)[i] != p
    ensures forall i :: 0 <= i <= at ==> p !in Q(s, Blocked)[..i]
    ensures forall i :: at < i < |Q(s, Blocked)| ==> Q(s, Blocked)[i] != p
  {
    assert NoDup(Q(s, Blocked));
  }

  lemma OwnTimer(s: State, s1: State, t: State, p: int, time: int)
    requires Asleep(s, p) && s.pcbs[p].sleepTime >= 1
    requires time == if s.pcbs[p].sleepTime > 1 then s.pcbs[p].sleepTime - 2 else 0
    requires s1 == SetPcb(s, p, s.pcbs[p].(sleepTime := time)) && Calm(s1, t, p)
    ensures Closer(s, t, p)
  {
    AheadTable(Q(s, Blocked), s.pcbs, s1.pcbs, p);
  }

  lemma CalmCloser(s: State, s1: State, t: State, p: int)
    requires Calm(s, s1, p) && Closer(s1, t, p)
    ensures Closer(s, t, p)
  {
  }

  lemma CloserCalm(s: State, s1: State, t: State, p: int)
    requires Closer(s, s1, p) && Calm(s1, t, p)
    ensures Closer(s, t, p)
  {
  }

  lemma RetiredCloser(s: State, t: State, p: int)
    requires Asleep(s, p) && Calm(s, t, p) && AheadOf(t, p) + 1 <= AheadOf(s, p)
    ensures Closer(s, t, p)
  {
  }

  lemma OwnRetire(s: State, p: int)
    requires Asleep(s, p) && s.pcbs[p].sleepTime == 0 && s.pcbs[p].waitedBy != p
    ensures Closer(s, Retire(s, p), p)
  {
    hide TakeOut, PutBack;
    MovedPcbs(SetPcb(s, p, s.pcbs[p].(sleepTime := -1, status := ZOMBIED, changed := true)), Blocked, Zombie, p);
    var s1 := SetPcb(s, p, s.pcbs[p].(sleepTime := -1, status := ZOMBIED, changed := true));
    var s2 := PutBack(TakeOut(s1, Blocked, p), Zombie, p);
    WakeStatus(s2, p, p);
  }

  lemma WakeStatus(s: State, x: int, p: int)
    requires x in s.pcbs && p in s.pcbs && s.pcbs[x].waitedBy != p
    ensures p in WakeWaiter(s, x).pcbs && WakeWaiter(s, x).pcbs[p].status == s.pcbs[p].status
  {
  }

  // ---- one step ------------------------------------------------------------

  /** A signal to another process. */
  lemma CalmKill(s: State, x: int, sig: Signal, p: int)
    requires x in s.pcbs && p in s.pcbs && x != p && s.pcbs[x].waitedBy != p
    requires sig == SigCont ==> s.pcbs[x].cmd != SleepUnderscore
    ensures Calm(s, match sig case SigCont => Cont(s, x) case SigStop => Stop(s, x) case SigTerm => Term(s, x), p)
  {
    hide Calm, Mark, TakeOut, PutBack;
    CalmSelf(s, p);
    var b := s.pcbs[x];
    var status := match sig case SigCont => RUNNING case SigStop => STOPPED case SigTerm => SIGNALED;
    var to := match sig case SigCont => ReadyQueue(b.priority) case SigStop => Stopped case SigTerm => Zombie;
    var s1 := Mark(s, x, status);
    CalmMark(s, x, status, p);
    CalmIs(s, s1, p);
    CalmMove(s1, Home(b), to, x, p);
    var s2, s3 := PutBack(TakeOut(s1, Home(b), x), to, x), PutBack(s1, to, x);
    CalmTrans(s, s1, s2, p);
    CalmTrans(s, s1, s3, p);
    var r := if sig == SigTerm && b.waitedBy == NONE then s3.running else NONE;
    CalmFlags(s, s3, s3.(running := r, finished := true), p);
    CalmFlags(s, s3, s3.(running := NONE, finished := true), p);
    MarkFlags(s, x, status);
    PutPcbs(s1, to, x);
  }

  lemma CalmFlags(s: State, t: State, u: State, p: int)
    requires Calm(s, t, p) && u.pcbs == t.pcbs && u.qs == t.qs
    ensures Calm(s, u, p)
  {
  }

  lemma CalmCall(s: State, e: Event, p: int)
    requires Inv(s) && Allowed(s, e) && Asleep(s, p) && p in Call(s, e).pcbs
    requires e.Killed? ==> e.pid != p
    ensures Calm(s, Call(s, e), p)
  {
    hide Placement, Orphan, Expired, NoStray, NoDouble, Wait, Nice, Collect, SleepFor, Calm, Waits, Sorted, Cont,
         Stop, Term, Spawn;
    RunningKnown(s);
    SleeperUnwaiting(s, p);
    SleeperQueued(s, p);
    CalmSelf(s, p);
    match e
    case Killed(x, sig, _) => CalmKill(s, x, sig, p);
    case Spawned(cmd) => CalmSpawn(s, cmd, p);
    case Collected(x) => CalmCollect(s, x, p);
    case Niced(x, priority) => CalmNice(s, x, priority, p);
    case Waited(x, _) => CalmWait(s, x, p);
    case Slept(ticks, _) => CalmSleep(s, ticks, p);
    case Ticked(_) => CalmFlags(s, s, Call(s, e), p);
    case Returned(_) =>
  }

  lemma SleeperQueued(s: State, p: int)
    requires Inv(s) && !s.halted && Asleep(s, p)
    ensures p in Q(s, Blocked) && p != s.running && p != NONE && s.running !in Q(s, Blocked)
  {
    InvPlaces(s, p);
    InvPlaces(s, s.running);
    hide NoDup, Waits, Orphan, Sorted, Placement;
  }

  lemma CalmSpawn(s: State, cmd: Cmd, p: int)
    requires Table(s) && Placement(s) && p in s.pcbs
    ensures Calm(s, Spawn(s, cmd), p)
  {
    var t := Spawn(s, cmd);
    assert Q(t, Blocked) == Q(s, Blocked);
    AheadTable(Q(s, Blocked), s.pcbs, t.pcbs, p);
  }

  lemma CalmCollect(s: State, x: int, p: int)
    requires Waits(s.pcbs) && x in s.pcbs && p in s.pcbs && s.pcbs[x].changed && p in Collect(s, x).pcbs
    ensures Calm(s, Collect(s, x), p)
  {
    ChangedUnwaited(s, x);
    hide Waits;
    var t := Collect(s, x);
    assert Q(t, Blocked) == Q(s, Blocked);
    AheadTable(Q(s, Blocked), s.pcbs, t.pcbs, p);
  }

  lemma CalmNice(s: State, x: int, priority: int, p: int)
    requires x in s.pcbs && Asleep(s, p)
    ensures Calm(s, Nice(s, x, priority), p)
  {
    var t := Nice(s, x, priority);
    assert Q(t, Blocked) == Q(s, Blocked);
    AheadTable(Q(s, Blocked), s.pcbs, t.pcbs, p);
  }

  lemma CalmSleep(s: State, ticks: nat, p: int)
    requires HasRunning(s) && Asleep(s, p) && p in Q(s, Blocked) && p != s.running && s.running !in Q(s, Blocked)
    ensures Calm(s, SleepFor(s, ticks), p)
  {
    SleepPcbs(s, ticks);
    var t := SleepFor(s, ticks);
    AheadAppend(Q(s, Blocked), s.pcbs, s.running, p);
    AheadFront(Q(s, Blocked), s.pcbs, t.pcbs, s.running, p);
    hide SleepFor;
  }

  /** Who is not yet in the queue cannot count there. */
  lemma {:induction false} AheadFront(l: seq<int>, a: map<int, Pcb>, b: map<int, Pcb>, x: int, p: int)
    requires p in l && x !in l && x != p && forall y :: y in l && y in b ==> y in a && b[y].sleepTime == a[y].sleepTime
    ensures Ahead(l + [x], b, p) <= Ahead(l, a, p)
  {
    if l[0] != p {
      assert (l + [x])[1..] == l[1..] + [x];
      AheadFront(l[1..], a, b, x, p);
    }
  }

  lemma CalmWait(s: State, x: int, p: int)
    requires MayWait(s, x) && Asleep(s, p) && p in Q(s, Blocked) && p != s.running && s.running !in Q(s, Blocked)
    ensures Calm(s, Wait(s, x), p)
  {
    WaitPcbs(s, x);
    AheadFront(Q(s, Blocked), s.pcbs, Wait(s, x).pcbs, s.running, p);
    hide Wait;
  }

  lemma CalmReaped(s: State, p: int)
    requires Asleep(s, p) && p != s.running && (s.running in s.pcbs ==> s.pcbs[s.running].waitedBy != p)
    ensures Calm(s, Reaped(s), p)
  {
    hide Calm, WakeWaiter, PutBack;
    CalmSelf(s, p);
    var r := s.running;
    if r != NONE && r in s.pcbs && !s.finished && s.pcbs[r].cmd != Shell {
      var s1 := WakeWaiter(s, r);
      CalmWake(s, r, p);
      CalmIs(s, s1, p);
      var s2 := if r in s1.pcbs then SetPcb(s1, r, s1.pcbs[r].(status := ZOMBIED, changed := true)) else s1;
      if r in s1.pcbs { CalmSet(s1, r, s2.pcbs[r], p); } else { CalmSelf(s1, p); }
      CalmTrans(s, s1, s2, p);
      CalmMove(s2, Zombie, Zombie, r, p);
      CalmTrans(s, s2, PutBack(s2, Zombie, r), p);
      CalmFlags(s, PutBack(s2, Zombie, r), Reaped(s), p);
    }
  }

  /** From what the pass leaves before choosing, to the state after it. */
  lemma CalmSwept(b: State, t: State, dead: set<int>, p: int)
    requires p in b.pcbs && p in t.pcbs && t.pcbs == b.pcbs - dead && Q(t, Blocked) == Keep(Q(b, Blocked), dead)
    ensures Calm(b, t, p)
  {
    AheadKeep(Q(b, Blocked), b.pcbs, dead, p);
    AheadTable(Keep(Q(b, Blocked), dead), b.pcbs, t.pcbs, p);
  }

  /** A process that has ended stays a zombie through the pass. */
  lemma DeadReaped(s: State, p: int)
    requires p in s.pcbs && s.pcbs[p].status == ZOMBIED && (s.running in s.pcbs ==> s.pcbs[s.running].waitedBy != p)
    ensures p in Reaped(s).pcbs && Reaped(s).pcbs[p].status == ZOMBIED
  {
    hide WakeWaiter;
    if s.running in s.pcbs { WakeStatus(s, s.running, p); }
  }

  lemma SleeperPass(s: State, p: int)
    requires Ready(s) && Asleep(s, p) && p != s.running && p in Q(s, Blocked)
    ensures Closer(s, Reaped(Sleepers(s, 0)), p)
  {
    hide Table, Placement, Waits, Orphan, Sleepers, Reaped, NoDouble, Expired, Closer, Calm;
    var at :| 0 <= at < |Q(s, Blocked)| && Q(s, Blocked)[at] == p;
    var a := Sleepers(s, 0);
    SleepersCloser(s, 0, p, at);
    SleepersKeep(s, 0);
    Unwaiting(s, a, p);
    if Asleep(a, p) {
      CalmReaped(a, p);
      CloserCalm(s, a, Reaped(a), p);
    } else {
      CloserDead(s, a, p);
      DeadReaped(a, p);
      DeadCloser(s, a, Reaped(a), p);
    }
  }

  lemma CloserDead(s: State, a: State, p: int)
    requires Closer(s, a, p) && !Asleep(a, p)
    ensures p in a.pcbs && a.pcbs[p].status == ZOMBIED
  {
  }

  lemma DeadCloser(s: State, a: State, b: State, p: int)
    requires Closer(s, a, p) && !Asleep(a, p) && p in b.pcbs && b.pcbs[p].status == ZOMBIED
    ensures Closer(s, b, p)
  {
  }

  /** A sleeper, or a process that has just been retired, waits for nobody. */
  lemma Unwaiting(s: State, a: State, p: int)
    requires PassKept(s, a) && Closer(s, a, p)
    ensures a.running == s.running && forall x :: x in a.pcbs && a.pcbs[x].waitedBy == p ==> p == NONE
    ensures p in a.pcbs && NONE !in a.pcbs
  {
    hide Placement;
  }

  /** One admissible step seen by a sleeper it does not signal. */
  ghost predicate Slumber(s: State, t: State, p: int, n: nat) {
    && p in s.pcbs && p in t.pcbs
    && ((Asleep(t, p) && Soonest(t, p) + n >= Soonest(s, p) && Latest(t, p) + n <= Latest(s, p))
        || (t.pcbs[p].status == ZOMBIED && Soonest(s, p) <= n))
  }

  function Count(s: State, e: Event): nat {
    if Passes(s, e) then 1 else 0
  }

  lemma SleeperStep(s: State, e: Event, p: int)
    requires Inv(s) && Allowed(s, e) && Asleep(s, p) && p in Next(s, e).pcbs
    requires e.Killed? ==> e.pid != p
    ensures Slumber(s, Next(s, e), p, Count(s, e))
  {
    hide Ready, Sleepers, Reaped, Closer, Calm, Orphans, Inv, Allowed, Call, Schedule;
    var c, t := Call(s, e), Next(s, e);
    if Passes(s, e) {
      CallReady(s, e);
      ScheduleKeeps(c, e.rand);
      PassStays(s, e, p);
      CalmCall(s, e, p);
      CalmIs(s, c, p);
      StillQueued(c, p);
      SleeperPass(c, p);
      var b := Reaped(Sleepers(c, 0));
      CloserMember(c, b, p);
      CalmSwept(b, t, Orphans(b.pcbs), p);
      CloserCalm(c, b, t, p);
      CalmCloser(s, c, t, p);
      CloserSlumber(s, t, p);
    } else {
      CalmCall(s, e, p);
      CalmSlumber(s, t, p);
    }
  }

  lemma CloserMember(s: State, t: State, p: int)
    requires Closer(s, t, p)
    ensures p in t.pcbs
  {
  }

  lemma CloserSlumber(s: State, t: State, p: int)
    requires Closer(s, t, p)
    ensures Slumber(s, t, p, 1)
  {
  }

  lemma CalmSlumber(s: State, t: State, p: int)
    requires Calm(s, t, p) && Asleep(s, p)
    ensures Slumber(s, t, p, 0)
  {
  }

  lemma StillQueued(c: State, p: int)
    requires Ready(c) && Asleep(c, p)
    ensures p in Q(c, Blocked) && p != c.running
  {
    hide Waits, Orphan, Sorted, NoDouble;
    assert Homes(c)[p] == In(Blocked);
  }

  /** Who is there after the pass was there before it. */
  lemma PassStays(s: State, e: Event, p: int)
    requires Inv(s) && Allowed(s, e) && Passes(s, e) && p in Next(s, e).pcbs
    ensures p in Call(s, e).pcbs
  {
    hide Table, Placement, Waits, Orphan, Expired, NoStray, NoDouble, Sleepers, Reaped, Call, Schedule, Allowed;
    var c := Call(s, e);
    CallReady(s, e);
    ScheduleKeeps(c, e.rand);
    SleepersKeep(c, 0);
    RunningKnown(c);
    ReapedKeeps(Sleepers(c, 0));
  }

  // ---- after the sleep -----------------------------------------------------

  predicate Dead(s: State, p: int) {
    p in s.pcbs && s.pcbs[p].status == ZOMBIED
  }

  lemma DeadMarked(s: State, x: int, b: Pcb, p: int)
    requires Waits(s.pcbs) && x in s.pcbs && Dead(s, p) && x != p
    ensures var m := Marked(s.pcbs, x, b); p in m && m[p].status == ZOMBIED
  {
  }

  lemma DeadCall(s: State, e: Event, p: int)
    requires Inv(s) && Allowed(s, e) && Dead(s, p) && p in Call(s, e).pcbs
    requires e.Killed? ==> e.pid != p
    ensures Dead(Call(s, e), p)
  {
    hide Placement, Orphan, Expired, NoStray, NoDouble, Wait, Nice, Collect, SleepFor, Waits, Sorted, Cont, Stop,
         Term, Marked;
    RunningKnown(s);
    InvRunning(s);
    match e
    case Killed(x, sig, _) =>
      var b := s.pcbs[x];
      DeadMarked(s, x, b.(status := match sig case SigCont => RUNNING case SigStop => STOPPED case SigTerm => SIGNALED,
                          changed := true, waitedBy := NONE), p);
      if sig == SigStop { StopKeeps(s, x); } else if sig == SigTerm { TermKeeps(s, x); } else { ContKeeps(s, x); }
    case Spawned(_) =>
    case Collected(x) => ChangedUnwaited(s, x); CollectPcbs(s, x);
    case Niced(x, priority) => NicePlaced(s, x, priority);
    case Waited(x, _) => WaitPcbs(s, x);
    case Slept(ticks, _) => SleepPcbs(s, ticks);
    case Ticked(_) =>
    case Returned(_) =>
  }

  lemma {:induction false} DeadSleepers(s: State, i: nat, p: int)
    requires Table(s) && Placement(s) && Waits(s.pcbs) && NoDouble(s, i) && Dead(s, p)
    ensures Dead(Sleepers(s, i), p)
    decreases |Q(s, Blocked)| - i
  {
    hide Table, Placement, Waits, PassKept, Retire, Marked, NoDouble, Sleepers;
    if i >= |Q(s, Blocked)| {
      WalkEnd(s, i);
    } else {
      WalkOn(s, i);
      var x := Q(s, Blocked)[i];
      if s.pcbs[x].sleepTime == 0 {
        RetireKeeps(s, x);
        DeadMarked(s, x, s.pcbs[x].(sleepTime := -1, status := ZOMBIED, changed := true, waitedBy := NONE), p);
      } else {
        DeadSleepers(SetPcb(s, x, RunDown(s.pcbs[x])), i + 1, p);
      }
    }
  }

  lemma DeadUnwaiting(s: State, p: int)
    requires Waits(s.pcbs) && Dead(s, p) && Table(s)
    ensures forall x :: x in s.pcbs ==> s.pcbs[x].waitedBy != p
  {
  }

  /** A process that has ended stays a zombie until somebody collects it. */
  lemma DeadStep(s: State, e: Event, p: int)
    requires Inv(s) && Allowed(s, e) && Dead(s, p) && p in Next(s, e).pcbs
    requires e.Killed? ==> e.pid != p
    ensures Dead(Next(s, e), p)
  {
    hide Table, Placement, Waits, Orphan, NoStray, NoDouble, Expired, Sleepers, Reaped, Inv, Allowed, Call, Schedule,
         Orphans;
    if Passes(s, e) {
      var c := Call(s, e);
      CallReady(s, e);
      ScheduleKeeps(c, e.rand);
      PassStays(s, e, p);
      DeadCall(s, e, p);
      DeadSleepers(c, 0, p);
      SleepersKeep(c, 0);
      DeadUnwaiting(Sleepers(c, 0), p);
      DeadReaped(Sleepers(c, 0), p);
    } else {
      DeadCall(s, e, p);
    }
  }

  // ---- runs ----------------------------------------------------------------

  function PassCount(s: State, es: seq<Event>): nat
    decreases |es|
  {
    if es == [] then 0 else Count(s, es[0]) + PassCount(Next(s, es[0]), es[1..])
  }

  /** No new process takes the number of an old one, and numbers only grow. */
  lemma OldStays(s: State, e: Event, p: int)
    requires Inv(s) && Allowed(s, e) && p < s.maxPid
    ensures p in Next(s, e).pcbs ==> p in s.pcbs
    ensures Next(s, e).maxPid >= s.maxPid
  {
    hide Inv, Allowed, Schedule;
    if Passes(s, e) {
      PassMax(s, e);
      if p in Next(s, e).pcbs { PassStays(s, e, p); CallOld(s, e, p); }
    } else {
      CallOld(s, e, p);
    }
  }

  lemma CallOld(s: State, e: Event, p: int)
    requires p < s.maxPid && Inv(s) && Allowed(s, e)
    ensures p in Call(s, e).pcbs ==> p in s.pcbs
    ensures Call(s, e).maxPid >= s.maxPid
  {
    hide Table, Placement, Orphan, Expired, NoStray, NoDouble, Cont, Stop, Term, Waits;
    RunningKnown(s);
    if e.Killed? {
      KillMax(s, e.pid);
      match e.signal
      case SigStop => StopKeeps(s, e.pid);
      case SigTerm => TermKeeps(s, e.pid);
      case SigCont => ContKeeps(s, e.pid);
    }
  }

  lemma KillMax(s: State, p: int)
    requires p in s.pcbs
    ensures Stop(s, p).maxPid == s.maxPid && Term(s, p).maxPid == s.maxPid && Cont(s, p).maxPid == s.maxPid
  {
    MarkFlags(s, p, RUNNING);
    MarkFlags(s, p, STOPPED);
    MarkFlags(s, p, SIGNALED);
    hide Mark;
  }

  lemma PassMax(s: State, e: Event)
    requires Inv(s) && Allowed(s, e) && Passes(s, e)
    ensures Next(s, e).maxPid == Call(s, e).maxPid >= s.maxPid
  {
    hide Table, Placement, Orphan, NoStray, Waits, NoDouble, Expired, Sleepers, Call, Allowed;
    var c := Call(s, e);
    CallReady(s, e);
    SleepersKeep(c, 0);
    CallOld(s, e, s.maxPid - 1);
    ScheduleMax(c, e.rand);
  }

  lemma ScheduleMax(s: State, rand: real)
    requires Sleepers(s, 0).maxPid == s.maxPid
    ensures Schedule(s, rand).maxPid == s.maxPid
  {
    hide Sleepers, Sweep, Pick, HasShell;
    var a := Sleepers(s, 0);
    var b := Reaped(a).(finished := false);
    ReapedMax(a);
    SweepMax(b, b.all);
  }

  lemma ReapedMax(s: State)
    ensures Reaped(s).maxPid == s.maxPid
  {
  }

  lemma {:induction false} SweepMax(s: State, rest: seq<int>)
    ensures Sweep(s, rest).maxPid == s.maxPid
    decreases |rest|
  {
    if rest != [] {
      SweepMax(s, rest[1..]);
      SweepMax(Discard(s, rest[0]), rest[1..]);
    }
  }

  /** Is every signal in `es` for somebody other than `p`? */
  predicate Unsignalled(es: seq<Event>, p: int) {
    forall i :: 0 <= i < |es| && es[i].Killed? ==> es[i].pid != p
  }

  lemma {:induction false} Stayed(s: State, es: seq<Event>, p: int)
    requires Inv(s) && Admissible(s, es) && p < s.maxPid && p in Run(s, es).pcbs
    ensures p in s.pcbs
    decreases |es|
  {
    hide Inv, Allowed, Next;
    if es != [] {
      NextKeeps(s, es[0]);
      OldStays(s, es[0], p);
      Stayed(Next(s, es[0]), es[1..], p);
    }
  }

  lemma {:induction false} DeadRun(s: State, es: seq<Event>, p: int)
    requires Inv(s) && Admissible(s, es) && Dead(s, p) && p < s.maxPid
    requires Unsignalled(es, p) && p in Run(s, es).pcbs
    ensures Dead(Run(s, es), p)
    decreases |es|
  {
    hide Inv, Allowed, Next;
    if es != [] {
      NextKeeps(s, es[0]);
      OldStays(s, es[0], p);
      Stayed(Next(s, es[0]), es[1..], p);
      DeadStep(s, es[0], p);
      assert forall i :: 0 <= i < |es[1..]| ==> es[1..][i] == es[i + 1];
      DeadRun(Next(s, es[0]), es[1..], p);
    }
  }

  /** Over every run that does not signal it, a sleeper is a zombie no earlier than its own number of
      passes and no later than one more for each sleeper that was in front of it. */
  lemma {:induction false} SleepBound(s: State, es: seq<Event>, p: int)
    requires Inv(s) && Admissible(s, es) && Asleep(s, p) && p < s.maxPid
    requires Unsignalled(es, p) && p in Run(s, es).pcbs
    ensures Asleep(Run(s, es), p) || Dead(Run(s, es), p)
    ensures PassCount(s, es) < Soonest(s, p) ==> Asleep(Run(s, es), p)
    ensures PassCount(s, es) >= Latest(s, p) ==> Dead(Run(s, es), p)
    decreases |es|
  {
    hide Inv, Allowed, Next;
    if es != [] {
      var t := Next(s, es[0]);
      NextKeeps(s, es[0]);
      OldStays(s, es[0], p);
      Stayed(t, es[1..], p);
      SleeperStep(s, es[0], p);
      assert forall i :: 0 <= i < |es[1..]| ==> es[1..][i] == es[i + 1];
      if Asleep(t, p) {
        SleepBound(t, es[1..], p);
      } else {
        DeadRun(t, es[1..], p);
      }
    }
  }
}
