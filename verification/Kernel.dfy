/** The kernel with its process objects and queues, each entry point proved against the model. */
module Kernel {
  import opened Wrappers
  import opened KernelModel
  import opened KernelInvariant
  import opened KernelSteps
  import opened KernelRuns
  import opened KernelGuards

  class Process {
    var ppid: int
    var priority: int
    var status: Status
    var changed: bool
    var sleepTime: int
    var waitedBy: int
    var cmd: Cmd
    var isShell: bool

    /** k_process_create. */
    constructor (ppid: int, cmd: Cmd)
      ensures Value() == Pcb(ppid, 0, RUNNING, false, -1, NONE, cmd, false)
    {
      this.ppid := ppid;
      priority := 0;
      status := RUNNING;
      changed := false;
      sleepTime := -1;
      waitedBy := NONE;
      this.cmd := cmd;
      isShell := false;
    }

    ghost function Value(): Pcb
      reads this
    {
      Pcb(ppid, priority, status, changed, sleepTime, waitedBy, cmd, isShell)
    }
  }

  class Kernel {
    var table: map<int, Process>
    var all: seq<int>
    var queues: map<Queue, seq<int>>
    var running: int
    var finished: bool
    var maxPid: int
    var halted: bool

    ghost function Objects(): set<object>
      reads this`table
    {
      set p | p in table :: table[p]
    }

    ghost function Values(): map<int, Pcb>
      reads this`table, Objects()
    {
      map p | p in table :: table[p].Value()
    }

    /** Pids name distinct objects, and every queue exists. */
    ghost predicate Valid()
      reads this`table, this`queues, this`all
    {
      && (forall p, q :: p in table && q in table && p != q ==> table[p] != table[q])
      && (forall q: Queue :: q in queues)
      && (forall p :: p in all <==> p in table) && NoDup(all)
    }

    ghost function Snap(): State
      reads this, Objects()
    {
      State(Values(), all, queues, running, finished, maxPid, halted)
    }

    /** Reading an entry of the table. */
    lemma Entry(p: int)
      requires Valid()
      ensures p in table <==> p in Snap().pcbs
      ensures p in table ==> Snap().pcbs[p] == table[p].Value()
      ensures p in table <==> p in all
    {
    }

    // ---- queues ------------------------------------------------------------

    method RemoveFromQs(q: Queue, p: int)
      requires Valid()
      modifies this`queues
      ensures Valid() && Snap() == TakeOut(old(Snap()), q, p)
    {
      var l := queues[q];
      var i := 0;
      while i < |l| && l[i] != p
        invariant 0 <= i <= |l| && p !in l[..i]
      {
        i := i + 1;
      }
      if i < |l| {
        RemoveAt(l, i, p);
        queues := queues[q := l[..i] + l[i + 1..]];
      } else {
        assert l[..i] == l;
        RemoveAbsent(l, p);
        assert queues == queues[q := l];
      }
    }

    method AppendExistNode(q: Queue, p: int)
      requires Valid()
      modifies this`queues
      ensures Valid() && Snap() == PutBack(old(Snap()), q, p)
    {
      queues := queues[q := queues[q] + [p]];
    }

    /** find_pcb. */
    method FindPcb(p: int) returns (found: bool)
      requires Valid()
      ensures Snap() == old(Snap()) && (found <==> p in Snap().pcbs)
    {
      var i := 0;
      while i < |all| && all[i] != p
        invariant 0 <= i <= |all| && p !in all[..i]
      {
        i := i + 1;
      }
      found := i < |all|;
      assert found ==> all[i] in all;
      assert !found ==> all[..i] == all;
    }

    method FindWhichQueue(p: int) returns (q: Option<Queue>)
      requires p in table
      ensures Snap() == old(Snap()) && q == if Known(Snap().pcbs[p]) then Some(Home(Snap().pcbs[p])) else None
    {
      var b := table[p];
      match b.status
      case BLOCKED => q := Some(Blocked);
      case STOPPED => q := Some(Stopped);
      case RUNNING =>
        q := if b.priority == -1 then Some(Neg)
             else if b.priority == 0 then Some(Zero)
             else if b.priority == 1 then Some(Pos)
             else None;
      case ZOMBIED => q := Some(Zombie);
      case SIGNALED => q := None;
    }

    method AddBackReady(p: int)
      requires Valid() && p in table
      modifies this`queues
      ensures Valid() && Snap() == PutBack(old(Snap()), ReadyQueue(old(Snap()).pcbs[p].priority), p)
    {
      var priority := table[p].priority;
      if priority == 0 {
        AppendExistNode(Zero, p);
      } else if priority == -1 {
        AppendExistNode(Neg, p);
      } else {
        AppendExistNode(Pos, p);
      }
    }

    // ---- process fields ----------------------------------------------------

    method SetStatus(p: int, status: Status)
      requires Valid() && p in table
      modifies table[p]
      ensures Valid() && Snap() == SetPcb(old(Snap()), p, old(Snap()).pcbs[p].(status := status))
    {
      table[p].status := status;
      assert table[p].Value() == old(table[p].Value()).(status := status);
      assert forall r :: r in table && r != p ==> table[r].Value() == old(table[r].Value());
    }

    method SetConsumed(p: int)
      requires Valid() && p in table
      modifies table[p]
      ensures Valid() && Snap() == SetPcb(old(Snap()), p, old(Snap()).pcbs[p].(changed := false, waitedBy := NONE))
    {
      table[p].changed := false;
      table[p].waitedBy := NONE;
      assert table[p].Value() == old(table[p].Value()).(changed := false, waitedBy := NONE);
      assert forall r :: r in table && r != p ==> table[r].Value() == old(table[r].Value());
    }

    method SetAsleep(p: int, t: int)
      requires Valid() && p in table
      modifies table[p]
      ensures Valid() && Snap() == SetPcb(old(Snap()), p, old(Snap()).pcbs[p].(status := BLOCKED, sleepTime := t))
    {
      table[p].status := BLOCKED;
      table[p].sleepTime := t;
      assert table[p].Value() == old(table[p].Value()).(status := BLOCKED, sleepTime := t);
      assert forall r :: r in table && r != p ==> table[r].Value() == old(table[r].Value());
    }

    method SetMarked(p: int, status: Status)
      requires Valid() && p in table
      modifies table[p]
      ensures Valid() && Snap() == SetPcb(old(Snap()), p, old(Snap()).pcbs[p].(status := status, changed := true))
    {
      table[p].status := status;
      table[p].changed := true;
      assert table[p].Value() == old(table[p].Value()).(status := status, changed := true);
      assert forall r :: r in table && r != p ==> table[r].Value() == old(table[r].Value());
    }

    method SetSleepTime(p: int, t: int)
      requires Valid() && p in table
      modifies table[p]
      ensures Valid() && Snap() == SetPcb(old(Snap()), p, old(Snap()).pcbs[p].(sleepTime := t))
    {
      table[p].sleepTime := t;
      assert table[p].Value() == old(table[p].Value()).(sleepTime := t);
      assert forall r :: r in table && r != p ==> table[r].Value() == old(table[r].Value());
    }

    method SetExpired(p: int)
      requires Valid() && p in table
      modifies table[p]
      ensures Valid()
      ensures Snap() ==
              SetPcb(old(Snap()), p, old(Snap()).pcbs[p].(sleepTime := -1, status := ZOMBIED, changed := true))
    {
      table[p].sleepTime := -1;
      table[p].status := ZOMBIED;
      table[p].changed := true;
      assert table[p].Value() == old(table[p].Value()).(sleepTime := -1, status := ZOMBIED, changed := true);
      assert forall r :: r in table && r != p ==> table[r].Value() == old(table[r].Value());
    }

    method SetWaitedBy(p: int, w: int)
      requires Valid() && p in table
      modifies table[p]
      ensures Valid() && Snap() == SetPcb(old(Snap()), p, old(Snap()).pcbs[p].(waitedBy := w))
    {
      table[p].waitedBy := w;
      assert table[p].Value() == old(table[p].Value()).(waitedBy := w);
      assert forall r :: r in table && r != p ==> table[r].Value() == old(table[r].Value());
    }

    /** The waiter of `p`, if any, is unblocked and put on its ready queue. */
    method Unblock(p: int)
      requires Valid() && p in table
      requires table[p].waitedBy != NONE ==> table[p].waitedBy in table
      modifies this`queues, Objects()
      ensures Valid() && Snap() == WakeWaiter(old(Snap()), p)
    {
      var w := table[p].waitedBy;
      if w != NONE {
        SetStatus(w, RUNNING);
        RemoveFromQs(Blocked, w);
        AddBackReady(w);
        SetWaitedBy(p, NONE);
      }
    }

    // ---- globals -----------------------------------------------------------

    method SetRunning(p: int)
      requires Valid()
      modifies this`running
      ensures Valid() && Snap() == old(Snap()).(running := p)
    {
      running := p;
    }

    method SetFinished(flag: bool)
      requires Valid()
      modifies this`finished
      ensures Valid() && Snap() == old(Snap()).(finished := flag)
    {
      finished := flag;
    }

    method Exit()
      requires Valid()
      modifies this`halted
      ensures Valid() && Snap() == old(Snap()).(halted := true)
    {
      halted := true;
    }

    // ---- the scheduling pass -----------------------------------------------

    /** check_sleeping_threads. */
    method CheckSleepingThreads()
      requires Valid() && Linked(Snap())
      modifies this`queues, Objects()
      ensures Valid() && Snap() == Sleepers(old(Snap()), 0)
    {
      assert Blocked in queues;
      hide Linked, Retire, NoDup, Values, Valid, Sleepers, SetPcb, RunDown;
      var i := 0;
      while i < |queues[Blocked]|
        invariant Valid() && Linked(Snap()) && queues == old(queues) && Blocked in queues
        invariant 0 <= i <= |queues[Blocked]|
        invariant Sleepers(Snap(), i) == Sleepers(old(Snap()), 0)
      {
        var p := queues[Blocked][i];
        SleepersAt(Snap(), i);
        Entry(p);
        if table[p].sleepTime == 0 {
          RetireSleeper(p);
          return;
        }
        RunTimer(p);
        i := i + 1;
      }
      WalkEnd(Snap(), i);
    }

    /** A timer that has not expired runs down by two ticks, or by the last one. */
    method RunTimer(p: int)
      requires Valid() && p in table
      modifies table[p]
      ensures Valid() && Snap() == SetPcb(old(Snap()), p, RunDown(old(Snap()).pcbs[p]))
    {
      Entry(p);
      hide Values, Valid;
      if table[p].sleepTime > 1 {
        SetSleepTime(p, table[p].sleepTime - 2);
      } else if table[p].sleepTime == 1 {
        SetSleepTime(p, table[p].sleepTime - 1);
      } else {
        assert Snap().pcbs[p := Snap().pcbs[p]] == Snap().pcbs;
      }
    }

    method RetireSleeper(p: int)
      requires Valid() && Linked(Snap()) && p in table
      modifies this`queues, Objects()
      ensures Valid() && Snap() == Retire(old(Snap()), p)
    {
      Entry(p);
      MarkLinked(Snap(), p);
      Entry(table[p].waitedBy);
      hide Linked, TakeOut, PutBack, WakeWaiter, NoDup, Values, Valid;
      SetExpired(p);
      Entry(p);
      RemoveFromQs(Blocked, p);
      AppendExistNode(Zombie, p);
      Unblock(p);
    }

    /** A process whose function returned becomes a zombie. */
    method ReapRunning()
      requires Valid() && Linked(Snap()) && (running != NONE ==> running in table)
      modifies this`queues, this`running, Objects()
      ensures Valid() && Snap() == Reaped(old(Snap()))
    {
      Entry(running);
      ReapedIs(Snap());
      hide Linked, PutBack, WakeWaiter, NoDup, Values, Valid, Reaped;
      if running != NONE && !finished && table[running].cmd != Shell {
        Bury(running);
        running := NONE;
      }
    }

    method Bury(p: int)
      requires Valid() && Linked(Snap()) && p in table
      modifies this`queues, Objects()
      ensures Valid() && Snap() == Buried(old(Snap()), p)
    {
      hide Linked, PutBack, WakeWaiter, NoDup, Values, Valid;
      Entry(p);
      MarkLinked(Snap(), p);
      Entry(table[p].waitedBy);
      Unblock(p);
      Entry(p);
      SetMarked(p, ZOMBIED);
      AppendExistNode(Zombie, p);
    }

    /** Takes a process off the process list and out of the table. */
    method Free(p: int)
      requires Valid() && p in table
      modifies this`table, this`all
      ensures Valid() && Snap() == old(Snap()).(pcbs := old(Snap()).pcbs - {p}, all := Remove(old(all), p))
    {
      var i := Position(p);
      RemoveAt(all, i, p);
      RemoveIs(all, p);
      hide NoDup, Remove;
      all := all[..i] + all[i + 1..];
      table := table - {p};
      assert Values() == old(Values()) - {p};
    }

    method Position(p: int) returns (i: nat)
      requires Valid() && p in table
      ensures i < |all| && all[i] == p && p !in all[..i]
    {
      i := 0;
      while i < |all| && all[i] != p
        invariant 0 <= i <= |all| && p !in all[..i]
      {
        i := i + 1;
      }
      assert all[..|all|] == all;
    }

    method DiscardOrphan(p: int)
      requires Valid() && p in table && (p != running ==> Known(Snap().pcbs[p]))
      modifies this`queues, this`running, this`table, this`all
      ensures Valid() && Snap() == Discard(old(Snap()), p)
    {
      Entry(p);
      DiscardIs(Snap(), p);
      hide Values, Valid, NoDup, Remove, Home, Known, TakeOut, Discard;
      if p == running {
        SetRunning(NONE);
      } else {
        var q := FindWhichQueue(p);
        RemoveFromQs(q.value, p);
      }
      Free(p);
    }

    /** The look at one process of the sweep. */
    method SweepOne(p: int)
      requires Valid() && p in table
      requires p != running && table[p].ppid != NONE && table[p].ppid !in table ==> Known(Snap().pcbs[p])
      modifies this`queues, this`running, this`table, this`all
      ensures Valid() && Snap() == SweptOne(old(Snap()), p)
    {
      Entry(p);
      hide Discard, NoDup, Home, Values, Valid;
      if table[p].ppid != NONE {
        var found := FindPcb(table[p].ppid);
        if !found {
          DiscardOrphan(p);
        }
      }
    }

    /** check_orphan_child. */
    method CheckOrphanChild()
      requires Valid() && Sweepable(Snap())
      modifies this`queues, this`running, this`table, this`all
      ensures Valid() && Snap() == Sweep(old(Snap()), old(all))
    {
      var rest := all;
      assert NoDup(rest) && forall p :: p in rest ==> p in Snap().pcbs;
      hide Sweepable, NoDup, Values, Valid, SweptOne, Sweep;
      while rest != []
        invariant Valid() && Sweepable(Snap()) && NoDup(rest) && forall p :: p in rest ==> p in Snap().pcbs
        invariant Sweep(Snap(), rest) == Sweep(old(Snap()), old(all))
        decreases |rest|
      {
        var p := rest[0];
        SweepAt(Snap(), rest);
        Entry(p);
        Entry(table[p].ppid);
        SweepOne(p);
        rest := rest[1..];
      }
      SweepEnd(Snap());
    }

    /** check_shell_exist. */
    method CheckShellExist() returns (found: bool)
      requires Valid()
      ensures Snap() == old(Snap()) && (found <==> HasShell(Snap()))
    {
      var i := 0;
      assert forall j :: 0 <= j < |all| ==> all[j] in all;
      while i < |all| && !table[all[i]].isShell
        invariant 0 <= i <= |all| && forall j :: 0 <= j < i ==> all[j] in table && !table[all[j]].isShell
      {
        i := i + 1;
      }
      found := i < |all|;
      if found { assert Snap().pcbs[all[i]].isShell; }
      assert HasShell(Snap()) ==> exists j :: 0 <= j < |all| && table[all[j]].isShell;
    }

    /** schedule_next: the head of a ready queue, or NONE. */
    method ScheduleNext(rand: real) returns (target: int)
      requires Valid() && Sorting(Snap())
      modifies this`queues
      ensures Valid()
      ensures var s := old(Snap());
              var q := Pick(s, rand);
              if Q(s, q) == [] then target == NONE && Snap() == s
              else target == Q(s, q)[0] && Snap() == TakeOut(s, q, target)
    {
      var id := 0;
      if queues[Neg] != [] { id := id + 4; }
      if queues[Zero] != [] { id := id + 2; }
      if queues[Pos] != [] { id := id + 1; }
      target := NONE;
      if id == 7 {
        target := if rand < 0.4737 then queues[Neg][0] else if rand < 0.7895 then queues[Zero][0] else queues[Pos][0];
      } else if id == 6 {
        target := if rand < 0.6 then queues[Neg][0] else queues[Zero][0];
      } else if id == 5 {
        target := if rand < 0.3077 then queues[Pos][0] else queues[Neg][0];
      } else if id == 3 {
        target := if rand < 0.6 then queues[Zero][0] else queues[Pos][0];
      } else if id == 4 {
        target := queues[Neg][0];
      } else if id == 2 {
        target := queues[Zero][0];
      } else if id == 1 {
        target := queues[Pos][0];
      }
      if id != 0 {
        HeadSorted(Snap(), Pick(Snap(), rand));
        RemoveNode(target);
      }
    }

    /** remove_node: from the ready queue of its priority. */
    method RemoveNode(p: int)
      requires Valid() && p in table && table[p].priority in {-1, 0, 1}
      modifies this`queues
      ensures Valid() && Snap() == TakeOut(old(Snap()), ReadyQueue(old(Snap()).pcbs[p].priority), p)
    {
      var priority := table[p].priority;
      if priority == -1 {
        RemoveFromQs(Neg, p);
      } else if priority == 0 {
        RemoveFromQs(Zero, p);
      } else if priority == 1 {
        RemoveFromQs(Pos, p);
      }
    }

    /** check_real_idle. */
    method CheckRealIdle() returns (p: int)
      requires Valid()
      ensures Snap() == old(Snap()) && p == FirstRunning(Snap(), Snap().all)
    {
      var i := 0;
      while i < |all| && table[all[i]].status != RUNNING
        invariant 0 <= i <= |all| && FirstRunning(Snap(), all[i..]) == FirstRunning(Snap(), all)
      {
        assert all[i..][1..] == all[i + 1..];
        i := i + 1;
      }
      p := if i < |all| then all[i] else NONE;
    }

    /** Choosing the next process. */
    method Resume(rand: real)
      requires Valid() && Sorting(Snap()) && forall q :: NONE !in Q(Snap(), q)
      modifies this`queues, this`running
      ensures Valid() && Snap() == Dispatch(old(Snap()), rand)
    {
      PickIs(Snap(), rand);
      hide NoDup, Pick, Sorting, Values, Valid;
      ghost var q := Pick(Snap(), rand);
      assert Q(Snap(), q) != [] ==> Q(Snap(), q)[0] in Q(Snap(), q);
      var target := ScheduleNext(rand);
      if target != NONE {
        SetRunning(target);
      } else {
        var idle := CheckRealIdle();
        SetRunning(idle);
      }
    }

    /** schedule, up to the moment a context is resumed. */
    method RunScheduler(rand: real)
      requires Valid() && Ready(Snap()) && NoStray(Snap())
      modifies this, Objects()
      ensures Valid() && Snap() == Schedule(old(Snap()), rand)
    {
      hide Values, Valid, Ready, NoStray, Linked, Sorting, Sweepable, Sleepers, Reaped, Sweep, HasShell, AddBack,
           Dispatch, NoDup;
      PassGuards(Snap());
      CheckSleepingThreads();
      Entry(running);
      ReapRunning();
      SetFinished(false);
      ghost var c := Reaped(Sleepers(old(Snap()), 0)).(finished := false);
      assert Snap() == c;
      assert all == c.all;
      CheckOrphanChild();
      assert Snap() == Sweep(c, c.all);
      assert Swung(Snap());
      var shell := CheckShellExist();
      if !shell {
        Exit();
        return;
      }
      Entry(running);
      AddBackRunning();
      Resume(rand);
    }

    method AddBackRunning()
      requires Valid() && (running == NONE || running in table)
      modifies this`queues
      ensures Valid() && Snap() == AddBack(old(Snap()))
    {
      if running != NONE && table[running].status == RUNNING {
        AddBackReady(running);
      }
    }

    // ---- system calls ------------------------------------------------------

    /** p_spawn. */
    method PSpawn(cmd: Cmd) returns (pid: int)
      requires Valid() && maxPid !in table
      modifies this`table, this`all, this`queues, this`maxPid
      ensures Valid() && Snap() == Spawn(old(Snap()), cmd) && pid == old(maxPid)
      ensures fresh(Objects() - old(Objects()))
    {
      hide Valid, Values;
      var pcb := new Process(running, cmd);
      pid := maxPid;
      Enlist(pid, pcb);
      MoveUp(pid);
    }

    /** The new process object gets into the table and to the end of the list. */
    method Enlist(p: int, pcb: Process)
      requires Valid() && p !in table && pcb !in Objects()
      modifies this`table, this`all
      ensures Valid() && Objects() == old(Objects()) + {pcb}
      ensures Snap() == old(Snap()).(pcbs := old(Snap()).pcbs[p := pcb.Value()], all := old(all) + [p])
    {
      ghost var v, t := Values(), table;
      table := table[p := pcb];
      all := all + [p];
      assert table[p] == pcb && forall r :: r in t ==> r in table && table[r] == t[r];
      assert forall x, y :: x in table && y in table && x != y ==> table[x] != table[y];
      assert Values() == v[p := pcb.Value()];
      hide Values;
    }

    /** The new pid goes to the front of the middle ready queue. */
    method MoveUp(p: int)
      requires Valid()
      modifies this`queues, this`maxPid
      ensures Valid()
      ensures Snap() == old(Snap()).(maxPid := old(maxPid) + 1, qs := old(queues)[Zero := [p] + Q(old(Snap()), Zero)])
    {
      maxPid := maxPid + 1;
      queues := queues[Zero := [p] + queues[Zero]];
    }

    /** p_sleep. */
    method PSleep(ticks: nat, rand: real)
      requires Valid() && HasRunning(Snap()) && ticks * 10 < 0x8000_0000
      requires Ready(SleepFor(Snap(), ticks)) && NoStray(SleepFor(Snap(), ticks))
      modifies this, Objects()
      ensures Valid() && Snap() == Schedule(SleepFor(old(Snap()), ticks), rand)
    {
      hide Values, Valid, Ready, NoStray, Schedule, SleepFor;
      FallAsleep(ticks);
      RunScheduler(rand);
    }

    /** The timer, and the caller on the blocked queue. */
    method FallAsleep(ticks: nat)
      requires Valid() && HasRunning(Snap())
      modifies this`queues, this`running, this`finished, Objects()
      ensures Valid() && Snap() == SleepFor(old(Snap()), ticks)
    {
      Entry(running);
      hide Values, Valid, PutBack, NoDup;
      SetAsleep(running, ticks * 10);
      AppendExistNode(Blocked, running);
      SetRunning(NONE);
      SetFinished(true);
    }

    /** p_waitpid(pid): -1, the pid collected, or 0 while the caller is blocked. */
    method PWaitpid(pid: int, rand: real) returns (r: int)
      requires Valid() && HasRunning(Snap())
      requires pid in table && !table[pid].changed ==> Ready(Wait(Snap(), pid)) && NoStray(Wait(Snap(), pid))
      modifies this, Objects()
      ensures Valid()
      ensures old(|all|) == 1 || pid !in old(table) ==> r == -1 && Snap() == old(Snap())
      ensures old(|all|) != 1 && pid in old(table) ==>
                if old(Snap()).pcbs[pid].changed then r == pid && Snap() == Collect(old(Snap()), pid)
                else r == 0 && Snap() == Schedule(Wait(old(Snap()), pid), rand)
    {
      Entry(pid);
      hide Values, Valid, Ready, NoStray, Schedule, Wait, Collect, NoDup;
      if |all| - 1 == 0 {
        r := -1;
        return;
      }
      var found := FindPcb(pid);
      if !found {
        r := -1;
      } else if table[pid].changed {
        CollectChild(pid);
        r := pid;
      } else {
        BlockOn(pid, rand);
        r := 0;
      }
    }

    /** The caller blocks until `pid` changes. */
    method BlockOn(pid: int, rand: real)
      requires Valid() && HasRunning(Snap()) && pid in table
      requires Ready(Wait(Snap(), pid)) && NoStray(Wait(Snap(), pid))
      modifies this, Objects()
      ensures Valid() && Snap() == Schedule(Wait(old(Snap()), pid), rand)
    {
      hide Values, Valid, Ready, NoStray, Schedule, Wait;
      Block(pid);
      RunScheduler(rand);
    }

    /** The mark on the process waited for, and the caller on the blocked queue. */
    method Block(pid: int)
      requires Valid() && HasRunning(Snap()) && pid in table
      modifies this`queues, this`finished, Objects()
      ensures Valid() && Snap() == Wait(old(Snap()), pid)
    {
      Entry(running);
      Entry(pid);
      hide Values, Valid, PutBack, NoDup;
      SetWaitedBy(pid, running);
      Entry(running);
      SetStatus(running, BLOCKED);
      AppendExistNode(Blocked, running);
      SetFinished(true);
    }

    /** The rest of p_waitpid, once `pid` has changed. */
    method CollectChild(pid: int)
      requires Valid() && pid in table
      modifies this`table, this`all, this`queues, Objects()
      ensures Valid() && Snap() == Collect(old(Snap()), pid)
    {
      Entry(pid);
      CollectIs(Snap(), pid);
      hide Values, Valid, NoDup, Remove, TakeOut, Collect;
      SetConsumed(pid);
      Entry(pid);
      if table[pid].status == ZOMBIED || table[pid].status == SIGNALED {
        Free(pid);
        RemoveFromQs(Zombie, pid);
      }
    }

    /** p_nice. */
    method PNice(pid: int, priority: int) returns (r: int)
      requires Valid() && (pid in table && table[pid].status == RUNNING ==> pid != running && Known(Snap().pcbs[pid]))
      modifies this`queues, Objects()
      ensures Valid() && Snap() == if pid in old(Snap()).pcbs then Nice(old(Snap()), pid, priority) else old(Snap())
      ensures r == if pid in old(Snap()).pcbs then 0 else -1
    {
      Entry(pid);
      hide Values, Valid, NoDup, Remove;
      var found := FindPcb(pid);
      if !found {
        r := -1;
        return;
      }
      if table[pid].status == RUNNING {
        var q := FindWhichQueue(pid);
        RemoveFromQs(q.value, pid);
        if priority == -1 {
          AppendExistNode(Neg, pid);
        } else if priority == 0 {
          AppendExistNode(Zero, pid);
        } else {
          AppendExistNode(Pos, pid);
        }
      }
      SetPriority(pid, priority);
      r := 0;
    }

    method SetPriority(p: int, priority: int)
      requires Valid() && p in table
      modifies table[p]
      ensures Valid() && Snap() == SetPcb(old(Snap()), p, old(Snap()).pcbs[p].(priority := priority))
    {
      table[p].priority := priority;
      assert table[p].Value() == old(table[p].Value()).(priority := priority);
      assert forall r :: r in table && r != p ==> table[r].Value() == old(table[r].Value());
    }

    // ---- signals -----------------------------------------------------------

    /** Takes on a status, tells the waiter, and moves from one queue to another. */
    method Requeue(p: int, status: Status, from: Queue, to: Queue)
      requires Valid() && Linked(Snap()) && p in table
      modifies this`queues, Objects()
      ensures Valid() && Snap() == PutBack(TakeOut(Mark(old(Snap()), p, status), from, p), to, p)
    {
      Entry(p);
      MarkLinked(Snap(), p);
      Entry(table[p].waitedBy);
      hide Values, Valid, NoDup, Linked, TakeOut, PutBack, WakeWaiter;
      SetMarked(p, status);
      Entry(p);
      Unblock(p);
      RemoveFromQs(from, p);
      AppendExistNode(to, p);
    }

    /** The running process takes on a status, tells the waiter, and goes to a queue. */
    method Queued(p: int, status: Status, to: Queue)
      requires Valid() && Linked(Snap()) && p in table
      modifies this`queues, Objects()
      ensures Valid() && Snap() == PutBack(Mark(old(Snap()), p, status), to, p)
    {
      Entry(p);
      MarkLinked(Snap(), p);
      Entry(table[p].waitedBy);
      hide Values, Valid, NoDup, Linked, TakeOut, PutBack, WakeWaiter;
      SetMarked(p, status);
      Entry(p);
      Unblock(p);
      AppendExistNode(to, p);
    }

    method Continue(p: int)
      requires Valid() && Linked(Snap()) && p in table && Known(Snap().pcbs[p]) && table[p].priority in {-1, 0, 1}
      modifies this`queues, Objects()
      ensures Valid() && Snap() == Cont(old(Snap()), p)
    {
      Entry(p);
      hide Values, Valid, NoDup, Linked, TakeOut, PutBack, WakeWaiter, Mark;
      var origin := FindWhichQueue(p);
      if table[p].status != RUNNING && table[p].status != ZOMBIED {
        if table[p].cmd == SleepUnderscore {
          Requeue(p, RUNNING, origin.value, Blocked);
        } else if table[p].priority == -1 {
          Requeue(p, RUNNING, origin.value, Neg);
        } else if table[p].priority == 0 {
          Requeue(p, RUNNING, origin.value, Zero);
        } else if table[p].priority == 1 {
          Requeue(p, RUNNING, origin.value, Pos);
        }
      }
    }

    method Suspend(p: int)
      requires Valid() && Linked(Snap()) && p in table && (p != running ==> Known(Snap().pcbs[p]))
      modifies this`queues, this`running, this`finished, Objects()
      ensures Valid() && Snap() == Stop(old(Snap()), p)
    {
      Entry(p);
      hide Values, Valid, NoDup, Linked, TakeOut, PutBack, WakeWaiter, Mark;
      var origin := FindWhichQueue(p);
      if table[p].status != STOPPED && table[p].status != ZOMBIED {
        if p == running {
          Queued(p, STOPPED, Stopped);
          SetRunning(NONE);
          SetFinished(true);
        } else {
          Requeue(p, STOPPED, origin.value, Stopped);
        }
      }
    }

    /** For a process other than a shell. */
    method Terminate(p: int)
      requires Valid() && Linked(Snap()) && p in table && (p != running ==> Known(Snap().pcbs[p]))
      modifies this`queues, this`running, this`finished, Objects()
      ensures Valid() && Snap() == Term(old(Snap()), p)
    {
      Entry(p);
      hide Values, Valid, NoDup, Linked, TakeOut, PutBack, WakeWaiter, Mark;
      var origin := FindWhichQueue(p);
      if p == running {
        var waited := table[p].waitedBy != NONE;
        Queued(p, SIGNALED, Zombie);
        if waited { SetRunning(NONE); }
        SetFinished(true);
      } else {
        Requeue(p, SIGNALED, origin.value, Zombie);
      }
    }

    /** k_process_kill; stopping or terminating the running process leads to a pass. */
    method KProcessKill(p: int, signal: Signal, rand: real)
      requires Valid() && Linked(Snap()) && p in table && Known(Snap().pcbs[p]) && table[p].priority in {-1, 0, 1}
      requires p == running && signal == SigStop ==> Ready(Stop(Snap(), p)) && NoStray(Stop(Snap(), p))
      requires p == running && signal == SigTerm ==> Ready(Term(Snap(), p)) && NoStray(Term(Snap(), p))
      modifies this, Objects()
      ensures Valid() && Snap() == Next(old(Snap()), Killed(p, signal, rand))
    {
      KilledIs(Snap(), p, signal, rand);
      Entry(p);
      hide Values, Valid, NoDup, Linked, Cont, Stop, Term, Ready, NoStray, Schedule, Known, Next;
      match signal
      case SigCont => Continue(p);
      case SigStop => Stopping(p, rand);
      case SigTerm => Terminating(p, rand);
    }

    method Stopping(p: int, rand: real)
      requires Valid() && Linked(Snap()) && p in table && (p != running ==> Known(Snap().pcbs[p]))
      requires p == running ==> Ready(Stop(Snap(), p)) && NoStray(Stop(Snap(), p))
      modifies this, Objects()
      ensures Valid()
      ensures var t := Stop(old(Snap()), p); Snap() == if p == old(running) then Schedule(t, rand) else t
    {
      var current := p == running;
      hide Values, Valid, Linked, Stop, Ready, NoStray, Schedule, Known;
      Suspend(p);
      if current { RunScheduler(rand); }
    }

    method Terminating(p: int, rand: real)
      requires Valid() && Linked(Snap()) && p in table && (p != running ==> Known(Snap().pcbs[p]))
      requires p == running ==> Ready(Term(Snap(), p)) && NoStray(Term(Snap(), p))
      modifies this, Objects()
      ensures Valid()
      ensures var t := Term(old(Snap()), p); Snap() == if p == old(running) then Schedule(t, rand) else t
    {
      var current := p == running;
      hide Values, Valid, Linked, Term, Ready, NoStray, Schedule, Known;
      Terminate(p);
      if current { RunScheduler(rand); }
    }

    // ---- one step ----------------------------------------------------------

    /** The kernel at the moment its first process is scheduled. */
    constructor ()
      ensures Valid() && Snap() == Boot() && fresh(Objects())
    {
      var shell := new Process(NONE, Shell);
      table := map[1 := shell];
      all := [1];
      queues := map[Neg := [1], Zero := [], Pos := [], Blocked := [], Stopped := [], Zombie := []];
      running := NONE;
      finished := false;
      maxPid := 2;
      halted := false;
      new;
      shell.priority := -1;
      shell.isShell := true;
      forall q: Queue ensures q in queues {
        match q { case Neg => case Zero => case Pos => case Blocked => case Stopped => case Zombie => }
      }
    }

    /** Any admissible step: the objects and queues do what the model says and keep the invariant. */
    method Step(e: Event)
      requires Valid() && Inv(Snap()) && Allowed(Snap(), e)
      modifies this, Objects()
      ensures Valid() && Snap() == Next(old(Snap()), e) && Inv(Snap())
    {
      NextKeeps(Snap(), e);
      StepGuards(Snap(), e);
      hide Inv, NoDup, Ready, NoStray, Schedule, Known, Wait, SleepFor, Collect, Nice, Spawn, Cont, Stop, Term, Expired;
      match e
      case Spawned(cmd) => var _ := PSpawn(cmd);
      case Slept(ticks, rand) => PSleep(ticks, rand);
      case Waited(p, rand) => var _ := PWaitpid(p, rand);
      case Collected(p) => var _ := PWaitpid(p, 0.0);
      case Niced(p, priority) => var _ := PNice(p, priority);
      case Killed(p, signal, rand) =>
        Entry(p);
        KillGuards(Snap(), p, signal, rand);
        KProcessKill(p, signal, rand);
      case Ticked(rand) => SetFinished(true); RunScheduler(rand);
      case Returned(rand) => RunScheduler(rand);
    }
  }
}
