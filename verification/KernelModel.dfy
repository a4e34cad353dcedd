/**
 The kernel's process table and queues as a value, and each kernel entry point
 as a function on it. A call that swaps to the scheduler includes the scheduling
 pass that follows at once.
 */
module KernelModel {

  datatype Status = RUNNING | STOPPED | BLOCKED | ZOMBIED | SIGNALED
  datatype Queue = Neg | Zero | Pos | Blocked | Stopped | Zombie

  /** What cmd[0] is compared with: "shell", "sleep_", or neither. */
  datatype Cmd = Shell | SleepUnderscore | Other

  datatype Pcb = Pcb(ppid: int, priority: int, status: Status, changed: bool, sleepTime: int, waitedBy: int,
                     cmd: Cmd, isShell: bool)

  const NONE := -1

  /** `running` is NONE when the idle context runs; `halted` once the program has exited. */
  datatype State = State(pcbs: map<int, Pcb>, all: seq<int>, qs: map<Queue, seq<int>>, running: int,
                         finished: bool, maxPid: int, halted: bool)

  datatype Signal = SigStop | SigCont | SigTerm

  function Q(s: State, q: Queue): seq<int> {
    if q in s.qs then s.qs[q] else []
  }

  // ---- list operations -----------------------------------------------------

  /** remove_from_qs: takes out the first node with this pid. */
  function Remove(l: seq<int>, p: int): (r: seq<int>)
    ensures |r| <= |l|
  {
    if l == [] then [] else if l[0] == p then l[1..] else [l[0]] + Remove(l[1..], p)
  }

  function TakeOut(s: State, q: Queue, p: int): State {
    s.(qs := s.qs[q := Remove(Q(s, q), p)])
  }

  /** append_exist_node: at the back. */
  function PutBack(s: State, q: Queue, p: int): State {
    s.(qs := s.qs[q := Q(s, q) + [p]])
  }

  function SetPcb(s: State, p: int, b: Pcb): State {
    s.(pcbs := s.pcbs[p := b])
  }

  /** add_back_ready's choice. */
  function ReadyQueue(priority: int): Queue {
    if priority == 0 then Zero else if priority == -1 then Neg else Pos
  }

  /** find_which_queue; a SIGNALED process has no case of its own there, its node is in the zombie queue. */
  function Home(b: Pcb): Queue {
    match b.status
    case BLOCKED => Blocked
    case STOPPED => Stopped
    case RUNNING => ReadyQueue(b.priority)
    case ZOMBIED => Zombie
    case SIGNALED => Zombie
  }

  /** find_which_queue has an answer. */
  predicate Known(b: Pcb) {
    b.status != SIGNALED && (b.status == RUNNING ==> b.priority in {-1, 0, 1})
  }

  // ---- waking a waiter -----------------------------------------------------

  /** If `p` is waited for, its waiter becomes ready again. */
  function WakeWaiter(s: State, p: int): State {
    if p !in s.pcbs || s.pcbs[p].waitedBy == NONE || s.pcbs[p].waitedBy !in s.pcbs then s
    else
      var w := s.pcbs[p].waitedBy;
      var s1 := SetPcb(s, w, s.pcbs[w].(status := RUNNING));
      var s2 := PutBack(TakeOut(s1, Blocked, w), ReadyQueue(s.pcbs[w].priority), w);
      SetPcb(s2, p, s2.pcbs[p].(waitedBy := NONE))
  }

  // ---- the scheduling pass -------------------------------------------------

  /** check_sleeping_threads from position `i` of the blocked queue: timers run down until
      the first expired sleeper, which is retired and ends the walk. */
  function Sleepers(s: State, i: nat): State
    decreases |Q(s, Blocked)| - i
  {
    if i >= |Q(s, Blocked)| || Q(s, Blocked)[i] !in s.pcbs then s
    else
      var p := Q(s, Blocked)[i];
      var b := s.pcbs[p];
      if b.sleepTime > 1 then Sleepers(SetPcb(s, p, b.(sleepTime := b.sleepTime - 2)), i + 1)
      else if b.sleepTime == 1 then Sleepers(SetPcb(s, p, b.(sleepTime := 0)), i + 1)
      else if b.sleepTime == 0 then Retire(s, p)
      else Sleepers(s, i + 1)
  }

  function Retire(s: State, p: int): State
    requires p in s.pcbs
  {
    var b := s.pcbs[p].(sleepTime := -1, status := ZOMBIED, changed := true);
    WakeWaiter(PutBack(TakeOut(SetPcb(s, p, b), Blocked, p), Zombie, p), p)
  }

  /** A running process whose function returned becomes a zombie, except the shell. */
  function Reaped(s: State): State {
    if s.running != NONE && s.running in s.pcbs && !s.finished && s.pcbs[s.running].cmd != Shell then
      var p := s.running;
      var s1 := WakeWaiter(s, p);
      var s2 := if p in s1.pcbs then SetPcb(s1, p, s1.pcbs[p].(status := ZOMBIED, changed := true)) else s1;
      PutBack(s2, Zombie, p).(running := NONE)
    else s
  }

  function Discard(s: State, p: int): State {
    if p in s.pcbs then
      var s1 := if p == s.running then s.(running := NONE) else TakeOut(s, Home(s.pcbs[p]), p);
      s1.(pcbs := s.pcbs - {p}, all := Remove(s.all, p))
    else s
  }

  /** check_orphan_child over the remaining part of the process list. */
  function Sweep(s: State, rest: seq<int>): State
    decreases |rest|
  {
    if rest == [] then s
    else if rest[0] in s.pcbs && s.pcbs[rest[0]].ppid != NONE && s.pcbs[rest[0]].ppid !in s.pcbs then
      Sweep(Discard(s, rest[0]), rest[1..])
    else Sweep(s, rest[1..])
  }

  function AddBack(s: State): State {
    if s.running != NONE && s.running in s.pcbs && s.pcbs[s.running].status == RUNNING
    then PutBack(s, ReadyQueue(s.pcbs[s.running].priority), s.running)
    else s
  }

  /** schedule_next: which ready queue the random number picks. */
  function Pick(s: State, rand: real): Queue {
    var n, z, p := Q(s, Neg) != [], Q(s, Zero) != [], Q(s, Pos) != [];
    if n && z && p then (if rand < 0.4737 then Neg else if rand < 0.7895 then Zero else Pos)
    else if n && z then (if rand < 0.6 then Neg else Zero)
    else if n && p then (if rand < 0.3077 then Pos else Neg)
    else if z && p then (if rand < 0.6 then Zero else Pos)
    else if n then Neg else if z then Zero else Pos
  }

  /** check_real_idle: the first process in the list that is marked RUNNING. */
  function FirstRunning(s: State, l: seq<int>): int {
    if l == [] then NONE
    else if l[0] in s.pcbs && s.pcbs[l[0]].status == RUNNING then l[0]
    else FirstRunning(s, l[1..])
  }

  /** With no ready process, the backup node of a RUNNING one is resumed if there is any. */
  function Dispatch(s: State, rand: real): State {
    var q := Pick(s, rand);
    if Q(s, q) == [] then s.(running := FirstRunning(s, s.all))
    else TakeOut(s, q, Q(s, q)[0]).(running := Q(s, q)[0])
  }

  predicate HasShell(s: State) {
    exists p :: p in s.pcbs && s.pcbs[p].isShell
  }

  /** schedule(), up to the moment a context is resumed. */
  function Schedule(s: State, rand: real): State {
    var s1 := Reaped(Sleepers(s, 0)).(finished := false);
    var s2 := Sweep(s1, s1.all);
    if !HasShell(s2) then s2.(halted := true) else Dispatch(AddBack(s2), rand)
  }

  // ---- system calls --------------------------------------------------------

  /** p_spawn: the child goes to the front of the middle ready queue. */
  function Spawn(s: State, cmd: Cmd): State {
    var b := Pcb(s.running, 0, RUNNING, false, -1, NONE, cmd, false);
    s.(pcbs := s.pcbs[s.maxPid := b], all := s.all + [s.maxPid], maxPid := s.maxPid + 1,
       qs := s.qs[Zero := [s.maxPid] + Q(s, Zero)])
  }

  /** p_sleep by the running process. */
  function SleepFor(s: State, ticks: nat): State
    requires s.running in s.pcbs
  {
    var b := s.pcbs[s.running].(status := BLOCKED, sleepTime := ticks * 10);
    PutBack(SetPcb(s, s.running, b), Blocked, s.running).(running := NONE, finished := true)
  }

  /** p_waitpid(pid) by the running process when `pid` has not changed: it blocks. The
      running node is still current when the scheduler starts. */
  function Wait(s: State, p: int): State
    requires s.running in s.pcbs && p in s.pcbs
  {
    var w := s.running;
    var s1 := SetPcb(s, p, s.pcbs[p].(waitedBy := w));
    PutBack(SetPcb(s1, w, s1.pcbs[w].(status := BLOCKED)), Blocked, w).(finished := true)
  }

  /** p_waitpid(pid) when `pid` has changed: the change is consumed, a dead child is freed. */
  function Collect(s: State, p: int): State
    requires p in s.pcbs
  {
    var b := s.pcbs[p].(changed := false, waitedBy := NONE);
    if b.status == ZOMBIED || b.status == SIGNALED then
      TakeOut(s, Zombie, p).(pcbs := s.pcbs - {p}, all := Remove(s.all, p))
    else SetPcb(s, p, b)
  }

  /** p_nice. */
  function Nice(s: State, p: int, priority: int): State
    requires p in s.pcbs
  {
    var b := s.pcbs[p];
    var s1 := if b.status == RUNNING then PutBack(TakeOut(s, Home(b), p), ReadyQueue(priority), p) else s;
    SetPcb(s1, p, b.(priority := priority))
  }

  // ---- signals -------------------------------------------------------------

  function Mark(s: State, p: int, status: Status): State
    requires p in s.pcbs
  {
    WakeWaiter(SetPcb(s, p, s.pcbs[p].(status := status, changed := true)), p)
  }

  /** k_process_kill, without the scheduling pass a signal to the running process leads to. */
  function Cont(s: State, p: int): State
    requires p in s.pcbs
  {
    var b := s.pcbs[p];
    if b.status == RUNNING || b.status == ZOMBIED then s
    else
      var to := if b.cmd == SleepUnderscore then Blocked else ReadyQueue(b.priority);
      PutBack(TakeOut(Mark(s, p, RUNNING), Home(b), p), to, p)
  }

  function Stop(s: State, p: int): State
    requires p in s.pcbs
  {
    var b := s.pcbs[p];
    if b.status == STOPPED || b.status == ZOMBIED then s
    else if p == s.running then PutBack(Mark(s, p, STOPPED), Stopped, p).(running := NONE, finished := true)
    else PutBack(TakeOut(Mark(s, p, STOPPED), Home(b), p), Stopped, p)
  }

  /** For a process other than a shell. */
  function Term(s: State, p: int): State
    requires p in s.pcbs
  {
    var b := s.pcbs[p];
    var s1 := Mark(s, p, SIGNALED);
    if p == s.running then
      PutBack(s1, Zombie, p).(running := if b.waitedBy != NONE then NONE else s.running, finished := true)
    else PutBack(TakeOut(s1, Home(b), p), Zombie, p)
  }
}
