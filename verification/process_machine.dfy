/** The process of lib/process.go: goroutines run as counted jobs, a phantom main job keeps the
    wait group open until Terminate, and OnTerminate callbacks become jobs of their own.

    Every goroutine is a thread with a program counter and every label below is one indivisible
    action of one thread, so a list of labels is one interleaving. What a job does between two
    calls into the process is left open: a thread in its body may make any call at any time. */
module ProcessMachine {
  import opened Common

  /** External threads are callers that are not jobs of the process (signal handlers, tests). */
  datatype Kind = External | Job(critical: bool, callback: Option<nat>)

  datatype Pc =
    | Body                         // inside DoJob (or outside the process, for External)
    | SpawnChecked(critical: bool) // SpawnJob saw doneCh open, jobs.Add(1) comes next
    | RegisterWait                 // OnTerminate waits for the mutex
    | RegisterLocked               // OnTerminate holds the mutex
    | RegisterChecked              // holds the mutex, saw terminated and doneCh open
    | RegisterUnlock               // callback stored or spawned, mutex still held
    | OnceWait                     // at once.Do
    | TermLock                     // first caller inside once.Do, wants the mutex
    | TermLoop(next: nat)          // terminated is set, spawning callback number next
    | TermUnlock                   // callback list dropped, mutex still held
    | TermRelease                  // mutex free, jobs.Done() for the main job comes next
    | TermExit                     // about to leave once.Do
    | Returned(failed: bool)       // DoJob returned, jobs.Done() comes next
    | Released(failed: bool)       // no longer counted, looks at err and critical
    | Exited(failed: bool)

  /** live: this job is counted in the wait group. */
  datatype Thread = Thread(kind: Kind, live: bool, pc: Pc)

  datatype Once = Idle | Running(owner: nat) | Finished

  /** The goroutine that waits for the wait group and closes doneCh. */
  datatype Waiter = Waiting | Woken | Left

  datatype State = State(
    threads: seq<Thread>,
    counter: int,            // the wait group
    mainReleased: bool,      // the phantom main job was stopped
    holder: Option<nat>,     // who holds the mutex
    terminated: bool,
    pending: seq<nat>,       // process.onTerminate, callbacks named by registration order
    registered: nat,         // callbacks stored or spawned so far
    once: Once,
    waiter: Waiter,
    panicked: bool)

  /** doneCh is closed by the last action of the waiting goroutine. */
  predicate DoneClosed(s: State) {
    s.waiter.Left?
  }

  /** What a job may do from its body. */
  datatype Action = Spawn(critical: bool) | Register | CallTerminate | Return(failed: bool)

  datatype Label =
    | Act(t: nat, action: Action)
    | Continue(t: nat)
    | OutsideSpawn(critical: bool)
    | Wake
    | CloseDone

  function Init(outside: nat): State {
    State(seq(outside, _ => Thread(External, false, Body)), 1, false, None, false, [], 0, Idle, Waiting, false)
  }

  // ---- What is counted ----

  function LiveCount(ts: seq<Thread>): nat {
    if ts == [] then 0 else LiveCount(ts[..|ts| - 1]) + (if ts[|ts| - 1].live then 1 else 0)
  }

  function CallbackOf(th: Thread): seq<nat> {
    if th.kind.Job? && th.kind.callback.Some? then [th.kind.callback.value] else []
  }

  /** The callbacks that were spawned, in the order in which they were spawned. */
  function Callbacks(ts: seq<Thread>): seq<nat> {
    if ts == [] then [] else Callbacks(ts[..|ts| - 1]) + CallbackOf(ts[|ts| - 1])
  }

  lemma {:induction false} UpdateThread(ts: seq<Thread>, t: nat, th: Thread)
    requires t < |ts| && th.kind == ts[t].kind
    ensures Callbacks(ts[t := th]) == Callbacks(ts)
    ensures LiveCount(ts[t := th]) + (if ts[t].live then 1 else 0) == LiveCount(ts) + (if th.live then 1 else 0)
  {
    var n := |ts| - 1;
    if t == n {
      assert ts[t := th][..n] == ts[..n];
    } else {
      UpdateThread(ts[..n], t, th);
      assert ts[t := th][..n] == ts[..n][t := th];
    }
  }

  lemma AppendThread(ts: seq<Thread>, th: Thread)
    ensures Callbacks(ts + [th]) == Callbacks(ts) + CallbackOf(th)
    ensures LiveCount(ts + [th]) == LiveCount(ts) + (if th.live then 1 else 0)
  {
    assert (ts + [th])[..|ts|] == ts;
  }

  lemma {:induction false} LiveThreadCounts(ts: seq<Thread>, t: nat)
    requires t < |ts| && ts[t].live
    ensures LiveCount(ts) > 0
  {
    if t < |ts| - 1 { LiveThreadCounts(ts[..|ts| - 1], t); }
  }

  lemma {:induction false} SomeLiveThread(ts: seq<Thread>) returns (t: nat)
    requires LiveCount(ts) > 0
    ensures t < |ts| && ts[t].live
  {
    if ts[|ts| - 1].live { t := |ts| - 1; } else { t := SomeLiveThread(ts[..|ts| - 1]); }
  }

  // ---- The actions ----

  predicate CanContinue(s: State, t: nat)
    requires t < |s.threads|
  {
    match s.threads[t].pc
    case Body => false
    case Exited(_) => false
    case RegisterWait => s.holder.None?
    case TermLock => s.holder.None?
    case OnceWait => !s.once.Running?
    case Returned(_) => s.threads[t].live
    case _ => true
  }

  predicate Enabled(s: State, l: Label) {
    match l
    case Act(t, a) =>
      t < |s.threads| && s.threads[t].pc.Body? && (s.threads[t].kind.External? ==> a.CallTerminate?)
    case Continue(t) => t < |s.threads| && CanContinue(s, t)
    case OutsideSpawn(_) => !s.mainReleased
    case Wake => s.waiter.Waiting? && s.counter == 0
    case CloseDone => s.waiter.Woken?
  }

  /** The threads after thread t moved to pc. */
  function Move(ts: seq<Thread>, t: nat, pc: Pc): seq<Thread>
    requires t < |ts|
  {
    ts[t := ts[t].(pc := pc)]
  }

  /** The goroutine started by spawn, already counted. */
  function NewJob(critical: bool, callback: Option<nat>): Thread {
    Thread(Job(critical, callback), true, Body)
  }

  /** Where a call of Terminate returns to: the body it was called from, or the end of a critical job. */
  function AfterTerminate(th: Thread): Pc {
    if th.kind.Job? && !th.live then Exited(true) else Body
  }

  predicate InRegister(pc: Pc) {
    pc.RegisterWait? || pc.RegisterLocked? || pc.RegisterChecked? || pc.RegisterUnlock?
  }

  predicate InOnce(pc: Pc) {
    pc.TermLock? || pc.TermLoop? || pc.TermUnlock? || pc.TermRelease? || pc.TermExit?
  }

  predicate InTerminate(pc: Pc) {
    pc.OnceWait? || InOnce(pc)
  }

  /** OnTerminate, lines 145 to 151. */
  function RegisterStep(s: State, t: nat): State
    requires t < |s.threads| && InRegister(s.threads[t].pc)
  {
    match s.threads[t].pc
    case RegisterWait => s.(threads := Move(s.threads, t, RegisterLocked), holder := Some(t))
    case RegisterLocked =>
      if !s.terminated then
        s.(threads := Move(s.threads, t, RegisterUnlock),
           pending := s.pending + [s.registered], registered := s.registered + 1)
      else if DoneClosed(s) then s.(panicked := true)
      else s.(threads := Move(s.threads, t, RegisterChecked))
    case RegisterChecked =>
      s.(threads := Move(s.threads, t, RegisterUnlock) + [NewJob(false, Some(s.registered))],
         counter := s.counter + 1, registered := s.registered + 1)
    case RegisterUnlock => s.(threads := Move(s.threads, t, Body), holder := None)
  }

  /** process.terminate, lines 93 to 104. */
  function TerminateStep(s: State, t: nat): State
    requires t < |s.threads| && InTerminate(s.threads[t].pc)
  {
    match s.threads[t].pc
    case OnceWait =>
      if s.once.Idle? then s.(threads := Move(s.threads, t, TermLock), once := Running(t))
      else s.(threads := Move(s.threads, t, AfterTerminate(s.threads[t])))
    case TermLock => s.(threads := Move(s.threads, t, TermLoop(0)), holder := Some(t), terminated := true)
    case TermLoop(i) =>
      if i < |s.pending| then
        s.(threads := Move(s.threads, t, TermLoop(i + 1)) + [NewJob(false, Some(s.pending[i]))],
           counter := s.counter + 1)
      else s.(threads := Move(s.threads, t, TermUnlock), pending := [])
    case TermUnlock => s.(threads := Move(s.threads, t, TermRelease), holder := None)
    case TermRelease =>
      s.(threads := Move(s.threads, t, TermExit), mainReleased := true,
         counter := s.counter - 1, panicked := s.panicked || s.counter <= 0)
    case TermExit => s.(threads := Move(s.threads, t, AfterTerminate(s.threads[t])), once := Finished)
  }

  /** SpawnJob after its check, and the goroutine started by spawn after DoJob, lines 79 to 90.
      A wait group panics when its counter becomes negative. */
  function JobStep(s: State, t: nat): State
    requires t < |s.threads| && CanContinue(s, t)
    requires !InRegister(s.threads[t].pc) && !InTerminate(s.threads[t].pc)
  {
    var th := s.threads[t];
    match th.pc
    case SpawnChecked(critical) =>
      s.(threads := Move(s.threads, t, Body) + [NewJob(critical, None)], counter := s.counter + 1)
    case Returned(failed) =>
      s.(threads := s.threads[t := Thread(th.kind, false, Released(failed))],
         counter := s.counter - 1, panicked := s.panicked || s.counter <= 0)
    case Released(failed) =>
      s.(threads := Move(s.threads, t, if failed && th.kind.Job? && th.kind.critical then OnceWait else Exited(failed)))
  }

  function ActStep(s: State, t: nat, a: Action): State
    requires t < |s.threads|
  {
    match a
    case Spawn(critical) =>
      if DoneClosed(s) then s.(panicked := true) else s.(threads := Move(s.threads, t, SpawnChecked(critical)))
    case Register => s.(threads := Move(s.threads, t, RegisterWait))
    case CallTerminate => s.(threads := Move(s.threads, t, OnceWait))
    case Return(failed) => s.(threads := Move(s.threads, t, Returned(failed)))
  }

  function Step(s: State, l: Label): State
    requires Enabled(s, l)
  {
    match l
    case Act(t, a) => ActStep(s, t, a)
    case Continue(t) =>
      if InRegister(s.threads[t].pc) then RegisterStep(s, t)
      else if InTerminate(s.threads[t].pc) then TerminateStep(s, t)
      else JobStep(s, t)
    case OutsideSpawn(critical) => s.(threads := s.threads + [NewJob(critical, None)], counter := s.counter + 1)
    case Wake => s.(waiter := Woken)
    case CloseDone => s.(waiter := Left)
  }

  predicate Runs(s: State, ls: seq<Label>)
    decreases ls
  {
    ls == [] || (Enabled(s, ls[0]) && Runs(Step(s, ls[0]), ls[1..]))
  }

  /** The state after an interleaving. */
  function Exec(s: State, ls: seq<Label>): State
    requires Runs(s, ls)
    decreases ls
  {
    if ls == [] then s else Exec(Step(s, ls[0]), ls[1..])
  }

  // ---- The invariant ----

  predicate InLock(pc: Pc) {
    pc.RegisterLocked? || pc.RegisterChecked? || pc.RegisterUnlock? || pc.TermLoop? || pc.TermUnlock?
  }

  /** Which program counters go with being counted, being external and having been released. */
  predicate Shape(th: Thread) {
    && (th.live ==> th.kind.Job? && !th.pc.Released? && !th.pc.Exited?)
    && (th.kind.External? ==> th.pc.Body? || InTerminate(th.pc))
    && (th.kind.Job? && !th.live ==>
          th.pc.Released? || th.pc.Exited? || (th.kind.critical && InTerminate(th.pc)))
  }

  predicate CriticalFailure(th: Thread) {
    th.pc == Exited(true) && th.kind.Job? && th.kind.critical
  }

  /** The mutex and once.Do have one owner each, and a critical job that ended with an error has
      seen termination through. */
  predicate ThreadOk(s: State, t: nat)
    requires t < |s.threads|
  {
    && Shape(s.threads[t])
    && (InLock(s.threads[t].pc) <==> s.holder == Some(t))
    && (InOnce(s.threads[t].pc) <==> s.once == Running(t))
    && (CriticalFailure(s.threads[t]) ==> s.once.Finished?)
    && (s.threads[t].pc.RegisterChecked? ==> s.terminated)
  }

  predicate Locks(s: State) {
    && (s.holder.Some? ==> s.holder.value < |s.threads|)
    && (s.once.Running? ==> s.once.owner < |s.threads|)
    && forall t :: 0 <= t < |s.threads| ==> ThreadOk(s, t)
  }

  /** How far termination has come: the program counter inside once.Do, if anybody is there. */
  function Phase(s: State): Pc
    requires Locks(s)
  {
    match s.once
    case Idle => OnceWait
    case Running(t) => s.threads[t].pc
    case Finished => TermExit
  }

  predicate Progress(s: State)
    requires Locks(s)
  {
    && (s.terminated <==> !Phase(s).OnceWait? && !Phase(s).TermLock?)
    && (s.mainReleased <==> Phase(s).TermExit?)
  }

  /** The wait counter is the number of running jobs, plus one until the main job is released. */
  predicate Accounting(s: State) {
    s.counter == LiveCount(s.threads) + (if s.mainReleased then 0 else 1)
  }

  /** How many of the registered callbacks have been spawned. */
  function SpawnedCallbacks(s: State): nat
    requires Locks(s)
  {
    match Phase(s)
    case OnceWait => 0
    case TermLock => 0
    case TermLoop(i) => i
    case _ => s.registered
  }

  /** Registered callbacks are spawned ones followed by pending ones, each once and in order. */
  predicate CallbacksOk(s: State)
    requires Locks(s)
  {
    && SpawnedCallbacks(s) <= s.registered
    && Callbacks(s.threads) == Range(SpawnedCallbacks(s))
    && s.pending == (if Phase(s).OnceWait? || Phase(s).TermLock? || Phase(s).TermLoop?
                     then Range(s.registered) else [])
  }

  predicate Completion(s: State) {
    && (!s.waiter.Waiting? ==> s.mainReleased && s.counter == 0)
    && !s.panicked
  }

  predicate Inv(s: State) {
    Locks(s) && Progress(s) && Accounting(s) && CallbacksOk(s) && Completion(s)
  }
}
