/** The Process object of lib/process.go with its fields, and its methods as they run when no other
    goroutine gets in between. Each one computes what the interleaved machine does when it schedules
    the same thread until the call returns. */
module ProcessObject {
  import opened Common
  import opened ProcessInvariant
  import opened ProcessMachine
  import opened ProcessRuns

  // ---- What a whole call does ----

  function CallbackJobs(callbacks: seq<nat>): seq<Thread> {
    if callbacks == [] then [] else [NewJob(false, Some(callbacks[0]))] + CallbackJobs(callbacks[1..])
  }

  /** Terminate: the first call spawns every stored callback and releases the main job, later ones
      do nothing. */
  function Terminated(s: State): State {
    if s.once.Finished? then s
    else s.(threads := s.threads + CallbackJobs(s.pending), counter := s.counter + |s.pending| - 1,
            mainReleased := true, terminated := true, pending := [], once := Finished)
  }

  /** OnTerminate: store the callback, or spawn it at once after termination. */
  function WithCallback(s: State): State {
    if s.terminated then
      s.(threads := s.threads + [NewJob(false, Some(s.registered))], counter := s.counter + 1,
         registered := s.registered + 1)
    else s.(pending := s.pending + [s.registered], registered := s.registered + 1)
  }

  function WithJob(s: State, critical: bool): State {
    s.(threads := s.threads + [NewJob(critical, None)], counter := s.counter + 1)
  }

  predicate FailsCritically(th: Thread, failed: bool) {
    failed && th.kind.Job? && th.kind.critical
  }

  /** A job returns: it is no longer counted, and a critical one that failed terminates the process. */
  function WithoutJob(s: State, t: nat, failed: bool): State
    requires t < |s.threads|
  {
    var r := Uncounted(s, t, failed);
    if FailsCritically(s.threads[t], failed) then Terminated(r) else r
  }

  /** Nobody is inside the mutex or inside once.Do, and t is a running job or a caller outside. */
  predicate Resting(s: State, t: nat) {
    && Inv(s) && s.holder.None? && !s.once.Running? && t < |s.threads| && s.threads[t].pc.Body?
    && (s.threads[t].live || s.threads[t].kind.External?)
  }

  /** The same with a running job. */
  predicate Idling(s: State, t: nat) {
    Resting(s, t) && s.threads[t].live
  }

  // ---- Scheduling one thread until its call returns ----

  /** s' is reached from s by n consecutive actions of thread t. */
  predicate Alone(s: State, s': State, t: nat, n: nat)
    decreases n
  {
    if n == 0 then s' == s
    else t < |s.threads| && CanContinue(s, t) && Alone(Step(s, Continue(t)), s', t, n - 1)
  }

  lemma {:induction false} AloneIsARun(s: State, s': State, t: nat, n: nat) returns (ls: seq<Label>)
    requires Alone(s, s', t, n)
    ensures Runs(s, ls) && Exec(s, ls) == s'
    ensures forall i :: 0 <= i < |ls| ==> ls[i] == Continue(t)
    decreases n
  {
    if n == 0 {
      ls := [];
    } else {
      var rest := AloneIsARun(Step(s, Continue(t)), s', t, n - 1);
      ls := [Continue(t)] + rest;
      assert ls[1..] == rest;
    }
  }

  /** One action, then n more. */
  lemma Then(s: State, s': State, t: nat, n: nat)
    requires t < |s.threads| && InTerminate(s.threads[t].pc) && CanContinue(s, t)
    requires Alone(TerminateStep(s, t), s', t, n)
    ensures Alone(s, s', t, n + 1)
  {
  }

  function Finish(s: State, t: nat): State
    requires t < |s.threads|
  {
    s.(threads := Move(s.threads, t, AfterTerminate(s.threads[t])), counter := s.counter - 1, mainReleased := true,
       holder := None, once := Finished)
  }

  /** Leaving the mutex, releasing the main job, leaving once.Do. */
  lemma AfterLoop(s: State, t: nat)
    requires t < |s.threads| && s.threads[t].pc == TermUnlock && s.counter > 0
    ensures Alone(s, Finish(s, t), t, 3)
  {
    var s1 := s.(threads := Move(s.threads, t, TermRelease), holder := None);
    var s2 := s1.(threads := Move(s1.threads, t, TermExit), mainReleased := true, counter := s.counter - 1);
    assert Finish(s, t).threads == Move(s2.threads, t, AfterTerminate(s2.threads[t]));
    assert TerminateStep(s2, t) == Finish(s, t);
    Then(s2, Finish(s, t), t, 0);
    assert TerminateStep(s1, t) == s2;
    Then(s1, Finish(s, t), t, 1);
    assert TerminateStep(s, t) == s1;
    Then(s, Finish(s, t), t, 2);
  }

  /** What is left to do at position i of the callback loop. */
  function LoopDone(s: State, t: nat, i: nat): State
    requires t < |s.threads| && i <= |s.pending|
  {
    s.(threads := Move(s.threads, t, AfterTerminate(s.threads[t])) + CallbackJobs(s.pending[i..]),
       counter := s.counter + |s.pending| - i - 1, mainReleased := true, holder := None, pending := [], once := Finished)
  }

  lemma LoopTurn(s: State, t: nat, i: nat)
    requires t < |s.threads| && s.threads[t].pc == TermLoop(i) && i < |s.pending|
    ensures var s1 := TerminateStep(s, t);
      && t < |s1.threads| && s1.threads[t].pc == TermLoop(i + 1) && s1.pending == s.pending && s1.counter == s.counter + 1
      && LoopDone(s1, t, i + 1) == LoopDone(s, t, i)
  {
    var s1 := TerminateStep(s, t);
    assert s.pending[i..][1..] == s.pending[i + 1..];
    assert LoopDone(s1, t, i + 1).threads == LoopDone(s, t, i).threads;
  }

  lemma LoopExit(s: State, t: nat)
    requires t < |s.threads| && s.threads[t].pc == TermLoop(|s.pending|)
    ensures var s1 := TerminateStep(s, t);
      && t < |s1.threads| && s1.threads[t].pc == TermUnlock && s1.counter == s.counter
      && Finish(s1, t) == LoopDone(s, t, |s.pending|)
  {
    var s1 := TerminateStep(s, t);
    assert s.pending[|s.pending|..] == [];
    assert Finish(s1, t).threads == LoopDone(s, t, |s.pending|).threads;
  }

  /** The callback loop and what follows it. */
  lemma {:induction false} CallbackLoop(s: State, t: nat, i: nat)
    requires t < |s.threads| && s.threads[t].pc == TermLoop(i) && i <= |s.pending| && s.counter > 0
    ensures Alone(s, LoopDone(s, t, i), t, |s.pending| - i + 4)
    decreases |s.pending| - i
  {
    if i < |s.pending| {
      LoopTurn(s, t, i);
      CallbackLoop(TerminateStep(s, t), t, i + 1);
    } else {
      LoopExit(s, t);
      AfterLoop(TerminateStep(s, t), t);
    }
    Then(s, LoopDone(s, t, i), t, |s.pending| - i + 3);
  }

  /** How many actions a call of Terminate takes when nobody interferes. */
  function TerminateActions(s: State): nat {
    if s.once.Finished? then 1 else |s.pending| + 6
  }

  /** The state in which t is at once.Do. */
  function AtOnce(s: State, t: nat): State
    requires t < |s.threads|
  {
    s.(threads := Move(s.threads, t, OnceWait))
  }

  lemma LaterCall(s: State, t: nat)
    requires t < |s.threads| && s.threads[t].pc == AfterTerminate(s.threads[t]) && s.once.Finished?
    ensures Alone(AtOnce(s, t), s, t, 1)
  {
    assert TerminateStep(AtOnce(s, t), t).threads == s.threads;
    Then(AtOnce(s, t), s, t, 0);
  }

  /** From once.Do on, the call ends in Terminated(s), back where it was called from. */
  lemma FirstCall(s: State, t: nat)
    requires t < |s.threads| && s.threads[t].pc == AfterTerminate(s.threads[t])
    requires s.once.Idle? && s.holder.None? && s.counter > 0
    ensures Alone(AtOnce(s, t), Terminated(s), t, |s.pending| + 6)
  {
    var s0 := AtOnce(s, t);
    var s1 := s.(threads := Move(s.threads, t, TermLock), once := Running(t));
    assert s1.threads == Move(s0.threads, t, TermLock);
    assert TerminateStep(s0, t) == s1;
    var s2 := s.(threads := Move(s.threads, t, TermLoop(0)), once := Running(t), holder := Some(t), terminated := true);
    assert s2.threads == Move(s1.threads, t, TermLoop(0));
    assert TerminateStep(s1, t) == s2;
    LoopToEnd(s, s2, t);
    Then(s1, Terminated(s), t, |s.pending| + 4);
    Then(s0, Terminated(s), t, |s.pending| + 5);
  }

  lemma LoopToEnd(s: State, s2: State, t: nat)
    requires t < |s.threads| && s.threads[t].pc == AfterTerminate(s.threads[t])
    requires s.once.Idle? && s.holder.None? && s.counter > 0
    requires s2 == s.(threads := Move(s.threads, t, TermLoop(0)), once := Running(t), holder := Some(t), terminated := true)
    ensures Alone(s2, Terminated(s), t, |s.pending| + 4)
  {
    assert s.pending[0..] == s.pending;
    assert Terminated(s).threads == LoopDone(s2, t, 0).threads;
    CallbackLoop(s2, t, 0);
  }

  /** A call of Terminate that is not interrupted ends in Terminated(s). */
  lemma TerminateAlone(s: State, t: nat)
    requires Resting(s, t)
    ensures Alone(ActStep(s, t, CallTerminate), Terminated(s), t, TerminateActions(s))
  {
    assert ThreadOk(s, t);
    if s.once.Finished? { LaterCall(s, t); } else { FirstCall(s, t); }
  }

  /** A call of OnTerminate that is not interrupted ends in WithCallback(s). */
  lemma OnTerminateAlone(s: State, t: nat)
    requires Idling(s, t)
    ensures Alone(ActStep(s, t, Register), WithCallback(s), t, if s.terminated then 4 else 3)
  {
    assert ThreadOk(s, t);
    LiveThreadCounts(s.threads, t);
    var s0 := ActStep(s, t, Register);
    var s1 := s.(threads := Move(s.threads, t, RegisterLocked), holder := Some(t));
    assert RegisterStep(s0, t).threads == s1.threads;
    assert !DoneClosed(s);
    if s.terminated {
      var s2 := s.(threads := Move(s.threads, t, RegisterChecked), holder := Some(t));
      assert RegisterStep(s1, t).threads == s2.threads;
      var s3 := RegisterStep(s2, t);
      assert RegisterStep(s3, t).threads == WithCallback(s).threads;
      assert Alone(s3, WithCallback(s), t, 1);
      assert Alone(s2, WithCallback(s), t, 2);
      assert Alone(s1, WithCallback(s), t, 3);
    } else {
      var s2 := RegisterStep(s1, t);
      assert RegisterStep(s2, t).threads == WithCallback(s).threads;
      assert Alone(s2, WithCallback(s), t, 1);
      assert Alone(s1, WithCallback(s), t, 2);
    }
  }

  /** A call of SpawnJob that is not interrupted ends in WithJob(s). */
  lemma SpawnAlone(s: State, t: nat, critical: bool)
    requires Idling(s, t)
    ensures Alone(ActStep(s, t, Spawn(critical)), WithJob(s, critical), t, 1)
  {
    LiveThreadCounts(s.threads, t);
    var s0 := s.(threads := Move(s.threads, t, SpawnChecked(critical)));
    assert ActStep(s, t, Spawn(critical)) == s0;
    assert JobStep(s0, t).threads == WithJob(s, critical).threads;
    assert Alone(WithJob(s, critical), WithJob(s, critical), t, 0);
  }

  /** From the return of DoJob to jobs.Done(). */
  lemma ReleaseAlone(s: State, s': State, t: nat, failed: bool, n: nat)
    requires t < |s.threads| && s.threads[t].pc == Returned(failed) && s.threads[t].live && s.counter > 0
    requires Alone(Step(s.(threads := s.threads[t := Thread(s.threads[t].kind, false, Released(failed))],
                           counter := s.counter - 1), Continue(t)), s', t, n)
    ensures Alone(s, s', t, n + 2)
  {
    var s1 := s.(threads := s.threads[t := Thread(s.threads[t].kind, false, Released(failed))], counter := s.counter - 1);
    assert Step(s, Continue(t)) == s1;
    assert Alone(s1, s', t, n + 1);
  }

  /** The job once it is no longer counted, after its last look at err and critical. */
  function Uncounted(s: State, t: nat, failed: bool): State
    requires t < |s.threads|
  {
    s.(threads := s.threads[t := Thread(s.threads[t].kind, false, Exited(failed))], counter := s.counter - 1)
  }

  lemma LastLook(s: State, t: nat, failed: bool)
    requires t < |s.threads| && s.threads[t].kind.Job?
    ensures var s1 := s.(threads := s.threads[t := Thread(s.threads[t].kind, false, Released(failed))],
                         counter := s.counter - 1);
      Step(s1, Continue(t)) == if FailsCritically(s.threads[t], failed) then AtOnce(Uncounted(s, t, failed), t)
                               else Uncounted(s, t, failed)
  {
    var s1 := s.(threads := s.threads[t := Thread(s.threads[t].kind, false, Released(failed))], counter := s.counter - 1);
    assert Step(s1, Continue(t)).threads
        == if FailsCritically(s.threads[t], failed) then AtOnce(Uncounted(s, t, failed), t).threads
           else Uncounted(s, t, failed).threads;
  }

  /** A job that returns, and is not interrupted on its way out, leaves WithoutJob(s). */
  lemma ReturnAlone(s: State, t: nat, failed: bool) returns (n: nat)
    requires Idling(s, t)
    ensures Alone(ActStep(s, t, Return(failed)), WithoutJob(s, t, failed), t, n)
  {
    assert ThreadOk(s, t);
    LiveThreadCounts(s.threads, t);
    var r, s0 := Uncounted(s, t, failed), ActStep(s, t, Return(failed));
    LastLook(s, t, failed);
    assert s0.threads[t := Thread(s.threads[t].kind, false, Released(failed))]
        == s.threads[t := Thread(s.threads[t].kind, false, Released(failed))];
    n := 0;
    if FailsCritically(s.threads[t], failed) {
      if s.once.Finished? { LaterCall(r, t); } else { FirstCall(r, t); }
      n := TerminateActions(r);
    }
    ReleaseAlone(s0, WithoutJob(s, t, failed), t, failed, n);
    n := n + 2;
  }

  lemma AloneInv(s: State, s': State, t: nat, n: nat)
    requires Inv(s) && Alone(s, s', t, n)
    ensures Inv(s')
  {
    var ls := AloneIsARun(s, s', t, n);
    RunsInv(s, ls);
  }

  /** All these calls keep the invariant of the machine. */
  lemma TerminatedInv(s: State, t: nat)
    requires Resting(s, t)
    ensures Inv(Terminated(s))
  {
    TerminateAlone(s, t);
    ActInv(s, t, CallTerminate);
    AloneInv(ActStep(s, t, CallTerminate), Terminated(s), t, TerminateActions(s));
  }

  lemma WithCallbackInv(s: State, t: nat)
    requires Idling(s, t)
    ensures Inv(WithCallback(s))
  {
    assert ThreadOk(s, t);
    OnTerminateAlone(s, t);
    ActInv(s, t, Register);
    AloneInv(ActStep(s, t, Register), WithCallback(s), t, if s.terminated then 4 else 3);
  }

  lemma WithJobInv(s: State, t: nat, critical: bool)
    requires Idling(s, t)
    ensures Inv(WithJob(s, critical))
  {
    assert ThreadOk(s, t);
    SpawnAlone(s, t, critical);
    ActInv(s, t, Spawn(critical));
    AloneInv(ActStep(s, t, Spawn(critical)), WithJob(s, critical), t, 1);
  }

  lemma WithoutJobInv(s: State, t: nat, failed: bool)
    requires Idling(s, t)
    ensures Inv(WithoutJob(s, t, failed))
  {
    assert ThreadOk(s, t);
    var n := ReturnAlone(s, t, failed);
    ActInv(s, t, Return(failed));
    AloneInv(ActStep(s, t, Return(failed)), WithoutJob(s, t, failed), t, n);
  }

  // ---- The object ----

  class Process {
    var threads: seq<Thread>
    var jobs: int
    var mainReleased: bool
    var terminated: bool
    var onTerminate: seq<nat>
    var registered: nat
    var once: Once
    var doneWaiter: Waiter

    /** The object between two calls: nobody holds the mutex. */
    ghost function Snapshot(): State
      reads this
    {
      State(threads, jobs, mainReleased, None, terminated, onTerminate, registered, once, doneWaiter, false)
    }

    /** outside: how many callers there are that are not jobs. */
    constructor (outside: nat)
      ensures Snapshot() == Init(outside) && Inv(Snapshot())
    {
      threads, jobs, mainReleased, terminated := Init(outside).threads, 1, false, false;
      onTerminate, registered, once, doneWaiter := [], 0, Idle, Waiting;
      new;
      InitInv(outside);
    }

    /** SpawnJob and SpawnCriticalJob, called by job t; returns the new job. */
    method SpawnJob(t: nat, critical: bool) returns (job: nat)
      requires Idling(Snapshot(), t)
      modifies this
      ensures Snapshot() == WithJob(old(Snapshot()), critical) && Inv(Snapshot())
      ensures job == |old(threads)|
    {
      WithJobInv(Snapshot(), t, critical);
      job := |threads|;
      threads, jobs := threads + [NewJob(critical, None)], jobs + 1;
    }

    /** The goroutine of job t after DoJob. */
    method JobReturned(t: nat, failed: bool)
      requires Idling(Snapshot(), t)
      modifies this
      ensures Snapshot() == WithoutJob(old(Snapshot()), t, failed) && Inv(Snapshot())
    {
      WithoutJobInv(Snapshot(), t, failed);
      var critical := threads[t].kind.Job? && threads[t].kind.critical;
      threads, jobs := threads[t := Thread(threads[t].kind, false, Exited(failed))], jobs - 1;
      if failed && critical { RunOnce(); }
    }

    /** The body of Terminate behind once.Do. */
    method RunOnce()
      modifies this
      ensures Snapshot() == Terminated(old(Snapshot()))
    {
      if !once.Finished? {
        terminated := true;
        SpawnCallbacks();
        onTerminate := [];
        jobs, mainReleased := jobs - 1, true;
        once := Finished;
      }
    }

    /** Returns the identity of the registered callback. */
    method OnTerminate(t: nat) returns (callback: nat)
      requires Idling(Snapshot(), t)
      modifies this
      ensures Snapshot() == WithCallback(old(Snapshot())) && Inv(Snapshot())
      ensures callback == old(registered)
    {
      WithCallbackInv(Snapshot(), t);
      callback := registered;
      if terminated {
        threads, jobs := threads + [NewJob(false, Some(callback))], jobs + 1;
      } else {
        onTerminate := onTerminate + [callback];
      }
      registered := registered + 1;
    }

    method SpawnCallbacks()
      modifies this`threads, this`jobs
      ensures threads == old(threads) + CallbackJobs(onTerminate) && jobs == old(jobs) + |onTerminate|
    {
      ghost var all := threads + CallbackJobs(onTerminate);
      var i := 0;
      while i < |onTerminate|
        invariant 0 <= i <= |onTerminate| && jobs == old(jobs) + i
        invariant threads + CallbackJobs(onTerminate[i..]) == all
      {
        assert onTerminate[i..][1..] == onTerminate[i + 1..];
        threads, jobs := threads + [NewJob(false, Some(onTerminate[i]))], jobs + 1;
        i := i + 1;
      }
    }

    method Terminate(t: nat)
      requires Resting(Snapshot(), t)
      modifies this
      ensures Snapshot() == Terminated(old(Snapshot())) && Inv(Snapshot())
    {
      TerminatedInv(Snapshot(), t);
      RunOnce();
    }
  }
}
