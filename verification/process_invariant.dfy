/** Every action of every goroutine keeps the invariant of the process (lib/process.go). */
module ProcessInvariant {
  import opened Common
  import opened ProcessMachine

  /** What an action by thread t may do to the thread list: move t and start new jobs. */
  predicate Moves(s: State, s': State, t: nat)
    requires t < |s.threads|
  {
    && |s.threads| <= |s'.threads|
    && s'.threads[t].kind == s.threads[t].kind
    && (forall u :: 0 <= u < |s.threads| && u != t ==> s'.threads[u] == s.threads[u])
    && (forall u :: |s.threads| <= u < |s'.threads| ==>
          s'.threads[u].live && s'.threads[u].kind.Job? && s'.threads[u].pc.Body?)
  }

  /** Locking is a matter of the moving thread alone when it touches mutex and once only for itself. */
  lemma MoveKeepsLocks(s: State, s': State, t: nat)
    requires Locks(s) && t < |s.threads| && Moves(s, s', t)
    requires s'.holder == s.holder || (s.holder in {None, Some(t)} && s'.holder in {None, Some(t)})
    requires s'.once == s.once || (s.once in {Idle, Running(t)} && s'.once in {Finished, Running(t)})
    requires s.terminated ==> s'.terminated
    requires ThreadOk(s', t)
    ensures Locks(s')
  {
    forall u | 0 <= u < |s'.threads| ensures ThreadOk(s', u) {
      if u < |s.threads| { assert ThreadOk(s, u); }
    }
  }

  lemma ActShape(s: State, t: nat, a: Action)
    requires t < |s.threads|
    ensures var s' := ActStep(s, t, a);
      && |s'.threads| == |s.threads| && s'.threads == s.threads[t := s.threads[t].(pc := s'.threads[t].pc)]
      && s'.holder == s.holder && s'.once == s.once && s'.terminated == s.terminated && s'.mainReleased == s.mainReleased
    ensures var pc, pc' := s.threads[t].pc, ActStep(s, t, a).threads[t].pc;
      if a.CallTerminate? then pc'.OnceWait?
      else pc' == pc || pc'.SpawnChecked? || pc'.RegisterWait? || pc'.Returned?
  {
  }

  lemma ActLocks(s: State, t: nat, a: Action)
    requires Locks(s) && Progress(s) && Enabled(s, Act(t, a))
    ensures var s' := ActStep(s, t, a); Locks(s') && Progress(s')
  {
    assert ThreadOk(s, t);
    ActShape(s, t, a);
    MoveKeepsLocks(s, ActStep(s, t, a), t);
  }

  lemma RegisterLocks(s: State, t: nat)
    requires Locks(s) && Progress(s) && Enabled(s, Continue(t)) && InRegister(s.threads[t].pc)
    ensures Locks(RegisterStep(s, t)) && Progress(RegisterStep(s, t))
  {
    assert ThreadOk(s, t);
    MoveKeepsLocks(s, RegisterStep(s, t), t);
  }

  lemma TerminateLocks(s: State, t: nat)
    requires Locks(s) && Progress(s) && Enabled(s, Continue(t)) && InTerminate(s.threads[t].pc)
    ensures Locks(TerminateStep(s, t)) && Progress(TerminateStep(s, t))
  {
    assert ThreadOk(s, t);
    MoveKeepsLocks(s, TerminateStep(s, t), t);
  }

  lemma JobLocks(s: State, t: nat)
    requires Locks(s) && Progress(s) && Enabled(s, Continue(t))
    requires !InRegister(s.threads[t].pc) && !InTerminate(s.threads[t].pc)
    ensures Locks(JobStep(s, t)) && Progress(JobStep(s, t))
  {
    assert ThreadOk(s, t);
    MoveKeepsLocks(s, JobStep(s, t), t);
  }

  lemma OtherLocks(s: State, l: Label)
    requires Locks(s) && Progress(s) && Enabled(s, l) && !l.Act? && !l.Continue?
    ensures Locks(Step(s, l)) && Progress(Step(s, l))
  {
    var s' := Step(s, l);
    forall u | 0 <= u < |s'.threads| ensures ThreadOk(s', u) { if u < |s.threads| { assert ThreadOk(s, u); } }
  }

  /** Moving a thread and starting jobs, seen through the two counts. */
  lemma MoveCounts(ts: seq<Thread>, t: nat, th: Thread, extra: Thread)
    requires t < |ts| && th.kind == ts[t].kind
    ensures var moved := ts[t := th];
      && Callbacks(moved) == Callbacks(ts)
      && Callbacks(moved + [extra]) == Callbacks(ts) + CallbackOf(extra)
      && LiveCount(moved + [extra]) == LiveCount(moved) + (if extra.live then 1 else 0)
      && LiveCount(moved) + (if ts[t].live then 1 else 0) == LiveCount(ts) + (if th.live then 1 else 0)
  {
    UpdateThread(ts, t, th);
    AppendThread(ts[t := th], extra);
  }

  lemma ActCounts(s: State, t: nat, a: Action)
    requires Inv(s) && Enabled(s, Act(t, a))
    ensures var s' := ActStep(s, t, a); Accounting(s') && !s'.panicked && Callbacks(s'.threads) == Callbacks(s.threads)
  {
    UpdateThread(s.threads, t, ActStep(s, t, a).threads[t]);
    assert ThreadOk(s, t);
    if a.Spawn? { LiveThreadCounts(s.threads, t); }
  }

  lemma JobCounts(s: State, t: nat)
    requires Inv(s) && Enabled(s, Continue(t))
    requires !InRegister(s.threads[t].pc) && !InTerminate(s.threads[t].pc)
    ensures var s' := JobStep(s, t); Accounting(s') && !s'.panicked && Callbacks(s'.threads) == Callbacks(s.threads)
  {
    assert ThreadOk(s, t);
    MoveCounts(s.threads, t, JobStep(s, t).threads[t],
               NewJob(s.threads[t].pc.SpawnChecked? && s.threads[t].pc.critical, None));
    if s.threads[t].live { LiveThreadCounts(s.threads, t); }
  }

  /** OnTerminate spawns its callback itself after termination. */
  lemma LateShape(s: State, t: nat)
    requires t < |s.threads| && s.threads[t].pc.RegisterChecked?
    ensures var s' := RegisterStep(s, t);
      && s'.threads == s.threads[t := s.threads[t].(pc := RegisterUnlock)] + [NewJob(false, Some(s.registered))]
      && s'.counter == s.counter + 1 && s'.mainReleased == s.mainReleased && s'.panicked == s.panicked
  {
  }

  lemma LateAccounting(s: State, t: nat)
    requires Accounting(s) && !s.panicked && t < |s.threads| && s.threads[t].pc.RegisterChecked?
    ensures var s' := RegisterStep(s, t); Accounting(s') && !s'.panicked
    ensures Callbacks(RegisterStep(s, t).threads) == Callbacks(s.threads) + [s.registered]
  {
    LateShape(s, t);
    MoveCounts(s.threads, t, s.threads[t].(pc := RegisterUnlock), NewJob(false, Some(s.registered)));
  }

  lemma PlainShape(s: State, t: nat)
    requires t < |s.threads| && InRegister(s.threads[t].pc) && !s.threads[t].pc.RegisterChecked? && s.waiter.Waiting?
    ensures var s' := RegisterStep(s, t);
      && t < |s'.threads| && s'.threads == s.threads[t := s.threads[t].(pc := s'.threads[t].pc)]
      && s'.counter == s.counter && s'.mainReleased == s.mainReleased && s'.panicked == s.panicked
  {
  }

  lemma RegisterAccounting(s: State, t: nat)
    requires Inv(s) && Enabled(s, Continue(t)) && InRegister(s.threads[t].pc)
    ensures var s' := RegisterStep(s, t); Accounting(s') && !s'.panicked
    ensures Callbacks(RegisterStep(s, t).threads)
         == Callbacks(s.threads) + (if s.threads[t].pc.RegisterChecked? then [s.registered] else [])
  {
    assert ThreadOk(s, t);
    LiveKeepsWaiting(s, t);
    if s.threads[t].pc.RegisterChecked? {
      LateAccounting(s, t);
    } else {
      PlainShape(s, t);
      UpdateThread(s.threads, t, RegisterStep(s, t).threads[t]);
    }
  }

  /** One turn of the callback loop. */
  lemma LoopShape(s: State, t: nat)
    requires t < |s.threads| && s.threads[t].pc.TermLoop? && s.threads[t].pc.next < |s.pending|
    ensures var s' := TerminateStep(s, t); var i := s.threads[t].pc.next;
      && s'.threads == s.threads[t := s.threads[t].(pc := TermLoop(i + 1))] + [NewJob(false, Some(s.pending[i]))]
      && s'.counter == s.counter + 1 && s'.mainReleased == s.mainReleased && s'.panicked == s.panicked
  {
  }

  lemma LoopAccounting(s: State, t: nat)
    requires Accounting(s) && !s.panicked && t < |s.threads|
    requires s.threads[t].pc.TermLoop? && s.threads[t].pc.next < |s.pending|
    ensures var s' := TerminateStep(s, t); Accounting(s') && !s'.panicked
    ensures Callbacks(TerminateStep(s, t).threads) == Callbacks(s.threads) + [s.pending[s.threads[t].pc.next]]
  {
    LoopShape(s, t);
    var i := s.threads[t].pc.next;
    MoveCounts(s.threads, t, s.threads[t].(pc := TermLoop(i + 1)), NewJob(false, Some(s.pending[i])));
  }

  lemma PlainAccounting(s: State, t: nat)
    requires Inv(s) && Enabled(s, Continue(t)) && InTerminate(s.threads[t].pc)
    requires !(s.threads[t].pc.TermLoop? && s.threads[t].pc.next < |s.pending|)
    ensures var s' := TerminateStep(s, t); Accounting(s') && !s'.panicked
    ensures Callbacks(TerminateStep(s, t).threads) == Callbacks(s.threads)
  {
    assert ThreadOk(s, t);
    UpdateThread(s.threads, t, TerminateStep(s, t).threads[t]);
  }

  lemma TerminateAccounting(s: State, t: nat)
    requires Inv(s) && Enabled(s, Continue(t)) && InTerminate(s.threads[t].pc)
    ensures var s' := TerminateStep(s, t); Accounting(s') && !s'.panicked
    ensures var pc := s.threads[t].pc;
      Callbacks(TerminateStep(s, t).threads)
      == Callbacks(s.threads) + (if pc.TermLoop? && pc.next < |s.pending| then [s.pending[pc.next]] else [])
  {
    var pc := s.threads[t].pc;
    if pc.TermLoop? && pc.next < |s.pending| { LoopAccounting(s, t); } else { PlainAccounting(s, t); }
  }

  /** A job that is still counted keeps the waiting goroutine waiting. */
  lemma LiveKeepsWaiting(s: State, t: nat)
    requires Inv(s) && t < |s.threads| && s.threads[t].live
    ensures s.waiter.Waiting? && s.counter > 0
  {
    LiveThreadCounts(s.threads, t);
  }

  // What the callbacks depend on, one lemma for each way in which it may change.

  lemma PhaseFrame(s: State, s': State, t: nat)
    requires Locks(s) && Locks(s') && t < |s.threads| && Moves(s, s', t) && s'.once == s.once && s.once != Running(t)
    ensures Phase(s') == Phase(s)
  {
  }

  lemma CallbacksFrame(s: State, s': State)
    requires Locks(s) && Locks(s') && CallbacksOk(s) && Phase(s') == Phase(s)
    requires s'.registered == s.registered && s'.pending == s.pending && Callbacks(s'.threads) == Callbacks(s.threads)
    ensures CallbacksOk(s')
  {
  }

  /** A callback is stored while none has been spawned yet. */
  lemma CallbackPends(s: State, s': State)
    requires Locks(s) && Locks(s') && CallbacksOk(s) && Phase(s') == Phase(s) && (Phase(s).OnceWait? || Phase(s).TermLock?)
    requires s'.registered == s.registered + 1 && s'.pending == s.pending + [s.registered]
    requires Callbacks(s'.threads) == Callbacks(s.threads)
    ensures CallbacksOk(s')
  {
  }

  /** A callback is spawned after all earlier ones were. */
  lemma CallbackFollows(s: State, s': State)
    requires Locks(s) && Locks(s') && CallbacksOk(s) && Phase(s') == Phase(s)
    requires !Phase(s).OnceWait? && !Phase(s).TermLock? && !Phase(s).TermLoop?
    requires s'.registered == s.registered + 1 && s'.pending == s.pending
    requires Callbacks(s'.threads) == Callbacks(s.threads) + [s.registered]
    ensures CallbacksOk(s')
  {
  }

  /** The next pending callback is spawned. */
  lemma CallbackSpawned(s: State, s': State)
    requires Locks(s) && Locks(s') && CallbacksOk(s) && Phase(s).TermLoop? && Phase(s).next < |s.pending|
    requires Phase(s') == TermLoop(Phase(s).next + 1) && s'.registered == s.registered && s'.pending == s.pending
    requires Callbacks(s'.threads) == Callbacks(s.threads) + [s.pending[Phase(s).next]]
    ensures CallbacksOk(s')
  {
    var i := Phase(s).next;
    assert s.pending == Range(s.registered) && s.pending[i] == i;
    assert Callbacks(s'.threads) == Range(i + 1);
  }

  /** OnTerminate runs entirely before the callbacks are spawned or entirely after. */
  lemma RegisterPhase(s: State, t: nat)
    requires Locks(s) && Progress(s) && Enabled(s, Continue(t)) && InRegister(s.threads[t].pc)
    ensures Locks(RegisterStep(s, t)) && Phase(RegisterStep(s, t)) == Phase(s)
    ensures InLock(s.threads[t].pc) ==> !Phase(s).TermLoop? && !Phase(s).TermUnlock?
  {
    RegisterLocks(s, t);
    assert ThreadOk(s, t);
    if s.once.Running? { assert ThreadOk(s, s.once.owner); }
  }

  /** What one action inside OnTerminate does to the callbacks. */
  lemma RegisterEffect(s: State, t: nat)
    requires Locks(s) && Progress(s) && Enabled(s, Continue(t)) && InRegister(s.threads[t].pc)
    ensures var s' := RegisterStep(s, t); var pc := s.threads[t].pc;
      && s'.registered == s.registered + (if pc.RegisterChecked? || (pc.RegisterLocked? && !s.terminated) then 1 else 0)
      && s'.pending == s.pending + (if pc.RegisterLocked? && !s.terminated then [s.registered] else [])
      && s'.waiter == s.waiter
    ensures s.threads[t].pc.RegisterChecked? ==> s.terminated
  {
    assert ThreadOk(s, t);
    assert s.pending + [] == s.pending;
  }

  lemma RegisterCallbacks(s: State, t: nat)
    requires Inv(s) && Enabled(s, Continue(t)) && InRegister(s.threads[t].pc)
    ensures Locks(RegisterStep(s, t)) && CallbacksOk(RegisterStep(s, t))
  {
    RegisterPhase(s, t);
    RegisterAccounting(s, t);
    RegisterEffect(s, t);
    var pc := s.threads[t].pc;
    if pc.RegisterChecked? { CallbackFollows(s, RegisterStep(s, t)); }
    else if pc.RegisterLocked? && !s.terminated { CallbackPends(s, RegisterStep(s, t)); }
    else { CallbacksFrame(s, RegisterStep(s, t)); }
  }

  /** The phase after the given one. */
  function NextPhase(s: State, pc: Pc): Pc {
    match pc
    case TermLock => TermLoop(0)
    case TermLoop(i) => if i < |s.pending| then TermLoop(i + 1) else TermUnlock
    case TermUnlock => TermRelease
    case _ => TermExit
  }

  /** Termination enters its next phase, or a later call leaves it as it is. */
  lemma TerminatePhase(s: State, t: nat)
    requires Locks(s) && Progress(s) && Enabled(s, Continue(t)) && InTerminate(s.threads[t].pc)
    ensures Locks(TerminateStep(s, t))
    ensures s.threads[t].pc.OnceWait? ==> Phase(TerminateStep(s, t)) == if s.once.Idle? then TermLock else Phase(s)
    ensures !s.threads[t].pc.OnceWait? ==>
              Phase(s) == s.threads[t].pc && Phase(TerminateStep(s, t)) == NextPhase(s, Phase(s))
  {
    TerminateLocks(s, t);
    assert ThreadOk(s, t);
    if s.once.Running? && s.once.owner != t { assert ThreadOk(s, s.once.owner); }
  }

  lemma TerminateEffect(s: State, t: nat)
    requires t < |s.threads| && InTerminate(s.threads[t].pc)
    ensures var s' := TerminateStep(s, t); var pc := s.threads[t].pc;
      && s'.registered == s.registered && s'.waiter == s.waiter
      && s'.pending == (if pc.TermLoop? && pc.next >= |s.pending| then [] else s.pending)
  {
  }

  /** The loop spawns the next callback. */
  lemma LoopCallbacks(s: State, t: nat)
    requires Inv(s) && Enabled(s, Continue(t)) && s.threads[t].pc.TermLoop? && s.threads[t].pc.next < |s.pending|
    ensures Locks(TerminateStep(s, t)) && CallbacksOk(TerminateStep(s, t))
  {
    TerminatePhase(s, t);
    TerminateEffect(s, t);
    LoopAccounting(s, t);
    CallbackSpawned(s, TerminateStep(s, t));
  }

  lemma OtherPhases(s: State, t: nat)
    requires Inv(s) && Enabled(s, Continue(t)) && InTerminate(s.threads[t].pc)
    requires !(s.threads[t].pc.TermLoop? && s.threads[t].pc.next < |s.pending|)
    ensures Locks(TerminateStep(s, t)) && CallbacksOk(TerminateStep(s, t))
  {
    TerminatePhase(s, t);
    TerminateEffect(s, t);
    PlainAccounting(s, t);
  }

  lemma TerminateCallbacks(s: State, t: nat)
    requires Inv(s) && Enabled(s, Continue(t)) && InTerminate(s.threads[t].pc)
    ensures Locks(TerminateStep(s, t)) && CallbacksOk(TerminateStep(s, t))
  {
    var pc := s.threads[t].pc;
    if pc.TermLoop? && pc.next < |s.pending| { LoopCallbacks(s, t); } else { OtherPhases(s, t); }
  }

  lemma JobEffect(s: State, t: nat)
    requires Locks(s) && Enabled(s, Continue(t)) && !InRegister(s.threads[t].pc) && !InTerminate(s.threads[t].pc)
    ensures var s' := JobStep(s, t);
      && Moves(s, s', t) && s'.once == s.once && s.once != Running(t)
      && s'.registered == s.registered && s'.pending == s.pending && s'.waiter == s.waiter
  {
    assert ThreadOk(s, t);
  }

  lemma JobCallbacks(s: State, t: nat)
    requires Inv(s) && Enabled(s, Continue(t))
    requires !InRegister(s.threads[t].pc) && !InTerminate(s.threads[t].pc)
    ensures Locks(JobStep(s, t)) && CallbacksOk(JobStep(s, t))
  {
    JobLocks(s, t);
    JobCounts(s, t);
    JobEffect(s, t);
    PhaseFrame(s, JobStep(s, t), t);
    CallbacksFrame(s, JobStep(s, t));
  }

  lemma ActEffect(s: State, t: nat, a: Action)
    requires Locks(s) && Enabled(s, Act(t, a))
    ensures var s' := ActStep(s, t, a);
      && Moves(s, s', t) && s'.once == s.once && s.once != Running(t)
      && s'.registered == s.registered && s'.pending == s.pending && s'.waiter == s.waiter
  {
    assert ThreadOk(s, t);
  }

  lemma ActCallbacks(s: State, t: nat, a: Action)
    requires Inv(s) && Enabled(s, Act(t, a))
    ensures Locks(ActStep(s, t, a)) && CallbacksOk(ActStep(s, t, a))
  {
    ActLocks(s, t, a);
    ActCounts(s, t, a);
    ActEffect(s, t, a);
    PhaseFrame(s, ActStep(s, t, a), t);
    CallbacksFrame(s, ActStep(s, t, a));
  }

  /** Once the waiting goroutine has seen the counter at zero, no job is left that could start another. */
  lemma ActCompletion(s: State, t: nat, a: Action)
    requires Inv(s) && Enabled(s, Act(t, a)) && !s.waiter.Waiting?
    ensures s.threads[t].kind.External? && Completion(ActStep(s, t, a))
  {
    assert ThreadOk(s, t);
    if s.threads[t].live { LiveKeepsWaiting(s, t); }
  }

  lemma ContinueCompletion(s: State, t: nat)
    requires Inv(s) && Enabled(s, Continue(t)) && !s.waiter.Waiting?
    ensures var pc := s.threads[t].pc; pc.Released? || pc.OnceWait? || pc.TermExit?
    ensures Completion(Step(s, Continue(t))) && |Step(s, Continue(t)).threads| == |s.threads|
  {
    assert ThreadOk(s, t);
    if s.threads[t].live { LiveKeepsWaiting(s, t); }
  }

  /** The parts of the invariant, put together. */
  lemma Together(s: State)
    requires Locks(s) && Progress(s) && Accounting(s) && CallbacksOk(s) && Completion(s)
    ensures Inv(s)
  {
  }

  lemma CompletionWhileWaiting(s: State)
    requires s.waiter.Waiting? && !s.panicked
    ensures Completion(s)
  {
  }

  lemma ActInv(s: State, t: nat, a: Action)
    requires Inv(s) && Enabled(s, Act(t, a))
    ensures Inv(ActStep(s, t, a))
  {
    var s' := ActStep(s, t, a);
    ActLocks(s, t, a);
    ActCounts(s, t, a);
    ActCallbacks(s, t, a);
    ActEffect(s, t, a);
    if s.waiter.Waiting? { CompletionWhileWaiting(s'); } else { ActCompletion(s, t, a); }
    Together(s');
  }

  lemma RegisterInv(s: State, t: nat)
    requires Inv(s) && Enabled(s, Continue(t)) && InRegister(s.threads[t].pc)
    ensures Inv(RegisterStep(s, t))
  {
    assert ThreadOk(s, t);
    LiveKeepsWaiting(s, t);
    RegisterLocks(s, t);
    RegisterAccounting(s, t);
    RegisterCallbacks(s, t);
    RegisterEffect(s, t);
    CompletionWhileWaiting(RegisterStep(s, t));
    Together(RegisterStep(s, t));
  }

  lemma TerminateInv(s: State, t: nat)
    requires Inv(s) && Enabled(s, Continue(t)) && InTerminate(s.threads[t].pc)
    ensures Inv(TerminateStep(s, t))
  {
    var s' := TerminateStep(s, t);
    TerminateLocks(s, t);
    TerminateAccounting(s, t);
    TerminateCallbacks(s, t);
    TerminateEffect(s, t);
    if s.waiter.Waiting? { CompletionWhileWaiting(s'); } else { ContinueCompletion(s, t); }
    Together(s');
  }

  lemma JobInv(s: State, t: nat)
    requires Inv(s) && Enabled(s, Continue(t)) && !InRegister(s.threads[t].pc) && !InTerminate(s.threads[t].pc)
    ensures Inv(JobStep(s, t))
  {
    var s' := JobStep(s, t);
    JobLocks(s, t);
    JobCounts(s, t);
    JobCallbacks(s, t);
    JobEffect(s, t);
    if s.waiter.Waiting? { CompletionWhileWaiting(s'); } else { ContinueCompletion(s, t); }
    Together(s');
  }

  lemma ContinueInv(s: State, t: nat)
    requires Inv(s) && Enabled(s, Continue(t))
    ensures Inv(Step(s, Continue(t)))
  {
    if InRegister(s.threads[t].pc) { RegisterInv(s, t); }
    else if InTerminate(s.threads[t].pc) { TerminateInv(s, t); }
    else { JobInv(s, t); }
  }

  lemma StepInv(s: State, l: Label)
    requires Inv(s) && Enabled(s, l)
    ensures Inv(Step(s, l))
  {
    match l {
      case Act(t, a) => ActInv(s, t, a);
      case Continue(t) => ContinueInv(s, t);
      case OutsideSpawn(critical) =>
        OtherLocks(s, l);
        AppendThread(s.threads, NewJob(critical, None));
      case _ => OtherLocks(s, l);
    }
  }
}
