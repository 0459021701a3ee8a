/** What becomes of failures and of orderly ends in the application: a job that failed says so, one that ended
    well was told to end, and the main job goes through its stages only when what they wait for has happened.
    All of it is said about the programs and program counters of the threads. */
module LifecycleOutcomes {
  import opened Common
  import opened ProcessInvariant
  import opened ProcessMachine
  import opened Lifecycle
  import opened LifecycleInvariant
  import opened LifecycleProgress

  // ---- What a thread's program says about its past ----

  /** The error that DoJob returned is the one the program ended with. */
  predicate Reports(pc: Pc, failed: bool) {
    match pc
    case Returned(g) => g == failed
    case Released(g) => g == failed
    case Exited(g) => g == failed
    case _ => InTerminate(pc) ==> failed
  }

  predicate EndsWell(pc: Pc) {
    pc == Returned(false) || pc == Released(false) || pc == Exited(false)
  }

  /** A service ends without an error only if it was told to stop or everything was cancelled. */
  predicate Excused(a: App, service: Service, failed: bool) {
    failed || service.stopped || a.cancelled
  }

  predicate HttpStory(a: App, th: Thread, pc: HttpPc) {
    match pc
    case HttpFinish(failed) => Excused(a, a.http, failed)
    case HttpEnd(failed) => Excused(a, a.http, failed) && Reports(th.pc, failed)
    case _ => true
  }

  predicate WatchStory(a: App, th: Thread, pc: WatchPc) {
    match pc
    case WatchLoop => a.watch.ready
    case WatchDispatch => a.watch.ready
    case WatchFinish(failed) => Excused(a, a.watch, failed)
    case WatchEnd(failed) => Excused(a, a.watch, failed) && Reports(th.pc, failed)
    case _ => true
  }

  predicate MainStory(a: App, th: Thread, pc: MainPc) {
    && (pc.MainSetup? || pc.MainSpawnWatcher? || pc.MainWaitWatcher? ==> a.http.ready)
    && (pc.MainAwaitHttp? ==> a.http.ready && a.watch.ready)
    && (pc.MainAwaitWatcher? ==> a.http.done && a.watch.ready)
    && (pc.MainEnd? && EndsWell(th.pc) ==> a.http.done && a.watch.done)
  }

  predicate StoryAt(a: App, t: nat)
    requires t < |a.prog| && t < |a.p.threads|
  {
    match a.prog[t]
    case Main(pc) => MainStory(a, a.p.threads[t], pc)
    case Http(pc) => HttpStory(a, a.p.threads[t], pc)
    case Watch(pc) => WatchStory(a, a.p.threads[t], pc)
    case _ => true
  }

  predicate Story(a: App) {
    |a.prog| == |a.p.threads| && forall t :: 0 <= t < |a.prog| ==> StoryAt(a, t)
  }

  /** Latches stay closed and orders stay given. */
  predicate Later(a: App, a': App) {
    && (a.cancelled ==> a'.cancelled)
    && (a.http.stopped ==> a'.http.stopped) && (a.watch.stopped ==> a'.watch.stopped)
    && (a.http.ready ==> a'.http.ready) && (a.http.done ==> a'.http.done)
    && (a.watch.ready ==> a'.watch.ready) && (a.watch.done ==> a'.watch.done)
  }

  /** Programs of threads that have only been started. */
  predicate Fresh(prog: Prog) {
    prog == Http(HttpRegister) || prog == Watch(WatchRegister) || prog == Handler
    || prog == Shutdown(false) || prog == CancelWatch(false)
  }

  /** Only thread t went on, and perhaps a job was started. */
  predicate OneWentOn(a: App, a': App, t: nat) {
    && t < |a.prog| == |a.p.threads| <= |a'.prog| == |a'.p.threads| && Later(a, a')
    && (forall u :: 0 <= u < |a.prog| && u != t ==> a'.prog[u] == a.prog[u] && a'.p.threads[u] == a.p.threads[u])
    && (forall u :: |a.prog| <= u < |a'.prog| ==> Fresh(a'.prog[u]))
  }

  lemma StoryGoesOn(a: App, a': App, t: nat)
    requires Story(a) && OneWentOn(a, a', t) && StoryAt(a', t)
    ensures Story(a')
  {
    forall u | 0 <= u < |a'.prog| ensures StoryAt(a', u) {
      if u < |a.prog| && u != t { assert StoryAt(a, u); }
    }
  }

  // ---- Bodies ----

  lemma MainTellsOwn(a: App, t: nat, pc: MainPc, o: Outcome)
    requires Progs(a) && Story(a) && InBody(a, t) && a.prog[t] == Main(pc) && MainEnabled(a, pc, o)
    requires WatchOk(a) && BodyMoved(a, MainStep(a, t, pc, o), t)
    ensures StoryAt(MainStep(a, t, pc, o), t)
  {
    assert ProgOk(a, t) && StoryAt(a, t);
  }

  lemma MainTells(a: App, t: nat, pc: MainPc, o: Outcome)
    requires Progs(a) && Story(a) && InBody(a, t) && a.prog[t] == Main(pc) && MainEnabled(a, pc, o)
    requires WatchOk(a)
    ensures Story(MainStep(a, t, pc, o))
  {
    MainMoves(a, t, pc, o);
    MainTellsOwn(a, t, pc, o);
    StoryGoesOn(a, MainStep(a, t, pc, o), t);
  }

  lemma HttpTellsOwn(a: App, t: nat, pc: HttpPc, o: Outcome)
    requires Progs(a) && Story(a) && InBody(a, t) && a.prog[t] == Http(pc) && HttpEnabled(a, pc, o)
    requires BodyMoved(a, HttpStep(a, t, pc, o), t)
    ensures StoryAt(HttpStep(a, t, pc, o), t)
  {
    assert StoryAt(a, t);
    if pc.HttpRegister? { ActShape(a.p, t, Register); }
  }

  lemma HttpTells(a: App, t: nat, pc: HttpPc, o: Outcome)
    requires Progs(a) && Story(a) && InBody(a, t) && a.prog[t] == Http(pc) && HttpEnabled(a, pc, o)
    ensures Story(HttpStep(a, t, pc, o))
  {
    HttpMoves(a, t, pc, o);
    HttpTellsOwn(a, t, pc, o);
    StoryGoesOn(a, HttpStep(a, t, pc, o), t);
  }

  lemma WatchTellsOwn(a: App, t: nat, pc: WatchPc, o: Outcome)
    requires Progs(a) && Story(a) && InBody(a, t) && a.prog[t] == Watch(pc) && WatchEnabled(a, pc, o)
    requires BodyMoved(a, WatchStep(a, t, pc, o), t)
    ensures StoryAt(WatchStep(a, t, pc, o), t)
  {
    assert StoryAt(a, t);
    if pc.WatchRegister? || pc.WatchDispatch? || pc.WatchEnd? { WatchCallTells(a, t, pc, o); }
    else { WatchPieceTells(a, t, pc, o); }
  }

  lemma WatchCallTells(a: App, t: nat, pc: WatchPc, o: Outcome)
    requires InBody(a, t) && a.prog[t] == Watch(pc) && StoryAt(a, t) && WatchEnabled(a, pc, o)
    requires pc.WatchRegister? || pc.WatchDispatch? || pc.WatchEnd?
    requires BodyMoved(a, WatchStep(a, t, pc, o), t)
    ensures StoryAt(WatchStep(a, t, pc, o), t)
  {
  }

  lemma WatchPieceTells(a: App, t: nat, pc: WatchPc, o: Outcome)
    requires InBody(a, t) && a.prog[t] == Watch(pc) && StoryAt(a, t) && WatchEnabled(a, pc, o)
    requires !pc.WatchRegister? && !pc.WatchDispatch? && !pc.WatchEnd?
    requires BodyMoved(a, WatchStep(a, t, pc, o), t)
    ensures StoryAt(WatchStep(a, t, pc, o), t)
  {
  }

  lemma WatchTells(a: App, t: nat, pc: WatchPc, o: Outcome)
    requires Progs(a) && Story(a) && InBody(a, t) && a.prog[t] == Watch(pc) && WatchEnabled(a, pc, o)
    ensures Story(WatchStep(a, t, pc, o))
  {
    WatchMoves(a, t, pc, o);
    WatchTellsOwn(a, t, pc, o);
    StoryGoesOn(a, WatchStep(a, t, pc, o), t);
  }

  lemma LeaveGoesOn(a: App, t: nat, prog: Prog, failed: bool)
    requires |a.prog| == |a.p.threads| && InBody(a, t)
    ensures OneWentOn(a, Leave(a, t, prog, failed), t)
  {
    ActShape(a.p, t, Return(failed));
  }

  lemma SmallGoesOn(a: App, t: nat, o: Outcome)
    requires |a.prog| == |a.p.threads| && InBody(a, t)
    ensures OneWentOn(a, SmallStep(a, t, o), t)
  {
    if a.prog[t] != Shutdown(false) && a.prog[t] != CancelWatch(false) { LeaveGoesOn(a, t, a.prog[t], o.Fails?); }
  }

  lemma SmallTells(a: App, t: nat, o: Outcome)
    requires Progs(a) && Story(a) && InBody(a, t)
    requires a.prog[t].Handler? || a.prog[t].Shutdown? || a.prog[t].CancelWatch?
    ensures Story(SmallStep(a, t, o))
  {
    SmallGoesOn(a, t, o);
    StoryGoesOn(a, SmallStep(a, t, o), t);
  }

  // ---- Inside a call into the process ----

  lemma SpawnTells(a: App, t: nat)
    requires Progs(a) && Story(a) && t < |a.prog| && a.p.threads[t].pc.SpawnChecked?
    ensures Story(SpawnStep(a, t))
  {
    assert ProgOk(a, t) && StoryAt(a, t);
    SpawnMoves(a, t);
    StoryGoesOn(a, SpawnStep(a, t), t);
  }

  lemma RegistrationTells(a: App, t: nat)
    requires Progs(a) && Story(a) && t < |a.prog| && InRegister(a.p.threads[t].pc)
    ensures Story(RegistrationStep(a, t))
  {
    assert ProgOk(a, t);
    RegistrationMoves(a, t);
    StoryGoesOn(a, RegistrationStep(a, t), t);
  }

  lemma TerminatingStory(a: App, a': App, t: nat, c: Option<nat>)
    requires Progs(a) && Story(a) && t < |a.prog| && InTerminate(a.p.threads[t].pc) && Terminating(a, a', t, c)
    ensures StoryAt(a', t)
  {
    assert ProgOk(a, t) && StoryAt(a, t);
  }

  lemma TerminatingGoesOn(a: App, a': App, t: nat, c: Option<nat>)
    requires Progs(a) && t < |a.prog| && Terminating(a, a', t, c) && a'.cancelled == a.cancelled
    ensures OneWentOn(a, a', t)
  {
  }

  lemma TerminationTells(a: App, t: nat)
    requires Progs(a) && Story(a) && t < |a.prog| && InTerminate(a.p.threads[t].pc)
    ensures Story(TerminationStep(a, t))
  {
    var a' := TerminationStep(a, t);
    TerminationMoves(a, t);
    TerminatingStory(a, a', t, CallbackStarted(a, t));
    TerminatingGoesOn(a, a', t, CallbackStarted(a, t));
    StoryGoesOn(a, a', t);
  }

  lemma EndTells(a: App, t: nat)
    requires Progs(a) && Story(a) && t < |a.prog| && CanContinue(a.p, t)
    requires a.p.threads[t].pc.Returned? || a.p.threads[t].pc.Released?
    ensures Story(a.(p := JobStep(a.p, t)))
  {
    assert StoryAt(a, t);
    EndShape(a.p, t);
    StoryGoesOn(a, a.(p := JobStep(a.p, t)), t);
  }

  // ---- Every event ----

  lemma DoTells(a: App, t: nat, o: Outcome)
    requires AppInv(a) && Story(a) && DoEnabled(a, t, o)
    ensures Story(DoStep(a, t, o))
  {
    match a.prog[t] {
      case Main(pc) => MainTells(a, t, pc, o);
      case Http(pc) => HttpTells(a, t, pc, o);
      case Watch(pc) => WatchTells(a, t, pc, o);
      case _ => SmallTells(a, t, o);
    }
  }

  lemma InsideTells(a: App, t: nat)
    requires AppInv(a) && Story(a) && Possible(a, Inside(t))
    ensures Story(InsideStep(a, t))
  {
    var pc := a.p.threads[t].pc;
    if pc.SpawnChecked? { SpawnTells(a, t); }
    else if InRegister(pc) { RegistrationTells(a, t); }
    else if InTerminate(pc) { TerminationTells(a, t); }
    else { EndTells(a, t); }
  }

  lemma AskTells(a: App, t: nat)
    requires Story(a) && Possible(a, AskTerminate(t))
    ensures Story(Next(a, AskTerminate(t)))
  {
    ActShape(a.p, t, CallTerminate);
    StoryGoesOn(a, Next(a, AskTerminate(t)), t);
  }

  lemma StreamTells(a: App, e: Event)
    requires Story(a) && Possible(a, e) && (e.Arrival? || e.StreamBreaks?)
    ensures Story(Next(a, e))
  {
    assert StoryAt(a, a.watch.thread.value);
    StoryGoesOn(a, Next(a, e), a.watch.thread.value);
  }

  lemma QuietTells(a: App, e: Event)
    requires Story(a) && Possible(a, e) && (e.Handshake? || e.Wakes? || e.Closes? || e.CancelAll?)
    ensures Story(Next(a, e))
  {
    var a' := Next(a, e);
    forall u | 0 <= u < |a'.prog| ensures StoryAt(a', u) { assert StoryAt(a, u); }
  }

  lemma NextTells(a: App, e: Event)
    requires AppInv(a) && Story(a) && Possible(a, e)
    ensures Story(Next(a, e))
  {
    match e {
      case Inside(t) => InsideTells(a, t);
      case Do(t, o) => DoTells(a, t, o);
      case AskTerminate(t) => AskTells(a, t);
      case Arrival => StreamTells(a, e);
      case StreamBreaks => StreamTells(a, e);
      case _ => QuietTells(a, e);
    }
  }

  lemma {:induction false} HappensTells(a: App, es: seq<Event>)
    requires AppInv(a) && Story(a) && Happens(a, es)
    ensures AppInv(After(a, es)) && Story(After(a, es))
    decreases es
  {
    if es != [] {
      NextInv(a, es[0]);
      NextTells(a, es[0]);
      HappensTells(Next(a, es[0]), es[1..]);
    }
  }

  lemma StartTells(outside: nat)
    ensures Story(Start(outside))
  {
    var a := Start(outside);
    assert a.p.threads == Init(outside).threads + [NewJob(true, None)];
    forall t | 0 <= t < |a.prog| ensures StoryAt(a, t) {
      assert t < outside ==> a.prog[t].Outside?;
    }
  }

  lemma ReachedTells(outside: nat, es: seq<Event>)
    requires Happens(Start(outside), es)
    ensures AppInv(After(Start(outside), es)) && Story(After(Start(outside), es))
  {
    StartInv(outside);
    StartTells(outside);
    HappensTells(Start(outside), es);
  }

  // ---- Failures ----

  /** The body of a service has ended with an error. */
  predicate FailedService(prog: Prog) {
    prog == Http(HttpFinish(true)) || prog == Http(HttpEnd(true))
    || prog == Watch(WatchFinish(true)) || prog == Watch(WatchEnd(true))
  }

  /** Where the thread of a service that failed can be. */
  lemma FailedServiceIs(a: App, t: nat)
    requires Progs(a) && Story(a) && t < |a.prog| && FailedService(a.prog[t]) && Shape(a.p.threads[t])
    ensures var pc := a.p.threads[t].pc;
      || pc.Body? || InTerminate(pc) || pc == Returned(true) || pc == Released(true) || pc == Exited(true)
      || pc.SpawnChecked? || InRegister(pc)
    ensures a.p.threads[t].kind == Job(true, None) && (InTerminate(a.p.threads[t].pc) ==> !a.p.threads[t].live)
    ensures !a.p.threads[t].pc.SpawnChecked? && !InRegister(a.p.threads[t].pc)
  {
    assert ProgOk(a, t) && StoryAt(a, t);
  }

  lemma FailedBodyGoesOn(a: App, t: nat)
    requires InBody(a, t) && FailedService(a.prog[t])
    ensures Forced(a, Do(t, Succeeds))
  {
  }

  /** Until it has seen termination through, it is on its way to Terminate. */
  lemma FailedServiceProceeds(a: App, t: nat)
    requires AppInv(a) && Story(a) && t < |a.prog| && FailedService(a.prog[t]) && a.p.once.Idle?
    ensures Failing(a, t) || (Forced(a, Do(t, Succeeds)) && a.p.threads[t].pc.Body?)
  {
    assert ThreadOk(a.p, t);
    FailedServiceIs(a, t);
    if a.p.threads[t].pc.Body? { FailedBodyGoesOn(a, t); }
    else { IdleMeansFailing(a.p, t); }
  }

  /** Nobody is inside once.Do before the first call of Terminate. */
  lemma IdleMeansFailing(s: State, t: nat)
    requires t < |s.threads| && ThreadOk(s, t) && s.once.Idle? && s.threads[t].kind == Job(true, None)
    requires var pc := s.threads[t].pc; InTerminate(pc) || pc == Returned(true) || pc == Released(true) || pc == Exited(true)
    ensures var pc := s.threads[t].pc; pc.OnceWait? || pc == Returned(true) || pc == Released(true)
  {
  }

  lemma FailedHttpStays(a: App, t: nat, pc: HttpPc)
    requires InBody(a, t) && a.prog[t] == Http(pc) && FailedService(a.prog[t]) && a.p.threads[t].kind == Job(true, None)
    ensures var a' := HttpStep(a, t, pc, Succeeds);
      t < |a'.prog| && (FailedService(a'.prog[t]) || Failing(a', t)) && a'.p.once == a.p.once
  {
  }

  lemma FailedWatchStays(a: App, t: nat, pc: WatchPc)
    requires InBody(a, t) && a.prog[t] == Watch(pc) && FailedService(a.prog[t]) && a.p.threads[t].kind == Job(true, None)
    ensures var a' := WatchStep(a, t, pc, Succeeds);
      t < |a'.prog| && (FailedService(a'.prog[t]) || Failing(a', t)) && a'.p.once == a.p.once
  {
  }

  lemma FailedServiceStays(a: App, t: nat)
    requires AppInv(a) && t < |a.prog| && FailedService(a.prog[t]) && DoEnabled(a, t, Succeeds)
    ensures var a' := DoStep(a, t, Succeeds);
      t < |a'.prog| && (FailedService(a'.prog[t]) || Failing(a', t)) && a'.p.once == a.p.once
  {
    assert ProgOk(a, t);
    if a.prog[t].Http? { FailedHttpStays(a, t, a.prog[t].httpPc); } else { FailedWatchStays(a, t, a.prog[t].watchPc); }
  }

  lemma {:induction false} FailedServiceCompletes(a: App, t: nat) returns (es: seq<Event>)
    requires AppInv(a) && Story(a) && t < |a.prog| && FailedService(a.prog[t])
    ensures Happens(a, es) && ByItself(a, es) && |es| <= Rank(a)
    ensures DoneClosed(After(a, es).p)
    decreases Rank(a), 1
  {
    if !a.p.once.Idle? {
      es := ShutdownCompletes(a);
    } else {
      FailedServiceProceeds(a, t);
      if Failing(a, t) {
        es := FailingCompletes(a, t);
      } else {
        var e := Do(t, Succeeds);
        var rest := FailedServiceNext(a, t);
        es := [e] + rest;
        assert es[1..] == rest;
      }
    }
  }

  lemma {:induction false} FailedServiceNext(a: App, t: nat) returns (rest: seq<Event>)
    requires AppInv(a) && Story(a) && t < |a.prog| && FailedService(a.prog[t]) && Forced(a, Do(t, Succeeds))
    ensures var a' := Next(a, Do(t, Succeeds));
      Happens(a', rest) && ByItself(a', rest) && |rest| < Rank(a) && DoneClosed(After(a', rest).p)
    decreases Rank(a), 0
  {
    var e := Do(t, Succeeds);
    NextInv(a, e);
    NextTells(a, e);
    RankFalls(a, e);
    RankIsNatural(a);
    RankIsNatural(Next(a, e));
    FailedServiceStays(a, t);
    if Failing(Next(a, e), t) { rest := FailingCompletes(Next(a, e), t); }
    else { rest := FailedServiceCompletes(Next(a, e), t); }
  }

  /** A service that failed brings the whole application to Done by actions that happen by themselves, from the
      moment its body ended with the error and wherever its goroutine is since. */
  lemma FailedServiceReachesDone(outside: nat, es: seq<Event>, t: nat) returns (more: seq<Event>)
    requires Happens(Start(outside), es)
    requires var a := After(Start(outside), es); t < |a.prog| && FailedService(a.prog[t])
    ensures var a := After(Start(outside), es);
      && Happens(a, more) && ByItself(a, more) && |more| <= Rank(a)
      && DoneClosed(After(a, more).p)
  {
    ReachedTells(outside, es);
    more := FailedServiceCompletes(After(Start(outside), es), t);
  }

  /** A body whose failure is fatal: any piece of the main job, listening, serving, connecting and watching. */
  predicate Fatal(prog: Prog) {
    prog.Main? || prog == Http(HttpListen) || prog == Http(HttpServe) || prog == Watch(WatchConnect) || prog == Watch(WatchLoop)
  }

  lemma MainFailureIsKept(a: App, t: nat, pc: MainPc)
    requires InBody(a, t) && a.prog[t] == Main(pc) && a.p.threads[t].kind == Job(true, None)
    ensures var a' := MainStep(a, t, pc, Fails); t < |a'.prog| && Failing(a', t)
  {
  }

  lemma HttpFailureIsKept(a: App, t: nat, pc: HttpPc)
    requires InBody(a, t) && a.prog[t] == Http(pc) && Fatal(a.prog[t])
    ensures var a' := HttpStep(a, t, pc, Fails); t < |a'.prog| && FailedService(a'.prog[t])
  {
  }

  lemma WatchFailureIsKept(a: App, t: nat, pc: WatchPc)
    requires InBody(a, t) && a.prog[t] == Watch(pc) && Fatal(a.prog[t])
    ensures var a' := WatchStep(a, t, pc, Fails); t < |a'.prog| && FailedService(a'.prog[t])
  {
  }

  lemma FailureIsKept(a: App, t: nat)
    requires AppInv(a) && DoEnabled(a, t, Fails) && Fatal(a.prog[t])
    ensures var a' := DoStep(a, t, Fails); t < |a'.prog| && (FailedService(a'.prog[t]) || Failing(a', t))
  {
    assert ProgOk(a, t);
    match a.prog[t]
    case Main(pc) => MainFailureIsKept(a, t, pc);
    case Http(pc) => HttpFailureIsKept(a, t, pc);
    case Watch(pc) => WatchFailureIsKept(a, t, pc);
    case _ =>
  }

  /** And when such a piece of work fails, it comes to that. */
  lemma FailureReachesDone(outside: nat, es: seq<Event>, t: nat) returns (more: seq<Event>)
    requires Happens(Start(outside), es)
    requires var a := After(Start(outside), es); DoEnabled(a, t, Fails) && Fatal(a.prog[t])
    ensures var a' := DoStep(After(Start(outside), es), t, Fails);
      && Happens(a', more) && ByItself(a', more) && |more| <= Rank(a')
      && DoneClosed(After(a', more).p)
  {
    ReachedTells(outside, es);
    var a := After(Start(outside), es);
    NextInv(a, Do(t, Fails));
    NextTells(a, Do(t, Fails));
    FailureIsKept(a, t);
    var a' := DoStep(a, t, Fails);
    if Failing(a', t) { more := FailingCompletes(a', t); } else { more := FailedServiceCompletes(a', t); }
  }

  // ---- Orderly ends ----

  /** The body of a service has ended without an error. */
  predicate EndedService(prog: Prog) {
    prog == Http(HttpFinish(false)) || prog == Http(HttpEnd(false))
    || prog == Watch(WatchFinish(false)) || prog == Watch(WatchEnd(false))
  }

  lemma EndedServiceIs(a: App, t: nat)
    requires Progs(a) && Story(a) && t < |a.prog| && EndedService(a.prog[t])
    ensures var pc := a.p.threads[t].pc;
      pc.Body? || pc == Returned(false) || pc == Released(false) || pc == Exited(false)
    ensures a.cancelled || a.http.stopped || a.watch.stopped
  {
    assert ProgOk(a, t) && StoryAt(a, t);
  }

  /** A service that ended without an error never reports one, so it does not terminate the process. */
  lemma EndedServiceIsSilent(outside: nat, es: seq<Event>, t: nat)
    requires Happens(Start(outside), es)
    requires var a := After(Start(outside), es); t < |a.prog| && EndedService(a.prog[t])
    ensures var a := After(Start(outside), es); |a.p.threads| == |a.prog|
    ensures var pc := After(Start(outside), es).p.threads[t].pc;
      pc.Body? || pc == Returned(false) || pc == Released(false) || pc == Exited(false)
  {
    ReachedTells(outside, es);
    EndedServiceIs(After(Start(outside), es), t);
  }

  /** The callbacks have run only if the process was terminated. */
  lemma StopMeansTerminated(s: State, t: nat)
    requires Inv(s) && t < |s.threads| && s.threads[t].kind.Job? && s.threads[t].kind.callback.Some?
    ensures s.terminated
  {
    CallbackIsCounted(s.threads, t);
  }

  lemma {:induction false} CallbackIsCounted(ts: seq<Thread>, t: nat)
    requires t < |ts| && ts[t].kind.Job? && ts[t].kind.callback.Some?
    ensures Callbacks(ts) != []
  {
    if t < |ts| - 1 { CallbackIsCounted(ts[..|ts| - 1], t); }
  }

  lemma TerminatedStays(s: State, l: Label)
    requires Enabled(s, l) && s.terminated
    ensures Step(s, l).terminated
  {
    if l.Act? { ActShape(s, l.t, l.action); }
  }

  /** Calls into the process neither give orders nor close latches. */
  predicate SameSignals(a: App, a': App) {
    && a'.http.stopped == a.http.stopped && a'.http.ready == a.http.ready && a'.http.done == a.http.done
    && a'.watch.stopped == a.watch.stopped && a'.watch.ready == a.watch.ready && a'.watch.done == a.watch.done
    && a'.handshake == a.handshake && a'.cancelled == a.cancelled
  }

  lemma SpawnSignals(a: App, t: nat)
    requires t < |a.prog| && t < |a.p.threads| && a.p.threads[t].pc.SpawnChecked?
    ensures SameSignals(a, SpawnStep(a, t))
  {
  }

  lemma RegistrationSignals(a: App, t: nat)
    requires t < |a.prog| && t < |a.p.threads| && InRegister(a.p.threads[t].pc)
    ensures SameSignals(a, RegistrationStep(a, t))
  {
  }

  lemma SignalsOfCalls(a: App, t: nat)
    requires t < |a.prog| && t < |a.p.threads| && CanContinue(a.p, t)
    ensures SameSignals(a, InsideStep(a, t))
  {
    if a.p.threads[t].pc.SpawnChecked? { SpawnSignals(a, t); }
    else if InRegister(a.p.threads[t].pc) { RegistrationSignals(a, t); }
  }

  /** The signals after a piece of a body: only the callbacks, the listening and the ends of the jobs count, and
      the watcher's connection. */
  predicate SignalsAfter(a: App, prog: Prog, a': App) {
    && a'.cancelled == a.cancelled
    && (a'.http.stopped <==> a.http.stopped || prog == Shutdown(false))
    && (a'.watch.stopped <==> a.watch.stopped || prog == CancelWatch(false))
    && (a'.handshake <==> a.handshake || prog == Http(HttpListen))
    && (a'.http.ready <==> a.http.ready || HttpFinishes(prog)) && (a'.http.done <==> a.http.done || HttpFinishes(prog))
    && (a'.watch.ready <==> a.watch.ready || prog == Watch(WatchReady) || WatchFinishes(prog))
    && (a'.watch.done <==> a.watch.done || WatchFinishes(prog))
  }

  predicate HttpFinishes(prog: Prog) {
    prog == Http(HttpFinish(true)) || prog == Http(HttpFinish(false))
  }

  predicate WatchFinishes(prog: Prog) {
    prog == Watch(WatchFinish(true)) || prog == Watch(WatchFinish(false))
  }

  lemma MainSignals(a: App, t: nat, pc: MainPc, o: Outcome)
    requires t < |a.prog| && t < |a.p.threads|
    ensures SignalsAfter(a, Main(pc), MainStep(a, t, pc, o))
  {
  }

  lemma HttpSignals(a: App, t: nat, pc: HttpPc, o: Outcome)
    requires t < |a.prog| && t < |a.p.threads|
    ensures SignalsAfter(a, Http(pc), HttpStep(a, t, pc, o))
  {
  }

  lemma WatchSignals(a: App, t: nat, pc: WatchPc, o: Outcome)
    requires t < |a.prog| && t < |a.p.threads|
    ensures SignalsAfter(a, Watch(pc), WatchStep(a, t, pc, o))
  {
  }

  lemma SmallSignals(a: App, t: nat, o: Outcome)
    requires t < |a.prog| && t < |a.p.threads| && !a.prog[t].Main? && !a.prog[t].Http? && !a.prog[t].Watch?
    ensures SignalsAfter(a, a.prog[t], SmallStep(a, t, o))
  {
  }

  lemma SignalsOfBodies(a: App, t: nat, o: Outcome)
    requires DoEnabled(a, t, o)
    ensures SignalsAfter(a, a.prog[t], DoStep(a, t, o))
  {
    match a.prog[t] {
      case Main(pc) => MainSignals(a, t, pc, o);
      case Http(pc) => HttpSignals(a, t, pc, o);
      case Watch(pc) => WatchSignals(a, t, pc, o);
      case _ => SmallSignals(a, t, o);
    }
  }

  /** The event is the next piece of this program. */
  predicate Executes(a: App, e: Event, prog: Prog) {
    e.Do? && e.t < |a.prog| && a.prog[e.t] == prog
  }

  /** Who gives the orders to stop: only the callback of the service, and for all jobs only Close. */
  lemma Orders(a: App, e: Event)
    requires Possible(a, e)
    ensures Next(a, e).http.stopped <==> a.http.stopped || Executes(a, e, Shutdown(false))
    ensures Next(a, e).watch.stopped <==> a.watch.stopped || Executes(a, e, CancelWatch(false))
    ensures Next(a, e).cancelled <==> a.cancelled || e.CancelAll?
  {
    if e.Inside? { SignalsOfCalls(a, e.t); } else if e.Do? { SignalsOfBodies(a, e.t, e.outcome); }
  }

  /** Who closes the latches of the webhook server: the address it listens on when it arrives, and the end of
      the job. */
  lemma HttpLatches(a: App, e: Event)
    requires Possible(a, e)
    ensures Next(a, e).handshake <==> (a.handshake && !e.Handshake?) || Executes(a, e, Http(HttpListen))
    ensures Next(a, e).http.done
       <==> a.http.done || Executes(a, e, Http(HttpFinish(true))) || Executes(a, e, Http(HttpFinish(false)))
    ensures Next(a, e).http.ready
       <==> || a.http.ready || e.Handshake?
            || Executes(a, e, Http(HttpFinish(true))) || Executes(a, e, Http(HttpFinish(false)))
  {
    if e.Inside? { SignalsOfCalls(a, e.t); } else if e.Do? { SignalsOfBodies(a, e.t, e.outcome); }
  }

  /** Who closes the latches of the watcher: its connection, and the end of the job. */
  lemma WatchLatches(a: App, e: Event)
    requires Possible(a, e)
    ensures Next(a, e).watch.done
       <==> a.watch.done || Executes(a, e, Watch(WatchFinish(true))) || Executes(a, e, Watch(WatchFinish(false)))
    ensures Next(a, e).watch.ready
       <==> || a.watch.ready || Executes(a, e, Watch(WatchReady))
            || Executes(a, e, Watch(WatchFinish(true))) || Executes(a, e, Watch(WatchFinish(false)))
  {
    if e.Inside? { SignalsOfCalls(a, e.t); } else if e.Do? { SignalsOfBodies(a, e.t, e.outcome); }
  }

  predicate OrdersOk(a: App) {
    a.http.stopped || a.watch.stopped ==> a.p.terminated
  }

  lemma OrdersStay(a: App, e: Event)
    requires AppInv(a) && OrdersOk(a) && Possible(a, e)
    ensures OrdersOk(Next(a, e))
  {
    Orders(a, e);
    ProcessPart(a, e);
    if e.Do? && (a.prog[e.t] == Shutdown(false) || a.prog[e.t] == CancelWatch(false)) {
      assert ProgOk(a, e.t);
      StopMeansTerminated(a.p, e.t);
    }
    if a.p.terminated && Next(a, e).p != a.p {
      var l :| Enabled(a.p, l) && Next(a, e).p == Step(a.p, l);
      TerminatedStays(a.p, l);
    }
  }

  lemma {:induction false} OrdersHold(a: App, es: seq<Event>)
    requires AppInv(a) && OrdersOk(a) && Happens(a, es)
    ensures OrdersOk(After(a, es))
    decreases es
  {
    if es != [] {
      OrdersStay(a, es[0]);
      NextInv(a, es[0]);
      OrdersHold(Next(a, es[0]), es[1..]);
    }
  }

  /** And it ended so only because Close cancelled everything or the process was terminated. */
  lemma EndedServiceWasTold(outside: nat, es: seq<Event>, t: nat)
    requires Happens(Start(outside), es)
    requires var a := After(Start(outside), es); t < |a.prog| && EndedService(a.prog[t])
    ensures var a := After(Start(outside), es); a.cancelled || a.p.terminated
  {
    ReachedTells(outside, es);
    StartInv(outside);
    OrdersHold(Start(outside), es);
    EndedServiceIs(After(Start(outside), es), t);
  }

  /** The main job returns without an error only after both services have ended. */
  lemma MainReturnsLast(outside: nat, es: seq<Event>)
    requires Happens(Start(outside), es)
    requires var a := After(Start(outside), es);
      a.main < |a.prog| && a.main < |a.p.threads| && a.prog[a.main] == Main(MainEnd) && EndsWell(a.p.threads[a.main].pc)
    ensures var a := After(Start(outside), es);
      && (exists t :: 0 <= t < |a.prog| && a.prog[t].Http? && a.prog[t].httpPc.HttpEnd?)
      && (exists t :: 0 <= t < |a.prog| && a.prog[t].Watch? && a.prog[t].watchPc.WatchEnd?)
  {
    ReachedTells(outside, es);
    var a := After(Start(outside), es);
    assert StoryAt(a, a.main);
    assert a.prog[a.http.thread.value].Http? && a.prog[a.watch.thread.value].Watch?;
  }

  /** In every run a watcher that waits for events has said that it is ready, and a webhook server that serves
      has sent its address on its way. */
  lemma WorkingMeansReady(outside: nat, es: seq<Event>, t: nat)
    requires Happens(Start(outside), es)
    requires t < |After(Start(outside), es).prog|
    ensures var a := After(Start(outside), es);
      && (a.prog[t] == Watch(WatchLoop) || a.prog[t] == Watch(WatchDispatch) ==> a.watch.ready)
      && (a.prog[t] == Http(HttpServe) ==> a.http.ready || a.handshake)
  {
    ReachedTells(outside, es);
    var a := After(Start(outside), es);
    assert ProgOk(a, t) && StoryAt(a, t);
  }

  // ---- Events get handlers ----

  lemma ArrivalDispatches(a: App)
    requires WatchAt(a, WatchLoop)
    ensures var a' := Next(a, Arrival); var t := a.watch.thread.value;
      a'.p == a.p && a'.watch == a.watch && a'.prog == a.prog[t := Watch(WatchDispatch)] && InBody(a', t)
  {
  }

  lemma DispatchIsNext(a: App, t: nat)
    requires InBody(a, t) && a.prog[t] == Watch(WatchDispatch)
    ensures Possible(a, Do(t, Succeeds)) && Next(a, Do(t, Succeeds)) == WatchStep(a, t, WatchDispatch, Succeeds)
  {
  }

  lemma SpawnIsNext(a: App, t: nat)
    requires t < |a.prog| && t < |a.p.threads| && a.p.threads[t].pc.SpawnChecked?
    ensures Possible(a, Inside(t)) && Next(a, Inside(t)) == SpawnStep(a, t)
  {
  }

  lemma DispatchSpawns(a: App, t: nat)
    requires InBody(a, t) && a.prog[t] == Watch(WatchDispatch) && !DoneClosed(a.p)
    ensures var a' := WatchStep(a, t, WatchDispatch, Succeeds);
      && a'.prog == a.prog && a'.watch == a.watch && |a'.p.threads| == |a.p.threads|
      && a'.p.threads[t].pc == SpawnChecked(false)
  {
  }

  lemma SpawnedIsHandler(a: App, t: nat)
    requires t < |a.prog| == |a.p.threads| && a.p.threads[t].pc == SpawnChecked(false) && a.prog[t] == Watch(WatchDispatch)
    requires a.watch.thread == Some(t)
    ensures var a' := SpawnStep(a, t);
      && a'.prog == a.prog[t := Watch(WatchLoop)] + [Handler] && WatchAt(a', WatchLoop)
      && |a'.p.threads| == |a.p.threads| + 1
      && a'.p.threads[|a.p.threads|].kind == Job(false, None)
  {
  }

  lemma OneEvent(a: App, e: Event)
    requires Possible(a, e)
    ensures Happens(a, [e]) && After(a, [e]) == Next(a, e)
  {
    assert [e][1..] == [];
  }

  lemma FirstOf(a: App, e: Event, es: seq<Event>)
    requires Possible(a, e) && Happens(Next(a, e), es)
    ensures Happens(a, [e] + es) && After(a, [e] + es) == After(Next(a, e), es)
  {
    assert ([e] + es)[1..] == es;
  }

  lemma ThreeEvents(a: App, e1: Event, e2: Event, e3: Event)
    requires Possible(a, e1) && Possible(Next(a, e1), e2) && Possible(Next(Next(a, e1), e2), e3)
    ensures Happens(a, [e1, e2, e3]) && After(a, [e1, e2, e3]) == Next(Next(Next(a, e1), e2), e3)
  {
    OneEvent(Next(Next(a, e1), e2), e3);
    FirstOf(Next(a, e1), e2, [e3]);
    FirstOf(a, e1, [e2] + [e3]);
    assert [e1] + ([e2] + [e3]) == [e1, e2, e3];
  }

  /** A handler job was started, and the watcher waits for the next event. */
  predicate GotHandler(a: App, a': App) {
    && a'.prog == a.prog + [Handler] && WatchAt(a', WatchLoop)
    && |a'.p.threads| == |a.p.threads| + 1 && a'.p.threads[|a.p.threads|].kind == Job(false, None)
  }

  lemma DispatchGetsHandler(a: App, a1: App, t: nat)
    requires WatchAt(a, WatchLoop) && a.watch.thread == Some(t) && Possible(a, Arrival) && Next(a, Arrival) == a1
    requires InBody(a1, t) && !DoneClosed(a.p) && a1.p == a.p && a1.watch == a.watch
    requires a1.prog == a.prog[t := Watch(WatchDispatch)] && |a.prog| == |a.p.threads|
    ensures var es := [Arrival, Do(t, Succeeds), Inside(t)]; Happens(a, es) && GotHandler(a, After(a, es))
  {
    DispatchSpawns(a1, t);
    var a2 := WatchStep(a1, t, WatchDispatch, Succeeds);
    DispatchIsNext(a1, t);
    SpawnedIsHandler(a2, t);
    assert a2.prog[t := Watch(WatchLoop)] == a.prog;
    SpawnIsNext(a2, t);
    ThreeEvents(a, Arrival, Do(t, Succeeds), Inside(t));
  }

  /** An event that the stream delivers before the process is done gets a handler job, which is not critical,
      and the watcher waits for the next one. */
  lemma ArrivalGetsHandler(a: App)
    requires |a.prog| == |a.p.threads| && WatchAt(a, WatchLoop) && !DoneClosed(a.p)
    ensures var t := a.watch.thread.value; var es := [Arrival, Do(t, Succeeds), Inside(t)];
      && Happens(a, es) && After(a, es).prog == a.prog + [Handler] && WatchAt(After(a, es), WatchLoop)
      && |After(a, es).p.threads| == |a.p.threads| + 1
      && After(a, es).p.threads[|a.p.threads|].kind == Job(false, None)
  {
    ArrivalDispatches(a);
    DispatchGetsHandler(a, Next(a, Arrival), a.watch.thread.value);
  }

  // ---- The project is set up before anything is watched ----

  predicate PastSetup(a: App) {
    && a.main < |a.prog| && a.prog[a.main].Main?
    && var pc := a.prog[a.main].mainPc;
       pc.MainSpawnWatcher? || pc.MainWaitWatcher? || pc.MainAwaitHttp? || pc.MainAwaitWatcher? || a.watch.thread.Some?
  }

  /** The piece of the main job that sets the project up has just succeeded. */
  predicate SetsUp(a: App, e: Event) {
    e == Do(a.main, Succeeds) && a.main < |a.prog| && a.prog[a.main] == Main(MainSetup)
  }

  lemma SpawnKeepsSetup(a: App, t: nat)
    requires AppInv(a) && !PastSetup(a) && t < |a.prog| && a.p.threads[t].pc.SpawnChecked?
    ensures !PastSetup(SpawnStep(a, t))
  {
    assert ProgOk(a, t) && ProgOk(a, a.main);
    SpawnMoves(a, t);
  }

  lemma RegistrationKeepsSetup(a: App, t: nat)
    requires AppInv(a) && !PastSetup(a) && t < |a.prog| && InRegister(a.p.threads[t].pc)
    ensures !PastSetup(RegistrationStep(a, t))
  {
    assert ProgOk(a, t) && ProgOk(a, a.main);
    RegistrationMoves(a, t);
  }

  lemma TerminatingKeepsSetup(a: App, a': App, t: nat, c: Option<nat>)
    requires !PastSetup(a) && Terminating(a, a', t, c)
    ensures !PastSetup(a')
  {
  }

  lemma CallsKeepSetup(a: App, t: nat)
    requires AppInv(a) && !PastSetup(a) && Possible(a, Inside(t))
    ensures !PastSetup(InsideStep(a, t))
  {
    var pc := a.p.threads[t].pc;
    if pc.SpawnChecked? { SpawnKeepsSetup(a, t); }
    else if InRegister(pc) { RegistrationKeepsSetup(a, t); }
    else if InTerminate(pc) {
      TerminationMoves(a, t);
      TerminatingKeepsSetup(a, TerminationStep(a, t), t, CallbackStarted(a, t));
    }
  }

  lemma BodiesKeepSetup(a: App, t: nat, o: Outcome)
    requires AppInv(a) && !PastSetup(a) && DoEnabled(a, t, o) && PastSetup(DoStep(a, t, o))
    ensures SetsUp(a, Do(t, o))
  {
    assert ProgOk(a, t) && ProgOk(a, a.main);
    match a.prog[t] {
      case Main(pc) => MainMoves(a, t, pc, o);
      case Http(pc) => HttpMoves(a, t, pc, o);
      case Watch(pc) => WatchMoves(a, t, pc, o);
      case _ =>
    }
  }

  lemma OnlySetupPasses(a: App, e: Event)
    requires AppInv(a) && Possible(a, e) && !PastSetup(a) && PastSetup(Next(a, e))
    ensures SetsUp(a, e)
  {
    if e.Inside? { CallsKeepSetup(a, e.t); }
    else if e.Do? { BodiesKeepSetup(a, e.t, e.outcome); }
  }

  predicate SetUpAt(a: App, es: seq<Event>, i: nat) {
    i < |es| && Happens(a, es[..i]) && SetsUp(After(a, es[..i]), es[i])
  }

  lemma SetUpNow(a: App, es: seq<Event>)
    requires es != [] && SetsUp(a, es[0])
    ensures SetUpAt(a, es, 0)
  {
    assert es[..0] == [];
  }

  lemma SetUpLater(a: App, es: seq<Event>, k: nat)
    requires Happens(a, es) && es != [] && SetUpAt(Next(a, es[0]), es[1..], k)
    ensures SetUpAt(a, es, k + 1)
  {
    assert es[..k + 1][1..] == es[1..][..k];
    assert es[..k + 1][0] == es[0];
  }

  lemma {:induction false} PassedBySetup(a: App, es: seq<Event>) returns (i: nat)
    requires AppInv(a) && !PastSetup(a) && Happens(a, es) && PastSetup(After(a, es))
    ensures SetUpAt(a, es, i)
    decreases es
  {
    NextInv(a, es[0]);
    if PastSetup(Next(a, es[0])) {
      OnlySetupPasses(a, es[0]);
      SetUpNow(a, es);
      i := 0;
    } else {
      var k := PassedBySetup(Next(a, es[0]), es[1..]);
      SetUpLater(a, es, k);
      i := k + 1;
    }
  }

  lemma SetupFindsServerReady(a: App, e: Event)
    requires Story(a) && SetsUp(a, e)
    ensures a.http.ready
  {
    assert StoryAt(a, a.main);
  }

  lemma MainIsThere(a: App)
    requires AppInv(a) && a.watch.thread.Some?
    ensures PastSetup(a)
  {
  }

  lemma NothingWatchedAtStart(outside: nat)
    ensures !PastSetup(Start(outside))
  {
  }

  /** In every run in which the watcher was started, the project had been set up, and before that the webhook
      server was ready. */
  lemma SetupComesFirst(outside: nat, es: seq<Event>) returns (i: nat)
    requires Happens(Start(outside), es) && After(Start(outside), es).watch.thread.Some?
    ensures SetUpAt(Start(outside), es, i) && After(Start(outside), es[..i]).http.ready
  {
    StartInv(outside);
    ReachedTells(outside, es);
    NothingWatchedAtStart(outside);
    MainIsThere(After(Start(outside), es));
    i := PassedBySetup(Start(outside), es);
    ReachedTells(outside, es[..i]);
    SetupFindsServerReady(After(Start(outside), es[..i]), es[i]);
  }
}
