/** What every interleaving of the application keeps. */
module LifecycleInvariant {
  import opened Common
  import opened ProcessInvariant
  import opened ProcessMachine
  import opened ProcessRuns
  import opened Lifecycle

  /** The body of the job has not returned yet. */
  predicate AtWork(pc: Pc) {
    pc.Body? || pc.SpawnChecked? || InRegister(pc)
  }

  /** How the program of a thread goes with its kind and its place in the process code. */
  predicate ProgOk(a: App, t: nat)
    requires t < |a.prog| && t < |a.p.threads|
  {
    var th := a.p.threads[t];
    && (th.live ==> !InTerminate(th.pc))
    && match a.prog[t]
       case Outside => th.kind.External? && !th.live && (th.pc.Body? || InTerminate(th.pc))
       case Main(pc) =>
         && t == a.main && th.kind == Job(true, None) && !InRegister(th.pc)
         && (th.pc.SpawnChecked? ==> th.pc.critical && (pc.MainSpawnHttp? || pc.MainSpawnWatcher?))
         && (pc.MainEnd? <==> !AtWork(th.pc))
       case Http(pc) =>
         && a.http.thread == Some(t) && th.kind == Job(true, None) && !th.pc.SpawnChecked?
         && (InRegister(th.pc) ==> pc.HttpRegister?)
         && (!AtWork(th.pc) ==> pc.HttpEnd?)
       case Watch(pc) =>
         && a.watch.thread == Some(t) && th.kind == Job(true, None)
         && (th.pc.SpawnChecked? ==> !th.pc.critical && pc.WatchDispatch?)
         && (InRegister(th.pc) ==> pc.WatchRegister?)
         && (!AtWork(th.pc) ==> pc.WatchEnd?)
       case Handler => th.kind == Job(false, None) && (AtWork(th.pc) ==> th.pc.Body?)
       case Shutdown(called) =>
         && a.http.callback.Some? && th.kind == Job(false, a.http.callback)
         && (called ==> a.http.stopped) && (th.pc.Body? || (called && !AtWork(th.pc)))
       case CancelWatch(called) =>
         && a.watch.callback.Some? && th.kind == Job(false, a.watch.callback)
         && (called ==> a.watch.stopped) && (th.pc.Body? || (called && !AtWork(th.pc)))
  }

  /** A job that has not stored its callback yet. */
  predicate Registering(a: App, t: nat, prog: Prog)
    requires t < |a.prog| && t < |a.p.threads|
  {
    a.prog[t] == prog && !a.p.threads[t].pc.RegisterUnlock?
  }

  predicate HttpOk(a: App) {
    match a.http.thread
    case None => a.http.callback.None? && !a.http.ready && !a.http.done && !a.handshake
    case Some(t) =>
      && t < |a.prog| && t < |a.p.threads| && a.prog[t].Http?
      && (a.http.callback.None? <==> Registering(a, t, Http(HttpRegister)))
      && (a.http.done <==> a.prog[t].httpPc.HttpEnd?)
      && (a.http.done ==> a.http.ready)
      && (a.prog[t].httpPc.HttpServe? ==> a.http.ready || a.handshake)
  }

  predicate WatchOk(a: App) {
    match a.watch.thread
    case None => a.watch.callback.None? && !a.watch.ready && !a.watch.done
    case Some(t) =>
      && t < |a.prog| && t < |a.p.threads| && a.prog[t].Watch?
      && (a.watch.callback.None? <==> Registering(a, t, Watch(WatchRegister)))
      && (a.watch.done <==> a.prog[t].watchPc.WatchEnd?)
      && (a.watch.done ==> a.watch.ready)
  }

  predicate CallbackIdsOk(a: App) {
    && a.p.registered == (if a.http.callback.Some? then 1 else 0) + (if a.watch.callback.Some? then 1 else 0)
    && (a.http.callback.Some? ==> a.http.callback.value < a.p.registered)
    && (a.watch.callback.Some? ==> a.watch.callback.value < a.p.registered)
    && (a.http.callback.Some? ==> a.http.callback != a.watch.callback)
  }

  /** What the main job has started so far. */
  predicate MainOk(a: App) {
    && a.main < |a.prog| && a.main < |a.p.threads| && a.prog[a.main].Main?
    && var pc := a.prog[a.main].mainPc;
       && (pc.MainInit? || pc.MainSpawnHttp? ==> a.http.thread.None?)
       && (pc.MainInit? || pc.MainSpawnHttp? || pc.MainWaitHttp? || pc.MainSetup? || pc.MainSpawnWatcher?
           ==> a.watch.thread.None?)
       && (!pc.MainInit? && !pc.MainSpawnHttp? && !pc.MainEnd? ==> a.http.thread.Some?)
       && (pc.MainWaitWatcher? || pc.MainAwaitHttp? || pc.MainAwaitWatcher? ==> a.watch.thread.Some?)
  }

  predicate Progs(a: App) {
    |a.prog| == |a.p.threads| && forall t :: 0 <= t < |a.prog| ==> ProgOk(a, t)
  }

  predicate Services(a: App) {
    HttpOk(a) && WatchOk(a) && CallbackIdsOk(a) && MainOk(a)
  }

  predicate AppInv(a: App) {
    Inv(a.p) && Progs(a) && Services(a)
  }

  /** Services only ever gain a thread, a callback and the order to stop. */
  predicate Grows(sv: Service, sv': Service) {
    && (sv.thread.Some? ==> sv'.thread == sv.thread)
    && (sv.callback.Some? ==> sv'.callback == sv.callback)
    && (sv.stopped ==> sv'.stopped)
  }

  /** Threads that did not move stay consistent. */
  lemma OthersStay(a: App, a': App, t: nat)
    requires Progs(a) && t < |a.prog| && |a'.prog| == |a'.p.threads| && |a.prog| <= |a'.prog|
    requires forall u :: 0 <= u < |a.prog| && u != t ==> a'.p.threads[u] == a.p.threads[u] && a'.prog[u] == a.prog[u]
    requires Grows(a.http, a'.http) && Grows(a.watch, a'.watch) && a'.main == a.main
    requires ProgOk(a', t)
    requires forall u :: |a.prog| <= u < |a'.prog| ==> ProgOk(a', u)
    ensures Progs(a')
  {
    forall u | 0 <= u < |a'.prog| ensures ProgOk(a', u) {
      if u < |a.prog| && u != t { assert ProgOk(a, u); }
    }
  }

  // ---- Bodies ----

  /** Thread t changed its program, and perhaps the services, but made no call. */
  lemma QuietProgs(a: App, a': App, t: nat)
    requires Progs(a) && t < |a.prog| && a'.p == a.p && a'.main == a.main && |a'.prog| == |a.prog|
    requires forall u :: 0 <= u < |a.prog| && u != t ==> a'.prog[u] == a.prog[u]
    requires Grows(a.http, a'.http) && Grows(a.watch, a'.watch) && ProgOk(a', t)
    ensures Progs(a')
  {
    OthersStay(a, a', t);
  }

  /** Thread t made a call into the process, or returned. */
  lemma CallProgs(a: App, a': App, t: nat, action: Action)
    requires Progs(a) && t < |a.prog| && a'.p == ActStep(a.p, t, action) && a'.main == a.main && |a'.prog| == |a.prog|
    requires forall u :: 0 <= u < |a.prog| && u != t ==> a'.prog[u] == a.prog[u]
    requires a'.http == a.http && a'.watch == a.watch
    requires |a'.p.threads| == |a.prog| && ProgOk(a', t)
    ensures Progs(a')
  {
    ActShape(a.p, t, action);
    OthersStay(a, a', t);
  }

  lemma MainQuiet(a: App, t: nat, pc: MainPc, next: MainPc)
    requires Progs(a) && InBody(a, t) && a.prog[t] == Main(pc) && !pc.MainEnd? && !next.MainEnd?
    ensures Progs(Goto(a, t, Main(next)))
  {
    assert ProgOk(a, t);
    QuietProgs(a, Goto(a, t, Main(next)), t);
  }

  lemma MainLeaves(a: App, t: nat, pc: MainPc, failed: bool)
    requires Progs(a) && InBody(a, t) && a.prog[t] == Main(pc)
    ensures Progs(Leave(a, t, Main(MainEnd), failed))
  {
    assert ProgOk(a, t);
    CallProgs(a, Leave(a, t, Main(MainEnd), failed), t, Return(failed));
  }

  lemma MainProgs(a: App, t: nat, pc: MainPc, o: Outcome)
    requires Progs(a) && InBody(a, t) && a.prog[t] == Main(pc) && MainEnabled(a, pc, o)
    ensures Progs(MainStep(a, t, pc, o))
  {
    if o.Fails? { MainLeaves(a, t, pc, true); }
    else if pc.MainSpawnHttp? || pc.MainSpawnWatcher? {
      assert ProgOk(a, t);
      CallProgs(a, MainStep(a, t, pc, o), t, Spawn(true));
    } else if pc.MainAwaitWatcher? { MainLeaves(a, t, pc, false); }
    else { MainQuiet(a, t, pc, AfterMain(pc)); }
  }

  lemma HttpProgs(a: App, t: nat, pc: HttpPc, o: Outcome)
    requires Progs(a) && InBody(a, t) && a.prog[t] == Http(pc) && HttpEnabled(a, pc, o)
    ensures Progs(HttpStep(a, t, pc, o))
  {
    assert ProgOk(a, t);
    var a' := HttpStep(a, t, pc, o);
    if pc.HttpRegister? { CallProgs(a, a', t, Register); }
    else if pc.HttpEnd? { CallProgs(a, a', t, Return(pc.failed)); }
    else { QuietProgs(a, a', t); }
  }

  lemma WatchCalls(a: App, t: nat, pc: WatchPc, o: Outcome)
    requires Progs(a) && InBody(a, t) && a.prog[t] == Watch(pc) && (pc.WatchRegister? || pc.WatchDispatch? || pc.WatchEnd?)
    ensures Progs(WatchStep(a, t, pc, o))
  {
    assert ProgOk(a, t);
    var a' := WatchStep(a, t, pc, o);
    CallProgs(a, a', t, if pc.WatchRegister? then Register else if pc.WatchDispatch? then Spawn(false) else Return(pc.failed));
  }

  lemma WatchProgs(a: App, t: nat, pc: WatchPc, o: Outcome)
    requires Progs(a) && InBody(a, t) && a.prog[t] == Watch(pc) && WatchEnabled(a, pc, o)
    ensures Progs(WatchStep(a, t, pc, o))
  {
    if pc.WatchRegister? || pc.WatchDispatch? || pc.WatchEnd? {
      WatchCalls(a, t, pc, o);
    } else {
      assert ProgOk(a, t);
      QuietProgs(a, WatchStep(a, t, pc, o), t);
    }
  }

  /** Nothing that concerns the webhook server changed except for the program of another thread. */
  lemma HttpFrame(a: App, a': App, t: nat)
    requires HttpOk(a) && t < |a.prog| == |a.p.threads| && |a'.prog| == |a'.p.threads| == |a.prog| && a.http.thread != Some(t)
    requires a'.http == a.http && a'.handshake == a.handshake
    requires forall u :: 0 <= u < |a.prog| && u != t ==> a'.prog[u] == a.prog[u] && a'.p.threads[u] == a.p.threads[u]
    ensures HttpOk(a')
  {
  }

  lemma WatchFrame(a: App, a': App, t: nat)
    requires WatchOk(a) && t < |a.prog| == |a.p.threads| && |a'.prog| == |a'.p.threads| == |a.prog| && a.watch.thread != Some(t)
    requires a'.watch == a.watch
    requires forall u :: 0 <= u < |a.prog| && u != t ==> a'.prog[u] == a.prog[u] && a'.p.threads[u] == a.p.threads[u]
    ensures WatchOk(a')
  {
  }

  /** The main job has moved on in its program. */
  lemma MainFrame(a: App, a': App, t: nat)
    requires MainOk(a) && t < |a.prog| == |a.p.threads| && |a'.prog| == |a'.p.threads| == |a.prog| && t != a.main
    requires a'.main == a.main && a'.http.thread == a.http.thread && a'.watch.thread == a.watch.thread
    requires forall u :: 0 <= u < |a.prog| && u != t ==> a'.prog[u] == a.prog[u]
    ensures MainOk(a')
  {
  }

  /** Only t moved, and the services did not get a thread or a callback. */
  predicate BodyMoved(a: App, a': App, t: nat) {
    && |a'.prog| == |a'.p.threads| == |a.prog| == |a.p.threads| && t < |a.prog|
    && a'.main == a.main && a'.p.registered == a.p.registered
    && a'.http.thread == a.http.thread && a'.watch.thread == a.watch.thread
    && a'.http.callback == a.http.callback && a'.watch.callback == a.watch.callback
    && (forall u :: 0 <= u < |a.prog| && u != t ==> a'.prog[u] == a.prog[u] && a'.p.threads[u] == a.p.threads[u])
    && !a'.p.threads[t].pc.RegisterUnlock?
  }

  lemma CallMoves(a: App, a': App, t: nat, action: Action, prog: Prog)
    requires |a.prog| == |a.p.threads| && InBody(a, t)
    requires a' == a.(p := ActStep(a.p, t, action), prog := a.prog[t := prog])
    ensures BodyMoved(a, a', t)
  {
    ActShape(a.p, t, action);
    ActRegisters(a.p, t, action);
  }

  lemma ActRegisters(s: State, t: nat, action: Action)
    requires t < |s.threads|
    ensures ActStep(s, t, action).registered == s.registered
  {
  }

  lemma MainMoves(a: App, t: nat, pc: MainPc, o: Outcome)
    requires |a.prog| == |a.p.threads| && InBody(a, t) && a.prog[t] == Main(pc)
    ensures BodyMoved(a, MainStep(a, t, pc, o), t)
  {
    var a' := MainStep(a, t, pc, o);
    if o.Fails? { CallMoves(a, a', t, Return(true), Main(MainEnd)); }
    else if pc.MainSpawnHttp? || pc.MainSpawnWatcher? {
      assert a.prog == a.prog[t := Main(pc)];
      CallMoves(a, a', t, Spawn(true), Main(pc));
    } else if pc.MainAwaitWatcher? { CallMoves(a, a', t, Return(false), Main(MainEnd)); }
  }

  lemma HttpMoves(a: App, t: nat, pc: HttpPc, o: Outcome)
    requires |a.prog| == |a.p.threads| && InBody(a, t) && a.prog[t] == Http(pc)
    ensures BodyMoved(a, HttpStep(a, t, pc, o), t)
  {
    assert a.prog == a.prog[t := Http(pc)];
    if pc.HttpRegister? { CallMoves(a, HttpStep(a, t, pc, o), t, Register, Http(pc)); }
    else if pc.HttpEnd? { CallMoves(a, HttpStep(a, t, pc, o), t, Return(pc.failed), Http(pc)); }
  }

  lemma WatchMoves(a: App, t: nat, pc: WatchPc, o: Outcome)
    requires |a.prog| == |a.p.threads| && InBody(a, t) && a.prog[t] == Watch(pc)
    ensures BodyMoved(a, WatchStep(a, t, pc, o), t)
  {
    assert a.prog == a.prog[t := Watch(pc)];
    var a' := WatchStep(a, t, pc, o);
    if pc.WatchRegister? { CallMoves(a, a', t, Register, Watch(pc)); }
    else if pc.WatchDispatch? { CallMoves(a, a', t, Spawn(false), Watch(pc)); }
    else if pc.WatchEnd? { CallMoves(a, a', t, Return(pc.failed), Watch(pc)); }
  }

  lemma MainServices(a: App, t: nat, pc: MainPc, o: Outcome)
    requires Progs(a) && Services(a) && InBody(a, t) && a.prog[t] == Main(pc) && MainEnabled(a, pc, o)
    ensures Services(MainStep(a, t, pc, o))
  {
    assert ProgOk(a, t);
    MainMoves(a, t, pc, o);
    HttpFrame(a, MainStep(a, t, pc, o), t);
    WatchFrame(a, MainStep(a, t, pc, o), t);
  }

  lemma HttpOwn(a: App, t: nat, pc: HttpPc, o: Outcome)
    requires Progs(a) && Services(a) && InBody(a, t) && a.prog[t] == Http(pc) && HttpEnabled(a, pc, o)
    ensures HttpOk(HttpStep(a, t, pc, o)) && HttpStep(a, t, pc, o).watch == a.watch
  {
    assert ProgOk(a, t);
    HttpMoves(a, t, pc, o);
  }

  lemma HttpServices(a: App, t: nat, pc: HttpPc, o: Outcome)
    requires Progs(a) && Services(a) && InBody(a, t) && a.prog[t] == Http(pc) && HttpEnabled(a, pc, o)
    ensures Services(HttpStep(a, t, pc, o))
  {
    assert ProgOk(a, t);
    HttpMoves(a, t, pc, o);
    HttpOwn(a, t, pc, o);
    WatchFrame(a, HttpStep(a, t, pc, o), t);
    MainFrame(a, HttpStep(a, t, pc, o), t);
  }

  lemma WatchOwn(a: App, t: nat, pc: WatchPc, o: Outcome)
    requires Progs(a) && Services(a) && InBody(a, t) && a.prog[t] == Watch(pc) && WatchEnabled(a, pc, o)
    ensures var a' := WatchStep(a, t, pc, o); WatchOk(a') && a'.http == a.http && a'.handshake == a.handshake
  {
    assert ProgOk(a, t);
    WatchMoves(a, t, pc, o);
  }

  lemma WatchServices(a: App, t: nat, pc: WatchPc, o: Outcome)
    requires Progs(a) && Services(a) && InBody(a, t) && a.prog[t] == Watch(pc) && WatchEnabled(a, pc, o)
    ensures Services(WatchStep(a, t, pc, o))
  {
    assert ProgOk(a, t);
    WatchMoves(a, t, pc, o);
    WatchOwn(a, t, pc, o);
    HttpFrame(a, WatchStep(a, t, pc, o), t);
    MainFrame(a, WatchStep(a, t, pc, o), t);
  }

  lemma SmallProgs(a: App, t: nat, o: Outcome)
    requires Progs(a) && InBody(a, t)
    requires a.prog[t].Handler? || a.prog[t].Shutdown? || a.prog[t].CancelWatch?
    ensures Progs(SmallStep(a, t, o))
  {
    assert ProgOk(a, t);
    OthersStay(a, SmallStep(a, t, o), t);
  }

  lemma SmallServices(a: App, t: nat, o: Outcome)
    requires Progs(a) && Services(a) && InBody(a, t)
    requires a.prog[t].Handler? || a.prog[t].Shutdown? || a.prog[t].CancelWatch?
    ensures Services(SmallStep(a, t, o))
  {
    assert ProgOk(a, t);
  }

  // ---- Inside a call into the process ----

  /** Thread t moved, nobody else did, and perhaps one job was started. */
  predicate Moved(a: App, a': App, t: nat, started: Option<Thread>)
    requires t < |a.prog| == |a.p.threads|
  {
    && |a'.p.threads| == |a'.prog| == |a.prog| + (if started.Some? then 1 else 0) && a'.main == a.main
    && (forall u :: 0 <= u < |a.prog| && u != t ==> a'.p.threads[u] == a.p.threads[u] && a'.prog[u] == a.prog[u])
    && (started.Some? ==> a'.p.threads[|a.prog|] == started.value)
    && a'.p.threads[t].kind == a.p.threads[t].kind
  }

  /** The job that an action inside Terminate starts. */
  function CallbackStarted(a: App, t: nat): Option<nat>
    requires t < |a.p.threads|
  {
    var pc := a.p.threads[t].pc;
    if pc.TermLoop? && pc.next < |a.p.pending| then Some(a.p.pending[pc.next]) else None
  }

  function CallbackThread(c: Option<nat>): Option<Thread> {
    if c.Some? then Some(NewJob(false, c)) else None
  }

  lemma TerminateShape(s: State, t: nat)
    requires t < |s.threads| && InTerminate(s.threads[t].pc)
    ensures var s' := TerminateStep(s, t); var pc := s.threads[t].pc;
      && t < |s'.threads| && s'.registered == s.registered
      && s'.threads == Move(s.threads, t, s'.threads[t].pc)
           + (if pc.TermLoop? && pc.next < |s.pending| then [NewJob(false, Some(s.pending[pc.next]))] else [])
  {
  }

  lemma TerminateTarget(s: State, t: nat)
    requires t < |s.threads| && InTerminate(s.threads[t].pc)
    ensures var s' := TerminateStep(s, t);
      t < |s'.threads| && (InTerminate(s'.threads[t].pc) || s'.threads[t].pc == AfterTerminate(s.threads[t]))
  {
  }

  /** One action of thread t inside Terminate; c is the callback it starts. */
  predicate Terminating(a: App, a': App, t: nat, c: Option<nat>) {
    && t < |a.prog| == |a.p.threads|
    && Moved(a, a', t, CallbackThread(c)) && (c.Some? ==> a'.prog[|a.prog|] == CallbackProg(a, c.value))
    && a'.prog[t] == a.prog[t] && a'.p.registered == a.p.registered
    && a'.http == a.http && a'.watch == a.watch && a'.handshake == a.handshake
    && a'.p.threads[t].live == a.p.threads[t].live
    && var pc' := a'.p.threads[t].pc; InTerminate(pc') || pc' == AfterTerminate(a.p.threads[t])
  }

  lemma TerminationMoves(a: App, t: nat)
    requires t < |a.prog| == |a.p.threads| && InTerminate(a.p.threads[t].pc)
    ensures Terminating(a, TerminationStep(a, t), t, CallbackStarted(a, t))
  {
    TerminateShape(a.p, t);
    TerminateTarget(a.p, t);
  }

  lemma TerminationProgs(a: App, a': App, t: nat, c: Option<nat>)
    requires Progs(a) && CallbackIdsOk(a) && t < |a.prog| && InTerminate(a.p.threads[t].pc) && Terminating(a, a', t, c)
    requires c.Some? ==> c.value < a.p.registered
    ensures Progs(a')
  {
    assert ProgOk(a, t);
    OthersStay(a, a', t);
  }

  lemma TerminationServices(a: App, a': App, t: nat, c: Option<nat>)
    requires Progs(a) && Services(a) && t < |a.prog| && InTerminate(a.p.threads[t].pc) && Terminating(a, a', t, c)
    ensures Services(a')
  {
    assert ProgOk(a, t);
  }

  lemma TerminationAdvances(a: App, a': App, t: nat, c: Option<nat>)
    requires Progs(a) && Services(a) && t < |a.prog| && InTerminate(a.p.threads[t].pc) && Terminating(a, a', t, c)
    requires c.Some? ==> c.value < a.p.registered
    ensures Progs(a') && Services(a')
  {
    TerminationProgs(a, a', t, c);
    TerminationServices(a, a', t, c);
  }

  lemma RegisterShape(s: State, t: nat)
    requires t < |s.threads| && InRegister(s.threads[t].pc)
    ensures var s' := RegisterStep(s, t); var pc := s.threads[t].pc;
      && t < |s'.threads|
      && s'.threads == Move(s.threads, t, s'.threads[t].pc)
           + (if pc.RegisterChecked? then [NewJob(false, Some(s.registered))] else [])
      && s'.registered == s.registered + (if pc.RegisterChecked? || (pc.RegisterLocked? && !s.terminated) then 1 else 0)
      && (pc.RegisterUnlock? <==> s'.threads[t].pc.Body?)
      && (s'.registered > s.registered <==> s'.threads[t].pc.RegisterUnlock?)
      && (s'.threads[t].pc.Body? || InRegister(s'.threads[t].pc))
  {
  }

  /** A registering job moves on without storing anything. */
  lemma QuietRegistration(a: App, a': App, t: nat)
    requires Progs(a) && Services(a) && t < |a.prog| && InRegister(a.p.threads[t].pc) && !a.p.threads[t].pc.RegisterUnlock?
    requires Moved(a, a', t, None) && a'.prog[t] == a.prog[t] && a'.http == a.http && a'.watch == a.watch
    requires a'.p.registered == a.p.registered && a'.handshake == a.handshake
    requires a'.p.threads[t].live == a.p.threads[t].live
    requires InRegister(a'.p.threads[t].pc) && !a'.p.threads[t].pc.RegisterUnlock?
    ensures Progs(a') && Services(a')
  {
    assert ProgOk(a, t);
    OthersStay(a, a', t);
  }

  /** The callback of thread t gets the next identity, and starts at once after termination. */
  predicate Storing(a: App, a': App, t: nat, started: bool) {
    && t < |a.prog| == |a.p.threads|
    && Moved(a, a', t, if started then Some(NewJob(false, Some(a.p.registered))) else None)
    && a'.prog[t] == a.prog[t] && a'.handshake == a.handshake && a'.p.registered == a.p.registered + 1
    && a'.p.threads[t].live == a.p.threads[t].live && a'.p.threads[t].pc.RegisterUnlock?
    && (if a.prog[t].Http? then a'.http == a.http.(callback := Some(a.p.registered)) && a'.watch == a.watch
        else a'.watch == a.watch.(callback := Some(a.p.registered)) && a'.http == a.http)
    && (started ==> a'.prog[|a.prog|] == if a.prog[t].Http? then Shutdown(false) else CancelWatch(false))
  }

  lemma StoringProgs(a: App, a': App, t: nat, started: bool)
    requires Progs(a) && Services(a) && t < |a.prog| && InRegister(a.p.threads[t].pc) && !a.p.threads[t].pc.RegisterUnlock?
    requires Storing(a, a', t, started)
    ensures Progs(a')
  {
    assert ProgOk(a, t);
    OthersStay(a, a', t);
  }

  lemma StoringServices(a: App, a': App, t: nat, started: bool)
    requires Progs(a) && Services(a) && t < |a.prog| && InRegister(a.p.threads[t].pc) && !a.p.threads[t].pc.RegisterUnlock?
    requires Storing(a, a', t, started)
    ensures Services(a')
  {
    assert ProgOk(a, t);
  }

  /** OnTerminate returns to the job. */
  lemma RegistrationEnds(a: App, a': App, t: nat)
    requires Progs(a) && Services(a) && t < |a.prog| && a.p.threads[t].pc.RegisterUnlock?
    requires Moved(a, a', t, None) && a'.http == a.http && a'.watch == a.watch
    requires a'.p.registered == a.p.registered && a'.handshake == a.handshake
    requires a'.p.threads[t].live == a.p.threads[t].live && a'.p.threads[t].pc.Body?
    requires a'.prog[t] == if a.prog[t].Http? then Http(HttpListen) else Watch(WatchConnect)
    ensures Progs(a') && Services(a')
  {
    assert ProgOk(a, t);
    OthersStay(a, a', t);
  }

  lemma RegistrationMoves(a: App, t: nat)
    requires t < |a.prog| == |a.p.threads| && InRegister(a.p.threads[t].pc)
    ensures var a' := RegistrationStep(a, t); var p' := RegisterStep(a.p, t);
      && a'.p == p' && a'.handshake == a.handshake
      && Moved(a, a', t, if a.p.threads[t].pc.RegisterChecked? then Some(NewJob(false, Some(a.p.registered))) else None)
      && a'.p.threads[t].live == a.p.threads[t].live
      && (!a.p.threads[t].pc.RegisterUnlock? ==> a'.prog[t] == a.prog[t])
  {
    RegisterShape(a.p, t);
  }

  lemma RegistrationKeeps(a: App, t: nat)
    requires Progs(a) && Services(a) && t < |a.prog| && InRegister(a.p.threads[t].pc)
    ensures Progs(RegistrationStep(a, t)) && Services(RegistrationStep(a, t))
  {
    RegistrationMoves(a, t);
    RegisterShape(a.p, t);
    var a' := RegistrationStep(a, t);
    if a.p.threads[t].pc.RegisterUnlock? { RegistrationEnds(a, a', t); }
    else if a'.p.registered == a.p.registered { QuietRegistration(a, a', t); }
    else {
      StoringProgs(a, a', t, a.p.threads[t].pc.RegisterChecked?);
      StoringServices(a, a', t, a.p.threads[t].pc.RegisterChecked?);
    }
  }

  lemma TerminationKeeps(a: App, t: nat)
    requires Progs(a) && Services(a) && t < |a.prog| && InTerminate(a.p.threads[t].pc)
    requires CallbackStarted(a, t).Some? ==> CallbackStarted(a, t).value < a.p.registered
    ensures Progs(TerminationStep(a, t)) && Services(TerminationStep(a, t))
  {
    TerminationMoves(a, t);
    TerminationAdvances(a, TerminationStep(a, t), t, CallbackStarted(a, t));
  }

  /** What jobs.Add(1) leaves alone. */
  predicate Started(a: App, a': App, t: nat, critical: bool)
    requires t < |a.prog| == |a.p.threads|
  {
    && Moved(a, a', t, Some(NewJob(critical, None))) && a'.p.registered == a.p.registered
    && a'.handshake == a.handshake
    && a'.p.threads[t].live == a.p.threads[t].live && a'.p.threads[t].pc.Body?
  }

  lemma HttpStarted(a: App, a': App, t: nat)
    requires Progs(a) && Services(a) && t < |a.prog| && a.prog[t] == Main(MainSpawnHttp)
    requires Started(a, a', t, true) && a'.prog[t] == Main(MainWaitHttp) && a'.prog[|a.prog|] == Http(HttpRegister)
    requires a'.http == a.http.(thread := Some(|a.prog|)) && a'.watch == a.watch
    ensures Progs(a') && Services(a')
  {
    assert ProgOk(a, t);
    OthersStay(a, a', t);
  }

  lemma WatchStarted(a: App, a': App, t: nat)
    requires Progs(a) && Services(a) && t < |a.prog| && a.prog[t] == Main(MainSpawnWatcher)
    requires Started(a, a', t, true) && a'.prog[t] == Main(MainWaitWatcher) && a'.prog[|a.prog|] == Watch(WatchRegister)
    requires a'.watch == a.watch.(thread := Some(|a.prog|)) && a'.http == a.http
    ensures Progs(a') && Services(a')
  {
    assert ProgOk(a, t);
    OthersStay(a, a', t);
  }

  lemma HandlerStarted(a: App, a': App, t: nat)
    requires Progs(a) && Services(a) && t < |a.prog| && a.prog[t] == Watch(WatchDispatch)
    requires Started(a, a', t, false) && a'.prog[t] == Watch(WatchLoop) && a'.prog[|a.prog|] == Handler
    requires a'.watch == a.watch && a'.http == a.http
    ensures Progs(a') && Services(a')
  {
    assert ProgOk(a, t);
    OthersStay(a, a', t);
  }

  lemma SpawnMoves(a: App, t: nat)
    requires t < |a.prog| == |a.p.threads| && a.p.threads[t].pc.SpawnChecked?
    ensures Started(a, SpawnStep(a, t), t, a.p.threads[t].pc.critical)
  {
  }

  lemma HttpSpawnKeeps(a: App, t: nat)
    requires Progs(a) && Services(a) && t < |a.prog| && a.p.threads[t].pc.SpawnChecked? && a.prog[t] == Main(MainSpawnHttp)
    ensures Progs(SpawnStep(a, t)) && Services(SpawnStep(a, t))
  {
    assert ProgOk(a, t);
    SpawnMoves(a, t);
    HttpStarted(a, SpawnStep(a, t), t);
  }

  lemma WatchSpawnKeeps(a: App, t: nat)
    requires Progs(a) && Services(a) && t < |a.prog| && a.p.threads[t].pc.SpawnChecked? && a.prog[t] == Main(MainSpawnWatcher)
    ensures Progs(SpawnStep(a, t)) && Services(SpawnStep(a, t))
  {
    assert ProgOk(a, t);
    SpawnMoves(a, t);
    WatchStarted(a, SpawnStep(a, t), t);
  }

  lemma HandlerSpawnKeeps(a: App, t: nat)
    requires Progs(a) && Services(a) && t < |a.prog| && a.p.threads[t].pc.SpawnChecked? && a.prog[t] == Watch(WatchDispatch)
    ensures Progs(SpawnStep(a, t)) && Services(SpawnStep(a, t))
  {
    assert ProgOk(a, t);
    SpawnMoves(a, t);
    HandlerStarted(a, SpawnStep(a, t), t);
  }

  lemma SpawnKeeps(a: App, t: nat)
    requires Progs(a) && Services(a) && t < |a.prog| && a.p.threads[t].pc.SpawnChecked?
    ensures Progs(SpawnStep(a, t)) && Services(SpawnStep(a, t))
  {
    assert ProgOk(a, t);
    if a.prog[t] == Main(MainSpawnHttp) { HttpSpawnKeeps(a, t); }
    else if a.prog[t] == Main(MainSpawnWatcher) { WatchSpawnKeeps(a, t); }
    else { HandlerSpawnKeeps(a, t); }
  }

  /** Threads moved, but none into or out of the end of OnTerminate. */
  lemma ServicesFrame(a: App, a': App)
    requires Services(a) && a'.prog == a.prog && a'.main == a.main && |a'.p.threads| == |a.p.threads| == |a.prog|
    requires a'.http == a.http && a'.watch == a.watch && a'.handshake == a.handshake && a'.p.registered == a.p.registered
    requires forall u :: 0 <= u < |a.prog| ==> (a'.p.threads[u].pc.RegisterUnlock? <==> a.p.threads[u].pc.RegisterUnlock?)
    ensures Services(a')
  {
  }

  lemma EndShape(s: State, t: nat)
    requires t < |s.threads| && CanContinue(s, t) && (s.threads[t].pc.Returned? || s.threads[t].pc.Released?)
    ensures var s' := JobStep(s, t); var th := s.threads[t];
      && |s'.threads| == |s.threads| && s'.registered == s.registered && s'.waiter == s.waiter
      && s'.threads == s.threads[t :=
           if th.pc.Returned? then Thread(th.kind, false, Released(th.pc.failed))
           else th.(pc := if th.pc.failed && th.kind.Job? && th.kind.critical then OnceWait else Exited(th.pc.failed))]
  {
  }

  lemma EndProgs(a: App, a': App, t: nat)
    requires Progs(a) && t < |a.prog| && CanContinue(a.p, t) && Shape(a.p.threads[t])
    requires a.p.threads[t].pc.Returned? || a.p.threads[t].pc.Released?
    requires a' == a.(p := JobStep(a.p, t))
    ensures Progs(a')
  {
    assert ProgOk(a, t);
    EndShape(a.p, t);
    OthersStay(a, a', t);
  }

  /** DoJob has returned: jobs.Done(), then perhaps Terminate. */
  lemma EndKeeps(a: App, t: nat)
    requires Progs(a) && Services(a) && t < |a.prog| && CanContinue(a.p, t) && Shape(a.p.threads[t])
    requires a.p.threads[t].pc.Returned? || a.p.threads[t].pc.Released?
    ensures var a' := a.(p := JobStep(a.p, t)); Progs(a') && Services(a')
  {
    EndShape(a.p, t);
    EndProgs(a, a.(p := JobStep(a.p, t)), t);
    ServicesFrame(a, a.(p := JobStep(a.p, t)));
  }

  // ---- Every event ----

  lemma RefinesBy(s: State, l: Label, s': State)
    requires Enabled(s, l) && s' == Step(s, l)
    ensures Refines(s, s')
  {
  }

  lemma MainPart(a: App, t: nat, pc: MainPc, o: Outcome)
    requires Progs(a) && InBody(a, t) && a.prog[t] == Main(pc)
    ensures Refines(a.p, MainStep(a, t, pc, o).p)
  {
    assert ProgOk(a, t);
    var p' := MainStep(a, t, pc, o).p;
    if o.Fails? { RefinesBy(a.p, Act(t, Return(true)), p'); }
    else if pc.MainSpawnHttp? || pc.MainSpawnWatcher? { RefinesBy(a.p, Act(t, Spawn(true)), p'); }
    else if pc.MainAwaitWatcher? { RefinesBy(a.p, Act(t, Return(false)), p'); }
  }

  lemma HttpPart(a: App, t: nat, pc: HttpPc, o: Outcome)
    requires Progs(a) && InBody(a, t) && a.prog[t] == Http(pc)
    ensures Refines(a.p, HttpStep(a, t, pc, o).p)
  {
    assert ProgOk(a, t);
    var p' := HttpStep(a, t, pc, o).p;
    if pc.HttpRegister? { RefinesBy(a.p, Act(t, Register), p'); }
    else if pc.HttpEnd? { RefinesBy(a.p, Act(t, Return(pc.failed)), p'); }
  }

  lemma WatchPart(a: App, t: nat, pc: WatchPc, o: Outcome)
    requires Progs(a) && InBody(a, t) && a.prog[t] == Watch(pc)
    ensures Refines(a.p, WatchStep(a, t, pc, o).p)
  {
    assert ProgOk(a, t);
    var p' := WatchStep(a, t, pc, o).p;
    if pc.WatchRegister? { RefinesBy(a.p, Act(t, Register), p'); }
    else if pc.WatchDispatch? { RefinesBy(a.p, Act(t, Spawn(false)), p'); }
    else if pc.WatchEnd? { RefinesBy(a.p, Act(t, Return(pc.failed)), p'); }
  }

  lemma SmallPart(a: App, t: nat, o: Outcome)
    requires Progs(a) && InBody(a, t) && !a.prog[t].Outside?
    ensures Refines(a.p, SmallStep(a, t, o).p)
  {
    assert ProgOk(a, t);
    if a.prog[t] != Shutdown(false) && a.prog[t] != CancelWatch(false) {
      RefinesBy(a.p, Act(t, Return(o.Fails?)), SmallStep(a, t, o).p);
    }
  }

  lemma DoPart(a: App, t: nat, o: Outcome)
    requires Progs(a) && DoEnabled(a, t, o)
    ensures Refines(a.p, DoStep(a, t, o).p)
  {
    match a.prog[t] {
      case Main(pc) => MainPart(a, t, pc, o);
      case Http(pc) => HttpPart(a, t, pc, o);
      case Watch(pc) => WatchPart(a, t, pc, o);
      case _ => SmallPart(a, t, o);
    }
  }

  lemma InsidePart(a: App, t: nat)
    requires t < |a.prog| == |a.p.threads| && CanContinue(a.p, t)
    ensures var pc := a.p.threads[t].pc;
      InsideStep(a, t).p == if InRegister(pc) then RegisterStep(a.p, t)
                            else if InTerminate(pc) then TerminateStep(a.p, t) else JobStep(a.p, t)
  {
  }

  /** The process machine takes one of its own actions, or none. */
  lemma ProcessPart(a: App, e: Event)
    requires AppInv(a) && Possible(a, e)
    ensures Refines(a.p, Next(a, e).p)
  {
    if e.Inside? { InsidePart(a, e.t); RefinesBy(a.p, Continue(e.t), InsideStep(a, e.t).p); }
    else if e.Do? { DoPart(a, e.t, e.outcome); }
    else if e.Wakes? { RefinesBy(a.p, Wake, Next(a, e).p); }
    else if e.Closes? { RefinesBy(a.p, CloseDone, Next(a, e).p); }
    else if e.AskTerminate? { RefinesBy(a.p, Act(e.t, CallTerminate), Next(a, e).p); }
  }

  lemma DoKeeps(a: App, t: nat, o: Outcome)
    requires Progs(a) && Services(a) && DoEnabled(a, t, o)
    ensures Progs(DoStep(a, t, o)) && Services(DoStep(a, t, o))
  {
    match a.prog[t] {
      case Main(pc) => MainProgs(a, t, pc, o); MainServices(a, t, pc, o);
      case Http(pc) => HttpProgs(a, t, pc, o); HttpServices(a, t, pc, o);
      case Watch(pc) => WatchProgs(a, t, pc, o); WatchServices(a, t, pc, o);
      case _ => SmallProgs(a, t, o); SmallServices(a, t, o);
    }
  }

  lemma InsideKeeps(a: App, t: nat)
    requires AppInv(a) && Possible(a, Inside(t))
    ensures Progs(InsideStep(a, t)) && Services(InsideStep(a, t))
  {
    assert ThreadOk(a.p, t);
    var pc := a.p.threads[t].pc;
    if pc.SpawnChecked? { SpawnKeeps(a, t); }
    else if InRegister(pc) { RegistrationKeeps(a, t); }
    else if InTerminate(pc) { TerminationKeeps(a, t); }
    else { EndKeeps(a, t); }
  }

  lemma AskKeeps(a: App, t: nat)
    requires Progs(a) && Services(a) && Possible(a, AskTerminate(t))
    ensures var a' := Next(a, AskTerminate(t)); Progs(a') && Services(a')
  {
    assert ProgOk(a, t);
    OthersStay(a, Next(a, AskTerminate(t)), t);
  }

  lemma StreamKeeps(a: App, e: Event)
    requires Progs(a) && Services(a) && Possible(a, e) && (e.Arrival? || e.StreamBreaks?)
    ensures Progs(Next(a, e)) && Services(Next(a, e))
  {
    var t := a.watch.thread.value;
    assert ProgOk(a, t);
    OthersStay(a, Next(a, e), t);
  }

  lemma QuietKeeps(a: App, e: Event)
    requires Progs(a) && Services(a) && Possible(a, e) && (e.Handshake? || e.Wakes? || e.Closes? || e.CancelAll?)
    ensures Progs(Next(a, e)) && Services(Next(a, e))
  {
    var a' := Next(a, e);
    forall u | 0 <= u < |a'.prog| ensures ProgOk(a', u) { assert ProgOk(a, u); }
    if !e.Handshake? { ServicesFrame(a, a'); }
  }

  lemma NextInv(a: App, e: Event)
    requires AppInv(a) && Possible(a, e)
    ensures AppInv(Next(a, e))
  {
    ProcessPart(a, e);
    if Next(a, e).p != a.p {
      var l :| Enabled(a.p, l) && Next(a, e).p == Step(a.p, l);
      StepInv(a.p, l);
    }
    match e {
      case Inside(t) => InsideKeeps(a, t);
      case Do(t, o) => DoKeeps(a, t, o);
      case AskTerminate(t) => AskKeeps(a, t);
      case Arrival => StreamKeeps(a, e);
      case StreamBreaks => StreamKeeps(a, e);
      case _ => QuietKeeps(a, e);
    }
  }

  lemma StartKeeps(outside: nat)
    ensures Progs(Start(outside)) && Services(Start(outside))
  {
    var a := Start(outside);
    assert a.p.threads == Init(outside).threads + [NewJob(true, None)];
    forall t | 0 <= t < |a.prog| ensures ProgOk(a, t) {
      if t < outside { assert a.p.threads[t] == Thread(External, false, Body); }
    }
  }

  lemma StartInv(outside: nat)
    ensures AppInv(Start(outside))
  {
    InitInv(outside);
    StepInv(Init(outside), OutsideSpawn(true));
    StartKeeps(outside);
  }

  lemma {:induction false} HappensInv(a: App, es: seq<Event>)
    requires AppInv(a) && Happens(a, es)
    ensures AppInv(After(a, es))
    decreases es
  {
    if es != [] {
      NextInv(a, es[0]);
      HappensInv(Next(a, es[0]), es[1..]);
    }
  }
}
