/** After Terminate the application cannot get stuck: a rank falls with every action of its own, and
    while Done is open some action is possible that does not wait for anything outside. */
module LifecycleProgress {
  import opened Common
  import opened ProcessInvariant
  import opened ProcessMachine
  import opened ProcessRuns
  import opened Lifecycle
  import opened LifecycleInvariant

  // ---- The rank ----

  /** An upper bound on the actions a body and everything it starts can still take. */
  function BodyWeight(prog: Prog): nat {
    match prog
    case Outside => 0
    case Main(pc) => (match pc
      case MainInit => 74
      case MainSpawnHttp => 73
      case MainWaitHttp => 43
      case MainSetup => 42
      case MainSpawnWatcher => 41
      case MainWaitWatcher => 11
      case MainAwaitHttp => 10
      case MainAwaitWatcher => 9
      case MainEnd => 0)
    case Http(pc) => (match pc
      case HttpRegister => 28
      case HttpListen => 13
      case HttpServe => 11
      case HttpFinish(_) => 10
      case HttpEnd(_) => 9)
    case Watch(pc) => (match pc
      case WatchRegister => 28
      case WatchConnect => 13
      case WatchReady => 12
      case WatchLoop => 11
      case WatchDispatch => 22
      case WatchFinish(_) => 10
      case WatchEnd(_) => 9)
    case Handler => 9
    case Shutdown(called) => if called then 9 else 10
    case CancelWatch(called) => if called then 9 else 10
  }

  function Weight(th: Thread, prog: Prog): nat {
    match th.pc
    case Body => BodyWeight(prog)
    case SpawnChecked(_) => if BodyWeight(prog) == 0 then 0 else BodyWeight(prog) - 1
    case RegisterWait => 27
    case RegisterLocked => 26
    case RegisterChecked => 25
    case RegisterUnlock => 14
    case OnceWait => 6
    case TermLock => 5
    case TermLoop(_) => 4
    case TermUnlock => 3
    case TermRelease => 2
    case TermExit => 1
    case Returned(_) => 8
    case Released(_) => 7
    case Exited(_) => 0
  }

  function Total(ts: seq<Thread>, ps: seq<Prog>): nat {
    if ts == [] || |ps| != |ts| then 0
    else Total(ts[..|ts| - 1], ps[..|ts| - 1]) + Weight(ts[|ts| - 1], ps[|ts| - 1])
  }

  /** A callback that is registered but not yet spawned stands for the job it will become. */
  function Rank(a: App): int {
    Total(a.p.threads, a.prog) + 11 * (a.p.registered - |Callbacks(a.p.threads)|)
    + (if a.p.waiter.Waiting? then 2 else if a.p.waiter.Woken? then 1 else 0)
    + (if a.handshake then 1 else 0)
  }

  lemma RankIsNatural(a: App)
    requires AppInv(a)
    ensures Rank(a) >= 0
  {
  }

  lemma {:induction false} TotalUpdate(ts: seq<Thread>, ps: seq<Prog>, t: nat, th: Thread, pr: Prog)
    requires |ts| == |ps| && t < |ts|
    ensures Total(ts[t := th], ps[t := pr]) + Weight(ts[t], ps[t]) == Total(ts, ps) + Weight(th, pr)
  {
    var n := |ts| - 1;
    if t == n {
      assert ts[t := th][..n] == ts[..n] && ps[t := pr][..n] == ps[..n];
    } else {
      TotalUpdate(ts[..n], ps[..n], t, th, pr);
      assert ts[t := th][..n] == ts[..n][t := th] && ps[t := pr][..n] == ps[..n][t := pr];
    }
  }

  lemma TotalAppend(ts: seq<Thread>, ps: seq<Prog>, th: Thread, pr: Prog)
    requires |ts| == |ps|
    ensures Total(ts + [th], ps + [pr]) == Total(ts, ps) + Weight(th, pr)
  {
    assert (ts + [th])[..|ts|] == ts && (ps + [pr])[..|ts|] == ps;
  }

  lemma MovedTo(a: App, a': App, t: nat, started: Option<Thread>)
    requires t < |a.prog| == |a.p.threads| && Moved(a, a', t, started)
    ensures var ts, ps := a.p.threads[t := a'.p.threads[t]], a.prog[t := a'.prog[t]];
      if started.Some? then a'.p.threads == ts + [started.value] && a'.prog == ps + [a'.prog[|a.prog|]]
      else a'.p.threads == ts && a'.prog == ps
  {
  }

  /** The weight and the callback list after thread t moved and perhaps started a job. */
  lemma MovedTotal(a: App, a': App, t: nat, started: Option<Thread>)
    requires t < |a.prog| == |a.p.threads| && Moved(a, a', t, started)
    ensures |a'.prog| == |a'.p.threads|
    ensures Total(a'.p.threads, a'.prog) + Weight(a.p.threads[t], a.prog[t])
         == Total(a.p.threads, a.prog) + Weight(a'.p.threads[t], a'.prog[t])
            + (if started.Some? then Weight(started.value, a'.prog[|a.prog|]) else 0)
    ensures Callbacks(a'.p.threads)
         == Callbacks(a.p.threads) + (if started.Some? then CallbackOf(started.value) else [])
  {
    MovedTo(a, a', t, started);
    var ts, ps := a.p.threads[t := a'.p.threads[t]], a.prog[t := a'.prog[t]];
    TotalUpdate(a.p.threads, a.prog, t, a'.p.threads[t], a'.prog[t]);
    UpdateThread(a.p.threads, t, a'.p.threads[t]);
    if started.Some? {
      TotalAppend(ts, ps, started.value, a'.prog[|a.prog|]);
      AppendThread(ts, started.value);
    }
  }

  // ---- Every action of the application lowers the rank ----

  lemma WorkingIsWaiting(a: App, t: nat)
    requires AppInv(a) && t < |a.prog| && a.p.threads[t].pc.Body? && !a.prog[t].Outside?
    ensures a.p.threads[t].live && a.p.waiter.Waiting?
  {
    assert ThreadOk(a.p, t) && ProgOk(a, t);
    LiveThreadCounts(a.p.threads, t);
  }

  /** Thread t alone moved, and its remaining work shrank. */
  predicate Lighter(a: App, a': App, t: nat)
    requires t < |a.prog| == |a.p.threads|
  {
    && Moved(a, a', t, None) && a'.p.registered == a.p.registered && a'.p.waiter == a.p.waiter
    && Weight(a'.p.threads[t], a'.prog[t]) + (if a'.handshake then 1 else 0)
       < Weight(a.p.threads[t], a.prog[t]) + (if a.handshake then 1 else 0)
  }

  lemma LighterFalls(a: App, a': App, t: nat)
    requires t < |a.prog| == |a.p.threads| && Lighter(a, a', t)
    ensures Rank(a') < Rank(a)
  {
    MovedTotal(a, a', t, None);
  }

  lemma MainLightens(a: App, t: nat, pc: MainPc, o: Outcome)
    requires |a.prog| == |a.p.threads| && a.p.waiter.Waiting?
    requires InBody(a, t) && a.prog[t] == Main(pc) && MainEnabled(a, pc, o)
    ensures Lighter(a, MainStep(a, t, pc, o), t)
  {
  }

  lemma HttpLightens(a: App, t: nat, pc: HttpPc, o: Outcome)
    requires |a.prog| == |a.p.threads| && a.p.waiter.Waiting?
    requires InBody(a, t) && a.prog[t] == Http(pc) && HttpEnabled(a, pc, o)
    ensures Lighter(a, HttpStep(a, t, pc, o), t)
  {
  }

  lemma CallLightens(a: App, t: nat, action: Action)
    requires |a.prog| == |a.p.threads| && a.p.waiter.Waiting? && InBody(a, t)
    requires match action
             case Spawn(_) => BodyWeight(a.prog[t]) > 0
             case Register => BodyWeight(a.prog[t]) > 27
             case CallTerminate => false
             case Return(_) => BodyWeight(a.prog[t]) > 8
    ensures Lighter(a, a.(p := ActStep(a.p, t, action)), t)
  {
    ActShape(a.p, t, action);
    ActRegisters(a.p, t, action);
  }

  lemma WatchLightens(a: App, t: nat, pc: WatchPc, o: Outcome)
    requires |a.prog| == |a.p.threads| && a.p.waiter.Waiting?
    requires InBody(a, t) && a.prog[t] == Watch(pc) && WatchEnabled(a, pc, o)
    ensures Lighter(a, WatchStep(a, t, pc, o), t)
  {
    assert a.prog[t := Watch(pc)] == a.prog;
    if pc.WatchRegister? { CallLightens(a, t, Register); }
    else if pc.WatchDispatch? { CallLightens(a, t, Spawn(false)); }
    else if pc.WatchEnd? { CallLightens(a, t, Return(pc.failed)); }
  }

  lemma LeaveLightens(a: App, t: nat, failed: bool)
    requires |a.prog| == |a.p.threads| && InBody(a, t) && BodyWeight(a.prog[t]) >= 9
    ensures Lighter(a, Leave(a, t, a.prog[t], failed), t)
  {
  }

  lemma SmallLightens(a: App, t: nat, o: Outcome)
    requires |a.prog| == |a.p.threads| && InBody(a, t)
    requires a.prog[t].Handler? || a.prog[t].Shutdown? || a.prog[t].CancelWatch?
    ensures Lighter(a, SmallStep(a, t, o), t)
  {
    LeaveLightens(a, t, o.Fails?);
  }

  lemma DoFalls(a: App, t: nat, o: Outcome)
    requires AppInv(a) && DoEnabled(a, t, o)
    ensures Rank(DoStep(a, t, o)) < Rank(a)
  {
    WorkingIsWaiting(a, t);
    match a.prog[t] {
      case Main(pc) => MainLightens(a, t, pc, o);
      case Http(pc) => HttpLightens(a, t, pc, o);
      case Watch(pc) => WatchLightens(a, t, pc, o);
      case _ => SmallLightens(a, t, o);
    }
    LighterFalls(a, DoStep(a, t, o), t);
  }

  /** One new job, paid for by the thread that starts it or by the callback it carries out. */
  lemma StartFalls(a: App, a': App, t: nat, started: Thread, registered: nat)
    requires t < |a.prog| == |a.p.threads| && Moved(a, a', t, Some(started)) && started.pc.Body?
    requires a'.p.waiter == a.p.waiter && a'.handshake == a.handshake && a'.p.registered == a.p.registered + registered
    requires Weight(a'.p.threads[t], a'.prog[t]) + BodyWeight(a'.prog[|a.prog|]) + 11 * registered
             < Weight(a.p.threads[t], a.prog[t]) + 11 * |CallbackOf(started)|
    ensures Rank(a') < Rank(a)
  {
    MovedTotal(a, a', t, Some(started));
  }

  lemma SpawnFalls(a: App, t: nat)
    requires Progs(a) && t < |a.prog| && a.p.threads[t].pc.SpawnChecked?
    ensures Rank(SpawnStep(a, t)) < Rank(a)
  {
    assert ProgOk(a, t);
    SpawnMoves(a, t);
    StartFalls(a, SpawnStep(a, t), t, NewJob(a.p.threads[t].pc.critical, None), 0);
  }

  /** Where OnTerminate goes from here; the process is not finished, so the spawn does not panic. */
  lemma RegisterPath(s: State, t: nat)
    requires t < |s.threads| && InRegister(s.threads[t].pc) && s.waiter.Waiting?
    ensures var s' := RegisterStep(s, t); var pc := s.threads[t].pc;
      && s'.waiter == s.waiter && t < |s'.threads|
      && s'.threads[t].pc == (match pc
           case RegisterWait => RegisterLocked
           case RegisterLocked => if s.terminated then RegisterChecked else RegisterUnlock
           case RegisterChecked => RegisterUnlock
           case _ => Body)
  {
  }

  lemma LateCallbackFalls(a: App, t: nat)
    requires Progs(a) && t < |a.prog| && a.p.threads[t].pc.RegisterChecked? && a.p.waiter.Waiting?
    ensures Rank(RegistrationStep(a, t)) < Rank(a)
  {
    RegisterPath(a.p, t);
    RegistrationMoves(a, t);
    StartFalls(a, RegistrationStep(a, t), t, NewJob(false, Some(a.p.registered)), 1);
  }

  lemma RegistrationFalls(a: App, t: nat)
    requires Progs(a) && t < |a.prog| && InRegister(a.p.threads[t].pc) && a.p.waiter.Waiting?
    ensures Rank(RegistrationStep(a, t)) < Rank(a)
  {
    if a.p.threads[t].pc.RegisterChecked? {
      LateCallbackFalls(a, t);
    } else {
      RegisterShape(a.p, t);
      RegisterPath(a.p, t);
      RegistrationMoves(a, t);
      MovedTotal(a, RegistrationStep(a, t), t, None);
    }
  }

  lemma TerminatePath(s: State, t: nat)
    requires t < |s.threads| && InTerminate(s.threads[t].pc)
    ensures var s' := TerminateStep(s, t); var th := s.threads[t];
      && s'.waiter == s.waiter && t < |s'.threads|
      && s'.threads[t].pc == (match th.pc
           case OnceWait => if s.once.Idle? then TermLock else AfterTerminate(th)
           case TermLock => TermLoop(0)
           case TermLoop(i) => if i < |s.pending| then TermLoop(i + 1) else TermUnlock
           case TermUnlock => TermRelease
           case TermRelease => TermExit
           case _ => AfterTerminate(th))
  {
  }

  /** Nobody who calls Terminate has anything left to do afterwards. */
  lemma CallerEnds(a: App, t: nat)
    requires Progs(a) && t < |a.prog| && InTerminate(a.p.threads[t].pc)
    ensures Weight(a.p.threads[t].(pc := AfterTerminate(a.p.threads[t])), a.prog[t]) == 0
  {
    assert ProgOk(a, t);
  }

  lemma TerminationLightens(a: App, t: nat)
    requires Progs(a) && t < |a.prog| && InTerminate(a.p.threads[t].pc)
    ensures var a' := TerminationStep(a, t);
      && a'.p.waiter == a.p.waiter && |a'.p.threads| > t && |a'.prog| > t
      && Weight(a'.p.threads[t], a'.prog[t]) + (if CallbackStarted(a, t).Some? then 0 else 1)
         <= Weight(a.p.threads[t], a.prog[t])
  {
    CallerEnds(a, t);
    TerminatePath(a.p, t);
    TerminationMoves(a, t);
  }

  lemma TerminationFalls(a: App, t: nat)
    requires Progs(a) && t < |a.prog| && InTerminate(a.p.threads[t].pc)
    ensures Rank(TerminationStep(a, t)) < Rank(a)
  {
    TerminationLightens(a, t);
    TerminationMoves(a, t);
    var a' := TerminationStep(a, t);
    if CallbackStarted(a, t).Some? {
      StartFalls(a, a', t, NewJob(false, CallbackStarted(a, t)), 0);
    } else {
      LighterFalls(a, a', t);
    }
  }

  lemma EndFalls(a: App, t: nat)
    requires Progs(a) && t < |a.prog| && CanContinue(a.p, t)
    requires a.p.threads[t].pc.Returned? || a.p.threads[t].pc.Released?
    ensures Rank(a.(p := JobStep(a.p, t))) < Rank(a)
  {
    LighterFalls(a, a.(p := JobStep(a.p, t)), t);
  }

  lemma InsideFalls(a: App, t: nat)
    requires AppInv(a) && Possible(a, Inside(t))
    ensures Rank(InsideStep(a, t)) < Rank(a)
  {
    assert ThreadOk(a.p, t) && ProgOk(a, t);
    var pc := a.p.threads[t].pc;
    if pc.SpawnChecked? { SpawnFalls(a, t); }
    else if InRegister(pc) { LiveThreadCounts(a.p.threads, t); RegistrationFalls(a, t); }
    else if InTerminate(pc) { TerminationFalls(a, t); }
    else { EndFalls(a, t); }
  }

  lemma AskCost(a: App, t: nat)
    requires |a.prog| == |a.p.threads| && Possible(a, AskTerminate(t))
    ensures Rank(Next(a, AskTerminate(t))) <= Rank(a) + 11
  {
    MovedTotal(a, Next(a, AskTerminate(t)), t, None);
  }

  lemma StreamCost(a: App, pc: WatchPc)
    requires |a.prog| == |a.p.threads| && (WatchAt(a, WatchLoop) || WatchAt(a, WatchConnect))
    requires pc.WatchDispatch? || pc.WatchConnect?
    ensures Rank(Goto(a, a.watch.thread.value, Watch(pc))) <= Rank(a) + 11
  {
    var t := a.watch.thread.value;
    MovedTotal(a, Goto(a, t, Watch(pc)), t, None);
  }

  lemma DisturbanceCost(a: App, e: Event)
    requires AppInv(a) && Possible(a, e) && Disturbance(e)
    ensures Rank(Next(a, e)) <= Rank(a) + 11
  {
    if e.AskTerminate? { AskCost(a, e.t); }
    else if e.Arrival? { StreamCost(a, WatchDispatch); }
    else if e.StreamBreaks? { StreamCost(a, WatchConnect); }
  }

  /** Every action of the application itself lowers the rank, and a disturbance adds at most eleven. */
  lemma RankFalls(a: App, e: Event)
    requires AppInv(a) && Possible(a, e)
    ensures if Disturbance(e) then Rank(Next(a, e)) <= Rank(a) + 11 else Rank(Next(a, e)) < Rank(a)
  {
    if Disturbance(e) { DisturbanceCost(a, e); }
    else if e.Inside? { InsideFalls(a, e.t); }
    else if e.Do? { DoFalls(a, e.t, e.outcome); }
  }

  // ---- Something can always happen ----

  /** An action that will happen by itself: a goroutine that can run, an external call that returns.
      A server that fails on its own, a stream that breaks or a connection that succeeds are not
      counted on. */
  predicate Forced(a: App, e: Event) {
    && !Disturbance(e) && Possible(a, e)
    && (e.Do? && a.prog[e.t] == Http(HttpServe) ==> e.outcome.Stops?)
    && (e.Do? && (a.prog[e.t] == Watch(WatchConnect) || a.prog[e.t] == Watch(WatchLoop)) ==> e.outcome.Stops?)
  }

  lemma {:induction false} CallbackThreadExists(ts: seq<Thread>, c: nat) returns (t: nat)
    requires c in Callbacks(ts)
    ensures t < |ts| && ts[t].kind.Job? && ts[t].kind.callback == Some(c)
  {
    var n := |ts| - 1;
    if c in CallbackOf(ts[n]) { t := n; } else { t := CallbackThreadExists(ts[..n], c); }
  }

  /** The situation after the first call of Terminate has returned and with the mutex free. */
  predicate Calm(a: App) {
    AppInv(a) && a.p.once.Finished? && a.p.holder.None?
  }

  /** A live thread inside the process code can go on. */
  lemma InsideCanGo(a: App, t: nat)
    requires Calm(a) && t < |a.prog| && a.p.threads[t].live && !a.p.threads[t].pc.Body?
    ensures Forced(a, Inside(t))
  {
    assert ThreadOk(a.p, t) && ProgOk(a, t);
  }

  lemma CallbackSpawned(s: State, c: nat) returns (t: nat)
    requires Inv(s) && s.once.Finished? && c < s.registered
    ensures t < |s.threads| && s.threads[t].kind.Job? && s.threads[t].kind.callback == Some(c)
  {
    assert Range(s.registered)[c] == c;
    assert c in Callbacks(s.threads);
    t := CallbackThreadExists(s.threads, c);
  }

  lemma CallbackJobRuns(a: App, t: nat, c: nat)
    requires Progs(a) && t < |a.prog| && a.p.threads[t].kind.Job? && a.p.threads[t].kind.callback == Some(c)
    requires a.http.callback == Some(c) || a.watch.callback == Some(c)
    requires a.http.callback.Some? ==> a.http.callback != a.watch.callback
    ensures Forced(a, Do(t, Succeeds)) || (if a.http.callback == Some(c) then a.http.stopped else a.watch.stopped)
  {
    assert ProgOk(a, t);
  }

  /** A registered callback has run, or its job can. */
  lemma CallbackRuns(a: App, c: nat) returns (t: nat)
    requires Calm(a) && c < a.p.registered && (a.http.callback == Some(c) || a.watch.callback == Some(c))
    ensures Forced(a, Do(t, Succeeds)) || (if a.http.callback == Some(c) then a.http.stopped else a.watch.stopped)
  {
    t := CallbackSpawned(a.p, c);
    CallbackJobRuns(a, t, c);
  }

  /** The webhook server job is over or can be brought forward. */
  lemma HttpProceeds(a: App) returns (e: Event)
    requires Calm(a) && a.http.thread.Some? && !a.http.done
    ensures Forced(a, e)
  {
    var t := a.http.thread.value;
    assert ThreadOk(a.p, t) && ProgOk(a, t);
    if !a.p.threads[t].pc.Body? { InsideCanGo(a, t); return Inside(t); }
    if a.prog[t].httpPc.HttpServe? {
      if a.http.stopped { return Do(t, Stops); }
      var u := CallbackRuns(a, a.http.callback.value);
      return Do(u, Succeeds);
    }
    return Do(t, Succeeds);
  }

  /** The same for the watcher job. */
  lemma WatchProceeds(a: App) returns (e: Event)
    requires Calm(a) && a.watch.thread.Some? && !a.watch.done
    ensures Forced(a, e)
  {
    var t := a.watch.thread.value;
    assert ThreadOk(a.p, t) && ProgOk(a, t);
    if !a.p.threads[t].pc.Body? { InsideCanGo(a, t); return Inside(t); }
    if a.prog[t].watchPc.WatchConnect? || a.prog[t].watchPc.WatchLoop? {
      if a.watch.stopped { return Do(t, Stops); }
      var u := CallbackRuns(a, a.watch.callback.value);
      return Do(u, Succeeds);
    }
    return Do(t, Succeeds);
  }

  /** The main job can go on, or a job it waits for can. */
  lemma MainProceeds(a: App) returns (e: Event)
    requires Calm(a) && a.p.threads[a.main].pc.Body?
    ensures Forced(a, e)
  {
    assert ProgOk(a, a.main);
    var pc := a.prog[a.main].mainPc;
    if (pc.MainWaitHttp? && !a.http.ready) || (pc.MainAwaitHttp? && !a.http.done) {
      if a.handshake { return Handshake; }
      e := HttpProceeds(a);
    } else if (pc.MainWaitWatcher? && !a.watch.ready) || (pc.MainAwaitWatcher? && !a.watch.done) {
      e := WatchProceeds(a);
    } else {
      e := Do(a.main, Succeeds);
    }
  }

  /** Any live thread, or something it waits for, can go on. */
  lemma LiveProceeds(a: App, t: nat) returns (e: Event)
    requires Calm(a) && t < |a.prog| && a.p.threads[t].live
    ensures Forced(a, e)
  {
    assert ThreadOk(a.p, t) && ProgOk(a, t);
    if !a.p.threads[t].pc.Body? {
      InsideCanGo(a, t);
      e := Inside(t);
    } else if a.prog[t].Main? { e := MainProceeds(a); }
    else if a.prog[t].Http? && !a.http.done { e := HttpProceeds(a); }
    else if a.prog[t].Watch? && !a.watch.done { e := WatchProceeds(a); }
    else { e := Do(t, Succeeds); }
  }

  /** Whoever holds the mutex or runs the body of once.Do can go on, unless it waits for the mutex. */
  lemma OwnerProceeds(a: App) returns (e: Event)
    requires AppInv(a) && (a.p.holder.Some? || a.p.once.Running?)
    ensures Forced(a, e)
  {
    var t := if a.p.holder.Some? then a.p.holder.value else a.p.once.owner;
    assert ThreadOk(a.p, t);
    e := Inside(t);
  }

  /** No deadlock: once somebody has entered Terminate, and as long as Done is open, some action of
      the application is possible that does not wait for the outside. */
  lemma NoDeadlock(a: App) returns (e: Event)
    requires AppInv(a) && !a.p.once.Idle? && !DoneClosed(a.p)
    ensures Forced(a, e)
  {
    if a.p.waiter.Woken? { return Closes; }
    if a.p.counter == 0 { return Wakes; }
    if a.p.holder.Some? || a.p.once.Running? {
      e := OwnerProceeds(a);
    } else {
      var t := SomeLiveThread(a.p.threads);
      e := LiveProceeds(a, t);
    }
  }

  // ---- Whole runs ----

  function Disturbances(es: seq<Event>): nat {
    if es == [] then 0 else (if Disturbance(es[0]) then 1 else 0) + Disturbances(es[1..])
  }

  /** The application takes at most Rank(a) actions of its own, and at most twelve more for every
      disturbance: no interleaving goes on for ever once disturbances stop. */
  lemma {:induction false} RunsAreBounded(a: App, es: seq<Event>)
    requires AppInv(a) && Happens(a, es)
    ensures |es| <= Rank(a) + 12 * Disturbances(es)
    decreases es
  {
    if es == [] {
      RankIsNatural(a);
    } else {
      NextInv(a, es[0]);
      RankFalls(a, es[0]);
      RunsAreBounded(Next(a, es[0]), es[1..]);
    }
  }

  /** A run made of actions that happen by themselves. */
  predicate ByItself(a: App, es: seq<Event>)
    decreases es
  {
    es == [] || (Forced(a, es[0]) && ByItself(Next(a, es[0]), es[1..]))
  }

  /** Letting things happen that happen by themselves closes Done, from any situation after
      Terminate was entered and within Rank(a) actions. */
  lemma {:induction false} ShutdownCompletes(a: App) returns (es: seq<Event>)
    requires AppInv(a) && !a.p.once.Idle?
    ensures Happens(a, es) && ByItself(a, es) && |es| <= Rank(a)
    ensures DoneClosed(After(a, es).p)
    decreases Rank(a)
  {
    RankIsNatural(a);
    if DoneClosed(a.p) {
      es := [];
    } else {
      var e := NoDeadlock(a);
      RankFalls(a, e);
      NextInv(a, e);
      OnceNeverReset(a, e);
      RankIsNatural(Next(a, e));
      var rest := ShutdownCompletes(Next(a, e));
      es := [e] + rest;
      assert es[1..] == rest;
    }
  }

  lemma OnceNeverReset(a: App, e: Event)
    requires AppInv(a) && Possible(a, e) && !a.p.once.Idle?
    ensures !Next(a, e).p.once.Idle?
  {
    ProcessPart(a, e);
    if Next(a, e).p != a.p {
      var l :| Enabled(a.p, l) && Next(a, e).p == Step(a.p, l);
      OnceStays(a.p, l);
    }
  }

  lemma OnceStays(s: State, l: Label)
    requires Enabled(s, l) && !s.once.Idle?
    ensures !Step(s, l).once.Idle?
  {
  }

  /** The main statement for the application as it starts: whatever has happened, if somebody has
      entered Terminate then Done is closed or the application can go on by itself, and it needs
      no more than a bounded number of further actions to close Done. */
  lemma TerminateReachesDone(outside: nat, es: seq<Event>) returns (more: seq<Event>)
    requires Happens(Start(outside), es) && !After(Start(outside), es).p.once.Idle?
    ensures var a := After(Start(outside), es);
      && Happens(a, more) && ByItself(a, more) && |more| <= Rank(a)
      && DoneClosed(After(a, more).p)
  {
    StartInv(outside);
    HappensInv(Start(outside), es);
    more := ShutdownCompletes(After(Start(outside), es));
  }

  /** Nothing else closes Done: while nobody has entered Terminate it is open, even after Close cancelled
      the context of every job. */
  lemma CancelIsNotEnough(outside: nat, es: seq<Event>)
    requires Happens(Start(outside), es) && After(Start(outside), es).p.once.Idle?
    ensures !DoneClosed(After(Start(outside), es).p)
  {
    StartInv(outside);
    HappensInv(Start(outside), es);
  }

  // ---- Failures of critical jobs ----

  /** The body of a critical job has returned an error, and its goroutine is on its way to Terminate. */
  predicate Failing(a: App, t: nat) {
    && t < |a.prog| && t < |a.p.threads| && a.p.threads[t].kind.Job? && a.p.threads[t].kind.critical
    && (a.p.threads[t].pc == Returned(true) || a.p.threads[t].pc == Released(true)
        || (a.p.threads[t].pc.OnceWait? && !a.p.threads[t].live))
  }

  /** Unless somebody else has entered Terminate, nothing can keep it from getting there. */
  lemma FailingProceeds(a: App, t: nat)
    requires AppInv(a) && Failing(a, t) && a.p.once.Idle?
    ensures Forced(a, Inside(t))
    ensures Failing(Next(a, Inside(t)), t) || !Next(a, Inside(t)).p.once.Idle?
  {
    assert ThreadOk(a.p, t);
    if !a.p.threads[t].pc.OnceWait? { EndShape(a.p, t); }
  }

  lemma {:induction false} FailingCompletes(a: App, t: nat) returns (es: seq<Event>)
    requires AppInv(a) && Failing(a, t)
    ensures Happens(a, es) && ByItself(a, es) && |es| <= Rank(a)
    ensures DoneClosed(After(a, es).p)
    decreases Rank(a)
  {
    RankIsNatural(a);
    if a.p.once.Idle? {
      var e := Inside(t);
      FailingProceeds(a, t);
      RankFalls(a, e);
      NextInv(a, e);
      RankIsNatural(Next(a, e));
      var rest;
      if Next(a, e).p.once.Idle? { rest := FailingCompletes(Next(a, e), t); }
      else { rest := ShutdownCompletes(Next(a, e)); }
      es := [e] + rest;
      assert es[1..] == rest;
    } else {
      es := ShutdownCompletes(a);
    }
  }

  /** A critical job that has returned an error, however far its goroutine has come since, brings the whole
      application to Done by actions that happen by themselves. */
  lemma CriticalFailureReachesDone(outside: nat, es: seq<Event>, t: nat) returns (more: seq<Event>)
    requires Happens(Start(outside), es) && Failing(After(Start(outside), es), t)
    ensures var a := After(Start(outside), es);
      && Happens(a, more) && ByItself(a, more) && |more| <= Rank(a)
      && DoneClosed(After(a, more).p)
  {
    StartInv(outside);
    HappensInv(Start(outside), es);
    more := FailingCompletes(After(Start(outside), es), t);
  }
}
