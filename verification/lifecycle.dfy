/** The jobs of a plugin on top of the process: the main job of access/gitlab/app.go, the webhook
    server job of lib/http.go, the watcher job of access/service_job.go, one handler job for every
    event, and the two termination callbacks. Calls to the outside are single actions that succeed
    or fail as the label says. */
module Lifecycle {
  import opened Common
  import opened ProcessMachine

  datatype MainPc =
    | MainInit | MainSpawnHttp | MainWaitHttp | MainSetup | MainSpawnWatcher | MainWaitWatcher
    | MainAwaitHttp | MainAwaitWatcher | MainEnd

  datatype HttpPc = HttpRegister | HttpListen | HttpServe | HttpFinish(failed: bool) | HttpEnd(failed: bool)

  datatype WatchPc =
    | WatchRegister | WatchConnect | WatchReady | WatchLoop | WatchDispatch
    | WatchFinish(failed: bool) | WatchEnd(failed: bool)

  /** What the goroutine behind a thread executes. */
  datatype Prog =
    | Outside
    | Main(mainPc: MainPc)
    | Http(httpPc: HttpPc)
    | Watch(watchPc: WatchPc)
    | Handler
    | Shutdown(called: bool)     // callback of the webhook server
    | CancelWatch(called: bool)  // callback of the watcher

  /** A service job: its thread, its latches, its termination callback and whether that callback
      has told it to stop. */
  datatype Service = Service(
    thread: Option<nat>, ready: bool, done: bool, callback: Option<nat>, stopped: bool)

  datatype App = App(
    p: State,
    prog: seq<Prog>,
    main: nat,         // the thread of the main job
    http: Service,
    watch: Service,
    handshake: bool,   // the listen address is on its way to SetReady
    cancelled: bool)   // Close cancelled the context of every job

  datatype Outcome = Succeeds | Fails | Stops

  datatype Event =
    // actions of the plugin
    | Inside(t: nat)                // thread t goes on inside a call into the process
    | Do(t: nat, outcome: Outcome)  // thread t executes the next piece of its body
    | Handshake
    | Wakes
    | Closes
    // disturbances from outside
    | AskTerminate(t: nat)
    | CancelAll
    | Arrival                       // the stream delivers another put or delete event
    | StreamBreaks                  // connection problem or end of stream: connect again

  function NoService(): Service {
    Service(None, false, false, None, false)
  }

  /** Right after Run spawned the main job; the other threads are callers outside the process. */
  function Start(outside: nat): App {
    App(Step(Init(outside), OutsideSpawn(true)), seq(outside, _ => Outside) + [Main(MainInit)], outside,
        NoService(), NoService(), false, false)
  }

  // ---- Bodies ----

  function Goto(a: App, t: nat, prog: Prog): App
    requires t < |a.prog|
  {
    a.(prog := a.prog[t := prog])
  }

  /** The body returns; prog records how far it came. */
  function Leave(a: App, t: nat, prog: Prog, failed: bool): App
    requires t < |a.prog| && t < |a.p.threads|
  {
    a.(p := ActStep(a.p, t, Return(failed)), prog := a.prog[t := prog])
  }

  predicate MainEnabled(a: App, pc: MainPc, o: Outcome) {
    match pc
    case MainInit => !o.Stops?
    case MainSetup => !o.Stops?
    case MainWaitHttp => if o.Succeeds? then a.http.ready else o.Fails? && a.cancelled
    case MainWaitWatcher => if o.Succeeds? then a.watch.ready else o.Fails? && a.cancelled
    case MainAwaitHttp => o.Succeeds? && a.http.done
    case MainAwaitWatcher => !o.Stops? && a.watch.done
    case MainEnd => false
    case _ => o.Succeeds?
  }

  /** Where the main job goes when a piece of it succeeds. */
  function AfterMain(pc: MainPc): MainPc {
    match pc
    case MainInit => MainSpawnHttp
    case MainWaitHttp => MainSetup
    case MainSetup => MainSpawnWatcher
    case MainWaitWatcher => MainAwaitHttp
    case MainAwaitHttp => MainAwaitWatcher
    case _ => pc
  }

  /** access/gitlab/app.go, run. */
  function MainStep(a: App, t: nat, pc: MainPc, o: Outcome): App
    requires t < |a.prog| && t < |a.p.threads|
  {
    if o.Fails? then Leave(a, t, Main(MainEnd), true)
    else if pc.MainSpawnHttp? || pc.MainSpawnWatcher? then a.(p := ActStep(a.p, t, Spawn(true)))
    else if pc.MainAwaitWatcher? then Leave(a, t, Main(MainEnd), false)
    else Goto(a, t, Main(AfterMain(pc)))
  }

  predicate HttpEnabled(a: App, pc: HttpPc, o: Outcome) {
    match pc
    case HttpListen => !o.Stops?
    case HttpServe => o.Fails? || (o.Stops? && (a.http.stopped || a.cancelled))
    case _ => o.Succeeds?
  }

  function AfterHttp(pc: HttpPc, o: Outcome): HttpPc {
    match pc
    case HttpListen => if o.Fails? then HttpFinish(true) else HttpServe
    case HttpServe => HttpFinish(o.Fails?)
    case HttpFinish(failed) => HttpEnd(failed)
    case _ => pc
  }

  /** lib/http.go, ServiceJob and ListenAndServe, with the finish of lib/process.go around them: listening
      sends the address on its way to SetReady, finishing closes both latches. */
  function HttpStep(a: App, t: nat, pc: HttpPc, o: Outcome): App
    requires t < |a.prog| && t < |a.p.threads|
  {
    if pc.HttpRegister? then a.(p := ActStep(a.p, t, Register))
    else if pc.HttpEnd? then Leave(a, t, Http(pc), pc.failed)
    else a.(prog := a.prog[t := Http(AfterHttp(pc, o))], handshake := a.handshake || pc.HttpListen?,
            http := if pc.HttpFinish? then a.http.(ready := true, done := true) else a.http)
  }

  predicate WatchEnabled(a: App, pc: WatchPc, o: Outcome) {
    match pc
    case WatchConnect => o.Stops? ==> a.watch.stopped || a.cancelled
    case WatchLoop => o.Fails? || (o.Stops? && (a.watch.stopped || a.cancelled))
    case _ => o.Succeeds?
  }

  function AfterWatch(pc: WatchPc, o: Outcome): WatchPc {
    match pc
    case WatchConnect => if o.Succeeds? then WatchReady else WatchFinish(o.Fails?)
    case WatchReady => WatchLoop
    case WatchLoop => WatchFinish(o.Fails?)
    case WatchFinish(failed) => WatchEnd(failed)
    case _ => pc
  }

  /** access/service_job.go, the watcher job and its event loop. */
  function WatchStep(a: App, t: nat, pc: WatchPc, o: Outcome): App
    requires t < |a.prog| && t < |a.p.threads|
  {
    if pc.WatchRegister? then a.(p := ActStep(a.p, t, Register))
    else if pc.WatchDispatch? then a.(p := ActStep(a.p, t, Spawn(false)))
    else if pc.WatchEnd? then Leave(a, t, Watch(pc), pc.failed)
    else a.(prog := a.prog[t := Watch(AfterWatch(pc, o))],
            watch := if pc.WatchReady? then a.watch.(ready := true)
                     else if pc.WatchFinish? then a.watch.(ready := true, done := true) else a.watch)
  }

  /** Handlers and callbacks: access/service_job.go line 73 and line 33, lib/http.go line 273. */
  function SmallStep(a: App, t: nat, o: Outcome): App
    requires t < |a.prog| && t < |a.p.threads|
  {
    match a.prog[t]
    case Shutdown(false) => a.(prog := a.prog[t := Shutdown(true)], http := a.http.(stopped := true))
    case CancelWatch(false) => a.(prog := a.prog[t := CancelWatch(true)], watch := a.watch.(stopped := true))
    case prog => Leave(a, t, prog, o.Fails?)
  }

  predicate InBody(a: App, t: nat) {
    t < |a.prog| && t < |a.p.threads| && a.p.threads[t].pc.Body?
  }

  predicate DoEnabled(a: App, t: nat, o: Outcome) {
    && InBody(a, t)
    && match a.prog[t]
       case Outside => false
       case Main(pc) => MainEnabled(a, pc, o)
       case Http(pc) => HttpEnabled(a, pc, o)
       case Watch(pc) => WatchEnabled(a, pc, o)
       case CancelWatch(_) => o.Succeeds?
       case _ => !o.Stops?
  }

  function DoStep(a: App, t: nat, o: Outcome): App
    requires DoEnabled(a, t, o)
  {
    match a.prog[t]
    case Main(pc) => MainStep(a, t, pc, o)
    case Http(pc) => HttpStep(a, t, pc, o)
    case Watch(pc) => WatchStep(a, t, pc, o)
    case _ => SmallStep(a, t, o)
  }

  // ---- Inside a call into the process ----

  function CallbackProg(a: App, callback: nat): Prog {
    if a.http.callback == Some(callback) then Shutdown(false) else CancelWatch(false)
  }

  /** jobs.Add(1) and the new goroutine. */
  function SpawnStep(a: App, t: nat): App
    requires t < |a.prog| && t < |a.p.threads| && a.p.threads[t].pc.SpawnChecked?
  {
    var p' := JobStep(a.p, t);
    match a.prog[t]
    case Main(MainSpawnHttp) =>
      a.(p := p', prog := a.prog[t := Main(MainWaitHttp)] + [Http(HttpRegister)],
         http := a.http.(thread := Some(|a.prog|)))
    case Main(MainSpawnWatcher) =>
      a.(p := p', prog := a.prog[t := Main(MainWaitWatcher)] + [Watch(WatchRegister)],
         watch := a.watch.(thread := Some(|a.prog|)))
    case _ => a.(p := p', prog := a.prog[t := Watch(WatchLoop)] + [Handler])
  }

  /** Inside OnTerminate. */
  function RegistrationStep(a: App, t: nat): App
    requires t < |a.prog| && t < |a.p.threads| && InRegister(a.p.threads[t].pc)
  {
    var p' := RegisterStep(a.p, t);
    var pc := a.p.threads[t].pc;
    if pc.RegisterUnlock? then
      a.(p := p', prog := a.prog[t := if a.prog[t].Http? then Http(HttpListen) else Watch(WatchConnect)])
    else if p'.registered == a.p.registered then a.(p := p')
    else
      var started := if pc.RegisterChecked? then [if a.prog[t].Http? then Shutdown(false) else CancelWatch(false)] else [];
      if a.prog[t].Http? then
        a.(p := p', prog := a.prog + started, http := a.http.(callback := Some(a.p.registered)))
      else
        a.(p := p', prog := a.prog + started, watch := a.watch.(callback := Some(a.p.registered)))
  }

  /** Inside Terminate. */
  function TerminationStep(a: App, t: nat): App
    requires t < |a.p.threads| && InTerminate(a.p.threads[t].pc)
  {
    var p' := TerminateStep(a.p, t);
    var pc := a.p.threads[t].pc;
    if pc.TermLoop? && pc.next < |a.p.pending| then
      a.(p := p', prog := a.prog + [CallbackProg(a, a.p.pending[pc.next])])
    else a.(p := p')
  }

  function InsideStep(a: App, t: nat): App
    requires t < |a.prog| && t < |a.p.threads| && CanContinue(a.p, t)
  {
    var pc := a.p.threads[t].pc;
    if pc.SpawnChecked? then SpawnStep(a, t)
    else if InRegister(pc) then RegistrationStep(a, t)
    else if InTerminate(pc) then TerminationStep(a, t)
    else a.(p := JobStep(a.p, t))
  }

  // ---- All actions ----

  predicate WatchAt(a: App, pc: WatchPc) {
    && a.watch.thread.Some? && a.watch.thread.value < |a.prog| && a.watch.thread.value < |a.p.threads|
    && a.p.threads[a.watch.thread.value].pc.Body? && a.prog[a.watch.thread.value] == Watch(pc)
  }

  predicate Possible(a: App, e: Event) {
    match e
    case Inside(t) => t < |a.prog| && t < |a.p.threads| && CanContinue(a.p, t)
    case Do(t, o) => DoEnabled(a, t, o)
    case Handshake => a.handshake
    case Wakes => Enabled(a.p, Wake)
    case Closes => Enabled(a.p, CloseDone)
    case AskTerminate(t) => t < |a.prog| && t < |a.p.threads| && a.prog[t].Outside? && a.p.threads[t].pc.Body?
    case CancelAll => true
    case Arrival => WatchAt(a, WatchLoop)
    case StreamBreaks => WatchAt(a, WatchLoop) || WatchAt(a, WatchConnect)
  }

  function Next(a: App, e: Event): App
    requires Possible(a, e)
  {
    match e
    case Inside(t) => InsideStep(a, t)
    case Do(t, o) => DoStep(a, t, o)
    case Handshake => a.(handshake := false, http := a.http.(ready := true))
    case Wakes => a.(p := Step(a.p, Wake))
    case Closes => a.(p := Step(a.p, CloseDone))
    case AskTerminate(t) => a.(p := ActStep(a.p, t, CallTerminate))
    case CancelAll => a.(cancelled := true)
    case Arrival => Goto(a, a.watch.thread.value, Watch(WatchDispatch))
    case StreamBreaks => Goto(a, a.watch.thread.value, Watch(WatchConnect))
  }

  predicate Disturbance(e: Event) {
    e.AskTerminate? || e.CancelAll? || e.Arrival? || e.StreamBreaks?
  }

  predicate Happens(a: App, es: seq<Event>)
    decreases es
  {
    es == [] || (Possible(a, es[0]) && Happens(Next(a, es[0]), es[1..]))
  }

  function After(a: App, es: seq<Event>): App
    requires Happens(a, es)
    decreases es
  {
    if es == [] then a else After(Next(a, es[0]), es[1..])
  }

  /** Every action of the application is an action of the process machine, or leaves it alone. */
  ghost predicate Refines(p: State, p': State) {
    p' == p || exists l :: Enabled(p, l) && p' == Step(p, l)
  }
}
