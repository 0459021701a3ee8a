/** The watcher of access/access.go and the event loop of access/service_job.go as two goroutines
    that meet on an unbuffered channel. The stream of the auth server is an arbitrary list of
    messages that may break off with an error at any point. */
module AccessWatcher {
  import opened Common

  datatype Error = Canceled | Eof | ConnectionProblem | Other(text: string)

  datatype Request = Request(id: string, rest: string)

  /** A message of the stream; None stands for a resource of an unexpected type. */
  datatype Message = OpInit | OpPut(request: Option<Request>) | OpDelete(id: Option<string>) | OpUnknown

  datatype Event = Put(request: Request) | Delete(id: string)

  datatype Producer = Opening | Receiving | Sending(event: Event) | Closing | Closed

  datatype Consumer = WaitInit | Loop | Spawning(event: Event) | Ended(sawDone: bool, result: Option<Error>)

  datatype State = State(
    stream: seq<Message>,
    read: nat,                // messages received so far
    producer: Producer,
    initCloses: nat,          // how often initC was closed
    err: Option<Error>,
    consumer: Consumer,
    handlers: seq<Event>,     // events for which a handler job was spawned
    cancelled: bool)

  datatype Label =
    | Open(failure: Option<Error>)
    | Receive
    | ReceiveFails(error: Error)
    | CloseDone
    | SeeInit
    | TimeOut
    | SeeDone
    | SeeCancel
    | Rendezvous
    | SpawnHandler
    | Cancel

  function Init(stream: seq<Message>): State {
    State(stream, 0, Opening, 0, None, WaitInit, [], false)
  }

  predicate Enabled(s: State, l: Label) {
    match l
    case Open(_) => s.producer.Opening?
    case Receive => s.producer.Receiving? && s.read < |s.stream|
    case ReceiveFails(_) => s.producer.Receiving?
    case CloseDone => s.producer.Closing?
    case SeeInit => s.consumer.WaitInit? && s.initCloses > 0
    case TimeOut => s.consumer.WaitInit?
    case SeeDone => (s.consumer.WaitInit? || s.consumer.Loop?) && s.producer.Closed?
    case SeeCancel => s.consumer.WaitInit? && s.cancelled
    case Rendezvous => s.consumer.Loop? && s.producer.Sending?
    case SpawnHandler => s.consumer.Spawning?
    case Cancel => true
  }

  function Fail(s: State, error: Error): State {
    s.(producer := Closing, err := Some(error))
  }

  /** One message in run: forward it, note the init message, or give up. */
  function Handle(s: State, m: Message): State {
    match m
    case OpInit => s.(initCloses := s.initCloses + 1)
    case OpPut(Some(request)) => s.(producer := Sending(Put(request)))
    case OpDelete(Some(id)) => s.(producer := Sending(Delete(id)))
    case OpPut(None) => Fail(s, Other("unexpected resource type"))
    case OpDelete(None) => Fail(s, Other("expected resource header"))
    case OpUnknown => Fail(s, Other("unexpected event op type"))
  }

  function Step(s: State, l: Label): State
    requires Enabled(s, l)
  {
    match l
    case Open(None) => s.(producer := Receiving)
    case Open(Some(error)) => Fail(s, error)
    case Receive => Handle(s.(read := s.read + 1), s.stream[s.read])
    case ReceiveFails(error) => Fail(s, error)
    case CloseDone => s.(producer := Closed)
    case SeeInit => s.(consumer := Loop)
    case TimeOut => s.(consumer := Ended(false, Some(ConnectionProblem)))
    case SeeDone => s.(consumer := Ended(true, s.err))
    case SeeCancel => s.(consumer := Ended(false, Some(Canceled)))
    case Rendezvous => s.(producer := Receiving, consumer := Spawning(s.producer.event))
    case SpawnHandler => s.(consumer := Loop, handlers := s.handlers + [s.consumer.event])
    case Cancel => s.(cancelled := true)
  }

  predicate Runs(s: State, ls: seq<Label>)
    decreases ls
  {
    ls == [] || (Enabled(s, ls[0]) && Runs(Step(s, ls[0]), ls[1..]))
  }

  function Exec(s: State, ls: seq<Label>): State
    requires Runs(s, ls)
    decreases ls
  {
    if ls == [] then s else Exec(Step(s, ls[0]), ls[1..])
  }

  // ---- What has to be delivered ----

  function Converted(m: Message): seq<Event> {
    match m
    case OpPut(Some(request)) => [Put(request)]
    case OpDelete(Some(id)) => [Delete(id)]
    case _ => []
  }

  /** The events of a list of messages, in stream order. */
  function Events(ms: seq<Message>): seq<Event> {
    if ms == [] then [] else Events(ms[..|ms| - 1]) + Converted(ms[|ms| - 1])
  }

  function OnItsWay(s: State): seq<Event> {
    (if s.consumer.Spawning? then [s.consumer.event] else [])
    + (if s.producer.Sending? then [s.producer.event] else [])
  }

  predicate Inv(s: State) {
    && s.read <= |s.stream|
    && s.handlers + OnItsWay(s) == Events(s.stream[..s.read])
    && (s.producer.Closing? || s.producer.Closed? ==> s.err.Some?)
    && (s.consumer.Ended? ==> s.consumer.result.Some?)
    && (s.consumer.Ended? && s.consumer.sawDone ==> s.producer.Closed?)
    && (s.consumer.WaitInit? ==> s.handlers == [])
  }

  /** A received event is the last one on its way. */
  lemma HandleForwards(s: State, m: Message)
    requires s.producer.Receiving?
    ensures OnItsWay(Handle(s, m)) == OnItsWay(s) + Converted(m)
  {
  }

  lemma EventsNext(ms: seq<Message>, n: nat)
    requires n < |ms|
    ensures Events(ms[..n + 1]) == Events(ms[..n]) + Converted(ms[n])
  {
    assert ms[..n + 1][..n] == ms[..n];
  }

  lemma HandleFrame(s: State, m: Message)
    requires s.producer.Receiving?
    ensures var s' := Handle(s, m);
      && s'.stream == s.stream && s'.read == s.read && s'.handlers == s.handlers && s'.consumer == s.consumer
      && !s'.producer.Closed? && (s'.producer.Closing? ==> s'.err.Some?)
  {
  }

  lemma Delivered(s: State, s': State)
    requires Inv(s) && s.read < |s.stream| && s'.read == s.read + 1 && s'.stream == s.stream
    requires s'.handlers == s.handlers && s'.consumer == s.consumer && !s.producer.Closed?
    requires !s'.producer.Closed? && (s'.producer.Closing? ==> s'.err.Some?)
    requires OnItsWay(s') == OnItsWay(s) + Converted(s.stream[s.read])
    ensures Inv(s')
  {
    EventsNext(s.stream, s.read);
  }

  lemma ReceiveInv(s: State)
    requires Inv(s) && Enabled(s, Receive)
    ensures Inv(Step(s, Receive))
  {
    var r := s.(read := s.read + 1);
    HandleForwards(r, s.stream[s.read]);
    HandleFrame(r, s.stream[s.read]);
    assert OnItsWay(r) == OnItsWay(s);
    Delivered(s, Handle(r, s.stream[s.read]));
  }

  /** Handing an event over and spawning its handler keep the order. */
  lemma HandOver(s: State, l: Label)
    requires Enabled(s, l) && (l.Rendezvous? || l.SpawnHandler?)
    ensures Step(s, l).handlers + OnItsWay(Step(s, l)) == s.handlers + OnItsWay(s)
  {
  }

  lemma StepInv(s: State, l: Label)
    requires Inv(s) && Enabled(s, l)
    ensures Inv(Step(s, l))
  {
    if l.Receive? { ReceiveInv(s); }
    else if l.Rendezvous? || l.SpawnHandler? { HandOver(s, l); }
    else { assert OnItsWay(Step(s, l)) == OnItsWay(s); }
  }

  lemma {:induction false} RunsInv(s: State, ls: seq<Label>)
    requires Inv(s) && Runs(s, ls)
    ensures Inv(Exec(s, ls)) && Exec(s, ls).stream == s.stream
    decreases ls
  {
    if ls != [] {
      StepInv(s, ls[0]);
      RunsInv(Step(s, ls[0]), ls[1..]);
    }
  }

  /** No event is lost, repeated or reordered: when the event loop sees Done, a handler job has been
      spawned for every event read from the stream, in stream order, and the error it returns is not
      nil. */
  lemma Lossless(stream: seq<Message>, ls: seq<Label>)
    requires Runs(Init(stream), ls) && Exec(Init(stream), ls).consumer.Ended?
    ensures var s := Exec(Init(stream), ls);
      && s.read <= |stream| && s.consumer.result.Some?
      && (s.consumer.sawDone ==> s.handlers == Events(stream[..s.read]) && s.producer.Closed?)
  {
    RunsInv(Init(stream), ls);
  }

  /** At any earlier moment the handlers are a prefix of the events read, at most two short. */
  lemma HandlersArePrefix(stream: seq<Message>, ls: seq<Label>)
    requires Runs(Init(stream), ls)
    ensures Exec(Init(stream), ls).read <= |stream|
    ensures var s := Exec(Init(stream), ls); var events := Events(stream[..s.read]);
      s.handlers <= events && |events| <= |s.handlers| + 2
  {
    RunsInv(Init(stream), ls);
  }

  function Inits(ms: seq<Message>): nat {
    if ms == [] then 0 else Inits(ms[..|ms| - 1]) + (if ms[|ms| - 1].OpInit? then 1 else 0)
  }

  lemma HandleInits(s: State, m: Message)
    ensures Handle(s, m).initCloses == s.initCloses + (if m.OpInit? then 1 else 0)
    ensures Handle(s, m).stream == s.stream && Handle(s, m).read == s.read
  {
  }

  lemma InitsNext(ms: seq<Message>, n: nat)
    requires n < |ms|
    ensures Inits(ms[..n + 1]) == Inits(ms[..n]) + (if ms[n].OpInit? then 1 else 0)
  {
    assert ms[..n + 1][..n] == ms[..n];
  }

  lemma StepInits(s: State, l: Label)
    requires s.read <= |s.stream| && Enabled(s, l) && s.initCloses == Inits(s.stream[..s.read])
    ensures var s' := Step(s, l);
      s'.stream == s.stream && s'.read <= |s.stream| && s'.initCloses == Inits(s.stream[..s'.read])
  {
    if l.Receive? {
      HandleInits(s.(read := s.read + 1), s.stream[s.read]);
      InitsNext(s.stream, s.read);
    }
  }

  lemma {:induction false} RunsInits(s: State, ls: seq<Label>)
    requires Inv(s) && Runs(s, ls) && s.initCloses == Inits(s.stream[..s.read])
    ensures var s' := Exec(s, ls); s'.read <= |s.stream| && s'.initCloses == Inits(s.stream[..s'.read])
    decreases ls
  {
    if ls != [] {
      StepInv(s, ls[0]);
      StepInits(s, ls[0]);
      RunsInits(Step(s, ls[0]), ls[1..]);
    }
  }

  lemma {:induction false} InitsPrefix(ms: seq<Message>, n: nat)
    requires n <= |ms|
    ensures Inits(ms[..n]) <= Inits(ms)
  {
    if n < |ms| {
      InitsPrefix(ms[..|ms| - 1], n);
      assert ms[..|ms| - 1][..n] == ms[..n];
    } else {
      assert ms[..n] == ms;
    }
  }

  /** initC is closed as often as init messages were read, so a server that sends one init message per
      stream never makes the watcher close it twice, which would panic. */
  lemma InitClosedOnce(stream: seq<Message>, ls: seq<Label>)
    requires Runs(Init(stream), ls)
    ensures var s := Exec(Init(stream), ls);
      s.read <= |stream| && s.initCloses == Inits(stream[..s.read]) <= Inits(stream)
  {
    RunsInv(Init(stream), ls);
    RunsInits(Init(stream), ls);
    InitsPrefix(stream, Exec(Init(stream), ls).read);
  }

  // ---- What the event loop returns, read off the labels of a run ----

  function Receives(ls: seq<Label>): nat {
    if ls == [] then 0 else Receives(ls[..|ls| - 1]) + (if ls[|ls| - 1].Receive? then 1 else 0)
  }

  /** The error that a message of the wrong kind leads to. */
  function BadMessage(m: Message): Option<Error> {
    match m
    case OpInit => None
    case OpPut(request) => if request.None? then Some(Other("unexpected resource type")) else None
    case OpDelete(id) => if id.None? then Some(Other("expected resource header")) else None
    case OpUnknown => Some(Other("unexpected event op type"))
  }

  /** The failure of the reader at position i of a run: the stream does not open, it breaks, or the message
      received there cannot be converted. */
  function FailureAt(stream: seq<Message>, ls: seq<Label>, i: nat): Option<Error>
    requires i < |ls|
  {
    match ls[i]
    case Open(failure) => failure
    case ReceiveFails(error) => Some(error)
    case Receive => if Receives(ls[..i]) < |stream| then BadMessage(stream[Receives(ls[..i])]) else None
    case _ => None
  }

  /** The reader failed with e. */
  ghost predicate FailedWith(stream: seq<Message>, ls: seq<Label>, e: Error) {
    exists i :: 0 <= i < |ls| && FailureAt(stream, ls, i) == Some(e)
  }

  /** What a state remembers of the labels that led to it. */
  ghost predicate Remembers(s: State, stream: seq<Message>, ls: seq<Label>) {
    && s.stream == stream && s.read == Receives(ls)
    && (forall i :: 0 <= i < |ls| && FailureAt(stream, ls, i).Some? ==>
          s.err == FailureAt(stream, ls, i) && (s.producer.Closing? || s.producer.Closed?))
    && (s.err.Some? ==> FailedWith(stream, ls, s.err.value))
    && (s.cancelled <==> Cancel in ls)
  }

  ghost predicate RemembersEnd(s: State, ls: seq<Label>) {
    && (SeeDone in ls <==> s.consumer.Ended? && s.consumer.sawDone)
    && (TimeOut in ls <==> s.consumer == Ended(false, Some(ConnectionProblem)))
    && (SeeCancel in ls <==> s.consumer == Ended(false, Some(Canceled)))
    && (s.consumer.Ended? && !s.consumer.sawDone ==> s.consumer.result in {Some(ConnectionProblem), Some(Canceled)})
    && (s.consumer.Ended? && s.consumer.sawDone ==> s.producer.Closed? && s.consumer.result == s.err)
    && (SeeCancel in ls ==> s.cancelled)
  }

  lemma FailuresStay(stream: seq<Message>, ls: seq<Label>, l: Label, i: nat)
    requires i < |ls|
    ensures FailureAt(stream, ls + [l], i) == FailureAt(stream, ls, i)
  {
    assert (ls + [l])[..i] == ls[..i];
  }

  lemma FailureNow(stream: seq<Message>, ls: seq<Label>, l: Label)
    ensures FailureAt(stream, ls + [l], |ls|)
         == match l
            case Open(failure) => failure
            case ReceiveFails(error) => Some(error)
            case Receive => if Receives(ls) < |stream| then BadMessage(stream[Receives(ls)]) else None
            case _ => None
  {
    assert (ls + [l])[..|ls|] == ls;
  }

  lemma ReceivesAppend(ls: seq<Label>, l: Label)
    ensures Receives(ls + [l]) == Receives(ls) + (if l.Receive? then 1 else 0)
  {
    assert (ls + [l])[..|ls|] == ls;
  }

  /** How a step treats the error, by its label alone. */
  lemma StepError(s: State, l: Label)
    requires Enabled(s, l)
    ensures Step(s, l).stream == s.stream && Step(s, l).read == s.read + (if l.Receive? then 1 else 0)
    ensures Step(s, l).cancelled == (s.cancelled || l.Cancel?)
    ensures var e := (match l
        case Open(failure) => failure
        case ReceiveFails(error) => Some(error)
        case Receive => BadMessage(s.stream[s.read])
        case _ => None);
      if e.Some? then Step(s, l).err == e && Step(s, l).producer.Closing? && !s.producer.Closing? && !s.producer.Closed?
      else
        && Step(s, l).err == s.err
        && (s.producer.Closing? || s.producer.Closed? ==> Step(s, l).producer.Closing? || Step(s, l).producer.Closed?)
  {
  }

  lemma StepRemembers(s: State, stream: seq<Message>, ls: seq<Label>, l: Label)
    requires Remembers(s, stream, ls) && Enabled(s, l)
    ensures Remembers(Step(s, l), stream, ls + [l])
  {
    var s', more := Step(s, l), ls + [l];
    ReceivesAppend(ls, l);
    StepError(s, l);
    FailureNow(stream, ls, l);
    forall i | 0 <= i < |more| && FailureAt(stream, more, i).Some?
      ensures s'.err == FailureAt(stream, more, i) && (s'.producer.Closing? || s'.producer.Closed?)
    {
      if i < |ls| { FailuresStay(stream, ls, l, i); }
    }
    if s'.err.Some? {
      if FailureAt(stream, more, |ls|) != s'.err {
        var i :| 0 <= i < |ls| && FailureAt(stream, ls, i) == Some(s.err.value);
        FailuresStay(stream, ls, l, i);
        assert FailureAt(stream, more, i) == Some(s'.err.value);
      }
    }
    assert forall x :: x in more <==> x in ls || x == l;
  }

  lemma StepRemembersEnd(s: State, ls: seq<Label>, l: Label)
    requires RemembersEnd(s, ls) && Enabled(s, l) && (s.cancelled <==> Cancel in ls)
    ensures RemembersEnd(Step(s, l), ls + [l])
  {
    StepError(s, l);
    assert forall x :: x in ls + [l] <==> x in ls || x == l;
  }

  lemma {:induction false} RunRemembers(s: State, stream: seq<Message>, before: seq<Label>, ls: seq<Label>)
    requires Remembers(s, stream, before) && RemembersEnd(s, before) && Runs(s, ls)
    ensures Remembers(Exec(s, ls), stream, before + ls) && RemembersEnd(Exec(s, ls), before + ls)
    decreases ls
  {
    if ls == [] {
      assert before + ls == before;
    } else {
      StepRemembers(s, stream, before, ls[0]);
      StepRemembersEnd(s, before, ls[0]);
      RunRemembers(Step(s, ls[0]), stream, before + [ls[0]], ls[1..]);
      assert before + [ls[0]] + ls[1..] == before + ls;
    }
  }

  lemma ResultRemembered(s: State, stream: seq<Message>, ls: seq<Label>)
    requires Remembers(s, stream, ls) && RemembersEnd(s, ls) && s.consumer.Ended? && s.consumer.result.Some?
    ensures SeeDone in ls || TimeOut in ls || SeeCancel in ls
    ensures SeeDone in ls ==> forall e :: FailedWith(stream, ls, e) <==> e == s.consumer.result.value
    ensures SeeCancel in ls ==> Cancel in ls
  {
  }

  /** The loop ends in exactly one of three ways. When it sees Done, its result is the error with which the
      reader failed, and the reader failed with no other; a connection problem of its own is a time-out, and a
      cancellation of its own one that it saw before the init message. */
  lemma ResultOfLabels(stream: seq<Message>, ls: seq<Label>)
    requires Runs(Init(stream), ls) && Exec(Init(stream), ls).consumer.Ended?
    ensures var c := Exec(Init(stream), ls).consumer;
      && (SeeDone in ls <==> c.sawDone)
      && (TimeOut in ls <==> c == Ended(false, Some(ConnectionProblem)))
      && (SeeCancel in ls <==> c == Ended(false, Some(Canceled)))
      && (SeeDone in ls || TimeOut in ls || SeeCancel in ls)
      && (SeeDone in ls ==> c.result.Some? && forall e :: FailedWith(stream, ls, e) <==> e == c.result.value)
      && (SeeCancel in ls ==> Cancel in ls)
  {
    RunRemembers(Init(stream), stream, [], ls);
    assert [] + ls == ls;
    RunsInv(Init(stream), ls);
    ResultRemembered(Exec(Init(stream), ls), stream, ls);
  }

  // ---- No handler before the init message ----

  predicate Connected(s: State) {
    (s.consumer.Loop? || s.consumer.Spawning? || s.handlers != []) ==> s.initCloses > 0
  }

  lemma {:induction false} RunsConnected(s: State, ls: seq<Label>)
    requires Connected(s) && Runs(s, ls)
    ensures Connected(Exec(s, ls))
    decreases ls
  {
    if ls != [] {
      ConnectedStep(s, ls[0]);
      RunsConnected(Step(s, ls[0]), ls[1..]);
    }
  }

  lemma ConnectedStep(s: State, l: Label)
    requires Connected(s) && Enabled(s, l)
    ensures Connected(Step(s, l))
  {
    if l.Receive? {
      HandleInits(s.(read := s.read + 1), s.stream[s.read]);
      HandleFrame(s.(read := s.read + 1), s.stream[s.read]);
    }
  }

  /** Events are handled only after the stream sent its init message. */
  lemma NoHandlerBeforeInit(stream: seq<Message>, ls: seq<Label>)
    requires Runs(Init(stream), ls) && Exec(Init(stream), ls).handlers != []
    ensures Exec(Init(stream), ls).read <= |stream| && Inits(stream[..Exec(Init(stream), ls).read]) > 0
  {
    RunsConnected(Init(stream), ls);
    RunsInv(Init(stream), ls);
    RunsInits(Init(stream), ls);
  }

  // ---- The reader after the event loop ----

  /** The reader sends without looking at its context, so when nobody receives any more it stays there. */
  lemma {:induction false} SendingForEver(s: State, ls: seq<Label>)
    requires s.producer.Sending? && s.consumer.Ended? && Runs(s, ls)
    ensures Exec(s, ls).producer == s.producer
    decreases ls
  {
    if ls != [] { SendingForEver(Step(s, ls[0]), ls[1..]); }
  }

  lemma OneStep(s: State, l: Label)
    requires Enabled(s, l)
    ensures Runs(s, [l]) && Exec(s, [l]) == Step(s, l)
  {
    assert Runs(Step(s, l), []);
  }

  lemma TwoSteps(s: State, l: Label, m: Label)
    requires Enabled(s, l) && Enabled(Step(s, l), m)
    ensures Runs(s, [l, m]) && Exec(s, [l, m]) == Step(Step(s, l), m)
  {
    OneStep(Step(s, l), m);
    assert [l, m][1..] == [m];
  }

  lemma ReaderFinishes(s: State) returns (ls: seq<Label>)
    requires !s.producer.Sending?
    ensures Runs(s, ls) && Exec(s, ls).producer.Closed?
  {
    if s.producer.Closed? {
      ls := [];
    } else if s.producer.Closing? {
      ls := [CloseDone];
      OneStep(s, CloseDone);
    } else {
      var giveUp := if s.producer.Opening? then Open(Some(Canceled)) else ReceiveFails(Canceled);
      ls := [giveUp, CloseDone];
      TwoSteps(s, giveUp, CloseDone);
    }
  }

  /** Once the event loop has ended, the reader can come to its end exactly if it is not sending. */
  lemma ReaderEndsUnlessSending(s: State)
    requires s.consumer.Ended?
    ensures (exists ls :: Runs(s, ls) && Exec(s, ls).producer.Closed?) <==> !s.producer.Sending?
  {
    if s.producer.Sending? {
      forall ls | Runs(s, ls) ensures !Exec(s, ls).producer.Closed? { SendingForEver(s, ls); }
    } else {
      var ls := ReaderFinishes(s);
    }
  }

  /** And it can be sending: on every stream that starts with an event before its init message, the loop
      may time out while the reader holds that event. */
  lemma TimeOutStrandsReader(stream: seq<Message>, request: Request) returns (ls: seq<Label>)
    requires stream != [] && stream[0] == OpPut(Some(request))
    ensures Runs(Init(stream), ls)
    ensures var s := Exec(Init(stream), ls); s.producer == Sending(Put(request)) && s.consumer.Ended? && s.handlers == []
  {
    ls := [Open(None), Receive, TimeOut];
    var s1 := Step(Init(stream), Open(None));
    TwoSteps(s1, Receive, TimeOut);
    assert ls[1..] == [Receive, TimeOut];
  }

  // ---- The reconnect loop ----

  datatype Verdict = Reconnect | Return(result: Option<Error>)

  /** The switch after eventLoop. */
  function Classify(err: Option<Error>): Verdict {
    if err == Some(ConnectionProblem) || err == Some(Eof) then Reconnect
    else if err == Some(Canceled) then Return(None)
    else Return(err)
  }

  /** One connection: a stream and an interleaving in which the event loop ended. */
  datatype Attempt = Attempt(stream: seq<Message>, labels: seq<Label>)

  predicate Ends(a: Attempt) {
    Runs(Init(a.stream), a.labels) && Exec(Init(a.stream), a.labels).consumer.Ended?
  }

  function Final(a: Attempt): State
    requires Ends(a)
  {
    Exec(Init(a.stream), a.labels)
  }

  ghost predicate AttemptFailed(a: Attempt, e: Error) {
    FailedWith(a.stream, a.labels, e)
  }

  /** The connection was lost: the loop timed out, or the reader failed with a connection problem or the end of
      the stream and the loop saw it. */
  ghost predicate Dropped(a: Attempt) {
    TimeOut in a.labels
    || (SeeDone in a.labels && (AttemptFailed(a, ConnectionProblem) || AttemptFailed(a, Eof)))
  }

  /** The connection was given up: the loop saw the cancellation, or the reader failed with one. */
  ghost predicate CancelledAttempt(a: Attempt) {
    SeeCancel in a.labels || (SeeDone in a.labels && AttemptFailed(a, Canceled))
  }

  lemma ResultIs(a: Attempt)
    requires Ends(a)
    ensures var result := Final(a).consumer.result;
      && (Dropped(a) <==> result == Some(ConnectionProblem) || result == Some(Eof))
      && (CancelledAttempt(a) <==> result == Some(Canceled))
      && result.Some? && (!Dropped(a) && !CancelledAttempt(a) ==> SeeDone in a.labels && AttemptFailed(a, result.value))
  {
    ResultOfLabels(a.stream, a.labels);
  }

  /** The job reconnects exactly after lost connections; it returns nil exactly when the last connection was
      given up, and otherwise the error with which its reader failed. attempts are the connections in order,
      used is how many of them the job went through. */
  method RunJob(attempts: seq<Attempt>) returns (used: nat, verdict: Verdict)
    requires forall i :: 0 <= i < |attempts| ==> Ends(attempts[i])
    ensures used <= |attempts| && (verdict.Reconnect? ==> used == |attempts|)
    ensures verdict.Return? ==> used > 0 && !Dropped(attempts[used - 1])
    ensures forall i :: 0 <= i < (if verdict.Return? then used - 1 else used) ==> Dropped(attempts[i])
    ensures verdict.Return? ==> (verdict.result.None? <==> CancelledAttempt(attempts[used - 1]))
    ensures verdict.Return? && verdict.result.Some? ==>
              SeeDone in attempts[used - 1].labels && AttemptFailed(attempts[used - 1], verdict.result.value)
  {
    used := 0;
    while used < |attempts|
      invariant used <= |attempts|
      invariant forall i :: 0 <= i < used ==> Dropped(attempts[i])
    {
      var a := attempts[used];
      ResultIs(a);
      verdict := Classify(Final(a).consumer.result);
      used := used + 1;
      if verdict.Return? { return; }
    }
    verdict := Reconnect;
  }
}
