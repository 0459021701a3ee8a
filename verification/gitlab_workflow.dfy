/** The access-request workflow of access/gitlab/app.go. Every handler is a job of its own, so the
    calls it makes to Teleport, to GitLab and to the local database interleave with those of all
    other handlers. The plugin may crash at any moment and start again with what was stored. */
module GitlabWorkflow {
  type RequestId = string
  type IssueId = nat
  type HandlerId = nat

  datatype RequestState = Pending | Approved | Denied

  datatype Action = ApproveAction | DenyAction

  /** A handler with its local variables, named after the call it makes next. */
  datatype Handler =
    | CreateIssue(r: RequestId)
    | StoreIndex(r: RequestId, i: IssueId)
    | SaveData(r: RequestId, i: IssueId)
    | Lookup(i: IssueId, action: Action, description: RequestId)
    | GetRequest(i: IssueId, action: Action, r: RequestId)
    | GetData(i: IssueId, action: Action, r: RequestId)
    | SetState(i: IssueId, action: Action, r: RequestId)
    | CloseIssue(i: IssueId)
    | GetExpiredData(r: RequestId)
    | CloseExpired(r: RequestId, i: IssueId)
    | Over

  /** What the handlers saw and did. A change that took is one the auth server carried out, whether
      or not the plugin got to know. */
  datatype Entry =
    | SawPending(h: HandlerId, r: RequestId)
    | Matched(h: HandlerId, r: RequestId, i: IssueId)
    | Changed(h: HandlerId, r: RequestId, i: IssueId, action: Action, took: bool)

  datatype State = State(
    requests: map<RequestId, RequestState>,
    submitted: set<RequestId>,         // every request that ever existed
    issues: map<IssueId, RequestId>,   // every issue the plugin created, and for which request
    index: map<IssueId, RequestId>,    // the issues bucket of the local database
    data: map<RequestId, IssueId>,     // plugin data stored in Teleport, the issue ID only
    handlers: seq<Handler>,
    closed: set<IssueId>,              // the issues that the plugin closed
    crashed: nat,                      // handlers below this number died in a crash
    log: seq<Entry>)

  /** How a call of a handler ends: it works, it works but reports an error, or it does nothing. */
  datatype Reply = Works(id: IssueId) | Lost(id: IssueId) | Refused

  datatype Label =
    | Submit(r: RequestId)
    | Resolve(r: RequestId, state: RequestState)
    | Reopen(r: RequestId)
    | Expire(r: RequestId)
    | PutEvent(r: RequestId)
    | DeleteEvent(r: RequestId)
    | Webhook(i: IssueId, action: Action, description: RequestId)
    | Crash
    | Go(h: HandlerId, reply: Reply)

  function Init(): State {
    State(map[], {}, map[], map[], map[], [], {}, 0, [])
  }

  /** What is left of a handler after a crash: a request to a server may be on its way and arrive later,
      though nobody waits for the answer; reads and writes to the local database end with the process. */
  function AfterCrash(h: Handler): Handler {
    if h.CreateIssue? || h.SaveData? || h.SetState? || h.CloseIssue? || h.CloseExpired? then h else Over
  }

  predicate Enabled(s: State, l: Label) {
    match l
    case Submit(r) => r != "" && r !in s.submitted
    case Resolve(r, state) => r in s.requests && state != Pending
    case Reopen(r) => r in s.requests
    case Go(h, reply) =>
      h < |s.handlers| && !s.handlers[h].Over? && (h < s.crashed ==> reply.Lost?)
      && (s.handlers[h].CreateIssue? && !reply.Refused? ==> reply.id != 0 && reply.id !in s.issues)
    case _ => true
  }

  function Move(s: State, h: HandlerId, next: Handler): seq<Handler>
    requires h < |s.handlers|
  {
    s.handlers[h := next]
  }

  /** The issue named by the plugin data of a request; no data decodes to issue 0. */
  function DataOf(s: State, r: RequestId): IssueId {
    if r in s.data then s.data[r] else 0
  }

  /** onPendingRequest: the issue, then the index, then the plugin data. */
  function PendingStep(s: State, h: HandlerId, reply: Reply): State
    requires h < |s.handlers|
  {
    if reply.Refused? then s.(handlers := Move(s, h, Over))
    else match s.handlers[h]
    case CreateIssue(r) =>
      s.(issues := s.issues[reply.id := r],
         handlers := Move(s, h, if reply.Works? then StoreIndex(r, reply.id) else Over))
    case StoreIndex(r, i) =>
      s.(index := s.index[i := r], handlers := Move(s, h, if reply.Works? then SaveData(r, i) else Over))
    case SaveData(r, i) => s.(data := s.data[r := i], handlers := Move(s, h, Over))
    case _ => s
  }

  /** The request ID from the index, or else the one in the issue description. */
  function FoundRequest(s: State, i: IssueId, description: RequestId, reply: Reply): RequestId {
    if reply.Works? && i in s.index && s.index[i] != "" then s.index[i] else description
  }

  function Resolution(action: Action): RequestState {
    if action.ApproveAction? then Approved else Denied
  }

  /** The lookup of the issue in the local database. */
  function LookupStep(s: State, h: HandlerId, w: Handler, reply: Reply): State
    requires h < |s.handlers| && w.Lookup?
  {
    var r := FoundRequest(s, w.i, w.description, reply);
    s.(handlers := Move(s, h, if r == "" then Over else GetRequest(w.i, w.action, r)))
  }

  function GetRequestStep(s: State, h: HandlerId, w: Handler, reply: Reply): State
    requires h < |s.handlers| && w.GetRequest?
  {
    if reply.Works? && w.r in s.requests && s.requests[w.r] == Pending
    then s.(handlers := Move(s, h, GetData(w.i, w.action, w.r)), log := s.log + [SawPending(h, w.r)])
    else s.(handlers := Move(s, h, Over))
  }

  function GetDataStep(s: State, h: HandlerId, w: Handler, reply: Reply): State
    requires h < |s.handlers| && w.GetData?
  {
    if reply.Works? && DataOf(s, w.r) != 0 && DataOf(s, w.r) == w.i
    then s.(handlers := Move(s, h, SetState(w.i, w.action, w.r)), log := s.log + [Matched(h, w.r, w.i)])
    else s.(handlers := Move(s, h, Over))
  }

  function SetStateStep(s: State, h: HandlerId, w: Handler, reply: Reply): State
    requires h < |s.handlers| && w.SetState?
  {
    if !reply.Refused? && w.r in s.requests
    then s.(requests := s.requests[w.r := Resolution(w.action)], log := s.log + [Changed(h, w.r, w.i, w.action, true)],
            handlers := Move(s, h, if reply.Works? then CloseIssue(w.i) else Over))
    else s.(handlers := Move(s, h, Over), log := s.log + [Changed(h, w.r, w.i, w.action, false)])
  }

  /** onWebhookEvent, from the lookup of the issue on. */
  function WebhookStep(s: State, h: HandlerId, reply: Reply): State
    requires h < |s.handlers|
  {
    var w := s.handlers[h];
    if w.Lookup? then LookupStep(s, h, w, reply)
    else if w.GetRequest? then GetRequestStep(s, h, w, reply)
    else if w.GetData? then GetDataStep(s, h, w, reply)
    else if w.SetState? then SetStateStep(s, h, w, reply)
    else if w.CloseIssue? && !reply.Refused? then s.(handlers := Move(s, h, Over), closed := s.closed + {w.i})
    else s.(handlers := Move(s, h, Over))
  }

  /** onDeletedRequest. */
  function DeletedStep(s: State, h: HandlerId, reply: Reply): State
    requires h < |s.handlers|
  {
    match s.handlers[h]
    case GetExpiredData(r) =>
      s.(handlers := Move(s, h, if reply.Works? && DataOf(s, r) != 0 then CloseExpired(r, DataOf(s, r)) else Over))
    case CloseExpired(_, i) =>
      s.(handlers := Move(s, h, Over), closed := if reply.Refused? then s.closed else s.closed + {i})
    case _ => s.(handlers := Move(s, h, Over))
  }

  predicate OfPending(h: Handler) { h.CreateIssue? || h.StoreIndex? || h.SaveData? }

  predicate OfDeleted(h: Handler) { h.GetExpiredData? || h.CloseExpired? }

  function Step(s: State, l: Label): State
    requires Enabled(s, l)
  {
    match l
    case Submit(r) => s.(requests := s.requests[r := Pending], submitted := s.submitted + {r})
    case Resolve(r, state) => s.(requests := s.requests[r := state])
    case Reopen(r) => s.(requests := s.requests[r := Pending])
    case Expire(r) => s.(requests := s.requests - {r}, data := s.data - {r})
    case PutEvent(r) => s.(handlers := s.handlers + [CreateIssue(r)])
    case DeleteEvent(r) => s.(handlers := s.handlers + [GetExpiredData(r)])
    case Webhook(i, action, description) => s.(handlers := s.handlers + [Lookup(i, action, description)])
    case Crash =>
      s.(handlers := seq(|s.handlers|, h requires 0 <= h < |s.handlers| => AfterCrash(s.handlers[h])), crashed := |s.handlers|)
    case Go(h, reply) =>
      if OfPending(s.handlers[h]) then PendingStep(s, h, reply)
      else if OfDeleted(s.handlers[h]) then DeletedStep(s, h, reply)
      else WebhookStep(s, h, reply)
  }

  predicate Runs(s: State, ls: seq<Label>)
    decreases ls
  {
    ls == [] || (Enabled(s, ls[0]) && Runs(Step(s, ls[0]), ls[1..]))
  }

  function Exec(s: State, ls: seq<Label>): State
    requires Runs(s, ls)
    decreases ls
  {
    if ls == [] then s else Exec(Step(s, ls[0]), ls[1..])
  }

  // ---- The binding of issues to requests ----

  predicate CreatedFor(s: State, i: IssueId, r: RequestId) {
    i in s.issues && s.issues[i] == r
  }

  predicate Indexed(s: State, i: IssueId, r: RequestId) {
    i in s.index && s.index[i] == r
  }

  predicate HandlerBound(s: State, h: Handler) {
    match h
    case StoreIndex(r, i) => i != 0 && CreatedFor(s, i, r)
    case SaveData(r, i) => i != 0 && CreatedFor(s, i, r) && Indexed(s, i, r)
    case SetState(i, _, r) => CreatedFor(s, i, r)
    case CloseExpired(r, i) => i != 0 && CreatedFor(s, i, r)
    case _ => true
  }

  predicate Binding(s: State) {
    && (forall r :: r in s.data ==> s.data[r] != 0 && CreatedFor(s, s.data[r], r) && Indexed(s, s.data[r], r))
    && (forall i :: i in s.index ==> CreatedFor(s, i, s.index[i]))
    && (forall h :: 0 <= h < |s.handlers| ==> HandlerBound(s, s.handlers[h]))
  }

  lemma PendingBinding(s: State, h: HandlerId, reply: Reply)
    requires Binding(s) && Enabled(s, Go(h, reply)) && OfPending(s.handlers[h])
    ensures Binding(PendingStep(s, h, reply))
  {
    assert HandlerBound(s, s.handlers[h]);
  }

  /** Only handler h moved, and the stores of issues and plugin data were left alone. */
  predicate OnlyMoved(s: State, s': State, h: HandlerId) {
    && s'.submitted == s.submitted && s'.issues == s.issues && s'.index == s.index && s'.data == s.data
    && s'.crashed == s.crashed && h < |s.handlers| == |s'.handlers| && s'.handlers == s.handlers[h := s'.handlers[h]]
    && (!s.handlers[h].CloseIssue? ==> s'.closed == s.closed)
  }

  /** Where a webhook handler goes: forward through its checks, or nowhere. */
  predicate Forward(s: State, w: Handler, next: Handler) {
    || next.Over? || (next.CloseIssue? && w.SetState? && next.i == w.i)
    || (next.GetRequest? && w.Lookup? && next.i == w.i && next.action == w.action
        && (next.r == w.description || Indexed(s, w.i, next.r)))
    || (next.GetData? && w == GetRequest(next.i, next.action, next.r)
        && next.r in s.requests && s.requests[next.r] == Pending)
    || (next.SetState? && w == GetData(next.i, next.action, next.r) && DataOf(s, next.r) == next.i != 0)
  }

  lemma LookupMoves(s: State, h: HandlerId, w: Handler, reply: Reply)
    requires h < |s.handlers| && w.Lookup?
    ensures var s' := LookupStep(s, h, w, reply); OnlyMoved(s, s', h) && Forward(s, w, s'.handlers[h])
  {
  }

  lemma GetRequestMoves(s: State, h: HandlerId, w: Handler, reply: Reply)
    requires h < |s.handlers| && w.GetRequest?
    ensures var s' := GetRequestStep(s, h, w, reply); OnlyMoved(s, s', h) && Forward(s, w, s'.handlers[h])
  {
  }

  lemma GetDataMoves(s: State, h: HandlerId, w: Handler, reply: Reply)
    requires h < |s.handlers| && w.GetData?
    ensures var s' := GetDataStep(s, h, w, reply); OnlyMoved(s, s', h) && Forward(s, w, s'.handlers[h])
  {
  }

  lemma SetStateMoves(s: State, h: HandlerId, w: Handler, reply: Reply)
    requires h < |s.handlers| && w.SetState?
    ensures var s' := SetStateStep(s, h, w, reply); OnlyMoved(s, s', h) && Forward(s, w, s'.handlers[h])
  {
  }

  lemma WebhookMoves(s: State, h: HandlerId, reply: Reply)
    requires h < |s.handlers|
    ensures var s' := WebhookStep(s, h, reply); OnlyMoved(s, s', h) && Forward(s, s.handlers[h], s'.handlers[h])
  {
    var w := s.handlers[h];
    if w.Lookup? { LookupMoves(s, h, w, reply); }
    else if w.GetRequest? { GetRequestMoves(s, h, w, reply); }
    else if w.GetData? { GetDataMoves(s, h, w, reply); }
    else if w.SetState? { SetStateMoves(s, h, w, reply); }
  }

  /** What a webhook handler notes when it goes on to next. */
  function Noted(h: HandlerId, next: Handler): seq<Entry> {
    if next.GetData? then [SawPending(h, next.r)]
    else if next.SetState? then [Matched(h, next.r, next.i)]
    else []
  }

  /** Up to the change itself a webhook handler only reads. */
  lemma WebhookReads(s: State, h: HandlerId, reply: Reply)
    requires h < |s.handlers| && !s.handlers[h].SetState?
    ensures var s' := WebhookStep(s, h, reply);
      s'.requests == s.requests && h < |s'.handlers| && s'.log == s.log + Noted(h, s'.handlers[h])
  {
    var w := s.handlers[h];
    assert s.log + [] == s.log;
    if w.GetRequest? { GetRequestReads(s, h, w, reply); } else if w.GetData? { GetDataReads(s, h, w, reply); }
  }

  lemma GetRequestReads(s: State, h: HandlerId, w: Handler, reply: Reply)
    requires h < |s.handlers| && w.GetRequest?
    ensures var s' := GetRequestStep(s, h, w, reply);
      s'.requests == s.requests && h < |s'.handlers| && s'.log == s.log + Noted(h, s'.handlers[h])
  {
    assert s.log + [] == s.log;
  }

  lemma GetDataReads(s: State, h: HandlerId, w: Handler, reply: Reply)
    requires h < |s.handlers| && w.GetData?
    ensures var s' := GetDataStep(s, h, w, reply);
      s'.requests == s.requests && h < |s'.handlers| && s'.log == s.log + Noted(h, s'.handlers[h])
  {
    assert s.log + [] == s.log;
  }

  /** The change that a handler asks for, and whether the auth server carries it out. */
  function ChangeOf(s: State, h: HandlerId, w: Handler, reply: Reply): Entry
    requires w.SetState?
  {
    Changed(h, w.r, w.i, w.action, !reply.Refused? && w.r in s.requests)
  }

  lemma ChangeIsLogged(s: State, h: HandlerId, w: Handler, reply: Reply)
    requires h < |s.handlers| && w.SetState?
    ensures var s' := SetStateStep(s, h, w, reply); var e := ChangeOf(s, h, w, reply);
      && s'.log == s.log + [e]
      && s'.requests == (if e.took then s.requests[w.r := Resolution(w.action)] else s.requests)
      && |s'.handlers| == |s.handlers| && (s'.handlers[h].Over? || s'.handlers[h].CloseIssue?)
  {
  }

  /** The steps of the other handlers log nothing and never lead to a webhook handler. */
  lemma PendingMoves(s: State, h: HandlerId, reply: Reply)
    requires h < |s.handlers| && OfPending(s.handlers[h])
    ensures var s' := PendingStep(s, h, reply);
      && s'.log == s.log && s'.requests == s.requests && s'.submitted == s.submitted && |s'.handlers| == |s.handlers|
      && s'.handlers == s.handlers[h := s'.handlers[h]] && (OfPending(s'.handlers[h]) || s'.handlers[h].Over?)
  {
  }

  lemma DeletedMoves(s: State, h: HandlerId, reply: Reply)
    requires h < |s.handlers|
    ensures var s' := DeletedStep(s, h, reply);
      && s' == s.(handlers := s'.handlers, closed := s'.closed) && |s'.handlers| == |s.handlers|
      && s'.handlers == s.handlers[h := s'.handlers[h]] && (OfDeleted(s'.handlers[h]) || s'.handlers[h].Over?)
  {
  }

  /** So does everything else that happens. */
  lemma OutsideMoves(s: State, l: Label)
    requires Enabled(s, l) && !l.Go?
    ensures var s' := Step(s, l);
      && s'.log == s.log && |s.handlers| <= |s'.handlers|
      && forall g :: 0 <= g < |s'.handlers| ==>
           || (g < |s.handlers| && s'.handlers[g] == s.handlers[g])
           || s'.handlers[g].Over? || s'.handlers[g].CreateIssue? || s'.handlers[g].GetExpiredData? || s'.handlers[g].Lookup?
  {
  }

  lemma WebhookBinding(s: State, h: HandlerId, reply: Reply)
    requires Binding(s) && Enabled(s, Go(h, reply)) && !OfPending(s.handlers[h]) && !OfDeleted(s.handlers[h])
    ensures Binding(WebhookStep(s, h, reply))
  {
    WebhookMoves(s, h, reply);
    assert HandlerBound(s, s.handlers[h]);
  }

  lemma DeletedBinding(s: State, h: HandlerId, reply: Reply)
    requires Binding(s) && Enabled(s, Go(h, reply)) && OfDeleted(s.handlers[h])
    ensures Binding(DeletedStep(s, h, reply))
  {
    DeletedMoves(s, h, reply);
  }

  lemma StepBinding(s: State, l: Label)
    requires Binding(s) && Enabled(s, l)
    ensures Binding(Step(s, l))
  {
    if l.Go? {
      if OfPending(s.handlers[l.h]) { PendingBinding(s, l.h, l.reply); }
      else if OfDeleted(s.handlers[l.h]) { DeletedBinding(s, l.h, l.reply); }
      else { WebhookBinding(s, l.h, l.reply); }
    }
  }

  lemma {:induction false} RunsBinding(s: State, ls: seq<Label>)
    requires Binding(s) && Runs(s, ls)
    ensures Binding(Exec(s, ls))
    decreases ls
  {
    if ls != [] {
      StepBinding(s, ls[0]);
      RunsBinding(Step(s, ls[0]), ls[1..]);
    }
  }

  /** In every interleaving, crashes included: if the plugin data of a request names an issue, that
      issue was created for the request and the local index maps it back. */
  lemma DataNamesOwnIssue(ls: seq<Label>, r: RequestId)
    requires Runs(Init(), ls) && DataOf(Exec(Init(), ls), r) != 0
    ensures var s := Exec(Init(), ls); var i := DataOf(s, r); CreatedFor(s, i, r) && Indexed(s, i, r)
  {
    RunsBinding(Init(), ls);
  }

  /** And so an expired request closes an issue only if it was created for this very request. */
  lemma ExpiryClosesOwnIssue(ls: seq<Label>, h: HandlerId)
    requires Runs(Init(), ls) && h < |Exec(Init(), ls).handlers| && Exec(Init(), ls).handlers[h].CloseExpired?
    ensures var s := Exec(Init(), ls); CreatedFor(s, s.handlers[h].i, s.handlers[h].r)
  {
    RunsBinding(Init(), ls);
    assert HandlerBound(Exec(Init(), ls), Exec(Init(), ls).handlers[h]);
  }
}
