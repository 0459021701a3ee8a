/** Where everything the GitLab plugin does comes from, and what its changes mean (access/gitlab/app.go). */
module GitlabOrigins {
  import opened Common
  import opened GitlabWorkflow
  import opened GitlabResolution

  // ---- What a change of state means ----

  /** The action of the last change of r that took. */
  function LastTaken(log: seq<Entry>, r: RequestId): Option<Action> {
    if log == [] then None
    else
      var e := log[|log| - 1];
      if Took(e, r) then Some(e.action) else LastTaken(log[..|log| - 1], r)
  }

  /** An approval has approved, a denial has denied. */
  predicate SaysWhatItDid(s: State, r: RequestId) {
    && r in s.requests
    && (LastTaken(s.log, r) == Some(ApproveAction) ==> s.requests[r] == Approved)
    && (LastTaken(s.log, r) == Some(DenyAction) ==> s.requests[r] == Denied)
  }

  /** Somebody else changes or removes the request. */
  predicate TouchedOutside(l: Label, r: RequestId) {
    (l.Submit? || l.Resolve? || l.Reopen? || l.Expire?) && l.r == r
  }

  lemma LastTakenAppend(log: seq<Entry>, e: Entry, r: RequestId)
    ensures LastTaken(log + [e], r) == if Took(e, r) then Some(e.action) else LastTaken(log, r)
  {
    assert (log + [e])[..|log|] == log;
  }

  lemma LastTakenNoted(log: seq<Entry>, h: HandlerId, next: Handler, r: RequestId)
    ensures LastTaken(log + Noted(h, next), r) == LastTaken(log, r)
  {
    if Noted(h, next) == [] { assert log + [] == log; } else { LastTakenAppend(log, Noted(h, next)[0], r); }
  }

  /** The request after a change that took, whoever it was for. */
  lemma ChangeMeans(s: State, h: HandlerId, reply: Reply)
    requires Enabled(s, Go(h, reply)) && s.handlers[h].SetState?
    ensures var s' := Step(s, Go(h, reply)); var w := s.handlers[h];
      if !reply.Refused? && w.r in s.requests then
        && s'.log == s.log + [Changed(h, w.r, w.i, w.action, true)]
        && s'.requests.Keys == s.requests.Keys && s'.requests[w.r] == (if w.action == ApproveAction then Approved else Denied)
        && (forall q <- s.requests :: q != w.r ==> s'.requests[q] == s.requests[q])
      else s'.log == s.log + [Changed(h, w.r, w.i, w.action, false)] && s'.requests == s.requests
  {
    ChangeIsLogged(s, h, s.handlers[h], reply);
  }

  lemma GoSays(s: State, h: HandlerId, reply: Reply, r: RequestId)
    requires SaysWhatItDid(s, r) && Enabled(s, Go(h, reply))
    ensures SaysWhatItDid(Step(s, Go(h, reply)), r)
  {
    var s' := Step(s, Go(h, reply));
    if OfPending(s.handlers[h]) { PendingMoves(s, h, reply); }
    else if OfDeleted(s.handlers[h]) { DeletedMoves(s, h, reply); }
    else if s.handlers[h].SetState? {
      ChangeMeans(s, h, reply);
      LastTakenAppend(s.log, s'.log[|s.log|], r);
    } else {
      WebhookReads(s, h, reply);
      LastTakenNoted(s.log, h, s'.handlers[h], r);
    }
  }

  lemma {:induction false} RunSays(s: State, ls: seq<Label>, r: RequestId)
    requires SaysWhatItDid(s, r) && Runs(s, ls) && forall k :: 0 <= k < |ls| ==> !TouchedOutside(ls[k], r)
    ensures SaysWhatItDid(Exec(s, ls), r)
    decreases ls
  {
    if ls != [] {
      if ls[0].Go? { GoSays(s, ls[0].h, ls[0].reply, r); } else { OutsideMoves(s, ls[0]); }
      RunSays(Step(s, ls[0]), ls[1..], r);
    }
  }

  /** From any state, a change that takes approves or denies the request as its action says, and until somebody
      else touches the request it has the state that the last change of it says. */
  lemma ChangesMeanTheirActions(s: State, h: HandlerId, reply: Reply, ls: seq<Label>)
    requires Enabled(s, Go(h, reply)) && s.handlers[h].SetState? && s.handlers[h].r in s.requests && !reply.Refused?
    requires Runs(Step(s, Go(h, reply)), ls)
    requires forall k :: 0 <= k < |ls| ==> !TouchedOutside(ls[k], s.handlers[h].r)
    ensures var r := s.handlers[h].r;
      LastTaken(Step(s, Go(h, reply)).log, r) == Some(s.handlers[h].action) && SaysWhatItDid(Exec(Step(s, Go(h, reply)), ls), r)
  {
    var s', r := Step(s, Go(h, reply)), s.handlers[h].r;
    ChangeMeans(s, h, reply);
    LastTakenAppend(s.log, s'.log[|s.log|], r);
    RunSays(s', ls, r);
  }

  // ---- Who asked for it ----

  /** A webhook of issue i with this action arrived. */
  ghost predicate Announced(ls: seq<Label>, i: IssueId, action: Action) {
    exists description :: Webhook(i, action, description) in ls
  }

  predicate TookFor(e: Entry, i: IssueId) {
    e.Changed? && e.took && e.i == i
  }

  predicate TakenFor(log: seq<Entry>, i: IssueId) {
    exists k :: 0 <= k < |log| && TookFor(log[k], i)
  }

  ghost predicate HandlerKnown(s: State, ls: seq<Label>, h: Handler) {
    match h
    case CreateIssue(r) => PutEvent(r) in ls
    case StoreIndex(r, _) => PutEvent(r) in ls
    case SaveData(r, _) => PutEvent(r) in ls
    case Lookup(i, action, description) => Webhook(i, action, description) in ls
    case GetRequest(i, action, _) => Announced(ls, i, action)
    case GetData(i, action, _) => Announced(ls, i, action)
    case SetState(i, action, _) => Announced(ls, i, action)
    case CloseIssue(i) => TakenFor(s.log, i)
    case GetExpiredData(r) => DeleteEvent(r) in ls
    case CloseExpired(r, _) => DeleteEvent(r) in ls
    case Over => true
  }

  /** The request of issue i was deleted. */
  ghost predicate ExpiredFor(s: State, ls: seq<Label>, i: IssueId) {
    i in s.issues && DeleteEvent(s.issues[i]) in ls
  }

  ghost predicate Origins(s: State, ls: seq<Label>) {
    && (forall h :: 0 <= h < |s.handlers| ==> HandlerKnown(s, ls, s.handlers[h]))
    && (forall i <- s.issues :: PutEvent(s.issues[i]) in ls)
    && (forall k :: 0 <= k < |s.log| && s.log[k].Changed? ==> Announced(ls, s.log[k].i, s.log[k].action))
    && (forall i <- s.closed :: TakenFor(s.log, i) || ExpiredFor(s, ls, i))
  }

  lemma StaysKnown(s: State, ls: seq<Label>, s': State, more: seq<Label>, h: Handler)
    requires HandlerKnown(s, ls, h) && s.log <= s'.log && forall l <- ls :: l in more
    ensures HandlerKnown(s', more, h)
  {
    if h.CloseIssue? {
      var k :| 0 <= k < |s.log| && TookFor(s.log[k], h.i);
      assert TookFor(s'.log[k], h.i);
    } else if h.GetRequest? || h.GetData? || h.SetState? {
      var description :| Webhook(h.i, h.action, description) in ls;
      assert Webhook(h.i, h.action, description) in more;
    }
  }

  /** What is to be shown of a step: the rest of the state keeps its origins. */
  lemma KeepOrigins(s: State, s': State, ls: seq<Label>, l: Label)
    requires Origins(s, ls) && s.log <= s'.log
    requires forall h :: 0 <= h < |s'.handlers| ==>
               || (exists g :: 0 <= g < |s.handlers| && s'.handlers[h] == s.handlers[g])
               || HandlerKnown(s', ls + [l], s'.handlers[h])
    requires forall i <- s.issues :: i in s'.issues && s'.issues[i] == s.issues[i]
    requires forall i <- s'.issues :: i in s.issues || PutEvent(s'.issues[i]) in ls + [l]
    requires forall k :: |s.log| <= k < |s'.log| && s'.log[k].Changed? ==> Announced(ls + [l], s'.log[k].i, s'.log[k].action)
    requires forall i <- s'.closed :: i in s.closed || TakenFor(s'.log, i) || ExpiredFor(s', ls + [l], i)
    ensures Origins(s', ls + [l])
  {
    var more := ls + [l];
    assert forall x <- ls :: x in more;
    forall h | 0 <= h < |s'.handlers| ensures HandlerKnown(s', more, s'.handlers[h]) {
      if g :| 0 <= g < |s.handlers| && s'.handlers[h] == s.handlers[g] { StaysKnown(s, ls, s', more, s.handlers[g]); }
    }
    forall k | 0 <= k < |s.log| && s.log[k].Changed? ensures Announced(more, s.log[k].i, s.log[k].action) {
      var description :| Webhook(s.log[k].i, s.log[k].action, description) in ls;
      assert Webhook(s.log[k].i, s.log[k].action, description) in more;
    }
    forall i <- s.closed ensures TakenFor(s'.log, i) || ExpiredFor(s', more, i) {
      if TakenFor(s.log, i) {
        var k :| 0 <= k < |s.log| && TookFor(s.log[k], i);
        assert TookFor(s'.log[k], i);
      }
    }
  }

  /** One handler moves on to something it is entitled to. */
  lemma HandlerOrigins(s: State, s': State, ls: seq<Label>, l: Label, h: HandlerId)
    requires Origins(s, ls) && h < |s.handlers| == |s'.handlers| && s'.handlers == s.handlers[h := s'.handlers[h]]
    requires s.log <= s'.log && HandlerKnown(s', ls + [l], s'.handlers[h])
    requires forall i <- s.issues :: i in s'.issues && s'.issues[i] == s.issues[i]
    requires forall i <- s'.issues :: i in s.issues || PutEvent(s'.issues[i]) in ls + [l]
    requires forall k :: |s.log| <= k < |s'.log| && s'.log[k].Changed? ==> Announced(ls + [l], s'.log[k].i, s'.log[k].action)
    requires forall i <- s'.closed :: i in s.closed || TakenFor(s'.log, i) || ExpiredFor(s', ls + [l], i)
    ensures Origins(s', ls + [l])
  {
    forall g | 0 <= g < |s'.handlers|
      ensures (exists u :: 0 <= u < |s.handlers| && s'.handlers[g] == s.handlers[u]) || HandlerKnown(s', ls + [l], s'.handlers[g])
    {
      if g != h { assert s'.handlers[g] == s.handlers[g]; }
    }
    KeepOrigins(s, s', ls, l);
  }

  lemma PendingOrigins(s: State, ls: seq<Label>, h: HandlerId, reply: Reply)
    requires Origins(s, ls) && Enabled(s, Go(h, reply)) && OfPending(s.handlers[h])
    ensures Origins(PendingStep(s, h, reply), ls + [Go(h, reply)])
  {
    assert HandlerKnown(s, ls, s.handlers[h]);
    PendingMoves(s, h, reply);
    assert forall x <- ls :: x in ls + [Go(h, reply)];
    HandlerOrigins(s, PendingStep(s, h, reply), ls, Go(h, reply), h);
  }

  lemma DeletedOrigins(s: State, ls: seq<Label>, h: HandlerId, reply: Reply)
    requires Origins(s, ls) && Binding(s) && Enabled(s, Go(h, reply)) && OfDeleted(s.handlers[h])
    ensures Origins(DeletedStep(s, h, reply), ls + [Go(h, reply)])
  {
    assert HandlerKnown(s, ls, s.handlers[h]) && HandlerBound(s, s.handlers[h]);
    DeletedMoves(s, h, reply);
    assert forall x <- ls :: x in ls + [Go(h, reply)];
    HandlerOrigins(s, DeletedStep(s, h, reply), ls, Go(h, reply), h);
  }

  lemma AnnouncedStays(ls: seq<Label>, l: Label, i: IssueId, action: Action)
    requires Announced(ls, i, action)
    ensures Announced(ls + [l], i, action)
  {
    var description :| Webhook(i, action, description) in ls;
    assert Webhook(i, action, description) in ls + [l];
  }

  /** What a webhook handler closes. */
  lemma WebhookCloses(s: State, h: HandlerId, reply: Reply)
    requires h < |s.handlers|
    ensures var w := s.handlers[h];
      WebhookStep(s, h, reply).closed == if w.CloseIssue? && !reply.Refused? then s.closed + {w.i} else s.closed
  {
    if !s.handlers[h].CloseIssue? { WebhookMoves(s, h, reply); }
  }

  lemma ReadOrigins(s: State, ls: seq<Label>, h: HandlerId, reply: Reply)
    requires Origins(s, ls) && Enabled(s, Go(h, reply)) && !s.handlers[h].SetState?
    requires !OfPending(s.handlers[h]) && !OfDeleted(s.handlers[h])
    ensures Origins(WebhookStep(s, h, reply), ls + [Go(h, reply)])
  {
    var s', w := WebhookStep(s, h, reply), s.handlers[h];
    assert HandlerKnown(s, ls, w);
    WebhookMoves(s, h, reply);
    WebhookReads(s, h, reply);
    WebhookCloses(s, h, reply);
    if w.Lookup? { assert Announced(ls, w.i, w.action); }
    if w.Lookup? || w.GetRequest? || w.GetData? { AnnouncedStays(ls, Go(h, reply), w.i, w.action); }
    if w.CloseIssue? {
      var k :| 0 <= k < |s.log| && TookFor(s.log[k], w.i);
      assert TookFor(s'.log[k], w.i);
    }
    HandlerOrigins(s, s', ls, Go(h, reply), h);
  }

  lemma ChangeOrigins(s: State, ls: seq<Label>, h: HandlerId, reply: Reply)
    requires Origins(s, ls) && Enabled(s, Go(h, reply)) && s.handlers[h].SetState?
    ensures Origins(WebhookStep(s, h, reply), ls + [Go(h, reply)])
  {
    var s', w := WebhookStep(s, h, reply), s.handlers[h];
    assert HandlerKnown(s, ls, w);
    WebhookMoves(s, h, reply);
    ChangeIsLogged(s, h, w, reply);
    WebhookCloses(s, h, reply);
    AnnouncedStays(ls, Go(h, reply), w.i, w.action);
    CloseFollowsChange(s, h, reply);
    HandlerOrigins(s, s', ls, Go(h, reply), h);
  }

  lemma CloseFollowsChange(s: State, h: HandlerId, reply: Reply)
    requires Enabled(s, Go(h, reply)) && s.handlers[h].SetState?
    ensures var s' := WebhookStep(s, h, reply);
      |s'.handlers| == |s.handlers| && (s'.handlers[h].CloseIssue? ==> TakenFor(s'.log, s'.handlers[h].i))
  {
    var s' := WebhookStep(s, h, reply);
    if s'.handlers[h].CloseIssue? { assert TookFor(s'.log[|s.log|], s'.handlers[h].i); }
  }

  lemma OutsideOrigins(s: State, ls: seq<Label>, l: Label)
    requires Origins(s, ls) && Enabled(s, l) && !l.Go?
    ensures Origins(Step(s, l), ls + [l])
  {
    var s' := Step(s, l);
    forall g | 0 <= g < |s'.handlers|
      ensures (exists u :: 0 <= u < |s.handlers| && s'.handlers[g] == s.handlers[u]) || HandlerKnown(s', ls + [l], s'.handlers[g])
    {
      if g < |s.handlers| { assert s'.handlers[g] == s.handlers[g] || s'.handlers[g].Over?; }
    }
    KeepOrigins(s, s', ls, l);
  }

  lemma StepOrigins(s: State, ls: seq<Label>, l: Label)
    requires Origins(s, ls) && Binding(s) && Enabled(s, l)
    ensures Origins(Step(s, l), ls + [l])
  {
    if !l.Go? { OutsideOrigins(s, ls, l); }
    else if OfPending(s.handlers[l.h]) { PendingOrigins(s, ls, l.h, l.reply); }
    else if OfDeleted(s.handlers[l.h]) { DeletedOrigins(s, ls, l.h, l.reply); }
    else if s.handlers[l.h].SetState? { ChangeOrigins(s, ls, l.h, l.reply); }
    else { ReadOrigins(s, ls, l.h, l.reply); }
  }

  lemma {:induction false} RunOrigins(s: State, before: seq<Label>, ls: seq<Label>)
    requires Origins(s, before) && Binding(s) && Runs(s, ls)
    ensures Origins(Exec(s, ls), before + ls)
    decreases ls
  {
    if ls == [] {
      assert before + ls == before;
    } else {
      StepOrigins(s, before, ls[0]);
      StepBinding(s, ls[0]);
      RunOrigins(Step(s, ls[0]), before + [ls[0]], ls[1..]);
      assert before + [ls[0]] + ls[1..] == before + ls;
    }
  }

  lemma ReachedOrigins(ls: seq<Label>)
    requires Runs(Init(), ls)
    ensures Origins(Exec(Init(), ls), ls)
  {
    RunOrigins(Init(), [], ls);
    assert [] + ls == ls;
  }

  /** Every change the plugin asks for has the action of a webhook of that very issue. */
  lemma ChangesAreAnnounced(ls: seq<Label>, k: nat)
    requires Runs(Init(), ls) && k < |Exec(Init(), ls).log| && Exec(Init(), ls).log[k].Changed?
    ensures var e := Exec(Init(), ls).log[k]; exists description :: Webhook(e.i, e.action, description) in ls
  {
    ReachedOrigins(ls);
  }

  /** Every issue the plugin creates is for a request whose event arrived. */
  lemma IssuesComeFromEvents(ls: seq<Label>, i: IssueId)
    requires Runs(Init(), ls) && i in Exec(Init(), ls).issues
    ensures PutEvent(Exec(Init(), ls).issues[i]) in ls
  {
    ReachedOrigins(ls);
  }

  /** The plugin closes an issue only after a change on its behalf took, or when its request was deleted. */
  lemma IssuesAreClosedForAReason(ls: seq<Label>, i: IssueId)
    requires Runs(Init(), ls) && i in Exec(Init(), ls).closed
    ensures var s := Exec(Init(), ls);
      (exists k :: 0 <= k < |s.log| && TookFor(s.log[k], i)) || (i in s.issues && DeleteEvent(s.issues[i]) in ls)
  {
    ReachedOrigins(ls);
  }

  // ---- And what comes of it when every call works ----

  /** An expired request with saved data gets its issue closed. */
  lemma ExpiryClosesIssue(s: State, h: HandlerId, r: RequestId, reply: Reply)
    requires s.crashed <= h < |s.handlers| && s.handlers[h] == GetExpiredData(r) && DataOf(s, r) != 0 && reply.Works?
    ensures var ls := [Go(h, reply), Go(h, reply)];
      Runs(s, ls) && Exec(s, ls).closed == s.closed + {DataOf(s, r)} && Exec(s, ls).handlers == s.handlers[h := Over]
  {
    var s1 := Step(s, Go(h, reply));
    assert s1.handlers[h] == CloseExpired(r, DataOf(s, r));
    var s2 := Step(s1, Go(h, reply));
    Step2(s, Go(h, reply), s1, Go(h, reply), s2);
  }

  /** After a change that the plugin knows to have worked, the issue is closed next. */
  lemma ChangeClosesIssue(s: State, h: HandlerId, reply: Reply)
    requires s.crashed <= h < |s.handlers| && s.handlers[h].SetState? && s.handlers[h].r in s.requests && reply.Works?
    ensures var ls := [Go(h, reply), Go(h, reply)];
      Runs(s, ls) && Exec(s, ls).closed == s.closed + {s.handlers[h].i}
  {
    var s1 := Step(s, Go(h, reply));
    assert s1.handlers[h] == CloseIssue(s.handlers[h].i);
    var s2 := Step(s1, Go(h, reply));
    Step2(s, Go(h, reply), s1, Go(h, reply), s2);
  }

  /** Where a webhook's request comes from: the index if it answers and has one, else the description; and the
      issue and the action are those of the webhook. */
  lemma LookupFinds(s: State, h: HandlerId, i: IssueId, action: Action, description: RequestId, reply: Reply)
    requires Enabled(s, Go(h, reply)) && s.handlers[h] == Lookup(i, action, description)
    ensures var next := Step(s, Go(h, reply)).handlers;
      if reply.Works? && i in s.index && s.index[i] != "" then next == s.handlers[h := GetRequest(i, action, s.index[i])]
      else if description != "" then next == s.handlers[h := GetRequest(i, action, description)]
      else next == s.handlers[h := Over]
  {
  }

  /** A new request in three calls: an issue is created for it, the index leads from the issue to the request,
      and the plugin data from the request to the issue. */
  lemma PendingIsBound(s: State, h: HandlerId, r: RequestId, i: IssueId)
    requires s.crashed <= h < |s.handlers| && s.handlers[h] == CreateIssue(r) && i != 0 && i !in s.issues
    ensures var l := Go(h, Works(i)); var ls := [l, l, l];
      && Runs(s, ls) && Exec(s, ls).handlers == s.handlers[h := Over] && Exec(s, ls).requests == s.requests
      && Exec(s, ls).issues == s.issues[i := r] && Exec(s, ls).index == s.index[i := r]
      && Exec(s, ls).data == s.data[r := i]
  {
    var l := Go(h, Works(i));
    var s1 := Step(s, l);
    assert s1.handlers[h] == StoreIndex(r, i);
    var s2 := Step(s1, l);
    assert s2.handlers[h] == SaveData(r, i);
    Step2(s1, l, s2, l, Step(s2, l));
    assert [l, l, l][1..] == [l, l];
  }

  /** A handler ends with the first of its calls that reports an error, except that of the local lookup. */
  lemma ErrorsEndHandlers(s: State, h: HandlerId, reply: Reply)
    requires Enabled(s, Go(h, reply)) && !reply.Works? && !s.handlers[h].Lookup?
    ensures Step(s, Go(h, reply)).handlers == s.handlers[h := Over]
  {
    if !OfPending(s.handlers[h]) && !OfDeleted(s.handlers[h]) { WebhookErrors(s, h, reply); }
  }

  lemma WebhookErrors(s: State, h: HandlerId, reply: Reply)
    requires h < |s.handlers| && !reply.Works? && !s.handlers[h].Lookup?
    ensures WebhookStep(s, h, reply).handlers == s.handlers[h := Over]
  {
  }
}
