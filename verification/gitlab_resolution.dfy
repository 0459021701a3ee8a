/** How often a request is resolved, and which issues can resolve it (access/gitlab/app.go). */
module GitlabResolution {
  import opened GitlabWorkflow
  import opened GitlabSafety

  // ---- Issues that cannot resolve a request ----

  /** Issue i is known to the plugin, the data of r does not name it, no handler is about to save it
      there and no handler has already matched it. */
  ghost predicate Orphan(s: State, i: IssueId, r: RequestId) {
    && i != 0 && i in s.issues && DataOf(s, r) != i
    && forall h :: 0 <= h < |s.handlers| ==> !Revives(s.handlers[h], i, r)
  }

  predicate Revives(h: Handler, i: IssueId, r: RequestId) {
    h == StoreIndex(r, i) || h == SaveData(r, i) || Matching(h, i, r)
  }

  /** The number of changes of r that were asked for on behalf of issue i. */
  function ChangesBy(log: seq<Entry>, i: IssueId, r: RequestId): nat {
    if log == [] then 0
    else ChangesBy(log[..|log| - 1], i, r)
         + (var e := log[|log| - 1]; if e.Changed? && e.i == i && e.r == r then 1 else 0)
  }

  lemma ChangesByAppend(log: seq<Entry>, e: Entry, i: IssueId, r: RequestId)
    ensures ChangesBy(log + [e], i, r) == ChangesBy(log, i, r) + (if e.Changed? && e.i == i && e.r == r then 1 else 0)
  {
    assert (log + [e])[..|log|] == log;
  }

  /** No handler has matched issue i with the plugin data of r and still has to ask for the change. */
  predicate Unmatched(s: State, i: IssueId, r: RequestId) {
    forall h :: 0 <= h < |s.handlers| ==> !Matching(s.handlers[h], i, r)
  }

  predicate Matching(h: Handler, i: IssueId, r: RequestId) {
    h.SetState? && h.i == i && h.r == r
  }

  lemma UnmatchedGo(s: State, h: HandlerId, reply: Reply, i: IssueId, r: RequestId)
    requires Enabled(s, Go(h, reply)) && Unmatched(s, i, r) && DataOf(s, r) != i
    ensures Unmatched(Step(s, Go(h, reply)), i, r)
  {
    if OfPending(s.handlers[h]) { PendingMoves(s, h, reply); }
    else if OfDeleted(s.handlers[h]) { DeletedMoves(s, h, reply); }
    else { WebhookMoves(s, h, reply); }
  }

  lemma UnmatchedStep(s: State, l: Label, i: IssueId, r: RequestId)
    requires Enabled(s, l) && Unmatched(s, i, r) && DataOf(s, r) != i
    ensures Unmatched(Step(s, l), i, r)
  {
    if l.Go? { UnmatchedGo(s, l.h, l.reply, i, r); } else { OutsideMoves(s, l); }
  }

  /** A list that Noted returns adds no change. */
  lemma NotedChanges(log: seq<Entry>, h: HandlerId, next: Handler, i: IssueId, r: RequestId)
    ensures ChangesBy(log + Noted(h, next), i, r) == ChangesBy(log, i, r)
  {
    if Noted(h, next) == [] { assert log + [] == log; } else { ChangesByAppend(log, Noted(h, next)[0], i, r); }
  }

  lemma UnmatchedWebhook(s: State, h: HandlerId, reply: Reply, i: IssueId, r: RequestId)
    requires h < |s.handlers| && Unmatched(s, i, r)
    ensures ChangesBy(WebhookStep(s, h, reply).log, i, r) == ChangesBy(s.log, i, r)
  {
    if s.handlers[h].SetState? {
      ChangeIsLogged(s, h, s.handlers[h], reply);
      ChangesByAppend(s.log, ChangeOf(s, h, s.handlers[h], reply), i, r);
    } else {
      WebhookReads(s, h, reply);
      NotedChanges(s.log, h, WebhookStep(s, h, reply).handlers[h], i, r);
    }
  }

  lemma UnmatchedChanges(s: State, l: Label, i: IssueId, r: RequestId)
    requires Enabled(s, l) && Unmatched(s, i, r)
    ensures ChangesBy(Step(s, l).log, i, r) == ChangesBy(s.log, i, r)
  {
    if !l.Go? { OutsideMoves(s, l); }
    else if OfPending(s.handlers[l.h]) { PendingMoves(s, l.h, l.reply); }
    else if OfDeleted(s.handlers[l.h]) { DeletedMoves(s, l.h, l.reply); }
    else { UnmatchedWebhook(s, l.h, l.reply, i, r); }
  }

  /** The plugin data of r never names issue i during the run. */
  predicate NeverNamed(s: State, ls: seq<Label>, i: IssueId, r: RequestId)
    requires Runs(s, ls)
    decreases ls
  {
    DataOf(s, r) != i && (ls == [] || NeverNamed(Step(s, ls[0]), ls[1..], i, r))
  }

  lemma {:induction false} NeverNamedChanges(s: State, ls: seq<Label>, i: IssueId, r: RequestId)
    requires Runs(s, ls) && Unmatched(s, i, r) && NeverNamed(s, ls, i, r)
    ensures ChangesBy(Exec(s, ls).log, i, r) == ChangesBy(s.log, i, r)
    decreases ls
  {
    if ls != [] {
      UnmatchedStep(s, ls[0], i, r);
      UnmatchedChanges(s, ls[0], i, r);
      NeverNamedChanges(Step(s, ls[0]), ls[1..], i, r);
    }
  }

  /** Webhooks of an issue that arrive before it is saved as plugin data change nothing, whatever the
      index and the issue description say, and however they interleave with the rest. */
  lemma EarlyWebhooksChangeNothing(ls: seq<Label>, i: IssueId, r: RequestId)
    requires Runs(Init(), ls) && NeverNamed(Init(), ls, i, r)
    ensures ChangesBy(Exec(Init(), ls).log, i, r) == 0
  {
    NeverNamedChanges(Init(), ls, i, r);
  }

  lemma OrphanWebhook(s: State, h: HandlerId, reply: Reply, i: IssueId, r: RequestId)
    requires Orphan(s, i, r) && Enabled(s, Go(h, reply)) && !OfPending(s.handlers[h]) && !OfDeleted(s.handlers[h])
    ensures Orphan(WebhookStep(s, h, reply), i, r)
  {
    WebhookMoves(s, h, reply);
  }

  lemma OrphanPending(s: State, h: HandlerId, reply: Reply, i: IssueId, r: RequestId)
    requires Orphan(s, i, r) && Enabled(s, Go(h, reply)) && OfPending(s.handlers[h])
    ensures Orphan(PendingStep(s, h, reply), i, r)
  {
    assert !Revives(s.handlers[h], i, r);
  }

  lemma OrphanStep(s: State, l: Label, i: IssueId, r: RequestId)
    requires Orphan(s, i, r) && Enabled(s, l)
    ensures Orphan(Step(s, l), i, r)
  {
    if l.Go? {
      if OfPending(s.handlers[l.h]) { OrphanPending(s, l.h, l.reply, i, r); }
      else if !OfDeleted(s.handlers[l.h]) { OrphanWebhook(s, l.h, l.reply, i, r); }
    }
  }

  /** An orphan, such as the issue left behind by a duplicate pending event or by a crash between two
      writes, never resolves its request again, whatever happens later. */
  lemma {:induction false} OrphanStaysPowerless(s: State, ls: seq<Label>, i: IssueId, r: RequestId)
    requires Orphan(s, i, r) && Runs(s, ls)
    ensures ChangesBy(Exec(s, ls).log, i, r) == ChangesBy(s.log, i, r)
    decreases ls
  {
    if ls != [] {
      OrphanStep(s, ls[0], i, r);
      UnmatchedChanges(s, ls[0], i, r);
      OrphanStaysPowerless(Step(s, ls[0]), ls[1..], i, r);
    }
  }

  /** A second pending event for r turns the first issue into an orphan at the moment its own issue
      is saved, unless a handler has already matched the first one, and from then on the first issue
      changes nothing. */
  lemma DuplicateLeavesOrphan(s: State, h: HandlerId, reply: Reply, first: IssueId, r: RequestId, ls: seq<Label>)
    requires Enabled(s, Go(h, reply)) && s.handlers[h].SaveData? && !reply.Refused?
    requires s.handlers[h].r == r && s.handlers[h].i != first && first in s.issues && first != 0
    requires forall g :: 0 <= g < |s.handlers| ==> !Revives(s.handlers[g], first, r)
    requires Runs(Step(s, Go(h, reply)), ls)
    ensures Orphan(Step(s, Go(h, reply)), first, r)
    ensures ChangesBy(Exec(Step(s, Go(h, reply)), ls).log, first, r) == ChangesBy(s.log, first, r)
  {
    PendingMoves(s, h, reply);
    OrphanStaysPowerless(Step(s, Go(h, reply)), ls, first, r);
  }

  // ---- Resolved at most once ----

  predicate NoReopen(ls: seq<Label>) {
    forall k :: 0 <= k < |ls| ==> !ls[k].Reopen?
  }

  predicate Took(e: Entry, r: RequestId) {
    e.Changed? && e.took && e.r == r
  }

  predicate IsPending(s: State, r: RequestId) {
    r in s.requests && s.requests[r] == Pending
  }

  /** A request that a change took on is no longer pending, and was not seen pending since. */
  ghost predicate Settled(s: State) {
    && (forall r :: r in s.requests ==> r in s.submitted)
    && (forall k :: 0 <= k < |s.log| && s.log[k].Changed? && s.log[k].took ==>
          !IsPending(s, s.log[k].r) && s.log[k].r in s.submitted)
    && (forall k, j :: 0 <= k < j < |s.log| && s.log[k].Changed? && s.log[k].took && s.log[j].SawPending? ==>
          s.log[j].r != s.log[k].r)
  }

  lemma OutsideSettled(s: State, l: Label)
    requires Settled(s) && Enabled(s, l) && !l.Reopen? && !l.Go?
    ensures Settled(Step(s, l))
  {
    OutsideMoves(s, l);
  }

  lemma StepSettled(s: State, l: Label)
    requires Settled(s) && Enabled(s, l) && !l.Reopen?
    ensures Settled(Step(s, l))
  {
    if !l.Go? { OutsideSettled(s, l); }
    else if OfPending(s.handlers[l.h]) { PendingMoves(s, l.h, l.reply); }
    else if OfDeleted(s.handlers[l.h]) { DeletedMoves(s, l.h, l.reply); }
    else { WebhookSettled(s, l.h, l.reply); }
  }

  lemma ReadSettled(s: State, h: HandlerId, reply: Reply)
    requires Settled(s) && Enabled(s, Go(h, reply)) && !s.handlers[h].SetState?
    requires !OfPending(s.handlers[h]) && !OfDeleted(s.handlers[h])
    ensures Settled(WebhookStep(s, h, reply))
  {
    WebhookMoves(s, h, reply);
    WebhookReads(s, h, reply);
  }

  lemma SetStateSettled(s: State, h: HandlerId, reply: Reply)
    requires Settled(s) && Enabled(s, Go(h, reply)) && s.handlers[h].SetState?
    ensures Settled(WebhookStep(s, h, reply))
  {
    WebhookMoves(s, h, reply);
    ChangeIsLogged(s, h, s.handlers[h], reply);
  }

  lemma WebhookSettled(s: State, h: HandlerId, reply: Reply)
    requires Settled(s) && Enabled(s, Go(h, reply)) && !OfPending(s.handlers[h]) && !OfDeleted(s.handlers[h])
    ensures Settled(WebhookStep(s, h, reply))
  {
    if s.handlers[h].SetState? { SetStateSettled(s, h, reply); } else { ReadSettled(s, h, reply); }
  }

  lemma {:induction false} RunsSettled(s: State, ls: seq<Label>)
    requires Settled(s) && Runs(s, ls) && NoReopen(ls)
    ensures Settled(Exec(s, ls))
    decreases ls
  {
    if ls != [] {
      StepSettled(s, ls[0]);
      RunsSettled(Step(s, ls[0]), ls[1..]);
    }
  }

  /** A request can be resolved twice only by overlapping handlers: the handler of the second change
      had read the request as pending before the first change took. */
  lemma SecondChangeOverlaps(ls: seq<Label>, k1: nat, k2: nat)
    requires Runs(Init(), ls) && NoReopen(ls)
    requires var log := Exec(Init(), ls).log; k1 < k2 < |log| && Took(log[k1], log[k1].r) && Took(log[k2], log[k1].r)
    ensures var log := Exec(Init(), ls).log;
      exists j :: 0 <= j < k1 && log[j] == SawPending(log[k2].h, log[k2].r)
  {
    RunsSettled(Init(), ls);
    EveryChangeIsChecked(ls, k2);
    var s := Exec(Init(), ls);
    var e := s.log[k2];
    var j, k :| 0 <= j < k < |s.log[..k2]| && s.log[..k2][j] == SawPending(e.h, e.r)
                && s.log[..k2][k] == Matched(e.h, e.r, e.i);
    assert s.log[j] == SawPending(e.h, e.r);
    assert j != k1;
  }

  /** A handler that has a webhook for r in hand. */
  predicate Working(h: Handler, r: RequestId) {
    (h.GetRequest? || h.GetData? || h.SetState?) && h.r == r
  }

  predicate OneAtATime(s: State, r: RequestId) {
    forall g, h :: 0 <= g < h < |s.handlers| ==> !(Working(s.handlers[g], r) && Working(s.handlers[h], r))
  }

  /** Webhook handlers for r never overlap during the run. */
  predicate Serial(s: State, ls: seq<Label>, r: RequestId)
    requires Runs(s, ls)
    decreases ls
  {
    OneAtATime(s, r) && (ls == [] || Serial(Step(s, ls[0]), ls[1..], r))
  }

  function TookCount(log: seq<Entry>, r: RequestId): nat {
    if log == [] then 0 else TookCount(log[..|log| - 1], r) + (if Took(log[|log| - 1], r) then 1 else 0)
  }

  lemma TookAppend(log: seq<Entry>, e: Entry, r: RequestId)
    ensures TookCount(log + [e], r) == TookCount(log, r) + (if Took(e, r) then 1 else 0)
  {
    assert (log + [e])[..|log|] == log;
  }

  /** A handler that has seen r pending and has not asked for the change yet. */
  predicate Decided(h: Handler, r: RequestId) {
    (h.GetData? || h.SetState?) && h.r == r
  }

  /** At most one change took; after it r is not pending and nobody is about to change it. */
  ghost predicate Resolved(s: State, r: RequestId) {
    && (forall q :: q in s.requests ==> q in s.submitted)
    && TookCount(s.log, r) <= 1
    && (TookCount(s.log, r) == 1 ==>
          && r in s.submitted && !IsPending(s, r)
          && forall h :: 0 <= h < |s.handlers| ==> !Decided(s.handlers[h], r))
  }

  /** Steps that add no change: nothing becomes pending again, and only a pending read decides. */
  lemma QuietResolved(s: State, s': State, r: RequestId)
    requires Resolved(s, r) && TookCount(s'.log, r) == TookCount(s.log, r)
    requires s.submitted <= s'.submitted && (forall q :: q in s'.requests ==> q in s'.submitted)
    requires r in s.submitted && IsPending(s', r) ==> IsPending(s, r)
    requires forall h :: 0 <= h < |s'.handlers| && Decided(s'.handlers[h], r) ==>
               IsPending(s, r) || (h < |s.handlers| && Decided(s.handlers[h], r))
    ensures Resolved(s', r)
  {
  }

  /** The handler that changes r was the only one working on it. */
  lemma ChangeResolves(s: State, s': State, h: HandlerId, r: RequestId)
    requires Resolved(s, r) && OneAtATime(s, r) && h < |s.handlers| && Decided(s.handlers[h], r)
    requires TookCount(s'.log, r) == TookCount(s.log, r) + 1 && !IsPending(s', r) && r in s'.submitted
    requires forall q :: q in s'.requests ==> q in s'.submitted
    requires |s'.handlers| == |s.handlers| && !Decided(s'.handlers[h], r)
    requires forall g :: 0 <= g < |s.handlers| && g != h ==> s'.handlers[g] == s.handlers[g]
    ensures Resolved(s', r)
  {
    forall g | 0 <= g < |s'.handlers| ensures !Decided(s'.handlers[g], r) {
      assert g != h ==> !(Working(s.handlers[g], r) && Working(s.handlers[h], r));
    }
  }

  lemma SetStateResolved(s: State, h: HandlerId, reply: Reply, r: RequestId)
    requires Resolved(s, r) && OneAtATime(s, r) && Enabled(s, Go(h, reply)) && s.handlers[h].SetState?
    ensures Resolved(WebhookStep(s, h, reply), r)
  {
    var s', e := WebhookStep(s, h, reply), ChangeOf(s, h, s.handlers[h], reply);
    WebhookMoves(s, h, reply);
    ChangeIsLogged(s, h, s.handlers[h], reply);
    TookAppend(s.log, e, r);
    if Took(e, r) { ChangeResolves(s, s', h, r); } else { QuietResolved(s, s', r); }
  }

  lemma NotedTakes(log: seq<Entry>, h: HandlerId, next: Handler, r: RequestId)
    ensures TookCount(log + Noted(h, next), r) == TookCount(log, r)
  {
    if Noted(h, next) == [] { assert log + [] == log; } else { TookAppend(log, Noted(h, next)[0], r); }
  }

  lemma ReadResolved(s: State, h: HandlerId, reply: Reply, r: RequestId)
    requires Resolved(s, r) && Enabled(s, Go(h, reply)) && !s.handlers[h].SetState?
    requires !OfPending(s.handlers[h]) && !OfDeleted(s.handlers[h])
    ensures Resolved(WebhookStep(s, h, reply), r)
  {
    WebhookMoves(s, h, reply);
    WebhookReads(s, h, reply);
    NotedTakes(s.log, h, WebhookStep(s, h, reply).handlers[h], r);
    QuietResolved(s, WebhookStep(s, h, reply), r);
  }

  lemma StepResolved(s: State, l: Label, r: RequestId)
    requires Resolved(s, r) && OneAtATime(s, r) && Enabled(s, l) && !l.Reopen?
    ensures Resolved(Step(s, l), r)
  {
    if !l.Go? { QuietResolved(s, Step(s, l), r); }
    else if OfPending(s.handlers[l.h]) { PendingMoves(s, l.h, l.reply); QuietResolved(s, Step(s, l), r); }
    else if OfDeleted(s.handlers[l.h]) { DeletedMoves(s, l.h, l.reply); QuietResolved(s, Step(s, l), r); }
    else if s.handlers[l.h].SetState? { SetStateResolved(s, l.h, l.reply, r); }
    else { ReadResolved(s, l.h, l.reply, r); }
  }

  lemma {:induction false} RunsResolved(s: State, ls: seq<Label>, r: RequestId)
    requires Resolved(s, r) && Runs(s, ls) && NoReopen(ls) && Serial(s, ls, r)
    ensures Resolved(Exec(s, ls), r)
    decreases ls
  {
    if ls != [] {
      StepResolved(s, ls[0], r);
      RunsResolved(Step(s, ls[0]), ls[1..], r);
    }
  }

  /** If webhook handlers for r do not overlap and nobody reopens a request, the plugin resolves r at
      most once. */
  lemma ResolvedAtMostOnce(ls: seq<Label>, r: RequestId)
    requires Runs(Init(), ls) && NoReopen(ls) && Serial(Init(), ls, r)
    ensures TookCount(Exec(Init(), ls).log, r) <= 1
  {
    RunsResolved(Init(), ls, r);
  }

  // ---- Overlapping handlers ----

  predicate Leads(s: State, ls: seq<Label>, s': State) {
    Runs(s, ls) && NoReopen(ls) && Exec(s, ls) == s'
  }

  lemma Step1(s: State, l: Label, s': State)
    requires Enabled(s, l) && Step(s, l) == s' && !l.Reopen?
    ensures Leads(s, [l], s')
  {
  }

  lemma Cons(s: State, l: Label, ls: seq<Label>)
    requires Enabled(s, l) && Runs(Step(s, l), ls)
    ensures Runs(s, [l] + ls) && Exec(s, [l] + ls) == Exec(Step(s, l), ls)
  {
    assert ([l] + ls)[1..] == ls;
  }

  lemma {:induction false} RunOn(s: State, ls: seq<Label>, more: seq<Label>)
    requires Runs(s, ls) && Runs(Exec(s, ls), more)
    ensures Runs(s, ls + more) && Exec(s, ls + more) == Exec(Exec(s, ls), more)
    decreases ls
  {
    if ls == [] {
      assert ls + more == more;
    } else {
      RunOn(Step(s, ls[0]), ls[1..], more);
      Cons(s, ls[0], ls[1..] + more);
      assert ls + more == [ls[0]] + (ls[1..] + more);
    }
  }

  lemma Chain(s: State, ls: seq<Label>, s1: State, more: seq<Label>, s2: State)
    requires Leads(s, ls, s1) && Leads(s1, more, s2)
    ensures Leads(s, ls + more, s2)
  {
    RunOn(s, ls, more);
  }

  /** Two steps in a row. */
  lemma Step2(s: State, l1: Label, s1: State, l2: Label, s2: State)
    requires Enabled(s, l1) && Step(s, l1) == s1 && !l1.Reopen?
    requires Enabled(s1, l2) && Step(s1, l2) == s2 && !l2.Reopen?
    ensures Leads(s, [l1, l2], s2)
  {
    Step1(s, l1, s1);
    Step1(s1, l2, s2);
    Chain(s, [l1], s1, [l2], s2);
    assert [l1] + [l2] == [l1, l2];
  }

  /** A request that waits for its resolution, with its issue saved. */
  predicate Ready(s: State, i: IssueId, r: RequestId) {
    && r != "" && i != 0 && s.crashed <= |s.handlers|
    && IsPending(s, r) && DataOf(s, r) == i && Indexed(s, i, r)
  }

  /** s' differs from s only in its log and in what handler h does. */
  predicate OnlyHandler(s: State, s': State, h: HandlerId, next: Handler) {
    && h < |s.handlers| && s'.handlers == s.handlers[h := next] && s'.requests == s.requests && s'.data == s.data
    && s'.index == s.index && s'.crashed == s.crashed
  }

  const GO := Works(0)

  lemma LookupPasses(s: State, h: HandlerId, i: IssueId, action: Action, description: RequestId, r: RequestId)
    requires Ready(s, i, r) && s.crashed <= h < |s.handlers| && s.handlers[h] == Lookup(i, action, description)
    ensures Enabled(s, Go(h, GO)) && OnlyHandler(s, Step(s, Go(h, GO)), h, GetRequest(i, action, r))
    ensures Step(s, Go(h, GO)).log == s.log
  {
  }

  lemma GetRequestPasses(s: State, h: HandlerId, i: IssueId, action: Action, r: RequestId)
    requires Ready(s, i, r) && s.crashed <= h < |s.handlers| && s.handlers[h] == GetRequest(i, action, r)
    ensures Enabled(s, Go(h, GO)) && OnlyHandler(s, Step(s, Go(h, GO)), h, GetData(i, action, r))
    ensures TookCount(Step(s, Go(h, GO)).log, r) == TookCount(s.log, r)
  {
    TookAppend(s.log, SawPending(h, r), r);
  }

  lemma GetDataPasses(s: State, h: HandlerId, i: IssueId, action: Action, r: RequestId)
    requires Ready(s, i, r) && s.crashed <= h < |s.handlers| && s.handlers[h] == GetData(i, action, r)
    ensures Enabled(s, Go(h, GO)) && OnlyHandler(s, Step(s, Go(h, GO)), h, SetState(i, action, r))
    ensures TookCount(Step(s, Go(h, GO)).log, r) == TookCount(s.log, r)
  {
    TookAppend(s.log, Matched(h, r, i), r);
  }

  /** A webhook handler alone passes all its checks while the request waits. */
  lemma HandlerPasses(s: State, h: HandlerId, i: IssueId, action: Action, description: RequestId, r: RequestId)
    returns (s': State)
    requires Ready(s, i, r) && s.crashed <= h < |s.handlers| && s.handlers[h] == Lookup(i, action, description)
    ensures Leads(s, [Go(h, GO), Go(h, GO), Go(h, GO)], s')
    ensures OnlyHandler(s, s', h, SetState(i, action, r)) && TookCount(s'.log, r) == TookCount(s.log, r)
  {
    var go := Go(h, GO);
    LookupPasses(s, h, i, action, description, r);
    var s1 := Step(s, go);
    GetRequestPasses(s1, h, i, action, r);
    var s2 := Step(s1, go);
    GetDataPasses(s2, h, i, action, r);
    s' := Step(s2, go);
    Step2(s, go, s1, go, s2);
    Step1(s2, go, s');
    Chain(s, [go, go], s2, [go], s');
    assert [go, go] + [go] == [go, go, go];
  }

  /** The other half: from every state in which two handlers have passed their checks for one request, two
      changes of it follow, whatever the plugin learns of them. */
  lemma BothAsk(s: State, g: HandlerId, h: HandlerId, r: RequestId, replyG: Reply, replyH: Reply)
    requires g < |s.handlers| && h < |s.handlers| && g != h && r in s.requests
    requires s.handlers[g].SetState? && s.handlers[g].r == r && s.handlers[h].SetState? && s.handlers[h].r == r
    requires Enabled(s, Go(g, replyG)) && !replyG.Refused? && Enabled(s, Go(h, replyH)) && !replyH.Refused?
    ensures var ls := [Go(g, replyG), Go(h, replyH)];
      Runs(s, ls) && NoReopen(ls) && TookCount(Exec(s, ls).log, r) == TookCount(s.log, r) + 2
  {
    var s1 := Step(s, Go(g, replyG));
    ChangeTakes(s, g, replyG, r);
    ChangeTakes(s1, h, replyH, r);
    Step2(s, Go(g, replyG), s1, Go(h, replyH), Step(s1, Go(h, replyH)));
  }

  lemma ChangeTakes(s: State, h: HandlerId, reply: Reply, r: RequestId)
    requires Enabled(s, Go(h, reply)) && s.handlers[h].SetState? && s.handlers[h].r == r && r in s.requests && !reply.Refused?
    ensures var s' := Step(s, Go(h, reply));
      && TookCount(s'.log, r) == TookCount(s.log, r) + 1 && r in s'.requests && s'.crashed == s.crashed
      && |s'.handlers| == |s.handlers| && forall g :: 0 <= g < |s.handlers| && g != h ==> s'.handlers[g] == s.handlers[g]
  {
    ChangeIsLogged(s, h, s.handlers[h], reply);
    WebhookMoves(s, h, reply);
    TookAppend(s.log, ChangeOf(s, h, s.handlers[h], reply), r);
  }

  /** So whenever a request waits with its issue saved, two webhooks of that issue can change it twice, be
      they two approvals, two denials or one of each. */
  lemma TwoWebhooksResolveTwice(s: State, i: IssueId, r: RequestId, first: Action, second: Action) returns (ls: seq<Label>)
    requires Ready(s, i, r)
    ensures Runs(s, ls) && NoReopen(ls) && TookCount(Exec(s, ls).log, r) == TookCount(s.log, r) + 2
  {
    var n := |s.handlers|;
    var arrive := [Webhook(i, first, ""), Webhook(i, second, "")];
    var one := Step(s, arrive[0]);
    var two := Step(one, arrive[1]);
    Step2(s, arrive[0], one, arrive[1], two);
    var go1, go2 := [Go(n, GO), Go(n, GO), Go(n, GO)], [Go(n + 1, GO), Go(n + 1, GO), Go(n + 1, GO)];
    var s1 := HandlerPasses(two, n, i, first, "", r);
    var s2 := HandlerPasses(s1, n + 1, i, second, "", r);
    Chain(s, arrive, two, go1, s1);
    Chain(s, arrive + go1, s1, go2, s2);
    BothAsk(s2, n, n + 1, r, GO, GO);
    var ask := [Go(n, GO), Go(n + 1, GO)];
    ls := arrive + go1 + go2 + ask;
    Chain(s, arrive + go1 + go2, s2, ask, Exec(s2, ask));
  }

  /** A handler brings a new request to that point. */
  lemma PendingRequestGetsReady(r: RequestId, i: IssueId) returns (ls: seq<Label>)
    requires r != "" && i != 0
    ensures Runs(Init(), ls) && NoReopen(ls) && Ready(Exec(Init(), ls), i, r)
    ensures Exec(Init(), ls).log == []
  {
    var go := Go(0, Works(i));
    var put := State(map[r := Pending], {r}, map[], map[], map[], [CreateIssue(r)], {}, 0, []);
    var created := put.(issues := map[i := r], handlers := [StoreIndex(r, i)]);
    var indexed := created.(index := map[i := r], handlers := [SaveData(r, i)]);
    var saved := indexed.(data := map[r := i], handlers := [Over]);
    Step2(Init(), Submit(r), put.(handlers := []), PutEvent(r), put);
    Step2(put, go, created, go, indexed);
    Step1(indexed, go, saved);
    Chain(Init(), [Submit(r), PutEvent(r)], put, [go, go], indexed);
    Chain(Init(), [Submit(r), PutEvent(r)] + [go, go], indexed, [go], saved);
    ls := [Submit(r), PutEvent(r)] + [go, go] + [go];
  }

  /** A run from the start, for any request and issue: two webhooks that overlap resolve it twice. */
  lemma OverlapResolvesTwice(r: RequestId, i: IssueId, first: Action, second: Action) returns (ls: seq<Label>)
    requires r != "" && i != 0
    ensures Runs(Init(), ls) && NoReopen(ls)
    ensures TookCount(Exec(Init(), ls).log, r) == 2
  {
    var setup := PendingRequestGetsReady(r, i);
    var s := Exec(Init(), setup);
    var rest := TwoWebhooksResolveTwice(s, i, r, first, second);
    RunOn(Init(), setup, rest);
    ls := setup + rest;
  }

  // ---- When a change is a second one ----

  /** Nobody but the plugin resolves requests, and nobody reopens them. */
  predicate OnlyPlugin(ls: seq<Label>) {
    forall k :: 0 <= k < |ls| ==> !ls[k].Reopen? && !ls[k].Resolve?
  }

  /** A request is pending exactly as long as no change of it took. */
  ghost predicate Counted(s: State, r: RequestId) {
    && (r in s.requests ==> r in s.submitted && (s.requests[r] == Pending <==> TookCount(s.log, r) == 0))
    && (r !in s.submitted ==> TookCount(s.log, r) == 0)
  }

  lemma QuietCounted(s: State, s': State, r: RequestId)
    requires Counted(s, r) && TookCount(s'.log, r) == TookCount(s.log, r)
    requires r in s'.requests ==> r in s.requests && s'.requests[r] == s.requests[r]
    requires s'.submitted == s.submitted
    ensures Counted(s', r)
  {
  }

  lemma GoCounted(s: State, h: HandlerId, reply: Reply, r: RequestId)
    requires Counted(s, r) && Enabled(s, Go(h, reply))
    ensures Counted(Step(s, Go(h, reply)), r)
  {
    var s' := Step(s, Go(h, reply));
    if OfPending(s.handlers[h]) { PendingMoves(s, h, reply); }
    else if OfDeleted(s.handlers[h]) { DeletedMoves(s, h, reply); }
    else if s.handlers[h].SetState? { ChangeCounted(s, h, reply, r); }
    else {
      WebhookMoves(s, h, reply);
      WebhookReads(s, h, reply);
      NotedTakes(s.log, h, s'.handlers[h], r);
      QuietCounted(s, s', r);
    }
  }

  lemma ChangeCounted(s: State, h: HandlerId, reply: Reply, r: RequestId)
    requires Counted(s, r) && h < |s.handlers| && s.handlers[h].SetState?
    ensures Counted(WebhookStep(s, h, reply), r)
  {
    WebhookMoves(s, h, reply);
    ChangeIsLogged(s, h, s.handlers[h], reply);
    TookAppend(s.log, ChangeOf(s, h, s.handlers[h], reply), r);
  }

  lemma {:induction false} RunsCounted(s: State, ls: seq<Label>, r: RequestId)
    requires Counted(s, r) && Runs(s, ls) && OnlyPlugin(ls)
    ensures Counted(Exec(s, ls), r)
    decreases ls
  {
    if ls != [] {
      if ls[0].Go? { GoCounted(s, ls[0].h, ls[0].reply, r); } else { OutsideMoves(s, ls[0]); }
      RunsCounted(Step(s, ls[0]), ls[1..], r);
    }
  }

  /** The exact condition, for every run in which only the plugin resolves: a change that is asked for now
      and takes is a second one if and only if the request is no longer pending at this moment. */
  lemma SecondChangeIff(ls: seq<Label>, h: HandlerId, reply: Reply)
    requires Runs(Init(), ls) && OnlyPlugin(ls)
    requires var s := Exec(Init(), ls);
      Enabled(s, Go(h, reply)) && s.handlers[h].SetState? && s.handlers[h].r in s.requests && !reply.Refused?
    ensures var s := Exec(Init(), ls); var r := s.handlers[h].r;
      && TookCount(Step(s, Go(h, reply)).log, r) == TookCount(s.log, r) + 1
      && (TookCount(s.log, r) > 0 <==> s.requests[r] != Pending)
  {
    var s := Exec(Init(), ls);
    RunsCounted(Init(), ls, s.handlers[h].r);
    ChangeTakes(s, h, reply, s.handlers[h].r);
  }
}
