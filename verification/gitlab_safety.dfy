/** Which state changes the GitLab plugin can ask for (access/gitlab/app.go, onWebhookEvent). */
module GitlabSafety {
  import opened GitlabWorkflow

  // ---- Every change was checked by the handler that asks for it ----

  /** Handler h saw request r pending, and after that matched its plugin data with issue i. */
  ghost predicate Checked(log: seq<Entry>, h: HandlerId, r: RequestId, i: IssueId) {
    exists j, k :: 0 <= j < k < |log| && log[j] == SawPending(h, r) && log[k] == Matched(h, r, i)
  }

  ghost predicate HandlerChecked(log: seq<Entry>, h: HandlerId, handler: Handler) {
    match handler
    case GetData(_, _, r) => SawPending(h, r) in log
    case SetState(i, _, r) => Checked(log, h, r, i)
    case _ => true
  }

  /** Every change in the log is preceded by its checks and names an issue created for its request. */
  ghost predicate EntryOk(s: State, k: nat)
    requires k < |s.log|
  {
    s.log[k].Changed? ==>
      CreatedFor(s, s.log[k].i, s.log[k].r) && Checked(s.log[..k], s.log[k].h, s.log[k].r, s.log[k].i)
  }

  ghost predicate Safe(s: State) {
    && (forall k :: 0 <= k < |s.log| ==> EntryOk(s, k))
    && (forall h :: 0 <= h < |s.handlers| ==> HandlerChecked(s.log, h, s.handlers[h]))
  }

  lemma CheckedStays(log: seq<Entry>, e: Entry, h: HandlerId, r: RequestId, i: IssueId)
    requires Checked(log, h, r, i)
    ensures Checked(log + [e], h, r, i)
  {
    var j, k :| 0 <= j < k < |log| && log[j] == SawPending(h, r) && log[k] == Matched(h, r, i);
    assert (log + [e])[j] == log[j] && (log + [e])[k] == log[k];
  }

  lemma MatchChecks(log: seq<Entry>, h: HandlerId, r: RequestId, i: IssueId)
    requires SawPending(h, r) in log
    ensures Checked(log + [Matched(h, r, i)], h, r, i)
  {
    var j :| 0 <= j < |log| && log[j] == SawPending(h, r);
    var log' := log + [Matched(h, r, i)];
    assert log'[j] == SawPending(h, r) && log'[|log|] == Matched(h, r, i);
  }

  /** What a step may do to the part of the state that Safe speaks about. */
  lemma ExtendSafe(s: State, s': State, h: HandlerId, es: seq<Entry>)
    requires Safe(s) && s'.log == s.log + es && |es| <= 1
    requires forall i :: i in s.issues ==> i in s'.issues && s'.issues[i] == s.issues[i]
    requires |s.handlers| <= |s'.handlers|
    requires forall g :: 0 <= g < |s'.handlers| && g != h ==>
      s'.handlers[g].Over? || (g < |s.handlers| && s'.handlers[g] == s.handlers[g])
      || !(s'.handlers[g].GetData? || s'.handlers[g].SetState?)
    requires h < |s'.handlers| ==> HandlerChecked(s'.log, h, s'.handlers[h])
    requires es != [] && es[0].Changed? ==>
      CreatedFor(s', es[0].i, es[0].r) && Checked(s.log, es[0].h, es[0].r, es[0].i)
    ensures Safe(s')
  {
    forall k | 0 <= k < |s'.log| ensures EntryOk(s', k) {
      if k < |s.log| {
        assert EntryOk(s, k);
        assert s'.log[..k] == s.log[..k];
      } else {
        assert s'.log[..k] == s.log;
      }
    }
    forall g | 0 <= g < |s'.handlers| ensures HandlerChecked(s'.log, g, s'.handlers[g]) {
      if g != h && g < |s.handlers| && s'.handlers[g] == s.handlers[g] {
        HandlerStaysChecked(s.log, es, g, s.handlers[g]);
      }
    }
  }

  lemma HandlerStaysChecked(log: seq<Entry>, es: seq<Entry>, g: HandlerId, handler: Handler)
    requires HandlerChecked(log, g, handler) && |es| <= 1
    ensures HandlerChecked(log + es, g, handler)
  {
    if es == [] {
      assert log + es == log;
    } else {
      assert es == [es[0]];
      if handler.SetState? { CheckedStays(log, es[0], g, handler.r, handler.i); }
    }
  }

  lemma ReadSafe(s: State, h: HandlerId, reply: Reply)
    requires Safe(s) && Enabled(s, Go(h, reply)) && !s.handlers[h].SetState?
    requires !OfPending(s.handlers[h]) && !OfDeleted(s.handlers[h])
    ensures Safe(WebhookStep(s, h, reply))
  {
    assert HandlerChecked(s.log, h, s.handlers[h]);
    var s' := WebhookStep(s, h, reply);
    WebhookMoves(s, h, reply);
    WebhookReads(s, h, reply);
    var next := s'.handlers[h];
    if next.SetState? { MatchChecks(s.log, h, next.r, next.i); }
    ExtendSafe(s, s', h, Noted(h, next));
  }

  lemma ChangeSafe(s: State, h: HandlerId, reply: Reply)
    requires Safe(s) && Binding(s) && Enabled(s, Go(h, reply)) && s.handlers[h].SetState?
    ensures Safe(WebhookStep(s, h, reply))
  {
    assert HandlerChecked(s.log, h, s.handlers[h]) && HandlerBound(s, s.handlers[h]);
    WebhookMoves(s, h, reply);
    ChangeIsLogged(s, h, s.handlers[h], reply);
    ExtendSafe(s, WebhookStep(s, h, reply), h, [ChangeOf(s, h, s.handlers[h], reply)]);
  }

  /** Only webhook handlers note anything. */
  lemma QuietSafe(s: State, h: HandlerId, reply: Reply)
    requires Safe(s) && Enabled(s, Go(h, reply)) && (OfPending(s.handlers[h]) || OfDeleted(s.handlers[h]))
    ensures Safe(Step(s, Go(h, reply)))
  {
    assert s.log + [] == s.log;
    if OfPending(s.handlers[h]) { ExtendSafe(s, PendingStep(s, h, reply), h, []); }
    else { ExtendSafe(s, DeletedStep(s, h, reply), h, []); }
  }

  lemma OutsideSafe(s: State, l: Label)
    requires Safe(s) && Enabled(s, l) && !l.Go?
    ensures Safe(Step(s, l))
  {
    var s' := Step(s, l);
    assert s'.log == s.log + [];
    ExtendSafe(s, s', |s'.handlers|, []);
  }

  lemma StepSafe(s: State, l: Label)
    requires Safe(s) && Binding(s) && Enabled(s, l)
    ensures Safe(Step(s, l))
  {
    if !l.Go? { OutsideSafe(s, l); }
    else if OfPending(s.handlers[l.h]) || OfDeleted(s.handlers[l.h]) { QuietSafe(s, l.h, l.reply); }
    else if s.handlers[l.h].SetState? { ChangeSafe(s, l.h, l.reply); }
    else { ReadSafe(s, l.h, l.reply); }
  }

  lemma {:induction false} RunsSafe(s: State, ls: seq<Label>)
    requires Safe(s) && Binding(s) && Runs(s, ls)
    ensures Safe(Exec(s, ls)) && Binding(Exec(s, ls))
    decreases ls
  {
    if ls != [] {
      StepSafe(s, ls[0]);
      StepBinding(s, ls[0]);
      RunsSafe(Step(s, ls[0]), ls[1..]);
    }
  }

  /** Every state change the plugin ever asks for follows, within the same handler, a read that found
      the request pending and then a match of its plugin data with the issue of the event; and that
      issue was created for this request, whether the request was found in the index or parsed from
      the issue description. */
  lemma EveryChangeIsChecked(ls: seq<Label>, k: nat)
    requires Runs(Init(), ls) && k < |Exec(Init(), ls).log| && Exec(Init(), ls).log[k].Changed?
    ensures var s := Exec(Init(), ls); var e := s.log[k];
      CreatedFor(s, e.i, e.r) && Checked(s.log[..k], e.h, e.r, e.i)
  {
    RunsSafe(Init(), ls);
    assert EntryOk(Exec(Init(), ls), k);
  }

  /** So one issue never resolves two requests. */
  lemma IssueResolvesOneRequest(ls: seq<Label>, k1: nat, k2: nat)
    requires Runs(Init(), ls)
    requires var log := Exec(Init(), ls).log;
      k1 < |log| && k2 < |log| && log[k1].Changed? && log[k2].Changed? && log[k1].i == log[k2].i
    ensures var log := Exec(Init(), ls).log; log[k1].r == log[k2].r
  {
    EveryChangeIsChecked(ls, k1);
    EveryChangeIsChecked(ls, k2);
  }
}
