/** Closing an issue (access/gitlab/bot.go, CloseIssue): the plugin's own labels are replaced by one. */
module GitlabClosing {
  import opened Common
  import opened GitlabLabels
  import opened GitlabSetup
  import opened Text

  /** The names that are not the plugin's, in order. */
  function Foreign(names: seq<string>): seq<string> {
    if names == [] then []
    else Foreign(names[..|names| - 1]) + if Reduced(names[|names| - 1]) == "" then [names[|names| - 1]] else []
  }

  /** The labels parameter of the update: None leaves the labels of the issue as they are. */
  method CloseIssue(bot: Bot, setLabel: string, existing: Option<seq<string>>)
    returns (sent: bool, labels: Option<string>)
    ensures sent <==> NameOf(bot.labels, setLabel) == "" || existing.Some?
    ensures NameOf(bot.labels, setLabel) == "" ==> labels == None
    ensures NameOf(bot.labels, setLabel) != "" && existing.Some? ==>
              labels == Some(Join(Foreign(existing.value) + [NameOf(bot.labels, setLabel)], ','))
  {
    var setLabelName := NameOf(bot.labels, setLabel);
    if setLabelName == "" { return true, None; }
    if existing.None? { return false, None; }
    var existingNames := existing.value;
    var names := [];
    for i := 0 to |existingNames|
      invariant names == Foreign(existingNames[..i])
    {
      assert existingNames[..i + 1][..i] == existingNames[..i];
      if Reduced(existingNames[i]) == "" { names := names + [existingNames[i]]; }
    }
    assert existingNames[..|existingNames|] == existingNames;
    return true, Some(Join(names + [setLabelName], ','));
  }

  lemma OneMore(names: seq<string>, last: string, n: string)
    ensures multiset(names + [last])[n] == multiset(names)[n] + (if last == n then 1 else 0)
  {
  }

  /** Exactly the foreign names survive, with their multiplicity. */
  lemma {:induction false} ForeignNames(names: seq<string>, n: string)
    ensures multiset(Foreign(names))[n] == if Reduced(n) == "" then multiset(names)[n] else 0
    decreases |names|
  {
    if names != [] {
      var front, last := names[..|names| - 1], names[|names| - 1];
      ForeignNames(front, n);
      OneMore(front, last, n);
      OneMore(Foreign(front), last, n);
      assert names == front + [last];
      assert Foreign(front) + [] == Foreign(front);
    }
  }

  lemma ForeignFree(names: seq<string>)
    requires AllFree(names, ',')
    ensures AllFree(Foreign(names), ',')
  {
    forall i | 0 <= i < |Foreign(names)| ensures ',' !in Foreign(names)[i] {
      var n := Foreign(names)[i];
      assert n in multiset(Foreign(names));
      ForeignNames(names, n);
      assert n in multiset(names);
    }
  }

  /** What the server reads from the parameter, when no label has a comma: the labels that are not the
      plugin's, then the one set, which is thus the only plugin label left. A label that is set for an expired request
      has no action, so closing the issue never looks like an approval or a denial. */
  lemma ClosedLabels(existing: seq<string>, key: string, name: string)
    requires AllFree(existing, ',') && ',' !in name && Reduced(name) == key
    ensures Split(Join(Foreign(existing) + [name], ','), ',') == Foreign(existing) + [name]
    ensures forall n :: n in Foreign(existing) ==> Reduced(n) == ""
    ensures key !in {"approved", "denied"} ==> forall n :: n in Foreign(existing) + [name] ==> ToAction(n) == NoAction
  {
    ForeignFree(existing);
    SplitJoin(Foreign(existing) + [name], ',');
    forall n | n in Foreign(existing) ensures Reduced(n) == "" {
      assert n in multiset(Foreign(existing));
      ForeignNames(existing, n);
    }
  }
}
