/** Labels of access/gitlab/types.go: which label names mean something to the plugin, and the labels
    that a webhook event added. */
module GitlabLabels {
  datatype ActionID = NoAction | ApproveAction | DenyAction

  datatype Label = Label(id: nat, title: string)

  // ---- Label names ----

  function Lower(s: string): (r: string)
    ensures |r| == |s|
    ensures forall i :: 0 <= i < |s| ==> r[i] == LowerChar(s[i])
  {
    seq(|s|, i requires 0 <= i < |s| => LowerChar(s[i]))
  }

  /** unicode.ToLower as far as its results are ASCII, which the capital I with a dot and the Kelvin sign
      have too; all other characters stand for themselves. */
  function LowerChar(c: char): char {
    if 'A' <= c <= 'Z' then (c as int + 32) as char
    else if c == '\U{0130}' then 'i'
    else if c == '\U{212A}' then 'k'
    else c
  }

  function UpperChar(c: char): char {
    if 'a' <= c <= 'z' then (c as int - 32) as char else c
  }

  /** unicode.IsSpace. */
  predicate IsSpace(c: char) {
    || '\t' <= c <= '\r' || c == ' ' || c == '\U{0085}' || c == '\U{00A0}' || c == '\U{1680}'
    || '\U{2000}' <= c <= '\U{200A}' || c == '\U{2028}' || c == '\U{2029}' || c == '\U{202F}'
    || c == '\U{205F}' || c == '\U{3000}'
  }

  function TrimLeft(s: string): string {
    if s != "" && IsSpace(s[0]) then TrimLeft(s[1..]) else s
  }

  function TrimRight(s: string): string {
    if s != "" && IsSpace(s[|s| - 1]) then TrimRight(s[..|s| - 1]) else s
  }

  function Trim(s: string): string {
    TrimRight(TrimLeft(s))
  }

  /** The position of the first c, or the length of s. */
  function IndexOf(s: string, c: char): (k: nat)
    ensures k <= |s| && c !in s[..k] && (k < |s| ==> s[k] == c)
  {
    if s == "" || s[0] == c then 0 else 1 + IndexOf(s[1..], c)
  }

  /** What comes after "teleport:" in a label name, without case and surrounding space; empty for
      labels that are not the plugin's. */
  function Reduced(name: string): string {
    AfterTeleport(Lower(name))
  }

  function AfterTeleport(lower: string): string {
    var k := IndexOf(lower, ':');
    if k == |lower| || Trim(lower[..k]) != "teleport" then "" else Trim(lower[k + 1..])
  }

  function ToAction(name: string): ActionID {
    match Reduced(name)
    case "approved" => ApproveAction
    case "denied" => DenyAction
    case _ => NoAction
  }

  /** strings.Title: the first letter of every word in upper case; prev is the character before s. */
  function Title(s: string, prev: char := ' '): (r: string)
    ensures |r| == |s|
  {
    if s == "" then ""
    else [if IsSeparator(prev) then UpperChar(s[0]) else s[0]] + Title(s[1..], s[0])
  }

  predicate IsSeparator(c: char) {
    !('a' <= c <= 'z' || 'A' <= c <= 'Z' || '0' <= c <= '9' || c == '_')
  }

  predicate AllSpace(s: string) {
    forall i :: 0 <= i < |s| ==> IsSpace(s[i])
  }

  lemma {:induction false} TrimLeftIs(before: string, rest: string)
    requires AllSpace(before) && (rest == "" || !IsSpace(rest[0]))
    ensures TrimLeft(before + rest) == rest
  {
    if before == "" {
      assert before + rest == rest;
    } else {
      assert (before + rest)[1..] == before[1..] + rest;
      TrimLeftIs(before[1..], rest);
    }
  }

  lemma {:induction false} TrimRightIs(rest: string, after: string)
    requires AllSpace(after) && (rest == "" || !IsSpace(rest[|rest| - 1]))
    ensures TrimRight(rest + after) == rest
    decreases |after|
  {
    if after == "" {
      assert rest + after == rest;
    } else {
      var n := |after| - 1;
      assert (rest + after)[..|rest + after| - 1] == rest + after[..n];
      assert (rest + after)[|rest + after| - 1] == after[n];
      TrimRightIs(rest, after[..n]);
    }
  }

  /** Trim takes away exactly the space around a text. */
  lemma TrimIs(before: string, text: string, after: string)
    requires AllSpace(before) && AllSpace(after)
    requires text == "" || (!IsSpace(text[0]) && !IsSpace(text[|text| - 1]))
    ensures Trim(before + text + after) == text
  {
    if text == "" {
      assert AllSpace(before + after) && before + text + after == (before + after) + "";
      TrimLeftIs(before + after, "");
    } else {
      assert before + text + after == before + (text + after);
      TrimLeftIs(before, text + after);
      TrimRightIs(text, after);
    }
  }

  /** What a label name reduces to depends on its first colon: what stands before it has to be "teleport" and
      what stands behind it is the result, both without case and the space around them. */
  lemma ReducedIs(name: string, front: string, back: string)
    ensures ':' !in name ==> Reduced(name) == ""
    ensures name == front + ":" + back && ':' !in front ==>
              Reduced(name) == if Trim(Lower(front)) == "teleport" then Trim(Lower(back)) else ""
  {
    var lower, k := Lower(name), IndexOf(Lower(name), ':');
    assert k < |lower| ==> LowerChar(name[k]) == ':';
    if name == front + ":" + back && ':' !in front {
      forall i | 0 <= i < |front| ensures lower[i] != ':' { assert name[i] == front[i] && front[i] in front; }
      assert name[|front|] == ':';
      IndexOfIs(lower, ':', |front|);
      assert lower[..|front|] == Lower(front);
      forall i | 0 <= i < |back| ensures lower[|front| + 1..][i] == Lower(back)[i] { assert name[|front| + 1 + i] == back[i]; }
      assert lower[|front| + 1..] == Lower(back);
    }
  }

  /** The name under which createLabel creates the label for a key (access/gitlab/bot.go). */
  function CreatedName(key: string): string {
    "Teleport: " + Title(key)
  }

  lemma {:induction false} LowerTitle(s: string, prev: char)
    ensures Lower(Title(s, prev)) == Lower(s)
  {
    if s != "" {
      LowerTitle(s[1..], s[0]);
      assert Title(s, prev)[1..] == Title(s[1..], s[0]);
      forall i | 0 <= i < |s| ensures Lower(Title(s, prev))[i] == Lower(s)[i] {
        if i > 0 { assert Lower(Title(s[1..], s[0]))[i - 1] == Lower(s[1..])[i - 1]; }
      }
    }
  }

  lemma {:induction false} IndexOfIs(s: string, c: char, k: nat)
    requires k < |s| && s[k] == c && forall i :: 0 <= i < k ==> s[i] != c
    ensures IndexOf(s, c) == k
  {
    if k > 0 { IndexOfIs(s[1..], c, k - 1); }
  }

  lemma LowerCreatedName(key: string)
    ensures Lower(CreatedName(key)) == "teleport: " + Lower(key)
  {
    LowerTitle(key, ' ');
    assert Lower("Teleport: ") == "teleport: ";
    var name := CreatedName(key);
    forall i | 0 <= i < |name| ensures Lower(name)[i] == ("teleport: " + Lower(key))[i] {
      if i < 10 {
        assert name[i] == "Teleport: "[i];
        assert Lower("Teleport: ")[i] == LowerChar(name[i]);
      } else {
        assert name[i] == Title(key)[i - 10];
        assert Lower(Title(key))[i - 10] == LowerChar(name[i]);
      }
    }
  }

  lemma AfterTeleportPrefix(rest: string)
    ensures AfterTeleport("teleport: " + rest) == Trim(rest)
  {
    var s := "teleport: " + rest;
    assert s[..8] == "teleport" && s[8] == ':';
    forall i | 0 <= i < 8 ensures s[i] != ':' { assert s[i] == "teleport"[i]; }
    IndexOfIs(s, ':', 8);
    assert Trim("teleport") == "teleport";
    assert s[9..] == " " + rest;
    assert (" " + rest)[1..] == rest;
  }

  /** Reading back the name of a created label gives its key, without case and surrounding space. */
  lemma ReducedCreatedName(key: string)
    ensures Reduced(CreatedName(key)) == Trim(Lower(key))
  {
    LowerCreatedName(key);
    AfterTeleportPrefix(Lower(key));
  }

  /** So a created label is found again under its key exactly when the key is lower-case and has no
      space around it, which holds for the four keys of the plugin. */
  lemma ReducedInvertsCreatedName(key: string)
    ensures Reduced(CreatedName(key)) == key <==> Lower(key) == key && Trim(key) == key
  {
    ReducedCreatedName(key);
    if Trim(Lower(key)) == key { TrimLowerFixed(key); }
  }

  lemma {:induction false} TrimRightIsPrefix(s: string)
    ensures TrimRight(s) <= s
  {
    if s != "" && IsSpace(s[|s| - 1]) { TrimRightIsPrefix(s[..|s| - 1]); }
  }

  lemma {:induction false} TrimLeftIsSuffix(s: string)
    ensures |TrimLeft(s)| <= |s| && TrimLeft(s) == s[|s| - |TrimLeft(s)|..]
  {
    if s != "" && IsSpace(s[0]) { TrimLeftIsSuffix(s[1..]); }
  }

  lemma TrimLowerFixed(key: string)
    requires Trim(Lower(key)) == key
    ensures Lower(key) == key
  {
    TrimLeftIsSuffix(Lower(key));
    TrimRightIsPrefix(TrimLeft(Lower(key)));
    assert |TrimLeft(Lower(key))| == |Lower(key)|;
    assert TrimLeft(Lower(key)) == Lower(key);
  }

  lemma PlainKey(key: string)
    requires key != "" && 'a' <= key[0] <= 'z' && 'a' <= key[|key| - 1] <= 'z'
    requires forall i :: 0 <= i < |key| ==> 'a' <= key[i] <= 'z'
    ensures Reduced(CreatedName(key)) == key
  {
    ReducedInvertsCreatedName(key);
    assert Lower(key) == key;
  }

  const KEYS := ["pending", "approved", "denied", "expired"]

  lemma PluginKeys(key: string)
    requires key in KEYS
    ensures Reduced(CreatedName(key)) == key
  {
    if key == "pending" { PlainKey(key); }
    else if key == "approved" { PlainKey(key); }
    else if key == "denied" { PlainKey(key); }
    else { PlainKey("expired"); }
  }

  // ---- The labels added by an event ----

  function IdSeq(labels: seq<Label>): (ids: seq<nat>)
    ensures |ids| == |labels| && forall i :: 0 <= i < |labels| ==> ids[i] == labels[i].id
  {
    seq(|labels|, i requires 0 <= i < |labels| => labels[i].id)
  }

  /** The IDs of a list of labels, with multiplicity. */
  function Ids(labels: seq<Label>): multiset<nat> {
    multiset(IdSeq(labels))
  }

  predicate SortedById(labels: seq<Label>) {
    forall i, j :: 0 <= i < j < |labels| ==> labels[i].id <= labels[j].id
  }

  /** What Diff computes: the multiset difference of the IDs, in order of ID, with labels taken from
      current. */
  ghost predicate IsDiff(previous: seq<Label>, current: seq<Label>, diff: seq<Label>) {
    SortedById(diff) && Ids(diff) == Ids(current) - Ids(previous) && multiset(diff) <= multiset(current)
  }

  lemma IdsConcat(a: seq<Label>, b: seq<Label>)
    ensures Ids(a + b) == Ids(a) + Ids(b)
  {
    assert IdSeq(a + b) == IdSeq(a) + IdSeq(b);
  }

  lemma IdSeqOf(l: Label, before: seq<Label>, after: seq<Label>)
    ensures IdSeq(before + [l] + after) == IdSeq(before) + [l.id] + IdSeq(after)
    ensures IdSeq(before + after) == IdSeq(before) + IdSeq(after)
  {
  }

  lemma RemoveLabel(b: seq<Label>, k: nat)
    requires k < |b|
    ensures Ids(b) == Ids(b[..k] + b[k + 1..]) + multiset{b[k].id}
    ensures multiset(b) == multiset(b[..k] + b[k + 1..]) + multiset{b[k]}
  {
    assert b == b[..k] + [b[k]] + b[k + 1..];
    IdSeqOf(b[k], b[..k], b[k + 1..]);
  }

  lemma Cancel(a: multiset<Label>, b: multiset<Label>, x: Label)
    requires a + multiset{x} == b + multiset{x}
    ensures a == b
  {
    assert a == (a + multiset{x}) - multiset{x};
  }

  /** The IDs do not depend on the order of the labels. */
  lemma {:induction false} IdsOfPermutation(a: seq<Label>, b: seq<Label>)
    requires multiset(a) == multiset(b)
    ensures Ids(a) == Ids(b)
  {
    assert |a| == |multiset(a)| == |multiset(b)| == |b|;
    if a != [] {
      assert a[0] in multiset(b);
      var k :| 0 <= k < |b| && b[k] == a[0];
      RemoveLabel(a, 0);
      RemoveLabel(b, k);
      var ra, rb := a[..0] + a[1..], b[..k] + b[k + 1..];
      Cancel(multiset(ra), multiset(rb), a[0]);
      IdsOfPermutation(ra, rb);
    }
  }

  function Insert(l: Label, sorted: seq<Label>): seq<Label> {
    if sorted == [] || l.id <= sorted[0].id then [l] + sorted else [sorted[0]] + Insert(l, sorted[1..])
  }

  function InsertionSort(labels: seq<Label>): seq<Label> {
    if labels == [] then [] else Insert(labels[0], InsertionSort(labels[1..]))
  }

  lemma {:induction false} InsertSorts(l: Label, sorted: seq<Label>)
    requires SortedById(sorted)
    ensures SortedById(Insert(l, sorted)) && multiset(Insert(l, sorted)) == multiset(sorted) + multiset{l}
  {
    if sorted != [] && l.id > sorted[0].id {
      InsertSorts(l, sorted[1..]);
      assert sorted == [sorted[0]] + sorted[1..];
      var tail := Insert(l, sorted[1..]);
      AtLeast(sorted[0], tail, sorted[1..], l);
      PrependSorted(sorted[0], tail);
    } else if sorted != [] {
      PrependSorted(l, sorted);
    }
  }

  lemma PrependSorted(lowest: Label, tail: seq<Label>)
    requires SortedById(tail) && forall i :: 0 <= i < |tail| ==> lowest.id <= tail[i].id
    ensures SortedById([lowest] + tail) && multiset([lowest] + tail) == multiset(tail) + multiset{lowest}
  {
  }

  lemma AtLeast(lowest: Label, tail: seq<Label>, rest: seq<Label>, l: Label)
    requires multiset(tail) == multiset(rest) + multiset{l}
    requires lowest.id <= l.id && forall i :: 0 <= i < |rest| ==> lowest.id <= rest[i].id
    ensures forall i :: 0 <= i < |tail| ==> lowest.id <= tail[i].id
  {
    forall i | 0 <= i < |tail| ensures lowest.id <= tail[i].id {
      assert tail[i] in multiset(tail);
    }
  }

  lemma {:induction false} InsertionSortSorts(labels: seq<Label>)
    ensures SortedById(InsertionSort(labels)) && multiset(InsertionSort(labels)) == multiset(labels)
  {
    if labels != [] {
      InsertionSortSorts(labels[1..]);
      InsertSorts(labels[0], InsertionSort(labels[1..]));
      assert labels == [labels[0]] + labels[1..];
    }
  }

  /** A copy that can be sorted without touching the slice it was made from. */
  method NewSortableLabels(slice: array<Label>) returns (labels: array<Label>)
    ensures fresh(labels) && labels[..] == slice[..]
  {
    labels := new Label[slice.Length](i requires 0 <= i < slice.Length reads slice => slice[i]);
  }

  method WriteBack(labels: array<Label>, sorted: seq<Label>)
    requires |sorted| == labels.Length
    modifies labels
    ensures labels[..] == sorted
  {
    for i := 0 to labels.Length
      invariant forall k :: 0 <= k < i ==> labels[k] == sorted[k]
    {
      labels[i] := sorted[i];
    }
  }

  /** sort.Sort by ID: nothing is said about the order of labels with equal IDs. */
  method Sort(labels: array<Label>)
    modifies labels
    ensures SortedById(labels[..]) && multiset(labels[..]) == multiset(old(labels[..]))
  {
    var sorted := InsertionSort(labels[..]);
    InsertionSortSorts(labels[..]);
    assert |multiset(sorted)| == |multiset(labels[..])|;
    WriteBack(labels, sorted);
  }

  /** What merging two sorted lists keeps of the first. */
  function Kept(current: seq<Label>, previous: seq<Label>): seq<Label>
    decreases |current| + |previous|
  {
    if current == [] then []
    else if previous == [] || current[0].id < previous[0].id then [current[0]] + Kept(current[1..], previous)
    else if current[0].id == previous[0].id then Kept(current[1..], previous[1..])
    else Kept(current, previous[1..])
  }

  lemma NotAmong(id: nat, labels: seq<Label>)
    requires forall i :: 0 <= i < |labels| ==> labels[i].id != id
    ensures Ids(labels)[id] == 0
  {
    assert id !in IdSeq(labels);
  }

  /** The lowest label is kept if its ID does not occur in previous. */
  lemma KeepFirst(current: seq<Label>, previous: seq<Label>, rest: seq<Label>)
    requires current != [] && SortedById(current) && IsDiff(previous, current[1..], rest)
    requires Ids(previous)[current[0].id] == 0
    ensures IsDiff(previous, current, [current[0]] + rest)
  {
    HeadAndTail(current);
    IdsConcat([current[0]], rest);
    assert Ids([current[0]]) == multiset{current[0].id};
    AllAtLeast(current, rest);
    PrependSorted(current[0], rest);
  }

  lemma AllAtLeast(current: seq<Label>, rest: seq<Label>)
    requires current != [] && SortedById(current) && multiset(rest) <= multiset(current[1..])
    ensures forall i :: 0 <= i < |rest| ==> current[0].id <= rest[i].id
  {
    forall i | 0 <= i < |rest| ensures current[0].id <= rest[i].id {
      assert rest[i] in multiset(rest);
      assert rest[i] in multiset(current[1..]);
    }
  }

  lemma HeadAndTail(labels: seq<Label>)
    requires labels != []
    ensures Ids(labels) == Ids(labels[1..]) + multiset{labels[0].id}
    ensures multiset(labels) == multiset(labels[1..]) + multiset{labels[0]}
  {
    assert labels == [labels[0]] + labels[1..];
    IdsConcat([labels[0]], labels[1..]);
    assert IdSeq([labels[0]]) == [labels[0].id];
  }

  /** A common first ID cancels out. */
  lemma CancelFirst(current: seq<Label>, previous: seq<Label>, diff: seq<Label>)
    requires current != [] && previous != [] && current[0].id == previous[0].id
    requires IsDiff(previous[1..], current[1..], diff)
    ensures IsDiff(previous, current, diff)
  {
    HeadAndTail(current);
    HeadAndTail(previous);
  }

  /** The first label of previous does not matter if its ID does not occur in current. */
  lemma SkipFirst(current: seq<Label>, previous: seq<Label>, diff: seq<Label>)
    requires previous != [] && Ids(current)[previous[0].id] == 0 && IsDiff(previous[1..], current, diff)
    ensures IsDiff(previous, current, diff)
  {
    HeadAndTail(previous);
    assert Ids(current) - Ids(previous) == Ids(current) - Ids(previous[1..]);
  }

  /** Merging computes the difference. */
  lemma {:induction false} KeptIsDiff(current: seq<Label>, previous: seq<Label>)
    requires SortedById(current) && SortedById(previous)
    ensures IsDiff(previous, current, Kept(current, previous))
    decreases |current| + |previous|
  {
    if current == [] {
      assert Ids([]) == multiset{};
    } else if previous == [] || current[0].id < previous[0].id {
      KeptIsDiff(current[1..], previous);
      NotAmong(current[0].id, previous);
      KeepFirst(current, previous, Kept(current[1..], previous));
    } else if current[0].id == previous[0].id {
      KeptIsDiff(current[1..], previous[1..]);
      CancelFirst(current, previous, Kept(current[1..], previous[1..]));
    } else {
      KeptIsDiff(current, previous[1..]);
      NotAmong(previous[0].id, current);
      SkipFirst(current, previous, Kept(current, previous[1..]));
    }
  }

  /** One turn of the merge loop at positions i and j. */
  lemma KeptAt(current: seq<Label>, previous: seq<Label>, i: nat, j: nat)
    requires i < |current| && j <= |previous|
    ensures Kept(current[i..], previous[j..])
         == if j == |previous| || current[i].id < previous[j].id then [current[i]] + Kept(current[i + 1..], previous[j..])
            else if current[i].id == previous[j].id then Kept(current[i + 1..], previous[j + 1..])
            else Kept(current[i..], previous[j + 1..])
  {
    assert current[i..][1..] == current[i + 1..];
    if j < |previous| { assert previous[j..][1..] == previous[j + 1..]; }
  }

  /** The merge loop of Diff. */
  method Merge(current: seq<Label>, previous: seq<Label>) returns (diff: seq<Label>)
    requires SortedById(current) && SortedById(previous)
    ensures IsDiff(previous, current, diff)
  {
    diff := MergeLoop(current, previous);
    KeptIsDiff(current, previous);
  }

  method MergeLoop(current: seq<Label>, previous: seq<Label>) returns (diff: seq<Label>)
    ensures diff == Kept(current, previous)
  {
    diff := [];
    var i, j := 0, 0;
    assert current[0..] == current && previous[0..] == previous;
    while i < |current|
      invariant i <= |current| && j <= |previous|
      invariant diff + Kept(current[i..], previous[j..]) == Kept(current, previous)
      decreases |current| - i + |previous| - j
    {
      KeptAt(current, previous, i, j);
      if j < |previous| {
        var currentID, previousID := current[i].id, previous[j].id;
        if currentID == previousID {
          i, j := i + 1, j + 1;
        } else if currentID < previousID {
          diff := diff + [current[i]];
          i := i + 1;
        } else {
          j := j + 1;
        }
      } else {
        diff := diff + [current[i]];
        i := i + 1;
      }
    }
    assert Kept(current[i..], previous[j..]) == [];
  }

  /** LabelsChange.Diff: sort copies of both lists, then merge them. The lists themselves are not
      touched, and of labels with one ID any may be taken. */
  method Diff(previous: array<Label>, current: array<Label>) returns (diff: seq<Label>)
    ensures IsDiff(previous[..], current[..], diff)
  {
    var currentLabels := NewSortableLabels(current);
    var previousLabels := NewSortableLabels(previous);
    Sort(currentLabels);
    Sort(previousLabels);
    diff := Merge(currentLabels[..], previousLabels[..]);
    IdsOfPermutation(currentLabels[..], current[..]);
    IdsOfPermutation(previousLabels[..], previous[..]);
  }

  // ---- The action of an event ----

  /** The action of the first label that has one. */
  function FirstAction(diff: seq<Label>): ActionID {
    if diff == [] then NoAction
    else if ToAction(diff[0].title) != NoAction then ToAction(diff[0].title)
    else FirstAction(diff[1..])
  }

  predicate Decides(title: string) {
    Reduced(title) == "approved" || Reduced(title) == "denied"
  }

  /** The title at k is the first that decides, and it is the given one. */
  predicate DecidesFirst(diff: seq<Label>, k: nat, word: string) {
    k < |diff| && Reduced(diff[k].title) == word && forall j :: 0 <= j < k ==> !Decides(diff[j].title)
  }

  /** A label approves if it reduces to "approved", denies if it reduces to "denied", and has no action
      otherwise. */
  lemma ToActionMeans(title: string)
    ensures ToAction(title) == ApproveAction <==> Reduced(title) == "approved"
    ensures ToAction(title) == DenyAction <==> Reduced(title) == "denied"
    ensures ToAction(title) != NoAction <==> Decides(title)
  {
  }

  /** The labels that the plugin creates itself do what they say. */
  lemma CreatedLabelsAct(key: string)
    requires key in KEYS
    ensures ToAction(CreatedName(key)) == match key
                                          case "approved" => ApproveAction
                                          case "denied" => DenyAction
                                          case _ => NoAction
  {
    PluginKeys(key);
  }

  lemma FirstActionDecides(diff: seq<Label>)
    ensures FirstAction(diff) == ApproveAction <==> exists k: nat :: DecidesFirst(diff, k, "approved")
    ensures FirstAction(diff) == DenyAction <==> exists k: nat :: DecidesFirst(diff, k, "denied")
  {
    var k := FirstActionIsFirst(diff);
    forall i | 0 <= i < |diff| ensures ToAction(diff[i].title) != NoAction <==> Decides(diff[i].title) {
      ToActionMeans(diff[i].title);
    }
    if k < |diff| {
      ToActionMeans(diff[k].title);
      if FirstAction(diff) == ApproveAction { assert DecidesFirst(diff, k, "approved"); }
      if FirstAction(diff) == DenyAction { assert DecidesFirst(diff, k, "denied"); }
    }
  }

  /** The loop of onWebhookEvent (access/gitlab/app.go): the first label that decides, decides. */
  method ChooseAction(diff: seq<Label>) returns (action: ActionID)
    ensures action == FirstAction(diff)
    ensures action == ApproveAction <==> exists k: nat :: DecidesFirst(diff, k, "approved")
    ensures action == DenyAction <==> exists k: nat :: DecidesFirst(diff, k, "denied")
  {
    action := NoAction;
    var i := 0;
    while i < |diff|
      invariant 0 <= i <= |diff| && action == NoAction && FirstAction(diff) == FirstAction(diff[i..])
    {
      action := ToAction(diff[i].title);
      if action != NoAction { break; }
      i := i + 1;
    }
    FirstActionDecides(diff);
  }

  /** An ID determines its title. */
  predicate TitledById(labels: seq<Label>) {
    forall i, j :: 0 <= i < |labels| && 0 <= j < |labels| && labels[i].id == labels[j].id
      ==> labels[i].title == labels[j].title
  }

  /** The label occurs more often now than before. */
  predicate Added(previous: seq<Label>, current: seq<Label>, l: Label) {
    l in current && Ids(current)[l.id] > Ids(previous)[l.id]
  }

  lemma {:induction false} FirstActionIsFirst(diff: seq<Label>) returns (k: nat)
    ensures k <= |diff| && forall i :: 0 <= i < k ==> ToAction(diff[i].title) == NoAction
    ensures FirstAction(diff) == if k < |diff| then ToAction(diff[k].title) else NoAction
    ensures k < |diff| ==> FirstAction(diff) != NoAction
  {
    if diff == [] || ToAction(diff[0].title) != NoAction {
      k := 0;
    } else {
      var rest := FirstActionIsFirst(diff[1..]);
      k := rest + 1;
      forall i | 0 <= i < k ensures ToAction(diff[i].title) == NoAction {
        if i > 0 { assert diff[i] == diff[1..][i - 1]; }
      }
    }
  }

  lemma DiffMembers(previous: seq<Label>, current: seq<Label>, diff: seq<Label>, k: nat)
    requires IsDiff(previous, current, diff) && k < |diff|
    ensures Added(previous, current, diff[k])
  {
    assert diff[k] in multiset(diff);
    assert IdSeq(diff)[k] == diff[k].id;
    assert diff[k].id in Ids(diff);
  }

  lemma AddedInDiff(previous: seq<Label>, current: seq<Label>, diff: seq<Label>, l: Label) returns (k: nat)
    requires IsDiff(previous, current, diff) && Added(previous, current, l)
    ensures k < |diff| && diff[k].id == l.id
  {
    assert l.id in Ids(diff);
    k :| 0 <= k < |IdSeq(diff)| && IdSeq(diff)[k] == l.id;
  }

  /** The added label with the lowest ID that decides says word. */
  ghost predicate LowestSays(previous: seq<Label>, current: seq<Label>, word: string) {
    exists l :: Added(previous, current, l) && Reduced(l.title) == word
                && forall m :: Added(previous, current, m) && Decides(m.title) ==> l.id <= m.id
  }

  /** The action of an event is that of the added label with the lowest ID among those that decide: approve if
      it says approved, deny if it says denied, and none exactly when no added label decides. */
  lemma ActionOfLowestAdded(previous: seq<Label>, current: seq<Label>, diff: seq<Label>)
    requires IsDiff(previous, current, diff) && TitledById(current)
    ensures FirstAction(diff) == NoAction <==> forall l :: Added(previous, current, l) ==> !Decides(l.title)
    ensures FirstAction(diff) == ApproveAction ==> LowestSays(previous, current, "approved")
    ensures FirstAction(diff) == DenyAction ==> LowestSays(previous, current, "denied")
  {
    var k := FirstActionIsFirst(diff);
    if k < |diff| { DiffMembers(previous, current, diff, k); ToActionMeans(diff[k].title); }
    forall l | Added(previous, current, l) && Decides(l.title)
      ensures k < |diff| && diff[k].id <= l.id
    {
      ToActionMeans(l.title);
      var j := AddedInDiff(previous, current, diff, l);
      DiffMembers(previous, current, diff, j);
      assert diff[j].title == l.title;
    }
  }

  /** Labels that were there before as often as now never trigger anything by themselves. */
  lemma OldLabelsDoNotTrigger(previous: seq<Label>, current: seq<Label>, diff: seq<Label>)
    requires IsDiff(previous, current, diff)
    requires forall l :: l in current && Decides(l.title) ==> Ids(current)[l.id] <= Ids(previous)[l.id]
    ensures FirstAction(diff) == NoAction
  {
    var k := FirstActionIsFirst(diff);
    if k < |diff| { DiffMembers(previous, current, diff, k); ToActionMeans(diff[k].title); }
  }

  lemma LowestFirst(a: seq<Label>, b: seq<Label>)
    requires SortedById(a) && SortedById(b) && Ids(a) == Ids(b) && a != [] && b != []
    ensures a[0].id <= b[0].id
  {
    assert IdSeq(b)[0] in Ids(a);
    var k :| 0 <= k < |a| && IdSeq(a)[k] == b[0].id;
  }

  lemma TailIds(labels: seq<Label>)
    requires labels != []
    ensures IdSeq(labels) == [labels[0].id] + IdSeq(labels[1..])
    ensures Ids(labels[1..]) == Ids(labels) - multiset{labels[0].id}
  {
    assert IdSeq(labels) == [labels[0].id] + IdSeq(labels[1..]);
  }

  /** Sorted lists with the same IDs agree position by position. */
  lemma {:induction false} SameIds(a: seq<Label>, b: seq<Label>)
    requires SortedById(a) && SortedById(b) && Ids(a) == Ids(b)
    ensures IdSeq(a) == IdSeq(b)
  {
    assert |a| == |Ids(a)| == |Ids(b)| == |b|;
    if a != [] {
      LowestFirst(a, b);
      LowestFirst(b, a);
      TailIds(a);
      TailIds(b);
      SameIds(a[1..], b[1..]);
    }
  }

  lemma {:induction false} SameTitles(a: seq<Label>, b: seq<Label>)
    requires |a| == |b| && forall i :: 0 <= i < |a| ==> a[i].title == b[i].title
    ensures FirstAction(a) == FirstAction(b)
  {
    if a != [] { SameTitles(a[1..], b[1..]); }
  }

  /** The action does not depend on the order of the labels in the event, nor on how equal IDs are
      sorted. */
  lemma ActionIgnoresOrder(p1: seq<Label>, c1: seq<Label>, d1: seq<Label>, p2: seq<Label>, c2: seq<Label>, d2: seq<Label>)
    requires IsDiff(p1, c1, d1) && IsDiff(p2, c2, d2) && TitledById(c1)
    requires multiset(p1) == multiset(p2) && multiset(c1) == multiset(c2)
    ensures FirstAction(d1) == FirstAction(d2)
  {
    IdsOfPermutation(p1, p2);
    IdsOfPermutation(c1, c2);
    SameIds(d1, d2);
    forall i | 0 <= i < |d1| ensures |d1| == |d2| && d1[i].title == d2[i].title {
      assert IdSeq(d1)[i] == IdSeq(d2)[i];
      assert d1[i] in multiset(d1) && d2[i] in multiset(d2);
      assert d1[i] in multiset(c1) && d2[i] in multiset(c1);
    }
    assert |d1| == |IdSeq(d1)| == |IdSeq(d2)| == |d2|;
    SameTitles(d1, d2);
  }
}
