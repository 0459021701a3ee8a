/** Setting up a GitLab project at start: the label names and the webhook of access/gitlab/bot.go, and
    App.setup (access/gitlab/app.go), which keeps both in the database between runs. */
module GitlabSetup {
  import opened Common
  import opened GitlabLabels
  import opened GitlabDatabase

  /** A paged listing: the pages that arrive, and whether the request after the last of them fails. */
  datatype Listing<T> = Listing(pages: seq<seq<T>>, broken: bool)

  function Flatten<T>(pages: seq<seq<T>>): seq<T> {
    if pages == [] then [] else Flatten(pages[..|pages| - 1]) + pages[|pages| - 1]
  }

  // ---- Which label stands for which key ----

  type Labels = map<string, string>

  /** A map as Go reads it: the empty string for a missing entry. */
  function NameOf(labels: Labels, key: string): string {
    if key in labels then labels[key] else ""
  }

  /** An inverse of the stored names. A name stored for several keys leads to one of them. */
  predicate IsIndex(stored: Labels, index: Labels) {
    && (forall n <- index :: n != "" && index[n] in stored && stored[index[n]] == n)
    && (forall k <- stored :: stored[k] != "" ==> stored[k] in index)
  }

  predicate Injective(stored: Labels) {
    forall k <- stored, l <- stored :: stored[k] == stored[l] != "" ==> k == l
  }

  /** The name may be claimed for the key: it is nobody's stored name and it reduces to the key. */
  predicate Claimable(index: Labels, name: string, key: string) {
    NameOf(index, name) == "" && Reduced(name) == key
  }

  function FirstFor(index: Labels, names: seq<string>, key: string): string {
    if names == [] then ""
    else
      var earlier := FirstFor(index, names[..|names| - 1], key);
      if earlier == "" && Claimable(index, names[|names| - 1], key) then names[|names| - 1] else earlier
  }

  /** The label that a listing gives to a key: the stored name if it is listed, else the name the key has
      already, else the first claimable one; empty if there is none. */
  function Listed(stored: Labels, index: Labels, before: Labels, names: seq<string>, key: string): string {
    if key != "" && NameOf(index, NameOf(stored, key)) == key && NameOf(stored, key) in names then NameOf(stored, key)
    else if key == "" || NameOf(before, key) != "" then NameOf(before, key)
    else FirstFor(index, names, key)
  }

  /** FirstFor finds the first claimable name, and nothing exactly when none is claimable. */
  lemma {:induction false} FirstForIsFirst(index: Labels, names: seq<string>, key: string)
    requires key != ""
    ensures FirstFor(index, names, key) == "" ==> forall n <- names :: !Claimable(index, n, key)
    ensures FirstFor(index, names, key) != "" ==>
              exists i :: 0 <= i < |names| && names[i] == FirstFor(index, names, key) && Claimable(index, names[i], key)
                       && forall j :: 0 <= j < i ==> !Claimable(index, names[j], key)
    decreases |names|
  {
    if names != [] {
      var front, last := names[..|names| - 1], names[|names| - 1];
      FirstForIsFirst(index, front, key);
      assert names == front + [last];
      assert Reduced("") == "";
    }
  }

  /** With injective stored names, a stored name that is listed always wins, wherever it stands in the
      listing and however the listing is cut into pages. */
  lemma StoredNameWins(stored: Labels, index: Labels, before: Labels, names: seq<string>, key: string)
    requires IsIndex(stored, index) && Injective(stored) && key in stored && key != ""
    requires stored[key] != "" && stored[key] in names
    ensures Listed(stored, index, before, names, key) == stored[key]
  {
    assert index[stored[key]] in stored;
  }

  lemma ListedAppend(stored: Labels, index: Labels, before: Labels, names: seq<string>, name: string, key: string)
    requires IsIndex(stored, index)
    ensures Listed(stored, index, before, names + [name], key)
         == if NameOf(index, name) != "" then
              if key == NameOf(index, name) then name else Listed(stored, index, before, names, key)
            else if key != "" && Reduced(name) == key && Listed(stored, index, before, names, key) == "" then name
            else Listed(stored, index, before, names, key)
  {
    assert (names + [name])[..|names|] == names;
  }

  /** What createLabel gets back: the label as created, the refusal of a name in use, or another error. */
  datatype CreateReply = Created(name: string) | AlreadyExists | CreateFailed

  /** createLabel: the name of the label that now exists for the key. */
  function CreateLabel(reply: CreateReply, key: string): (name: Option<string>)
    ensures name.None? <==> reply.CreateFailed?
  {
    match reply
    case Created(name) => Some(name)
    case AlreadyExists => Some(CreatedName(key))
    case CreateFailed => None
  }

  class Bot {
    var labels: Labels

    constructor ()
      ensures labels == map[]
    {
      labels := map[];
    }

    method IndexNames(stored: Labels) returns (index: Labels)
      ensures IsIndex(stored, index)
    {
      index := map[];
      var rest := stored.Keys;
      while rest != {}
        invariant rest <= stored.Keys
        invariant forall n <- index :: n != "" && index[n] in stored && stored[index[n]] == n
        invariant forall k <- stored.Keys - rest :: stored[k] != "" ==> stored[k] in index
        decreases |rest|
      {
        var key :| key in rest;
        if stored[key] != "" { index := index[stored[key] := key]; }
        rest := rest - {key};
      }
    }

    /** The callback of the listing, for one label. */
    method ClaimLabel(stored: Labels, index: Labels, ghost before: Labels, ghost seen: seq<string>, name: string)
      requires IsIndex(stored, index)
      requires forall k :: NameOf(labels, k) == Listed(stored, index, before, seen, k)
      modifies this
      ensures forall k :: NameOf(labels, k) == Listed(stored, index, before, seen + [name], k)
    {
      ghost var was := labels;
      var owner := NameOf(index, name);
      var key := Reduced(name);
      if owner != "" {
        labels := labels[owner := name];
      } else if key != "" && NameOf(labels, key) == "" {
        labels := labels[key := name];
      }
      forall k ensures NameOf(labels, k) == Listed(stored, index, before, seen + [name], k) {
        ListedAppend(stored, index, before, seen, name, k);
        assert NameOf(was, k) == Listed(stored, index, before, seen, k);
      }
    }

    /** The callback of the listing, for one page. */
    method ClaimPage(stored: Labels, index: Labels, ghost before: Labels, ghost seen: seq<string>, page: seq<string>)
      requires IsIndex(stored, index)
      requires forall k :: NameOf(labels, k) == Listed(stored, index, before, seen, k)
      modifies this
      ensures forall k :: NameOf(labels, k) == Listed(stored, index, before, seen + page, k)
    {
      assert seen + page[..0] == seen;
      for i := 0 to |page|
        invariant forall k :: NameOf(labels, k) == Listed(stored, index, before, seen + page[..i], k)
      {
        assert seen + page[..i + 1] == (seen + page[..i]) + [page[i]];
        ClaimLabel(stored, index, before, seen + page[..i], page[i]);
      }
      assert seen + page[..|page|] == seen + page;
    }

    /** Read the whole listing. */
    method ClaimLabels(stored: Labels, index: Labels, pages: seq<seq<string>>)
      requires IsIndex(stored, index)
      modifies this
      ensures forall k :: NameOf(labels, k) == Listed(stored, index, old(labels), Flatten(pages), k)
    {
      for p := 0 to |pages|
        invariant forall k :: NameOf(labels, k) == Listed(stored, index, old(labels), Flatten(pages[..p]), k)
      {
        ClaimPage(stored, index, old(labels), Flatten(pages[..p]), pages[p]);
        assert pages[..p + 1][..p] == pages[..p];
      }
      assert pages[..|pages|] == pages;
    }

    /** Create what the listing did not have, in any order, up to the first failure. */
    method CreateLabels(stored: Labels, replies: string -> CreateReply) returns (ok: bool, posted: set<string>)
      modifies this
      ensures forall k <- posted :: k in stored && NameOf(old(labels), k) == ""
      ensures ok ==> forall k <- stored :: NameOf(old(labels), k) == "" ==> k in posted
      ensures ok <==> forall k <- stored :: NameOf(old(labels), k) == "" ==> !replies(k).CreateFailed?
      ensures forall k :: NameOf(labels, k) == if k in posted && replies(k).Created? then replies(k).name
                                               else if k in posted && replies(k).AlreadyExists? then CreatedName(k)
                                               else NameOf(old(labels), k)
    {
      posted := {};
      var rest := stored.Keys;
      while rest != {}
        invariant rest <= stored.Keys && posted !! rest
        invariant forall k <- posted :: k in stored && NameOf(old(labels), k) == "" && CreateLabel(replies(k), k).Some?
        invariant forall k <- stored.Keys - rest :: NameOf(old(labels), k) == "" ==> k in posted
        invariant forall k :: NameOf(labels, k) == if k in posted then CreateLabel(replies(k), k).value
                                                   else NameOf(old(labels), k)
        decreases |rest|
      {
        var key :| key in rest;
        rest := rest - {key};
        if NameOf(labels, key) == "" {
          posted := posted + {key};
          var name := CreateLabel(replies(key), key);
          if name.None? { return false, posted; }
          labels := labels[key := name.value];
        }
      }
      ok := true;
    }

    /** posted holds the keys for which a creation was attempted. */
    method SetupLabels(stored: Labels, listing: Listing<string>, replies: string -> CreateReply)
      returns (ok: bool, index: Labels, posted: set<string>)
      modifies this
      ensures IsIndex(stored, index)
      ensures listing.broken ==> !ok && posted == {}
      ensures ok ==> IsSetup(stored, index, old(labels), Flatten(listing.pages), replies, labels, posted)
      ensures ok <==> !listing.broken && forall k <- stored ::
                        Listed(stored, index, old(labels), Flatten(listing.pages), k) == "" ==> !replies(k).CreateFailed?
      ensures forall k :: NameOf(labels, k) == if k in posted && replies(k).Created? then replies(k).name
                                               else if k in posted && replies(k).AlreadyExists? then CreatedName(k)
                                               else Listed(stored, index, old(labels), Flatten(listing.pages), k)
    {
      posted := {};
      index := IndexNames(stored);
      ClaimLabels(stored, index, listing.pages);
      if listing.broken { return false, index, posted; }
      ok, posted := CreateLabels(stored, replies);
    }
  }

  /** What a successful SetupLabels leaves behind: every tracked key has its listed label, and those that
      had none, and no others, a created one. */
  ghost predicate IsSetup(stored: Labels, index: Labels, before: Labels, names: seq<string>,
                          replies: string -> CreateReply, labels: Labels, posted: set<string>) {
    && IsIndex(stored, index)
    && posted == (set k | k in stored && Listed(stored, index, before, names, k) == "")
    && (forall k <- posted :: !replies(k).CreateFailed?)
    && forall k <- stored :: NameOf(labels, k)
         == if k !in posted then Listed(stored, index, before, names, k)
            else if replies(k).Created? then replies(k).name
            else CreatedName(k)
  }

  /** The keys the plugin tracks: each is what its created name reduces to. */
  predicate Tracked(stored: Labels) {
    forall k <- stored :: k != "" && Reduced(CreatedName(k)) == k
  }

  /** The server created the labels under the requested names. */
  predicate NamesKept(replies: string -> CreateReply, posted: set<string>) {
    forall k <- posted :: replies(k).Created? ==> replies(k).name == CreatedName(k)
  }

  /** Every tracked key ends bound. */
  lemma EveryKeyBound(stored: Labels, index: Labels, before: Labels, names: seq<string>,
                      replies: string -> CreateReply, labels: Labels, posted: set<string>, key: string)
    requires IsSetup(stored, index, before, names, replies, labels, posted) && NamesKept(replies, posted)
    requires key in stored
    ensures NameOf(labels, key) != ""
  {
    assert key in posted ==> NameOf(labels, key) == CreatedName(key);
  }

  // ---- Restarts ----

  /** The name is stored for some key. */
  predicate IsStored(stored: Labels, name: string) {
    exists k <- stored :: stored[k] == name != ""
  }

  predicate StoredIsListed(stored: Labels, names: seq<string>, key: string) {
    NameOf(stored, key) != "" && NameOf(stored, key) in names
  }

  /** No label in the listing can stand for the key: neither its stored name nor one that nobody has. */
  predicate Unlisted(stored: Labels, names: seq<string>, key: string) {
    !StoredIsListed(stored, names, key) && forall n <- names :: Reduced(n) == key ==> IsStored(stored, n)
  }

  /** A listed label is stored for one key but has the name to be created for another, which has none. */
  predicate Clash(stored: Labels, names: seq<string>) {
    exists k <- stored, l <- stored :: ClashOf(stored, names, k, l)
  }

  predicate ClashOf(stored: Labels, names: seq<string>, k: string, l: string) {
    k != l && StoredIsListed(stored, names, k) && NameOf(stored, k) == CreatedName(l) && Unlisted(stored, names, l)
  }

  lemma IndexedIsStored(stored: Labels, index: Labels, name: string)
    requires IsIndex(stored, index) && "" !in stored
    ensures NameOf(index, name) != "" <==> IsStored(stored, name)
  {
  }

  lemma ReducedEmpty()
    ensures Reduced("") == ""
  {
  }

  lemma ListedClaim(stored: Labels, index: Labels, names: seq<string>, key: string)
    requires IsIndex(stored, index) && "" !in stored && key in stored && !StoredIsListed(stored, names, key)
    ensures var r := FirstFor(index, names, key);
              if Unlisted(stored, names, key) then r == "" else r != "" && Claimable(index, r, key)
  {
    ReducedEmpty();
    FirstForIsFirst(index, names, key);
    forall n <- names | Reduced(n) == key ensures Claimable(index, n, key) <==> !IsStored(stored, n) {
      IndexedIsStored(stored, index, n);
    }
  }

  /** How a key got its label: stored, created or claimed. */
  ghost predicate Settled(stored: Labels, index: Labels, names: seq<string>, labels: Labels, key: string) {
    if StoredIsListed(stored, names, key) then NameOf(labels, key) == NameOf(stored, key)
    else if Unlisted(stored, names, key) then NameOf(labels, key) == CreatedName(key)
    else Claimable(index, NameOf(labels, key), key)
  }

  lemma SettledBySetup(stored: Labels, index: Labels, names: seq<string>, replies: string -> CreateReply,
                       labels: Labels, posted: set<string>, key: string)
    requires Injective(stored) && Tracked(stored) && key in stored
    requires IsSetup(stored, index, map[], names, replies, labels, posted) && NamesKept(replies, posted)
    ensures Settled(stored, index, names, labels, key)
  {
    ListedOf(stored, index, names, key);
    if !StoredIsListed(stored, names, key) { ListedClaim(stored, index, names, key); }
    assert NameOf(labels, key) == if Listed(stored, index, map[], names, key) == "" then CreatedName(key)
                                  else Listed(stored, index, map[], names, key);
  }

  lemma ListedOf(stored: Labels, index: Labels, names: seq<string>, key: string)
    requires IsIndex(stored, index) && Injective(stored) && key in stored && key != ""
    ensures Listed(stored, index, map[], names, key)
         == if StoredIsListed(stored, names, key) then NameOf(stored, key) else FirstFor(index, names, key)
  {
    if StoredIsListed(stored, names, key) { StoredNameWins(stored, index, map[], names, key); }
  }

  lemma SameNameClashes(stored: Labels, index: Labels, names: seq<string>, labels: Labels, k: string, l: string)
    requires IsIndex(stored, index) && Injective(stored) && Tracked(stored)
    requires k in stored && l in stored && k != l && NameOf(labels, k) == NameOf(labels, l)
    requires Settled(stored, index, names, labels, k) && Settled(stored, index, names, labels, l)
    ensures ClashOf(stored, names, k, l) || ClashOf(stored, names, l, k)
  {
    IndexedIsStored(stored, index, NameOf(labels, k));
    assert StoredIsListed(stored, names, k) ==> IsStored(stored, NameOf(labels, k));
    assert StoredIsListed(stored, names, l) ==> IsStored(stored, NameOf(labels, k));
  }

  predicate Shared(labels: Labels, k: string, l: string) {
    k != l && NameOf(labels, k) == NameOf(labels, l)
  }

  /** Two keys end with one label exactly when there is a clash. */
  lemma BoundApart(stored: Labels, index: Labels, names: seq<string>, replies: string -> CreateReply,
                   labels: Labels, posted: set<string>)
    requires Injective(stored) && Tracked(stored)
    requires IsSetup(stored, index, map[], names, replies, labels, posted) && NamesKept(replies, posted)
    ensures (exists k <- stored, l <- stored :: Shared(labels, k, l)) <==> Clash(stored, names)
  {
    forall k <- stored ensures Settled(stored, index, names, labels, k) {
      SettledBySetup(stored, index, names, replies, labels, posted, k);
    }
    forall k <- stored, l <- stored | Shared(labels, k, l) ensures Clash(stored, names) {
      SameNameClashes(stored, index, names, labels, k, l);
    }
    forall k <- stored, l <- stored | ClashOf(stored, names, k, l) ensures Shared(labels, k, l) {
    }
  }

  /** A setup from saved names that are all still listed: nothing is created and nothing changes exactly
      when the names are injective. */
  lemma SetupAgain(saved: Labels, index: Labels, names: seq<string>, replies: string -> CreateReply,
                   labels: Labels, posted: set<string>)
    requires "" !in saved && IsSetup(saved, index, map[], names, replies, labels, posted)
    requires forall k <- saved :: StoredIsListed(saved, names, k)
    ensures posted == {} && SameOn(saved, saved, labels) <==> Injective(saved)
  {
    if Injective(saved) {
      forall k <- saved ensures Listed(saved, index, map[], names, k) == saved[k] {
        StoredNameWins(saved, index, map[], names, k);
      }
    } else {
      var k, l :| k in saved && l in saved && saved[k] == saved[l] != "" && k != l;
      var loser := if index[saved[k]] == k then l else k;
      LoserLoses(saved, index, names, loser);
    }
  }

  predicate SameOn(stored: Labels, labels: Labels, labels2: Labels) {
    forall k <- stored :: NameOf(labels2, k) == NameOf(labels, k)
  }

  lemma LoserLoses(saved: Labels, index: Labels, names: seq<string>, loser: string)
    requires IsIndex(saved, index) && loser in saved && loser != ""
    requires saved[loser] != "" && index[saved[loser]] != loser && "" !in saved
    ensures Listed(saved, index, map[], names, loser) != saved[loser]
  {
    FirstForIsFirst(index, names, loser);
    assert NameOf(index, saved[loser]) != "";
  }

  /** What is read back after the labels were saved: one name for every key that is asked for. */
  function Saved(stored: Labels, labels: Labels): Labels {
    map k | k in stored :: NameOf(labels, k)
  }

  lemma SavedNames(stored: Labels, index: Labels, names: seq<string>, replies: string -> CreateReply,
                   labels: Labels, posted: set<string>)
    requires Injective(stored) && Tracked(stored)
    requires IsSetup(stored, index, map[], names, replies, labels, posted) && NamesKept(replies, posted)
    ensures forall k <- stored :: NameOf(labels, k) != ""
    ensures Injective(Saved(stored, labels)) <==> !Clash(stored, names)
  {
    forall k <- stored ensures NameOf(labels, k) != "" {
      EveryKeyBound(stored, index, map[], names, replies, labels, posted, k);
    }
    BoundApart(stored, index, names, replies, labels, posted);
    SharedIsNotInjective(stored, labels);
  }

  lemma SharedIsNotInjective(stored: Labels, labels: Labels)
    requires forall k <- stored :: NameOf(labels, k) != ""
    ensures Injective(Saved(stored, labels)) <==> !exists k <- stored, l <- stored :: Shared(labels, k, l)
  {
    var saved := Saved(stored, labels);
    forall k <- stored, l <- stored ensures Shared(labels, k, l) <==> k != l && saved[k] == saved[l] {
    }
  }

  /** Restart idempotence. A first setup succeeds and its labels are saved; then setup runs again and finds
      the labels in use still listed, in any order and among any others. It creates nothing and binds every
      key as before exactly when the first listing had no clash. */
  lemma RestartIdempotent(stored: Labels, index: Labels, names: seq<string>, replies: string -> CreateReply,
                          labels: Labels, posted: set<string>, index2: Labels, names2: seq<string>,
                          replies2: string -> CreateReply, labels2: Labels, posted2: set<string>)
    requires Injective(stored) && Tracked(stored)
    requires IsSetup(stored, index, map[], names, replies, labels, posted) && NamesKept(replies, posted)
    requires forall k <- stored :: NameOf(labels, k) in names2
    requires IsSetup(Saved(stored, labels), index2, map[], names2, replies2, labels2, posted2)
    ensures posted2 == {} && SameOn(stored, labels, labels2) <==> !Clash(stored, names)
  {
    SavedNames(stored, index, names, replies, labels, posted);
    SavedListed(stored, labels, names2, labels2);
    SetupAgain(Saved(stored, labels), index2, names2, replies2, labels2, posted2);
  }

  lemma SavedListed(stored: Labels, labels: Labels, names: seq<string>, labels2: Labels)
    requires "" !in stored && forall k <- stored :: NameOf(labels, k) != "" && NameOf(labels, k) in names
    ensures "" !in Saved(stored, labels)
    ensures forall k <- Saved(stored, labels) :: StoredIsListed(Saved(stored, labels), names, k)
    ensures SameOn(Saved(stored, labels), Saved(stored, labels), labels2) <==> SameOn(stored, labels, labels2)
  {
    var saved := Saved(stored, labels);
    forall k <- stored ensures NameOf(saved, k) == NameOf(labels, k) && k in saved {
    }
  }

  /** Every stored name is one that reduces to its key, as when all of them come from this program. */
  predicate Tidy(stored: Labels) {
    forall k <- stored :: stored[k] != "" ==> Reduced(stored[k]) == k
  }

  /** Starting from a tidy database, an empty one for instance, setup keeps it tidy whatever labels the
      project has, two keys never share a label, and there is never a clash. */
  lemma SetupKeepsTidy(stored: Labels, index: Labels, names: seq<string>, replies: string -> CreateReply,
                       labels: Labels, posted: set<string>)
    requires Tidy(stored) && Tracked(stored)
    requires IsSetup(stored, index, map[], names, replies, labels, posted) && NamesKept(replies, posted)
    ensures Injective(stored) && !Clash(stored, names)
    ensures Tidy(Saved(stored, labels))
  {
    forall k <- stored ensures Reduced(NameOf(labels, k)) == k {
      SettledBySetup(stored, index, names, replies, labels, posted, k);
    }
  }

  function Unsaved(stored: Labels): Labels {
    map k | k in stored :: ""
  }

  /** Even if the saved names are lost, a restart on a project that still lists the labels in use creates
      nothing: each of them reduces to its key, the created ones too. */
  lemma RestartWithoutDatabase(stored: Labels, index: Labels, names: seq<string>, replies: string -> CreateReply,
                               labels: Labels, posted: set<string>, index2: Labels, names2: seq<string>,
                               replies2: string -> CreateReply, labels2: Labels, posted2: set<string>)
    requires Tidy(stored) && Tracked(stored)
    requires IsSetup(stored, index, map[], names, replies, labels, posted) && NamesKept(replies, posted)
    requires forall k <- stored :: NameOf(labels, k) in names2
    requires IsSetup(Unsaved(stored), index2, map[], names2, replies2, labels2, posted2)
    ensures posted2 == {}
  {
    SetupKeepsTidy(stored, index, names, replies, labels, posted);
    forall k <- stored ensures Listed(Unsaved(stored), index2, map[], names2, k) != "" {
      EveryKeyBound(stored, index, map[], names, replies, labels, posted, k);
      assert k in Saved(stored, labels);
      FoundAgain(Unsaved(stored), index2, names2, k, NameOf(labels, k));
    }
  }

  lemma FoundAgain(stored: Labels, index: Labels, names: seq<string>, key: string, name: string)
    requires IsIndex(stored, index) && "" !in stored && key in stored
    requires forall k <- stored :: stored[k] == ""
    requires name in names && Reduced(name) == key
    ensures Listed(stored, index, map[], names, key) != ""
  {
    ListedClaim(stored, index, names, key);
    assert !IsStored(stored, name);
  }

  const CLASHING: Labels := map["approved" := "Teleport: Denied", "denied" := ""]

  /** The clash is possible: the label to be created for one key was stored for another. The creation is
      refused because the label exists, and both keys end with it. */
  lemma ClashExample(index: Labels, replies: string -> CreateReply, labels: Labels, posted: set<string>)
    requires replies("denied").AlreadyExists?
    requires IsSetup(CLASHING, index, map[], ["Teleport: Denied"], replies, labels, posted)
    ensures Clash(CLASHING, ["Teleport: Denied"])
    ensures NameOf(labels, "approved") == NameOf(labels, "denied") == "Teleport: Denied"
  {
    ClashingClashes();
    ListedOf(CLASHING, index, ["Teleport: Denied"], "approved");
    ListedOf(CLASHING, index, ["Teleport: Denied"], "denied");
    ListedClaim(CLASHING, index, ["Teleport: Denied"], "denied");
    CreatedNames();
  }

  lemma ClashingClashes()
    ensures ClashOf(CLASHING, ["Teleport: Denied"], "approved", "denied")
  {
    CreatedNames();
    assert CLASHING["approved"] == "Teleport: Denied";
    assert IsStored(CLASHING, "Teleport: Denied");
  }

  /** The names under which the plugin creates its four labels. */
  lemma CreatedNames()
    ensures CreatedName("pending") == "Teleport: Pending"
    ensures CreatedName("approved") == "Teleport: Approved"
    ensures CreatedName("denied") == "Teleport: Denied"
    ensures CreatedName("expired") == "Teleport: Expired"
  {
    CreatedFromWord("pending", "Pending");
    CreatedFromWord("approved", "Approved");
    CreatedFromWord("denied", "Denied");
    CreatedFromWord("expired", "Expired");
  }

  lemma CreatedFromWord(key: string, title: string)
    requires key != "" && forall j :: 0 <= j < |key| ==> 'a' <= key[j] <= 'z'
    requires title == [UpperChar(key[0])] + key[1..]
    ensures CreatedName(key) == "Teleport: " + title
  {
    TitleInside(key, 1);
  }

  /** After a letter, strings.Title leaves letters as they are. */
  lemma {:induction false} TitleInside(s: string, i: nat)
    requires 0 < i <= |s| && forall j :: 0 <= j < |s| ==> 'a' <= s[j] <= 'z'
    ensures Title(s[i..], s[i - 1]) == s[i..]
    decreases |s| - i
  {
    if i < |s| {
      TitleInside(s, i + 1);
      assert s[i..][1..] == s[i + 1..];
    }
  }

  // ---- The webhook ----

  datatype Hook = Hook(id: IntID, url: string)

  datatype HookError = ListFailed | UpdateFailed | CreationFailed

  datatype PutReply = Updated | NotFound | PutFailed

  /** The first hook with the URL, by its position; the length of the list if there is none. */
  function FirstHook(hooks: seq<Hook>, url: string): (k: nat)
    ensures k <= |hooks|
    ensures forall i :: 0 <= i < k ==> hooks[i].url != url
    ensures k < |hooks| ==> hooks[k].url == url
  {
    if hooks == [] || hooks[0].url == url then 0 else 1 + FirstHook(hooks[1..], url)
  }

  lemma {:induction false} FirstHookIn(a: seq<Hook>, b: seq<Hook>, url: string)
    ensures FirstHook(a, url) < |a| ==> FirstHook(a + b, url) == FirstHook(a, url)
    ensures FirstHook(a, url) == |a| ==> FirstHook(a + b, url) == |a| + FirstHook(b, url)
  {
    if a == [] {
      assert a + b == b;
    } else {
      assert (a + b)[1..] == a[1..] + b;
      FirstHookIn(a[1..], b, url);
    }
  }

  /** findProjectHook: the ID of the first hook with the URL over all pages, without reading the pages after
      it, and 0 if there is none. */
  method FindProjectHook(listing: Listing<Hook>, url: string) returns (result: Result<IntID, HookError>)
    ensures var hooks := Flatten(listing.pages);
            result == if FirstHook(hooks, url) < |hooks| then Ok(hooks[FirstHook(hooks, url)].id)
                      else if listing.broken then Err(ListFailed) else Ok(0)
  {
    for p := 0 to |listing.pages|
      invariant FirstHook(Flatten(listing.pages[..p]), url) == |Flatten(listing.pages[..p])|
    {
      var page := listing.pages[p];
      ghost var seen := Flatten(listing.pages[..p]);
      FirstHookIn(seen, page, url);
      assert listing.pages[..p + 1][..p] == listing.pages[..p];
      for i := 0 to |page|
        invariant i <= FirstHook(page, url)
      {
        if page[i].url == url {
          FoundOnPage(listing.pages, p, url);
          return Ok(page[i].id);
        }
      }
    }
    assert listing.pages[..|listing.pages|] == listing.pages;
    result := if listing.broken then Err(ListFailed) else Ok(0);
  }

  lemma {:induction false} FoundOnPage(pages: seq<seq<Hook>>, p: nat, url: string)
    requires p < |pages| && FirstHook(pages[p], url) < |pages[p]|
    requires FirstHook(Flatten(pages[..p]), url) == |Flatten(pages[..p])|
    ensures FirstHook(Flatten(pages), url) == |Flatten(pages[..p])| + FirstHook(pages[p], url)
    ensures FirstHook(Flatten(pages), url) < |Flatten(pages)|
    ensures Flatten(pages)[FirstHook(Flatten(pages), url)] == pages[p][FirstHook(pages[p], url)]
    decreases |pages|
  {
    var last := |pages| - 1;
    if p == last {
      FirstHookIn(Flatten(pages[..p]), pages[p], url);
    } else {
      assert pages[..last][..p] == pages[..p];
      FoundOnPage(pages[..last], p, url);
      FirstHookIn(Flatten(pages[..last]), pages[last], url);
    }
  }

  /** A hook that is known by its ID is updated in place, and replaced only if the project has lost it; an
      unknown one is looked up by its URL and created only if there is none. */
  method SetupProjectHook(existing: IntID, listing: Listing<Hook>, url: string, put: PutReply,
                          creation: Result<IntID, HookError>)
    returns (result: Result<IntID, HookError>, created: bool)
    ensures existing != 0 ==>
              && (created <==> put.NotFound?)
              && result == match put
                 case Updated => Ok(existing)
                 case NotFound => creation
                 case PutFailed => Err(UpdateFailed)
    ensures existing == 0 ==>
              var hooks := Flatten(listing.pages);
              var k := FirstHook(hooks, url);
              if k < |hooks| && hooks[k].id != 0 then !created && result == Ok(hooks[k].id)
              else if k == |hooks| && listing.broken then !created && result == Err(ListFailed)
              else created && result == creation
  {
    if existing == 0 {
      var found := FindProjectHook(listing, url);
      if found.Err? || found.value != 0 { return found, false; }
      return creation, true;
    }
    match put
    case Updated => return Ok(existing), false;
    case NotFound => return creation, true;
    case PutFailed => return Err(UpdateFailed), false;
  }

  // ---- App.setup ----

  /** What the GitLab server answers during one setup. */
  datatype Project = Project(hooks: Listing<Hook>, put: PutReply, creation: Result<IntID, HookError>,
                             labels: Listing<string>, replies: string -> CreateReply)

  /** The saved names of the tracked keys. */
  function LabelsIn(bucket: Bucket): Labels {
    map k | k in KEYS :: LabelIn(bucket, k)
  }

  function SavedLabels(root: Root, project: IntID): Labels {
    LabelsIn(NestedBucket(root, project, SETTINGS_BUCKET_KEY))
  }

  /** The function that runs inside the transaction. */
  method FillSettings(settings: Settings, bot: Bot, url: string, project: Project)
    returns (ok: bool, hook: Result<IntID, HookError>, hookCreated: bool, index: Labels, posted: set<string>)
    requires settings.Valid()
    modifies settings, bot
    ensures settings.Valid()
    ensures ok ==> hook.Ok? && HookIn(settings.bucket) == hook.value
    ensures ok ==> IsSetup(LabelsIn(old(settings.bucket)), index, old(bot.labels), Flatten(project.labels.pages),
                           project.replies, bot.labels, posted)
    ensures ok ==> forall k :: LabelIn(settings.bucket, k)
                            == if k in bot.labels then bot.labels[k] else LabelIn(old(settings.bucket), k)
    ensures HookIn(old(settings.bucket)) != 0 && project.put.Updated? && ok ==>
              !hookCreated && hook == Ok(HookIn(old(settings.bucket)))
  {
    index, posted := map[], {};
    var existing := settings.HookID();
    hook, hookCreated := SetupProjectHook(existing, project.hooks, url, project.put, project.creation);
    ok := hook.Ok?;
    if ok {
      settings.SetHookID(hook.value);
      var stored := settings.GetLabels(KEYS);
      assert stored == LabelsIn(old(settings.bucket));
      ok, index, posted := bot.SetupLabels(stored, project.labels, project.replies);
      if ok { settings.SetLabels(bot.labels); }
    }
  }

  /** One transaction around both setups: the database takes the hook and the labels, or nothing at all. */
  method Setup(db: DB, bot: Bot, url: string, project: Project, commits: bool)
    returns (ok: bool, hook: Result<IntID, HookError>, hookCreated: bool, index: Labels, posted: set<string>)
    requires db.Valid()
    modifies db, bot
    ensures db.Valid() && (!ok ==> db.root == old(db.root))
    ensures ok ==> hook.Ok? && HookOf(db.root, db.projectID) == hook.value
    ensures ok ==> IsSetup(SavedLabels(old(db.root), db.projectID), index, old(bot.labels), Flatten(project.labels.pages),
                           project.replies, bot.labels, posted)
    ensures ok ==> forall k :: LabelOf(db.root, db.projectID, k)
                            == if k in bot.labels then bot.labels[k] else LabelOf(old(db.root), db.projectID, k)
    ensures HookOf(old(db.root), db.projectID) != 0 && project.put.Updated? && ok ==>
              !hookCreated && hook == Ok(HookOf(old(db.root), db.projectID))
    ensures forall p :: p != db.projectID ==> HookOf(db.root, p) == HookOf(old(db.root), p)
    ensures forall p, k :: p != db.projectID ==> LabelOf(db.root, p, k) == LabelOf(old(db.root), p, k)
    ensures forall p, i :: RequestOf(db.root, p, i) == RequestOf(old(db.root), p, i)
  {
    var settings := db.BeginSettings();
    ok, hook, hookCreated, index, posted := FillSettings(settings, bot, url, project);
    ok := ok && commits;
    db.EndSettings(settings, ok);
  }

  /** What the next start reads back is what this one bound, so RestartIdempotent applies to it. */
  lemma SavedIsBound(before: Root, after: Root, project: IntID, index: Labels, names: seq<string>,
                     replies: string -> CreateReply, labels: Labels, posted: set<string>)
    requires IsSetup(SavedLabels(before, project), index, map[], names, replies, labels, posted)
    requires NamesKept(replies, posted)
    requires forall k :: LabelOf(after, project, k) == if k in labels then labels[k] else LabelOf(before, project, k)
    ensures Tracked(SavedLabels(before, project))
    ensures SavedLabels(after, project) == Saved(SavedLabels(before, project), labels)
  {
    var stored := SavedLabels(before, project);
    TrackedKeys(stored);
    forall k <- stored ensures NameOf(labels, k) != "" {
      EveryKeyBound(stored, index, map[], names, replies, labels, posted, k);
    }
  }

  lemma TrackedKeys(stored: Labels)
    requires forall k <- stored :: k in KEYS
    ensures Tracked(stored)
  {
    forall k <- stored ensures k != "" && Reduced(CreatedName(k)) == k { PluginKeys(k); }
  }
}
