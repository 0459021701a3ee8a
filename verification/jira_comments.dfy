/** How the Jira plugin decides what an updated issue means (access/jira/app.go), and its paged search for
    the reason (access/jira/bot.go). */
module JiraComments {
  import opened Common
  import opened GitlabLabels

  // ---- Comments, page by page ----

  datatype Comment = Comment(accountID: string, body: string)

  datatype PageReply = Page(comments: seq<Comment>, maxResults: nat) | Unavailable

  /** The server pages through one list: a page starts where it is asked to, only the end of the list is an
      empty page, and a page below the server's limit reaches the end. Any page may fail. */
  ghost predicate Honours(server: nat -> PageReply, comments: seq<Comment>) {
    forall startAt :: 0 <= startAt <= |comments| && server(startAt).Page? ==>
      HonoursAt(server(startAt), comments[startAt..])
  }

  predicate HonoursAt(reply: PageReply, rest: seq<Comment>)
    requires reply.Page?
  {
    && reply.comments <= rest
    && (reply.comments == [] ==> rest == [])
    && (|reply.comments| < reply.maxResults ==> reply.comments == rest)
  }

  /** The first value that f finds in the list. */
  function FirstFound<T>(f: Comment -> Option<T>, comments: seq<Comment>): Option<T> {
    if comments == [] then None
    else if f(comments[0]).Some? then f(comments[0])
    else FirstFound(f, comments[1..])
  }

  lemma {:induction false} FirstFoundConcat<T>(f: Comment -> Option<T>, a: seq<Comment>, b: seq<Comment>)
    ensures FirstFound(f, a + b) == if FirstFound(f, a).Some? then FirstFound(f, a) else FirstFound(f, b)
  {
    if a == [] {
      assert a + b == b;
    } else {
      assert (a + b)[1..] == a[1..] + b;
      FirstFoundConcat(f, a[1..], b);
    }
  }

  /** FirstFound is the first: it is the value of some comment before which no comment has one. */
  lemma {:induction false} FirstFoundIsFirst<T>(f: Comment -> Option<T>, comments: seq<Comment>)
    ensures FirstFound(f, comments) == None <==> forall c :: c in comments ==> f(c) == None
    ensures FirstFound(f, comments).Some? ==>
              exists i :: 0 <= i < |comments| && f(comments[i]) == FirstFound(f, comments)
                       && forall j :: 0 <= j < i ==> f(comments[j]) == None
  {
    if comments != [] && f(comments[0]) == None {
      FirstFoundIsFirst(f, comments[1..]);
      assert comments == [comments[0]] + comments[1..];
      if FirstFound(f, comments).Some? {
        var i :| 0 <= i < |comments[1..]| && f(comments[1..][i]) == FirstFound(f, comments)
                 && forall j :: 0 <= j < i ==> f(comments[1..][j]) == None;
        assert f(comments[i + 1]) == FirstFound(f, comments);
        forall j | 0 <= j < i + 1 ensures f(comments[j]) == None {
          if j > 0 { assert comments[j] == comments[1..][j - 1]; }
        }
      }
    }
  }

  /** The callback of one page: the first comment that f accepts ends the search. */
  method SearchPage<T>(f: Comment -> Option<T>, page: seq<Comment>) returns (found: Option<T>)
    ensures found == FirstFound(f, page)
  {
    var i := 0;
    while i < |page|
      invariant 0 <= i <= |page| && FirstFound(f, page) == FirstFound(f, page[i..])
    {
      if f(page[i]).Some? { return f(page[i]); }
      i := i + 1;
    }
    found := None;
  }

  /** RangeIssueCommentsDescending with a search as its callback: on any paging of the list it finds what a
      search of the whole list finds, unless a page fails before that. */
  method SearchComments<T>(server: nat -> PageReply, f: Comment -> Option<T>, ghost comments: seq<Comment>)
    returns (found: Option<T>, failed: bool)
    requires Honours(server, comments)
    ensures !failed ==> found == FirstFound(f, comments)
    ensures failed ==> found == None && exists startAt :: 0 <= startAt <= |comments| && server(startAt).Unavailable?
    ensures (forall startAt :: 0 <= startAt <= |comments| ==> server(startAt).Page?) ==> !failed
  {
    found, failed := None, false;
    var startAt := 0;
    while true
      invariant 0 <= startAt <= |comments| && found == None && !failed
      invariant FirstFound(f, comments) == FirstFound(f, comments[startAt..])
      decreases |comments| - startAt
    {
      ghost var rest := comments[startAt..];
      var reply := server(startAt);
      if reply.Unavailable? { return None, true; }
      assert HonoursAt(reply, rest);
      var nComments := |reply.comments|;
      if nComments == 0 { break; }
      assert rest == reply.comments + comments[startAt + nComments..];
      FirstFoundConcat(f, reply.comments, comments[startAt + nComments..]);
      found := SearchPage(f, reply.comments);
      if found.Some? { break; }
      if nComments < reply.maxResults { break; }
      startAt := startAt + nComments;
    }
  }

  // ---- The last update of the status ----

  datatype Author = Author(accountID: string, email: string)

  datatype Item = Item(fieldType: string, field: string, value: string)

  datatype Entry = Entry(author: Author, items: seq<Item>)

  /** Some item of the entry sets the status of the issue to the given one, without regard to case. */
  predicate EntrySets(entry: Entry, status: string) {
    exists item <- entry.items :: item.fieldType == "jira" && item.field == "status" && Lower(item.value) == status
  }

  /** The author of the first history entry that sets the status. */
  method GetLastUpdate(histories: seq<Entry>, status: string) returns (author: Option<Author>)
    ensures author == None <==> forall e <- histories :: !EntrySets(e, status)
    ensures author.Some? ==>
              exists i :: 0 <= i < |histories| && IsFirstUpdate(histories, status, i) && histories[i].author == author.value
  {
    for i := 0 to |histories|
      invariant forall k :: 0 <= k < i ==> !EntrySets(histories[k], status)
    {
      for j := 0 to |histories[i].items|
        invariant forall item <- histories[i].items[..j] ::
                    !(item.fieldType == "jira" && item.field == "status" && Lower(item.value) == status)
      {
        var item := histories[i].items[j];
        if item.fieldType == "jira" && item.field == "status" && Lower(item.value) == status {
          assert IsFirstUpdate(histories, status, i);
          return Some(histories[i].author);
        }
      }
    }
    author := None;
  }

  predicate IsFirstUpdate(histories: seq<Entry>, status: string, i: nat)
    requires i < |histories|
  {
    EntrySets(histories[i], status) && forall k :: 0 <= k < i ==> !EntrySets(histories[k], status)
  }

  // ---- The webhook ----

  datatype Issue = Issue(id: string, status: string, requestID: Option<string>, histories: seq<Entry>)

  datatype RequestReply = Pending | NotPending | NoRequest | RequestFailed

  /** A change of a request's state that is asked of the auth server. */
  datatype Change = Change(request: string, approved: bool, delegator: string, reason: string)

  datatype Outcome = Ignored | Failed | Asked(change: Change)

  /** The two forms in which a comment gives a reason; the first one wins. */
  datatype Reasons = Reasons(inline: string -> Option<string>, separated: string -> Option<string>)

  function ReasonOf(reasons: Reasons, accountID: string): Comment -> Option<string> {
    (c: Comment) =>
      if c.accountID != accountID then None
      else if reasons.inline(c.body).Some? then reasons.inline(c.body)
      else reasons.separated(c.body)
  }

  /** The comment is the account's and has the text as its reason: what stands behind an inline mark, or
      behind a separating line if the comment has no inline mark. */
  predicate Gives(reasons: Reasons, accountID: string, c: Comment, text: string) {
    && c.accountID == accountID
    && (reasons.inline(c.body) == Some(text) || (reasons.inline(c.body) == None && reasons.separated(c.body) == Some(text)))
  }

  /** The first comment that has a reason has this one. */
  ghost predicate FirstReason(reasons: Reasons, accountID: string, comments: seq<Comment>, text: string) {
    exists i :: 0 <= i < |comments| && Gives(reasons, accountID, comments[i], text)
             && forall j, other :: 0 <= j < i ==> !Gives(reasons, accountID, comments[j], other)
  }

  ghost predicate NoReason(reasons: Reasons, accountID: string, comments: seq<Comment>) {
    forall j, other :: 0 <= j < |comments| ==> !Gives(reasons, accountID, comments[j], other)
  }

  lemma ReasonFound(reasons: Reasons, accountID: string, comments: seq<Comment>)
    ensures match FirstFound(ReasonOf(reasons, accountID), comments)
            case None => NoReason(reasons, accountID, comments)
            case Some(text) => FirstReason(reasons, accountID, comments, text)
  {
    var f := ReasonOf(reasons, accountID);
    FirstFoundIsFirst(f, comments);
    forall j, other | 0 <= j < |comments|
      ensures Gives(reasons, accountID, comments[j], other) <==> f(comments[j]) == Some(other)
    {
    }
  }

  /** The conditions under which an updated issue changes the state of its request. */
  predicate Decides(issue: Result<Issue, string>, request: RequestReply, pluginIssue: Result<string, string>) {
    && issue.Ok?
    && Lower(issue.value.status) in {"approved", "denied"}
    && issue.value.requestID.Some?
    && request == Pending
    && pluginIssue == Ok(issue.value.id)
  }

  /** onJIRAWebhook, up to the change it asks for. A change is asked for exactly if the issue is decided and
      bound to a pending request whose plugin data names this issue; the delegator is the author of the
      status update, and the reason their latest comment that gives one. */
  method OnWebhook(issue: Result<Issue, string>, request: RequestReply, pluginIssue: Result<string, string>,
                   server: nat -> PageReply, reasons: Reasons, ghost comments: seq<Comment>)
    returns (outcome: Outcome, author: Option<Author>)
    requires Honours(server, comments)
    ensures outcome.Asked? <==> Decides(issue, request, pluginIssue)
    ensures outcome.Asked? ==>
              && Some(outcome.change.request) == issue.value.requestID
              && outcome.change.approved == (Lower(issue.value.status) == "approved")
              && (author == None <==> forall e <- issue.value.histories :: !EntrySets(e, Lower(issue.value.status)))
              && (author.Some? ==>
                    && (exists i :: 0 <= i < |issue.value.histories|
                         && IsFirstUpdate(issue.value.histories, Lower(issue.value.status), i)
                         && issue.value.histories[i].author == author.value)
                    && outcome.change.delegator == author.value.email
                    && (|| FirstReason(reasons, author.value.accountID, comments, outcome.change.reason)
                        || (outcome.change.reason == ""
                            && (|| NoReason(reasons, author.value.accountID, comments)
                                || exists startAt :: 0 <= startAt <= |comments| && server(startAt).Unavailable?))))
              && (author == None ==> outcome.change.delegator == "" && outcome.change.reason == "")
  {
    author := None;
    if issue.Err? { return Failed, author; }
    var status := Lower(issue.value.status);
    if status == "pending" || status == "expired" { return Ignored, author; }
    if status != "approved" && status != "denied" { return Failed, author; }
    if issue.value.requestID == None { return Failed, author; }
    match request {
      case NoRequest => return Ignored, author;
      case NotPending => return Ignored, author;
      case RequestFailed => return Failed, author;
      case Pending =>
    }
    if pluginIssue != Ok(issue.value.id) { return Failed, author; }
    var delegator, reason := "", "";
    author := GetLastUpdate(issue.value.histories, status);
    if author.Some? {
      delegator := author.value.email;
      var found, _ := SearchComments(server, ReasonOf(reasons, author.value.accountID), comments);
      ReasonFound(reasons, author.value.accountID, comments);
      reason := OrEmpty(found);
    }
    outcome := Asked(Change(issue.value.requestID.value, status == "approved", delegator, reason));
  }

  function OrEmpty(s: Option<string>): string {
    if s.Some? then s.value else ""
  }
}
