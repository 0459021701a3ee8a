/** Broadcasting a request to messenger channels, and updating the messages when it is resolved or
    expires: access/mattermost/app.go and bot.go, access/slack/app.go and bot.go. */
module Broadcast {
  import opened PluginData
  import opened Common

  datatype Platform = Mattermost | Slack

  function LegacyKey(platform: Platform): string {
    match platform case Mattermost => MATTERMOST_LEGACY_KEY case Slack => SLACK_LEGACY_KEY
  }

  /** The lookups of the messenger server during one broadcast; each may differ by position, and a failed
      lookup is the empty string. */
  datatype Directory = Directory(isEmail: string -> bool, direct: (nat, string) -> string,
                                 named: (nat, string, string) -> string)

  datatype PostReply = Posted(channelID: string, messageID: string) | Refused

  // ---- Recipients ----

  /** The channel of a suggested reviewer; only e-mail addresses are supported. */
  function ReviewerChannel(d: Directory, i: nat, recipient: string): string {
    if d.isEmail(recipient) then d.direct(i, recipient) else ""
  }

  /** The channel of a recipient from the configuration. */
  function ConfiguredChannel(platform: Platform, d: Directory, i: nat, recipient: string): string {
    if d.isEmail(recipient) then d.direct(i, recipient)
    else match platform
      case Mattermost =>
        var parts := Text.Split(recipient, '/');
        if |parts| == 2 then d.named(i, parts[0], parts[1]) else ""
      case Slack => recipient
  }

  /** Recipient number i of all stands for the channel as an e-mail address. */
  predicate ByEmail(d: Directory, i: nat, recipient: string, channel: string) {
    d.isEmail(recipient) && d.direct(i, recipient) == channel
  }

  /** The recipient is the channel's own name or ID, which only Slack takes. */
  predicate ByItself(platform: Platform, d: Directory, recipient: string, channel: string) {
    platform == Slack && !d.isEmail(recipient) && recipient == channel
  }

  /** The recipient is a team and a channel's name with one slash between them, which only Mattermost takes. */
  ghost predicate ByTeam(platform: Platform, d: Directory, i: nat, recipient: string, channel: string) {
    platform == Mattermost && !d.isEmail(recipient)
    && exists team, name :: IsPair(recipient, team, name) && d.named(i, team, name) == channel
  }

  predicate IsPair(text: string, team: string, name: string) {
    text == team + "/" + name && '/' !in team && '/' !in name
  }

  /** A suggested reviewer stands for the channel by e-mail address, a configured recipient in any form. */
  ghost predicate IsRecipient(platform: Platform, d: Directory, reviewers: seq<string>, configured: seq<string>,
                              channel: string) {
    && channel != ""
    && (|| (exists i :: 0 <= i < |reviewers| && ByEmail(d, i, reviewers[i], channel))
        || (exists i :: 0 <= i < |configured| && ByEmail(d, |reviewers| + i, configured[i], channel))
        || (exists i :: 0 <= i < |configured| && ByItself(platform, d, configured[i], channel))
        || exists i :: 0 <= i < |configured| && ByTeam(platform, d, |reviewers| + i, configured[i], channel))
  }

  lemma ConfiguredFor(platform: Platform, d: Directory, i: nat, recipient: string, channel: string)
    requires channel != ""
    ensures ConfiguredChannel(platform, d, i, recipient) == channel
       <==> || ByEmail(d, i, recipient, channel)
            || ByItself(platform, d, recipient, channel)
            || ByTeam(platform, d, i, recipient, channel)
  {
    if platform == Mattermost {
      var parts := Text.Split(recipient, '/');
      if |parts| == 2 { Text.SplitPair(recipient, parts[0], parts[1], '/'); }
      forall team, name | IsPair(recipient, team, name) ensures parts == [team, name] {
        Text.SplitPair(recipient, team, name, '/');
      }
    }
  }

  /** The channel of some recipient, as the loops look it up. */
  predicate IsLookedUp(platform: Platform, d: Directory, reviewers: seq<string>, configured: seq<string>, channel: string) {
    && channel != ""
    && (|| (exists i :: 0 <= i < |reviewers| && ReviewerChannel(d, i, reviewers[i]) == channel)
        || exists i :: 0 <= i < |configured| && ConfiguredChannel(platform, d, |reviewers| + i, configured[i]) == channel)
  }

  lemma LookedUpIsRecipient(platform: Platform, d: Directory, reviewers: seq<string>, configured: seq<string>,
                            channel: string)
    ensures IsLookedUp(platform, d, reviewers, configured, channel)
       <==> IsRecipient(platform, d, reviewers, configured, channel)
  {
    if channel != "" {
      forall i | 0 <= i < |reviewers|
        ensures ReviewerChannel(d, i, reviewers[i]) == channel <==> ByEmail(d, i, reviewers[i], channel) {
      }
      forall i | 0 <= i < |configured|
        ensures ConfiguredChannel(platform, d, |reviewers| + i, configured[i]) == channel
           <==> || ByEmail(d, |reviewers| + i, configured[i], channel)
                || ByItself(platform, d, configured[i], channel)
                || ByTeam(platform, d, |reviewers| + i, configured[i], channel)
      {
        ConfiguredFor(platform, d, |reviewers| + i, configured[i], channel);
      }
    }
  }

  predicate Distinct<T(==)>(s: seq<T>) {
    forall i, j :: 0 <= i < j < |s| ==> s[i] != s[j]
  }

  /** Every channel that some recipient stands for, once. */
  method GetRecipients(platform: Platform, d: Directory, reviewers: seq<string>, configured: seq<string>)
    returns (channels: seq<string>)
    ensures Distinct(channels)
    ensures forall c :: c in channels <==> IsRecipient(platform, d, reviewers, configured, c)
  {
    var channelSet: set<string> := {};
    for i := 0 to |reviewers|
      invariant forall c :: c in channelSet <==>
        c != "" && exists k :: 0 <= k < i && ReviewerChannel(d, k, reviewers[k]) == c
    {
      var channel := ReviewerChannel(d, i, reviewers[i]);
      if channel != "" { channelSet := channelSet + {channel}; }
    }
    ghost var direct := channelSet;
    for i := 0 to |configured|
      invariant forall c :: c in channelSet <==>
        c in direct
        || (c != "" && exists k :: 0 <= k < i && ConfiguredChannel(platform, d, |reviewers| + k, configured[k]) == c)
    {
      var channel := ConfiguredChannel(platform, d, |reviewers| + i, configured[i]);
      if channel != "" { channelSet := channelSet + {channel}; }
    }
    forall c ensures c in channelSet <==> IsRecipient(platform, d, reviewers, configured, c) {
      assert c in channelSet <==> IsLookedUp(platform, d, reviewers, configured, c);
      LookedUpIsRecipient(platform, d, reviewers, configured, c);
    }
    channels := Enumerate(channelSet);
  }

  /** The elements of a set, in no particular order. */
  method Enumerate(elements: set<string>) returns (s: seq<string>)
    ensures Distinct(s) && forall x :: x in s <==> x in elements
  {
    s := [];
    var rest := elements;
    while rest != {}
      invariant rest <= elements && Distinct(s)
      invariant forall x :: x in s <==> x in elements && x !in rest
      decreases |rest|
    {
      var x :| x in rest;
      s, rest := s + [x], rest - {x};
    }
  }

  // ---- Posting ----

  /** What is remembered of a posted message: Slack's own name of the channel, Mattermost's channel as it
      was given. */
  function Remembered(platform: Platform, channel: string, reply: PostReply): Message
    requires reply.Posted?
  {
    Message(if platform.Slack? then reply.channelID else channel, reply.messageID)
  }

  /** The messages that were posted, in the order of the attempts. */
  function Successes(platform: Platform, channels: seq<string>, replies: nat -> PostReply): seq<Message> {
    if channels == [] then []
    else
      var n := |channels| - 1;
      Successes(platform, channels[..n], replies)
      + if replies(n).Posted? then [Remembered(platform, channels[n], replies(n))] else []
  }

  /** Nothing is remembered exactly when every attempt was refused. */
  lemma {:induction false} NoSuccess(platform: Platform, channels: seq<string>, replies: nat -> PostReply)
    ensures Successes(platform, channels, replies) == [] <==> forall i :: 0 <= i < |channels| ==> replies(i).Refused?
    decreases |channels|
  {
    if channels != [] { NoSuccess(platform, channels[..|channels| - 1], replies); }
  }

  /** Every posted message is remembered at its place, under the message ID of its reply and under the channel
      that the reply names (Slack) or that was asked for (Mattermost). */
  lemma {:induction false} PostedIsRemembered(platform: Platform, channels: seq<string>, replies: nat -> PostReply, i: nat)
    requires i < |channels| && replies(i).Posted?
    ensures var messages, k := Successes(platform, channels, replies), |Successes(platform, channels[..i], replies)|;
            k < |messages| && messages[k].messageID == replies(i).messageID
            && messages[k].channelID == match platform case Slack => replies(i).channelID case Mattermost => channels[i]
    decreases |channels|
  {
    var n := |channels| - 1;
    if i < n {
      PostedIsRemembered(platform, channels[..n], replies, i);
      assert channels[..n][..i] == channels[..i];
    }
  }

  /** Nothing else is remembered. */
  lemma {:induction false} RememberedCount(platform: Platform, channels: seq<string>, replies: nat -> PostReply)
    ensures |Successes(platform, channels, replies)| == |set i | 0 <= i < |channels| && replies(i).Posted?|
    decreases |channels|
  {
    if channels != [] {
      var n := |channels| - 1;
      RememberedCount(platform, channels[..n], replies);
      var before, now := set i | 0 <= i < n && replies(i).Posted?, set i | 0 <= i < |channels| && replies(i).Posted?;
      assert now == before + if replies(n).Posted? then {n} else {};
    }
  }

  datatype Failure = NothingPosted | NotSaved | NotFetched | NotUpdated

  datatype Fetch = Fetched | NotFound | FetchFailed

  class App {
    const platform: Platform
    const configured: seq<string>

    /** Every attempt so far to post to a channel, and to update a message. */
    var posts: seq<string>
    var updates: seq<Message>

    /** The plugin data of every request, as the auth server has it. */
    var store: map<string, DataMap>

    constructor (platform: Platform, configured: seq<string>, store: map<string, DataMap>)
      ensures this.platform == platform && this.configured == configured && this.store == store
      ensures posts == [] && updates == []
    {
      this.platform, this.configured, this.store := platform, configured, store;
      posts, updates := [], [];
    }

    /** One attempt for every channel, in order, whatever becomes of the others. */
    method Broadcast(channels: seq<string>, replies: nat -> PostReply) returns (messages: seq<Message>, failed: bool)
      modifies this`posts
      ensures posts == old(posts) + channels
      ensures messages == Successes(platform, channels, replies)
      ensures failed <==> exists i :: 0 <= i < |channels| && replies(i).Refused?
    {
      messages, failed := [], false;
      for i := 0 to |channels|
        invariant posts == old(posts) + channels[..i]
        invariant messages == Successes(platform, channels[..i], replies)
        invariant failed <==> exists k :: 0 <= k < i && replies(k).Refused?
      {
        posts := posts + [channels[i]];
        assert channels[..i + 1][..i] == channels[..i];
        if replies(i).Refused? {
          failed := true;
        } else {
          messages := messages + [Remembered(platform, channels[i], replies(i))];
        }
      }
      assert channels[..|channels|] == channels;
    }

    /** One attempt for every message, in order, whatever becomes of the others. */
    method UpdateMessages(messages: seq<Message>, succeeds: nat -> bool) returns (failed: bool)
      modifies this`updates
      ensures updates == old(updates) + messages
      ensures failed <==> exists i :: 0 <= i < |messages| && !succeeds(i)
    {
      failed := false;
      for i := 0 to |messages|
        invariant updates == old(updates) + messages[..i]
        invariant failed <==> exists k :: 0 <= k < i && !succeeds(k)
      {
        updates := updates + [messages[i]];
        if !succeeds(i) { failed := true; }
      }
      assert messages[..|messages|] == messages;
    }

    function StoredData(request: string): DataMap
      reads this
    {
      if request in store then store[request] else map[]
    }

    /** Post to every recipient once, then keep what was posted, unless nothing was. */
    method OnPendingRequest(request: string, user: string, roles: seq<string>, reason: string, reviewers: seq<string>,
                            d: Directory, replies: nat -> PostReply, saves: bool)
      returns (channels: seq<string>, messages: seq<Message>, result: Result<bool, Failure>)
      modifies this
      ensures Distinct(channels) && forall c :: c in channels <==> IsRecipient(platform, d, reviewers, configured, c)
      ensures posts == old(posts) + channels && updates == old(updates)
      ensures messages == Successes(platform, channels, replies)
      ensures messages == [] ==> store == old(store)
      ensures result == Ok(true) <==> messages != [] && saves
      ensures result == Ok(false) <==> channels == []
      ensures store == if result == Ok(true)
                       then old(store)[request := old(StoredData(request)) + Encoded(Data(user, roles, reason, messages))]
                       else old(store)
    {
      channels := GetRecipients(platform, d, reviewers, configured);
      if channels == [] { return channels, [], Ok(false); }
      var failed;
      messages, failed := Broadcast(channels, replies);
      NoSuccess(platform, channels, replies);
      if messages == [] { assert replies(0).Refused?; }
      if messages == [] && failed { return channels, messages, Err(NothingPosted); }
      if !saves { return channels, messages, Err(NotSaved); }
      var dataMap := EncodePluginData(Data(user, roles, reason, messages));
      store := store[request := StoredData(request) + dataMap];
      result := Ok(true);
    }

    /** What a resolution or an expiry of the request does. */
    method UpdateAll(request: string, fetch: Fetch, succeeds: nat -> bool) returns (result: Result<bool, Failure>)
      modifies this`updates
      ensures updates == old(updates)
                         + if fetch.Fetched? then Decoded(StoredData(request), LegacyKey(platform)).messages else []
      ensures result.Err? <==> fetch.FetchFailed? || exists i :: 0 <= i < |updates| - |old(updates)| && !succeeds(i)
    {
      if fetch.NotFound? { return Ok(false); }
      if fetch.FetchFailed? { return Err(NotFetched); }
      var data := DecodePluginData(StoredData(request), LegacyKey(platform));
      if data.messages == [] { return Ok(false); }
      var failed := UpdateMessages(data.messages, succeeds);
      result := if failed then Err(NotUpdated) else Ok(true);
    }
  }

  // ---- From posts to updates ----

  lemma SecondKeys(platform: Platform)
    ensures LegacyKey(platform) == match platform case Mattermost => "postID" case Slack => "timestamp"
  {
  }

  /** The older form of a single message: the channel and the message under a key each, which is "postID" in
      Mattermost and "timestamp" in Slack. Such a message is updated too. */
  lemma OlderForm(stored: DataMap, platform: Platform, m: Message)
    ensures Legacy(stored, LegacyKey(platform)) == [m]
       <==> && "channel_id" in stored && stored["channel_id"] == m.channelID != ""
            && match platform
               case Mattermost => "postID" in stored && stored["postID"] == m.messageID != ""
               case Slack => "timestamp" in stored && stored["timestamp"] == m.messageID != ""
  {
    SecondKeys(platform);
  }

  lemma MergedKeys(stored: DataMap, data: Data, key: string)
    ensures Get(stored + Encoded(data), key) == if key in Encoded(data) then Encoded(data)[key] else Get(stored, key)
  {
  }

  lemma SamePrefix(a: seq<Message>, b: seq<Message>, c: seq<Message>)
    ensures a + b == a + c <==> b == c
  {
    if a + b == a + c {
      assert b == (a + b)[|a|..] && c == (a + c)[|a|..];
    }
  }

  lemma LegacyStays(stored: DataMap, data: Data, platform: Platform)
    ensures Legacy(stored + Encoded(data), LegacyKey(platform)) == Legacy(stored, LegacyKey(platform))
  {
    SecondKeys(platform);
    MergedKeys(stored, data, "channel_id");
    MergedKeys(stored, data, LegacyKey(platform));
  }

  lemma MergedDecodes(stored: DataMap, data: Data, platform: Platform)
    ensures Decoded(stored + Encoded(data), LegacyKey(platform)).messages
         == Legacy(stored, LegacyKey(platform)) + DecodedMessages(Text.Split(Text.Join(EncodedMessages(data.messages), ','), ','))
  {
    LegacyStays(stored, data, platform);
    MergedKeys(stored, data, "messages");
  }

  /** Once a broadcast was saved, each later resolution or expiry finds the message of the older form, if the
      request still has one, and then exactly the messages posted, in order, if and only if no ID of those has
      a comma or a slash. */
  lemma EveryPostIsUpdated(stored: DataMap, data: Data, platform: Platform)
    ensures Decoded(stored + Encoded(data), LegacyKey(platform)).messages == Legacy(stored, LegacyKey(platform)) + data.messages
       <==> MessagesFree(data.messages)
  {
    MergedDecodes(stored, data, platform);
    MessagesDecodeEncode(data.messages);
    SamePrefix(Legacy(stored, LegacyKey(platform)),
               DecodedMessages(Text.Split(Text.Join(EncodedMessages(data.messages), ','), ',')), data.messages);
  }

  lemma PrefixCancels(before: seq<Message>, found: seq<Message>, legacy: seq<Message>, messages: seq<Message>)
    ensures before + found == before + legacy + messages <==> found == legacy + messages
  {
    assert before + legacy + messages == before + (legacy + messages);
    SamePrefix(before, found, legacy + messages);
  }

  lemma UpdatesArePosts(before: seq<Message>, stored: DataMap, data: Data, platform: Platform)
    ensures (before + Decoded(stored + Encoded(data), LegacyKey(platform)).messages
             == before + Legacy(stored, LegacyKey(platform)) + data.messages) <==> MessagesFree(data.messages)
  {
    EveryPostIsUpdated(stored, data, platform);
    PrefixCancels(before, Decoded(stored + Encoded(data), LegacyKey(platform)).messages,
                  Legacy(stored, LegacyKey(platform)), data.messages);
  }

  /** Conservation over the life of a request: a broadcast that was saved, and then an update. One message is
      posted per recipient at most, and exactly the posted ones are attempted to update, in order and whatever
      fails, after the message of the older form if there is one. */
  method BroadcastThenUpdate(app: App, request: string, user: string, roles: seq<string>, reason: string,
                             reviewers: seq<string>, d: Directory, replies: nat -> PostReply, succeeds: nat -> bool)
    returns (channels: seq<string>, messages: seq<Message>)
    modifies app
    ensures Distinct(channels) && forall c :: c in channels <==> IsRecipient(app.platform, d, reviewers, app.configured, c)
    ensures app.posts == old(app.posts) + channels && messages == Successes(app.platform, channels, replies)
    ensures messages != [] ==>
              (app.updates == old(app.updates) + Legacy(old(app.StoredData(request)), LegacyKey(app.platform)) + messages
               <==> MessagesFree(messages))
  {
    ghost var stored, before := app.StoredData(request), app.updates;
    var posted;
    channels, messages, posted := app.OnPendingRequest(request, user, roles, reason, reviewers, d, replies, true);
    ghost var data := Data(user, roles, reason, messages);
    assert messages != [] ==> app.StoredData(request) == stored + Encoded(data);
    UpdatesArePosts(before, stored, data, app.platform);
    var _ := app.UpdateAll(request, Fetched, succeeds);
  }
}
