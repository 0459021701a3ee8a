/** The plugin data of the messenger plugins: what was posted, kept as delimited text in the request's
    plugin data map. Mattermost (access/mattermost/types.go) and Slack (access/slack/types.go) differ only
    in the second key of the older single-message form. */
module PluginData {
  import opened Text

  /** A message, by its channel and its ID there (a Mattermost post ID or a Slack timestamp). */
  datatype Message = Message(channelID: string, messageID: string)

  datatype Data = Data(user: string, roles: seq<string>, reason: string, messages: seq<Message>)

  type DataMap = map<string, string>

  const MATTERMOST_LEGACY_KEY := "postID"
  const SLACK_LEGACY_KEY := "timestamp"

  /** A map as Go reads it: the empty string for a missing entry. */
  function Get(dataMap: DataMap, key: string): string {
    if key in dataMap then dataMap[key] else ""
  }

  // ---- Encoding ----

  function EncodedMessage(m: Message): string {
    m.channelID + "/" + m.messageID
  }

  function EncodedMessages(messages: seq<Message>): (parts: seq<string>)
    ensures |parts| == |messages|
    ensures forall i :: 0 <= i < |messages| ==> parts[i] == messages[i].channelID + "/" + messages[i].messageID
  {
    seq(|messages|, i requires 0 <= i < |messages| => EncodedMessage(messages[i]))
  }

  function Encoded(data: Data): DataMap {
    map["user" := data.user, "roles" := Join(data.roles, ','), "request_reason" := data.reason,
        "messages" := Join(EncodedMessages(data.messages), ',')]
  }

  method EncodePluginData(data: Data) returns (dataMap: DataMap)
    ensures dataMap == Encoded(data)
    ensures dataMap.Keys == {"user", "roles", "request_reason", "messages"}
    ensures dataMap["user"] == data.user && dataMap["request_reason"] == data.reason
    ensures dataMap["roles"] == Join(data.roles, ',')
    ensures dataMap["messages"] == Join(EncodedMessages(data.messages), ',')
  {
    var encodedMessages := [];
    for i := 0 to |data.messages|
      invariant encodedMessages == EncodedMessages(data.messages[..i])
    {
      encodedMessages := encodedMessages + [EncodedMessage(data.messages[i])];
    }
    assert data.messages[..|data.messages|] == data.messages;
    dataMap := map["user" := data.user, "roles" := Join(data.roles, ','), "request_reason" := data.reason,
                   "messages" := Join(encodedMessages, ',')];
  }

  // ---- Decoding ----

  /** Texts that do not have exactly one slash are dropped. */
  function DecodedMessage(text: string): seq<Message> {
    var parts := Split(text, '/');
    if |parts| == 2 then [Message(parts[0], parts[1])] else []
  }

  function DecodedMessages(texts: seq<string>): seq<Message> {
    if texts == [] then [] else DecodedMessages(texts[..|texts| - 1]) + DecodedMessage(texts[|texts| - 1])
  }

  /** The message of the older form, if both of its keys are there. */
  function Legacy(dataMap: DataMap, legacyKey: string): seq<Message> {
    if Get(dataMap, "channel_id") != "" && Get(dataMap, legacyKey) != ""
    then [Message(Get(dataMap, "channel_id"), Get(dataMap, legacyKey))]
    else []
  }

  function Decoded(dataMap: DataMap, legacyKey: string): Data {
    Data(Get(dataMap, "user"), Split(Get(dataMap, "roles"), ','), Get(dataMap, "request_reason"),
         Legacy(dataMap, legacyKey) + DecodedMessages(Split(Get(dataMap, "messages"), ',')))
  }

  /** A text is decoded to a message exactly if it is the channel, a slash and the message ID, with no other
      slash. */
  lemma DecodedMessageIs(text: string, m: Message)
    ensures DecodedMessage(text) == [m]
       <==> text == m.channelID + "/" + m.messageID && '/' !in m.channelID && '/' !in m.messageID
  {
    SplitPair(text, m.channelID, m.messageID, '/');
    assert m.channelID + "/" + m.messageID == m.channelID + ['/'] + m.messageID;
  }

  lemma DecodeNext(texts: seq<string>, i: nat)
    requires i < |texts|
    ensures DecodedMessages(texts[..i + 1]) == DecodedMessages(texts[..i]) + DecodedMessage(texts[i])
  {
    assert texts[..i + 1][..i] == texts[..i];
  }

  /** The loop over the encoded messages, which appends to those found so far. */
  method DecodeTexts(texts: seq<string>, found: seq<Message>) returns (messages: seq<Message>)
    ensures messages == found + DecodedMessages(texts)
  {
    messages := found;
    for i := 0 to |texts|
      invariant messages == found + DecodedMessages(texts[..i])
    {
      DecodeNext(texts, i);
      var parts := Split(texts[i], '/');
      if |parts| == 2 {
        messages := messages + [Message(parts[0], parts[1])];
      }
    }
    assert texts[..|texts|] == texts;
  }

  method DecodePluginData(dataMap: DataMap, legacyKey: string) returns (data: Data)
    ensures data == Decoded(dataMap, legacyKey)
  {
    var messages: seq<Message> := [];
    var channelID, messageID := Get(dataMap, "channel_id"), Get(dataMap, legacyKey);
    if channelID != "" && messageID != "" {
      messages := messages + [Message(channelID, messageID)];
    }
    messages := DecodeTexts(Split(Get(dataMap, "messages"), ','), messages);
    data := Data(Get(dataMap, "user"), Split(Get(dataMap, "roles"), ','), Get(dataMap, "request_reason"), messages);
  }

  /** What is decoded: the fields under their keys, and the message of the older form before the others. */
  lemma DecodedFields(dataMap: DataMap, legacyKey: string)
    ensures var data := Decoded(dataMap, legacyKey);
      && data.user == (if "user" in dataMap then dataMap["user"] else "")
      && data.reason == (if "request_reason" in dataMap then dataMap["request_reason"] else "")
      && AllFree(data.roles, ',') && Join(data.roles, ',') == if "roles" in dataMap then dataMap["roles"] else ""
  {
    SplitFree(Get(dataMap, "roles"), ',', ',');
    JoinSplit(Get(dataMap, "roles"), ',');
  }

  lemma DecodedInOrder(dataMap: DataMap, legacyKey: string)
    ensures Decoded(dataMap, legacyKey).messages
         == Legacy(dataMap, legacyKey)
            + if "messages" in dataMap then DecodedMessages(Split(dataMap["messages"], ',')) else []
  {
    assert DecodedMessages([""]) == DecodedMessages([]) + DecodedMessage("");
  }

  // ---- Round trips ----

  predicate DelimiterFree(s: string) {
    ',' !in s && '/' !in s
  }

  predicate MessagesFree(messages: seq<Message>) {
    forall i :: 0 <= i < |messages| ==> DelimiterFree(messages[i].channelID) && DelimiterFree(messages[i].messageID)
  }

  lemma EncodedMessageRoundTrip(m: Message)
    requires DelimiterFree(m.channelID) && DelimiterFree(m.messageID)
    ensures ',' !in EncodedMessage(m) && DecodedMessage(EncodedMessage(m)) == [m]
  {
    DecodedMessageIs(EncodedMessage(m), m);
  }

  lemma {:induction false} MessagesRoundTrip(messages: seq<Message>)
    requires MessagesFree(messages)
    ensures AllFree(EncodedMessages(messages), ',')
    ensures DecodedMessages(EncodedMessages(messages)) == messages
    decreases |messages|
  {
    if messages != [] {
      var front, last := messages[..|messages| - 1], messages[|messages| - 1];
      MessagesRoundTrip(front);
      EncodedMessageRoundTrip(last);
      assert EncodedMessages(messages) == EncodedMessages(front) + [EncodedMessage(last)];
      assert EncodedMessages(messages)[..|messages| - 1] == EncodedMessages(front);
    }
  }

  /** Whatever is decoded from texts without commas has no delimiters. */
  lemma {:induction false} DecodedMessagesFree(texts: seq<string>)
    requires AllFree(texts, ',')
    ensures MessagesFree(DecodedMessages(texts))
    decreases |texts|
  {
    if texts != [] {
      DecodedMessagesFree(texts[..|texts| - 1]);
      SplitFree(texts[|texts| - 1], '/', '/');
      SplitFree(texts[|texts| - 1], '/', ',');
    }
  }

  lemma EncodedMessagesDecode(messages: seq<Message>)
    requires MessagesFree(messages)
    ensures DecodedMessages(Split(Join(EncodedMessages(messages), ','), ',')) == messages
  {
    MessagesRoundTrip(messages);
    if messages == [] {
      assert EncodedMessages(messages) == [];
      assert Split("", ',') == [""] && DecodedMessages([""]) == DecodedMessages([]) + DecodedMessage("");
    } else {
      SplitJoin(EncodedMessages(messages), ',');
    }
  }

  lemma MessagesDecodeEncode(messages: seq<Message>)
    ensures DecodedMessages(Split(Join(EncodedMessages(messages), ','), ',')) == messages <==> MessagesFree(messages)
  {
    if MessagesFree(messages) { EncodedMessagesDecode(messages); }
    var text := Join(EncodedMessages(messages), ',');
    SplitFree(text, ',', ',');
    DecodedMessagesFree(Split(text, ','));
  }

  lemma DecodedEncoded(data: Data, legacyKey: string)
    requires legacyKey !in {"user", "roles", "request_reason", "messages"}
    ensures Decoded(Encoded(data), legacyKey)
         == Data(data.user, Split(Join(data.roles, ','), ','), data.reason,
                 DecodedMessages(Split(Join(EncodedMessages(data.messages), ','), ',')))
  {
    var dataMap := Encoded(data);
    assert "channel_id" !in dataMap;
    assert Legacy(dataMap, legacyKey) == [];
    assert Get(dataMap, "roles") == Join(data.roles, ',');
    assert Get(dataMap, "messages") == Join(EncodedMessages(data.messages), ',');
  }

  /** Decoding what was encoded gives the data back exactly when there are roles, no role has a comma, and
      no ID has a comma or a slash. */
  lemma DecodeEncode(data: Data, legacyKey: string)
    requires legacyKey !in {"user", "roles", "request_reason", "messages"}
    ensures Decoded(Encoded(data), legacyKey) == data
       <==> data.roles != [] && AllFree(data.roles, ',') && MessagesFree(data.messages)
  {
    DecodedEncoded(data, legacyKey);
    SplitJoin(data.roles, ',');
    MessagesDecodeEncode(data.messages);
  }

  lemma MessagesFreeConcat(a: seq<Message>, b: seq<Message>)
    ensures MessagesFree(a + b) <==> MessagesFree(a) && MessagesFree(b)
  {
    assert forall i :: 0 <= i < |a| ==> (a + b)[i] == a[i];
    assert forall i :: 0 <= i < |b| ==> (a + b)[|a| + i] == b[i];
  }

  /** Data that was read from any map at all survives being written and read again, unless the map still
      has a message of the older form with a delimiter in one of its IDs. */
  lemma DecodeEncodeDecode(dataMap: DataMap, legacyKey: string)
    requires legacyKey !in {"user", "roles", "request_reason", "messages"}
    ensures Decoded(Encoded(Decoded(dataMap, legacyKey)), legacyKey) == Decoded(dataMap, legacyKey)
       <==> MessagesFree(Legacy(dataMap, legacyKey))
  {
    var texts := Split(Get(dataMap, "messages"), ',');
    DecodeEncode(Decoded(dataMap, legacyKey), legacyKey);
    SplitFree(Get(dataMap, "roles"), ',', ',');
    SplitFree(Get(dataMap, "messages"), ',', ',');
    DecodedMessagesFree(texts);
    MessagesFreeConcat(Legacy(dataMap, legacyKey), DecodedMessages(texts));
  }
}
