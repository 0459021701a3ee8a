/** The Mattermost bot with its ETag cache (access/mattermost/bot.go): the hooks as methods on shared cells,
    each of them one action of the machine, and the lookups as they run when no other request of the same key
    gets in between. See sections 2.3, 3.2 and 4.1 of RFC 7232. */
module EtagCache {
  import opened Common
  import opened EtagMachine
  import opened EtagOverlap

  datatype Error = RequestFailed | WrongType

  /** A GET without the cache. */
  function PlainGet(resource: Resource, mode: Mode): Result<Value, Error> {
    if mode.Broken? then Err(RequestFailed) else Ok(resource.value)
  }

  // ---- One request from beginning to end ----

  /** A request that no other one interrupts. */
  function Trip<C>(s: State<C>, key: Key, cell: C, resource: Resource, mode: Mode): State<C>
    requires Wf(s) && cell !in s.cells
  {
    var r := |s.flights|;
    BeginWf(s, key, cell);
    var s2 := AnswerStep(BeginStep(s, key, cell), r, resource, mode);
    assert FlightOk(BeginStep(s, key, cell), BeginStep(s, key, cell).flights[r]);
    if s2.flights[r].stage.Failed? then s2
    else ReadStep(StoreStep(if s2.flights[r].stage.Received? then DecodeStep(s2, r) else s2, r), r)
  }

  predicate IsNotModified<C>(s: State<C>, key: Key, resource: Resource, mode: Mode) {
    mode.Conditional? && key in s.cache && s.cache[key].etag == resource.etag
  }

  /** What a request does to the cell and the entry of its key, and to nothing else. */
  lemma TripEffect<C>(s: State<C>, key: Key, cell: C, resource: Resource, mode: Mode)
    requires Wf(s) && cell !in s.cells && !mode.Broken?
    ensures var s' := Trip(s, key, cell, resource, mode); var r := |s.flights|;
      var used := if key in s.cache then s.cache[key].cell else cell;
      && |s'.flights| == r + 1 && s'.flights[..r] == s.flights && used in s'.cells
      && s'.flights[r].stage.Answered? && s'.flights[r].answer == Some(s'.cells[used].value) && s'.flights[r].key == key
      && s'.cells[used].value == (if IsNotModified(s, key, resource, mode) && used in s.cells then s.cells[used].value
                                  else resource.value)
      && s'.cache == (if resource.etag == "" then s.cache else s.cache[key := Entry(resource.etag, used)])
      && forall c <- s.cells :: c in s'.cells && (c != used ==> s'.cells[c] == s.cells[c])
  {
    if key in s.cache { assert EntryOk(s, key); }
  }

  lemma BrokenTrip<C>(s: State<C>, key: Key, cell: C, resource: Resource)
    requires Wf(s) && cell !in s.cells
    ensures var s' := Trip(s, key, cell, resource, Broken);
      && s'.cache == s.cache && s'.cells == s.cells[cell := Slot(key, Empty(KindOfKey(key)))]
      && |s'.flights| == |s.flights| + 1 && s'.flights[..|s.flights|] == s.flights && s'.flights[|s.flights|].stage.Failed?
  {
  }

  function CachedValue<C>(s: State<C>, key: Key): Option<Value> {
    if key in s.cache && s.cache[key].cell in s.cells then Some(s.cells[s.cache[key].cell].value) else None
  }

  ghost predicate AllCoherent<C>(s: State<C>, body: (Key, string) -> Value) {
    forall k <- s.cache :: Coherent(s, k, body)
  }

  /** From a coherent cache, a request that no other one interrupts returns what a plain GET would. The cache
      stays coherent exactly unless a changed value of a cached key arrives without an ETag. */
  lemma TripIsTransparent<C>(s: State<C>, key: Key, cell: C, resource: Resource, mode: Mode, body: (Key, string) -> Value)
    requires Wf(s) && AllCoherent(s, body) && cell !in s.cells && Fits(key, resource, body)
    ensures var s' := Trip(s, key, cell, resource, mode); var r := |s.flights|;
      && |s'.flights| == r + 1
      && (if mode.Broken? then s'.flights[r].stage.Failed? else s'.flights[r].answer == Some(resource.value))
    ensures AllCoherent(Trip(s, key, cell, resource, mode), body) <==>
              mode.Broken? || resource.etag != "" || key !in s.cache || CachedValue(s, key) == Some(resource.value)
  {
    var s' := Trip(s, key, cell, resource, mode);
    if mode.Broken? {
      BrokenTrip(s, key, cell, resource);
      forall k <- s'.cache ensures Coherent(s', k, body) { assert Coherent(s, k, body); }
    } else {
      TripEffect(s, key, cell, resource, mode);
      forall k <- s'.cache | k != key ensures Coherent(s', k, body) {
        assert Coherent(s, k, body) && EntryOk(s, k);
        if key in s.cache { assert EntryOk(s, key); }
      }
      if key in s.cache { assert Coherent(s, key, body) && EntryOk(s, key); }
    }
  }

  // ---- The client ----

  class Cell {
    ghost const key: Key
    const kind: Kind
    var value: Value

    constructor (kind: Kind, ghost key: Key)
      ensures this.kind == kind && this.key == key && value == Empty(kind)
    {
      this.kind, this.key, value := kind, key, Empty(kind);
    }
  }

  class Client {
    var cache: map<Key, Entry<Cell>>
    var flights: seq<Flight<Cell>>

    /** Every cell that was allocated for a request. */
    ghost var cells: set<Cell>

    ghost function Snapshot(): State<Cell>
      reads this, cells
    {
      State(map c | c in cells :: Slot(c.key, c.value), cache, flights)
    }

    ghost predicate Valid()
      reads this, cells
    {
      Wf(Snapshot()) && forall c <- cells :: c.kind == KindOfKey(c.key)
    }

    constructor ()
      ensures Valid() && cells == {} && Snapshot() == State(map[], map[], [])
    {
      cache, flights, cells := map[], [], {};
    }

    /** The caller's allocation of its result, and the before hook. */
    method BeforeRequest(key: Key) returns (r: nat, ghost cell: Cell)
      requires Valid()
      modifies this
      ensures Valid() && fresh(cell) && cells == old(cells) + {cell} && r == |old(flights)|
      ensures Snapshot() == BeginStep(old(Snapshot()), key, cell)
    {
      var target := new Cell(KindOfKey(key), key);
      cell := target;
      r := |flights|;
      var ifNoneMatch: Option<string> := None;
      var result := target;
      if key in cache { ifNoneMatch, result := Some(cache[key].etag), cache[key].cell; }
      flights := flights + [Flight(key, result, ifNoneMatch, Begun, Resource("", Empty(KindOfKey(key))), None)];
      cells := cells + {cell};
      assert Snapshot() == BeginStep(old(Snapshot()), key, cell);
      BeginWf(old(Snapshot()), key, cell);
    }

    /** The server's answer to request r arrives. */
    method Respond(r: nat, resource: Resource, mode: Mode)
      requires Valid() && Enabled(Snapshot(), Answer(r, resource, mode))
      modifies this`flights
      ensures Valid() && Snapshot() == AnswerStep(old(Snapshot()), r, resource, mode)
    {
      StepWf(Snapshot(), Answer(r, resource, mode));
      var f := flights[r];
      flights := flights[r := f.(stage := AfterAnswer(f.condition, resource, mode), reply := resource)];
    }

    /** The body of a reply of status 200 is decoded into the cell of the request, and sets every field. */
    method DecodeBody(r: nat)
      requires Valid() && Enabled(Snapshot(), Decode(r))
      modifies this`flights, flights[r].cell`value
      ensures Valid() && Snapshot() == DecodeStep(old(Snapshot()), r)
    {
      StepWf(Snapshot(), Decode(r));
      var f := flights[r];
      assert FlightOk(Snapshot(), f);
      f.cell.value := f.reply.value;
      flights := flights[r := f.(stage := Decoded)];
      assert Snapshot().cells == DecodeStep(old(Snapshot()), r).cells;
    }

    /** The after hook. */
    method AfterResponse(r: nat)
      requires Valid() && Enabled(Snapshot(), Store(r))
      modifies this`cache, this`flights
      ensures Valid() && Snapshot() == StoreStep(old(Snapshot()), r)
    {
      StepWf(Snapshot(), Store(r));
      var f := flights[r];
      if f.reply.etag != "" { cache := cache[f.key := Entry(f.reply.etag, f.cell)]; }
      flights := flights[r := f.(stage := Kept)];
    }

    /** userResult and channelResult: a copy of the cell, if it has the type the caller asked for. */
    method ReadResult(r: nat) returns (result: Result<Value, Error>)
      requires Valid() && Enabled(Snapshot(), Read(r))
      modifies this`flights
      ensures Valid() && Snapshot() == ReadStep(old(Snapshot()), r)
      ensures result == Ok(flights[r].answer.value)
    {
      StepWf(Snapshot(), Read(r));
      var f := flights[r];
      assert FlightOk(Snapshot(), f);
      flights := flights[r := f.(stage := Answered, answer := Some(f.cell.value))];
      if f.cell.kind != KindOfKey(f.key) { return Err(WrongType); }
      result := Ok(f.cell.value);
    }

    /** Entries may vanish at any time. */
    method Evict(keys: set<Key>)
      requires Valid()
      modifies this`cache
      ensures Valid() && Snapshot() == old(Snapshot()).(cache := old(cache) - keys)
    {
      StepWf(Snapshot(), Drop(keys));
      cache := cache - keys;
    }

    /** One GET that no other request interrupts. */
    method Get(key: Key, resource: Resource, mode: Mode) returns (result: Result<Value, Error>, ghost cell: Cell)
      requires Valid()
      modifies this, cells
      ensures Valid() && fresh(cell) && cells == old(cells) + {cell}
      ensures Snapshot() == Trip(old(Snapshot()), key, cell, resource, mode)
      ensures |flights| == |old(flights)| + 1
      ensures result == if mode.Broken? then Err(RequestFailed) else Ok(flights[|old(flights)|].answer.value)
    {
      var r;
      r, cell := BeforeRequest(key);
      Respond(r, resource, mode);
      if mode.Broken? { return Err(RequestFailed), cell; }
      if flights[r].stage.Received? { DecodeBody(r); }
      AfterResponse(r);
      result := ReadResult(r);
    }
  }

  // ---- The lookups ----

  /** A cached lookup that is not interrupted. */
  method TransparentGet(bot: Client, key: Key, resource: Resource, mode: Mode, ghost body: (Key, string) -> Value)
    returns (result: Result<Value, Error>)
    requires bot.Valid() && AllCoherent(bot.Snapshot(), body) && Fits(key, resource, body)
    modifies bot, bot.cells
    ensures bot.Valid() && fresh(bot.cells - old(bot.cells)) && result == PlainGet(resource, mode)
    ensures AllCoherent(bot.Snapshot(), body) <==>
              mode.Broken? || resource.etag != "" || key !in old(bot.cache)
              || CachedValue(old(bot.Snapshot()), key) == Some(resource.value)
    ensures forall k <- bot.cache :: k in old(bot.cache) || (k == key && resource.etag != "")
  {
    ghost var s := bot.Snapshot();
    ghost var cell;
    result, cell := bot.Get(key, resource, mode);
    TripIsTransparent(s, key, cell, resource, mode, body);
    if mode.Broken? { BrokenTrip(s, key, cell, resource); } else { TripEffect(s, key, cell, resource, mode); }
  }

  /** LookupChannel: the ID of the channel that the server has under the name at this moment. */
  method LookupChannel(bot: Client, team: string, name: string, resource: Resource, mode: Mode,
                       ghost body: (Key, string) -> Value)
    returns (channel: Result<string, Error>)
    requires bot.Valid() && AllCoherent(bot.Snapshot(), body) && Fits(ChannelByName(team, name), resource, body)
    modifies bot, bot.cells
    ensures mode.Broken? ==> channel == Err(RequestFailed)
    ensures !mode.Broken? ==> channel == Ok(resource.value.id)
  {
    var result := TransparentGet(bot, ChannelByName(team, name), resource, mode, body);
    if result.Err? { return Err(result.error); }
    channel := Ok(result.value.id);
  }

  /** LookupDirectChannel: two cached lookups and one request that is not cached, which names the bot first
      and then the user; None is its failure. A user without an ETag is one that is not in the cache. */
  method LookupDirectChannel(bot: Client, email: string, user: Resource, userMode: Mode, me: Resource, meMode: Mode,
                             direct: (string, string) -> Option<string>, ghost body: (Key, string) -> Value)
    returns (channel: Result<string, Error>)
    requires bot.Valid() && AllCoherent(bot.Snapshot(), body) && Fits(UserByEmail(email), user, body) && Fits(Me, me, body)
    requires user.etag == "" ==> UserByEmail(email) !in bot.cache
    modifies bot, bot.cells
    ensures userMode.Broken? || meMode.Broken? ==> channel == Err(RequestFailed)
    ensures !userMode.Broken? && !meMode.Broken? ==>
              match direct(me.value.id, user.value.id)
              case None => channel == Err(RequestFailed)
              case Some(id) => channel == Ok(id)
  {
    var found := TransparentGet(bot, UserByEmail(email), user, userMode, body);
    if found.Err? { return Err(found.error); }
    var self := TransparentGet(bot, Me, me, meMode, body);
    if self.Err? { return Err(self.error); }
    var posted := direct(self.value.id, found.value.id);
    channel := if posted.None? then Err(RequestFailed) else Ok(posted.value);
  }

  // ---- One lookup after another ----

  /** What happens to the cache and to the server: a lookup, a change of a resource, an eviction. */
  datatype Op = Lookup(key: Key, mode: Mode) | Change(changed: Key, resource: Resource) | Evict(keys: set<Key>)

  type World = Key -> Resource

  function Changed(world: World, op: Op): World {
    if op.Change? then k => if k == op.changed then op.resource else world(k) else world
  }

  function WorldAfter(world: World, ops: seq<Op>): World {
    if ops == [] then world else Changed(WorldAfter(world, ops[..|ops| - 1]), ops[|ops| - 1])
  }

  /** The answers to the lookups of a run if every one of them were a plain GET. */
  function PlainAnswers(world: World, ops: seq<Op>): seq<Result<Value, Error>> {
    if ops == [] then []
    else
      var n := |ops| - 1;
      PlainAnswers(world, ops[..n])
      + if ops[n].Lookup? then [PlainGet(WorldAfter(world, ops[..n])(ops[n].key), ops[n].mode)] else []
  }

  /** ETags tell the values all along, and a key either always has one or never. */
  ghost predicate Steady(key: Key, resource: Resource, body: (Key, string) -> Value, tagged: Key -> bool) {
    Fits(key, resource, body) && (resource.etag != "" <==> tagged(key))
  }

  ghost predicate SteadyRun(world: World, ops: seq<Op>, body: (Key, string) -> Value, tagged: Key -> bool) {
    && (forall k :: Steady(k, world(k), body, tagged))
    && forall i :: 0 <= i < |ops| && ops[i].Change? ==> Steady(ops[i].changed, ops[i].resource, body, tagged)
  }

  lemma {:induction false} WorldStaysSteady(world: World, ops: seq<Op>, body: (Key, string) -> Value, tagged: Key -> bool)
    requires SteadyRun(world, ops, body, tagged)
    ensures forall k :: Steady(k, WorldAfter(world, ops)(k), body, tagged)
    decreases |ops|
  {
    if ops != [] {
      WorldStaysSteady(world, ops[..|ops| - 1], body, tagged);
    }
  }

  lemma NextAnswer(world: World, ops: seq<Op>, i: nat)
    requires i < |ops|
    ensures PlainAnswers(world, ops[..i + 1]) == PlainAnswers(world, ops[..i])
              + if ops[i].Lookup? then [PlainGet(WorldAfter(world, ops[..i])(ops[i].key), ops[i].mode)] else []
  {
    assert ops[..i + 1][..i] == ops[..i];
  }

  /** For every sequence of lookups that do not overlap, server changes and evictions, the answers are those of
      plain GETs. */
  method Run(bot: Client, world: World, ops: seq<Op>, ghost body: (Key, string) -> Value, ghost tagged: Key -> bool)
    returns (answers: seq<Result<Value, Error>>)
    requires bot.Valid() && bot.cells == {} && SteadyRun(world, ops, body, tagged)
    modifies bot
    ensures answers == PlainAnswers(world, ops)
    ensures bot.Valid() && AllCoherent(bot.Snapshot(), body)
  {
    answers := [];
    assert forall k <- bot.cache :: EntryOk(bot.Snapshot(), k);
    for i := 0 to |ops|
      invariant bot.Valid() && AllCoherent(bot.Snapshot(), body) && fresh(bot.cells)
      invariant forall k <- bot.cache :: tagged(k)
      invariant answers == PlainAnswers(world, ops[..i])
    {
      NextAnswer(world, ops, i);
      WorldStaysSteady(world, ops[..i], body, tagged);
      match ops[i]
      case Lookup(key, mode) =>
        var resource := WorldAfter(world, ops[..i])(key);
        assert Steady(key, resource, body, tagged);
        var answer := TransparentGet(bot, key, resource, mode, body);
        answers := answers + [answer];
      case Change(_, _) =>
      case Evict(keys) =>
        DropCoherent(bot.Snapshot(), keys, body);
        bot.Evict(keys);
    }
    assert ops[..|ops|] == ops;
  }

  lemma DropCoherent<C>(s: State<C>, keys: set<Key>, body: (Key, string) -> Value)
    requires AllCoherent(s, body)
    ensures AllCoherent(s.(cache := s.cache - keys), body)
  {
    forall k <- s.cache - keys ensures Coherent(s.(cache := s.cache - keys), k, body) { assert Coherent(s, k, body); }
  }

  // ---- What goes wrong otherwise ----

  /** Why replies for cached keys need an ETag: the second reply, without one, is decoded into the shared
      cell, and when the server is back at the first value the cache answers with the second. */
  method UntaggedReplyBreaks(first: Value, second: Value) returns (answer: Result<Value, Error>)
    ensures answer == Ok(second)
    ensures answer == PlainGet(Resource("v1", first), Conditional) <==> first == second
  {
    var bot := new Client();
    answer := GetInto(bot, Me, Resource("v1", first), Full);
    answer := GetInto(bot, Me, Resource("", second), Conditional);
    answer := GetInto(bot, Me, Resource("v1", first), Conditional);
  }

  /** Get, seen from the entry of its key. */
  method GetInto(bot: Client, key: Key, resource: Resource, mode: Mode) returns (result: Result<Value, Error>)
    requires bot.Valid() && !mode.Broken?
    modifies bot, bot.cells
    ensures bot.Valid() && fresh(bot.cells - old(bot.cells))
    ensures var s, s' := old(bot.Snapshot()), bot.Snapshot();
      && result == Ok(if IsNotModified(s, key, resource, mode) && CachedValue(s, key).Some? then CachedValue(s, key).value
                      else resource.value)
      && (resource.etag != "" ==> key in s'.cache && s'.cache[key].etag == resource.etag)
      && (resource.etag == "" ==> s'.cache == s.cache)
      && (key in s'.cache ==> CachedValue(s', key) == Some(result.value))
  {
    ghost var s := bot.Snapshot();
    ghost var cell;
    result, cell := bot.Get(key, resource, mode);
    TripEffect(s, key, cell, resource, mode);
    if key in s.cache { assert EntryOk(s, key); }
  }

  /** Two requests for a cached key: the first one is told that its value has not changed, the second one gets a
      new value. */
  method BothAnswered(bot: Client, key: Key, same: Resource, newer: Resource) returns (a: nat, b: nat)
    requires bot.Valid() && key in bot.cache && bot.cache[key].etag == same.etag != newer.etag
    modifies bot
    ensures bot.Valid() && fresh(bot.cells - old(bot.cells)) && bot.cache == old(bot.cache)
    ensures a != b && At(bot.Snapshot(), a, NotModified) && At(bot.Snapshot(), b, Received)
    ensures bot.flights[a].key == key && bot.flights[a].cell == bot.flights[b].cell == bot.cache[key].cell
    ensures bot.flights[a].reply == same && bot.flights[b].reply == newer
  {
    ghost var cell;
    a, cell := bot.BeforeRequest(key);
    b, cell := bot.BeforeRequest(key);
    bot.Respond(a, same, Conditional);
    bot.Respond(b, newer, Conditional);
  }

  lemma LateDecodeEffect<C>(s: State<C>, a: nat, b: nat)
    requires Wf(s) && a != b && At(s, a, NotModified) && At(s, b, Received) && s.flights[a].cell == s.flights[b].cell
    ensures Enabled(s, Decode(b)) && Enabled(DecodeStep(s, b), Store(a))
    ensures var s2 := StoreStep(DecodeStep(s, b), a); var f := s.flights[a];
      && Enabled(s2, Read(a)) && ReadStep(s2, a).flights[a].answer == Some(s.flights[b].reply.value)
      && f.key in s2.cache && s2.cache[f.key].etag == f.reply.etag && CachedValue(s2, f.key) == Some(s.flights[b].reply.value)
  {
    assert FlightOk(s, s.flights[a]);
  }

  /** The second one decodes before the first has run its after hook and read its cell. */
  method LateDecode(bot: Client, a: nat, b: nat) returns (answer: Result<Value, Error>)
    requires bot.Valid() && a != b && At(bot.Snapshot(), a, NotModified) && At(bot.Snapshot(), b, Received)
    requires bot.flights[a].cell == bot.flights[b].cell
    modifies bot, bot.flights[b].cell
    ensures bot.Valid() && bot.cells == old(bot.cells) && answer == Ok(old(bot.flights[b].reply.value))
    ensures var key, etag := old(bot.flights[a].key), old(bot.flights[a].reply.etag);
      key in bot.cache && bot.cache[key].etag == etag
      && CachedValue(bot.Snapshot(), key) == Some(old(bot.flights[b].reply.value))
  {
    LateDecodeEffect(bot.Snapshot(), a, b);
    bot.DecodeBody(b);
    bot.AfterResponse(a);
    answer := bot.ReadResult(a);
  }

  /** Why requests of one key must not overlap, although every reply has its ETag: the first request returns the
      new value and stores it under the old ETag, and a later request gets it from there. */
  method OverlapBreaks(first: Value, second: Value) returns (answer: Result<Value, Error>, later: Result<Value, Error>)
    ensures answer == Ok(second) && later == Ok(second)
    ensures answer == PlainGet(Resource("v1", first), Conditional) <==> first == second
  {
    var bot := new Client();
    var _ := GetInto(bot, Me, Resource("v1", first), Full);
    var a, b := BothAnswered(bot, Me, Resource("v1", first), Resource("v2", second));
    answer := LateDecode(bot, a, b);
    later := GetInto(bot, Me, Resource("v1", first), Conditional);
  }
}
