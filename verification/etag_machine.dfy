/** Requests through the ETag hooks of the Mattermost bot (access/mattermost/bot.go), any number of them in
    flight. A cached result is a cell that later requests of the same key decode into (the HTTP client keeps
    the cell it is given for the result), and every action below is one that other goroutines can get in
    between. C is the type of cells. */
module EtagMachine {
  import opened Common

  datatype Kind = UserKind | ChannelKind

  datatype Value =
    | User(id: string, username: string, firstName: string, lastName: string, email: string)
    | Channel(id: string, teamID: string, channelType: string, name: string)

  /** The keys of the lookups that are cached. */
  datatype Key = Me | ChannelByName(team: string, name: string) | UserByEmail(email: string)

  function KindOfKey(key: Key): Kind {
    if key.ChannelByName? then ChannelKind else UserKind
  }

  function KindOfValue(value: Value): Kind {
    if value.User? then UserKind else ChannelKind
  }

  /** The result a caller allocates for a request. */
  function Empty(kind: Kind): Value {
    if kind.UserKind? then User("", "", "", "", "") else Channel("", "", "", "")
  }

  /** A resource on the server: what a plain GET would return now, and its ETag; empty if it has none. */
  datatype Resource = Resource(etag: string, value: Value)

  /** How the server treats a request. It may answer a condition that holds with the full reply. */
  datatype Mode = Full | Conditional | Broken

  datatype Stage =
    | Begun       // the before hook has run: the condition and the cell are fixed
    | NotModified // status 304, the after hook comes next
    | Received    // status 200, not decoded yet
    | Decoded     // decoded into the cell, the after hook comes next
    | Kept        // the after hook has run, the caller reads the cell next
    | Answered
    | Failed

  /** A request; reply is the resource as it was when the server answered. */
  datatype Flight<C> = Flight(key: Key, cell: C, condition: Option<string>, stage: Stage, reply: Resource, answer: Option<Value>)

  datatype Entry<C> = Entry(etag: string, cell: C)

  /** A cell with the key it was allocated for. */
  datatype Slot = Slot(key: Key, value: Value)

  datatype State<C(==)> = State(cells: map<C, Slot>, cache: map<Key, Entry<C>>, flights: seq<Flight<C>>)

  datatype Label<C> =
    | Begin(key: Key, cell: C)
    | Answer(r: nat, resource: Resource, mode: Mode)
    | Decode(r: nat)
    | Store(r: nat)
    | Read(r: nat)
    | Drop(keys: set<Key>)

  predicate At<C>(s: State<C>, r: nat, stage: Stage) {
    r < |s.flights| && s.flights[r].stage == stage
  }

  predicate Enabled<C(==)>(s: State<C>, l: Label<C>) {
    match l
    case Begin(_, cell) => cell !in s.cells
    case Answer(r, _, _) => At(s, r, Begun)
    case Decode(r) => At(s, r, Received)
    case Store(r) => At(s, r, NotModified) || At(s, r, Decoded)
    case Read(r) => At(s, r, Kept) && s.flights[r].cell in s.cells
    case Drop(_) => true
  }

  /** The before hook: a cached cell takes the place of the one the caller brought. */
  function BeginStep<C>(s: State<C>, key: Key, cell: C): State<C> {
    var hit := key in s.cache;
    s.(cells := s.cells[cell := Slot(key, Empty(KindOfKey(key)))],
       flights := s.flights + [Flight(key, if hit then s.cache[key].cell else cell,
                                      if hit then Some(s.cache[key].etag) else None, Begun,
                                      Resource("", Empty(KindOfKey(key))), None)])
  }

  /** The stage in which the server's answer leaves a request. */
  function AfterAnswer(condition: Option<string>, resource: Resource, mode: Mode): Stage {
    if mode.Broken? then Failed
    else if mode.Conditional? && condition == Some(resource.etag) then NotModified
    else Received
  }

  function AnswerStep<C>(s: State<C>, r: nat, resource: Resource, mode: Mode): State<C>
    requires r < |s.flights|
  {
    var f := s.flights[r];
    s.(flights := s.flights[r := f.(stage := AfterAnswer(f.condition, resource, mode), reply := resource)])
  }

  function DecodeStep<C>(s: State<C>, r: nat): State<C>
    requires r < |s.flights|
  {
    var f := s.flights[r];
    s.(cells := s.cells[f.cell := Slot(f.key, f.reply.value)], flights := s.flights[r := f.(stage := Decoded)])
  }

  /** The after hook: only a reply with an ETag is remembered. */
  function StoreStep<C>(s: State<C>, r: nat): State<C>
    requires r < |s.flights|
  {
    var f := s.flights[r];
    s.(cache := if f.reply.etag == "" then s.cache else s.cache[f.key := Entry(f.reply.etag, f.cell)],
       flights := s.flights[r := f.(stage := Kept)])
  }

  function ReadStep<C>(s: State<C>, r: nat): State<C>
    requires r < |s.flights| && s.flights[r].cell in s.cells
  {
    var f := s.flights[r];
    s.(flights := s.flights[r := f.(stage := Answered, answer := Some(s.cells[f.cell].value))])
  }

  function Step<C>(s: State<C>, l: Label<C>): State<C>
    requires Enabled(s, l)
  {
    match l
    case Begin(key, cell) => BeginStep(s, key, cell)
    case Answer(r, resource, mode) => AnswerStep(s, r, resource, mode)
    case Decode(r) => DecodeStep(s, r)
    case Store(r) => StoreStep(s, r)
    case Read(r) => ReadStep(s, r)
    case Drop(keys) => s.(cache := s.cache - keys)
  }

  predicate Runs<C>(s: State<C>, ls: seq<Label<C>>)
    decreases ls
  {
    ls == [] || (Enabled(s, ls[0]) && Runs(Step(s, ls[0]), ls[1..]))
  }

  function Exec<C>(s: State<C>, ls: seq<Label<C>>): State<C>
    requires Runs(s, ls)
    decreases ls
  {
    if ls == [] then s else Exec(Step(s, ls[0]), ls[1..])
  }

  // ---- What every interleaving keeps ----

  predicate Active(stage: Stage) {
    !stage.Answered? && !stage.Failed?
  }

  predicate FlightOk<C>(s: State<C>, f: Flight<C>) {
    && (Active(f.stage) ==> f.cell in s.cells && s.cells[f.cell].key == f.key)
    && (f.condition.Some? ==> f.condition.value != "")
    && (f.stage.NotModified? ==> f.reply.etag != "")
  }

  predicate EntryOk<C>(s: State<C>, key: Key)
    requires key in s.cache
  {
    var e := s.cache[key];
    e.etag != "" && e.cell in s.cells && s.cells[e.cell].key == key
  }

  /** Every key has cells of its own. */
  predicate Wf<C>(s: State<C>) {
    && (forall r :: 0 <= r < |s.flights| ==> FlightOk(s, s.flights[r]))
    && forall k <- s.cache :: EntryOk(s, k)
  }

  lemma BeginWf<C>(s: State<C>, key: Key, cell: C)
    requires Wf(s) && cell !in s.cells
    ensures Wf(BeginStep(s, key, cell))
  {
    var s' := BeginStep(s, key, cell);
    forall k <- s'.cache ensures EntryOk(s', k) { assert EntryOk(s, k); }
    forall r | 0 <= r < |s'.flights| ensures FlightOk(s', s'.flights[r]) {
      if r < |s.flights| { assert FlightOk(s, s.flights[r]); }
      else if key in s.cache { assert EntryOk(s, key); }
    }
  }

  /** A step of flight r that leaves the keys of the cells as they are. */
  lemma FlightWf<C>(s: State<C>, s': State<C>, r: nat)
    requires Wf(s) && r < |s.flights| && |s'.flights| == |s.flights|
    requires forall q :: 0 <= q < |s.flights| && q != r ==> s'.flights[q] == s.flights[q]
    requires forall c <- s.cells :: c in s'.cells && s'.cells[c].key == s.cells[c].key
    requires s'.cache == s.cache && FlightOk(s', s'.flights[r])
    ensures Wf(s')
  {
    forall k <- s'.cache ensures EntryOk(s', k) { assert EntryOk(s, k); }
    forall q | 0 <= q < |s'.flights| ensures FlightOk(s', s'.flights[q]) { assert FlightOk(s, s.flights[q]); }
  }

  lemma StoreWf<C>(s: State<C>, r: nat)
    requires Wf(s) && Enabled(s, Store(r))
    ensures Wf(StoreStep(s, r))
  {
    assert FlightOk(s, s.flights[r]);
    FlightWf(s, StoreStep(s, r).(cache := s.cache), r);
    var s' := StoreStep(s, r);
    forall k <- s'.cache ensures EntryOk(s', k) { if k in s.cache { assert EntryOk(s, k); } }
    forall q | 0 <= q < |s'.flights| ensures FlightOk(s', s'.flights[q]) {
      assert FlightOk(s'.(cache := s.cache), s'.flights[q]);
    }
  }

  lemma StepWf<C>(s: State<C>, l: Label<C>)
    requires Wf(s) && Enabled(s, l)
    ensures Wf(Step(s, l))
  {
    match l {
      case Begin(key, cell) => BeginWf(s, key, cell);
      case Answer(r, resource, mode) => assert FlightOk(s, s.flights[r]); FlightWf(s, Step(s, l), r);
      case Decode(r) => assert FlightOk(s, s.flights[r]); FlightWf(s, Step(s, l), r);
      case Store(r) => StoreWf(s, r);
      case Read(r) => assert FlightOk(s, s.flights[r]); FlightWf(s, Step(s, l), r);
      case Drop(_) =>
        forall k <- Step(s, l).cache ensures EntryOk(Step(s, l), k) { assert EntryOk(s, k); }
        forall r | 0 <= r < |s.flights| ensures FlightOk(Step(s, l), s.flights[r]) { assert FlightOk(s, s.flights[r]); }
    }
  }
}
