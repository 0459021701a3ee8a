/** When the ETag cache is transparent although requests overlap: exactly as long as nobody decodes another
    value into a cell that a request in flight counts on. */
module EtagOverlap {
  import opened Common
  import opened EtagMachine

  // ---- The server ----

  /** An ETag tells the value. */
  ghost predicate Fits(key: Key, resource: Resource, body: (Key, string) -> Value) {
    resource.etag != "" ==> resource.value == body(key, resource.etag)
  }

  ghost predicate FitsLabel<C>(s: State<C>, l: Label<C>, body: (Key, string) -> Value) {
    l.Answer? && l.r < |s.flights| ==> Fits(s.flights[l.r].key, l.resource, body)
  }

  /** Every answer that was given fits. */
  ghost predicate Honest<C>(s: State<C>, body: (Key, string) -> Value) {
    forall r :: 0 <= r < |s.flights| ==> s.flights[r].stage.Begun? || Fits(s.flights[r].key, s.flights[r].reply, body)
  }

  // ---- What may go wrong ----

  /** The request has its answer, and takes the cell for it until it is read. */
  predicate CountsOn<C(==)>(f: Flight<C>, cell: C) {
    (f.stage.NotModified? || f.stage.Decoded? || f.stage.Kept?) && f.cell == cell
  }

  /** The cells of the requests that have their answers hold these answers. */
  predicate Undisturbed<C>(s: State<C>) {
    forall r :: 0 <= r < |s.flights| && CountsOn(s.flights[r], s.flights[r].cell) ==>
      s.flights[r].cell in s.cells && s.cells[s.flights[r].cell].value == s.flights[r].reply.value
  }

  ghost predicate Coherent<C>(s: State<C>, key: Key, body: (Key, string) -> Value) {
    key in s.cache && s.cache[key].cell in s.cells && s.cells[s.cache[key].cell].value == body(key, s.cache[key].etag)
  }

  predicate Updates<C(==)>(f: Flight<C>, key: Key, cell: C) {
    f.stage.Decoded? && f.key == key && f.cell == cell && f.reply.etag != ""
  }

  /** A request has decoded into the cell of the entry and is about to give it the new ETag. */
  predicate Pending<C>(s: State<C>, key: Key) {
    key in s.cache && exists r :: 0 <= r < |s.flights| && Updates(s.flights[r], key, s.cache[key].cell)
  }

  /** Nothing is wrong: no answer is lost, and every cached value is what its ETag stands for, or will be when
      a request that is between its decoding and its after hook gets there. */
  ghost predicate Clean<C>(s: State<C>, body: (Key, string) -> Value) {
    Undisturbed(s) && forall k <- s.cache :: Coherent(s, k, body) || Pending(s, k)
  }

  /** Every answer handed out is that of a plain GET at the time the server gave it. */
  predicate AllRight<C>(s: State<C>) {
    forall r :: 0 <= r < |s.flights| && s.flights[r].stage.Answered? ==> s.flights[r].answer == Some(s.flights[r].reply.value)
  }

  /** What to check before an action. A 304 is harmless if the cell still holds the value it vouches for;
      decoding is harmless if no other request counts on another value of the cell, and if a reply without an
      ETag does not change the value of a cached entry. Everything else always is. */
  ghost predicate Harmless<C>(s: State<C>, l: Label<C>, body: (Key, string) -> Value)
    requires Enabled(s, l)
  {
    match l
    case Answer(r, resource, mode) =>
      var f := s.flights[r];
      AfterAnswer(f.condition, resource, mode).NotModified? ==> f.cell in s.cells && s.cells[f.cell].value == resource.value
    case Decode(r) => NobodyCounts(s, r) && Remembered(s, r, body)
    case _ => true
  }

  /** No other request counts on another value of the cell that r decodes into. */
  predicate NobodyCounts<C>(s: State<C>, r: nat)
    requires r < |s.flights|
  {
    forall q :: 0 <= q < |s.flights| && q != r && CountsOn(s.flights[q], s.flights[r].cell) ==>
      s.flights[q].reply.value == s.flights[r].reply.value
  }

  /** The entry that has the cell will get the ETag of the new value, or has it. */
  ghost predicate Remembered<C>(s: State<C>, r: nat, body: (Key, string) -> Value)
    requires r < |s.flights|
  {
    var f := s.flights[r];
    f.key in s.cache && s.cache[f.key].cell == f.cell ==>
      f.reply.etag != "" || body(f.key, s.cache[f.key].etag) == f.reply.value || Pending(s, f.key)
  }

  // ---- A step from a clean state ends in one exactly if it is harmless ----

  lemma BeginClean<C>(s: State<C>, key: Key, cell: C, body: (Key, string) -> Value)
    requires Wf(s) && Clean(s, body) && cell !in s.cells
    ensures Clean(BeginStep(s, key, cell), body)
  {
    var s' := BeginStep(s, key, cell);
    forall k <- s'.cache ensures Coherent(s', k, body) || Pending(s', k) {
      assert EntryOk(s, k);
      if Pending(s, k) {
        var r :| 0 <= r < |s.flights| && Updates(s.flights[r], k, s.cache[k].cell);
        assert Updates(s'.flights[r], k, s'.cache[k].cell);
      }
    }
  }

  lemma DropClean<C>(s: State<C>, keys: set<Key>, body: (Key, string) -> Value)
    requires Clean(s, body)
    ensures Clean(s.(cache := s.cache - keys), body)
  {
    var s' := s.(cache := s.cache - keys);
    forall k <- s'.cache ensures Coherent(s', k, body) || Pending(s', k) {
      assert Coherent(s, k, body) || Pending(s, k);
      assert s'.cache[k] == s.cache[k];
    }
  }

  /** Flight r moved without touching cells or cache, and was not and is not between decoding and hook. */
  lemma EntriesStay<C>(s: State<C>, s': State<C>, r: nat, body: (Key, string) -> Value)
    requires r < |s.flights| == |s'.flights| && s'.flights == s.flights[r := s'.flights[r]]
    requires s'.cells == s.cells && s'.cache == s.cache && !s.flights[r].stage.Decoded?
    requires forall k <- s.cache :: Coherent(s, k, body) || Pending(s, k)
    ensures forall k <- s'.cache :: Coherent(s', k, body) || Pending(s', k)
  {
    forall k <- s'.cache ensures Coherent(s', k, body) || Pending(s', k) {
      if Pending(s, k) {
        var q :| 0 <= q < |s.flights| && Updates(s.flights[q], k, s.cache[k].cell);
        assert Updates(s'.flights[q], k, s'.cache[k].cell);
      }
    }
  }

  lemma AnswerClean<C>(s: State<C>, r: nat, resource: Resource, mode: Mode, body: (Key, string) -> Value)
    requires Wf(s) && Clean(s, body) && Enabled(s, Answer(r, resource, mode))
    ensures Clean(AnswerStep(s, r, resource, mode), body) <==> Harmless(s, Answer(r, resource, mode), body)
  {
    assert FlightOk(s, s.flights[r]);
    var s' := AnswerStep(s, r, resource, mode);
    EntriesStay(s, s', r, body);
    var f' := s'.flights[r];
    if Undisturbed(s') { assert CountsOn(f', f'.cell) ==> s'.cells[f'.cell].value == resource.value; }
  }

  lemma ReadClean<C>(s: State<C>, r: nat, body: (Key, string) -> Value)
    requires Clean(s, body) && Enabled(s, Read(r))
    ensures Clean(ReadStep(s, r), body)
  {
    EntriesStay(s, ReadStep(s, r), r, body);
  }

  lemma StoreClean<C>(s: State<C>, r: nat, body: (Key, string) -> Value)
    requires Wf(s) && Honest(s, body) && Clean(s, body) && Enabled(s, Store(r))
    ensures Clean(StoreStep(s, r), body)
  {
    var s', f := StoreStep(s, r), s.flights[r];
    assert FlightOk(s, f) && CountsOn(f, f.cell);
    forall k <- s'.cache ensures Coherent(s', k, body) || Pending(s', k) {
      if k != f.key || f.reply.etag == "" {
        assert Coherent(s, k, body) || Pending(s, k);
        if Pending(s, k) {
          var q :| 0 <= q < |s.flights| && Updates(s.flights[q], k, s.cache[k].cell);
          assert Updates(s'.flights[q], k, s'.cache[k].cell);
        }
      }
    }
  }

  lemma DecodeUndisturbed<C>(s: State<C>, r: nat)
    requires Wf(s) && Undisturbed(s) && Enabled(s, Decode(r))
    ensures Undisturbed(DecodeStep(s, r)) <==> NobodyCounts(s, r)
  {
    var s', f := DecodeStep(s, r), s.flights[r];
    assert FlightOk(s, f);
    if NobodyCounts(s, r) {
      forall q | 0 <= q < |s'.flights| && CountsOn(s'.flights[q], s'.flights[q].cell)
        ensures s'.flights[q].cell in s'.cells && s'.cells[s'.flights[q].cell].value == s'.flights[q].reply.value
      {
        assert q != r ==> s'.flights[q] == s.flights[q] && CountsOn(s.flights[q], s.flights[q].cell);
      }
    } else {
      var q :| 0 <= q < |s.flights| && q != r && CountsOn(s.flights[q], f.cell) && s.flights[q].reply.value != f.reply.value;
      assert s'.flights[q] == s.flights[q] && CountsOn(s'.flights[q], s'.flights[q].cell);
    }
  }

  /** Who is about to update the entry of a key, before and after r decodes. */
  lemma DecodePending<C>(s: State<C>, r: nat, k: Key)
    requires Enabled(s, Decode(r))
    ensures Pending(DecodeStep(s, r), k)
       <==> (|| Pending(s, k)
             || (k in s.cache && k == s.flights[r].key && s.cache[k].cell == s.flights[r].cell
                 && s.flights[r].reply.etag != ""))
  {
    var s' := DecodeStep(s, r);
    if Pending(s, k) {
      var q :| 0 <= q < |s.flights| && Updates(s.flights[q], k, s.cache[k].cell);
      assert Updates(s'.flights[q], k, s'.cache[k].cell);
    }
    if k in s.cache && Updates(s'.flights[r], k, s.cache[k].cell) { assert Pending(s', k); }
    if Pending(s', k) {
      var q :| 0 <= q < |s'.flights| && Updates(s'.flights[q], k, s'.cache[k].cell);
      assert q != r ==> Updates(s.flights[q], k, s.cache[k].cell);
    }
  }

  lemma DecodeEntry<C>(s: State<C>, r: nat, k: Key, body: (Key, string) -> Value)
    requires Wf(s) && Enabled(s, Decode(r)) && k in s.cache && (Coherent(s, k, body) || Pending(s, k))
    ensures var s' := DecodeStep(s, r);
      Coherent(s', k, body) || Pending(s', k) <==> (k == s.flights[r].key ==> Remembered(s, r, body))
  {
    assert EntryOk(s, k) && FlightOk(s, s.flights[r]);
    DecodePending(s, r, k);
  }

  lemma DecodeClean<C>(s: State<C>, r: nat, body: (Key, string) -> Value)
    requires Wf(s) && Clean(s, body) && Enabled(s, Decode(r))
    ensures Clean(DecodeStep(s, r), body) <==> NobodyCounts(s, r) && Remembered(s, r, body)
  {
    var s', key := DecodeStep(s, r), s.flights[r].key;
    DecodeUndisturbed(s, r);
    forall k <- s.cache
      ensures Coherent(s', k, body) || Pending(s', k) <==> (k == key ==> Remembered(s, r, body))
    {
      DecodeEntry(s, r, k, body);
    }
  }

  /** The exact condition, for any number of requests in flight, any evictions and any replies whose ETags tell
      their values. */
  lemma CleanIffHarmless<C>(s: State<C>, l: Label<C>, body: (Key, string) -> Value)
    requires Wf(s) && Honest(s, body) && Clean(s, body) && Enabled(s, l)
    ensures Clean(Step(s, l), body) <==> Harmless(s, l, body)
  {
    match l {
      case Begin(key, cell) => BeginClean(s, key, cell, body);
      case Answer(r, resource, mode) => AnswerClean(s, r, resource, mode, body);
      case Decode(r) => DecodeClean(s, r, body);
      case Store(r) => StoreClean(s, r, body);
      case Read(r) => ReadClean(s, r, body);
      case Drop(keys) => DropClean(s, keys, body);
    }
  }

  // ---- Harmless runs ----

  lemma HonestStep<C>(s: State<C>, l: Label<C>, body: (Key, string) -> Value)
    requires Honest(s, body) && Enabled(s, l) && FitsLabel(s, l, body)
    ensures Honest(Step(s, l), body)
  {
  }

  lemma RightStep<C>(s: State<C>, l: Label<C>)
    requires Undisturbed(s) && AllRight(s) && Enabled(s, l)
    ensures AllRight(Step(s, l))
  {
    if l.Read? { assert CountsOn(s.flights[l.r], s.flights[l.r].cell); }
  }

  ghost predicate HarmlessRun<C>(s: State<C>, ls: seq<Label<C>>, body: (Key, string) -> Value)
    requires Runs(s, ls)
    decreases ls
  {
    ls == [] || (Harmless(s, ls[0], body) && FitsLabel(s, ls[0], body) && HarmlessRun(Step(s, ls[0]), ls[1..], body))
  }

  ghost predicate Good<C>(s: State<C>, body: (Key, string) -> Value) {
    Wf(s) && Honest(s, body) && Clean(s, body) && AllRight(s)
  }

  lemma GoodStep<C>(s: State<C>, l: Label<C>, body: (Key, string) -> Value)
    requires Good(s, body) && Enabled(s, l) && Harmless(s, l, body) && FitsLabel(s, l, body)
    ensures Good(Step(s, l), body)
  {
    StepWf(s, l);
    HonestStep(s, l, body);
    CleanIffHarmless(s, l, body);
    RightStep(s, l);
  }

  /** Transparency of every interleaving of harmless actions: all answers are those of plain GETs. */
  lemma {:induction false} HarmlessRunsAreTransparent<C>(s: State<C>, ls: seq<Label<C>>, body: (Key, string) -> Value)
    requires Good(s, body) && Runs(s, ls) && HarmlessRun(s, ls, body)
    ensures Good(Exec(s, ls), body)
    decreases ls
  {
    if ls != [] {
      GoodStep(s, ls[0], body);
      HarmlessRunsAreTransparent(Step(s, ls[0]), ls[1..], body);
    }
  }

  // ---- Harm shows ----

  lemma Run1<C>(s: State<C>, l: Label<C>)
    requires Enabled(s, l)
    ensures Runs(s, [l]) && Exec(s, [l]) == Step(s, l)
  {
    assert Runs(Step(s, l), []);
  }

  lemma RunMore<C>(s: State<C>, l: Label<C>, ls: seq<Label<C>>)
    requires Enabled(s, l) && Runs(Step(s, l), ls)
    ensures Runs(s, [l] + ls) && Exec(s, [l] + ls) == Exec(Step(s, l), ls)
  {
    assert ([l] + ls)[1..] == ls;
  }

  ghost predicate HonestRun<C>(s: State<C>, ls: seq<Label<C>>, body: (Key, string) -> Value)
    requires Runs(s, ls)
    decreases ls
  {
    ls == [] || (FitsLabel(s, ls[0], body) && HonestRun(Step(s, ls[0]), ls[1..], body))
  }

  lemma HonestMore<C>(s: State<C>, l: Label<C>, ls: seq<Label<C>>, body: (Key, string) -> Value)
    requires Enabled(s, l) && Runs(Step(s, l), ls) && FitsLabel(s, l, body) && HonestRun(Step(s, l), ls, body)
    ensures Runs(s, [l] + ls) && HonestRun(s, [l] + ls, body)
  {
    assert ([l] + ls)[1..] == ls;
  }

  predicate WrongAt<C>(s: State<C>, r: nat) {
    At(s, r, Answered) && s.flights[r].answer != Some(s.flights[r].reply.value)
  }

  /** A request whose cell was disturbed hands out the wrong value. */
  lemma DisturbedShows<C>(s: State<C>, r: nat, body: (Key, string) -> Value) returns (ls: seq<Label<C>>)
    requires r < |s.flights| && CountsOn(s.flights[r], s.flights[r].cell) && s.flights[r].cell in s.cells
    requires s.cells[s.flights[r].cell].value != s.flights[r].reply.value
    ensures Runs(s, ls) && HonestRun(s, ls, body) && WrongAt(Exec(s, ls), r)
    ensures forall i :: 0 <= i < |ls| ==> !ls[i].Decode?
  {
    if s.flights[r].stage.Kept? {
      ls := [Read(r)];
      Run1(s, Read(r));
      HonestMore(s, Read(r), [], body);
    } else {
      var s1 := Step(s, Store(r));
      ls := [Store(r)] + [Read(r)];
      Run1(s1, Read(r));
      HonestMore(s1, Read(r), [], body);
      RunMore(s, Store(r), [Read(r)]);
      HonestMore(s, Store(r), [Read(r)], body);
    }
  }

  /** The server answers a request for key that has the entry's condition, and has the value of that ETag. */
  lemma VouchedShows<C>(s: State<C>, r: nat, e: string, body: (Key, string) -> Value) returns (ls: seq<Label<C>>)
    requires At(s, r, Begun) && s.flights[r].condition == Some(e) && s.flights[r].cell in s.cells
    requires s.cells[s.flights[r].cell].value != body(s.flights[r].key, e)
    ensures Runs(s, ls) && HonestRun(s, ls, body) && WrongAt(Exec(s, ls), r)
    ensures forall i :: 0 <= i < |ls| ==> !ls[i].Decode?
  {
    var answer := Answer(r, Resource(e, body(s.flights[r].key, e)), Conditional);
    var rest := DisturbedShows(Step(s, answer), r, body);
    RunMore(s, answer, rest);
    HonestMore(s, answer, rest, body);
    ls := [answer] + rest;
  }

  /** A cached value that is not what its ETag stands for is handed out by the next request for the key, if
      the server has the value of that ETag. */
  lemma IncoherentShows<C>(s: State<C>, key: Key, cell: C, body: (Key, string) -> Value) returns (ls: seq<Label<C>>)
    requires Wf(s) && key in s.cache && !Coherent(s, key, body) && cell !in s.cells
    ensures Runs(s, ls) && HonestRun(s, ls, body) && WrongAt(Exec(s, ls), |s.flights|)
    ensures forall i :: 0 <= i < |ls| ==> !ls[i].Decode?
  {
    assert EntryOk(s, key);
    var rest := VouchedShows(Step(s, Begin(key, cell)), |s.flights|, s.cache[key].etag, body);
    RunMore(s, Begin(key, cell), rest);
    HonestMore(s, Begin(key, cell), rest, body);
    ls := [Begin(key, cell)] + rest;
  }

  /** Whatever is not clean can be seen: some continuation, with a server whose ETags tell its values and
      without another reply being decoded, hands out a wrong answer. */
  lemma UncleanShows<C>(s: State<C>, spare: C, body: (Key, string) -> Value) returns (ls: seq<Label<C>>, r: nat)
    requires Wf(s) && !Clean(s, body) && spare !in s.cells
    ensures Runs(s, ls) && HonestRun(s, ls, body) && WrongAt(Exec(s, ls), r)
    ensures forall i :: 0 <= i < |ls| ==> !ls[i].Decode?
  {
    if !Undisturbed(s) {
      r :| 0 <= r < |s.flights| && CountsOn(s.flights[r], s.flights[r].cell)
           && !(s.flights[r].cell in s.cells && s.cells[s.flights[r].cell].value == s.flights[r].reply.value);
      assert FlightOk(s, s.flights[r]);
      ls := DisturbedShows(s, r, body);
    } else {
      var k :| k in s.cache && !Coherent(s, k, body) && !Pending(s, k);
      r := |s.flights|;
      ls := IncoherentShows(s, k, spare, body);
    }
  }

  /** So the condition is exact: an action that is not harmless, in a state in which all is well, lets a wrong
      answer out. */
  lemma HarmShows<C>(s: State<C>, l: Label<C>, spare: C, body: (Key, string) -> Value) returns (ls: seq<Label<C>>, r: nat)
    requires Good(s, body) && Enabled(s, l) && !Harmless(s, l, body) && spare !in s.cells
    ensures Runs(Step(s, l), ls) && HonestRun(Step(s, l), ls, body) && WrongAt(Exec(Step(s, l), ls), r)
    ensures forall i :: 0 <= i < |ls| ==> !ls[i].Decode?
  {
    CleanIffHarmless(s, l, body);
    StepWf(s, l);
    if l.Decode? { assert FlightOk(s, s.flights[l.r]); }
    ls, r := UncleanShows(Step(s, l), spare, body);
  }

  // ---- Requests that do not overlap ----

  /** There is one request at a time for every key. */
  predicate OneAtATime<C>(s: State<C>) {
    forall q, r :: 0 <= q < r < |s.flights| && Active(s.flights[q].stage) && Active(s.flights[r].stage) ==>
      s.flights[q].key != s.flights[r].key
  }

  /** A key always has an ETag or never. */
  ghost predicate TaggedLabel<C>(s: State<C>, l: Label<C>, tagged: Key -> bool) {
    l.Answer? && l.r < |s.flights| ==> (l.resource.etag != "" <==> tagged(s.flights[l.r].key))
  }

  /** The condition a request has sent is still what its cell holds, and only keys with ETags are cached. */
  ghost predicate Orderly<C>(s: State<C>, body: (Key, string) -> Value, tagged: Key -> bool) {
    && (forall r :: 0 <= r < |s.flights| ==> ConditionHolds(s, s.flights[r], body))
    && (forall r :: 0 <= r < |s.flights| && !s.flights[r].stage.Begun? ==>
          (s.flights[r].reply.etag != "" <==> tagged(s.flights[r].key)))
    && forall k <- s.cache :: tagged(k)
  }

  ghost predicate ConditionHolds<C>(s: State<C>, f: Flight<C>, body: (Key, string) -> Value) {
    f.stage.Begun? && f.condition.Some? ==> f.cell in s.cells && s.cells[f.cell].value == body(f.key, f.condition.value)
  }

  lemma SameCellSameKey<C>(s: State<C>, r: nat)
    requires Wf(s) && r < |s.flights| && Active(s.flights[r].stage)
    ensures forall q :: 0 <= q < |s.flights| && Active(s.flights[q].stage) && s.flights[q].cell == s.flights[r].cell ==>
              s.flights[q].key == s.flights[r].key
  {
    assert FlightOk(s, s.flights[r]);
    forall q | 0 <= q < |s.flights| && Active(s.flights[q].stage) && s.flights[q].cell == s.flights[r].cell
      ensures s.flights[q].key == s.flights[r].key
    {
      assert FlightOk(s, s.flights[q]);
    }
  }

  lemma AloneInCell<C>(s: State<C>, r: nat)
    requires Wf(s) && OneAtATime(s) && Enabled(s, Decode(r))
    ensures NobodyCounts(s, r)
  {
    SameCellSameKey(s, r);
  }

  /** Without overlap every action is harmless. */
  lemma OrderlyIsHarmless<C>(s: State<C>, l: Label<C>, body: (Key, string) -> Value, tagged: Key -> bool)
    requires Good(s, body) && Orderly(s, body, tagged) && OneAtATime(s)
    requires Enabled(s, l) && FitsLabel(s, l, body)
    ensures Harmless(s, l, body)
  {
    if l.Answer? {
      assert ConditionHolds(s, s.flights[l.r], body) && FlightOk(s, s.flights[l.r]);
    } else if l.Decode? {
      AloneInCell(s, l.r);
    }
  }

  lemma NoPending<C>(s: State<C>, key: Key, cell: C)
    requires OneAtATime(BeginStep(s, key, cell))
    ensures !Pending(s, key)
  {
    var s' := BeginStep(s, key, cell);
    forall q | 0 <= q < |s.flights| ensures !(s.flights[q].stage.Decoded? && s.flights[q].key == key) {
      assert s'.flights[q] == s.flights[q] && s'.flights[|s.flights|].key == key;
    }
  }

  lemma OrderlyBegin<C>(s: State<C>, key: Key, cell: C, body: (Key, string) -> Value, tagged: Key -> bool)
    requires Good(s, body) && Orderly(s, body, tagged) && cell !in s.cells && OneAtATime(BeginStep(s, key, cell))
    ensures Orderly(BeginStep(s, key, cell), body, tagged)
  {
    var s' := BeginStep(s, key, cell);
    NoPending(s, key, cell);
    forall r | 0 <= r < |s'.flights| ensures ConditionHolds(s', s'.flights[r], body) {
      if r < |s.flights| {
        assert ConditionHolds(s, s.flights[r], body) && FlightOk(s, s.flights[r]);
      } else if key in s.cache {
        assert EntryOk(s, key);
      }
    }
  }

  lemma OrderlyDecode<C>(s: State<C>, r: nat, body: (Key, string) -> Value, tagged: Key -> bool)
    requires Good(s, body) && Orderly(s, body, tagged) && OneAtATime(s) && Enabled(s, Decode(r))
    ensures Orderly(DecodeStep(s, r), body, tagged)
  {
    var s' := DecodeStep(s, r);
    assert FlightOk(s, s.flights[r]);
    forall q | 0 <= q < |s'.flights| ensures ConditionHolds(s', s'.flights[q], body) {
      assert ConditionHolds(s, s.flights[q], body) && FlightOk(s, s.flights[q]);
    }
  }

  lemma OrderlyStep<C>(s: State<C>, l: Label<C>, body: (Key, string) -> Value, tagged: Key -> bool)
    requires Good(s, body) && Orderly(s, body, tagged) && OneAtATime(s) && Enabled(s, l) && OneAtATime(Step(s, l))
    requires TaggedLabel(s, l, tagged)
    ensures Orderly(Step(s, l), body, tagged)
  {
    match l {
      case Begin(key, cell) => OrderlyBegin(s, key, cell, body, tagged);
      case Decode(r) => OrderlyDecode(s, r, body, tagged);
      case _ =>
        forall r | 0 <= r < |s.flights| ensures ConditionHolds(Step(s, l), Step(s, l).flights[r], body) {
          assert ConditionHolds(s, s.flights[r], body);
        }
    }
  }

  ghost predicate OrderlyRun<C>(s: State<C>, ls: seq<Label<C>>, body: (Key, string) -> Value, tagged: Key -> bool)
    requires Runs(s, ls)
    decreases ls
  {
    && OneAtATime(s)
    && (ls == [] || (FitsLabel(s, ls[0], body) && TaggedLabel(s, ls[0], tagged)
                     && OrderlyRun(Step(s, ls[0]), ls[1..], body, tagged)))
  }

  lemma StartIsGood<C>(body: (Key, string) -> Value, tagged: Key -> bool)
    ensures var s: State<C> := State(map[], map[], []); Good(s, body) && Orderly(s, body, tagged)
  {
  }

  /** Requests of different keys may overlap as they like: if those of one key do not, and a key always has an
      ETag or never, every answer is that of a plain GET. */
  lemma {:induction false} OrderlyRunsAreTransparent<C>(s: State<C>, ls: seq<Label<C>>, body: (Key, string) -> Value,
                                                        tagged: Key -> bool)
    requires Good(s, body) && Orderly(s, body, tagged) && Runs(s, ls) && OrderlyRun(s, ls, body, tagged)
    ensures Good(Exec(s, ls), body) && Orderly(Exec(s, ls), body, tagged)
    decreases ls
  {
    if ls != [] {
      OrderlyIsHarmless(s, ls[0], body, tagged);
      GoodStep(s, ls[0], body);
      OrderlyStep(s, ls[0], body, tagged);
      OrderlyRunsAreTransparent(Step(s, ls[0]), ls[1..], body, tagged);
    }
  }

  /** A request can only be harmed by another request of its key that decodes while it is in flight. */
  lemma LateDecodeBreaks<C>(s: State<C>, a: nat, b: nat, body: (Key, string) -> Value)
    requires Good(s, body) && At(s, a, NotModified) && At(s, b, Received)
    requires s.flights[a].cell == s.flights[b].cell && s.flights[a].reply.value != s.flights[b].reply.value
    ensures Runs(s, [Decode(b), Store(a), Read(a)])
    ensures var s' := Exec(s, [Decode(b), Store(a), Read(a)]); var key := s.flights[a].key;
      && WrongAt(s', a) && s'.flights[a].answer == Some(s.flights[b].reply.value)
      && key in s'.cache && s'.cache[key].etag == s.flights[a].reply.etag && !Coherent(s', key, body)
  {
    assert FlightOk(s, s.flights[a]);
    var s1 := Step(s, Decode(b));
    var s2 := Step(s1, Store(a));
    Run1(s2, Read(a));
    RunMore(s1, Store(a), [Read(a)]);
    RunMore(s, Decode(b), [Store(a)] + [Read(a)]);
    var ls: seq<Label<C>> := [Decode(b), Store(a), Read(a)];
    assert [Decode(b)] + ([Store(a)] + [Read(a)]) == ls;
  }
}
