/** What every interleaving of a process guarantees (lib/process.go). */
module ProcessRuns {
  import opened Common
  import opened ProcessInvariant
  import opened ProcessMachine

  lemma {:induction false} OutsideThreads(n: nat)
    ensures var ts := Init(n).threads; LiveCount(ts) == 0 && Callbacks(ts) == []
  {
    if n > 0 {
      OutsideThreads(n - 1);
      assert Init(n).threads[..n - 1] == Init(n - 1).threads;
    }
  }

  lemma InitInv(outside: nat)
    ensures Inv(Init(outside))
  {
    OutsideThreads(outside);
  }

  lemma {:induction false} RunsInv(s: State, ls: seq<Label>)
    requires Inv(s) && Runs(s, ls)
    ensures Inv(Exec(s, ls))
    decreases ls
  {
    if ls != [] {
      StepInv(s, ls[0]);
      RunsInv(Step(s, ls[0]), ls[1..]);
    }
  }

  /** The state reached by an interleaving of a new process with some outside callers. */
  function Reached(outside: nat, ls: seq<Label>): State
    requires Runs(Init(outside), ls)
  {
    Exec(Init(outside), ls)
  }

  lemma ReachedInv(outside: nat, ls: seq<Label>)
    requires Runs(Init(outside), ls)
    ensures Inv(Reached(outside, ls))
  {
    InitInv(outside);
    RunsInv(Init(outside), ls);
  }

  /** The wait counter is exact in every interleaving: one for each job that has not finished and
      one for the main job until termination releases it. It never becomes negative, and no spawn
      finds the process finished. */
  lemma CounterIsExact(outside: nat, ls: seq<Label>)
    requires Runs(Init(outside), ls)
    ensures var s := Reached(outside, ls);
      s.counter == LiveCount(s.threads) + (if s.mainReleased then 0 else 1) && s.counter >= 0 && !s.panicked
  {
    ReachedInv(outside, ls);
  }

  /** When doneCh closes the process has been terminated and every job ever spawned has finished. */
  lemma DoneMeansFinished(outside: nat, ls: seq<Label>)
    requires Runs(Init(outside), ls) && DoneClosed(Reached(outside, ls))
    ensures var s := Reached(outside, ls);
      && s.terminated && s.mainReleased && s.pending == []
      && (forall t :: 0 <= t < |s.threads| ==> !s.threads[t].live)
      && Callbacks(s.threads) == Range(s.registered)
  {
    ReachedInv(outside, ls);
    var s := Reached(outside, ls);
    forall t | 0 <= t < |s.threads| ensures !s.threads[t].live {
      if s.threads[t].live { LiveThreadCounts(s.threads, t); }
    }
  }

  lemma ContinueRegisters(s: State, t: nat)
    requires Enabled(s, Continue(t)) && !InRegister(s.threads[t].pc)
    ensures var s' := Step(s, Continue(t)); s'.waiter == s.waiter && s'.registered == s.registered
  {
    if InTerminate(s.threads[t].pc) { TerminateEffect(s, t); }
  }

  lemma DoneStays(s: State, l: Label)
    requires Inv(s) && DoneClosed(s) && Enabled(s, l)
    ensures var s' := Step(s, l);
      Inv(s') && DoneClosed(s') && |s'.threads| == |s.threads| && s'.registered == s.registered
  {
    StepInv(s, l);
    if l.Act? {
      ActShape(s, l.t, l.action);
      ActEffect(s, l.t, l.action);
    } else if l.Continue? {
      ContinueCompletion(s, l.t);
      ContinueRegisters(s, l.t);
    }
  }

  /** From then on it stays closed, no further job starts and no further callback is accepted. */
  lemma {:induction false} DoneIsFinal(s: State, ls: seq<Label>)
    requires Inv(s) && DoneClosed(s) && Runs(s, ls)
    ensures var s' := Exec(s, ls); DoneClosed(s') && |s'.threads| == |s.threads| && s'.registered == s.registered
    decreases ls
  {
    if ls != [] {
      DoneStays(s, ls[0]);
      DoneIsFinal(Step(s, ls[0]), ls[1..]);
    }
  }

  // ---- Callbacks ----

  /** Callbacks handed to OnTerminate that have not been started yet. */
  function Unspawned(s: State): seq<nat>
    requires Locks(s)
  {
    if Phase(s).TermLoop? && Phase(s).next <= |s.pending| then s.pending[Phase(s).next..] else s.pending
  }

  lemma {:induction false} RangeOnce(n: nat, c: nat)
    ensures multiset(Range(n))[c] == if c < n then 1 else 0
  {
    if n > 0 { RangeOnce(n - 1, c); }
  }

  lemma {:induction false} RangeSplit(n: nat, k: nat)
    requires k <= n
    ensures Range(n) == Range(k) + Range(n)[k..]
  {
    assert forall i :: 0 <= i < k ==> Range(n)[i] == Range(k)[i];
  }

  lemma PartitionOf(s: State)
    requires Inv(s)
    ensures Callbacks(s.threads) + Unspawned(s) == Range(s.registered)
  {
    var k := SpawnedCallbacks(s);
    assert Callbacks(s.threads) == Range(k);
    RangeSplit(s.registered, k);
    if Phase(s).TermLoop? {
      assert s.pending == Range(s.registered) && |s.pending| == s.registered;
      assert Unspawned(s) == Range(s.registered)[k..];
    } else if Phase(s).OnceWait? || Phase(s).TermLock? {
      assert Range(0) == [] && Unspawned(s) == Range(s.registered);
    } else {
      assert Unspawned(s) == [] && Range(s.registered)[k..] == [];
    }
  }

  /** At any moment the callbacks passed to OnTerminate are the spawned ones followed by the pending
      ones, in registration order, none twice and none missing. */
  lemma CallbacksPartition(outside: nat, ls: seq<Label>)
    requires Runs(Init(outside), ls)
    ensures Locks(Reached(outside, ls))
    ensures var s := Reached(outside, ls); Callbacks(s.threads) + Unspawned(s) == Range(s.registered)
  {
    ReachedInv(outside, ls);
    PartitionOf(Reached(outside, ls));
  }

  /** Each callback is spawned exactly once if termination completes, whether it was registered
      before, during or after it, and none is spawned while nobody has called Terminate. */
  lemma CallbackExactlyOnce(outside: nat, ls: seq<Label>, c: nat)
    requires Runs(Init(outside), ls)
    ensures var s := Reached(outside, ls);
      && (s.once.Finished? && c < s.registered ==> multiset(Callbacks(s.threads))[c] == 1)
      && (s.once.Idle? ==> Callbacks(s.threads) == [])
      && multiset(Callbacks(s.threads))[c] <= 1
  {
    ReachedInv(outside, ls);
    var s := Reached(outside, ls);
    RangeOnce(SpawnedCallbacks(s), c);
  }

  // ---- Who makes the process finish ----

  /** The action by which a call of Terminate is the first to enter once.Do. */
  predicate EntersOnce(s: State, l: Label) {
    l.Continue? && l.t < |s.threads| && s.threads[l.t].pc.OnceWait? && s.once.Idle?
  }

  lemma OnlyTerminateEntersOnce(s: State, l: Label)
    requires Inv(s) && Enabled(s, l) && s.once.Idle? && !EntersOnce(s, l)
    ensures Step(s, l).once.Idle?
  {
    if l.Continue? { assert ThreadOk(s, l.t); }
  }

  predicate EntersAt(s: State, ls: seq<Label>, i: nat) {
    i < |ls| && Runs(s, ls[..i]) && EntersOnce(Exec(s, ls[..i]), ls[i])
  }

  lemma EntersNow(s: State, ls: seq<Label>)
    requires ls != [] && EntersOnce(s, ls[0])
    ensures EntersAt(s, ls, 0)
  {
    assert ls[..0] == [];
  }

  lemma EntersLater(s: State, ls: seq<Label>, k: nat)
    requires Runs(s, ls) && ls != [] && EntersAt(Step(s, ls[0]), ls[1..], k)
    ensures EntersAt(s, ls, k + 1)
  {
    assert ls[..k + 1][1..] == ls[1..][..k];
    assert ls[..k + 1][0] == ls[0];
  }

  lemma {:induction false} FirstTerminate(s: State, ls: seq<Label>) returns (i: nat)
    requires Inv(s) && Runs(s, ls) && s.once.Idle? && !Exec(s, ls).once.Idle?
    ensures EntersAt(s, ls, i)
    decreases ls
  {
    if EntersOnce(s, ls[0]) {
      i := 0;
      EntersNow(s, ls);
    } else {
      StillIdle(s, ls[0]);
      var k := FirstTerminate(Step(s, ls[0]), ls[1..]);
      i := k + 1;
      EntersLater(s, ls, k);
    }
  }

  lemma StillIdle(s: State, l: Label)
    requires Inv(s) && Enabled(s, l) && s.once.Idle? && !EntersOnce(s, l)
    ensures Inv(Step(s, l)) && Step(s, l).once.Idle?
  {
    StepInv(s, l);
    OnlyTerminateEntersOnce(s, l);
  }

  /** Done closes only in runs in which somebody got into Terminate. */
  lemma DoneNeedsTerminate(outside: nat, ls: seq<Label>)
    requires Runs(Init(outside), ls) && DoneClosed(Reached(outside, ls))
    ensures exists i :: EntersAt(Init(outside), ls, i)
  {
    ReachedInv(outside, ls);
    InitInv(outside);
    var i := FirstTerminate(Init(outside), ls);
  }

  /** A critical job whose goroutine ended after an error has terminated the process. */
  lemma CriticalFailureTerminates(outside: nat, ls: seq<Label>, t: nat)
    requires Runs(Init(outside), ls) && t < |Reached(outside, ls).threads|
    requires CriticalFailure(Reached(outside, ls).threads[t])
    ensures Reached(outside, ls).terminated && Reached(outside, ls).mainReleased
  {
    ReachedInv(outside, ls);
    assert ThreadOk(Reached(outside, ls), t);
  }
}
