/** The serviceJob of lib/process.go: a mutex, a ready flag, an error, and two channels that serve as
    latches. Every method holds the mutex for its whole body, so a concurrent history is a list of
    operations in the order in which they got the mutex. */
module ServiceJobs {
  import opened Common

  type Error = Option<string>

  /** closes counts how often each channel was closed; a second close panics. */
  datatype State = State(ready: bool, err: Error, readyCloses: nat, doneCloses: nat)

  datatype Op = SetReady(ready: bool) | Finish(err: Error)

  const NEW := State(false, None, 0, 0)

  predicate ReadyClosed(s: State) { s.readyCloses > 0 }

  predicate DoneClosed(s: State) { s.doneCloses > 0 }

  /** The select statement that closes readyCh unless it is closed already. */
  function CloseReady(s: State): State {
    if ReadyClosed(s) then s else s.(readyCloses := s.readyCloses + 1)
  }

  function Apply(s: State, op: Op): State {
    match op
    case SetReady(ready) => CloseReady(s).(ready := ready)
    case Finish(err) => CloseReady(s).(err := err, doneCloses := s.doneCloses + 1)
  }

  function History(s: State, ops: seq<Op>): State {
    if ops == [] then s else Apply(History(s, ops[..|ops| - 1]), ops[|ops| - 1])
  }

  function Finishes(ops: seq<Op>): nat {
    if ops == [] then 0 else Finishes(ops[..|ops| - 1]) + (if ops[|ops| - 1].Finish? then 1 else 0)
  }

  /** The last value passed to SetReady, false if there was none. */
  function LastReady(ops: seq<Op>): bool {
    if ops == [] then false
    else if ops[|ops| - 1].SetReady? then ops[|ops| - 1].ready
    else LastReady(ops[..|ops| - 1])
  }

  /** For any order of SetReady calls and the one finish of the job: no channel is closed twice,
      readyCh is closed as soon as anything happened, doneCh exactly when the job finished, and then
      readyCh is closed too. */
  lemma {:induction false} Latches(ops: seq<Op>)
    requires Finishes(ops) <= 1
    ensures var s := History(NEW, ops);
      && s.readyCloses <= 1 && s.doneCloses <= 1
      && (ReadyClosed(s) <==> ops != [])
      && (DoneClosed(s) <==> Finishes(ops) == 1)
      && (DoneClosed(s) ==> ReadyClosed(s))
      && s.ready == LastReady(ops)
  {
    if ops != [] { Latches(ops[..|ops| - 1]); }
  }

  /** The double close is real: it happens exactly when DoJob runs more than once. */
  lemma {:induction false} DoneClosesOncePerRun(ops: seq<Op>)
    ensures History(NEW, ops).doneCloses == Finishes(ops)
  {
    if ops != [] { DoneClosesOncePerRun(ops[..|ops| - 1]); }
  }

  lemma FinishesSplit(ops: seq<Op>, n: nat)
    requires n <= |ops|
    ensures Finishes(ops) == Finishes(ops[..n]) + Finishes(ops[n..])
  {
    if n < |ops| {
      FinishesSplit(ops[..|ops| - 1], n);
      assert ops[..|ops| - 1][..n] == ops[..n];
      assert ops[n..][..|ops| - 1 - n] == ops[..|ops| - 1][n..];
    } else {
      assert ops[..n] == ops;
    }
  }

  /** Once doneCh is closed, the error is that of the finish and never changes again. */
  lemma {:induction false} ErrorIsFixed(ops: seq<Op>, i: nat)
    requires Finishes(ops) <= 1 && i < |ops| && ops[i].Finish?
    ensures History(NEW, ops).err == ops[i].err
    ensures forall n :: i < n <= |ops| ==> History(NEW, ops[..n]).err == ops[i].err && DoneClosed(History(NEW, ops[..n]))
  {
    forall n | i < n <= |ops|
      ensures History(NEW, ops[..n]).err == ops[i].err && DoneClosed(History(NEW, ops[..n]))
    {
      FinishesSplit(ops, n);
      ErrorAfterFinish(ops[..n], i);
    }
    assert ops[..|ops|] == ops;
  }

  lemma {:induction false} ErrorAfterFinish(ops: seq<Op>, i: nat)
    requires Finishes(ops) <= 1 && i < |ops| && ops[i].Finish?
    ensures History(NEW, ops).err == ops[i].err && DoneClosed(History(NEW, ops))
  {
    var n := |ops| - 1;
    if i < n {
      FinishesSplit(ops, n);
      ErrorAfterFinish(ops[..n], i);
      FinishCounted(ops[..n], i);
      assert ops[n..] == [ops[n]] && Finishes([ops[n]]) == 0;
    }
  }

  lemma {:induction false} FinishCounted(ops: seq<Op>, i: nat)
    requires i < |ops| && ops[i].Finish?
    ensures Finishes(ops) >= 1
  {
    if i < |ops| - 1 { FinishCounted(ops[..|ops| - 1], i); }
  }

  /** WaitReady blocks while readyCh is open and the caller's context is alive. */
  predicate Blocked(s: State, cancelled: bool) { !ReadyClosed(s) && !cancelled }

  /** A caller of WaitReady whose context is alive is blocked exactly until the first operation of any
      kind, SetReady or finish; what it reads then is the last value passed to SetReady. */
  lemma {:induction false} WaitReadyReturns(ops: seq<Op>, cancelled: bool)
    ensures Blocked(History(NEW, ops), cancelled) <==> ops == [] && !cancelled
    ensures History(NEW, ops).ready == LastReady(ops)
  {
    if ops != [] { WaitReadyReturns(ops[..|ops| - 1], cancelled); }
  }

  class ServiceJob {
    var ready: bool
    var err: Error
    var readyCh: nat
    var doneCh: nat

    ghost function Snapshot(): State
      reads this
    {
      State(ready, err, readyCh, doneCh)
    }

    constructor ()
      ensures Snapshot() == NEW
    {
      ready, err, readyCh, doneCh := false, None, 0, 0;
    }

    /** Runs once, when the job function has returned. */
    method Finish(e: Error)
      requires doneCh == 0
      modifies this
      ensures Snapshot() == Apply(old(Snapshot()), Op.Finish(e))
    {
      if readyCh == 0 { readyCh := readyCh + 1; }
      err := e;
      doneCh := doneCh + 1;
    }

    method SetReady(isReady: bool)
      modifies this
      ensures Snapshot() == Apply(old(Snapshot()), Op.SetReady(isReady))
    {
      ready := isReady;
      if readyCh == 0 { readyCh := readyCh + 1; }
    }

    /** Returns the flag once readyCh is closed, or gives up when the context is cancelled. With both
        at hand the select statement may take either. */
    method WaitReady(cancelled: bool, preferReady: bool) returns (r: Result<bool, string>)
      requires !Blocked(Snapshot(), cancelled)
      ensures r.Ok? ==> r.value == ready && ReadyClosed(Snapshot())
      ensures r.Err? ==> cancelled
      ensures !cancelled ==> r == Ok(ready)
    {
      if readyCh > 0 && (preferReady || !cancelled) { return Ok(ready); }
      return Err("context cancelled");
    }
  }
}
