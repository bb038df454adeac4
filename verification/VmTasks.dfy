/** `execVmTasks`: tasks run side by side on one VM, and the first to fail cancels those that are not
    finished. Every task writes its status to the database as it goes. */
module VmTasks {
  import opened Wrappers

  datatype Status = Pending | Running | Success | Cancelled | Error

  datatype Phase =
    | Starting
    | Executing
    | Succeeding                 // the command exited well, success is still to be written
    | SuccessWritten             // written, not yet acknowledged
    | Fulfilled
    | Recording                  // in the handler, with the final status still to be written
    | Rejected(recorded: bool)

  // ---------- The flags and their handler ----------

  datatype Flags = Flags(cleanupStarted: bool, finished: seq<bool>, cancelled: seq<bool>)

  predicate Wellformed(f: Flags, n: nat) {
    |f.finished| == n && |f.cancelled| == n
  }

  /** What a failure leaves: only the first one decides who is cancelled, namely
      everybody who has not finished, which the failing task itself has. */
  function AfterFailure(f: Flags, i: nat): (r: Flags)
    requires Wellformed(f, |f.finished|) && i < |f.finished|
    ensures Wellformed(r, |f.finished|) && r.cleanupStarted && r.finished[i]
    ensures !f.cleanupStarted ==> !r.cancelled[i]
  {
    var finished := f.finished[i := true];
    Flags(true, finished, if f.cleanupStarted then f.cancelled else seq(|finished|, k requires 0 <= k < |finished| => !finished[k]))
  }

  class TaskFlags {
    var cleanupStarted: bool
    const finished: array<bool>
    const cancelled: array<bool>

    ghost predicate Valid()
      reads this
    {
      finished.Length == cancelled.Length && finished != cancelled
    }

    ghost function Value(): Flags
      reads this, finished, cancelled
    {
      Flags(cleanupStarted, finished[..], cancelled[..])
    }

    constructor (n: nat)
      ensures Valid() && fresh(finished) && fresh(cancelled) && finished.Length == n
      ensures Value() == Flags(false, seq(n, _ => false), seq(n, _ => false))
    {
      cleanupStarted := false;
      finished := new bool[n](_ => false);
      cancelled := new bool[n](_ => false);
    }

    method Finish(i: nat)
      requires Valid() && i < finished.Length
      modifies finished
      ensures Valid() && Value() == old(Value()).(finished := old(finished[..])[i := true])
    {
      finished[i] := true;
    }

    method Fail(i: nat)
      requires Valid() && i < finished.Length
      modifies this, finished, cancelled
      ensures Valid() && Value() == AfterFailure(old(Value()), i)
    {
      finished[i] := true;
      if !cleanupStarted {
        cleanupStarted := true;
        for idx := 0 to finished.Length
          invariant cleanupStarted && finished[..] == old(finished[..])[i := true]
          invariant forall k | 0 <= k < idx :: cancelled[k] == !finished[k]
        {
          cancelled[idx] := !finished[idx];
        }
      }
    }
  }

  // ---------- The tasks together ----------

  /** `first` is history: the task whose failure was handled first. */
  datatype State = State(phases: seq<Phase>, stored: seq<Status>, flags: Flags, first: Option<nat>)

  /** A failing step leaves the database as it was. */
  datatype Step =
    | WriteRunning(i: nat)
    | Exit(i: nat)
    | WriteSuccess(i: nat)
    | Resolve(i: nat)
    | Fail(i: nat)
    | Record(i: nat, written: bool)

  ghost predicate Shaped(s: State) {
    |s.stored| == |s.phases| && Wellformed(s.flags, |s.phases|)
  }

  ghost predicate Enabled(s: State, st: Step) {
    && Shaped(s) && st.i < |s.phases|
    && var phase := s.phases[st.i];
    match st
    case WriteRunning(_) => phase.Starting?
    case Exit(_) => phase.Executing?
    case WriteSuccess(_) => phase.Succeeding?
    case Resolve(_) => phase.SuccessWritten?
    case Fail(_) => phase.Starting? || phase.Executing? || phase.Succeeding?
    case Record(_, _) => phase.Recording?
  }

  /** The status that a rejected task returns, and writes. */
  function FailedAs(f: Flags, i: nat): Status
    requires i < |f.cancelled|
  {
    if f.cancelled[i] then Cancelled else Error
  }

  ghost function Apply(s: State, st: Step): State
    requires Enabled(s, st)
  {
    match st
    case WriteRunning(i) => s.(phases := s.phases[i := Executing], stored := s.stored[i := Running])
    case Exit(i) => s.(phases := s.phases[i := Succeeding])
    case WriteSuccess(i) => s.(phases := s.phases[i := SuccessWritten], stored := s.stored[i := Status.Success])
    case Resolve(i) =>
      s.(phases := s.phases[i := Fulfilled], flags := s.flags.(finished := s.flags.finished[i := true]))
    case Fail(i) =>
      s.(phases := s.phases[i := Recording], flags := AfterFailure(s.flags, i),
        first := if s.flags.cleanupStarted then s.first else Some(i))
    case Record(i, written) =>
      s.(phases := s.phases[i := Rejected(written)],
        stored := if written then s.stored[i := FailedAs(s.flags, i)] else s.stored)
  }

  ghost predicate Start(s: State) {
    && Shaped(s) && !s.flags.cleanupStarted && s.first == None
    && forall i | 0 <= i < |s.phases| :: s.phases[i] == Starting && !s.flags.finished[i] && !s.flags.cancelled[i]
  }

  ghost predicate Run(states: seq<State>, steps: seq<Step>) {
    && |states| == |steps| + 1 && Start(states[0])
    && forall k | 0 <= k < |steps| :: Enabled(states[k], steps[k]) && states[k + 1] == Apply(states[k], steps[k])
  }

  predicate Failed(phase: Phase) {
    phase.Recording? || phase.Rejected?
  }

  ghost predicate TaskOk(s: State, i: nat)
    requires Shaped(s) && i < |s.phases|
  {
    var phase := s.phases[i];
    && (s.flags.finished[i] <==> phase.Fulfilled? || Failed(phase))
    && (phase.SuccessWritten? || phase.Fulfilled? ==> s.stored[i] == Status.Success)
    && (phase.Rejected? && phase.recorded ==> s.stored[i] == FailedAs(s.flags, i))
    && (Failed(phase) ==> s.first.Some? && (s.flags.cancelled[i] <==> s.first != Some(i)))
  }

  ghost predicate Inv(s: State) {
    && Shaped(s)
    && (s.flags.cleanupStarted <==> s.first.Some?)
    && (s.first.Some? ==> s.first.value < |s.phases| && Failed(s.phases[s.first.value]))
    && (forall i | 0 <= i < |s.phases| :: TaskOk(s, i))
    && (s.first.Some? ==> forall i | 0 <= i < |s.phases| && !s.flags.finished[i] :: s.flags.cancelled[i])
  }

  lemma StepKeeps(s: State, st: Step)
    requires Inv(s) && Enabled(s, st)
    ensures Inv(Apply(s, st))
  {
    var s' := Apply(s, st);
    forall i | 0 <= i < |s'.phases| ensures TaskOk(s', i) {
      assert TaskOk(s, i);
    }
  }

  lemma {:induction false} RunKeeps(states: seq<State>, steps: seq<Step>, k: nat)
    requires Run(states, steps) && k < |states|
    ensures Inv(states[k]) && |states[k].phases| == |states[0].phases|
  {
    if k == 0 {
      forall i | 0 <= i < |states[0].phases| ensures TaskOk(states[0], i) {
        assert states[0].phases[i] == Starting;
      }
    } else {
      RunKeeps(states, steps, k - 1);
      assert Enabled(states[k - 1], steps[k - 1]);
      StepKeeps(states[k - 1], steps[k - 1]);
    }
  }

  // ---------- The result ----------

  ghost predicate Settled(s: State) {
    Shaped(s) && forall i | 0 <= i < |s.phases| :: s.phases[i].Fulfilled? || s.phases[i].Rejected?
  }

  ghost function Results(s: State): (r: seq<Status>)
    requires Settled(s)
    ensures |r| == |s.phases|
  {
    seq(|s.phases|, i requires 0 <= i < |s.phases| => if s.phases[i].Fulfilled? then Status.Success else FailedAs(s.flags, i))
  }

  /** `prebuild` commits its images. */
  predicate Commits(results: seq<Status>) {
    forall r | r in results :: r == Status.Success
  }

  /** `runPrebuild` records the prebuild as failed. */
  predicate RecordedAsError(results: seq<Status>) {
    Error in results
  }

  /** The returned status is the stored one, wherever the last write of the task went through. */
  lemma ReturnedIsStored(states: seq<State>, steps: seq<Step>, i: nat)
    requires Run(states, steps) && Settled(states[|steps|]) && i < |states[|steps|].phases|
    ensures var s := states[|steps|];
            (s.phases[i].Rejected? ==> s.phases[i].recorded) ==> Results(s)[i] == s.stored[i]
  {
    RunKeeps(states, steps, |steps|);
    assert TaskOk(states[|steps|], i);
  }

  /** At most one task ends in error; one does exactly when some task did not succeed. */
  lemma OneErrorUnlessAllSucceed(states: seq<State>, steps: seq<Step>)
    requires Run(states, steps) && Settled(states[|steps|])
    ensures var r := Results(states[|steps|]);
            && (forall i, j | 0 <= i < |r| && 0 <= j < |r| && r[i] == Error && r[j] == Error :: i == j)
            && (Error in r <==> exists i :: 0 <= i < |r| && r[i] != Status.Success)
  {
    RunKeeps(states, steps, |steps|);
    var s := states[|steps|];
    var r := Results(s);
    forall i | 0 <= i < |r| ensures r[i] == Error <==> s.first == Some(i) {
      assert TaskOk(s, i);
    }
    if i :| 0 <= i < |r| && r[i] != Status.Success {
      assert TaskOk(s, i);
      assert r[s.first.value] == Error;
    }
  }

  /** Two different tests, one meaning: the prebuild is recorded as a success exactly
      when its images were committed. */
  lemma SuccessIffCommitted(states: seq<State>, steps: seq<Step>)
    requires Run(states, steps) && Settled(states[|steps|])
    ensures !RecordedAsError(Results(states[|steps|])) <==> Commits(Results(states[|steps|]))
  {
    OneErrorUnlessAllSucceed(states, steps);
  }

  lemma {:induction false} FirstFailure(states: seq<State>, steps: seq<Step>, k: nat) returns (m: nat)
    requires Run(states, steps) && k < |states| && states[k].first.Some?
    ensures m < k && steps[m] == Fail(states[k].first.value) && states[m].first == None
    ensures Inv(states[m]) && states[m + 1].flags.cancelled == states[k].flags.cancelled
    ensures |states[m].phases| == |states[k].phases|
  {
    RunKeeps(states, steps, k - 1);
    RunKeeps(states, steps, k);
    assert Enabled(states[k - 1], steps[k - 1]);
    if states[k - 1].first == None {
      m := k - 1;
    } else {
      m := FirstFailure(states, steps, k - 1);
    }
  }

  /** A task is returned as cancelled only if it was unfinished when the first failure was
      handled, and that failure was another task's. */
  lemma CancelledWereUnfinished(states: seq<State>, steps: seq<Step>, i: nat) returns (m: nat)
    requires Run(states, steps) && Settled(states[|steps|]) && i < |states[|steps|].phases|
    requires Results(states[|steps|])[i] == Cancelled
    ensures m < |steps| && steps[m].Fail? && steps[m].i != i
    ensures forall k | 0 <= k < m :: !steps[k].Fail?
    ensures i < |states[m].phases| && !states[m].flags.finished[i]
  {
    RunKeeps(states, steps, |steps|);
    assert TaskOk(states[|steps|], i);
    m := FirstFailure(states, steps, |steps|);
    NoFailureBefore(states, steps, m);
    assert states[m + 1] == Apply(states[m], steps[m]);
  }

  lemma {:induction false} NoFailureBefore(states: seq<State>, steps: seq<Step>, m: nat)
    requires Run(states, steps) && m < |states| && states[m].first == None
    ensures forall k | 0 <= k < m :: !steps[k].Fail?
  {
    if m > 0 {
      RunKeeps(states, steps, m - 1);
      assert Enabled(states[m - 1], steps[m - 1]);
      NoFailureBefore(states, steps, m - 1);
    }
  }
}
