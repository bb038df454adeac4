/** Whole runs of the shared workflow: signals keep arriving while the child runs and while
    the waiters are being released. */
module SharedWorkflowRuns {
  import opened Wrappers
  import opened SharedWorkflow

  datatype Outcome = ChildResult(value: string) | ChildCancelled | ChildNotStarted

  datatype Phase = Running | Draining | Sending | Done

  /** The rest is history: the signals received, the queue on which the trigger fired first, the ids
      in the order they entered the queue, the entries taken off it, and what was sent to whom. */
  datatype State = State(
    shared: Shared,
    phase: Phase,
    result: Option<Outcome>,
    log: seq<Request>,
    firedOn: Option<seq<Request>>,
    registered: seq<string>,
    drained: seq<Request>,
    sent: seq<(string, Outcome)>)

  datatype Step =
    | Signal(req: Request)
    | ChildEnds(outcome: Outcome)
    | CancelChild
    | DrainNext
    | SendReturns
    | Finish

  predicate Enabled(s: State, st: Step) {
    match st
    case Signal(_) => s.phase != Done
    case ChildEnds(o) => s.phase == Running && !o.ChildCancelled?
    case CancelChild => s.phase == Running && s.shared.triggered
    case DrainNext => s.phase == Draining && s.result.Some? && s.shared.requests != []
    case SendReturns => s.phase == Sending
    case Finish => s.phase == Draining && s.shared.requests == []
  }

  function Apply(s: State, st: Step, guard: Guard): State
    requires Enabled(s, st)
  {
    match st
    case Signal(req) =>
      var shared := OnSignal(s.shared, req, guard);
      s.(shared := shared, log := s.log + [req],
         firedOn := if s.firedOn == None && shared.triggered then Some(shared.requests) else s.firedOn,
         registered := s.registered + if Holds(s.shared.requests, req.id) then [] else [req.id])
    case ChildEnds(o) => s.(phase := Draining, result := Some(o))
    case CancelChild => s.(phase := Draining, result := Some(ChildCancelled))
    case DrainNext =>
      var req := s.shared.requests[0];
      var next := s.(shared := s.shared.(requests := s.shared.requests[1..]), drained := s.drained + [req]);
      if req.kind == Cancel then next
      else next.(phase := Sending, sent := s.sent + [(req.id, s.result.value)])
    case SendReturns => s.(phase := Draining)
    case Finish => s.(phase := Done)
  }

  const START := State(Shared([], 0, false), Running, None, [], None, [], [], [])

  ghost predicate Run(states: seq<State>, steps: seq<Step>, guard: Guard) {
    && |states| == |steps| + 1
    && states[0] == START
    && (forall i | 0 <= i < |steps| :: Enabled(states[i], steps[i]) && states[i + 1] == Apply(states[i], steps[i], guard))
  }

  // ---------- When the child is cancelled ----------

  /** The signals for which the counter can be trusted. */
  ghost predicate Trusted(log: seq<Request>, guard: Guard) {
    guard == Meant || (ProperIds(log) && NothingAfterCancel(log))
  }

  lemma TrustedCounter(log: seq<Request>, guard: Guard)
    requires Trusted(log, guard)
    ensures After(log, guard).cancelled == Cancels(After(log, guard).requests)
  {
    if guard == Meant {
      MeantCounterIsRight(log);
    } else {
      WrittenCounterIsRight(log);
    }
  }

  ghost predicate FiringOk(s: State, guard: Guard) {
    && (s.phase == Running ==>
          s.shared == After(s.log, guard) && (s.shared.triggered <==> s.firedOn.Some?) && s.firedOn == FiredOn(s.log, guard))
    && (s.phase == Running && s.firedOn.Some? && Trusted(s.log, guard) ==> AllCancelled(s.firedOn.value))
    && (s.result == Some(ChildCancelled) && Trusted(s.log, guard) ==>
          s.firedOn.Some? && s.firedOn.value != [] && AllCancelled(s.firedOn.value))
    && (s.firedOn.Some? ==> s.firedOn.value != [])
    && (s.phase == Running <==> s.result == None)
  }

  lemma FiringStep(s: State, st: Step, guard: Guard)
    requires FiringOk(s, guard) && Enabled(s, st)
    ensures FiringOk(Apply(s, st, guard), guard)
  {
    if st.Signal? {
      var s' := Apply(s, st, guard);
      assert Earlier(s'.log) == s.log;
      assert Trusted(s'.log, guard) ==> Trusted(s.log, guard) by {
        assert forall i | 0 <= i < |s.log| :: s'.log[i] == s.log[i];
      }
      if s.phase == Running && s.firedOn == None && Trusted(s'.log, guard) {
        assert s'.shared == After(s'.log, guard);
        TrustedCounter(s'.log, guard);
        CountIsFull(s'.shared.requests);
      }
    }
  }

  lemma {:induction false} FiringInvariant(states: seq<State>, steps: seq<Step>, guard: Guard, i: nat)
    requires Run(states, steps, guard) && i < |states|
    ensures FiringOk(states[i], guard)
  {
    if i > 0 {
      FiringInvariant(states, steps, guard, i - 1);
      assert Enabled(states[i - 1], steps[i - 1]);
      FiringStep(states[i - 1], steps[i - 1], guard);
    }
  }

  /** The child is cancelled only if every request was CANCEL when the trigger fired: with the
      guard that is meant after any signals, with the one that is written if no id signals
      anything after a CANCEL. */
  lemma CancelledOnlyWhenNobodyWaits(states: seq<State>, steps: seq<Step>, guard: Guard, i: nat)
    requires Run(states, steps, guard) && i < |states|
    requires states[i].result == Some(ChildCancelled) && Trusted(states[i].log, guard)
    ensures states[i].firedOn.Some? && states[i].firedOn.value != [] && AllCancelled(states[i].firedOn.value)
  {
    FiringInvariant(states, steps, guard, i);
  }

  /** With the guard as it is written the child is cancelled while somebody waits if and only if the
      first time that as many CANCEL signals were superseded as ids still waited, somebody did wait. */
  lemma CancelledWhileSomebodyWaits(states: seq<State>, steps: seq<Step>, i: nat)
    requires Run(states, steps, Written) && i < |steps| && steps[i].CancelChild? && ProperIds(states[i].log)
    ensures states[i].firedOn.Some?
    ensures !AllCancelled(states[i].firedOn.value) <==> exists n :: EarlyAt(states[i].log, n)
  {
    FiringInvariant(states, steps, Written, i);
    assert Enabled(states[i], steps[i]);
    WrittenFiresTooEarly(states[i].log);
  }

  // ---------- What is drained and sent, after any signals ----------

  function SentTo(sent: seq<(string, Outcome)>): seq<string> {
    seq(|sent|, i requires 0 <= i < |sent| => sent[i].0)
  }

  ghost predicate QueueOk(s: State) {
    && DistinctIds(s.shared.requests)
    && s.registered == Ids(s.drained) + Ids(s.shared.requests)
    && SentTo(s.sent) == WaitersOf(s.drained)
    && (forall k | 0 <= k < |s.sent| :: s.result == Some(s.sent[k].1))
    && (s.phase == Done ==> s.shared.requests == [])
    && (s.phase == Running <==> s.result == None)
  }

  lemma DistinctAfterSignal(s: Shared, req: Request, guard: Guard)
    requires DistinctIds(s.requests)
    ensures DistinctIds(OnSignal(s, req, guard).requests)
  {
    EntryAfterUpdate(s.requests, req, "");
  }

  lemma IdsAfterSignal(s: Shared, req: Request, guard: Guard)
    ensures Ids(OnSignal(s, req, guard).requests) == Ids(s.requests) + if Holds(s.requests, req.id) then [] else [req.id]
  {
    var requests := OnSignal(s, req, guard).requests;
    if Holds(s.requests, req.id) {
      assert Ids(requests) == Ids(s.requests);
    } else {
      assert Ids(requests) == Ids(s.requests) + [req.id];
    }
  }

  lemma SignalKeepsQueue(s: State, req: Request, guard: Guard)
    requires s.phase != Done && QueueOk(s)
    ensures QueueOk(Apply(s, Signal(req), guard))
  {
    DistinctAfterSignal(s.shared, req, guard);
    IdsAfterSignal(s.shared, req, guard);
  }

  lemma IdsOfShift(drained: seq<Request>, requests: seq<Request>)
    requires requests != []
    ensures Ids(drained + [requests[0]]) + Ids(requests[1..]) == Ids(drained) + Ids(requests)
  {
    assert Ids(requests) == [requests[0].id] + Ids(requests[1..]);
    assert Ids(drained + [requests[0]]) == Ids(drained) + [requests[0].id];
  }

  lemma SentToMore(sent: seq<(string, Outcome)>, id: string, o: Outcome)
    ensures SentTo(sent + [(id, o)]) == SentTo(sent) + [id]
  {
  }

  lemma DrainKeepsQueue(s: State, guard: Guard)
    requires Enabled(s, DrainNext) && QueueOk(s)
    ensures QueueOk(Apply(s, DrainNext, guard))
  {
    var req := s.shared.requests[0];
    WaitersOfMore(s.drained, req);
    IdsOfShift(s.drained, s.shared.requests);
    SentToMore(s.sent, req.id, s.result.value);
  }

  lemma {:induction false} QueueInvariant(states: seq<State>, steps: seq<Step>, guard: Guard, i: nat)
    requires Run(states, steps, guard) && i < |states|
    ensures QueueOk(states[i])
  {
    if i > 0 {
      QueueInvariant(states, steps, guard, i - 1);
      assert Enabled(states[i - 1], steps[i - 1]);
      match steps[i - 1]
      case Signal(req) => SignalKeepsQueue(states[i - 1], req, guard);
      case DrainNext => DrainKeepsQueue(states[i - 1], guard);
      case _ =>
    }
  }

  /** Whatever is signalled, with either guard: ids are drained in the order in which they entered the queue, each
      entry once; the one result is sent once for every entry drained as WAIT, in that order, and for
      none drained as CANCEL; and at the end nothing is left in the queue. */
  lemma DrainedWaitersAreReleased(states: seq<State>, steps: seq<Step>, guard: Guard, i: nat)
    requires Run(states, steps, guard) && i < |states|
    ensures states[i].registered == Ids(states[i].drained) + Ids(states[i].shared.requests)
    ensures SentTo(states[i].sent) == WaitersOf(states[i].drained)
    ensures forall k | 0 <= k < |states[i].sent| :: states[i].result == Some(states[i].sent[k].1)
    ensures states[i].phase == Done ==> states[i].result.Some? && states[i].registered == Ids(states[i].drained)
  {
    QueueInvariant(states, steps, guard, i);
    assert Ids([]) == [];
  }

  // ---------- What an entry says about the signals of its id ----------

  /** Entries repeat what was signalled, and every id that signalled entered the queue. */
  ghost predicate EntriesOk(s: State) {
    && (forall e | e in s.shared.requests || e in s.drained :: e in s.log)
    && (forall e | e in s.log :: e.id in s.registered)
  }

  lemma SignalKeepsEntries(s: State, req: Request, guard: Guard)
    requires s.phase != Done && QueueOk(s) && EntriesOk(s)
    ensures EntriesOk(Apply(s, Signal(req), guard))
  {
    if Holds(s.shared.requests, req.id) {
      var k := FindIndex(s.shared.requests, req.id);
      assert s.registered[|s.drained| + k] == req.id;
    }
  }

  lemma {:induction false} EntriesInvariant(states: seq<State>, steps: seq<Step>, guard: Guard, i: nat)
    requires Run(states, steps, guard) && i < |states|
    ensures EntriesOk(states[i])
  {
    if i > 0 {
      EntriesInvariant(states, steps, guard, i - 1);
      QueueInvariant(states, steps, guard, i - 1);
      assert Enabled(states[i - 1], steps[i - 1]);
      if steps[i - 1].Signal? {
        SignalKeepsEntries(states[i - 1], steps[i - 1].req, guard);
      }
    }
  }

  /** How often a waiter is sent the result, if all entries drained for its id wait. */
  lemma {:induction false} SentAsOftenAsDrained(entries: seq<Request>, id: string)
    requires forall e | e in entries && e.id == id :: e.kind == Wait
    ensures multiset(WaitersOf(entries))[id] == multiset(Ids(entries))[id]
  {
    if entries == [] {
      assert Ids(entries) == [];
    } else {
      var front, last := entries[..|entries| - 1], entries[|entries| - 1];
      SentAsOftenAsDrained(front, id);
      assert Ids(entries) == Ids(front) + [last.id];
      assert last in entries;
    }
  }

  /** With either guard, and whatever others signal: an id that signalled, and never signalled anything but WAIT, has been
      sent the result at the end exactly as often as it entered the queue, which is at least once. */
  lemma SteadyWaiterIsReleased(states: seq<State>, steps: seq<Step>, guard: Guard, i: nat, id: string)
    requires Run(states, steps, guard) && i < |states| && states[i].phase == Done
    requires Request(id, Wait) in states[i].log && Request(id, Cancel) !in states[i].log
    ensures multiset(SentTo(states[i].sent))[id] == multiset(states[i].registered)[id] >= 1
  {
    DrainedWaitersAreReleased(states, steps, guard, i);
    EntriesInvariant(states, steps, guard, i);
    SentAsOftenAsDrained(states[i].drained, id);
    assert id in states[i].registered;
  }

  // ---------- The last word of an id ----------

  /** The ids whose signals the guard treats as it should: all of them, or all that are uuids. */
  predicate Treated(guard: Guard, id: string) {
    guard == Meant || id != "cancel"
  }

  /** An entry that waits repeats the last word of its id. */
  ghost predicate LastWordOk(s: State, id: string) {
    Entry(s.shared.requests, id) == Some(Wait) ==> Latest(s.log, id) == Some(Wait)
  }

  /** What a signal does to the entry of an id. */
  lemma EntryAfterSignal(s: State, req: Request, guard: Guard, id: string)
    requires s.phase != Done && DistinctIds(s.shared.requests)
    ensures var s' := Apply(s, Signal(req), guard);
            && Latest(s'.log, id) == (if id == req.id then Some(req.kind) else Latest(s.log, id))
            && (id != req.id ==> Entry(s'.shared.requests, id) == Entry(s.shared.requests, id))
            && (id == req.id && !(guard == Meant && Entry(s.shared.requests, id) == Some(Cancel)) && Treated(guard, id) ==>
                  Entry(s'.shared.requests, id) == Some(req.kind))
            && (id == req.id && guard == Meant && Entry(s.shared.requests, id) == Some(Cancel) ==>
                  Entry(s'.shared.requests, id) == Some(Cancel))
  {
    EntryAfterUpdate(s.shared.requests, req, id);
    assert Earlier(s.log + [req]) == s.log;
  }

  /** Taking the first entry off the queue removes the entry of its id and no other. */
  lemma EntryAfterShift(requests: seq<Request>, id: string)
    requires requests != [] && DistinctIds(requests)
    ensures DistinctIds(requests[1..])
    ensures Entry(requests, requests[0].id) == Some(requests[0].kind)
    ensures Entry(requests[1..], id) == if id == requests[0].id then None else Entry(requests, id)
  {
    var k := FindIndex(requests[1..], id);
    if k >= 0 {
      assert requests[k + 1] == requests[1..][k];
    }
  }

  lemma {:induction false} LastWordInvariant(states: seq<State>, steps: seq<Step>, guard: Guard, i: nat, id: string)
    requires Run(states, steps, guard) && i < |states| && Treated(guard, id)
    ensures LastWordOk(states[i], id)
  {
    if i > 0 {
      var s, st := states[i - 1], steps[i - 1];
      LastWordInvariant(states, steps, guard, i - 1, id);
      QueueInvariant(states, steps, guard, i - 1);
      assert Enabled(s, st);
      LastWordStep(s, st, guard, id);
    }
  }

  lemma LastWordAfterSignal(s: State, req: Request, guard: Guard, id: string)
    requires s.phase != Done && DistinctIds(s.shared.requests) && LastWordOk(s, id) && Treated(guard, id)
    ensures LastWordOk(Apply(s, Signal(req), guard), id)
  {
    EntryAfterSignal(s, req, guard, id);
  }

  lemma LastWordStep(s: State, st: Step, guard: Guard, id: string)
    requires Enabled(s, st) && QueueOk(s) && LastWordOk(s, id) && Treated(guard, id)
    ensures LastWordOk(Apply(s, st, guard), id)
  {
    match st
    case Signal(req) => LastWordAfterSignal(s, req, guard, id);
    case DrainNext => EntryAfterShift(s.shared.requests, id);
    case _ =>
  }

  /** The result is never sent to an id whose last word is CANCEL, whatever it and others signalled. */
  lemma NoResultAfterCancel(states: seq<State>, steps: seq<Step>, guard: Guard, i: nat)
    requires Run(states, steps, guard) && i < |steps|
    requires |states[i + 1].sent| > |states[i].sent|
    ensures states[i + 1].sent == states[i].sent + [states[i + 1].sent[|states[i].sent|]]
    ensures var id := states[i + 1].sent[|states[i].sent|].0;
            Treated(guard, id) ==> Latest(states[i].log, id) == Some(Wait)
  {
    QueueInvariant(states, steps, guard, i);
    assert Enabled(states[i], steps[i]);
    if steps[i].DrainNext? {
      var req := states[i].shared.requests[0];
      EntryAfterShift(states[i].shared.requests, req.id);
      if Treated(guard, req.id) {
        LastWordInvariant(states, steps, guard, i, req.id);
      }
    }
  }

  // ---------- An id that waits once and cancels at most once ----------

  /** The id signals at most one WAIT, and then at most one CANCEL; others may signal anything. */
  ghost predicate OrderlyFor(log: seq<Request>, id: string) {
    forall i, j | 0 <= i < j < |log| && log[i].id == log[j].id == id :: log[i].kind == Wait && log[j].kind == Cancel
  }

  ghost predicate WasSent(s: State, id: string) {
    exists i :: 0 <= i < |s.sent| && s.sent[i].0 == id
  }

  ghost predicate SentOnce(s: State, id: string) {
    exists i :: 0 <= i < |s.sent| && s.sent[i].0 == id && forall j | 0 <= j < |s.sent| && s.sent[j].0 == id :: j == i
  }

  /** Where an id is, given the last thing it signalled. */
  ghost predicate Placed(s: State, id: string) {
    match Latest(s.log, id)
    case None => Entry(s.shared.requests, id) == None && !WasSent(s, id)
    case Some(Wait) =>
      (Entry(s.shared.requests, id) == Some(Wait) && !WasSent(s, id)) || (Entry(s.shared.requests, id) == None && SentOnce(s, id))
    case Some(Cancel) => Entry(s.shared.requests, id) != Some(Wait) && (WasSent(s, id) ==> SentOnce(s, id))
  }

  lemma OrderlyBefore(log: seq<Request>, req: Request, id: string)
    requires OrderlyFor(log + [req], id)
    ensures OrderlyFor(log, id)
    ensures req.id == id && Latest(log, id).Some? ==> Latest(log, id) == Some(Wait) && req.kind == Cancel
  {
    var all := log + [req];
    assert forall i | 0 <= i < |log| :: all[i] == log[i];
    if req.id == id && Latest(log, id).Some? {
      var i := LatestOccurs(log, id);
      assert all[i].id == all[|log|].id;
    }
  }

  lemma SignalKeepsPlaced(s: State, req: Request, guard: Guard, id: string)
    requires s.phase != Done && QueueOk(s) && Placed(s, id) && Treated(guard, id) && OrderlyFor(s.log + [req], id)
    ensures Placed(Apply(s, Signal(req), guard), id)
  {
    OrderlyBefore(s.log, req, id);
    EntryAfterSignal(s, req, guard, id);
    SendingElsewhere(s, Apply(s, Signal(req), guard), id);
  }

  lemma DrainKeepsPlaced(s: State, guard: Guard, id: string)
    requires Enabled(s, DrainNext) && QueueOk(s) && Placed(s, id)
    ensures Placed(Apply(s, DrainNext, guard), id)
  {
    var s' := Apply(s, DrainNext, guard);
    var req := s.shared.requests[0];
    EntryAfterShift(s.shared.requests, id);
    if id == req.id && req.kind == Wait {
      assert s'.sent[|s.sent|].0 == id;
      assert !WasSent(s, id) && forall j | 0 <= j < |s.sent| :: s'.sent[j] == s.sent[j] && s.sent[j].0 != id;
      assert SentOnce(s', id);
    } else {
      SendingElsewhere(s, s', id);
    }
  }

  /** Sending to one waiter leaves what was sent to others as it was. */
  lemma SendingElsewhere(s: State, s': State, id: string)
    requires s.sent <= s'.sent && forall j | |s.sent| <= j < |s'.sent| :: s'.sent[j].0 != id
    ensures WasSent(s', id) == WasSent(s, id)
    ensures SentOnce(s, id) ==> SentOnce(s', id)
  {
    if WasSent(s, id) {
      var i :| 0 <= i < |s.sent| && s.sent[i].0 == id;
      assert s'.sent[i].0 == id;
    }
    if SentOnce(s, id) {
      var i :| 0 <= i < |s.sent| && s.sent[i].0 == id && forall j | 0 <= j < |s.sent| && s.sent[j].0 == id :: j == i;
      assert s'.sent[i].0 == id;
    }
  }

  lemma {:induction false} PlacedInvariant(states: seq<State>, steps: seq<Step>, guard: Guard, i: nat, id: string)
    requires Run(states, steps, guard) && i < |states| && Treated(guard, id) && OrderlyFor(states[i].log, id)
    ensures Placed(states[i], id)
  {
    if i > 0 {
      var s, st := states[i - 1], steps[i - 1];
      assert Enabled(s, st);
      if st.Signal? {
        OrderlyBefore(s.log, st.req, id);
      }
      PlacedInvariant(states, steps, guard, i - 1, id);
      QueueInvariant(states, steps, guard, i - 1);
      match st
      case Signal(req) => SignalKeepsPlaced(s, req, guard, id);
      case DrainNext => DrainKeepsPlaced(s, guard, id);
      case _ => SendingElsewhere(s, states[i], id);
    }
  }

  /** When the workflow is done, a waiter that waited once and did not cancel was sent the one result exactly once, and one that
      cancelled at most once; only its own signals have to be in order, and it may have arrived while others were being released. */
  lemma EveryWaiterIsReleasedOnce(states: seq<State>, steps: seq<Step>, guard: Guard, i: nat, id: string)
    requires Run(states, steps, guard) && i < |states| && states[i].phase == Done
    requires Treated(guard, id) && OrderlyFor(states[i].log, id)
    ensures Latest(states[i].log, id) == Some(Wait) ==> SentOnce(states[i], id)
    ensures WasSent(states[i], id) ==> SentOnce(states[i], id) && Latest(states[i].log, id).Some?
    ensures states[i].result.Some?
    ensures forall k | 0 <= k < |states[i].sent| :: states[i].sent[k].1 == states[i].result.value
  {
    PlacedInvariant(states, steps, guard, i, id);
    QueueInvariant(states, steps, guard, i);
  }

  // ---------- The workflow ends ----------

  function Steps2Go(s: State): nat {
    2 * |s.shared.requests| + if s.phase == Sending then 1 else 0
  }

  /** When the child has ended and no more signals come, the queue is emptied and the workflow is done. */
  lemma {:induction false} DrainFinishes(states0: seq<State>, steps0: seq<Step>, guard: Guard) returns (states: seq<State>, steps: seq<Step>)
    requires Run(states0, steps0, guard) && (states0[|steps0|].phase == Draining || states0[|steps0|].phase == Sending)
    ensures Run(states, steps, guard) && states0 <= states && steps0 <= steps
    ensures var (s, n) := (states0[|steps0|], states[|steps|]);
            n.phase == Done && n.result == s.result && n.log == s.log && n.drained == s.drained + s.shared.requests
    decreases Steps2Go(states0[|steps0|])
  {
    var s := states0[|steps0|];
    QueueInvariant(states0, steps0, guard, |steps0|);
    var st := if s.phase == Sending then SendReturns else if s.shared.requests == [] then Finish else DrainNext;
    states, steps := states0 + [Apply(s, st, guard)], steps0 + [st];
    if st != Finish {
      states, steps := DrainFinishes(states, steps, guard);
    }
  }

  lemma {:induction false} WaitersOfBoth(front: seq<Request>, back: seq<Request>)
    ensures WaitersOf(front + back) == WaitersOf(front) + WaitersOf(back)
  {
    if back == [] {
      assert front + back == front;
    } else {
      var k := |back| - 1;
      WaitersOfBoth(front, back[..k]);
      WaitersOfMore(front + back[..k], back[k]);
      assert front + back[..k] + [back[k]] == front + back;
    }
  }

  lemma SentHasResult(s: State)
    requires QueueOk(s) && s.sent != []
    ensures s.result.Some?
  {
    assert s.result == Some(s.sent[0].1);
  }

  lemma NothingSentYet(s: State)
    requires QueueOk(s) && s.phase == Running
    ensures WaitersOf(s.drained) == []
  {
    if s.sent != [] {
      SentHasResult(s);
    }
  }

  /** From every point of a run where the child still runs it can end with any result, or be cancelled if the trigger has
      fired, and then exactly those who wait in the queue are sent that outcome, in order, and the workflow ends. */
  lemma EverybodyIsReleased(states0: seq<State>, steps0: seq<Step>, guard: Guard, o: Outcome) returns (states: seq<State>, steps: seq<Step>)
    requires Run(states0, steps0, guard) && states0[|steps0|].phase == Running
    requires o == ChildCancelled ==> states0[|steps0|].shared.triggered
    ensures Run(states, steps, guard) && states0 <= states && steps0 <= steps
    ensures var (s, n) := (states0[|steps0|], states[|steps|]);
            && n.phase == Done && n.result == Some(o) && n.log == s.log
            && SentTo(n.sent) == WaitersOf(s.shared.requests) && forall k | 0 <= k < |n.sent| :: n.sent[k].1 == o
  {
    var s := states0[|steps0|];
    QueueInvariant(states0, steps0, guard, |steps0|);
    NothingSentYet(s);
    var st := if o == ChildCancelled then CancelChild else ChildEnds(o);
    states, steps := states0 + [Apply(s, st, guard)], steps0 + [st];
    states, steps := DrainFinishes(states, steps, guard);
    QueueInvariant(states, steps, guard, |steps|);
    WaitersOfBoth(s.drained, s.shared.requests);
  }
}
