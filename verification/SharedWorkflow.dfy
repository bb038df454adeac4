/** One child workflow run on behalf of many waiters. Waiters signal that they wait or that they
    are cancelled; the child is cancelled when nobody waits any more, and its one result
    is sent to those who still do. */
module SharedWorkflow {
  import opened Wrappers

  datatype Kind = Wait | Cancel

  datatype Request = Request(id: string, kind: Kind)

  /** `triggered` is the trigger that races against the child's result. */
  datatype Shared = Shared(requests: seq<Request>, cancelled: nat, triggered: bool)

  /** The guard of the signal handler as it is written compares the id of the entry with the
      literal "cancel"; the one that is meant looks at the type of the entry. */
  datatype Guard = Written | Meant

  predicate Ignores(guard: Guard, entry: Request) {
    match guard
    case Written => entry.id == "cancel"
    case Meant => entry.kind == Cancel
  }

  predicate Holds(requests: seq<Request>, id: string) {
    exists i :: 0 <= i < |requests| && requests[i].id == id
  }

  /** The first entry of an id, if any. */
  function FindIndex(requests: seq<Request>, id: string): (idx: int)
    ensures -1 <= idx < |requests|
    ensures idx >= 0 ==> requests[idx].id == id && forall i | 0 <= i < idx :: requests[i].id != id
    ensures idx == -1 <==> !Holds(requests, id)
    decreases |requests|
  {
    if requests == [] then -1
    else if requests[0].id == id then 0
    else
      var rest := FindIndex(requests[1..], id);
      assert forall i | 1 <= i < |requests| :: requests[i] == requests[1..][i - 1];
      if rest == -1 then -1 else rest + 1
  }

  function OnSignal(s: Shared, req: Request, guard: Guard): Shared {
    var idx := FindIndex(s.requests, req.id);
    if idx >= 0 && Ignores(guard, s.requests[idx]) then s
    else
      var cancelled := s.cancelled + if req.kind == Cancel then 1 else 0;
      var requests := if idx >= 0 then s.requests[idx := req] else s.requests + [req];
      Shared(requests, cancelled, s.triggered || cancelled >= |requests|)
  }

  /** Several signals, one after the other. */
  function OnSignals(s: Shared, reqs: seq<Request>, guard: Guard): Shared
    decreases |reqs|
  {
    if reqs == [] then s else OnSignals(OnSignal(s, reqs[0], guard), reqs[1..], guard)
  }

  // ---------- Releasing the waiters ----------

  /** The entries taken off the queue, when the signals `batches[k]` arrive while the result is being
      sent for the `k`-th time. */
  function Drained(s: Shared, batches: seq<seq<Request>>, guard: Guard): seq<Request>
    decreases |batches|, |s.requests|
  {
    if s.requests == [] then []
    else
      var req, rest := s.requests[0], s.(requests := s.requests[1..]);
      [req] + if req.kind == Cancel || batches == [] then Drained(rest, batches, guard)
              else Drained(OnSignals(rest, batches[0], guard), batches[1..], guard)
  }

  /** The ids of the entries that wait, in order. */
  function WaitersOf(entries: seq<Request>): seq<string> {
    if entries == [] then []
    else
      var last := entries[|entries| - 1];
      WaitersOf(entries[..|entries| - 1]) + if last.kind == Wait then [last.id] else []
  }

  lemma WaitersOfMore(entries: seq<Request>, entry: Request)
    ensures WaitersOf(entries + [entry]) == WaitersOf(entries) + if entry.kind == Wait then [entry.id] else []
  {
    assert (entries + [entry])[..|entries|] == entries;
  }

  function Ids(entries: seq<Request>): seq<string> {
    seq(|entries|, i requires 0 <= i < |entries| => entries[i].id)
  }

  /** If nothing arrives the queue is drained as it is, in order. */
  lemma {:induction false} DrainedAsQueued(s: Shared, guard: Guard)
    ensures Drained(s, [], guard) == s.requests
    decreases |s.requests|
  {
    if s.requests != [] {
      DrainedAsQueued(s.(requests := s.requests[1..]), guard);
    }
  }

  lemma SignalKeepsPlaces(s: Shared, req: Request, guard: Guard)
    ensures Ids(s.requests) <= Ids(OnSignal(s, req, guard).requests)
  {
  }

  lemma {:induction false} SignalsKeepPlaces(s: Shared, reqs: seq<Request>, guard: Guard)
    ensures Ids(s.requests) <= Ids(OnSignals(s, reqs, guard).requests)
    decreases |reqs|
  {
    if reqs != [] {
      SignalKeepsPlaces(s, reqs[0], guard);
      SignalsKeepPlaces(OnSignal(s, reqs[0], guard), reqs[1..], guard);
    }
  }

  /** Whatever arrives meanwhile, those in the queue come first and in their order. */
  lemma {:induction false} DrainedInOrder(s: Shared, batches: seq<seq<Request>>, guard: Guard)
    ensures Ids(s.requests) <= Ids(Drained(s, batches, guard))
    decreases |batches|, |s.requests|
  {
    if s.requests != [] {
      var next, left := AfterTurn(s, batches, guard), BatchesLeft(s, batches);
      OneTurn(s, batches, guard);
      SignalsKeepPlaces(s.(requests := s.requests[1..]), if batches == [] then [] else batches[0], guard);
      DrainedInOrder(next, left, guard);
      IdsOfMore(s.requests[0], s.requests[1..]);
      IdsOfMore(s.requests[0], Drained(next, left, guard));
      assert s.requests == [s.requests[0]] + s.requests[1..];
    }
  }

  lemma IdsOfMore(req: Request, rest: seq<Request>)
    ensures Ids([req] + rest) == [req.id] + Ids(rest)
  {
  }

  /** One turn of the loop: the first entry is taken off the queue, and while its waiter is
      sent the result a batch of signals arrives. */
  function AfterTurn(s: Shared, batches: seq<seq<Request>>, guard: Guard): Shared
    requires s.requests != []
  {
    var rest := s.(requests := s.requests[1..]);
    if s.requests[0].kind == Cancel || batches == [] then rest else OnSignals(rest, batches[0], guard)
  }

  function BatchesLeft(s: Shared, batches: seq<seq<Request>>): seq<seq<Request>>
    requires s.requests != []
  {
    if s.requests[0].kind == Cancel || batches == [] then batches else batches[1..]
  }

  lemma OneTurn(s: Shared, batches: seq<seq<Request>>, guard: Guard)
    requires s.requests != []
    ensures Drained(s, batches, guard) == [s.requests[0]] + Drained(AfterTurn(s, batches, guard), BatchesLeft(s, batches), guard)
  {
  }

  /** Whom the loop sends the result, in order. */
  function Released(s: Shared, batches: seq<seq<Request>>, guard: Guard): seq<string> {
    WaitersOf(Drained(s, batches, guard))
  }

  lemma {:induction false} WaitersFromFront(entry: Request, rest: seq<Request>)
    ensures WaitersOf([entry] + rest) == (if entry.kind == Wait then [entry.id] else []) + WaitersOf(rest)
  {
    if rest == [] {
      assert [entry] + rest == [] + [entry];
      WaitersOfMore([], entry);
    } else {
      var front, last := rest[..|rest| - 1], rest[|rest| - 1];
      WaitersFromFront(entry, front);
      assert [entry] + rest == [entry] + front + [last];
      WaitersOfMore([entry] + front, last);
    }
  }

  lemma ReleasedNext(s: Shared, batches: seq<seq<Request>>, guard: Guard)
    requires s.requests != []
    ensures Released(s, batches, guard)
         == (if s.requests[0].kind == Wait then [s.requests[0].id] else [])
            + Released(AfterTurn(s, batches, guard), BatchesLeft(s, batches), guard)
  {
    OneTurn(s, batches, guard);
    WaitersFromFront(s.requests[0], Drained(AfterTurn(s, batches, guard), BatchesLeft(s, batches), guard));
  }

  /** The handlers of the workflow, with either guard, and the loop that releases the waiters. */
  class SharedRun {
    const guard: Guard
    var requests: seq<Request>
    var cancelled: nat
    var triggered: bool

    constructor (guard: Guard)
      ensures Now() == Shared([], 0, false) && this.guard == guard
    {
      this.guard := guard;
      requests, cancelled, triggered := [], 0, false;
    }

    ghost function Now(): Shared
      reads this
    {
      Shared(requests, cancelled, triggered)
    }

    method HandleSignal(req: Request)
      modifies this
      ensures Now() == OnSignal(old(Now()), req, guard)
    {
      var idx := 0;
      while idx < |requests| && requests[idx].id != req.id
        invariant 0 <= idx <= |requests|
        invariant forall i | 0 <= i < idx :: requests[i].id != req.id
      {
        idx := idx + 1;
      }
      if idx < |requests| && Ignores(guard, requests[idx]) {
        return;
      }
      if req.kind == Cancel {
        cancelled := cancelled + 1;
      }
      if idx < |requests| {
        requests := requests[idx := req];
      } else {
        requests := requests + [req];
      }
      if cancelled >= |requests| {
        triggered := true;
      }
    }

    method HandleSignals(reqs: seq<Request>)
      modifies this
      ensures Now() == OnSignals(old(Now()), reqs, guard)
    {
      var left := reqs;
      while left != []
        invariant OnSignals(Now(), left, guard) == OnSignals(old(Now()), reqs, guard)
        decreases |left|
      {
        HandleSignal(left[0]);
        left := left[1..];
      }
    }

    /** One turn of the loop; sending is where signals can arrive. */
    method ReleaseNext(batches: seq<seq<Request>>) returns (waiter: Option<string>, left: seq<seq<Request>>)
      requires requests != []
      modifies this
      ensures Now() == AfterTurn(old(Now()), batches, guard) && left == BatchesLeft(old(Now()), batches)
      ensures waiter == if old(requests)[0].kind == Wait then Some(old(requests)[0].id) else None
    {
      var req := requests[0];
      requests := requests[1..];
      waiter, left := None, batches;
      if req.kind == Cancel {
        return;
      }
      waiter := Some(req.id);
      if batches != [] {
        HandleSignals(batches[0]);
        left := batches[1..];
      }
    }

    /** The loop that empties the queue. */
    method Drain(batches: seq<seq<Request>>) returns (waiters: seq<string>)
      modifies this
      ensures requests == []
      ensures waiters == Released(old(Now()), batches, guard)
      ensures batches == [] ==> waiters == WaitersOf(old(requests))
    {
      waiters := [];
      var left := batches;
      while requests != []
        invariant waiters + Released(Now(), left, guard) == Released(old(Now()), batches, guard)
        decreases |left|, |requests|
      {
        ReleasedNext(Now(), left, guard);
        ghost var before := waiters;
        var waiter;
        waiter, left := ReleaseNext(left);
        waiters := waiters + if waiter.Some? then [waiter.value] else [];
        assert waiters + Released(Now(), left, guard)
            == before + ((if waiter.Some? then [waiter.value] else []) + Released(Now(), left, guard));
      }
      DrainedAsQueued(old(Now()), guard);
    }
  }

  // ---------- The counter ----------

  /** The state after a sequence of signals. */
  function After(log: seq<Request>, guard: Guard): Shared
    decreases |log|
  {
    if log == [] then Shared([], 0, false)
    else OnSignal(After(log[..|log| - 1], guard), log[|log| - 1], guard)
  }

  function Cancels(requests: seq<Request>): (n: nat)
    ensures n <= |requests|
  {
    if requests == [] then 0
    else Cancels(requests[..|requests| - 1]) + if requests[|requests| - 1].kind == Cancel then 1 else 0
  }

  ghost predicate AllCancelled(requests: seq<Request>) {
    forall i | 0 <= i < |requests| :: requests[i].kind == Cancel
  }

  lemma {:induction false} CountIsFull(requests: seq<Request>)
    ensures Cancels(requests) == |requests| <==> AllCancelled(requests)
  {
    if requests != [] {
      CountIsFull(requests[..|requests| - 1]);
    }
  }

  lemma {:induction false} CountAfterUpdate(requests: seq<Request>, idx: nat, req: Request)
    requires idx < |requests|
    ensures Cancels(requests[idx := req]) + (if requests[idx].kind == Cancel then 1 else 0)
         == Cancels(requests) + (if req.kind == Cancel then 1 else 0)
  {
    var last := |requests| - 1;
    if idx < last {
      CountAfterUpdate(requests[..last], idx, req);
      assert requests[idx := req][..last] == requests[..last][idx := req];
    } else {
      assert requests[idx := req][..last] == requests[..last];
    }
  }

  /** What a signal that is not ignored does to the number of CANCEL entries. */
  lemma CancelsAfterSignal(requests: seq<Request>, req: Request)
    ensures var idx := FindIndex(requests, req.id);
            && (idx >= 0 ==> Cancels(requests[idx := req]) + (if requests[idx].kind == Cancel then 1 else 0)
                             == Cancels(requests) + (if req.kind == Cancel then 1 else 0))
            && Cancels(requests + [req]) == Cancels(requests) + (if req.kind == Cancel then 1 else 0)
  {
    var idx := FindIndex(requests, req.id);
    if idx >= 0 {
      CountAfterUpdate(requests, idx, req);
    }
    assert (requests + [req])[..|requests|] == requests;
  }

  ghost predicate DistinctIds(requests: seq<Request>) {
    forall i, j | 0 <= i < j < |requests| :: requests[i].id != requests[j].id
  }

  /** The signals before the last one. */
  function Earlier(log: seq<Request>): seq<Request>
    requires log != []
  {
    log[..|log| - 1]
  }

  /** What the last signal of an id said. */
  function Latest(log: seq<Request>, id: string): Option<Kind>
    decreases |log|
  {
    if log == [] then None
    else if log[|log| - 1].id == id then Some(log[|log| - 1].kind)
    else Latest(Earlier(log), id)
  }

  /** How many CANCEL signals were followed by another signal of the same id. */
  function Superseded(log: seq<Request>): nat
    decreases |log|
  {
    if log == [] then 0
    else Superseded(Earlier(log)) + if Latest(Earlier(log), log[|log| - 1].id) == Some(Cancel) then 1 else 0
  }

  /** No id signals anything after a CANCEL. */
  ghost predicate NothingAfterCancel(log: seq<Request>) {
    forall i, j | 0 <= i < j < |log| && log[i].id == log[j].id :: log[i].kind == Wait
  }

  /** Signal ids are fresh uuids. */
  ghost predicate ProperIds(log: seq<Request>) {
    forall i | 0 <= i < |log| :: log[i].id != "cancel"
  }

  /** The entry that the queue keeps for an id. */
  function Entry(requests: seq<Request>, id: string): Option<Kind> {
    var idx := FindIndex(requests, id);
    if idx >= 0 then Some(requests[idx].kind) else None
  }

  lemma EntryAfterUpdate(requests: seq<Request>, req: Request, id: string)
    requires DistinctIds(requests)
    ensures var idx := FindIndex(requests, req.id);
            var after := if idx >= 0 then requests[idx := req] else requests + [req];
            && DistinctIds(after)
            && Entry(after, id) == if id == req.id then Some(req.kind) else Entry(requests, id)
  {
    var idx := FindIndex(requests, req.id);
    var after := if idx >= 0 then requests[idx := req] else requests + [req];
    var k := FindIndex(after, id);
    if id == req.id {
      assert after[if idx >= 0 then idx else |requests|].id == id;
    } else {
      var k0 := FindIndex(requests, id);
      if k0 >= 0 {
        assert after[k0] == requests[k0];
      }
      if k >= 0 {
        assert requests[k] == after[k];
      }
    }
  }

  /** With the guard as it is written, the queue keeps the last word of every id. */
  lemma {:induction false} WrittenQueue(log: seq<Request>)
    requires ProperIds(log)
    ensures DistinctIds(After(log, Written).requests)
    ensures forall id :: Entry(After(log, Written).requests, id) == Latest(log, id)
    decreases |log|
  {
    if log != [] {
      WrittenQueue(Earlier(log));
      var s := After(Earlier(log), Written);
      forall id ensures Entry(After(log, Written).requests, id) == Latest(log, id) {
        EntryAfterUpdate(s.requests, log[|log| - 1], id);
      }
      EntryAfterUpdate(s.requests, log[|log| - 1], "");
    }
  }

  /** One signal under the written guard: the counter grows for a CANCEL, the number of
      CANCEL entries only if there was none for the id. */
  lemma WrittenCount(s: Shared, req: Request)
    requires req.id != "cancel" && DistinctIds(s.requests)
    ensures var s' := OnSignal(s, req, Written);
            s'.cancelled - Cancels(s'.requests)
            == s.cancelled - Cancels(s.requests) + if Entry(s.requests, req.id) == Some(Cancel) then 1 else 0
  {
    CancelsAfterSignal(s.requests, req);
  }

  /** The counter exceeds the number of CANCEL entries by the number of superseded CANCEL signals. */
  lemma {:induction false} WrittenCounter(log: seq<Request>)
    requires ProperIds(log)
    ensures After(log, Written).cancelled == Cancels(After(log, Written).requests) + Superseded(log)
    decreases |log|
  {
    if log != [] {
      WrittenCounter(Earlier(log));
      WrittenQueue(Earlier(log));
      WrittenCount(After(Earlier(log), Written), log[|log| - 1]);
    }
  }

  lemma {:induction false} LatestIsLast(log: seq<Request>, i: nat, id: string)
    requires i < |log| && log[i].id == id && forall j | i < j < |log| :: log[j].id != id
    ensures Latest(log, id) == Some(log[i].kind)
    decreases |log|
  {
    if i < |log| - 1 {
      LatestIsLast(Earlier(log), i, id);
    }
  }

  lemma {:induction false} LatestOccurs(log: seq<Request>, id: string) returns (i: nat)
    requires Latest(log, id).Some?
    ensures i < |log| && log[i] == Request(id, Latest(log, id).value)
    decreases |log|
  {
    if log[|log| - 1].id == id {
      i := |log| - 1;
    } else {
      i := LatestOccurs(Earlier(log), id);
    }
  }

  lemma {:induction false} NoneSuperseded(log: seq<Request>)
    ensures Superseded(log) == 0 <==> NothingAfterCancel(log)
    decreases |log|
  {
    if log != [] {
      var e, n := Earlier(log), |log| - 1;
      var id := log[n].id;
      NoneSuperseded(e);
      if NothingAfterCancel(log) {
        assert NothingAfterCancel(e);
        if Latest(e, id) == Some(Cancel) {
          var i := LatestOccurs(e, id);
        }
      } else if NothingAfterCancel(e) {
        var i, j :| 0 <= i < j < |log| && log[i].id == log[j].id && log[i].kind != Wait;
        if j == n {
          assert forall k | i < k < |e| :: e[k].id != id;
          LatestIsLast(e, i, id);
        }
      }
    }
  }

  /** The counter of the handler as it is written equals the number of CANCEL entries exactly
      when no id signalled anything after a CANCEL. */
  lemma WrittenCounterIsRight(log: seq<Request>)
    requires ProperIds(log)
    ensures After(log, Written).cancelled == Cancels(After(log, Written).requests) <==> NothingAfterCancel(log)
  {
    WrittenCounter(log);
    NoneSuperseded(log);
  }

  /** With the guard that is meant the counter is right after any signals at all. */
  lemma {:induction false} MeantCounterIsRight(log: seq<Request>)
    ensures DistinctIds(After(log, Meant).requests)
    ensures After(log, Meant).cancelled == Cancels(After(log, Meant).requests)
    decreases |log|
  {
    if log != [] {
      MeantCounterIsRight(Earlier(log));
      var s := After(Earlier(log), Meant);
      var req := log[|log| - 1];
      EntryAfterUpdate(s.requests, req, req.id);
      CancelsAfterSignal(s.requests, req);
    }
  }

  // ---------- When the trigger fires ----------

  /** The queue on which the trigger fired first, if it did. */
  function FiredOn(log: seq<Request>, guard: Guard): Option<seq<Request>>
    decreases |log|
  {
    if log == [] then None
    else
      match FiredOn(Earlier(log), guard)
      case Some(queue) => Some(queue)
      case None => if After(log, guard).triggered then Some(After(log, guard).requests) else None
  }

  /** The ids whose last word is WAIT. */
  ghost function WaitingIds(log: seq<Request>): set<string> {
    set i | 0 <= i < |log| && Latest(log, log[i].id) == Some(Wait) :: log[i].id
  }

  function WaitEntries(requests: seq<Request>): set<string> {
    set i | 0 <= i < |requests| && requests[i].kind == Wait :: requests[i].id
  }

  lemma {:induction false} WaitsAndCancels(requests: seq<Request>)
    requires DistinctIds(requests)
    ensures |WaitEntries(requests)| + Cancels(requests) == |requests|
  {
    if requests != [] {
      var rest, last := requests[..|requests| - 1], requests[|requests| - 1];
      WaitsAndCancels(rest);
      assert last.id !in WaitEntries(rest);
      assert WaitEntries(requests) == WaitEntries(rest) + if last.kind == Wait then {last.id} else {};
    }
  }

  lemma EntriesWait(log: seq<Request>)
    requires ProperIds(log)
    ensures WaitEntries(After(log, Written).requests) == WaitingIds(log)
  {
    WrittenQueue(log);
    var requests := After(log, Written).requests;
    forall id ensures id in WaitEntries(requests) <==> Latest(log, id) == Some(Wait) {
      assert Entry(requests, id) == Latest(log, id);
    }
    forall id | Latest(log, id) == Some(Wait) ensures id in WaitingIds(log) {
      var i := LatestOccurs(log, id);
      assert log[i].id in WaitingIds(log);
    }
  }

  /** The written handler fires when as many CANCEL signals were superseded as ids still wait, and
      fires rightly when none waits. */
  lemma WrittenFires(log: seq<Request>)
    requires ProperIds(log)
    ensures var s := After(log, Written);
            && (s.cancelled >= |s.requests| <==> |WaitingIds(log)| <= Superseded(log))
            && (AllCancelled(s.requests) <==> |WaitingIds(log)| == 0)
  {
    WrittenCounter(log);
    WrittenQueue(log);
    EntriesWait(log);
    WaitsAndCancels(After(log, Written).requests);
    CountIsFull(After(log, Written).requests);
  }

  /** The trigger fires with the `n`-th signal for the first time. */
  ghost predicate FirstAt(log: seq<Request>, n: nat) {
    && 0 < n <= |log|
    && |WaitingIds(log[..n])| <= Superseded(log[..n])
    && forall m | 0 < m < n :: Superseded(log[..m]) < |WaitingIds(log[..m])|
  }

  /** And somebody still waits. */
  ghost predicate EarlyAt(log: seq<Request>, n: nat) {
    FirstAt(log, n) && |WaitingIds(log[..n])| > 0
  }

  lemma FirstAtEarlier(log: seq<Request>, n: nat)
    requires log != [] && 0 < n < |log|
    ensures FirstAt(log, n) <==> FirstAt(Earlier(log), n)
  {
    forall m | 0 < m <= n ensures Earlier(log)[..m] == log[..m] {
    }
  }

  lemma {:induction false} FiredFirst(log: seq<Request>) returns (n: nat)
    requires ProperIds(log)
    ensures After(log, Written).triggered <==> FiredOn(log, Written).Some?
    ensures FiredOn(log, Written).None? ==> forall m | 0 < m <= |log| :: Superseded(log[..m]) < |WaitingIds(log[..m])|
    ensures FiredOn(log, Written).Some? ==> FirstAt(log, n) && FiredOn(log, Written) == Some(After(log[..n], Written).requests)
    decreases |log|
  {
    n := 0;
    if log != [] {
      n := FiredFirst(Earlier(log));
      assert log[..|log|] == log;
      forall m | 0 < m < |log| ensures Earlier(log)[..m] == log[..m] {
      }
      if FiredOn(Earlier(log), Written).Some? {
        FirstAtEarlier(log, n);
      } else {
        WrittenFires(log);
        n := |log|;
      }
    }
  }

  /** The trigger fires too early, on a queue in which somebody waits, if and only if there is a first moment
      when as many CANCEL signals were superseded as ids still wait, and that is not when none waits. */
  lemma WrittenFiresTooEarly(log: seq<Request>)
    requires ProperIds(log)
    ensures FiredOn(log, Written).Some? && !AllCancelled(FiredOn(log, Written).value) <==> exists n :: EarlyAt(log, n)
  {
    var n := FiredFirst(log);
    if FiredOn(log, Written).Some? {
      WrittenFires(log[..n]);
      if k :| EarlyAt(log, k) {
        assert k == n;
      }
      assert |WaitingIds(log[..n])| > 0 ==> EarlyAt(log, n);
    }
  }

  lemma {:induction false} MeantFires(log: seq<Request>)
    ensures FiredOn(log, Meant).Some? ==> AllCancelled(FiredOn(log, Meant).value)
    decreases |log|
  {
    if log != [] {
      MeantFires(Earlier(log));
      if FiredOn(Earlier(log), Meant).None? {
        FiresWhenTriggered(Earlier(log), Meant);
        MeantCounterIsRight(log);
        CountIsFull(After(log, Meant).requests);
      }
    }
  }

  lemma {:induction false} FiresWhenTriggered(log: seq<Request>, guard: Guard)
    ensures FiredOn(log, guard).Some? <==> After(log, guard).triggered
    decreases |log|
  {
    if log != [] {
      FiresWhenTriggered(Earlier(log), guard);
    }
  }

  // ---------- A waiter that cancels twice ----------

  const TWO_WAIT := [Request("a", Wait), Request("b", Wait)]
  const ONE_LEFT := [Request("a", Cancel), Request("b", Wait)]
  const CANCEL_A := Request("a", Cancel)

  lemma AfterMore(log: seq<Request>, req: Request, guard: Guard)
    ensures After(log + [req], guard) == OnSignal(After(log, guard), req, guard)
  {
    assert (log + [req])[..|log|] == log;
  }

  lemma TwoWait(guard: Guard)
    ensures After(TWO_WAIT, guard) == Shared(TWO_WAIT, 0, false)
  {
    AfterMore([], Request("a", Wait), guard);
    AfterMore([Request("a", Wait)], Request("b", Wait), guard);
    assert TWO_WAIT == [Request("a", Wait)] + [Request("b", Wait)] && [] + [Request("a", Wait)] == [Request("a", Wait)];
  }

  lemma OneLeft(guard: Guard)
    ensures OnSignal(Shared(TWO_WAIT, 0, false), CANCEL_A, guard) == Shared(ONE_LEFT, 1, false)
  {
    assert TWO_WAIT[0 := CANCEL_A] == ONE_LEFT;
  }

  lemma CancelledTwice()
    ensures OnSignal(Shared(ONE_LEFT, 1, false), CANCEL_A, Written) == Shared(ONE_LEFT, 2, true)
    ensures OnSignal(Shared(ONE_LEFT, 1, false), CANCEL_A, Meant) == Shared(ONE_LEFT, 1, false)
  {
    assert ONE_LEFT[0 := CANCEL_A] == ONE_LEFT;
  }

  /** Two waiters, one of which cancels twice: the trigger fires although the other still waits. */
  lemma DoubleCancelFiresTooEarly()
    ensures var log := TWO_WAIT + [CANCEL_A] + [CANCEL_A];
            && !NothingAfterCancel(log)
            && After(log, Written).triggered && !AllCancelled(After(log, Written).requests)
            && !After(log, Meant).triggered
  {
    forall guard: Guard
      ensures After(TWO_WAIT + [CANCEL_A] + [CANCEL_A], guard)
           == OnSignal(OnSignal(Shared(TWO_WAIT, 0, false), CANCEL_A, guard), CANCEL_A, guard)
    {
      TwoWait(guard);
      AfterMore(TWO_WAIT, CANCEL_A, guard);
      AfterMore(TWO_WAIT + [CANCEL_A], CANCEL_A, guard);
    }
    OneLeft(Written);
    OneLeft(Meant);
    CancelledTwice();
    var log := TWO_WAIT + [CANCEL_A] + [CANCEL_A];
    assert log[2] == log[3] == CANCEL_A;
    assert ONE_LEFT[1].kind == Wait;
  }
}
