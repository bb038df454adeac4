/** The lock workflow of one resource and the `withLock` calls that use it. They talk by
    signals, which arrive later or not at all; workflows may be cancelled or end
    at any time, and the lock workflow restarts itself to keep its history short. */
module LockProtocol {
  import opened Wrappers

  type WorkflowId = string
  type SignalName = string
  type ReleaseId = string

  datatype LockRequest = LockRequest(initiator: WorkflowId, signalName: SignalName)

  /** Where the serving loop is: waiting for requests, sending the release id of the
      request it serves, or waiting for that id to come back. */
  datatype Phase =
    | Idle
    | Sending(req: LockRequest, releaseId: ReleaseId)
    | Holding(req: LockRequest, releaseId: ReleaseId)

  datatype Lock = Lock(requests: seq<LockRequest>, releasedIds: set<ReleaseId>, phase: Phase)

  // ---------- The lock workflow by itself ----------

  function OnRequest(l: Lock, req: LockRequest): Lock {
    l.(requests := l.requests + [req])
  }

  function OnRelease(l: Lock, id: ReleaseId): Lock {
    l.(releasedIds := l.releasedIds + {id})
  }

  function Serve(l: Lock, id: ReleaseId): Lock
    requires l.phase.Idle? && l.requests != []
  {
    Lock(l.requests[1..], l.releasedIds, Sending(l.requests[0], id))
  }

  function Sent(l: Lock, ok: bool): Lock
    requires l.phase.Sending?
  {
    l.(phase := if ok then Holding(l.phase.req, l.phase.releaseId) else Idle)
  }

  predicate MayTakeBack(l: Lock, ended: set<WorkflowId>) {
    l.phase.Holding? && (l.phase.releaseId in l.releasedIds || l.phase.req.initiator in ended)
  }

  function TakeBack(l: Lock): Lock
    requires l.phase.Holding?
  {
    Lock(l.requests, l.releasedIds - {l.phase.releaseId}, Idle)
  }

  /** One run of the lock workflow, between two of its awaits. */
  class LockWorkflow {
    var requests: seq<LockRequest>
    var releasedIds: set<ReleaseId>
    var currentWorkflowId: Option<WorkflowId>
    var phase: Phase

    ghost predicate Valid()
      reads this
    {
      currentWorkflowId == if phase.Idle? then None else Some(phase.req.initiator)
    }

    ghost function Now(): Lock
      reads this
    {
      Lock(requests, releasedIds, phase)
    }

    /** A fresh run, or one that continues an earlier one. */
    constructor (requests: seq<LockRequest>, releasedIds: set<ReleaseId>)
      ensures Valid() && Now() == Lock(requests, releasedIds, Idle)
    {
      this.requests, this.releasedIds, currentWorkflowId, phase := requests, releasedIds, None, Idle;
    }

    method HandleRequest(req: LockRequest)
      requires Valid()
      modifies this`requests
      ensures Valid() && Now() == OnRequest(old(Now()), req)
    {
      requests := requests + [req];
    }

    method HandleRelease(id: ReleaseId)
      requires Valid()
      modifies this`releasedIds
      ensures Valid() && Now() == OnRelease(old(Now()), id)
    {
      releasedIds := releasedIds + {id};
    }

    method ServeNext(id: ReleaseId)
      requires Valid() && phase.Idle? && requests != []
      modifies this
      ensures Valid() && Now() == Serve(old(Now()), id)
    {
      var req := requests[0];
      requests := requests[1..];
      currentWorkflowId := Some(req.initiator);
      phase := Sending(req, id);
    }

    method HandleSent(ok: bool)
      requires Valid() && phase.Sending?
      modifies this
      ensures Valid() && Now() == Sent(old(Now()), ok)
    {
      if ok {
        phase := Holding(phase.req, phase.releaseId);
      } else {
        phase := Idle;
        currentWorkflowId := None;
      }
    }

    /** One turn of the loop that waits for the release id; `isFinal` is what the status
        query of the holder said. */
    method PollHolder(isFinal: bool)
      requires Valid() && phase.Holding?
      modifies this
      ensures Valid()
      ensures Now() == if old(phase.releaseId in releasedIds) || isFinal then TakeBack(old(Now())) else old(Now())
    {
      if phase.releaseId in releasedIds || isFinal {
        releasedIds := releasedIds - {phase.releaseId};
        phase := Idle;
        currentWorkflowId := None;
      }
    }

    method HandleBatch(b: Batch)
      requires Valid()
      modifies this`requests, this`releasedIds
      ensures Valid() && requests == old(requests) + b.requests
      ensures releasedIds == old(releasedIds) + set id | id in b.releases
    {
      for i := 0 to |b.requests|
        invariant Valid() && requests == old(requests) + b.requests[..i] && releasedIds == old(releasedIds)
      {
        assert b.requests[..i + 1] == b.requests[..i] + [b.requests[i]];
        HandleRequest(b.requests[i]);
      }
      assert b.requests[..|b.requests|] == b.requests;
      for i := 0 to |b.releases|
        invariant Valid() && requests == old(requests) + b.requests
        invariant releasedIds == old(releasedIds) + set id | id in b.releases[..i]
      {
        assert b.releases[..i + 1] == b.releases[..i] + [b.releases[i]];
        HandleRelease(b.releases[i]);
      }
      assert b.releases[..|b.releases|] == b.releases;
    }

    /** Waits until the lock comes back, or as long as the polls last; `arrived` and `seen` are the
        requests and release ids that came meanwhile. */
    method AwaitRelease(polls: seq<Poll>) returns (end: End, ghost arrived: seq<LockRequest>, ghost seen: set<ReleaseId>)
      requires Valid() && phase.Holding?
      modifies this
      ensures Valid() && requests == old(requests) + arrived && releasedIds <= old(releasedIds) + seen
      ensures if end == StillHeld then phase == old(phase) else phase.Idle?
      ensures end == GivenBack ==> old(phase.releaseId) in old(releasedIds) + seen
      ensures end == HolderEnded ==> SaidFinal(polls)
      ensures end != Undelivered
    {
      arrived, seen := [], {};
      var j, isFinal := 0, false;
      while j < |polls| && phase.releaseId !in releasedIds && !isFinal
        invariant 0 <= j <= |polls| && Valid() && phase == old(phase)
        invariant requests == old(requests) + arrived && releasedIds == old(releasedIds) + seen
        invariant isFinal ==> SaidFinal(polls)
        decreases |polls| - j
      {
        var poll := polls[j];
        HandleBatch(poll.query);
        arrived, seen := arrived + poll.query.requests, seen + set id | id in poll.query.releases;
        isFinal := poll.isFinal;
        if !isFinal {
          HandleBatch(poll.pause);
          arrived, seen := arrived + poll.pause.requests, seen + set id | id in poll.pause.releases;
        }
        j := j + 1;
      }
      end := if phase.releaseId in releasedIds then GivenBack else if isFinal then HolderEnded else StillHeld;
      PollHolder(isFinal);
    }

    /** One turn: a request is served and the lock comes back, unless there is none. */
    method ServeTurn(turn: Turn) returns (service: Option<Service>, ghost arrived: seq<LockRequest>, ghost seen: set<ReleaseId>)
      requires Valid() && phase.Idle?
      modifies this
      ensures Valid() && releasedIds <= old(releasedIds) + seen
      ensures (if service.Some? then [service.value.req] else []) + requests == old(requests) + arrived
      ensures service.Some? ==> Matches(service.value, turn, old(releasedIds) + seen)
      ensures phase.Idle? <==> service.None? || service.value.end != StillHeld
      ensures !phase.Idle? ==> phase == Holding(service.value.req, turn.releaseId)
      ensures service.None? ==> old(requests) == [] && requests == []
    {
      HandleBatch(turn.idle);
      arrived, seen := turn.idle.requests, set id | id in turn.idle.releases;
      if requests == [] {
        return None, arrived, seen;
      }
      var req := requests[0];
      ServeNext(turn.releaseId);
      HandleBatch(turn.sending);
      arrived, seen := arrived + turn.sending.requests, seen + set id | id in turn.sending.releases;
      HandleSent(turn.delivered);
      if !turn.delivered {
        return Some(Service(req, turn.releaseId, Undelivered)), arrived, seen;
      }
      var end;
      ghost var more, others;
      end, more, others := AwaitRelease(turn.polls);
      arrived, seen := arrived + more, seen + others;
      service := Some(Service(req, turn.releaseId, end));
    }

    /** The loop of one run. The requests served, followed by the queue, are those carried over followed by the
        arrivals: none is lost, repeated or overtaken. The lock comes back, by its own release id or because its holder
        is final, before the next request is served, and only what was never delivered needs no release. */
    method Serving(turns: seq<Turn>) returns (services: seq<Service>, ghost arrived: seq<LockRequest>, ghost seen: set<ReleaseId>)
      requires Valid() && phase.Idle?
      modifies this
      ensures Valid() && Requests(services) + requests == old(requests) + arrived
      ensures |services| <= |turns| && forall k | 0 <= k < |services| :: Matches(services[k], turns[k], old(releasedIds) + seen)
      ensures forall k | 0 <= k < |services| - 1 :: services[k].end != StillHeld
      ensures phase.Idle? <==> services == [] || services[|services| - 1].end != StillHeld
      ensures currentWorkflowId == if phase.Idle? then None else Some(services[|services| - 1].req.initiator)
      ensures |services| < |turns| && phase.Idle? ==> requests == []
    {
      services, arrived, seen := [], [], {};
      while |services| < |turns|
        invariant Valid() && phase.Idle? && Requests(services) + requests == old(requests) + arrived
        invariant |services| <= |turns| && releasedIds <= old(releasedIds) + seen
        invariant forall k | 0 <= k < |services| ::
                    Matches(services[k], turns[k], old(releasedIds) + seen) && services[k].end != StillHeld
        decreases |turns| - |services|
      {
        var service;
        ghost var more, others, before := [], {}, requests;
        service, more, others := ServeTurn(turns[|services|]);
        arrived, seen := arrived + more, seen + others;
        if service == None {
          assert Requests(services) + requests == old(requests) + arrived by {
            assert Requests(services) + requests == Requests(services) + before + more;
          }
          return;
        }
        assert Requests(services + [service.value]) + requests == old(requests) + arrived by {
          assert Requests(services + [service.value]) == Requests(services) + [service.value.req];
          assert Requests(services) + [service.value.req] + requests == Requests(services) + ([service.value.req] + requests);
          assert Requests(services) + ([service.value.req] + requests) == Requests(services) + before + more;
        }
        services := services + [service.value];
        if service.value.end == StillHeld {
          return;
        }
      }
    }
  }

  // ---------- The serving loop ----------

  /** The signals handled during one await. */
  datatype Batch = Batch(requests: seq<LockRequest>, releases: seq<ReleaseId>)

  /** One turn of the loop that waits for the release id: the status query, what it said, and the pause. */
  datatype Poll = Poll(query: Batch, isFinal: bool, pause: Batch)

  /** What one turn of the serving loop meets. */
  datatype Turn = Turn(idle: Batch, releaseId: ReleaseId, sending: Batch, delivered: bool, polls: seq<Poll>)

  datatype End = Undelivered | GivenBack | HolderEnded | StillHeld

  datatype Service = Service(req: LockRequest, releaseId: ReleaseId, end: End)

  function Requests(services: seq<Service>): seq<LockRequest> {
    seq(|services|, i requires 0 <= i < |services| => services[i].req)
  }

  predicate SaidFinal(polls: seq<Poll>) {
    exists i :: 0 <= i < |polls| && polls[i].isFinal
  }

  /** A service and the turn it was given in. */
  predicate Matches(s: Service, turn: Turn, released: set<ReleaseId>) {
    && s.releaseId == turn.releaseId
    && (s.end == Undelivered <==> !turn.delivered)
    && (s.end == GivenBack ==> s.releaseId in released)
    && (s.end == HolderEnded ==> SaidFinal(turn.polls))
  }

  // ---------- The protocol ----------

  /** A `withLock` call: its request may not have returned yet, it waits for the lock, runs its
      body, is about to send its release signal, or has ended. */
  datatype Pc = Asking | Waiting | Inside | Leaving | Gone

  /** `releaseId` is empty until the lock is granted. */
  datatype Client = Client(workflow: WorkflowId, pc: Pc, releaseId: ReleaseId)

  /** `acquired` and `releases` are signals under way. The rest is history: `grants` tells whom a release
      id was made for, `arrivals` and `served` list the requests. */
  datatype State = State(
    lock: Option<Lock>,
    clients: map<SignalName, Client>,
    acquired: set<(SignalName, ReleaseId)>,
    releases: multiset<ReleaseId>,
    ended: set<WorkflowId>,
    grants: map<ReleaseId, SignalName>,
    arrivals: seq<LockRequest>,
    served: seq<LockRequest>)

  datatype Step =
    | Ask(name: SignalName, workflow: WorkflowId)
    | AskAgain(name: SignalName)               // the activity that signals is attempted up to ten times
    | AskReturns(name: SignalName, ok: bool)
    | ReceiveLock(name: SignalName, id: ReleaseId)
    | Enter(name: SignalName)
    | CancelWait(name: SignalName)
    | Leave(name: SignalName)
    | SendRelease(name: SignalName, ok: bool)
    | ReceiveRelease(id: ReleaseId)
    | LoseRelease(id: ReleaseId)
    | EndWorkflow(workflow: WorkflowId)
    | ServeRequest(id: ReleaseId)
    | SendLock(ok: bool)
    | TakeLockBack
    | ContinueAsNew
    | Stop

  predicate Alive(s: State, name: SignalName) {
    name in s.clients && s.clients[name].workflow !in s.ended
  }

  predicate Enabled(s: State, st: Step) {
    match st
    case Ask(name, workflow) => name !in s.clients && workflow !in s.ended
    case AskAgain(name) => Alive(s, name) && s.clients[name].pc == Asking
    case AskReturns(name, _) => Alive(s, name) && s.clients[name].pc == Asking
    case ReceiveLock(name, id) => Alive(s, name) && (name, id) in s.acquired
    case Enter(name) => Alive(s, name) && s.clients[name].pc == Waiting && s.clients[name].releaseId != ""
    case CancelWait(name) => Alive(s, name) && s.clients[name].pc == Waiting
    case Leave(name) => Alive(s, name) && s.clients[name].pc == Inside
    case SendRelease(name, _) => Alive(s, name) && s.clients[name].pc == Leaving
    case ReceiveRelease(id) => s.lock.Some? && id in s.releases
    case LoseRelease(id) => s.lock.None? && id in s.releases
    case EndWorkflow(workflow) => workflow !in s.ended
    case ServeRequest(id) =>
      // uuid4 never repeats and is never empty
      s.lock.Some? && s.lock.value.phase.Idle? && s.lock.value.requests != [] && id != "" && id !in s.grants
    case SendLock(ok) =>
      s.lock.Some? && s.lock.value.phase.Sending? && (ok ==> s.lock.value.phase.req.initiator !in s.ended)
    case TakeLockBack => s.lock.Some? && MayTakeBack(s.lock.value, s.ended)
    case ContinueAsNew => s.lock.Some? && s.lock.value.phase.Idle? && s.lock.value.requests != []
    case Stop => s.lock.Some? && s.lock.value.phase.Idle? && s.lock.value.requests == []
  }

  function WithPc(s: State, name: SignalName, pc: Pc): State
    requires name in s.clients
  {
    s.(clients := s.clients[name := s.clients[name].(pc := pc)])
  }

  /** signalWithStart: the lock workflow is started if it is not running. */
  function Requested(s: State, req: LockRequest): State {
    var lock := if s.lock.Some? then s.lock.value else Lock([], {}, Idle);
    s.(lock := Some(OnRequest(lock, req)), arrivals := s.arrivals + [req])
  }

  function Apply(s: State, st: Step): State
    requires Enabled(s, st)
  {
    match st
    case Ask(name, workflow) => Requested(s, LockRequest(workflow, name)).(clients := s.clients[name := Client(workflow, Asking, "")])
    case AskAgain(name) => Requested(s, LockRequest(s.clients[name].workflow, name))
    case AskReturns(name, ok) => WithPc(s, name, if ok then Waiting else Gone)
    case ReceiveLock(name, id) =>
      s.(clients := s.clients[name := s.clients[name].(releaseId := id)], acquired := s.acquired - {(name, id)})
    case Enter(name) => WithPc(s, name, Inside)
    case CancelWait(name) => WithPc(s, name, Leaving)
    case Leave(name) => WithPc(s, name, Leaving)
    case SendRelease(name, ok) =>
      var sent := if ok then multiset{s.clients[name].releaseId} else multiset{};
      WithPc(s, name, Gone).(releases := s.releases + sent)
    case ReceiveRelease(id) =>
      s.(lock := Some(OnRelease(s.lock.value, id)), releases := s.releases - multiset{id})
    case LoseRelease(id) => s.(releases := s.releases - multiset{id})
    case EndWorkflow(workflow) => s.(ended := s.ended + {workflow})
    case ServeRequest(id) =>
      var req := s.lock.value.requests[0];
      s.(lock := Some(Serve(s.lock.value, id)), grants := s.grants[id := req.signalName], served := s.served + [req])
    case SendLock(ok) =>
      var phase := s.lock.value.phase;
      s.(lock := Some(Sent(s.lock.value, ok)),
         acquired := s.acquired + if ok then {(phase.req.signalName, phase.releaseId)} else {})
    case TakeLockBack => s.(lock := Some(TakeBack(s.lock.value)))
    case ContinueAsNew => s.(lock := Some(Lock(s.lock.value.requests, s.lock.value.releasedIds, Idle)))
    case Stop => s.(lock := None)
  }

  const START := State(None, map[], {}, multiset{}, {}, map[], [], [])

  ghost predicate Run(states: seq<State>, steps: seq<Step>) {
    && |states| == |steps| + 1
    && states[0] == START
    && (forall i | 0 <= i < |steps| :: Enabled(states[i], steps[i]) && states[i + 1] == Apply(states[i], steps[i]))
  }

  // ---------- The invariant ----------

  /** The grant the lock workflow waits on. */
  function Current(s: State): Option<ReleaseId> {
    if s.lock.Some? && !s.lock.value.phase.Idle? then Some(s.lock.value.phase.releaseId) else None
  }

  /** The client a grant was made for does not, and will never again, run its body under it. */
  ghost predicate Retired(s: State, id: ReleaseId)
    requires id in s.grants
  {
    var name := s.grants[id];
    name in s.clients &&
    (s.clients[name].pc == Gone || s.clients[name].workflow in s.ended || Unheard(s, id))
  }

  /** The grant never reached its client. */
  ghost predicate Unheard(s: State, id: ReleaseId)
    requires id in s.grants
  {
    var name := s.grants[id];
    name in s.clients && (name, id) !in s.acquired && s.clients[name].releaseId != id
  }

  ghost predicate Known(s: State, req: LockRequest) {
    req.signalName in s.clients && s.clients[req.signalName].workflow == req.initiator
  }

  ghost predicate ClientsOk(s: State) {
    && (forall n | n in s.clients && s.clients[n].releaseId != "" ::
          s.clients[n].releaseId in s.grants && s.grants[s.clients[n].releaseId] == n)
    && (forall n | n in s.clients && s.clients[n].pc == Inside :: s.clients[n].releaseId != "")
    && (forall m | m in s.acquired :: m.1 in s.grants && s.grants[m.1] == m.0 && m.0 in s.clients)
    && "" !in s.grants
  }

  /** The client of a release id has ended; the empty id has no client. */
  ghost predicate GivenBy(s: State, id: ReleaseId) {
    id != "" ==> id in s.grants && s.grants[id] in s.clients && s.clients[s.grants[id]].pc == Gone
  }

  /** A release id is under way or known only once its client has ended. */
  ghost predicate ReleasesOk(s: State) {
    && (forall id | id in s.releases :: GivenBy(s, id))
    && (s.lock.Some? ==> forall id | id in s.lock.value.releasedIds :: GivenBy(s, id))
  }

  ghost predicate GrantsOk(s: State) {
    forall id | id in s.grants && Current(s) != Some(id) :: Retired(s, id)
  }

  ghost predicate LockOk(s: State) {
    s.lock.Some? ==>
      var l := s.lock.value;
      && (forall i | 0 <= i < |l.requests| :: Known(s, l.requests[i]))
      && (!l.phase.Idle? ==>
            && Known(s, l.phase.req)
            && l.phase.releaseId in s.grants && s.grants[l.phase.releaseId] == l.phase.req.signalName)
      && (l.phase.Sending? ==> Unheard(s, l.phase.releaseId))
  }

  ghost predicate QueueOk(s: State) {
    s.arrivals == s.served + (if s.lock.Some? then s.lock.value.requests else [])
  }

  ghost predicate Inv(s: State) {
    ClientsOk(s) && ReleasesOk(s) && GrantsOk(s) && LockOk(s) && QueueOk(s)
  }

  // ---------- Every step keeps it ----------

  /** The steps of `withLock` calls. */
  predicate ClientStep(st: Step) {
    st.Ask? || st.AskAgain? || st.AskReturns? || st.ReceiveLock? || st.Enter? || st.CancelWait? || st.Leave? || st.SendRelease?
  }

  lemma ClientsStayOk(s: State, st: Step)
    requires ClientsOk(s) && Enabled(s, st) && ClientStep(st)
    ensures ClientsOk(Apply(s, st))
  {
  }

  lemma StillGiven(s: State, st: Step, id: ReleaseId)
    requires GivenBy(s, id) && Enabled(s, st) && ClientStep(st)
    ensures GivenBy(Apply(s, st), id)
  {
  }

  lemma ReleasesStayOk(s: State, st: Step)
    requires ClientsOk(s) && ReleasesOk(s) && Enabled(s, st) && ClientStep(st)
    ensures ReleasesOk(Apply(s, st))
  {
    forall id | GivenBy(s, id) ensures GivenBy(Apply(s, st), id) {
      StillGiven(s, st, id);
    }
    if st.SendRelease? {
      assert GivenBy(Apply(s, st), s.clients[st.name].releaseId);
    }
  }

  /** What clients do brings no retired grant back. */
  lemma StillRetired(s: State, st: Step)
    requires ClientsOk(s) && GrantsOk(s) && LockOk(s) && Enabled(s, st) && ClientStep(st)
    ensures GrantsOk(Apply(s, st))
  {
    forall id | id in s.grants && Current(s) != Some(id) ensures Retired(Apply(s, st), id) {
      assert Retired(s, id);
    }
  }

  lemma RequestsStayOk(s: State, st: Step)
    requires ClientsOk(s) && LockOk(s) && QueueOk(s) && Enabled(s, st) && ClientStep(st)
    ensures LockOk(Apply(s, st)) && QueueOk(Apply(s, st))
  {
  }

  lemma ClientStepKeeps(s: State, st: Step)
    requires Inv(s) && Enabled(s, st) && ClientStep(st)
    ensures Inv(Apply(s, st))
  {
    ClientsStayOk(s, st);
    ReleasesStayOk(s, st);
    StillRetired(s, st);
    RequestsStayOk(s, st);
  }

  lemma ReceiveReleaseKeeps(s: State, st: Step)
    requires Inv(s) && st.ReceiveRelease? && Enabled(s, st)
    ensures Inv(Apply(s, st))
  {
  }

  lemma LoseReleaseKeeps(s: State, st: Step)
    requires Inv(s) && st.LoseRelease? && Enabled(s, st)
    ensures Inv(Apply(s, st))
  {
  }

  lemma EndWorkflowKeeps(s: State, st: Step)
    requires Inv(s) && st.EndWorkflow? && Enabled(s, st)
    ensures Inv(Apply(s, st))
  {
  }

  lemma ServeRequestRetires(s: State, st: Step)
    requires Inv(s) && st.ServeRequest? && Enabled(s, st)
    ensures GrantsOk(Apply(s, st))
  {
    forall id | id in s.grants ensures Retired(Apply(s, st), id) {
      assert Current(s) == None && Retired(s, id);
    }
  }

  lemma ServeRequestReleases(s: State, st: Step)
    requires ReleasesOk(s) && st.ServeRequest? && Enabled(s, st)
    ensures ReleasesOk(Apply(s, st))
  {
    forall id | GivenBy(s, id) ensures GivenBy(Apply(s, st), id) {
    }
  }

  lemma ServeRequestKeeps(s: State, st: Step)
    requires Inv(s) && st.ServeRequest? && Enabled(s, st)
    ensures Inv(Apply(s, st))
  {
    ServeRequestRetires(s, st);
    ServeRequestReleases(s, st);
    assert ClientsOk(Apply(s, st));
  }

  lemma SendLockKeeps(s: State, st: Step)
    requires Inv(s) && st.SendLock? && Enabled(s, st)
    ensures Inv(Apply(s, st))
  {
  }

  lemma TakeLockBackKeeps(s: State, st: Step)
    requires Inv(s) && st.TakeLockBack? && Enabled(s, st)
    ensures Inv(Apply(s, st))
  {
  }

  lemma ContinueAsNewKeeps(s: State, st: Step)
    requires Inv(s) && st.ContinueAsNew? && Enabled(s, st)
    ensures Inv(Apply(s, st))
  {
  }

  lemma StopKeeps(s: State, st: Step)
    requires Inv(s) && st.Stop? && Enabled(s, st)
    ensures Inv(Apply(s, st))
  {
  }

  lemma StepKeeps(s: State, st: Step)
    requires Inv(s) && Enabled(s, st)
    ensures Inv(Apply(s, st))
  {
    match st
    case ReceiveRelease(_) => ReceiveReleaseKeeps(s, st);
    case LoseRelease(_) => LoseReleaseKeeps(s, st);
    case EndWorkflow(_) => EndWorkflowKeeps(s, st);
    case ServeRequest(_) => ServeRequestKeeps(s, st);
    case SendLock(_) => SendLockKeeps(s, st);
    case TakeLockBack => TakeLockBackKeeps(s, st);
    case ContinueAsNew => ContinueAsNewKeeps(s, st);
    case Stop => StopKeeps(s, st);
    case _ => ClientStepKeeps(s, st);
  }

  lemma {:induction false} RunKeeps(states: seq<State>, steps: seq<Step>, i: nat)
    requires Run(states, steps) && i < |states|
    ensures Inv(states[i])
  {
    if i > 0 {
      RunKeeps(states, steps, i - 1);
      assert Enabled(states[i - 1], steps[i - 1]);
      StepKeeps(states[i - 1], steps[i - 1]);
    }
  }

  // ---------- What it gives ----------

  /** At most one call whose workflow has not ended is inside its body. */
  lemma MutualExclusion(states: seq<State>, steps: seq<Step>, i: nat, m: SignalName, n: SignalName)
    requires Run(states, steps) && i < |states|
    requires Alive(states[i], m) && states[i].clients[m].pc == Inside
    requires Alive(states[i], n) && states[i].clients[n].pc == Inside
    ensures m == n
  {
    RunKeeps(states, steps, i);
    var s := states[i];
    forall x | x in {m, n} ensures Current(s) == Some(s.clients[x].releaseId) {
      assert !Retired(s, s.clients[x].releaseId);
    }
  }

  /** Whoever runs its body is the one the lock workflow takes to hold the lock. */
  lemma HolderIsKnown(states: seq<State>, steps: seq<Step>, i: nat, n: SignalName)
    requires Run(states, steps) && i < |states|
    requires Alive(states[i], n) && states[i].clients[n].pc == Inside
    ensures states[i].lock.Some? && states[i].lock.value.phase.Holding?
    ensures states[i].lock.value.phase.req == LockRequest(states[i].clients[n].workflow, n)
    ensures states[i].lock.value.phase.releaseId == states[i].clients[n].releaseId
  {
    RunKeeps(states, steps, i);
    assert !Retired(states[i], states[i].clients[n].releaseId);
  }

  /** The lock is taken back only when the holder's call has ended, or its workflow has; and
      without the release id only in the second case. */
  lemma TakenBackInTime(states: seq<State>, steps: seq<Step>, i: nat)
    requires Run(states, steps) && i < |steps| && steps[i].TakeLockBack?
    ensures var l := states[i].lock.value; var s := states[i];
            && l.phase.req.signalName in s.clients
            && (s.clients[l.phase.req.signalName].pc == Gone || l.phase.req.initiator in s.ended)
            && (l.phase.releaseId !in l.releasedIds ==> l.phase.req.initiator in s.ended)
  {
    RunKeeps(states, steps, i);
    assert Enabled(states[i], steps[i]);
  }

  /** Requests are served in the order of their arrival, none is lost and none served twice, across any
      number of hand-overs to a new run; and they are the requests of different calls, unless an
      attempt to signal one was repeated. */
  lemma ServedInOrder(states: seq<State>, steps: seq<Step>, i: nat)
    requires Run(states, steps) && i < |states|
    ensures states[i].arrivals == states[i].served + (if states[i].lock.Some? then states[i].lock.value.requests else [])
    ensures (forall k | 0 <= k < i :: !steps[k].AskAgain?) ==>
              forall j, k | 0 <= j < k < |states[i].arrivals| ::
                states[i].arrivals[j].signalName != states[i].arrivals[k].signalName
  {
    RunKeeps(states, steps, i);
    if forall k | 0 <= k < i :: !steps[k].AskAgain? {
      ArrivalsDiffer(states, steps, i);
    }
  }

  lemma {:induction false} ArrivalsDiffer(states: seq<State>, steps: seq<Step>, i: nat)
    requires Run(states, steps) && i < |states| && forall k | 0 <= k < i :: !steps[k].AskAgain?
    ensures forall k | 0 <= k < |states[i].arrivals| :: states[i].arrivals[k].signalName in states[i].clients
    ensures forall j, k | 0 <= j < k < |states[i].arrivals| ::
              states[i].arrivals[j].signalName != states[i].arrivals[k].signalName
  {
    if i > 0 {
      ArrivalsDiffer(states, steps, i - 1);
      assert Enabled(states[i - 1], steps[i - 1]);
    }
  }

  /** The requests ahead of the one with `k` before it: a serve step takes one of them
      away (or serves the request itself), every other step leaves them as they are. */
  lemma AheadFalls(s: State, st: Step, k: nat)
    requires Enabled(s, st) && s.lock.Some? && k < |s.lock.value.requests|
    ensures st.ServeRequest? && k == 0 ==> Apply(s, st).lock.value.phase == Sending(s.lock.value.requests[0], st.id)
    ensures !(st.ServeRequest? && k == 0) ==>
              var k' := if st.ServeRequest? then k - 1 else k;
              && Apply(s, st).lock.Some? && k' < |Apply(s, st).lock.value.requests|
              && Apply(s, st).lock.value.requests[k'] == s.lock.value.requests[k]
  {
  }

  /** Once the holder has released the lock or ended, the next pending request can be served
      in at most two steps of the lock workflow. */
  lemma ServeIsEnabled(s: State, id: ReleaseId)
    requires s.lock.Some? && s.lock.value.requests != [] && id != "" && id !in s.grants
    requires !s.lock.value.phase.Idle? ==>
               s.lock.value.phase.releaseId in s.lock.value.releasedIds || s.lock.value.phase.req.initiator in s.ended
    ensures var free :=
              match s.lock.value.phase
              case Idle => []
              case Sending(_, _) => if s.lock.value.phase.req.initiator in s.ended then [SendLock(false)]
                                    else [SendLock(true), TakeLockBack]
              case Holding(_, _) => [TakeLockBack];
            && (|free| > 0 ==> Enabled(s, free[0]))
            && var s1 := if |free| > 0 then Apply(s, free[0]) else s;
            && (|free| > 1 ==> Enabled(s1, free[1]))
            && var s2 := if |free| > 1 then Apply(s1, free[1]) else s1;
            && Enabled(s2, ServeRequest(id))
            && Apply(s2, ServeRequest(id)).served == s.served + [s.lock.value.requests[0]]
  {
  }

  // ---------- Requests served to calls that have ended ----------

  /** The call that the grant was made for has ended, and the release id is neither on its way nor known. */
  ghost predicate NeverReleased(s: State, id: ReleaseId) {
    && id in s.grants && s.grants[id] in s.clients && s.clients[s.grants[id]].pc == Gone
    && id !in s.releases && (s.lock.Some? ==> id !in s.lock.value.releasedIds)
  }

  lemma StaysGone(s: State, st: Step, n: SignalName)
    requires Enabled(s, st) && n in s.clients && s.clients[n].pc == Gone
    ensures n in Apply(s, st).clients && Apply(s, st).clients[n].pc == Gone
  {
  }

  lemma GrantStays(s: State, st: Step, id: ReleaseId)
    requires Enabled(s, st) && id in s.grants
    ensures id in Apply(s, st).grants && Apply(s, st).grants[id] == s.grants[id]
  {
  }

  lemma NeverReleasedStep(s: State, st: Step, id: ReleaseId)
    requires ClientsOk(s) && Enabled(s, st) && NeverReleased(s, id)
    ensures NeverReleased(Apply(s, st), id)
  {
    StaysGone(s, st, s.grants[id]);
    GrantStays(s, st, id);
  }

  /** A grant is new, so nobody can have released it. */
  lemma ServedToNobody(s: State, st: Step)
    requires Inv(s) && Enabled(s, st) && st.ServeRequest? && s.lock.value.requests[0].signalName in s.clients
    requires s.clients[s.lock.value.requests[0].signalName].pc == Gone
    ensures NeverReleased(Apply(s, st), st.id)
  {
  }

  lemma {:induction false} NeverReleasedForGood(states: seq<State>, steps: seq<Step>, i: nat, j: nat, id: ReleaseId)
    requires Run(states, steps) && i <= j < |states| && NeverReleased(states[i], id)
    ensures NeverReleased(states[j], id)
    decreases j
  {
    if i < j {
      NeverReleasedForGood(states, steps, i, j - 1, id);
      RunKeeps(states, steps, j - 1);
      assert Enabled(states[j - 1], steps[j - 1]);
      NeverReleasedStep(states[j - 1], steps[j - 1], id);
    }
  }

  /** A request that is served after its call has ended, because the call was cancelled while it waited
      or because an attempt to signal it was repeated, keeps the lock until the whole workflow of the call has ended. */
  lemma EndedCallKeepsTheLock(states: seq<State>, steps: seq<Step>, i: nat, j: nat)
    requires Run(states, steps) && i < j < |steps| && steps[i].ServeRequest? && steps[j].TakeLockBack?
    requires states[j].lock.value.phase.releaseId == steps[i].id
    requires var n := states[i].lock.value.requests[0].signalName; n in states[i].clients && states[i].clients[n].pc == Gone
    ensures states[j].lock.value.phase.req == states[i].lock.value.requests[0]
    ensures states[j].lock.value.phase.req.initiator in states[j].ended
  {
    RunKeeps(states, steps, i);
    RunKeeps(states, steps, j);
    assert Enabled(states[i], steps[i]) && Enabled(states[j], steps[j]);
    ServedToNobody(states[i], steps[i]);
    NeverReleasedForGood(states, steps, i + 1, j, steps[i].id);
    HolderOfGrant(states, steps, i, j);
  }

  /** The lock workflow holds the lock under a release id only for the request it made the id for. */
  lemma {:induction false} HolderOfGrant(states: seq<State>, steps: seq<Step>, i: nat, j: nat)
    requires Run(states, steps) && i < j < |states| && steps[i].ServeRequest?
    ensures steps[i].id in states[j].grants
    ensures Current(states[j]) == Some(steps[i].id) ==> states[j].lock.value.phase.req == states[i].lock.value.requests[0]
    decreases j
  {
    assert Enabled(states[j - 1], steps[j - 1]);
    if i < j - 1 {
      HolderOfGrant(states, steps, i, j - 1);
      HolderStays(states[j - 1], steps[j - 1], steps[i].id);
    }
  }

  lemma HolderStays(s: State, st: Step, id: ReleaseId)
    requires Enabled(s, st) && id in s.grants
    ensures id in Apply(s, st).grants
    ensures Current(Apply(s, st)) == Some(id) ==>
              Current(s) == Some(id) && Apply(s, st).lock.value.phase.req == s.lock.value.phase.req
  {
  }

  /** In particular, a call that was cancelled before it got the lock sends an empty release id; its request
      stays in the queue. */
  lemma CancelledWaiterKeepsTheLock(states: seq<State>, steps: seq<Step>, i: nat, j: nat, n: SignalName)
    requires Run(states, steps) && i <= j < |steps|
    requires n in states[i].clients && states[i].clients[n].pc == Gone && n !in states[i].grants.Values
    requires steps[j].TakeLockBack? && states[j].lock.value.phase.req.signalName == n
    ensures states[j].lock.value.phase.req.initiator in states[j].ended
  {
    RunKeeps(states, steps, j);
    assert Enabled(states[j], steps[j]);
    var k := GrantedSince(states, steps, i, j, states[j].lock.value.phase.releaseId, n);
    GoneSince(states, steps, i, k, n);
    EndedCallKeepsTheLock(states, steps, k, j);
  }

  lemma {:induction false} GoneSince(states: seq<State>, steps: seq<Step>, i: nat, j: nat, n: SignalName)
    requires Run(states, steps) && i <= j < |states| && n in states[i].clients && states[i].clients[n].pc == Gone
    ensures n in states[j].clients && states[j].clients[n].pc == Gone
    decreases j
  {
    if i < j {
      GoneSince(states, steps, i, j - 1, n);
      assert Enabled(states[j - 1], steps[j - 1]);
      StaysGone(states[j - 1], steps[j - 1], n);
    }
  }

  /** The step in which a grant was made. */
  lemma {:induction false} GrantedSince(states: seq<State>, steps: seq<Step>, i: nat, j: nat, id: ReleaseId, n: SignalName)
    returns (k: nat)
    requires Run(states, steps) && i <= j < |states| && n !in states[i].grants.Values
    requires id in states[j].grants && states[j].grants[id] == n
    ensures i <= k < j && steps[k] == ServeRequest(id) && states[k].lock.Some? && states[k].lock.value.requests != []
    ensures states[k].lock.value.requests[0].signalName == n
    decreases j
  {
    k := i;
    if i < j {
      assert Enabled(states[j - 1], steps[j - 1]);
      GrantComesFromServing(states[j - 1], steps[j - 1], id);
      if id in states[j - 1].grants {
        k := GrantedSince(states, steps, i, j - 1, id, n);
      } else {
        k := j - 1;
      }
    }
  }

  lemma GrantComesFromServing(s: State, st: Step, id: ReleaseId)
    requires Enabled(s, st) && id in Apply(s, st).grants
    ensures if id in s.grants then Apply(s, st).grants[id] == s.grants[id]
            else st == ServeRequest(id) && Apply(s, st).grants[id] == s.lock.value.requests[0].signalName
  {
  }

  // ---------- Such a run ----------

  const A := LockRequest("flow-a", "a")
  const B := LockRequest("flow-b", "b")

  lemma Extended(states: seq<State>, steps: seq<Step>, st: Step) returns (states': seq<State>, steps': seq<Step>)
    requires Run(states, steps) && Enabled(states[|steps|], st)
    ensures Run(states', steps') && states <= states' && steps' == steps + [st]
    ensures states'[|steps'|] == Apply(states[|steps|], st)
  {
    states', steps' := states + [Apply(states[|steps|], st)], steps + [st];
  }

  /** Somewhere on the way: the lock workflow, where both calls are, and the release signals. */
  ghost predicate Scene(s: State, lock: Lock, a: Pc, b: Pc, releases: multiset<ReleaseId>) {
    && s.lock == Some(lock) && s.clients == map["a" := Client("flow-a", a, ""), "b" := Client("flow-b", b, "")]
    && s.releases == releases && s.ended == {} && s.acquired == {}
    && (lock.phase.Idle? ==> s.grants == map[])
  }

  lemma BothAsk() returns (states: seq<State>, steps: seq<Step>)
    ensures Run(states, steps) && Scene(states[|steps|], Lock([A, B], {}, Idle), Asking, Asking, multiset{})
  {
    states, steps := [START], [];
    states, steps := Extended(states, steps, Ask("a", "flow-a"));
    assert [] + [A] == [A] && [A] + [B] == [A, B];
    states, steps := Extended(states, steps, Ask("b", "flow-b"));
  }

  lemma BothWait() returns (states: seq<State>, steps: seq<Step>)
    ensures Run(states, steps) && Scene(states[|steps|], Lock([A, B], {}, Idle), Waiting, Waiting, multiset{})
  {
    states, steps := BothAsk();
    states, steps := Extended(states, steps, AskReturns("a", true));
    states, steps := Extended(states, steps, AskReturns("b", true));
  }

  lemma FirstIsCancelled() returns (states: seq<State>, steps: seq<Step>)
    ensures Run(states, steps) && Scene(states[|steps|], Lock([A, B], {""}, Idle), Gone, Waiting, multiset{})
  {
    states, steps := BothWait();
    states, steps := Extended(states, steps, CancelWait("a"));
    assert Scene(states[|steps|], Lock([A, B], {}, Idle), Leaving, Waiting, multiset{});
    states, steps := Extended(states, steps, SendRelease("a", true));
    assert Scene(states[|steps|], Lock([A, B], {}, Idle), Gone, Waiting, multiset{""});
    states, steps := Extended(states, steps, ReceiveRelease(""));
    assert {} + {""} == {""};
  }

  /** The first of two calls is cancelled while it waits, and its release signal arrives. Its request is served all the
      same: the lock is held for it, cannot be taken back while its workflow runs, and the other call waits. */
  lemma CancelledCallIsServed() returns (states: seq<State>, steps: seq<Step>)
    ensures Run(states, steps) && states[|steps|].ended == {}
    ensures states[|steps|].lock == Some(Lock([B], {""}, Holding(A, "r")))
    ensures states[|steps|].clients == map["a" := Client("flow-a", Gone, ""), "b" := Client("flow-b", Waiting, "")]
    ensures !Enabled(states[|steps|], TakeLockBack) && Enabled(Apply(states[|steps|], EndWorkflow("flow-a")), TakeLockBack)
  {
    states, steps := FirstIsCancelled();
    states, steps := Extended(states, steps, ServeRequest("r"));
    assert states[|steps|].lock == Some(Lock([B], {""}, Sending(A, "r")));
    states, steps := Extended(states, steps, SendLock(true));
  }
}
