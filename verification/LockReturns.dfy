/** How the lock comes back from a call that ends normally: its release reaches the lock workflow, which then
    serves the next request without waiting for the workflow of the call to end. */
module LockReturns {
  import opened Wrappers
  import opened LockProtocol

  /** A call that was granted the lock and has not sent its release yet has the lock. */
  lemma GrantedHasTheLock(s: State, n: SignalName)
    requires Inv(s) && Alive(s, n) && s.clients[n].pc != Gone && s.clients[n].releaseId != ""
    ensures Current(s) == Some(s.clients[n].releaseId) && s.lock.value.phase.Holding?
    ensures s.lock.value.phase.req == LockRequest(s.clients[n].workflow, n)
  {
    var id := s.clients[n].releaseId;
    assert id in s.grants && s.grants[id] == n;
    assert !Retired(s, id);
  }

  /** The release id of the current grant is on its way or has arrived. */
  ghost predicate Returning(s: State, id: ReleaseId) {
    && s.lock.Some? && s.lock.value.phase.Holding? && s.lock.value.phase.releaseId == id
    && (id in s.releases || id in s.lock.value.releasedIds)
  }

  lemma ReleaseIsSent(s: State, n: SignalName)
    requires Inv(s) && Enabled(s, SendRelease(n, true)) && s.clients[n].releaseId != ""
    ensures Returning(Apply(s, SendRelease(n, true)), s.clients[n].releaseId)
  {
    GrantedHasTheLock(s, n);
  }

  lemma ReturningStays(s: State, st: Step, id: ReleaseId)
    requires Enabled(s, st) && Returning(s, id)
    ensures if st.TakeLockBack? then Apply(s, st).lock.Some? && Apply(s, st).lock.value.phase.Idle? else Returning(Apply(s, st), id)
  {
  }

  /** A lock that is returning can be taken back after at most one more signal has arrived, whoever's workflow runs on. */
  lemma ReturnsInOneStep(s: State, id: ReleaseId)
    requires Returning(s, id)
    ensures if id in s.lock.value.releasedIds then Enabled(s, TakeLockBack)
            else
              && Enabled(s, ReceiveRelease(id))
              && var received := Apply(s, ReceiveRelease(id));
              received.ended == s.ended && received.lock.value.requests == s.lock.value.requests && Enabled(received, TakeLockBack)
  {
  }

  /** Once a call that had been granted the lock has sent its release, then at any later time the lock was
      taken back, or it can be taken back after at most one more signal has arrived. */
  lemma {:induction false} LockComesBack(states: seq<State>, steps: seq<Step>, i: nat, j: nat, n: SignalName)
    requires Run(states, steps) && i < j < |states| && steps[i] == SendRelease(n, true)
    requires n in states[i].clients && states[i].clients[n].releaseId != ""
    ensures Returning(states[j], states[i].clients[n].releaseId) || exists k :: i < k < j && steps[k].TakeLockBack?
    decreases j
  {
    assert Enabled(states[j - 1], steps[j - 1]);
    if i == j - 1 {
      RunKeeps(states, steps, i);
      ReleaseIsSent(states[i], n);
    } else {
      LockComesBack(states, steps, i, j - 1, n);
      if Returning(states[j - 1], states[i].clients[n].releaseId) {
        ReturningStays(states[j - 1], steps[j - 1], states[i].clients[n].releaseId);
      }
    }
  }

  /** The steps in which a holder leaves and the next request is served. */
  function HandOver(n: SignalName, id: ReleaseId, next: ReleaseId): seq<Step> {
    [Leave(n), SendRelease(n, true), ReceiveRelease(id), TakeLockBack, ServeRequest(next)]
  }

  /** The steps can be taken, one after the other. */
  ghost predicate Possible(s: State, steps: seq<Step>)
    decreases |steps|
  {
    steps != [] ==> Enabled(s, steps[0]) && Possible(Apply(s, steps[0]), steps[1..])
  }

  ghost function AfterSteps(s: State, steps: seq<Step>): State
    requires Possible(s, steps)
    decreases |steps|
  {
    if steps == [] then s else AfterSteps(Apply(s, steps[0]), steps[1..])
  }

  lemma OneStep(s: State, st: Step, rest: seq<Step>)
    requires Enabled(s, st) && Possible(Apply(s, st), rest)
    ensures Possible(s, [st] + rest) && AfterSteps(s, [st] + rest) == AfterSteps(Apply(s, st), rest)
  {
    assert ([st] + rest)[1..] == rest;
  }

  lemma ServesTheFirst(s: State, next: ReleaseId)
    requires s.lock.Some? && s.lock.value.phase.Idle? && s.lock.value.requests != [] && next != "" && next !in s.grants
    ensures Possible(s, [ServeRequest(next)])
    ensures var after := AfterSteps(s, [ServeRequest(next)]);
            && after.lock.Some? && after.lock.value.phase == Sending(s.lock.value.requests[0], next)
            && after.served == s.served + [s.lock.value.requests[0]] && after.ended == s.ended
  {
    OneStep(s, ServeRequest(next), []);
    assert [ServeRequest(next)] + [] == [ServeRequest(next)];
  }

  /** The last three of these steps, from where the release id is on its way. */
  lemma FreedAndServed(s: State, id: ReleaseId, next: ReleaseId)
    requires Returning(s, id) && id in s.releases && s.lock.value.requests != [] && next != "" && next !in s.grants
    ensures var steps := [ReceiveRelease(id), TakeLockBack, ServeRequest(next)];
            && Possible(s, steps)
            && var after := AfterSteps(s, steps);
            && after.lock.Some? && after.lock.value.phase == Sending(s.lock.value.requests[0], next)
            && after.served == s.served + [s.lock.value.requests[0]] && after.ended == s.ended
  {
    var received := Apply(s, ReceiveRelease(id));
    var free := Apply(received, TakeLockBack);
    ServesTheFirst(free, next);
    OneStep(received, TakeLockBack, [ServeRequest(next)]);
    OneStep(s, ReceiveRelease(id), [TakeLockBack] + [ServeRequest(next)]);
    assert [ReceiveRelease(id), TakeLockBack, ServeRequest(next)] == [ReceiveRelease(id)] + ([TakeLockBack] + [ServeRequest(next)]);
  }

  /** In every run, when a call is inside its body and requests wait: it can leave, and without any workflow
      ending the first of them gets the lock. */
  lemma HolderHandsOver(states: seq<State>, steps: seq<Step>, i: nat, n: SignalName, next: ReleaseId)
    requires Run(states, steps) && i < |states| && Alive(states[i], n) && states[i].clients[n].pc == Inside
    requires next != "" && next !in states[i].grants
    ensures var (s, id) := (states[i], states[i].clients[n].releaseId);
            && s.lock.Some?
            && (s.lock.value.requests != [] ==>
                  && Possible(s, HandOver(n, id, next))
                  && var after := AfterSteps(s, HandOver(n, id, next));
                  && after.lock.Some? && after.lock.value.phase == Sending(s.lock.value.requests[0], next)
                  && after.served == s.served + [s.lock.value.requests[0]] && after.ended == s.ended)
  {
    RunKeeps(states, steps, i);
    var s, id := states[i], states[i].clients[n].releaseId;
    GrantedHasTheLock(s, n);
    if s.lock.value.requests != [] {
      var left := Apply(s, Leave(n));
      StepKeeps(s, Leave(n));
      ReleaseIsSent(left, n);
      var sent := Apply(left, SendRelease(n, true));
      var last := [ReceiveRelease(id), TakeLockBack, ServeRequest(next)];
      assert id in sent.releases;
      FreedAndServed(sent, id, next);
      OneStep(left, SendRelease(n, true), last);
      OneStep(s, Leave(n), [SendRelease(n, true)] + last);
      assert HandOver(n, id, next) == [Leave(n)] + ([SendRelease(n, true)] + last);
    }
  }

  /** A call that waits when its request is served can receive the lock and enter its body. */
  lemma ServedCallEnters(states: seq<State>, steps: seq<Step>, i: nat)
    requires Run(states, steps) && i < |states| && states[i].lock.Some? && states[i].lock.value.phase.Sending?
    ensures var (s, n, id) := (states[i], states[i].lock.value.phase.req.signalName, states[i].lock.value.phase.releaseId);
            Alive(s, n) && s.clients[n].pc == Waiting ==>
              && Possible(s, [SendLock(true), ReceiveLock(n, id), Enter(n)])
              && var after := AfterSteps(s, [SendLock(true), ReceiveLock(n, id), Enter(n)]);
              Alive(after, n) && after.clients[n] == Client(s.clients[n].workflow, Inside, id) && after.ended == s.ended
              && (n, id) !in after.acquired
  {
    RunKeeps(states, steps, i);
    var s := states[i];
    var n, id := s.lock.value.phase.req.signalName, s.lock.value.phase.releaseId;
    if Alive(s, n) && s.clients[n].pc == Waiting {
      var sent := Apply(s, SendLock(true));
      var received := Apply(sent, ReceiveLock(n, id));
      OneStep(received, Enter(n), []);
      OneStep(sent, ReceiveLock(n, id), [Enter(n)] + []);
      OneStep(s, SendLock(true), [ReceiveLock(n, id)] + ([Enter(n)] + []));
      assert [SendLock(true), ReceiveLock(n, id), Enter(n)] == [SendLock(true)] + ([ReceiveLock(n, id)] + ([Enter(n)] + []));
    }
  }

  predicate Remembers(s: State, id: ReleaseId) {
    s.lock.Some? && id in s.lock.value.releasedIds
  }

  lemma RemembersBefore(s: State, st: Step, id: ReleaseId)
    requires Enabled(s, st) && Remembers(Apply(s, st), id) && st != ReceiveRelease(id)
    ensures Remembers(s, id)
  {
  }

  /** When the lock comes back its release id is forgotten, and remembered again only if it arrives late. */
  lemma {:induction false} ForgetsTheId(states: seq<State>, steps: seq<Step>, i: nat, j: nat)
    requires Run(states, steps) && i < j < |states| && steps[i].TakeLockBack? && states[i].lock.Some? && states[i].lock.value.phase.Holding?
    requires Remembers(states[j], states[i].lock.value.phase.releaseId)
    ensures exists k :: i < k < j && steps[k] == ReceiveRelease(states[i].lock.value.phase.releaseId)
    decreases j
  {
    var id := states[i].lock.value.phase.releaseId;
    assert Enabled(states[j - 1], steps[j - 1]);
    if j - 1 > i && steps[j - 1] != ReceiveRelease(id) {
      RemembersBefore(states[j - 1], steps[j - 1], id);
      ForgetsTheId(states, steps, i, j - 1);
    }
  }

  /** A lock workflow without requests can stop; release ids on their way to it are then lost, and the next request starts
      another one that remembers none. */
  lemma StopsAndStarts(s: State, n: SignalName, w: WorkflowId, id: ReleaseId)
    requires s.lock.Some? && s.lock.value.phase.Idle? && s.lock.value.requests == [] && n !in s.clients && w !in s.ended
    ensures Enabled(s, Stop) && Apply(s, Stop) == s.(lock := None) && Enabled(Apply(s, Stop), Ask(n, w))
    ensures Apply(Apply(s, Stop), Ask(n, w)).lock == Some(Lock([LockRequest(w, n)], {}, Idle))
    ensures id in s.releases ==>
              && Enabled(Apply(s, Stop), LoseRelease(id))
              && Apply(Apply(s, Stop), LoseRelease(id)) == s.(lock := None, releases := s.releases - multiset{id})
  {
    assert [] + [LockRequest(w, n)] == [LockRequest(w, n)];
  }
}
