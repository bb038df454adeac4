/** How reservations end: a workspace that unreserves frees the event, and once all have, an archival that waits
    goes through. */
module ReservationsEnd {
  import opened PrebuildReservations

  // ---------- Who owns what ----------

  /** The process has not inserted a reservation yet. */
  predicate Before(proc: Proc) {
    proc.Creating? || proc.CreateChecked? || proc.Archiving? || proc.ArchiveChecked?
  }

  predicate OwnsNothing(s: State, p: Pid) {
    forall id | id in s.reservations && id in s.owners :: s.owners[id] != p
  }

  /** Whoever owns a reservation has inserted one, and a process inserts one only. */
  ghost predicate OwnersInserted(s: State) {
    forall id | id in s.owners :: s.owners[id] in s.procs && !Before(s.procs[s.owners[id]])
  }

  ghost predicate OneEach(s: State) {
    forall a, b | a in s.owners && b in s.owners && s.owners[a] == s.owners[b] :: a == b
  }

  /** A workspace keeps its id for as long as it has to do with it. */
  ghost predicate IdsKept(s: State) {
    forall p | p in s.procs && (Creator(s.procs[p]) || s.procs[p].Unreserving?) ::
      s.procs[p].id in s.owners && s.owners[s.procs[p].id] == p
  }

  ghost predicate OwnersOk(s: State) {
    s.reservations.Keys <= s.owners.Keys && OwnersInserted(s) && OneEach(s) && IdsKept(s)
  }

  lemma InsertedStays(s: State, st: Step)
    requires OwnersInserted(s) && Enabled(s, st)
    ensures OwnersInserted(Apply(s, st))
  {
  }

  lemma OneEachStays(s: State, st: Step)
    requires OwnersInserted(s) && OneEach(s) && Enabled(s, st)
    ensures OneEach(Apply(s, st))
  {
    if st.Insert? {
      assert forall id | id in s.owners :: s.owners[id] != st.p;
    } else {
      assert Apply(s, st).owners == s.owners;
    }
  }

  lemma IdsStayKept(s: State, st: Step)
    requires IdsKept(s) && Enabled(s, st)
    ensures IdsKept(Apply(s, st))
  {
  }

  lemma OwnersStayOk(s: State, st: Step)
    requires OwnersOk(s) && Enabled(s, st)
    ensures OwnersOk(Apply(s, st))
  {
    InsertedStays(s, st);
    OneEachStays(s, st);
    IdsStayKept(s, st);
    assert Apply(s, st).reservations.Keys <= Apply(s, st).owners.Keys;
  }

  lemma {:induction false} AllOwnersOk(states: seq<State>, steps: seq<Step>, i: nat)
    requires Steps(states, steps) && Start(states[0]) && i < |states|
    ensures OwnersOk(states[i])
  {
    if i > 0 {
      AllOwnersOk(states, steps, i - 1);
      assert Enabled(states[i - 1], steps[i - 1]);
      OwnersStayOk(states[i - 1], steps[i - 1]);
    }
  }

  /** When a workspace unreserves, nothing that it owned is left, and everything that others own is as it was. */
  lemma UnreserveFrees(states: seq<State>, steps: seq<Step>, i: nat, p: Pid)
    requires Steps(states, steps) && Start(states[0]) && i < |steps| && steps[i] == Unreserve(p, true)
    ensures OwnsNothing(states[i + 1], p) && states[i + 1].procs[p] == Finished
    ensures states[i + 1].owners == states[i].owners && states[i + 1].reservations.Keys <= states[i].reservations.Keys
    ensures forall id | id in states[i].reservations ::
              && id in states[i].owners
              && (states[i].owners[id] != p ==>
                    id in states[i + 1].reservations && states[i + 1].reservations[id] == states[i].reservations[id])
  {
    AllOwnersOk(states, steps, i);
    assert Enabled(states[i], steps[i]);
  }

  // ---------- The event is free ----------

  /** The process was finished with nothing left of its own. */
  predicate Done(s: State, p: Pid) {
    p in s.procs && s.procs[p].Finished? && OwnsNothing(s, p)
  }

  lemma DoneStays(s: State, st: Step, p: Pid)
    requires Enabled(s, st) && Done(s, p)
    ensures Done(Apply(s, st), p)
  {
  }

  lemma {:induction false} StaysDone(states: seq<State>, steps: seq<Step>, k: nat, i: nat, p: Pid)
    requires Steps(states, steps) && k <= i < |states| && Done(states[k], p)
    ensures Done(states[i], p)
    decreases i
  {
    if k < i {
      StaysDone(states, steps, k, i - 1, p);
      assert Enabled(states[i - 1], steps[i - 1]);
      DoneStays(states[i - 1], steps[i - 1], p);
    }
  }

  lemma OwnerStep(s: State, st: Step, id: ReservationId)
    requires Enabled(s, st) && id in Apply(s, st).owners && id !in s.owners
    ensures st == Insert(Apply(s, st).owners[id], id)
  {
  }

  lemma OwnerStays(s: State, st: Step, id: ReservationId)
    requires Enabled(s, st) && id in s.owners
    ensures id in Apply(s, st).owners && Apply(s, st).owners[id] == s.owners[id]
  {
  }

  /** Whoever owns a reservation inserted it. */
  lemma {:induction false} OwnerInserted(states: seq<State>, steps: seq<Step>, i: nat, id: ReservationId) returns (k: nat)
    requires Steps(states, steps) && Start(states[0]) && i < |states| && id in states[i].owners
    ensures k < i && steps[k] == Insert(states[i].owners[id], id)
    decreases i
  {
    k := i - 1;
    assert Enabled(states[k], steps[k]) && states[i] == Apply(states[k], steps[k]);
    if id in states[k].owners {
      OwnerStays(states[k], steps[k], id);
      k := OwnerInserted(states, steps, i - 1, id);
    } else {
      OwnerStep(states[k], steps[k], id);
    }
  }

  /** The process has no part in the event (any more): it never reserved it, or has unreserved it. */
  ghost predicate Through(steps: seq<Step>, i: nat, p: Pid)
    requires i <= |steps|
  {
    (forall k | 0 <= k < i :: !(steps[k].Insert? && steps[k].p == p)) || exists k :: 0 <= k < i && steps[k] == Unreserve(p, true)
  }

  lemma ThroughOwnsNothing(states: seq<State>, steps: seq<Step>, i: nat, p: Pid)
    requires Steps(states, steps) && Start(states[0]) && i <= |steps| && Through(steps, i, p)
    ensures OwnsNothing(states[i], p)
  {
    if k :| 0 <= k < i && steps[k] == Unreserve(p, true) {
      UnreserveFrees(states, steps, k, p);
      StaysDone(states, steps, k + 1, i, p);
    } else if id :| id in states[i].reservations && id in states[i].owners && states[i].owners[id] == p {
      var k := OwnerInserted(states, steps, i, id);
    }
  }

  /** The archiver waits, its reservation is valid, and all other processes are through. */
  ghost predicate OnlyArchiver(states: seq<State>, steps: seq<Step>, i: nat, q: Pid, id: ReservationId)
    requires Steps(states, steps) && i <= |steps|
  {
    var s := states[i];
    && q in s.procs && s.procs[q] == WaitingForOthers(id)
    && id in Valid(s) && s.reservations[id].kind == ArchivePrebuild && id in s.owners && s.owners[id] == q
    && forall p | p in s.procs && p != q :: Through(steps, i, p)
  }

  lemma OnlyItsOwn(states: seq<State>, steps: seq<Step>, i: nat, q: Pid, id: ReservationId)
    requires Steps(states, steps) && Start(states[0]) && i <= |steps| && OnlyArchiver(states, steps, i, q, id)
    ensures Valid(states[i]) == {id}
  {
    AllOwnersOk(states, steps, i);
    var s := states[i];
    forall other | other in Valid(s) ensures other == id {
      assert s.owners[other] in s.procs;
      if s.owners[other] != q {
        ThroughOwnsNothing(states, steps, i, s.owners[other]);
      }
    }
  }

  /** Then the next poll lets it go ahead, without any time passing. */
  lemma PollSucceeds(states: seq<State>, steps: seq<Step>, i: nat, q: Pid, id: ReservationId)
    requires Steps(states, steps) && Start(states[0]) && i <= |steps| && OnlyArchiver(states, steps, i, q, id)
    ensures Enabled(states[i], Poll(q)) && Apply(states[i], Poll(q)) == Put(states[i], q, ReadyToDelete(id))
  {
    OnlyItsOwn(states, steps, i, q, id);
  }

  lemma BothRemoved(states0: seq<State>, steps0: seq<Step>, q: Pid, id: ReservationId) returns (states: seq<State>, steps: seq<Step>)
    requires Steps(states0, steps0)
    requires var s := states0[|steps0|]; s.rows && s.status != Archived && q in s.procs && s.procs[q] == Deleting(id)
    ensures Continues(states0, steps0, states, steps)
    ensures var s := states[|steps|];
            s.rows && s.status != Archived && q in s.procs && s.procs[q] == Deleting(id) && s.images == {}
  {
    states, steps := Extended(states0, steps0, RemoveImage(q, RootFs));
    states, steps := Extended(states, steps, RemoveImage(q, ProjectFiles));
    forall part ensures part !in states[|steps|].images {
      assert part == RootFs || part == ProjectFiles;
    }
  }

  /** And the archival can be completed: the images are removed and no longer listed, and no archive reservation is left. */
  lemma ArchivalCompletes(states0: seq<State>, steps0: seq<Step>, q: Pid, id: ReservationId)
    returns (states: seq<State>, steps: seq<Step>)
    requires Steps(states0, steps0) && Start(states0[0]) && OnlyArchiver(states0, steps0, |steps0|, q, id)
    requires states0[|steps0|].rows && states0[|steps0|].status != Archived
    ensures Continues(states0, steps0, states, steps)
    ensures var s := states[|steps|];
            && !s.rows && s.images == {} && s.status == Archived && q in s.procs && s.procs[q].Finished?
            && forall other | other in s.reservations :: s.reservations[other].kind != ArchivePrebuild
  {
    PollSucceeds(states0, steps0, |steps0|, q, id);
    states, steps := Extended(states0, steps0, Poll(q));
    states, steps := Extended(states, steps, FindImages(q));
    assert states[|steps|].procs[q] == Deleting(id);
    var states1, steps1 := BothRemoved(states, steps, q, id);
    ContinuesOn(states0, steps0, states, steps, states1, steps1);
    states, steps := Extended(states1, steps1, MarkArchived(q));
    ContinuesOn(states0, steps0, states1, steps1, states, steps);
  }

  // ---------- Time ----------

  /** The moment at which the reservation of a process expires, from its begin on. */
  predicate Until(proc: Proc, t: nat) {
    (proc.Creating? || proc.CreateChecked? || proc.Archiving? || proc.ArchiveChecked?) && proc.validUntil == t
  }

  lemma UntilBegins(s: State, st: Step, p: Pid, t: nat)
    requires (st.BeginCreate? || st.BeginArchive?) && Enabled(s, st) && p in Apply(s, st).procs && Until(Apply(s, st).procs[p], t)
    requires st.p == p
    ensures t == s.clock + if st.BeginCreate? then 15 * 60 * 1000 else 24 * 60 * 60 * 1000
  {
  }

  lemma UntilStays(s: State, st: Step, p: Pid, t: nat)
    requires Enabled(s, st) && p in Apply(s, st).procs && Until(Apply(s, st).procs[p], t)
    requires st != BeginCreate(p) && st != BeginArchive(p)
    ensures p in s.procs && Until(s.procs[p], t)
  {
    if !st.Check? {
      assert p in s.procs && Apply(s, st).procs[p] == s.procs[p];
    }
  }

  lemma {:induction false} BegunWhen(states: seq<State>, steps: seq<Step>, i: nat, p: Pid, t: nat) returns (k: nat)
    requires Steps(states, steps) && Start(states[0]) && i < |states| && p in states[i].procs && Until(states[i].procs[p], t)
    ensures k < i
    ensures (steps[k] == BeginCreate(p) && t == states[k].clock + 15 * 60 * 1000)
            || (steps[k] == BeginArchive(p) && t == states[k].clock + 24 * 60 * 60 * 1000)
    decreases i
  {
    k := i - 1;
    assert Enabled(states[k], steps[k]) && states[i] == Apply(states[k], steps[k]);
    if steps[k] == BeginCreate(p) || steps[k] == BeginArchive(p) {
      UntilBegins(states[k], steps[k], p, t);
    } else {
      UntilStays(states[k], steps[k], p, t);
      k := BegunWhen(states, steps, i - 1, p, t);
    }
  }

  lemma ReservationStep(s: State, st: Step, id: ReservationId)
    requires Enabled(s, st) && id in Apply(s, st).reservations
    ensures (id in s.reservations && Apply(s, st).reservations[id] == s.reservations[id])
            || (st == Insert(Apply(s, st).owners[id], id) && st.p in s.procs
                && Until(s.procs[st.p], Apply(s, st).reservations[id].validUntil))
  {
  }

  /** A reservation counts until fifteen minutes after a workspace, or a day after an archival, began to reserve, and no longer. */
  lemma {:induction false} ReservationExpires(states: seq<State>, steps: seq<Step>, i: nat, id: ReservationId) returns (k: nat)
    requires Steps(states, steps) && Start(states[0]) && i < |states| && id in states[i].reservations
    ensures k < i && (steps[k].BeginCreate? || steps[k].BeginArchive?)
    ensures id in Valid(states[i]) <==>
              states[i].clock < states[k].clock + if steps[k].BeginCreate? then 15 * 60 * 1000 else 24 * 60 * 60 * 1000
    decreases i
  {
    k := MadeWhen(states, steps, i, id);
  }

  lemma {:induction false} MadeWhen(states: seq<State>, steps: seq<Step>, i: nat, id: ReservationId) returns (k: nat)
    requires Steps(states, steps) && Start(states[0]) && i < |states| && id in states[i].reservations
    ensures k < i && (steps[k].BeginCreate? || steps[k].BeginArchive?)
    ensures states[i].reservations[id].validUntil
         == states[k].clock + if steps[k].BeginCreate? then 15 * 60 * 1000 else 24 * 60 * 60 * 1000
    decreases i
  {
    assert i > 0 && Enabled(states[i - 1], steps[i - 1]) && states[i] == Apply(states[i - 1], steps[i - 1]);
    ReservationStep(states[i - 1], steps[i - 1], id);
    if id in states[i - 1].reservations && states[i - 1].reservations[id] == states[i].reservations[id] {
      k := MadeWhen(states, steps, i - 1, id);
    } else {
      k := BegunWhen(states, steps, i - 1, steps[i - 1].p, states[i].reservations[id].validUntil);
    }
  }

  /** Time can pass, and it changes nothing but the clock; it is in time for all who have finished. */
  lemma TimePasses(s: State, ms: nat)
    ensures Enabled(s, Tick(ms)) && Apply(s, Tick(ms)) == s.(clock := s.clock + ms)
    ensures (forall q | q in s.procs :: s.procs[q].Finished? || s.procs[q].Unreserving?) ==> InTime(s, Tick(ms))
  {
  }

  // ---------- A workspace ----------

  /** The process is at that point, and the rest is as it was found. */
  ghost predicate Reached(s0: State, s: State, p: Pid, proc: Proc, reservations: map<ReservationId, Reservation>) {
    && p in s.procs && s.procs == s0.procs[p := proc] && s.reservations == reservations
    && s.rows == s0.rows && s.images == s0.images && s.status == s0.status && s.clock == s0.clock && s.broken == s0.broken
  }

  /** While an archival is reserved a workspace is refused and leaves nothing behind. */
  lemma WorkspaceIsRefused(states0: seq<State>, steps0: seq<Step>, p: Pid) returns (states: seq<State>, steps: seq<Step>)
    requires Steps(states0, steps0) && p !in states0[|steps0|].procs && ArchiveReserved(states0[|steps0|])
    ensures Continues(states0, steps0, states, steps)
    ensures Reached(states0[|steps0|], states[|steps|], p, Finished, states0[|steps0|].reservations)
  {
    var s := states0[|steps0|];
    states, steps := Extended(states0, steps0, BeginCreate(p));
    SameReservations(s, states[|steps|]);
    states, steps := Extended(states, steps, Check(p));
  }

  lemma WorkspaceReserves(states0: seq<State>, steps0: seq<Step>, p: Pid, id: ReservationId)
    returns (states: seq<State>, steps: seq<Step>)
    requires Steps(states0, steps0) && p !in states0[|steps0|].procs && !ArchiveReserved(states0[|steps0|])
    requires id !in states0[|steps0|].owners
    ensures Continues(states0, steps0, states, steps)
    ensures var s := states0[|steps0|];
            Reached(s, states[|steps|], p, CreateReserved(id),
                    s.reservations[id := Reservation(CreateWorkspace, s.clock + FIFTEEN_MINUTES)])
  {
    var s := states0[|steps0|];
    states, steps := Extended(states0, steps0, BeginCreate(p));
    SameReservations(s, states[|steps|]);
    states, steps := Extended(states, steps, Check(p));
    assert states[|steps|].procs[p] == CreateChecked(s.clock + FIFTEEN_MINUTES);
    states, steps := Extended(states, steps, Insert(p, id));
  }

  /** The clone of one image, after those of others. */
  lemma OneIsCloned(states0: seq<State>, steps0: seq<Step>, p: Pid, id: ReservationId, part: Part, before: set<Part>)
    returns (states: seq<State>, steps: seq<Step>)
    requires Steps(states0, steps0) && part !in before
    requires var s := states0[|steps0|];
             p in s.procs && s.procs[p] == Cloning(id, {}, before) && part in s.images
    ensures Continues(states0, steps0, states, steps)
    ensures var s := states0[|steps0|]; Reached(s, states[|steps|], p, Cloning(id, {}, before + {part}), s.reservations)
  {
    states, steps := Extended(states0, steps0, ReadImage(p, part));
    assert {} + {part} == {part};
    assert states[|steps|].procs[p] == Cloning(id, {part}, before);
    states, steps := Extended(states, steps, WriteContainer(p, part));
    assert {part} - {part} == {};
  }

  lemma WorkspaceClones(states0: seq<State>, steps0: seq<Step>, p: Pid, id: ReservationId)
    returns (states: seq<State>, steps: seq<Step>)
    requires Steps(states0, steps0)
    requires var s := states0[|steps0|];
             p in s.procs && s.procs[p] == CreateReserved(id) && s.rows && s.images == BOTH
    ensures Continues(states0, steps0, states, steps)
    ensures var s := states0[|steps0|]; Reached(s, states[|steps|], p, Cloning(id, {}, BOTH), s.reservations)
  {
    var states1, steps1 := Extended(states0, steps0, ReadRows(p));
    var states2, steps2 := OneIsCloned(states1, steps1, p, id, RootFs, {});
    ContinuesOn(states0, steps0, states1, steps1, states2, steps2);
    states, steps := OneIsCloned(states2, steps2, p, id, ProjectFiles, {} + {RootFs});
    ContinuesOn(states0, steps0, states2, steps2, states, steps);
    assert {} + {RootFs} + {ProjectFiles} == BOTH;
  }

  /** When no archival is reserved and both images are there, a workspace can be created, and in the end nothing
      of its reservation is left. */
  lemma WorkspaceIsCreated(states0: seq<State>, steps0: seq<Step>, p: Pid, id: ReservationId)
    returns (cloned: nat, states: seq<State>, steps: seq<Step>)
    requires Steps(states0, steps0) && p !in states0[|steps0|].procs && !ArchiveReserved(states0[|steps0|])
    requires id !in states0[|steps0|].owners && id !in states0[|steps0|].reservations
    requires states0[|steps0|].rows && states0[|steps0|].images == BOTH
    ensures Continues(states0, steps0, states, steps) && cloned < |states|
    ensures p in states[cloned].procs && states[cloned].procs[p] == Cloning(id, {}, BOTH)
    ensures Reached(states0[|steps0|], states[|steps|], p, Finished, states0[|steps0|].reservations)
  {
    var s := states0[|steps0|];
    var states1, steps1 := WorkspaceReserves(states0, steps0, p, id);
    states, steps := WorkspaceClones(states1, steps1, p, id);
    ContinuesOn(states0, steps0, states1, steps1, states, steps);
    cloned := |steps|;
    var states2, steps2 := Extended(states, steps, EndCreate(p));
    ContinuesOn(states0, steps0, states, steps, states2, steps2);
    assert states2[|steps2|].procs[p] == Unreserving(id);
    states, steps := Extended(states2, steps2, Unreserve(p, true));
    ContinuesOn(states0, steps0, states2, steps2, states, steps);
    assert s.reservations[id := Reservation(CreateWorkspace, s.clock + FIFTEEN_MINUTES)] - {id} == s.reservations;
  }
}
