/** The monitors that archive superseded prebuilds, while repositories are synchronised and prebuilds are made. What a
    monitor has found may be outdated before it is archived: only links are kept apart from that by a lock. */
module ArchiveMonitor {
  import opened ArchivablePrebuilds

  /** `listed` holds what some monitor found archivable and has not left behind yet. */
  datatype State = State(tables: Tables, listed: set<PrebuildId>)

  datatype Step =
    // runMonitorArchivablePrebuilds, of any project
    | Query(project: ProjectId, now: int, found: set<PrebuildId>)
    | Reserve(p: PrebuildId)
    | Leave(gone: set<PrebuildId>)
    | MarkArchived(p: PrebuildId)
    // everybody else
    | AddObject(id: ObjectId, createdAt: int)
    | AddLink(id: ObjectId, branch: BranchId)
    | AddPrebuild(p: PrebuildId, prebuild: Prebuild)
    | SetStatus(p: PrebuildId, status: Status)

  /** A monitor may skip what it archived recently. A prebuild starts unfinished, and once finished its status changes only
      by archiving. */
  predicate Enabled(s: State, st: Step) {
    match st
    case Query(project, now, found) => found <= Archivable(s.tables, project, now)
    case Reserve(p) => p in s.listed && p in s.tables.prebuilds
    case Leave(_) => true
    case MarkArchived(p) => p in s.tables.prebuilds && s.tables.prebuilds[p].status == PendingArchive
    case AddObject(id, _) => id !in s.tables.objects
    case AddLink(id, _) => id in s.tables.objects
    case AddPrebuild(p, prebuild) =>
      p !in s.tables.prebuilds && prebuild.status == Pending && prebuild.object_ in s.tables.objects
    case SetStatus(p, _) => p in s.tables.prebuilds && s.tables.prebuilds[p].status in {Pending, Running}
  }

  function SetTo(t: Tables, p: PrebuildId, status: Status): Tables
    requires p in t.prebuilds
  {
    t.(prebuilds := t.prebuilds[p := t.prebuilds[p].(status := status)])
  }

  function Apply(s: State, st: Step): State
    requires Enabled(s, st)
  {
    var t := s.tables;
    match st
    case Query(_, _, found) => s.(listed := s.listed + found)
    case Reserve(p) => s.(tables := SetTo(t, p, PendingArchive))
    case Leave(gone) => s.(listed := s.listed - gone)
    case MarkArchived(p) => s.(tables := SetTo(t, p, Archived))
    case AddObject(id, createdAt) => s.(tables := t.(objects := t.objects[id := createdAt]))
    case AddLink(id, branch) => s.(tables := t.(links := t.links + {(id, branch)}))
    case AddPrebuild(p, prebuild) => s.(tables := t.(prebuilds := t.prebuilds[p := prebuild]))
    case SetStatus(p, status) => s.(tables := SetTo(t, p, status))
  }

  predicate OfMonitors(st: Step) {
    st.Query? || st.Reserve? || st.Leave? || st.MarkArchived?
  }

  /** The lock of the repository: while a monitor of the project has listed a prebuild of an object, that object is not
      linked to the branch. */
  predicate Locked(s: State, st: Step, project: ProjectId, branch: BranchId) {
    st.AddLink? && st.branch == branch ==>
      forall p | p in s.listed && p in s.tables.prebuilds && s.tables.prebuilds[p].project == project ::
        s.tables.prebuilds[p].object_ != st.id
  }

  // ---------- The invariant ----------

  /** Every prebuild and every link has its object. */
  ghost predicate KeysOk(t: Tables) {
    && (forall p | p in t.prebuilds :: t.prebuilds[p].object_ in t.objects)
    && forall link | link in t.links :: link.0 in t.objects
  }

  ghost predicate ListedOk(s: State) {
    forall p | p in s.listed :: p in s.tables.prebuilds && s.tables.prebuilds[p].status !in {Pending, Running}
  }

  /** All that is listed has been superseded on the branch. */
  ghost predicate NoneNewest(s: State, project: ProjectId, branch: BranchId) {
    forall p | p in s.listed :: !Newest(s.tables, project, branch, p)
  }

  ghost predicate Inv(s: State, project: ProjectId, branch: BranchId) {
    KeysOk(s.tables) && ListedOk(s) && NoneNewest(s, project, branch)
  }

  /** Objects and dates of prebuilds never change, so neither does their order. */
  lemma OrderStays(s: State, st: Step, p: PrebuildId, q: PrebuildId)
    requires KeysOk(s.tables) && Enabled(s, st) && p in s.tables.prebuilds && q in s.tables.prebuilds
    ensures KeysOk(Apply(s, st).tables) && p in Apply(s, st).tables.prebuilds && q in Apply(s, st).tables.prebuilds
    ensures Before(Apply(s, st).tables, p, q) <==> Before(s.tables, p, q)
  {
  }

  /** Only archiving takes a row away. */
  lemma RowStays(s: State, st: Step, project: ProjectId, branch: BranchId, p: PrebuildId)
    requires Enabled(s, st) && Row(s.tables, project, branch, p) && st != Reserve(p)
    ensures Row(Apply(s, st).tables, project, branch, p)
  {
  }

  /** Monitors add no row, and nobody adds one of a listed prebuild behind the lock. */
  lemma RowBefore(s: State, st: Step, project: ProjectId, branch: BranchId, p: PrebuildId)
    requires KeysOk(s.tables) && ListedOk(s) && Enabled(s, st) && Locked(s, st, project, branch)
    requires OfMonitors(st) || p in s.listed
    requires Row(Apply(s, st).tables, project, branch, p)
    ensures Row(s.tables, project, branch, p)
  {
  }

  lemma OldestIsBehind(t: Tables, project: ProjectId, branch: BranchId, n: PrebuildId, p: PrebuildId)
    requires Row(t, project, branch, n) && Row(t, project, branch, p) && Before(t, n, p)
    ensures !Newest(t, project, branch, p)
  {
    NoNewerIsNotBefore(t, n, p);
  }

  /** What was superseded stays so: the newest prebuild ahead of it is not archived. */
  lemma StaysSuperseded(s: State, st: Step, project: ProjectId, branch: BranchId, p: PrebuildId)
    requires Inv(s, project, branch) && Enabled(s, st) && Locked(s, st, project, branch) && p in s.listed
    ensures !Newest(Apply(s, st).tables, project, branch, p)
  {
    var t' := Apply(s, st).tables;
    if Row(t', project, branch, p) {
      RowBefore(s, st, project, branch, p);
      var n := NewestExists(s.tables, project, branch, p);
      RowStays(s, st, project, branch, n);
      OrderStays(s, st, n, p);
      OldestIsBehind(t', project, branch, n, p);
    }
  }

  lemma ListedStaysOk(s: State, st: Step)
    requires KeysOk(s.tables) && ListedOk(s) && Enabled(s, st)
    ensures KeysOk(Apply(s, st).tables) && ListedOk(Apply(s, st))
  {
  }

  lemma StepKeeps(s: State, st: Step, project: ProjectId, branch: BranchId)
    requires Inv(s, project, branch) && Enabled(s, st) && Locked(s, st, project, branch)
    ensures Inv(Apply(s, st), project, branch)
  {
    ListedStaysOk(s, st);
    forall p | p in Apply(s, st).listed ensures !Newest(Apply(s, st).tables, project, branch, p) {
      if p in s.listed {
        StaysSuperseded(s, st, project, branch, p);
      } else if Newest(s.tables, project, branch, p) {
        OtherProjectsAreSpared(s.tables, st.project, st.now, project, branch, p);
      }
    }
  }

  // ---------- What a step does to the newest prebuild ----------

  /** Nothing but a newer prebuild takes the place of the newest one. */
  lemma StepKeepsUpToDate(s: State, st: Step, project: ProjectId, branch: BranchId, n: PrebuildId) returns (m: PrebuildId)
    requires Inv(s, project, branch) && Enabled(s, st) && Newest(s.tables, project, branch, n)
    ensures Newest(Apply(s, st).tables, project, branch, m)
    ensures m == n || Before(Apply(s, st).tables, m, n)
  {
    RowStays(s, st, project, branch, n);
    m := NewestExists(Apply(s, st).tables, project, branch, n);
  }

  lemma NewestIsOne(t: Tables, project: ProjectId, branch: BranchId, n: PrebuildId, m: PrebuildId)
    requires Newest(t, project, branch, n) && Newest(t, project, branch, m)
    ensures n == m
  {
    NewestIsAhead(t, project, branch, n, m);
    NewestIsAhead(t, project, branch, m, n);
  }

  lemma NewestStays(s: State, st: Step, project: ProjectId, branch: BranchId, n: PrebuildId)
    requires Inv(s, project, branch) && Enabled(s, st) && OfMonitors(st) && Newest(s.tables, project, branch, n)
    ensures Newest(Apply(s, st).tables, project, branch, n)
  {
    var t' := Apply(s, st).tables;
    RowStays(s, st, project, branch, n);
    forall q | Row(t', project, branch, q) ensures NoNewer(t', q, n) {
      RowBefore(s, st, project, branch, q);
      assert NoNewer(s.tables, q, n);
    }
  }

  /** A step of a monitor, of any project, leaves it as it was. */
  lemma MonitorStepKeepsNewest(s: State, st: Step, project: ProjectId, branch: BranchId, n: PrebuildId)
    requires Inv(s, project, branch) && Enabled(s, st) && OfMonitors(st)
    ensures Newest(Apply(s, st).tables, project, branch, n) <==> Newest(s.tables, project, branch, n)
  {
    var t' := Apply(s, st).tables;
    if Newest(s.tables, project, branch, n) {
      NewestStays(s, st, project, branch, n);
    } else if Newest(t', project, branch, n) {
      RowBefore(s, st, project, branch, n);
      var m := NewestExists(s.tables, project, branch, n);
      NewestStays(s, st, project, branch, m);
      NewestIsOne(t', project, branch, n, m);
    }
  }

  // ---------- Runs ----------

  ghost predicate Run(states: seq<State>, steps: seq<Step>) {
    && |states| == |steps| + 1
    && KeysOk(states[0].tables) && states[0].listed == {}
    && forall i | 0 <= i < |steps| :: Enabled(states[i], steps[i]) && states[i + 1] == Apply(states[i], steps[i])
  }

  ghost predicate LockedRun(states: seq<State>, steps: seq<Step>, project: ProjectId, branch: BranchId) {
    Run(states, steps) && forall i | 0 <= i < |steps| :: Locked(states[i], steps[i], project, branch)
  }

  lemma {:induction false} RunKeeps(states: seq<State>, steps: seq<Step>, project: ProjectId, branch: BranchId, i: nat)
    requires LockedRun(states, steps, project, branch) && i < |states|
    ensures Inv(states[i], project, branch)
  {
    if i > 0 {
      RunKeeps(states, steps, project, branch, i - 1);
      assert Enabled(states[i - 1], steps[i - 1]) && Locked(states[i - 1], steps[i - 1], project, branch);
      StepKeeps(states[i - 1], steps[i - 1], project, branch);
    }
  }

  /** Whatever all monitors do with what they have found, however old it is, while git objects, links and prebuilds are
      added: a branch that has a newest prebuild keeps it or gets a newer one. */
  lemma {:induction false} BranchStaysUpToDate(states: seq<State>, steps: seq<Step>, project: ProjectId, branch: BranchId,
                                               i: nat, j: nat, n: PrebuildId) returns (m: PrebuildId)
    requires LockedRun(states, steps, project, branch) && i <= j < |states| && Newest(states[i].tables, project, branch, n)
    ensures Newest(states[j].tables, project, branch, m) && KeysOk(states[j].tables) && n in states[j].tables.prebuilds
    ensures m == n || Before(states[j].tables, m, n)
    decreases j
  {
    RunKeeps(states, steps, project, branch, j);
    if i == j {
      m := n;
    } else {
      var l := BranchStaysUpToDate(states, steps, project, branch, i, j - 1, n);
      RunKeeps(states, steps, project, branch, j - 1);
      assert Enabled(states[j - 1], steps[j - 1]);
      OrderStays(states[j - 1], steps[j - 1], l, n);
      m := StepKeepsUpToDate(states[j - 1], steps[j - 1], project, branch, l);
    }
  }

  /** As long as only monitors are at work, it is the same one. */
  lemma {:induction false} MonitorKeepsNewest(states: seq<State>, steps: seq<Step>, project: ProjectId, branch: BranchId,
                                              i: nat, j: nat, n: PrebuildId)
    requires LockedRun(states, steps, project, branch) && i <= j < |states|
    requires forall k | i <= k < j :: OfMonitors(steps[k])
    ensures Newest(states[i].tables, project, branch, n) <==> Newest(states[j].tables, project, branch, n)
    decreases j
  {
    if i < j {
      MonitorKeepsNewest(states, steps, project, branch, i, j - 1, n);
      RunKeeps(states, steps, project, branch, j - 1);
      assert Enabled(states[j - 1], steps[j - 1]);
      MonitorStepKeepsNewest(states[j - 1], steps[j - 1], project, branch, n);
    }
  }

  // ---------- A new commit ----------

  /** The git object is newer than those of all other prebuilds of the project on the branch. */
  ghost predicate NewerThanAll(t: Tables, project: ProjectId, branch: BranchId, createdAt: int)
    requires KeysOk(t)
  {
    forall q | Row(t, project, branch, q) :: t.objects[t.prebuilds[q].object_] < createdAt
  }

  /** A commit is pushed to the branch, and its prebuild is made and succeeds. */
  function Pushed(s: State, id: ObjectId, createdAt: int, branch: BranchId, p: PrebuildId, prebuild: Prebuild): State
    requires KeysOk(s.tables) && id !in s.tables.objects && p !in s.tables.prebuilds
    requires prebuild.object_ == id && prebuild.status == Pending
  {
    var known := Apply(s, AddObject(id, createdAt));
    var linked := Apply(known, AddLink(id, branch));
    var started := Apply(linked, AddPrebuild(p, prebuild));
    Apply(Apply(started, SetStatus(p, Running)), SetStatus(p, Success))
  }

  /** At any moment a newer commit can be pushed, and its prebuild becomes the newest of the branch. What it
      supersedes there is a row as before; it has no other branches. */
  lemma PushedIsNewest(s: State, project: ProjectId, branch: BranchId, id: ObjectId, createdAt: int, p: PrebuildId, prebuild: Prebuild)
    requires KeysOk(s.tables) && id !in s.tables.objects && p !in s.tables.prebuilds && NewerThanAll(s.tables, project, branch, createdAt)
    requires prebuild.object_ == id && prebuild.status == Pending && prebuild.project == project
    ensures var n := Pushed(s, id, createdAt, branch, p, prebuild);
            && Newest(n.tables, project, branch, p) && n.listed == s.listed
            && (forall other, b, q :: Row(n.tables, other, b, q) <==>
                  Row(s.tables, other, b, q) || (other == project && b == branch && q == p))
            && forall q | q in s.tables.prebuilds :: q in n.tables.prebuilds && n.tables.prebuilds[q] == s.tables.prebuilds[q]
  {
  }

  /** What a monitor lists it can archive, and then leave behind. */
  lemma ListedIsArchived(s: State, project: ProjectId, now: int, p: PrebuildId)
    requires KeysOk(s.tables) && p in Archivable(s.tables, project, now)
    ensures Enabled(s, Query(project, now, {p}))
    ensures var listed := Apply(s, Query(project, now, {p}));
            && listed == State(s.tables, s.listed + {p}) && Enabled(listed, Reserve(p))
            && var reserved := Apply(listed, Reserve(p));
            && reserved.tables.prebuilds[p].status == PendingArchive && Enabled(reserved, MarkArchived(p))
            && var archived := Apply(reserved, MarkArchived(p));
            && archived.tables == s.tables.(prebuilds := s.tables.prebuilds[p := s.tables.prebuilds[p].(status := Archived)])
            && Enabled(archived, Leave({p})) && Apply(archived, Leave({p})) == State(archived.tables, s.listed - {p})
  {
    assert s.tables.prebuilds[p := s.tables.prebuilds[p].(status := PendingArchive)][p := s.tables.prebuilds[p].(status := Archived)]
        == s.tables.prebuilds[p := s.tables.prebuilds[p].(status := Archived)];
    assert s.listed + {p} - {p} == s.listed - {p};
  }

  // ---------- Why links need the lock ----------

  /** A listed prebuild would be the newest on the branch if its object were linked to it. */
  ghost predicate WouldBeNewest(t: Tables, project: ProjectId, branch: BranchId, id: ObjectId, p: PrebuildId)
    requires KeysOk(t)
  {
    && p in t.prebuilds && t.prebuilds[p].project == project && t.prebuilds[p].status == Success && t.prebuilds[p].object_ == id
    && forall q | q in t.prebuilds && t.prebuilds[q].project == project && t.prebuilds[q].status == Success
                  && (t.prebuilds[q].object_ == id || (t.prebuilds[q].object_, branch) in t.links) :: NoNewer(t, q, p)
  }

  lemma LinkedIsNewest(s: State, project: ProjectId, branch: BranchId, id: ObjectId, p: PrebuildId)
    requires Inv(s, project, branch) && id in s.tables.objects && p in s.listed
    ensures Newest(Apply(s, AddLink(id, branch)).tables, project, branch, p) <==>
            WouldBeNewest(s.tables, project, branch, id, p)
  {
    var t, t' := s.tables, Apply(s, AddLink(id, branch)).tables;
    if Newest(t', project, branch, p) {
      if t.prebuilds[p].object_ != id {
        assert Row(t, project, branch, p);
        assert Newest(t, project, branch, p) by {
          forall q | Row(t, project, branch, q) ensures NoNewer(t, q, p) {
            assert Row(t', project, branch, q);
          }
        }
      }
      forall q | q in t.prebuilds && t.prebuilds[q].project == project && t.prebuilds[q].status == Success
                 && (t.prebuilds[q].object_ == id || (t.prebuilds[q].object_, branch) in t.links)
        ensures NoNewer(t, q, p)
      {
        assert Row(t', project, branch, q);
      }
    }
  }

  /** The branch falls back behind `n`: all it has left is older, or nothing. */
  ghost predicate FallsBehind(t: Tables, project: ProjectId, branch: BranchId, n: PrebuildId)
    requires KeysOk(t) && n in t.prebuilds
  {
    forall q | Row(t, project, branch, q) :: Before(t, n, q)
  }

  /** A link to the object of a listed prebuild takes the newest prebuild away from the branch if and only if the prebuild
      would be its newest. */
  lemma LinkTakesNewest(s: State, project: ProjectId, branch: BranchId, id: ObjectId, p: PrebuildId)
    requires Inv(s, project, branch) && id in s.tables.objects && p in s.listed
    ensures var linked := Apply(s, AddLink(id, branch));
            && p in linked.listed && p in linked.tables.prebuilds
            && var left := Apply(linked, Reserve(p));
            && KeysOk(left.tables) && p in left.tables.prebuilds
            && ((exists n :: Newest(linked.tables, project, branch, n) && !Newest(left.tables, project, branch, n))
                <==> WouldBeNewest(s.tables, project, branch, id, p))
            && (WouldBeNewest(s.tables, project, branch, id, p) ==> FallsBehind(left.tables, project, branch, p))
  {
    var linked := Apply(s, AddLink(id, branch));
    var left := Apply(linked, Reserve(p));
    LinkedIsNewest(s, project, branch, id, p);
    forall q | Row(left.tables, project, branch, q) ensures Row(linked.tables, project, branch, q) && q != p {
    }
    if Newest(linked.tables, project, branch, p) {
      forall q | Row(left.tables, project, branch, q) ensures Before(left.tables, p, q) {
        NewestIsAhead(linked.tables, project, branch, p, q);
      }
    } else {
      forall n | Newest(linked.tables, project, branch, n) ensures Newest(left.tables, project, branch, n) {
        RowStays(linked, Reserve(p), project, branch, n);
        forall q | Row(left.tables, project, branch, q) ensures NoNewer(left.tables, q, n) {
          assert NoNewer(linked.tables, q, n);
        }
      }
    }
  }

  lemma Extended(states: seq<State>, steps: seq<Step>, st: Step) returns (states': seq<State>, steps': seq<Step>)
    requires Run(states, steps) && Enabled(states[|steps|], st)
    ensures Run(states', steps') && states <= states' && steps' == steps + [st]
    ensures states'[|steps'|] == Apply(states[|steps|], st)
  {
    states', steps' := states + [Apply(states[|steps|], st)], steps + [st];
  }

  const OLD_PREBUILD: Prebuild := Prebuild(0, 0, 0, 0, Success)
  const NEW_PREBUILD: Prebuild := Prebuild(0, 1, 1, 1, Success)
  const TWO_COMMITS: Tables := Tables(map[0 := OLD_PREBUILD, 1 := NEW_PREBUILD], map[0 := 0, 1 := 1], {(0, 0), (1, 0)})

  lemma OldOneIsArchivable()
    ensures Archivable(TWO_COMMITS, 0, 1) == {0}
  {
    var t := TWO_COMMITS;
    assert Row(t, 0, 0, 0) && Row(t, 0, 0, 1) && Before(t, 1, 0);
    assert (0, 0) in t.links && (1, 0) in t.links;
    assert Listed(t, 0, 0);
    forall branch: BranchId | Row(t, 0, branch, 0) ensures exists q :: Row(t, 0, branch, q) && Before(t, q, 0) {
      assert branch == 0;
      assert Row(t, 0, branch, 1);
    }
    ArchivableMeansSuperseded(t, 0, 1, 0);
  }

  /** Without the lock: the older of two commits gets a branch of its own after the monitor has listed its prebuild, and is
      archived. The new branch had a prebuild and is left with none. */
  lemma UnlockedLinkIsLost() returns (states: seq<State>, steps: seq<Step>, linked: nat)
    ensures Run(states, steps) && linked < |states| && !LockedRun(states, steps, 0, 1)
    ensures Newest(states[linked].tables, 0, 1, 0)
    ensures forall p :: !Row(states[|steps|].tables, 0, 1, p)
  {
    OldOneIsArchivable();
    states, steps := [State(TWO_COMMITS, {})], [];
    states, steps := Extended(states, steps, Query(0, 1, {0}));
    var s := states[1];
    assert s.listed == {0} && s.tables == TWO_COMMITS;
    states, steps := Extended(states, steps, AddLink(0, 1));
    assert !Locked(states[1], steps[1], 0, 1);
    linked := 2;
    states, steps := Extended(states, steps, Reserve(0));
  }
}
