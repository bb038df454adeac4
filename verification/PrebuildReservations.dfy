/** One prebuild event, the workspaces created from it and the workflows that archive it. Both sides
    reserve the event first: creating a workspace is refused while an archival is reserved,
    and archival deletes no file until its own reservation is the only one left. */
module PrebuildReservations {
  type Pid = nat
  type ReservationId = nat

  datatype Kind = CreateWorkspace | ArchivePrebuild

  datatype Reservation = Reservation(kind: Kind, validUntil: nat)

  datatype Status = Success | PendingArchive | Archived

  /** The two images of a prebuild. */
  datatype Part = RootFs | ProjectFiles

  const BOTH: set<Part> := {RootFs, ProjectFiles}
  const FIFTEEN_MINUTES: nat := 15 * 60 * 1000
  const TWENTY_FOUR_HOURS: nat := 24 * 60 * 60 * 1000

  /** A reservation to be made: its expiry was computed first; `Checked` once the table was found to
      hold no archive reservation. The insertion is a step of its own. */
  datatype Proc =
    // runCreateWorkspace
    | Creating(validUntil: nat)
    | CreateChecked(validUntil: nat)
    | CreateReserved(id: ReservationId)
    | Cloning(id: ReservationId, reading: set<Part>, cloned: set<Part>)
    | Unreserving(id: ReservationId)
    // runArchivePrebuild and runDeletePrebuildFiles
    | Archiving(validUntil: nat)
    | ArchiveChecked(validUntil: nat)
    | WaitingForOthers(id: ReservationId)
    | ReadyToDelete(id: ReservationId)
    | Deleting(id: ReservationId)
    | Finished

  /** `rows` tells whether the database still lists the images of the event, `images` which of
      them the block registry holds. `owners` is history, and so is `broken`: that a deletion failed
      half way. */
  datatype State = State(
    clock: nat,
    reservations: map<ReservationId, Reservation>,
    status: Status,
    rows: bool,
    images: set<Part>,
    broken: bool,
    procs: map<Pid, Proc>,
    owners: map<ReservationId, Pid>)

  datatype Step =
    | Tick(ms: nat)
    | BeginCreate(p: Pid)
    | BeginArchive(p: Pid)
    | Check(p: Pid)
    | Insert(p: Pid, id: ReservationId)
    | ReadRows(p: Pid)
    | ReadImage(p: Pid, part: Part)
    | WriteContainer(p: Pid, part: Part)
    | EndCreate(p: Pid)
    | Unreserve(p: Pid, ok: bool)
    | Poll(p: Pid)
    | GiveUp(p: Pid)
    | FindImages(p: Pid)
    | RemoveImage(p: Pid, part: Part)
    | FailDeletion(p: Pid)
    | MarkArchived(p: Pid)

  function Valid(s: State): set<ReservationId> {
    set id | id in s.reservations && s.reservations[id].validUntil > s.clock
  }

  predicate ArchiveReserved(s: State) {
    exists id :: id in Valid(s) && s.reservations[id].kind == ArchivePrebuild
  }

  predicate Enabled(s: State, st: Step) {
    if st.Tick? then true
    else if st.BeginCreate? || st.BeginArchive? then st.p !in s.procs
    else
      st.p in s.procs &&
      var proc := s.procs[st.p];
      match st
      case Check(p) => proc.Creating? || proc.Archiving?
      case Insert(p, id) => (proc.CreateChecked? || proc.ArchiveChecked?) && id !in s.owners
      case ReadRows(p) => proc.CreateReserved?
      case ReadImage(p, part) => proc.Cloning? && part !in proc.reading && part !in proc.cloned
      case WriteContainer(p, part) => proc.Cloning? && part in proc.reading
      case EndCreate(p) => proc.CreateReserved? || proc.Cloning?
      case Unreserve(p, _) => proc.Unreserving?
      case Poll(p) => proc.WaitingForOthers?
      case GiveUp(p) => proc.WaitingForOthers?
      case FindImages(p) => proc.ReadyToDelete?
      case RemoveImage(p, part) => proc.Deleting?
      case FailDeletion(p) => proc.Deleting?
      case MarkArchived(p) => proc.Deleting? && s.images == {}
      case _ => true
  }

  function Put(s: State, p: Pid, proc: Proc): State {
    s.(procs := s.procs[p := proc])
  }

  function Apply(s: State, st: Step): State
    requires Enabled(s, st)
  {
    match st
    case Tick(ms) => s.(clock := s.clock + ms)
    case BeginCreate(p) => Put(s, p, Creating(s.clock + FIFTEEN_MINUTES))
    case BeginArchive(p) => Put(s, p, Archiving(s.clock + TWENTY_FOUR_HOURS))
    case Check(p) =>
      var proc := s.procs[p];
      if ArchiveReserved(s) then Put(s, p, Finished)
      else Put(s, p, if proc.Creating? then CreateChecked(proc.validUntil) else ArchiveChecked(proc.validUntil))
    case Insert(p, id) =>
      var proc := s.procs[p];
      var kind := if proc.CreateChecked? then CreateWorkspace else ArchivePrebuild;
      Put(s, p, if proc.CreateChecked? then CreateReserved(id) else WaitingForOthers(id))
      .(reservations := s.reservations[id := Reservation(kind, proc.validUntil)],
        status := if proc.CreateChecked? then s.status else PendingArchive,
        owners := s.owners[id := p])
    case ReadRows(p) =>
      var id := s.procs[p].id;
      Put(s, p, if s.rows then Cloning(id, {}, {}) else Unreserving(id))
    case ReadImage(p, part) =>
      // createContainer reads the config of its base, and fails if there is none
      var proc := s.procs[p];
      if part in s.images then Put(s, p, proc.(reading := proc.reading + {part})) else Put(s, p, Unreserving(proc.id))
    case WriteContainer(p, part) =>
      var proc := s.procs[p];
      Put(s, p, proc.(reading := proc.reading - {part}, cloned := proc.cloned + {part}))
    case EndCreate(p) => Put(s, p, Unreserving(s.procs[p].id))
    case Unreserve(p, ok) =>
      Put(s, p, Finished).(reservations := if ok then s.reservations - {s.procs[p].id} else s.reservations)
    case Poll(p) =>
      if |Valid(s)| == 1 && ArchiveReserved(s) then Put(s, p, ReadyToDelete(s.procs[p].id)) else s
    case GiveUp(p) => Put(s, p, Finished)
    case FindImages(p) => Put(s, p, if s.rows then Deleting(s.procs[p].id) else Finished)
    case RemoveImage(p, part) => s.(images := s.images - {part})
    case FailDeletion(p) => Put(s, p, Finished).(broken := s.broken || s.images != BOTH)
    case MarkArchived(p) =>
      if s.status == Archived then Put(s, p, Finished)
      else
        Put(s, p, Finished)
        .(rows := false, status := Archived,
          reservations := map id | id in s.reservations && s.reservations[id].kind != ArchivePrebuild :: s.reservations[id])
  }

  // ---------- The assumptions ----------

  /** The process relies on its reservation, made or about to be made. */
  predicate RelyingUntil(s: State, p: Pid, t: nat) {
    p in s.procs &&
    match s.procs[p]
    case Creating(v) => t < v
    case CreateChecked(v) => t < v
    case Archiving(v) => t < v
    case ArchiveChecked(v) => t < v
    case CreateReserved(id) => id in s.reservations && t < s.reservations[id].validUntil
    case Cloning(id, _, _) => id in s.reservations && t < s.reservations[id].validUntil
    case WaitingForOthers(id) => id in s.reservations ==> t < s.reservations[id].validUntil
    case ReadyToDelete(id) => id in s.reservations ==> t < s.reservations[id].validUntil
    case Deleting(id) => id in s.reservations ==> t < s.reservations[id].validUntil
    case _ => true
  }

  /** No reserve call of one side checks while one of the other side has checked and not yet inserted: the row lock
      in `reservePrebuildEvent` is there to keep all of them apart. */
  ghost predicate ChecksApart(s: State, st: Step) {
    st.Check? && st.p in s.procs && !ArchiveReserved(s) ==>
      forall q | q in s.procs ::
        if s.procs[st.p].Creating? then !s.procs[q].ArchiveChecked? else !s.procs[q].CreateChecked?
  }

  /** Both sides finish before their reservations expire. */
  ghost predicate InTime(s: State, st: Step) {
    st.Tick? ==> forall q | q in s.procs :: RelyingUntil(s, q, s.clock + st.ms)
  }

  // ---------- The invariant ----------

  predicate Creator(proc: Proc) {
    proc.CreateReserved? || proc.Cloning?
  }

  predicate Archiver(proc: Proc) {
    proc.WaitingForOthers? || proc.ReadyToDelete? || proc.Deleting?
  }

  predicate Deletes(proc: Proc) {
    proc.ReadyToDelete? || proc.Deleting?
  }

  /** What a process relies on: its own, unexpired reservation of the right kind. An archiver needs its own only while the
      images are listed; the first to archive removes those of all others. */
  ghost predicate ProcOk(s: State, p: Pid)
    requires p in s.procs
  {
    match s.procs[p]
    case Creating(v) => s.clock < v
    case CreateChecked(v) => s.clock < v && !ArchiveReserved(s)
    case Archiving(v) => s.clock < v
    case ArchiveChecked(v) => s.clock < v
    case CreateReserved(id) => Owns(s, p, id, CreateWorkspace)
    case Cloning(id, reading, _) => Owns(s, p, id, CreateWorkspace) && s.rows && reading <= s.images
    case Unreserving(id) =>
      id in s.owners && s.owners[id] == p && (id in s.reservations ==> s.reservations[id].kind == CreateWorkspace)
    case WaitingForOthers(id) => s.rows ==> Owns(s, p, id, ArchivePrebuild)
    case ReadyToDelete(id) => s.rows ==> Owns(s, p, id, ArchivePrebuild)
    case Deleting(id) => s.rows && Owns(s, p, id, ArchivePrebuild)
    case Finished => true
  }

  ghost predicate Owns(s: State, p: Pid, id: ReservationId, kind: Kind) {
    && id in s.owners && s.owners[id] == p
    && id in s.reservations && s.reservations[id].kind == kind && s.clock < s.reservations[id].validUntil
  }

  ghost predicate ChecksDisjoint(s: State) {
    forall p, q | p in s.procs && q in s.procs && s.procs[p].CreateChecked? && s.procs[q].ArchiveChecked? :: false
  }

  /** While images are listed at most one process deletes, and then nobody creates. */
  ghost predicate OneDeleter(s: State) {
    s.rows ==> forall p, q | p in s.procs && q in s.procs && Deletes(s.procs[p]) && Deletes(s.procs[q]) :: p == q
  }

  ghost predicate NoCreatorWhileDeleting(s: State) {
    s.rows ==> forall p, q | p in s.procs && q in s.procs && Deletes(s.procs[p]) && Creator(s.procs[q]) :: false
  }

  ghost predicate ImagesOk(s: State) {
    s.rows && !s.broken && s.images != BOTH ==> exists p :: p in s.procs && s.procs[p].Deleting?
  }

  ghost predicate Inv(s: State) {
    && s.reservations.Keys <= s.owners.Keys
    && (forall p | p in s.procs :: ProcOk(s, p))
    && ChecksDisjoint(s)
    && OneDeleter(s)
    && NoCreatorWhileDeleting(s)
    && ImagesOk(s)
    && (s.status == Archived ==> !s.rows)
  }

  lemma OnlyOne<T>(a: T, b: T, s: set<T>)
    requires a in s && b in s && |s| == 1
    ensures a == b
  {
    var rest := s - {a};
    assert |rest| == 0;
    assert b in rest || a == b;
  }

  // ---------- Every step keeps it ----------

  lemma FewerReservations(s: State, n: State)
    requires n.clock == s.clock && n.reservations.Keys <= s.reservations.Keys
    requires forall id | id in n.reservations :: n.reservations[id] == s.reservations[id]
    ensures ArchiveReserved(n) ==> ArchiveReserved(s)
  {
    if ArchiveReserved(n) {
      var id :| id in Valid(n) && n.reservations[id].kind == ArchivePrebuild;
      assert id in Valid(s);
    }
  }

  lemma SameReservations(s: State, n: State)
    requires n.clock == s.clock && n.reservations == s.reservations
    ensures ArchiveReserved(n) <==> ArchiveReserved(s)
  {
    FewerReservations(s, n);
    FewerReservations(n, s);
  }

  /** Whoever was deleting is still deleting, unless it is the one that moved. */
  lemma StillDeleting(s: State, st: Step)
    requires ImagesOk(s) && Enabled(s, st)
    requires st.BeginCreate? || st.BeginArchive? || st.Check? || st.Insert? || st.Unreserve? || st.GiveUp?
    ensures ImagesOk(Apply(s, st))
  {
    if s.rows && !s.broken && s.images != BOTH {
      var d :| d in s.procs && s.procs[d].Deleting?;
      assert Apply(s, st).procs[d].Deleting?;
    }
  }

  lemma TickKeeps(s: State, st: Step)
    requires Inv(s) && st.Tick? && Enabled(s, st) && ChecksApart(s, st) && InTime(s, st)
    ensures Inv(Apply(s, st))
  {
  }

  lemma BeginCreateKeeps(s: State, st: Step)
    requires Inv(s) && st.BeginCreate? && Enabled(s, st) && ChecksApart(s, st) && InTime(s, st)
    ensures Inv(Apply(s, st))
  {
    SameReservations(s, Apply(s, st));
    forall q | q in Apply(s, st).procs && q != st.p ensures ProcOk(Apply(s, st), q) {
      assert q in s.procs && ProcOk(s, q);
    }
    StillDeleting(s, st);
  }

  lemma BeginArchiveKeeps(s: State, st: Step)
    requires Inv(s) && st.BeginArchive? && Enabled(s, st) && ChecksApart(s, st) && InTime(s, st)
    ensures Inv(Apply(s, st))
  {
    SameReservations(s, Apply(s, st));
    forall q | q in Apply(s, st).procs && q != st.p ensures ProcOk(Apply(s, st), q) {
      assert q in s.procs && ProcOk(s, q);
    }
    StillDeleting(s, st);
  }

  lemma CheckedIsOk(s: State, st: Step)
    requires Inv(s) && st.Check? && Enabled(s, st) && ChecksApart(s, st)
    ensures forall q | q in Apply(s, st).procs :: ProcOk(Apply(s, st), q)
  {
    var n := Apply(s, st);
    SameReservations(s, n);
    forall q | q in n.procs ensures ProcOk(n, q) {
      assert q in s.procs && ProcOk(s, q);
    }
  }

  lemma CheckKeeps(s: State, st: Step)
    requires Inv(s) && st.Check? && Enabled(s, st) && ChecksApart(s, st) && InTime(s, st)
    ensures Inv(Apply(s, st))
  {
    CheckedIsOk(s, st);
    StillDeleting(s, st);
  }

  /** A reservation to create a workspace is no archive reservation. */
  lemma InsertedToCreate(s: State, st: Step)
    requires s.reservations.Keys <= s.owners.Keys && st.Insert? && Enabled(s, st) && s.procs[st.p].CreateChecked?
    ensures ArchiveReserved(Apply(s, st)) ==> ArchiveReserved(s)
  {
    var n := Apply(s, st);
    if ArchiveReserved(n) {
      var id :| id in Valid(n) && n.reservations[id].kind == ArchivePrebuild;
      assert id in Valid(s);
    }
  }

  lemma DeleterIsSeen(s: State, p: Pid)
    requires p in s.procs && ProcOk(s, p) && Deletes(s.procs[p]) && s.rows
    ensures ArchiveReserved(s)
  {
    assert s.procs[p].id in Valid(s);
  }

  lemma InsertedIsOk(s: State, st: Step, q: Pid)
    requires Inv(s) && st.Insert? && Enabled(s, st) && q in s.procs
    ensures ProcOk(Apply(s, st), q)
  {
    assert ProcOk(s, q) && ProcOk(s, st.p);
    if s.procs[st.p].CreateChecked? {
      InsertedToCreate(s, st);
    }
  }

  lemma InsertKeeps(s: State, st: Step)
    requires Inv(s) && st.Insert? && Enabled(s, st) && ChecksApart(s, st) && InTime(s, st)
    ensures Inv(Apply(s, st))
  {
    forall q | q in Apply(s, st).procs ensures ProcOk(Apply(s, st), q) {
      InsertedIsOk(s, st, q);
    }
    assert ProcOk(s, st.p);
    if s.procs[st.p].CreateChecked? && s.rows {
      forall q | q in s.procs ensures !Deletes(s.procs[q]) {
        assert ProcOk(s, q);
        if Deletes(s.procs[q]) {
          DeleterIsSeen(s, q);
        }
      }
    }
    StillDeleting(s, st);
  }

  lemma ReadRowsKeeps(s: State, st: Step)
    requires Inv(s) && st.ReadRows? && Enabled(s, st) && ChecksApart(s, st) && InTime(s, st)
    ensures Inv(Apply(s, st))
  {
  }

  lemma ReadImageKeeps(s: State, st: Step)
    requires Inv(s) && st.ReadImage? && Enabled(s, st) && ChecksApart(s, st) && InTime(s, st)
    ensures Inv(Apply(s, st))
  {
  }

  lemma WriteContainerKeeps(s: State, st: Step)
    requires Inv(s) && st.WriteContainer? && Enabled(s, st) && ChecksApart(s, st) && InTime(s, st)
    ensures Inv(Apply(s, st))
  {
  }

  lemma EndCreateKeeps(s: State, st: Step)
    requires Inv(s) && st.EndCreate? && Enabled(s, st) && ChecksApart(s, st) && InTime(s, st)
    ensures Inv(Apply(s, st))
  {
  }

  lemma UnreserveKeeps(s: State, st: Step)
    requires Inv(s) && st.Unreserve? && Enabled(s, st) && ChecksApart(s, st) && InTime(s, st)
    ensures Inv(Apply(s, st))
  {
    var n := Apply(s, st);
    FewerReservations(s, n);
    forall q | q in n.procs ensures ProcOk(n, q) {
      assert q in s.procs && ProcOk(s, q) && ProcOk(s, st.p);
    }
    StillDeleting(s, st);
  }

  /** When the poll succeeds, nobody creates and nobody else deletes. */
  lemma PollFindsNobody(s: State, p: Pid, q: Pid)
    requires Inv(s) && s.rows && p in s.procs && s.procs[p].WaitingForOthers? && |Valid(s)| == 1
    requires q in s.procs
    ensures !Creator(s.procs[q]) && !Deletes(s.procs[q])
  {
    assert ProcOk(s, p) && ProcOk(s, q);
    if Creator(s.procs[q]) || Deletes(s.procs[q]) {
      OnlyOne(s.procs[q].id, s.procs[p].id, Valid(s));
    }
  }

  lemma PollKeeps(s: State, st: Step)
    requires Inv(s) && st.Poll? && Enabled(s, st) && ChecksApart(s, st) && InTime(s, st)
    ensures Inv(Apply(s, st))
  {
    if s.rows && |Valid(s)| == 1 && ArchiveReserved(s) {
      forall q | q in s.procs ensures !Creator(s.procs[q]) && !Deletes(s.procs[q]) {
        PollFindsNobody(s, st.p, q);
      }
    }
  }

  lemma GiveUpKeeps(s: State, st: Step)
    requires Inv(s) && st.GiveUp? && Enabled(s, st) && ChecksApart(s, st) && InTime(s, st)
    ensures Inv(Apply(s, st))
  {
    StillDeleting(s, st);
  }

  lemma FindImagesKeeps(s: State, st: Step)
    requires Inv(s) && st.FindImages? && Enabled(s, st) && ChecksApart(s, st) && InTime(s, st)
    ensures Inv(Apply(s, st))
  {
  }

  lemma RemoveImageKeeps(s: State, st: Step)
    requires Inv(s) && st.RemoveImage? && Enabled(s, st) && ChecksApart(s, st) && InTime(s, st)
    ensures Inv(Apply(s, st))
  {
    assert Apply(s, st).procs[st.p].Deleting?;
  }

  lemma FailDeletionKeeps(s: State, st: Step)
    requires Inv(s) && st.FailDeletion? && Enabled(s, st) && ChecksApart(s, st) && InTime(s, st)
    ensures Inv(Apply(s, st))
  {
    SameReservations(s, Apply(s, st));
  }

  lemma MarkArchivedKeeps(s: State, st: Step)
    requires Inv(s) && st.MarkArchived? && Enabled(s, st) && ChecksApart(s, st) && InTime(s, st)
    ensures Inv(Apply(s, st))
  {
  }

  lemma StepKeeps(s: State, st: Step)
    requires Inv(s) && Enabled(s, st) && ChecksApart(s, st) && InTime(s, st)
    ensures Inv(Apply(s, st))
  {
    match st
    case Tick(_) => TickKeeps(s, st);
    case BeginCreate(_) => BeginCreateKeeps(s, st);
    case BeginArchive(_) => BeginArchiveKeeps(s, st);
    case Check(_) => CheckKeeps(s, st);
    case Insert(_, _) => InsertKeeps(s, st);
    case ReadRows(_) => ReadRowsKeeps(s, st);
    case ReadImage(_, _) => ReadImageKeeps(s, st);
    case WriteContainer(_, _) => WriteContainerKeeps(s, st);
    case EndCreate(_) => EndCreateKeeps(s, st);
    case Unreserve(_, _) => UnreserveKeeps(s, st);
    case Poll(_) => PollKeeps(s, st);
    case GiveUp(_) => GiveUpKeeps(s, st);
    case FindImages(_) => FindImagesKeeps(s, st);
    case RemoveImage(_, _) => RemoveImageKeeps(s, st);
    case FailDeletion(_) => FailDeletionKeeps(s, st);
    case MarkArchived(_) => MarkArchivedKeeps(s, st);
  }

  // ---------- Every run ----------

  ghost predicate Start(s: State) {
    s.reservations == map[] && s.status == Success && s.rows && s.images == BOTH && !s.broken
    && s.procs == map[] && s.owners == map[]
  }

  ghost predicate Steps(states: seq<State>, steps: seq<Step>) {
    && |states| == |steps| + 1
    && forall i | 0 <= i < |steps| :: Enabled(states[i], steps[i]) && states[i + 1] == Apply(states[i], steps[i])
  }

  ghost predicate Run(states: seq<State>, steps: seq<Step>) {
    && Steps(states, steps)
    && Start(states[0])
    && forall i | 0 <= i < |steps| :: ChecksApart(states[i], steps[i]) && InTime(states[i], steps[i])
  }

  lemma {:induction false} RunKeeps(states: seq<State>, steps: seq<Step>, i: nat)
    requires Run(states, steps) && i < |states|
    ensures Inv(states[i])
  {
    if i > 0 {
      RunKeeps(states, steps, i - 1);
      assert Enabled(states[i - 1], steps[i - 1]) && ChecksApart(states[i - 1], steps[i - 1]);
      StepKeeps(states[i - 1], steps[i - 1]);
    }
  }

  /** A workspace that found the image rows finds both images, unless a deletion has failed half way; in
      any case no image is removed while any workspace holds the event, and those it reads are there. */
  lemma ClonesSeeBothImages(states: seq<State>, steps: seq<Step>, i: nat)
    requires Run(states, steps) && i < |states|
    ensures forall p | p in states[i].procs && states[i].procs[p].Cloning? ::
              && states[i].rows && states[i].procs[p].reading <= states[i].images
              && (!states[i].broken ==> states[i].images == BOTH)
    ensures i < |steps| && steps[i].RemoveImage? ==> forall p | p in states[i].procs :: !Creator(states[i].procs[p])
  {
    RunKeeps(states, steps, i);
    if i < |steps| && steps[i].RemoveImage? {
      assert Enabled(states[i], steps[i]);
    }
    forall p | p in states[i].procs && states[i].procs[p].Cloning?
      ensures && states[i].rows && states[i].procs[p].reading <= states[i].images
              && (!states[i].broken ==> states[i].images == BOTH)
    {
      assert ProcOk(states[i], p);
    }
  }

  predicate IsReading(s: State, p: Pid, part: Part) {
    p in s.procs && s.procs[p].Cloning? && part in s.procs[p].reading
  }

  lemma ReadingBefore(s: State, st: Step, p: Pid, part: Part)
    requires Enabled(s, st) && IsReading(Apply(s, st), p, part) && st != ReadImage(p, part)
    ensures IsReading(s, p, part)
  {
  }

  lemma ReadingBeforeAt(states: seq<State>, steps: seq<Step>, i: nat, p: Pid, part: Part)
    requires Steps(states, steps) && i < |steps| && IsReading(states[i + 1], p, part) && steps[i] != ReadImage(p, part)
    ensures IsReading(states[i], p, part)
  {
    assert Enabled(states[i], steps[i]);
    ReadingBefore(states[i], steps[i], p, part);
  }

  lemma {:induction false} ReadingSince(states: seq<State>, steps: seq<Step>, j: nat, p: Pid, part: Part) returns (i: nat)
    requires Steps(states, steps) && Start(states[0]) && j < |states| && IsReading(states[j], p, part)
    ensures i < j && steps[i] == ReadImage(p, part)
    ensures forall k | i < k <= j :: IsReading(states[k], p, part)
    decreases j
  {
    i := j - 1;
    if steps[j - 1] != ReadImage(p, part) {
      ReadingBeforeAt(states, steps, j - 1, p, part);
      i := ReadingSince(states, steps, j - 1, p, part);
    }
  }

  /** The base of a container is never removed between the moment its config is
      read and the moment the container is written: the hypothesis `Disciplined` of the registry
      protocol, for workspaces. */
  lemma CloneIsUndisturbed(states: seq<State>, steps: seq<Step>, j: nat) returns (i: nat)
    requires Run(states, steps) && j < |steps| && steps[j].WriteContainer?
    ensures i < j && steps[i] == ReadImage(steps[j].p, steps[j].part)
    ensures forall k | i <= k <= j :: !steps[k].RemoveImage? && (k > i ==> steps[j].part in states[k].images)
  {
    assert Enabled(states[j], steps[j]);
    i := ReadingSince(states, steps, j, steps[j].p, steps[j].part);
    forall k | i <= k <= j ensures !steps[k].RemoveImage? && (k > i ==> steps[j].part in states[k].images) {
      ClonesSeeBothImages(states, steps, k);
      if k > i {
        assert IsReading(states[k], steps[j].p, steps[j].part);
      }
    }
  }

  // ---------- Why the checks have to be kept apart ----------

  lemma Extended(states: seq<State>, steps: seq<Step>, st: Step) returns (states': seq<State>, steps': seq<Step>)
    requires Steps(states, steps) && Enabled(states[|steps|], st)
    ensures Steps(states', steps') && states <= states' && steps' == steps + [st]
    ensures states'[|steps'|] == Apply(states[|steps|], st)
  {
    states', steps' := states + [Apply(states[|steps|], st)], steps + [st];
  }

  ghost predicate NoTicks(steps: seq<Step>) {
    forall i | 0 <= i < |steps| :: !steps[i].Tick?
  }

  /** One run continues another, and no time passes. */
  ghost predicate Continues(states: seq<State>, steps: seq<Step>, states': seq<State>, steps': seq<Step>) {
    Steps(states', steps') && states <= states' && steps <= steps' && NoTicks(steps'[|steps|..])
  }

  /** One process creates and another archives, the images are listed and there, and ids from `next` on are unused. */
  ghost predicate Both(s: State, p: Pid, creator: Proc, q: Pid, archiver: Proc, next: nat) {
    && p in s.procs && s.procs[p] == creator && q in s.procs && s.procs[q] == archiver
    && s.rows && s.images == BOTH
    && s.reservations.Keys <= s.owners.Keys && forall id | id in s.owners :: id < next
  }

  lemma ArchiverInserts(s: State, p: Pid, q: Pid, until: nat, v: nat, next: nat)
    requires Both(s, p, CreateChecked(until), q, ArchiveChecked(v), next) && Valid(s) == {} && s.clock < v
    ensures Enabled(s, Insert(q, next))
    ensures var n := Apply(s, Insert(q, next));
            && Both(n, p, CreateChecked(until), q, WaitingForOthers(next), next + 1)
            && Valid(n) == {next} && ArchiveReserved(n)
  {
    var n := Apply(s, Insert(q, next));
    forall id ensures id in Valid(n) <==> id == next {
      assert id in s.reservations && id != next ==> id !in Valid(s);
    }
  }

  /** The archiver inserts its reservation, finds no other and goes on to delete. */
  lemma ArchiverGoesAhead(states0: seq<State>, steps0: seq<Step>, p: Pid, q: Pid, until: nat, v: nat, next: nat)
    returns (states: seq<State>, steps: seq<Step>)
    requires Steps(states0, steps0) && Both(states0[|steps0|], p, CreateChecked(until), q, ArchiveChecked(v), next)
    requires Valid(states0[|steps0|]) == {} && states0[|steps0|].clock < v
    ensures Continues(states0, steps0, states, steps)
    ensures Both(states[|steps|], p, CreateChecked(until), q, Deleting(next), next + 1)
  {
    ArchiverInserts(states0[|steps0|], p, q, until, v, next);
    states, steps := Extended(states0, steps0, Insert(q, next));
    states, steps := Extended(states, steps, Poll(q));
    assert states[|steps|].procs[q] == ReadyToDelete(next);
    states, steps := Extended(states, steps, FindImages(q));
  }

  lemma CreatorReserves(states0: seq<State>, steps0: seq<Step>, p: Pid, q: Pid, until: nat, id: ReservationId, next: nat)
    returns (states: seq<State>, steps: seq<Step>)
    requires Steps(states0, steps0) && Both(states0[|steps0|], p, CreateChecked(until), q, Deleting(id), next)
    ensures Continues(states0, steps0, states, steps)
    ensures Both(states[|steps|], p, CreateReserved(next), q, Deleting(id), next + 1)
  {
    states, steps := Extended(states0, steps0, Insert(p, next));
  }

  /** The creator, which had checked before, inserts its own and reads an image. */
  lemma CreatorFollows(states0: seq<State>, steps0: seq<Step>, p: Pid, q: Pid, until: nat, id: ReservationId, next: nat)
    returns (states: seq<State>, steps: seq<Step>)
    requires Steps(states0, steps0) && Both(states0[|steps0|], p, CreateChecked(until), q, Deleting(id), next)
    ensures Continues(states0, steps0, states, steps)
    ensures Both(states[|steps|], p, Cloning(next, {RootFs}, {}), q, Deleting(id), next + 1)
  {
    states, steps := CreatorReserves(states0, steps0, p, q, until, id, next);
    states, steps := Extended(states, steps, ReadRows(p));
    assert states[|steps|].procs[p] == Cloning(next, {}, {});
    states, steps := Extended(states, steps, ReadImage(p, RootFs));
    assert {} + {RootFs} == {RootFs};
  }

  lemma FreshFrom(owners: map<ReservationId, Pid>) returns (next: nat)
    ensures forall id | id in owners :: id < next
    decreases owners.Keys
  {
    next := 0;
    if id :| id in owners {
      var rest := owners - {id};
      assert rest.Keys == owners.Keys - {id};
      assert forall k | k in owners :: k == id || k in rest;
      next := FreshFrom(rest);
      next := if id < next then next else id + 1;
    }
  }

  /** What any run keeps, also if checks overlap. */
  ghost predicate Timely(s: State) {
    && s.reservations.Keys <= s.owners.Keys
    && forall p | p in s.procs ::
         match s.procs[p]
         case Creating(v) => s.clock < v
         case CreateChecked(v) => s.clock < v
         case Archiving(v) => s.clock < v
         case ArchiveChecked(v) => s.clock < v
         case _ => true
  }

  lemma TimelyStep(s: State, st: Step)
    requires Timely(s) && Enabled(s, st) && InTime(s, st)
    ensures Timely(Apply(s, st))
  {
  }

  lemma {:induction false} StaysTimely(states: seq<State>, steps: seq<Step>, i: nat)
    requires Steps(states, steps) && Start(states[0]) && i < |states|
    requires forall k | 0 <= k < |steps| :: InTime(states[k], steps[k])
    ensures Timely(states[i])
  {
    if i > 0 {
      StaysTimely(states, steps, i - 1);
      assert Enabled(states[i - 1], steps[i - 1]);
      TimelyStep(states[i - 1], steps[i - 1]);
    }
  }

  lemma ContinuesOn(states: seq<State>, steps: seq<Step>, states1: seq<State>, steps1: seq<Step>, states2: seq<State>, steps2: seq<Step>)
    requires Continues(states, steps, states1, steps1) && Continues(states1, steps1, states2, steps2)
    ensures Continues(states, steps, states2, steps2)
  {
    forall i | 0 <= i < |steps2[|steps|..]| ensures !steps2[|steps|..][i].Tick? {
      var k := |steps| + i;
      if k < |steps1| {
        assert steps2[k] == steps1[k] == steps1[|steps|..][i];
      } else {
        assert steps2[k] == steps2[|steps1|..][k - |steps1|];
      }
    }
  }

  /** From wherever the checks of the two sides have overlapped on an event with both images and no valid reservation, one
      can go on, without any time passing, to where an image is removed while a container is being cloned from it. */
  lemma OverlapCollides(states0: seq<State>, steps0: seq<Step>, p: Pid, q: Pid) returns (states: seq<State>, steps: seq<Step>)
    requires Steps(states0, steps0) && Start(states0[0]) && forall k | 0 <= k < |steps0| :: InTime(states0[k], steps0[k])
    requires var s := states0[|steps0|];
             && p in s.procs && s.procs[p].CreateChecked? && q in s.procs && s.procs[q].ArchiveChecked?
             && s.rows && s.images == BOTH && Valid(s) == {}
    ensures Continues(states0, steps0, states, steps)
    ensures p in states[|steps|].procs && IsReading(states[|steps|], p, RootFs) && RootFs !in states[|steps|].images
  {
    var s := states0[|steps0|];
    StaysTimely(states0, steps0, |steps0|);
    var next := FreshFrom(s.owners);
    var until, v := s.procs[p].validUntil, s.procs[q].validUntil;
    states, steps := ArchiverGoesAhead(states0, steps0, p, q, until, v, next);
    var states1, steps1 := CreatorFollows(states, steps, p, q, until, next, next + 1);
    ContinuesOn(states0, steps0, states, steps, states1, steps1);
    states, steps := Extended(states1, steps1, RemoveImage(q, RootFs));
    ContinuesOn(states0, steps0, states1, steps1, states, steps);
  }

  lemma BothCheck() returns (states: seq<State>, steps: seq<Step>)
    ensures Steps(states, steps) && NoTicks(steps) && Start(states[0])
    ensures |steps| == 4 && steps[3] == Check(1) && !ChecksApart(states[3], steps[3])
    ensures var s := states[4];
            && 0 in s.procs && s.procs[0].CreateChecked? && 1 in s.procs && s.procs[1].ArchiveChecked?
            && s.rows && s.images == BOTH && Valid(s) == {}
  {
    states, steps := [State(0, map[], Success, true, BOTH, false, map[], map[])], [];
    states, steps := Extended(states, steps, BeginCreate(0));
    states, steps := Extended(states, steps, BeginArchive(1));
    assert Valid(states[2]) == {};
    states, steps := Extended(states, steps, Check(0));
    assert Valid(states[3]) == {};
    assert states[3].procs[0].CreateChecked?;
    states, steps := Extended(states, steps, Check(1));
    assert Valid(states[4]) == {};
  }

  /** The query that should lock the event looks for a reservation with the id of the event, so it does
      not keep two reservations apart. When both sides check before either inserts, an image is removed
      while a container is being cloned from it, with no reservation expired. */
  lemma UnlockedReservationsCollide() returns (states: seq<State>, steps: seq<Step>)
    ensures Steps(states, steps) && Start(states[0]) && |steps| > 3 && !ChecksApart(states[3], steps[3])
    ensures NoTicks(steps)
    ensures 0 in states[|steps|].procs && IsReading(states[|steps|], 0, RootFs)
    ensures RootFs !in states[|steps|].images
  {
    var states0, steps0 := BothCheck();
    states, steps := OverlapCollides(states0, steps0, 0, 1);
    forall i | 0 <= i < |steps| ensures !steps[i].Tick? {
      if i >= |steps0| {
        assert steps[i] == steps[|steps0|..][i - |steps0|];
      }
    }
  }
}
