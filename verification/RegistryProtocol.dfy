/** The block registry under concurrency. Any number of processes load images,
    create and commit containers, remove content and collect garbage; every
    file system call that others can see is a step of its own, and a process may
    crash between any two of them.

    Writers hold a shared flock while they link layers and write their config,
    the collector holds an exclusive one, and removal holds none. */
module RegistryProtocol {
  import opened Wrappers
  import opened RegistryModel

  type Pid = nat

  /** A config to be written. `base` is the content whose config was read, before
      the lock was taken, to compute it; `files` are the layers to put on disk
      first (`None` for a lazy one); `upper` holds the fresh container files. */
  datatype Job = Job(
    target: ContentId,
    config: Config,
    base: Option<ContentId>,
    files: map<Digest, Option<Blob>>,
    upper: Option<(Blob, Blob)>,
    cleanup: Option<string>)

  /** How far the container directory of a job is: each stage adds one entry. */
  datatype Stage = NoDir | DirMade | DataLinked | DirReady

  datatype Proc =
    | Idle
    | Queued(job: Job)
    | Preparing(job: Job, dirs: set<Digest>, links: set<Digest>, stage: Stage)
    | Comparing(job: Job)
    | Cleaning(tag: string)
    | Unlinked(tag: string)
    | GcLocked
    | GcListed(layerNames: set<Digest>, containerNames: set<string>)
    | GcReading(layerNames: set<Digest>, containerNames: set<string>,
                toRead: set<ContentId>, usedLayers: set<Digest>, usedContainers: set<string>)
    | GcSweeping(deadLayers: set<Digest>, deadContainers: set<string>)

  /** `quiet` records that no config was unlinked since the collector got its lock. */
  datatype State = State(
    store: Store,
    shared: set<Pid>,
    exclusive: Option<Pid>,
    procs: map<Pid, Proc>,
    quiet: bool)

  datatype Step =
    | BeginLoad(p: Pid, tag: string, manifest: Manifest, opts: LoadOpts, files: map<Digest, Option<Blob>>)
    | BeginCreate(p: Pid, base: Option<string>, tag: string, data: Blob, index: Blob)
    | BeginCommit(p: Pid, container: string, tag: string, layer: Descriptor, blob: Blob, remove: bool)
    | LockShared(p: Pid)
    | MakeLayerDir(p: Pid, d: Digest)
    | LinkLayer(p: Pid, d: Digest)
    | MakeContainerDir(p: Pid)
    | LinkData(p: Pid)
    | LinkIndex(p: Pid)
    | WriteConfig(p: Pid)
    | Compare(p: Pid)
    | Abort(p: Pid)
    | Unlink(p: Pid, id: ContentId)
    | RemoveFiles(p: Pid)
    | RemoveDir(p: Pid)
    | LockExclusive(p: Pid)
    | ListDirs(p: Pid)
    | ListConfigs(p: Pid)
    | ReadConfig(p: Pid, id: ContentId)
    | StartSweep(p: Pid)
    | SweepLayer(p: Pid, d: Digest)
    | SweepContainer(p: Pid, tag: string)
    | UnlockExclusive(p: Pid)

  function At(s: State, p: Pid): Proc {
    if p in s.procs then s.procs[p] else Idle
  }

  function Put(s: State, p: Pid, proc: Proc): State {
    s.(procs := s.procs[p := proc])
  }

  predicate IsCollector(proc: Proc) {
    proc.GcLocked? || proc.GcListed? || proc.GcReading? || proc.GcSweeping?
  }

  predicate HoldsShared(proc: Proc) {
    proc.Preparing? || proc.Comparing?
  }

  /** The config was computed but not yet written. */
  predicate Pending(proc: Proc) {
    proc.Queued? || proc.Preparing?
  }

  /** `rm -rf` and `mkdir` touch only these names: `readdir` filters the layers by "sha256:". */
  predicate Collectable(d: Digest) {
    d.algo == "sha256"
  }

  function AllLayerRefs(s: Store): set<Digest> {
    set id, d | id in s.configs && d in LayerRefs(s.configs[id]) :: d
  }

  function Release(s: State, p: Pid): State {
    s.(shared := s.shared - {p}, exclusive := if s.exclusive == Some(p) then None else s.exclusive)
  }

  function AfterWrite(job: Job): Proc {
    if job.cleanup.Some? then Cleaning(job.cleanup.value) else Idle
  }

  // ---------- The steps ----------

  function LoadJob(tag: string, manifest: Manifest, opts: LoadOpts, files: map<Digest, Option<Blob>>): Job
    requires LoadConfig(manifest, opts).Success?
  {
    Job(Image(tag), LoadConfig(manifest, opts).value, None, files, None, None)
  }

  function CreateJob(s: Store, base: Option<string>, tag: string, data: Blob, index: Blob): Job
    requires base.Some? ==> Image(base.value) in s.configs
  {
    var read := if base.Some? then Some(s.configs[Image(base.value)]) else None;
    Job(Container(tag), ContainerConfig(read, tag),
        if base.Some? then Some(Image(base.value)) else None, map[], Some((data, index)), None)
  }

  function CommitJob(s: Store, container: string, tag: string, layer: Descriptor, blob: Blob, remove: bool): Job
    requires Container(container) in s.configs
    requires CommitConfig(s.configs[Container(container)], layer).Success?
  {
    Job(Image(tag), CommitConfig(s.configs[Container(container)], layer).value,
        Some(Container(container)), map[layer.digest := Some(blob)], None,
        if remove then Some(container) else None)
  }

  predicate Enabled(s: State, st: Step) {
    var proc := At(s, st.p);
    match st
    case BeginLoad(p, tag, manifest, opts, files) =>
      && proc == Idle
      && LoadConfig(manifest, opts).Success?
      && files.Keys == (set d | d in LayerDigests(manifest.layers))
      && (forall l | l in manifest.layers && Eager(l, opts) :: l.digest in files && files[l.digest].Some?)
    case BeginCreate(p, base, tag, data, index) =>
      proc == Idle && (base.Some? ==> Image(base.value) in s.store.configs)
    case BeginCommit(p, container, tag, layer, blob, remove) =>
      && proc == Idle
      && Container(container) in s.store.configs
      && layer == CommittedLayer(layer.digest, layer.size)
      && CommitConfig(s.store.configs[Container(container)], layer).Success?
    case LockShared(p) => proc.Queued? && s.exclusive == None
    case MakeLayerDir(p, d) => proc.Preparing? && d in proc.dirs
    case LinkLayer(p, d) => proc.Preparing? && d in proc.links && d in proc.job.files && d in s.store.layers
    case MakeContainerDir(p) => proc.Preparing? && proc.stage == NoDir && proc.job.target.Container?
    case LinkData(p) =>
      && proc.Preparing? && proc.stage == DirMade && proc.job.target.Container? && proc.job.upper.Some?
      && proc.job.target.tag in s.store.containers
    case LinkIndex(p) =>
      && proc.Preparing? && proc.stage == DataLinked && proc.job.target.Container? && proc.job.upper.Some?
      && proc.job.target.tag in s.store.containers
    case WriteConfig(p) => proc.Preparing? && proc.dirs == {} && proc.links == {} && proc.stage == DirReady
    case Compare(p) => proc.Comparing?
    case Abort(p) => !proc.Idle?
    case Unlink(p, id) => proc == Idle || (proc.Cleaning? && id == Container(proc.tag))
    case RemoveFiles(p) => proc.Unlinked?
    case RemoveDir(p) => proc.Unlinked?
    case LockExclusive(p) => proc == Idle && s.exclusive == None && s.shared == {}
    case ListDirs(p) => proc.GcLocked?
    case ListConfigs(p) => proc.GcListed?
    case ReadConfig(p, id) => proc.GcReading? && id in proc.toRead
    case StartSweep(p) => proc.GcReading? && proc.toRead == {}
    case SweepLayer(p, d) => proc.GcSweeping? && d in proc.deadLayers
    case SweepContainer(p, tag) => proc.GcSweeping? && tag in proc.deadContainers
    case UnlockExclusive(p) => proc.GcSweeping? && proc.deadLayers == {} && proc.deadContainers == {}
  }

  /** `mkdir`, with EEXIST ignored. */
  function MkLayer(s: Store, d: Digest): Store {
    if d in s.layers then s else s.(layers := s.layers[d := LayerDir(None, None)])
  }

  /** `link` to `overlaybd.commit`; when the file exists the stored one stays, and the
      new file is replaced by a link to it. */
  function LinkCommit(s: Store, d: Digest, file: Option<Blob>): Store
    requires d in s.layers
  {
    if file == None || s.layers[d].commitFile.Some? then s
    else s.(layers := s.layers[d := s.layers[d].(commitFile := file)])
  }

  function MkContainer(s: Store, tag: string): Store {
    if tag in s.containers then s else s.(containers := s.containers[tag := ContainerDir(None, None)])
  }

  function LinkContainerData(s: Store, tag: string, data: Blob): Store
    requires tag in s.containers
  {
    if s.containers[tag].data.Some? then s
    else s.(containers := s.containers[tag := s.containers[tag].(data := Some(data))])
  }

  function LinkContainerIndex(s: Store, tag: string, index: Blob): Store
    requires tag in s.containers
  {
    if s.containers[tag].index.Some? then s
    else s.(containers := s.containers[tag := s.containers[tag].(index := Some(index))])
  }

  function Apply(s: State, st: Step): State
    requires Enabled(s, st)
  {
    var proc := At(s, st.p);
    match st
    case BeginLoad(p, tag, manifest, opts, files) => Put(s, p, Queued(LoadJob(tag, manifest, opts, files)))
    case BeginCreate(p, base, tag, data, index) => Put(s, p, Queued(CreateJob(s.store, base, tag, data, index)))
    case BeginCommit(p, container, tag, layer, blob, remove) =>
      Put(s, p, Queued(CommitJob(s.store, container, tag, layer, blob, remove)))
    case LockShared(p) =>
      var stage := if proc.job.target.Container? then NoDir else DirReady;
      Put(s, p, Preparing(proc.job, proc.job.files.Keys, {}, stage)).(shared := s.shared + {p})
    case MakeLayerDir(p, d) =>
      Put(s, p, proc.(dirs := proc.dirs - {d}, links := proc.links + {d})).(store := MkLayer(s.store, d))
    case LinkLayer(p, d) =>
      Put(s, p, proc.(links := proc.links - {d})).(store := LinkCommit(s.store, d, proc.job.files[d]))
    case MakeContainerDir(p) =>
      Put(s, p, proc.(stage := DirMade)).(store := MkContainer(s.store, proc.job.target.tag))
    case LinkData(p) =>
      Put(s, p, proc.(stage := DataLinked))
      .(store := LinkContainerData(s.store, proc.job.target.tag, proc.job.upper.value.0))
    case LinkIndex(p) =>
      Put(s, p, proc.(stage := DirReady))
      .(store := LinkContainerIndex(s.store, proc.job.target.tag, proc.job.upper.value.1))
    case WriteConfig(p) =>
      if proc.job.target in s.store.configs then Put(s, p, Comparing(proc.job))
      else
        Release(Put(s, p, AfterWrite(proc.job)), p)
        .(store := s.store.(configs := s.store.configs[proc.job.target := proc.job.config]))
    case Compare(p) =>
      var same := proc.job.target in s.store.configs && s.store.configs[proc.job.target] == proc.job.config;
      Release(Put(s, p, if same then AfterWrite(proc.job) else Idle), p)
    case Abort(p) => Release(Put(s, p, Idle), p)
    case Unlink(p, id) =>
      Put(s, p, if id.Container? then Unlinked(id.tag) else Idle)
      .(store := s.store.(configs := s.store.configs - {id}), quiet := false)
    case RemoveFiles(p) =>
      if proc.tag in s.store.containers
      then s.(store := s.store.(containers := s.store.containers[proc.tag := ContainerDir(None, None)]))
      else s
    case RemoveDir(p) => Put(s, p, Idle).(store := s.store.(containers := s.store.containers - {proc.tag}))
    case LockExclusive(p) => Put(s, p, GcLocked).(exclusive := Some(p), quiet := true)
    case ListDirs(p) =>
      Put(s, p, GcListed((set d | d in s.store.layers && Collectable(d)), s.store.containers.Keys))
    case ListConfigs(p) =>
      Put(s, p, GcReading(proc.layerNames, proc.containerNames, s.store.configs.Keys, {}, {}))
    case ReadConfig(p, id) =>
      // A config that is gone by now reads as one without references.
      var layers := if id in s.store.configs then LayerRefs(s.store.configs[id]) else {};
      var upper := if id in s.store.configs && s.store.configs[id].upper.Some?
                   then {s.store.configs[id].upper.value} else {};
      Put(s, p, proc.(toRead := proc.toRead - {id},
                      usedLayers := proc.usedLayers + layers,
                      usedContainers := proc.usedContainers + upper))
    case StartSweep(p) =>
      Put(s, p, GcSweeping(proc.layerNames - proc.usedLayers, proc.containerNames - proc.usedContainers))
    case SweepLayer(p, d) =>
      Put(s, p, proc.(deadLayers := proc.deadLayers - {d}))
      .(store := s.store.(layers := s.store.layers - {d}))
    case SweepContainer(p, tag) =>
      Put(s, p, proc.(deadContainers := proc.deadContainers - {tag}))
      .(store := s.store.(containers := s.store.containers - {tag}))
    case UnlockExclusive(p) => Release(Put(s, p, Idle), p)
  }

  /** What callers must keep: content is not removed while an operation has read its config and does not hold the
      lock yet, and a container not while one is being created under its id; and a container
      id is not created while it is being removed. */
  ghost predicate Disciplined(s: State, st: Step) {
    match st
    case Unlink(_, id) =>
      forall q | q in s.procs ::
        && (s.procs[q].Queued? ==> s.procs[q].job.base != Some(id))
        && (Pending(s.procs[q]) && id.Container? ==> s.procs[q].job.target != id)
    case BeginCreate(_, _, tag, _, _) =>
      forall q | q in s.procs :: s.procs[q] != Unlinked(tag)
    case _ => true
  }

  // ---------- The invariant ----------

  ghost predicate LocksOk(s: State) {
    && s.shared <= s.procs.Keys
    && (s.exclusive.Some? ==> s.exclusive.value in s.procs && s.shared == {})
    && (forall p | p in s.procs :: HoldsShared(s.procs[p]) <==> p in s.shared)
    && (forall p | p in s.procs :: IsCollector(s.procs[p]) <==> s.exclusive == Some(p))
  }

  ghost predicate JobOk(job: Job) {
    && Coherent(job.config)
    && (match job.target
        case Image(_) => job.config.upper == None
        case Container(t) => job.config.upper == Some(t) && job.upper.Some?)
  }

  /** The layers of a job that waits for the lock: new ones, or those of a base that is still there. */
  ghost predicate BaseOk(s: Store, job: Job) {
    match job.base
    case None => LayerRefs(job.config) <= job.files.Keys
    case Some(b) => b in s.configs && LayerRefs(job.config) <= job.files.Keys + LayerRefs(s.configs[b])
  }

  ghost predicate StageOk(s: Store, target: ContentId, stage: Stage) {
    match target
    case Image(_) => true
    case Container(t) =>
      stage != NoDir ==>
        && t in s.containers
        && (stage != DirMade ==> s.containers[t].data.Some?)
        && (stage == DirReady ==> s.containers[t].index.Some?)
  }

  ghost predicate CollectorOk(s: Store, quiet: bool, proc: Proc)
    requires IsCollector(proc)
  {
    match proc
    case GcLocked => true
    case GcListed(ls, cs) =>
      && ls == (set d | d in s.layers && Collectable(d))
      && s.containers.Keys <= cs
    case GcReading(ls, cs, toRead, ul, uc) =>
      && ls == (set d | d in s.layers && Collectable(d))
      && s.containers.Keys <= cs
      && (forall id | id in s.configs && id !in toRead ::
            LayerRefs(s.configs[id]) <= ul && (id.Container? ==> id.tag in uc))
      && (quiet ==> ul <= AllLayerRefs(s) && (forall t | t in uc :: Container(t) in s.configs))
    case GcSweeping(dl, dc) =>
      && (forall id | id in s.configs :: LayerRefs(s.configs[id]) !! dl && (id.Container? ==> id.tag !in dc))
      && (quiet ==>
            && (forall d | d in s.layers && Collectable(d) :: d in dl || d in AllLayerRefs(s))
            && (forall t | t in s.containers :: t in dc || Container(t) in s.configs))
  }

  ghost predicate ProcOk(s: Store, quiet: bool, proc: Proc) {
    match proc
    case Queued(job) => JobOk(job) && BaseOk(s, job)
    case Preparing(job, dirs, links, stage) =>
      && JobOk(job)
      && LayerRefs(job.config) <= job.files.Keys + s.layers.Keys
      && job.files.Keys - dirs <= s.layers.Keys
      && StageOk(s, job.target, stage)
    case Unlinked(t) => Container(t) !in s.configs
    case _ => IsCollector(proc) ==> CollectorOk(s, quiet, proc)
  }

  ghost predicate NoClash(s: State) {
    forall p, q | p in s.procs && q in s.procs && Pending(s.procs[p]) && s.procs[q].Unlinked? ::
      s.procs[p].job.target != Container(s.procs[q].tag)
  }

  ghost predicate Inv(s: State) {
    && LocksOk(s)
    && AllBacked(s.store)
    && AllCoherent(s.store)
    && (forall p | p in s.procs :: ProcOk(s.store, s.quiet, s.procs[p]))
    && NoClash(s)
  }

  // ---------- Every step keeps it ----------

  /** A new job for an image is in nobody's way. */
  lemma NewImageJob(s: State, p: Pid, job: Job)
    requires LocksOk(s) && NoClash(s) && At(s, p) == Idle && job.target.Image?
    ensures LocksOk(Put(s, p, Queued(job))) && NoClash(Put(s, p, Queued(job)))
  {
  }

  lemma BeginLoadKeeps(s: State, st: Step)
    requires Inv(s) && st.BeginLoad? && Enabled(s, st) && Disciplined(s, st)
    ensures Inv(Apply(s, st))
  {
    LoadIsCoherent(st.manifest, st.opts);
    var s' := Apply(s, st);
    var job := s'.procs[st.p].job;
    assert LayerRefs(job.config) == set d | d in LayerDigests(st.manifest.layers);
    assert JobOk(job) && BaseOk(s.store, job);
    NewImageJob(s, st.p, job);
  }

  lemma BeginCreateKeeps(s: State, st: Step)
    requires Inv(s) && st.BeginCreate? && Enabled(s, st) && Disciplined(s, st)
    ensures Inv(Apply(s, st))
  {
  }

  lemma BeginCommitProcs(s: State, st: Step, q: Pid)
    requires Inv(s) && st.BeginCommit? && Enabled(s, st) && Disciplined(s, st) && q in Apply(s, st).procs
    ensures ProcOk(Apply(s, st).store, Apply(s, st).quiet, Apply(s, st).procs[q])
  {
    CommitIsCoherent(s.store.configs[Container(st.container)], st.layer);
    var s' := Apply(s, st);
    assert JobOk(s'.procs[st.p].job) && BaseOk(s.store, s'.procs[st.p].job);
    if q in s.procs {
      assert ProcOk(s.store, s.quiet, s.procs[q]);
    }
  }

  lemma BeginCommitKeeps(s: State, st: Step)
    requires Inv(s) && st.BeginCommit? && Enabled(s, st) && Disciplined(s, st)
    ensures Inv(Apply(s, st))
  {
    NewImageJob(s, st.p, Apply(s, st).procs[st.p].job);
    forall q | q in Apply(s, st).procs ensures ProcOk(Apply(s, st).store, Apply(s, st).quiet, Apply(s, st).procs[q]) {
      BeginCommitProcs(s, st, q);
    }
  }

  lemma LockSharedKeeps(s: State, st: Step)
    requires Inv(s) && st.LockShared? && Enabled(s, st) && Disciplined(s, st)
    ensures Inv(Apply(s, st))
  {
  }

  lemma MakeLayerDirKeeps(s: State, st: Step)
    requires Inv(s) && st.MakeLayerDir? && Enabled(s, st) && Disciplined(s, st)
    ensures Inv(Apply(s, st))
  {
  }

  lemma LinkLayerKeeps(s: State, st: Step)
    requires Inv(s) && st.LinkLayer? && Enabled(s, st) && Disciplined(s, st)
    ensures Inv(Apply(s, st))
  {
  }

  lemma MakeContainerDirProcs(s: State, st: Step, q: Pid)
    requires Inv(s) && st.MakeContainerDir? && Enabled(s, st) && Disciplined(s, st) && q in Apply(s, st).procs
    ensures ProcOk(Apply(s, st).store, Apply(s, st).quiet, Apply(s, st).procs[q])
  {
    if q in s.procs {
      assert ProcOk(s.store, s.quiet, s.procs[q]);
    }
  }

  lemma MakeContainerDirKeeps(s: State, st: Step)
    requires Inv(s) && st.MakeContainerDir? && Enabled(s, st) && Disciplined(s, st)
    ensures Inv(Apply(s, st))
  {
    forall q | q in Apply(s, st).procs ensures ProcOk(Apply(s, st).store, Apply(s, st).quiet, Apply(s, st).procs[q]) {
      MakeContainerDirProcs(s, st, q);
    }
  }

  lemma LinkDataProcs(s: State, st: Step, q: Pid)
    requires Inv(s) && st.LinkData? && Enabled(s, st) && Disciplined(s, st) && q in Apply(s, st).procs
    ensures ProcOk(Apply(s, st).store, Apply(s, st).quiet, Apply(s, st).procs[q])
  {
    if q in s.procs {
      assert ProcOk(s.store, s.quiet, s.procs[q]);
    }
  }

  lemma LinkDataKeeps(s: State, st: Step)
    requires Inv(s) && st.LinkData? && Enabled(s, st) && Disciplined(s, st)
    ensures Inv(Apply(s, st))
  {
    forall q | q in Apply(s, st).procs ensures ProcOk(Apply(s, st).store, Apply(s, st).quiet, Apply(s, st).procs[q]) {
      LinkDataProcs(s, st, q);
    }
  }

  lemma LinkIndexProcs(s: State, st: Step, q: Pid)
    requires Inv(s) && st.LinkIndex? && Enabled(s, st) && Disciplined(s, st) && q in Apply(s, st).procs
    ensures ProcOk(Apply(s, st).store, Apply(s, st).quiet, Apply(s, st).procs[q])
  {
    if q in s.procs {
      assert ProcOk(s.store, s.quiet, s.procs[q]);
    }
  }

  lemma LinkIndexKeeps(s: State, st: Step)
    requires Inv(s) && st.LinkIndex? && Enabled(s, st) && Disciplined(s, st)
    ensures Inv(Apply(s, st))
  {
    forall q | q in Apply(s, st).procs ensures ProcOk(Apply(s, st).store, Apply(s, st).quiet, Apply(s, st).procs[q]) {
      LinkIndexProcs(s, st, q);
    }
  }

  lemma WriteConfigProcs(s: State, st: Step, q: Pid)
    requires Inv(s) && st.WriteConfig? && Enabled(s, st) && Disciplined(s, st) && q in Apply(s, st).procs
    ensures ProcOk(Apply(s, st).store, Apply(s, st).quiet, Apply(s, st).procs[q])
  {
    assert s.exclusive == None;
    if q != st.p {
      assert ProcOk(s.store, s.quiet, s.procs[q]);
    }
  }

  lemma WriteConfigBacked(s: State, st: Step)
    requires Inv(s) && st.WriteConfig? && Enabled(s, st) && Disciplined(s, st)
    ensures AllBacked(Apply(s, st).store) && AllCoherent(Apply(s, st).store)
  {
    var job := s.procs[st.p].job;
    if job.target !in s.store.configs {
      assert Backed(job.target, job.config, s.store.layers, s.store.containers);
    }
  }

  lemma WriteConfigLocks(s: State, st: Step)
    requires LocksOk(s) && st.WriteConfig? && Enabled(s, st)
    ensures LocksOk(Apply(s, st))
  {
  }

  lemma WriteConfigClashes(s: State, st: Step)
    requires NoClash(s) && st.WriteConfig? && Enabled(s, st)
    ensures NoClash(Apply(s, st))
  {
  }

  lemma WriteConfigKeeps(s: State, st: Step)
    requires Inv(s) && st.WriteConfig? && Enabled(s, st) && Disciplined(s, st)
    ensures Inv(Apply(s, st))
  {
    forall q | q in Apply(s, st).procs ensures ProcOk(Apply(s, st).store, Apply(s, st).quiet, Apply(s, st).procs[q]) {
      WriteConfigProcs(s, st, q);
    }
    WriteConfigBacked(s, st);
    WriteConfigLocks(s, st);
    WriteConfigClashes(s, st);
  }

  lemma CompareProcs(s: State, st: Step, q: Pid)
    requires Inv(s) && st.Compare? && Enabled(s, st) && Disciplined(s, st) && q in Apply(s, st).procs
    ensures ProcOk(Apply(s, st).store, Apply(s, st).quiet, Apply(s, st).procs[q])
  {
    if q in s.procs {
      assert ProcOk(s.store, s.quiet, s.procs[q]);
    }
  }

  lemma CompareKeeps(s: State, st: Step)
    requires Inv(s) && st.Compare? && Enabled(s, st) && Disciplined(s, st)
    ensures Inv(Apply(s, st))
  {
    forall q | q in Apply(s, st).procs ensures ProcOk(Apply(s, st).store, Apply(s, st).quiet, Apply(s, st).procs[q]) {
      CompareProcs(s, st, q);
    }
  }

  lemma AbortKeeps(s: State, st: Step)
    requires Inv(s) && st.Abort? && Enabled(s, st) && Disciplined(s, st)
    ensures Inv(Apply(s, st))
  {
  }

  lemma UnlinkProcs(s: State, st: Step, q: Pid)
    requires Inv(s) && st.Unlink? && Enabled(s, st) && Disciplined(s, st) && q in Apply(s, st).procs
    ensures ProcOk(Apply(s, st).store, Apply(s, st).quiet, Apply(s, st).procs[q])
  {
    if q in s.procs {
      assert ProcOk(s.store, s.quiet, s.procs[q]);
    }
  }

  lemma UnlinkKeeps(s: State, st: Step)
    requires Inv(s) && st.Unlink? && Enabled(s, st) && Disciplined(s, st)
    ensures Inv(Apply(s, st))
  {
    forall q | q in Apply(s, st).procs ensures ProcOk(Apply(s, st).store, Apply(s, st).quiet, Apply(s, st).procs[q]) {
      UnlinkProcs(s, st, q);
    }
  }

  lemma RemoveFilesProcs(s: State, st: Step, q: Pid)
    requires Inv(s) && st.RemoveFiles? && Enabled(s, st) && Disciplined(s, st) && q in Apply(s, st).procs
    ensures ProcOk(Apply(s, st).store, Apply(s, st).quiet, Apply(s, st).procs[q])
  {
    if q in s.procs {
      assert ProcOk(s.store, s.quiet, s.procs[q]);
    }
  }

  lemma RemoveFilesKeeps(s: State, st: Step)
    requires Inv(s) && st.RemoveFiles? && Enabled(s, st) && Disciplined(s, st)
    ensures Inv(Apply(s, st))
  {
    forall q | q in Apply(s, st).procs ensures ProcOk(Apply(s, st).store, Apply(s, st).quiet, Apply(s, st).procs[q]) {
      RemoveFilesProcs(s, st, q);
    }
  }

  lemma RemoveDirProcs(s: State, st: Step, q: Pid)
    requires Inv(s) && st.RemoveDir? && Enabled(s, st) && Disciplined(s, st) && q in Apply(s, st).procs
    ensures ProcOk(Apply(s, st).store, Apply(s, st).quiet, Apply(s, st).procs[q])
  {
    if q in s.procs {
      assert ProcOk(s.store, s.quiet, s.procs[q]);
    }
  }

  lemma RemoveDirKeeps(s: State, st: Step)
    requires Inv(s) && st.RemoveDir? && Enabled(s, st) && Disciplined(s, st)
    ensures Inv(Apply(s, st))
  {
    forall q | q in Apply(s, st).procs ensures ProcOk(Apply(s, st).store, Apply(s, st).quiet, Apply(s, st).procs[q]) {
      RemoveDirProcs(s, st, q);
    }
  }

  lemma LockExclusiveKeeps(s: State, st: Step)
    requires Inv(s) && st.LockExclusive? && Enabled(s, st) && Disciplined(s, st)
    ensures Inv(Apply(s, st))
  {
  }

  lemma ListDirsKeeps(s: State, st: Step)
    requires Inv(s) && st.ListDirs? && Enabled(s, st) && Disciplined(s, st)
    ensures Inv(Apply(s, st))
  {
  }

  lemma ListConfigsKeeps(s: State, st: Step)
    requires Inv(s) && st.ListConfigs? && Enabled(s, st) && Disciplined(s, st)
    ensures Inv(Apply(s, st))
  {
  }

  lemma ReadConfigProcs(s: State, st: Step, q: Pid)
    requires Inv(s) && st.ReadConfig? && Enabled(s, st) && Disciplined(s, st) && q in Apply(s, st).procs
    ensures ProcOk(Apply(s, st).store, Apply(s, st).quiet, Apply(s, st).procs[q])
  {
    if q in s.procs {
      assert ProcOk(s.store, s.quiet, s.procs[q]);
    }
  }

  lemma ReadConfigKeeps(s: State, st: Step)
    requires Inv(s) && st.ReadConfig? && Enabled(s, st) && Disciplined(s, st)
    ensures Inv(Apply(s, st))
  {
    forall q | q in Apply(s, st).procs ensures ProcOk(Apply(s, st).store, Apply(s, st).quiet, Apply(s, st).procs[q]) {
      ReadConfigProcs(s, st, q);
    }
  }

  lemma StartSweepKeeps(s: State, st: Step)
    requires Inv(s) && st.StartSweep? && Enabled(s, st) && Disciplined(s, st)
    ensures Inv(Apply(s, st))
  {
  }

  lemma SweepLayerProcs(s: State, st: Step, q: Pid)
    requires Inv(s) && st.SweepLayer? && Enabled(s, st) && Disciplined(s, st) && q in Apply(s, st).procs
    ensures ProcOk(Apply(s, st).store, Apply(s, st).quiet, Apply(s, st).procs[q])
  {
    if q in s.procs {
      assert ProcOk(s.store, s.quiet, s.procs[q]);
    }
  }

  lemma SweepLayerKeeps(s: State, st: Step)
    requires Inv(s) && st.SweepLayer? && Enabled(s, st) && Disciplined(s, st)
    ensures Inv(Apply(s, st))
  {
    forall q | q in Apply(s, st).procs ensures ProcOk(Apply(s, st).store, Apply(s, st).quiet, Apply(s, st).procs[q]) {
      SweepLayerProcs(s, st, q);
    }
  }

  lemma SweepContainerProcs(s: State, st: Step, q: Pid)
    requires Inv(s) && st.SweepContainer? && Enabled(s, st) && Disciplined(s, st) && q in Apply(s, st).procs
    ensures ProcOk(Apply(s, st).store, Apply(s, st).quiet, Apply(s, st).procs[q])
  {
    if q in s.procs {
      assert ProcOk(s.store, s.quiet, s.procs[q]);
    }
  }

  lemma SweepContainerKeeps(s: State, st: Step)
    requires Inv(s) && st.SweepContainer? && Enabled(s, st) && Disciplined(s, st)
    ensures Inv(Apply(s, st))
  {
    forall q | q in Apply(s, st).procs ensures ProcOk(Apply(s, st).store, Apply(s, st).quiet, Apply(s, st).procs[q]) {
      SweepContainerProcs(s, st, q);
    }
  }

  lemma UnlockExclusiveKeeps(s: State, st: Step)
    requires Inv(s) && st.UnlockExclusive? && Enabled(s, st) && Disciplined(s, st)
    ensures Inv(Apply(s, st))
  {
  }

  predicate OfCollector(st: Step) {
    || st.LockExclusive? || st.ListDirs? || st.ListConfigs? || st.ReadConfig? || st.StartSweep?
    || st.SweepLayer? || st.SweepContainer? || st.UnlockExclusive?
  }

  lemma CollectorStepKeeps(s: State, st: Step)
    requires Inv(s) && OfCollector(st) && Enabled(s, st) && Disciplined(s, st)
    ensures Inv(Apply(s, st))
  {
    match st
    case LockExclusive(_) => LockExclusiveKeeps(s, st);
    case ListDirs(_) => ListDirsKeeps(s, st);
    case ListConfigs(_) => ListConfigsKeeps(s, st);
    case ReadConfig(_, _) => ReadConfigKeeps(s, st);
    case StartSweep(_) => StartSweepKeeps(s, st);
    case SweepLayer(_, _) => SweepLayerKeeps(s, st);
    case SweepContainer(_, _) => SweepContainerKeeps(s, st);
    case UnlockExclusive(_) => UnlockExclusiveKeeps(s, st);
  }

  lemma StepKeeps(s: State, st: Step)
    requires Inv(s) && Enabled(s, st) && Disciplined(s, st)
    ensures Inv(Apply(s, st))
  {
    if OfCollector(st) {
      CollectorStepKeeps(s, st);
    } else {
      match st
      case BeginLoad(_, _, _, _, _) => BeginLoadKeeps(s, st);
      case BeginCreate(_, _, _, _, _) => BeginCreateKeeps(s, st);
      case BeginCommit(_, _, _, _, _, _) => BeginCommitKeeps(s, st);
      case LockShared(_) => LockSharedKeeps(s, st);
      case MakeLayerDir(_, _) => MakeLayerDirKeeps(s, st);
      case LinkLayer(_, _) => LinkLayerKeeps(s, st);
      case MakeContainerDir(_) => MakeContainerDirKeeps(s, st);
      case LinkData(_) => LinkDataKeeps(s, st);
      case LinkIndex(_) => LinkIndexKeeps(s, st);
      case WriteConfig(_) => WriteConfigKeeps(s, st);
      case Compare(_) => CompareKeeps(s, st);
      case Abort(_) => AbortKeeps(s, st);
      case Unlink(_, _) => UnlinkKeeps(s, st);
      case RemoveFiles(_) => RemoveFilesKeeps(s, st);
      case RemoveDir(_) => RemoveDirKeeps(s, st);
    }
  }

  // ---------- The files of the layers ----------

  /** The job brings the file of the lower, if it needs one. */
  predicate Promised(files: map<Digest, Option<Blob>>, l: Lower) {
    l.LocalLower? ==> !l.isSealed && l.digest in files && files[l.digest].Some?
  }

  /** A lower of a job that waits for the lock comes with the job or from its base; later its file
      is there, or still to be linked. */
  ghost predicate LowerOk(s: Store, proc: Proc, l: Lower) {
    match proc
    case Queued(job) =>
      Promised(job.files, l) || (job.base.Some? && job.base.value in s.configs && l in s.configs[job.base.value].lowers)
    case Preparing(job, dirs, links, _) => FileThere(l, s.layers) || (Promised(job.files, l) && l.digest in dirs + links)
    case _ => true
  }

  ghost predicate LowersOk(s: Store, proc: Proc) {
    Pending(proc) ==> forall l | l in proc.job.config.lowers :: LowerOk(s, proc, l)
  }

  ghost predicate FilesOk(s: State) {
    AllFilesThere(s.store) && forall p | p in s.procs :: LowersOk(s.store, s.procs[p])
  }

  lemma LoadBringsFiles(s: State, st: Step)
    requires st.BeginLoad? && Enabled(s, st)
    ensures LowersOk(s.store, Apply(s, st).procs[st.p])
  {
    var job := Apply(s, st).procs[st.p].job;
    forall l | l in job.config.lowers ensures Promised(job.files, l) {
      var i :| 0 <= i < |st.manifest.layers| && ExtraLower(st.manifest.layers[i], st.opts) == l;
      assert st.manifest.layers[i] in st.manifest.layers;
    }
  }

  lemma CommitBringsItsFile(s: State, st: Step)
    requires st.BeginCommit? && Enabled(s, st)
    ensures LowersOk(s.store, Apply(s, st).procs[st.p])
  {
    var c := s.store.configs[Container(st.container)];
    var job := Apply(s, st).procs[st.p].job;
    assert ExtraLowers([st.layer], CommitOpts(c)) == [LocalLower(st.layer.digest, false)];
    forall l | l in job.config.lowers ensures LowerOk(s.store, Queued(job), l) {
      assert l in c.lowers || l == LocalLower(st.layer.digest, false);
    }
  }

  /** Layer directories and files are only added, except by the collector, which takes none that is referred to. */
  lemma LayersStay(s: State, st: Step, l: Lower)
    requires Enabled(s, st) && !st.SweepLayer? && FileThere(l, s.store.layers)
    ensures FileThere(l, Apply(s, st).store.layers)
  {
  }

  lemma SweepingStays(s: State, st: Step, id: ContentId, l: Lower)
    requires Inv(s) && Enabled(s, st) && st.SweepLayer? && id in s.store.configs && l in s.store.configs[id].lowers
    requires FileThere(l, s.store.layers)
    ensures FileThere(l, Apply(s, st).store.layers)
  {
    var lowers := s.store.configs[id].lowers;
    var i :| 0 <= i < |lowers| && lowers[i] == l;
    assert LowerDigests(lowers)[i] == l.digest && l.digest in LayerRefs(s.store.configs[id]);
    assert ProcOk(s.store, s.quiet, s.procs[st.p]);
  }

  lemma OldConfigsKeepFiles(s: State, st: Step, id: ContentId)
    requires Inv(s) && FilesOk(s) && Enabled(s, st) && id in s.store.configs
    ensures FilesThere(s.store.configs[id], Apply(s, st).store.layers)
  {
    forall l | l in s.store.configs[id].lowers ensures FileThere(l, Apply(s, st).store.layers) {
      assert FilesThere(s.store.configs[id], s.store.layers);
      if st.SweepLayer? {
        SweepingStays(s, st, id, l);
      } else {
        LayersStay(s, st, l);
      }
    }
  }

  lemma ConfigsKeepFiles(s: State, st: Step)
    requires Inv(s) && FilesOk(s) && Enabled(s, st)
    ensures AllFilesThere(Apply(s, st).store)
  {
    var s' := Apply(s, st);
    forall id | id in s'.store.configs ensures FilesThere(s'.store.configs[id], s'.store.layers) {
      if id in s.store.configs {
        SameConfig(s, st, id);
        OldConfigsKeepFiles(s, st, id);
      } else {
        NewConfig(s, st, id);
        assert LowersOk(s.store, s.procs[st.p]);
      }
    }
  }

  lemma SameConfig(s: State, st: Step, id: ContentId)
    requires Enabled(s, st) && id in s.store.configs && id in Apply(s, st).store.configs
    ensures Apply(s, st).store.configs[id] == s.store.configs[id]
  {
  }

  lemma NewConfig(s: State, st: Step, id: ContentId)
    requires Enabled(s, st) && id !in s.store.configs && id in Apply(s, st).store.configs
    ensures st.WriteConfig? && id == s.procs[st.p].job.target && Apply(s, st).store.configs[id] == s.procs[st.p].job.config
  {
  }

  /** A pending job of another process. */
  lemma OtherLowersStay(s: State, st: Step, q: Pid, l: Lower)
    requires Inv(s) && Enabled(s, st) && Disciplined(s, st) && q in s.procs && q != st.p && Pending(s.procs[q])
    requires LowerOk(s.store, s.procs[q], l)
    ensures LowerOk(Apply(s, st).store, s.procs[q], l)
  {
    if s.procs[q].Preparing? && FileThere(l, s.store.layers) {
      LayersStay(s, st, l);
    }
  }

  lemma OthersStay(s: State, st: Step, q: Pid)
    requires Inv(s) && FilesOk(s) && Enabled(s, st) && Disciplined(s, st) && q in s.procs && q != st.p
    ensures q in Apply(s, st).procs && Apply(s, st).procs[q] == s.procs[q] && LowersOk(Apply(s, st).store, s.procs[q])
  {
    assert LowersOk(s.store, s.procs[q]);
    if Pending(s.procs[q]) {
      forall l | l in s.procs[q].job.config.lowers ensures LowerOk(Apply(s, st).store, s.procs[q], l) {
        OtherLowersStay(s, st, q, l);
      }
    }
  }

  /** The job of the process itself: getting the lock, making a directory, linking a file. */
  lemma OwnLowersStay(s: State, st: Step, l: Lower)
    requires Inv(s) && FilesOk(s) && Enabled(s, st) && st.p in s.procs && Pending(s.procs[st.p])
    requires Pending(Apply(s, st).procs[st.p]) && LowerOk(s.store, s.procs[st.p], l)
    ensures LowerOk(Apply(s, st).store, Apply(s, st).procs[st.p], l)
  {
    var job := s.procs[st.p].job;
    if st.LockShared? && job.base.Some? && job.base.value in s.store.configs {
      assert FilesThere(s.store.configs[job.base.value], s.store.layers);
    }
    if FileThere(l, s.store.layers) {
      LayersStay(s, st, l);
    }
  }

  lemma OwnJobStays(s: State, st: Step)
    requires Inv(s) && FilesOk(s) && Enabled(s, st) && st.p in s.procs && Pending(s.procs[st.p])
    requires Pending(Apply(s, st).procs[st.p])
    ensures LowersOk(Apply(s, st).store, Apply(s, st).procs[st.p])
  {
    var proc := s.procs[st.p];
    assert LowersOk(s.store, proc) && Apply(s, st).procs[st.p].job == proc.job;
    forall l | l in proc.job.config.lowers ensures LowerOk(Apply(s, st).store, Apply(s, st).procs[st.p], l) {
      OwnLowersStay(s, st, l);
    }
  }

  lemma OwnStays(s: State, st: Step)
    requires Inv(s) && FilesOk(s) && Enabled(s, st) && st.p in Apply(s, st).procs
    ensures LowersOk(Apply(s, st).store, Apply(s, st).procs[st.p])
  {
    if Pending(Apply(s, st).procs[st.p]) {
      if st.BeginLoad? {
        LoadBringsFiles(s, st);
      } else if st.BeginCommit? {
        CommitBringsItsFile(s, st);
      } else if !st.BeginCreate? {
        OwnJobStays(s, st);
      }
    }
  }

  lemma StepKeepsFiles(s: State, st: Step)
    requires Inv(s) && FilesOk(s) && Enabled(s, st) && Disciplined(s, st)
    ensures FilesOk(Apply(s, st))
  {
    ConfigsKeepFiles(s, st);
    forall q | q in Apply(s, st).procs ensures LowersOk(Apply(s, st).store, Apply(s, st).procs[q]) {
      if q == st.p {
        OwnStays(s, st);
      } else {
        OthersStay(s, st, q);
      }
    }
  }

  // ---------- Runs ----------

  /** A registry found at rest: nothing runs, and what is on disk is in order. */
  ghost predicate Start(s: State) {
    && s.procs == map[] && s.shared == {} && s.exclusive == None
    && AllBacked(s.store) && AllCoherent(s.store) && AllFilesThere(s.store)
  }

  ghost predicate Steps(states: seq<State>, steps: seq<Step>) {
    && |states| == |steps| + 1
    && (forall i | 0 <= i < |steps| :: Enabled(states[i], steps[i]) && states[i + 1] == Apply(states[i], steps[i]))
  }

  ghost predicate Run(states: seq<State>, steps: seq<Step>) {
    && Steps(states, steps)
    && Start(states[0])
    && (forall i | 0 <= i < |steps| :: Disciplined(states[i], steps[i]))
  }

  lemma {:induction false} RunKeeps(states: seq<State>, steps: seq<Step>, i: nat)
    requires Run(states, steps) && i < |states|
    ensures Inv(states[i]) && FilesOk(states[i])
  {
    if i > 0 {
      RunKeeps(states, steps, i - 1);
      assert Enabled(states[i - 1], steps[i - 1]) && Disciplined(states[i - 1], steps[i - 1]);
      StepKeeps(states[i - 1], steps[i - 1]);
      StepKeepsFiles(states[i - 1], steps[i - 1]);
    }
  }

  /** In every interleaving, every config refers only to layer and container directories that exist, the
      file that each of its local lowers names is there, and it lists the layers of its manifest in order. */
  lemma NothingDangles(states: seq<State>, steps: seq<Step>, i: nat)
    requires Run(states, steps) && i < |states|
    ensures forall id | id in states[i].store.configs ::
              && Backed(id, states[i].store.configs[id], states[i].store.layers, states[i].store.containers)
              && FilesThere(states[i].store.configs[id], states[i].store.layers)
              && Coherent(states[i].store.configs[id])
  {
    RunKeeps(states, steps, i);
  }

  /** A container of the registry can always be committed: the only error the config of
      the new image could cause, lazy pulling without a repository, does not occur. */
  lemma CommitConfigNeverFails(states: seq<State>, steps: seq<Step>, i: nat, container: string, layer: Descriptor)
    requires Run(states, steps) && i < |states| && Container(container) in states[i].store.configs
    ensures CommitConfig(states[i].store.configs[Container(container)], layer).Success?
  {
    RunKeeps(states, steps, i);
  }

  // ---------- What a collection leaves ----------

  lemma StaysQuiet(s: State, st: Step)
    requires Enabled(s, st) && (st.LockExclusive? || (s.quiet && !st.Unlink?))
    ensures Apply(s, st).quiet
  {
  }

  lemma StaysQuietAt(states: seq<State>, steps: seq<Step>, k: nat)
    requires Steps(states, steps) && k < |steps|
    requires steps[k].LockExclusive? || (states[k].quiet && !steps[k].Unlink?)
    ensures states[k + 1].quiet
  {
    assert Enabled(states[k], steps[k]) && states[k + 1] == Apply(states[k], steps[k]);
    StaysQuiet(states[k], steps[k]);
  }

  lemma {:induction false} QuietWithoutUnlink(states: seq<State>, steps: seq<Step>, a: nat, b: nat)
    requires Steps(states, steps) && a < b <= |steps|
    requires steps[a].LockExclusive?
    requires forall i | a < i < b :: !steps[i].Unlink?
    ensures states[b].quiet
  {
    if a + 1 < b {
      QuietWithoutUnlink(states, steps, a, b - 1);
    }
    StaysQuietAt(states, steps, b - 1);
  }

  /** A collection during which nothing is unlinked leaves exactly the layers (among
      those named "sha256:...") and the containers that some config refers to. */
  lemma CollectionIsExact(states: seq<State>, steps: seq<Step>, a: nat, b: nat)
    requires Run(states, steps) && a < b < |steps|
    requires steps[a].LockExclusive? && steps[b].UnlockExclusive?
    requires forall i | a < i < b :: !steps[i].Unlink?
    ensures forall d | Collectable(d) :: d in states[b].store.layers <==> d in AllLayerRefs(states[b].store)
    ensures forall t :: t in states[b].store.containers <==> Container(t) in states[b].store.configs
  {
    RunKeeps(states, steps, b);
    QuietWithoutUnlink(states, steps, a, b);
    assert Enabled(states[b], steps[b]);
    var s := states[b].store;
    assert CollectorOk(s, states[b].quiet, states[b].procs[steps[b].p]);
    forall d | Collectable(d) && d in AllLayerRefs(s) ensures d in s.layers {
      var id :| id in s.configs && d in LayerRefs(s.configs[id]);
      assert Backed(id, s.configs[id], s.layers, s.containers);
    }
    forall t | Container(t) in s.configs ensures t in s.containers {
      assert Backed(Container(t), s.configs[Container(t)], s.layers, s.containers);
    }
  }

  // ---------- What is never replaced ----------

  /** Only what no config refers to is removed. */
  lemma NotRemoved(s: State, st: Step, t: string)
    requires Inv(s) && Enabled(s, st) && Container(t) in s.store.configs
    requires st.RemoveFiles? || st.RemoveDir? || st.SweepContainer?
    ensures t != if st.SweepContainer? then st.tag else s.procs[st.p].tag
  {
    assert ProcOk(s.store, s.quiet, s.procs[st.p]);
  }

  /** And files are linked where none are. */
  lemma FilesStay(s: State, st: Step, t: string)
    requires Inv(s) && Enabled(s, st) && Container(t) in s.store.configs
    ensures t in s.store.containers && t in Apply(s, st).store.containers
    ensures Apply(s, st).store.containers[t] == s.store.containers[t]
  {
    assert Backed(Container(t), s.store.configs[Container(t)], s.store.layers, s.store.containers);
    if st.RemoveFiles? || st.RemoveDir? || st.SweepContainer? {
      NotRemoved(s, st, t);
    }
  }

  /** A config, and the files of a container that has one, stay as they are. */
  lemma StepReplacesNothing(s: State, st: Step, id: ContentId)
    requires Inv(s) && Enabled(s, st) && Disciplined(s, st)
    requires id in s.store.configs && id in Apply(s, st).store.configs
    ensures Apply(s, st).store.configs[id] == s.store.configs[id]
    ensures id.Container? ==>
              && id.tag in s.store.containers && id.tag in Apply(s, st).store.containers
              && Apply(s, st).store.containers[id.tag] == s.store.containers[id.tag]
  {
    SameConfig(s, st, id);
    if id.Container? {
      FilesStay(s, st, id.tag);
    }
  }

  ghost predicate SameContainer(s: State, s': State, t: string) {
    && t in s.store.containers && t in s'.store.containers && s'.store.containers[t] == s.store.containers[t]
    && Container(t) in s.store.configs && Container(t) in s'.store.configs
    && s'.store.configs[Container(t)] == s.store.configs[Container(t)]
  }

  lemma RunStepReplacesNothing(states: seq<State>, steps: seq<Step>, k: nat, t: string)
    requires Run(states, steps) && k < |steps|
    requires Container(t) in states[k].store.configs && Container(t) in states[k + 1].store.configs
    ensures SameContainer(states[k], states[k + 1], t)
  {
    RunKeeps(states, steps, k);
    assert Enabled(states[k], steps[k]) && Disciplined(states[k], steps[k]);
    StepReplacesNothing(states[k], steps[k], Container(t));
  }

  lemma ContainerIsBacked(states: seq<State>, steps: seq<Step>, t: string, i: nat)
    requires Run(states, steps) && i < |states| && Container(t) in states[i].store.configs
    ensures SameContainer(states[i], states[i], t)
  {
    NothingDangles(states, steps, i);
    assert Backed(Container(t), states[i].store.configs[Container(t)], states[i].store.layers, states[i].store.containers);
  }

  lemma {:induction false} SameAllAlong(states: seq<State>, t: string, i: nat, j: nat)
    requires i <= j < |states| && SameContainer(states[i], states[i], t)
    requires forall k | i <= k < j :: SameContainer(states[k], states[k + 1], t)
    ensures SameContainer(states[i], states[j], t)
  {
    if i < j {
      SameAllAlong(states, t, i, j - 1);
      assert SameContainer(states[j - 1], states[j - 1 + 1], t);
    }
  }

  /** While a container stays in the registry, no interleaving of creations, commits and
      collections, and no second creation under its id, changes its data. */
  lemma ContainerDataIsKept(states: seq<State>, steps: seq<Step>, t: string, i: nat, j: nat)
    requires Run(states, steps) && i <= j < |states|
    requires forall k | i <= k <= j :: Container(t) in states[k].store.configs
    ensures t in states[i].store.containers && t in states[j].store.containers
    ensures states[j].store.containers[t] == states[i].store.containers[t]
    ensures states[j].store.configs[Container(t)] == states[i].store.configs[Container(t)]
  {
    assert SameContainer(states[i], states[j], t) by {
      ContainerIsBacked(states, steps, t, i);
      forall k | i <= k < j ensures SameContainer(states[k], states[k + 1], t) {
        RunStepReplacesNothing(states, steps, k, t);
      }
      SameAllAlong(states, t, i, j);
    }
  }
}
