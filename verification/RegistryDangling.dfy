/** Why content must not be removed between the moment an operation reads its config and the moment it
    holds the lock: from any such removal the registry can come to a config that dangles. */
module RegistryDangling {
  import opened Wrappers
  import opened RegistryModel
  import opened RegistryProtocol

  /** A run, one step longer. */
  lemma Extended(states: seq<State>, steps: seq<Step>, st: Step) returns (states': seq<State>, steps': seq<Step>)
    requires Steps(states, steps) && Enabled(states[|steps|], st)
    ensures Continues(states, steps, states', steps') && steps' == steps + [st]
    ensures states'[|steps'|] == Apply(states[|steps|], st)
  {
    states', steps' := states + [Apply(states[|steps|], st)], steps + [st];
  }

  ghost predicate Continues(states: seq<State>, steps: seq<Step>, states': seq<State>, steps': seq<Step>) {
    Steps(states', steps') && states <= states' && steps <= steps'
  }

  // ---------- A whole collection, undisturbed ----------

  /** The collector `c` is in the given state and nobody else has moved; `q` waits for the lock with its job. */
  ghost predicate Collecting(s: State, c: Pid, proc: Proc, q: Pid, job: Job, configs: map<ContentId, Config>) {
    && c != q && At(s, c) == proc && At(s, q) == Queued(job)
    && s.exclusive == Some(c) && s.shared == {} && s.store.configs == configs
  }

  /** No config refers to the layer. */
  ghost predicate Unused(configs: map<ContentId, Config>, d: Digest) {
    forall id | id in configs :: d !in LayerRefs(configs[id])
  }

  lemma ReadOne(s: State, c: Pid, q: Pid, job: Job, configs: map<ContentId, Config>, d: Digest, id: ContentId)
    requires Collecting(s, c, At(s, c), q, job, configs) && At(s, c).GcReading? && id in At(s, c).toRead
    requires Unused(configs, d) && d !in At(s, c).usedLayers
    ensures Enabled(s, ReadConfig(c, id))
    ensures var n := Apply(s, ReadConfig(c, id));
            && Collecting(n, c, At(n, c), q, job, configs) && At(n, c).GcReading? && d !in At(n, c).usedLayers
            && At(n, c).layerNames == At(s, c).layerNames && At(n, c).toRead == At(s, c).toRead - {id} && n.store == s.store
  {
  }

  /** Reading all configs finds no reference to an unused layer. */
  lemma {:induction false} ReadAll(states0: seq<State>, steps0: seq<Step>, c: Pid, q: Pid, job: Job,
                                   configs: map<ContentId, Config>, d: Digest)
    returns (states: seq<State>, steps: seq<Step>)
    requires Steps(states0, steps0)
    requires var s := states0[|steps0|];
             Collecting(s, c, At(s, c), q, job, configs) && At(s, c).GcReading? && d !in At(s, c).usedLayers
    requires Unused(configs, d)
    ensures Continues(states0, steps0, states, steps)
    ensures var (s, n) := (states0[|steps0|], states[|steps|]);
            && Collecting(n, c, At(n, c), q, job, configs) && At(n, c).GcReading? && d !in At(n, c).usedLayers
            && At(n, c).layerNames == At(s, c).layerNames && At(n, c).toRead == {} && n.store == s.store
    decreases At(states0[|steps0|], c).toRead
  {
    states, steps := states0, steps0;
    if id :| id in At(states0[|steps0|], c).toRead {
      ReadOne(states0[|steps0|], c, q, job, configs, d, id);
      states, steps := Extended(states0, steps0, ReadConfig(c, id));
      states, steps := ReadAll(states, steps, c, q, job, configs, d);
    }
  }

  lemma SweepOneLayer(s: State, c: Pid, q: Pid, job: Job, configs: map<ContentId, Config>, d: Digest)
    requires Collecting(s, c, At(s, c), q, job, configs) && At(s, c).GcSweeping? && d in At(s, c).deadLayers
    ensures Enabled(s, SweepLayer(c, d))
    ensures var n := Apply(s, SweepLayer(c, d));
            && Collecting(n, c, GcSweeping(At(s, c).deadLayers - {d}, At(s, c).deadContainers), q, job, configs)
            && n.store.layers == s.store.layers - {d}
  {
  }

  lemma SweepOneContainer(s: State, c: Pid, q: Pid, job: Job, configs: map<ContentId, Config>, t: string)
    requires Collecting(s, c, At(s, c), q, job, configs) && At(s, c).GcSweeping? && t in At(s, c).deadContainers
    ensures Enabled(s, SweepContainer(c, t))
    ensures var n := Apply(s, SweepContainer(c, t));
            && Collecting(n, c, GcSweeping(At(s, c).deadLayers, At(s, c).deadContainers - {t}), q, job, configs)
            && n.store.layers == s.store.layers
  {
  }

  lemma {:induction false} SweepLayers(states0: seq<State>, steps0: seq<Step>, c: Pid, q: Pid, job: Job, configs: map<ContentId, Config>)
    returns (states: seq<State>, steps: seq<Step>)
    requires Steps(states0, steps0)
    requires var s := states0[|steps0|]; Collecting(s, c, At(s, c), q, job, configs) && At(s, c).GcSweeping?
    ensures Continues(states0, steps0, states, steps)
    ensures var (s, n) := (states0[|steps0|], states[|steps|]);
            && Collecting(n, c, GcSweeping({}, At(s, c).deadContainers), q, job, configs)
            && n.store.layers.Keys == s.store.layers.Keys - At(s, c).deadLayers
    decreases At(states0[|steps0|], c).deadLayers
  {
    states, steps := states0, steps0;
    if d :| d in At(states0[|steps0|], c).deadLayers {
      SweepOneLayer(states0[|steps0|], c, q, job, configs, d);
      states, steps := Extended(states0, steps0, SweepLayer(c, d));
      states, steps := SweepLayers(states, steps, c, q, job, configs);
    }
  }

  lemma {:induction false} SweepContainers(states0: seq<State>, steps0: seq<Step>, c: Pid, q: Pid, job: Job, configs: map<ContentId, Config>)
    returns (states: seq<State>, steps: seq<Step>)
    requires Steps(states0, steps0)
    requires var s := states0[|steps0|];
             Collecting(s, c, At(s, c), q, job, configs) && At(s, c).GcSweeping? && At(s, c).deadLayers == {}
    ensures Continues(states0, steps0, states, steps)
    ensures var (s, n) := (states0[|steps0|], states[|steps|]);
            Collecting(n, c, GcSweeping({}, {}), q, job, configs) && n.store.layers == s.store.layers
    decreases At(states0[|steps0|], c).deadContainers
  {
    states, steps := states0, steps0;
    if t :| t in At(states0[|steps0|], c).deadContainers {
      SweepOneContainer(states0[|steps0|], c, q, job, configs, t);
      states, steps := Extended(states0, steps0, SweepContainer(c, t));
      states, steps := SweepContainers(states, steps, c, q, job, configs);
    }
  }

  /** A collection begins and has read every config. */
  lemma CollectionReads(states0: seq<State>, steps0: seq<Step>, c: Pid, q: Pid, job: Job, d: Digest)
    returns (states: seq<State>, steps: seq<Step>)
    requires Steps(states0, steps0)
    requires var s := states0[|steps0|];
             && c != q && At(s, c) == Idle && At(s, q) == Queued(job) && s.exclusive == None && s.shared == {}
             && Unused(s.store.configs, d) && Collectable(d)
    ensures Continues(states0, steps0, states, steps)
    ensures var (s, n) := (states0[|steps0|], states[|steps|]);
            && Collecting(n, c, At(n, c), q, job, s.store.configs) && At(n, c).GcReading? && d !in At(n, c).usedLayers
            && (d in s.store.layers ==> d in At(n, c).layerNames) && At(n, c).toRead == {} && n.store == s.store
  {
    var configs := states0[|steps0|].store.configs;
    states, steps := Extended(states0, steps0, LockExclusive(c));
    assert Collecting(states[|steps|], c, GcLocked, q, job, configs);
    states, steps := Extended(states, steps, ListDirs(c));
    assert At(states[|steps|], c).GcListed?;
    states, steps := Extended(states, steps, ListConfigs(c));
    states, steps := ReadAll(states, steps, c, q, job, configs, d);
  }

  /** And takes away a layer that no config refers to. */
  lemma LayerIsCollected(states0: seq<State>, steps0: seq<Step>, c: Pid, q: Pid, job: Job, d: Digest)
    returns (states: seq<State>, steps: seq<Step>)
    requires Steps(states0, steps0)
    requires var s := states0[|steps0|];
             && c != q && At(s, c) == Idle && At(s, q) == Queued(job) && s.exclusive == None && s.shared == {}
             && Unused(s.store.configs, d) && Collectable(d)
    ensures Continues(states0, steps0, states, steps)
    ensures var (s, n) := (states0[|steps0|], states[|steps|]);
            && At(n, q) == Queued(job) && n.exclusive == None && n.shared == {} && n.store.configs == s.store.configs
            && d !in n.store.layers
  {
    var configs := states0[|steps0|].store.configs;
    states, steps := CollectionReads(states0, steps0, c, q, job, d);
    states, steps := Extended(states, steps, StartSweep(c));
    assert Collecting(states[|steps|], c, At(states[|steps|], c), q, job, configs);
    states, steps := SweepLayers(states, steps, c, q, job, configs);
    states, steps := SweepContainers(states, steps, c, q, job, configs);
    states, steps := Extended(states, steps, UnlockExclusive(c));
  }

  // ---------- The container is made all the same ----------

  ghost predicate Making(s: State, q: Pid, job: Job, stage: Stage, configs: map<ContentId, Config>, d: Digest) {
    && At(s, q) == Preparing(job, {}, {}, stage) && s.store.configs == configs && d !in s.store.layers
    && job.target.Container? && job.upper.Some? && (stage != NoDir ==> job.target.tag in s.store.containers)
  }

  lemma MakingBegins(s: State, q: Pid, job: Job, d: Digest)
    requires At(s, q) == Queued(job) && s.exclusive == None && d !in s.store.layers
    requires job.target.Container? && job.upper.Some? && job.files == map[]
    ensures Enabled(s, LockShared(q)) && Making(Apply(s, LockShared(q)), q, job, NoDir, s.store.configs, d)
  {
  }

  /** Making the directory, linking the data, linking the index. */
  function NextStage(q: Pid, stage: Stage): (Step, Stage)
    requires stage != DirReady
  {
    match stage
    case NoDir => (MakeContainerDir(q), DirMade)
    case DirMade => (LinkData(q), DataLinked)
    case DataLinked => (LinkIndex(q), DirReady)
  }

  lemma MakingGoesOn(s: State, q: Pid, job: Job, stage: Stage, configs: map<ContentId, Config>, d: Digest)
    requires stage != DirReady && Making(s, q, job, stage, configs, d)
    ensures var (st, to) := NextStage(q, stage); Enabled(s, st) && Making(Apply(s, st), q, job, to, configs, d)
  {
  }

  lemma ContainerIsMade(states0: seq<State>, steps0: seq<Step>, q: Pid, job: Job, d: Digest)
    returns (states: seq<State>, steps: seq<Step>)
    requires Steps(states0, steps0)
    requires var s := states0[|steps0|];
             && At(s, q) == Queued(job) && s.exclusive == None && d !in s.store.layers
             && job.target.Container? && job.upper.Some? && job.files == map[]
    ensures Continues(states0, steps0, states, steps)
    ensures Making(states[|steps|], q, job, DirReady, states0[|steps0|].store.configs, d)
  {
    var configs := states0[|steps0|].store.configs;
    MakingBegins(states0[|steps0|], q, job, d);
    states, steps := Extended(states0, steps0, LockShared(q));
    MakingGoesOn(states[|steps|], q, job, NoDir, configs, d);
    states, steps := Extended(states, steps, MakeContainerDir(q));
    MakingGoesOn(states[|steps|], q, job, DirMade, configs, d);
    states, steps := Extended(states, steps, LinkData(q));
    MakingGoesOn(states[|steps|], q, job, DataLinked, configs, d);
    states, steps := Extended(states, steps, LinkIndex(q));
  }

  // ---------- A removal at the wrong time ----------

  /** A process that waits for the lock to make a container from an image, one of whose layers only that
      image refers to; the registry is otherwise at rest. */
  ghost predicate Exposed(s: State, q: Pid, d: Digest) {
    && At(s, q).Queued? && s.exclusive == None && s.shared == {}
    && var job := s.procs[q].job;
    && job.target.Container? && job.target !in s.store.configs && job.upper.Some? && job.files == map[]
    && job.base.Some? && job.base.value.Image? && job.base.value in s.store.configs
    && d in LayerRefs(job.config) && Collectable(d)
    && forall id | id in s.store.configs && id != job.base.value :: d !in LayerRefs(s.store.configs[id])
  }

  lemma UnusedPid(procs: map<Pid, Proc>) returns (p: Pid)
    ensures p !in procs
  {
    p := Above(procs.Keys);
  }

  lemma {:induction false} Above(pids: set<Pid>) returns (p: Pid)
    ensures forall q | q in pids :: q < p
    decreases pids
  {
    p := 0;
    if q :| q in pids {
      p := Above(pids - {q});
      assert forall k | k in pids :: k == q || k in pids - {q};
      p := if q < p then p else q + 1;
    }
  }

  /** A removal of the base is not disciplined, and from it the registry can come to a config that refers to a layer
      that is not there: the layer is collected, and then the container is made. */
  lemma UndisciplinedRemovalDangles(states0: seq<State>, steps0: seq<Step>, q: Pid, d: Digest)
    returns (states: seq<State>, steps: seq<Step>)
    requires Steps(states0, steps0) && Exposed(states0[|steps0|], q, d)
    ensures Continues(states0, steps0, states, steps) && |steps| > |steps0|
    ensures var (s, st) := (states0[|steps0|], steps[|steps0|]);
            st.Unlink? && Some(st.id) == s.procs[q].job.base && !Disciplined(s, st)
    ensures !AllBacked(states[|steps|].store)
  {
    var s := states0[|steps0|];
    var job := s.procs[q].job;
    var p := UnusedPid(s.procs);
    states, steps := Extended(states0, steps0, Unlink(p, job.base.value));
    assert Unused(states[|steps|].store.configs, d);
    states, steps := LayerIsCollected(states, steps, p, q, job, d);
    states, steps := ContainerIsMade(states, steps, q, job, d);
    states, steps := Extended(states, steps, WriteConfig(q));
    var n := states[|steps|].store;
    assert n.configs[job.target] == job.config && d !in n.layers;
    assert !Backed(job.target, job.config, n.layers, n.containers);
  }

  // ---------- Such a run ----------

  const SAMPLE_LAYER := Digest("sha256", "aa")
  const SAMPLE_CONFIG := Config(None, false, None, [LocalLower(SAMPLE_LAYER, false)], None,
                                Some(Manifest(FAKE_CONFIG, [CommittedLayer(SAMPLE_LAYER, 1)])))
  const SAMPLE_STORE := Store(map[Image("b") := SAMPLE_CONFIG], map[SAMPLE_LAYER := LayerDir(Some("x"), None)], map[])

  lemma SampleRefs()
    ensures LayerRefs(SAMPLE_CONFIG) == {SAMPLE_LAYER} && Coherent(SAMPLE_CONFIG)
    ensures LayerRefs(ContainerConfig(Some(SAMPLE_CONFIG), "c")) == {SAMPLE_LAYER}
  {
    assert LowerDigests(SAMPLE_CONFIG.lowers) == [SAMPLE_LAYER];
    assert LayerDigests([CommittedLayer(SAMPLE_LAYER, 1)]) == [SAMPLE_LAYER];
  }

  /** `createContainer` reads the base, and the base is then removed. */
  lemma RemovedBaseDangles() returns (states: seq<State>, steps: seq<Step>)
    ensures Steps(states, steps) && Start(states[0])
    ensures !AllBacked(states[|steps|].store)
    ensures |steps| > 1 && steps[1].Unlink? && !Disciplined(states[1], steps[1])
  {
    SampleRefs();
    var states0, steps0 := [State(SAMPLE_STORE, {}, None, map[], false)], [];
    states0, steps0 := Extended(states0, steps0, BeginCreate(0, Some("b"), "c", "d", "i"));
    assert Exposed(states0[1], 0, SAMPLE_LAYER);
    states, steps := UndisciplinedRemovalDangles(states0, steps0, 0, SAMPLE_LAYER);
  }
}
