/** Where everything in the registry comes from: the configs, the files of the layers and the files of the containers
    are those that the arguments of earlier operations asked for. */
module RegistryContents {
  import opened Wrappers
  import opened RegistryModel
  import opened RegistryProtocol

  /** The job that a step begins on a store, in terms of its arguments. */
  ghost predicate Begun(s: Store, st: Step, job: Job) {
    match st
    case BeginLoad(_, tag, manifest, opts, files) =>
      && job.target == Image(tag) && LoadConfig(manifest, opts) == Success(job.config)
      && job.files == files && job.upper == None && job.cleanup == None
    case BeginCreate(_, base, tag, data, index) =>
      && job.target == Container(tag) && job.files == map[] && job.upper == Some((data, index)) && job.cleanup == None
      && (base.Some? ==> Image(base.value) in s.configs)
      && job.config == ContainerConfig(if base.Some? then Some(s.configs[Image(base.value)]) else None, tag)
    case BeginCommit(_, container, tag, layer, blob, remove) =>
      && Container(container) in s.configs && job.target == Image(tag)
      && CommitConfig(s.configs[Container(container)], layer) == Success(job.config)
      && job.files == map[layer.digest := Some(blob)] && job.upper == None
      && job.cleanup == if remove then Some(container) else None
    case _ => false
  }

  predicate Works(s: State, q: Pid, job: Job) {
    Pending(At(s, q)) && At(s, q).job == job
  }

  lemma JobStep(s: State, st: Step, q: Pid, job: Job)
    requires Enabled(s, st) && Works(Apply(s, st), q, job) && !Works(s, q, job)
    ensures st.p == q && Begun(s.store, st, job)
  {
  }

  /** Every pending job was begun by an earlier step of its process. */
  lemma {:induction false} JobWasBegun(states: seq<State>, steps: seq<Step>, i: nat, q: Pid, job: Job) returns (k: nat)
    requires Steps(states, steps) && states[0].procs == map[] && i < |states| && Works(states[i], q, job)
    ensures k < i && steps[k].p == q && Begun(states[k].store, steps[k], job)
    decreases i
  {
    k := i - 1;
    assert Enabled(states[k], steps[k]) && states[i] == Apply(states[k], steps[k]);
    if Works(states[k], q, job) {
      k := JobWasBegun(states, steps, i - 1, q, job);
    } else {
      JobStep(states[k], steps[k], q, job);
    }
  }

  // ---------- The files of a container ----------

  predicate HasData(s: State, t: string, b: Blob) {
    t in s.store.containers && s.store.containers[t].data == Some(b)
  }

  predicate HasIndex(s: State, t: string, b: Blob) {
    t in s.store.containers && s.store.containers[t].index == Some(b)
  }

  lemma DataStep(s: State, st: Step, t: string, b: Blob)
    requires Enabled(s, st) && HasData(Apply(s, st), t, b) && !HasData(s, t, b)
    ensures var job := At(s, st.p).job;
            Pending(At(s, st.p)) && job.target == Container(t) && job.upper.Some? && job.upper.value.0 == b
  {
  }

  lemma IndexStep(s: State, st: Step, t: string, b: Blob)
    requires Enabled(s, st) && HasIndex(Apply(s, st), t, b) && !HasIndex(s, t, b)
    ensures var job := At(s, st.p).job;
            Pending(At(s, st.p)) && job.target == Container(t) && job.upper.Some? && job.upper.value.1 == b
  {
  }

  /** The data file of a container is the one it had at the start, or the data of some earlier creation under its id. */
  lemma {:induction false} DataIsGiven(states: seq<State>, steps: seq<Step>, i: nat, t: string, b: Blob)
    requires Steps(states, steps) && states[0].procs == map[] && i < |states| && HasData(states[i], t, b)
    ensures HasData(states[0], t, b)
            || exists k :: 0 <= k < i && steps[k].BeginCreate? && steps[k].tag == t && steps[k].data == b
    decreases i
  {
    if i > 0 {
      assert Enabled(states[i - 1], steps[i - 1]);
      if HasData(states[i - 1], t, b) {
        DataIsGiven(states, steps, i - 1, t, b);
      } else {
        DataStep(states[i - 1], steps[i - 1], t, b);
        var k := JobWasBegun(states, steps, i - 1, steps[i - 1].p, At(states[i - 1], steps[i - 1].p).job);
      }
    }
  }

  /** And its index file likewise the index. */
  lemma {:induction false} IndexIsGiven(states: seq<State>, steps: seq<Step>, i: nat, t: string, b: Blob)
    requires Steps(states, steps) && states[0].procs == map[] && i < |states| && HasIndex(states[i], t, b)
    ensures HasIndex(states[0], t, b)
            || exists k :: 0 <= k < i && steps[k].BeginCreate? && steps[k].tag == t && steps[k].index == b
    decreases i
  {
    if i > 0 {
      assert Enabled(states[i - 1], steps[i - 1]);
      if HasIndex(states[i - 1], t, b) {
        IndexIsGiven(states, steps, i - 1, t, b);
      } else {
        IndexStep(states[i - 1], steps[i - 1], t, b);
        var k := JobWasBegun(states, steps, i - 1, steps[i - 1].p, At(states[i - 1], steps[i - 1].p).job);
      }
    }
  }

  // ---------- The files of a layer ----------

  predicate HasCommitFile(s: State, d: Digest, b: Blob) {
    d in s.store.layers && s.store.layers[d].commitFile == Some(b)
  }

  /** The step brings the file of the layer: a load from the layers it was given, or a commit. */
  predicate Brings(st: Step, d: Digest, b: Blob) {
    match st
    case BeginLoad(_, _, _, _, files) => d in files && files[d] == Some(b)
    case BeginCommit(_, _, _, layer, blob, _) => layer.digest == d && blob == b
    case _ => false
  }

  lemma LayerStep(s: State, st: Step, d: Digest, b: Blob)
    requires Enabled(s, st) && HasCommitFile(Apply(s, st), d, b) && !HasCommitFile(s, d, b)
    ensures Pending(At(s, st.p)) && d in At(s, st.p).job.files && At(s, st.p).job.files[d] == Some(b)
  {
  }

  /** The commit file of a layer is the one it had at the start, or one that some load or commit brought for its digest. */
  lemma {:induction false} LayerFileIsGiven(states: seq<State>, steps: seq<Step>, i: nat, d: Digest, b: Blob)
    requires Steps(states, steps) && states[0].procs == map[] && i < |states| && HasCommitFile(states[i], d, b)
    ensures HasCommitFile(states[0], d, b) || exists k :: 0 <= k < i && Brings(steps[k], d, b)
    decreases i
  {
    if i > 0 {
      assert Enabled(states[i - 1], steps[i - 1]);
      if HasCommitFile(states[i - 1], d, b) {
        LayerFileIsGiven(states, steps, i - 1, d, b);
      } else {
        LayerStep(states[i - 1], steps[i - 1], d, b);
        var k := JobWasBegun(states, steps, i - 1, steps[i - 1].p, At(states[i - 1], steps[i - 1].p).job);
        assert Brings(steps[k], d, b);
      }
    }
  }

  // ---------- Configs ----------

  /** The config of content is the one it had at the start, or what some load, creation or commit under its id made of its
      arguments and of the configs that were there when it began. */
  lemma {:induction false} ConfigIsGiven(states: seq<State>, steps: seq<Step>, i: nat, id: ContentId)
    requires Steps(states, steps) && states[0].procs == map[] && i < |states| && id in states[i].store.configs
    ensures (id in states[0].store.configs && states[0].store.configs[id] == states[i].store.configs[id])
            || exists k, job: Job :: 0 <= k < i && Begun(states[k].store, steps[k], job)
                                     && job.target == id && job.config == states[i].store.configs[id]
    decreases i
  {
    if i > 0 {
      assert Enabled(states[i - 1], steps[i - 1]);
      if id in states[i - 1].store.configs {
        SameConfig(states[i - 1], steps[i - 1], id);
        ConfigIsGiven(states, steps, i - 1, id);
      } else {
        NewConfig(states[i - 1], steps[i - 1], id);
        var k := JobWasBegun(states, steps, i - 1, steps[i - 1].p, At(states[i - 1], steps[i - 1].p).job);
      }
    }
  }

  /** A load by which this config pulls its layers. */
  ghost predicate AskedFor(st: Step, c: Config) {
    st.BeginLoad? && PullsAs(c, st.opts.remoteRef, st.opts.lazyPulling, !st.opts.disableDownload)
  }

  lemma BegunAsAsked(s: Store, st: Step, job: Job)
    requires Begun(s, st, job)
    ensures match st
            case BeginLoad(_, _, _, _, _) => AskedFor(st, job.config)
            case BeginCreate(_, base, _, _, _) =>
              if base == None then PullsAs(job.config, None, false, true)
              else
                && Image(base.value) in s.configs
                && var b := s.configs[Image(base.value)];
                PullsAs(job.config, b.remoteRef, b.lazyPulling, b.downloadEnabled != Some(false))
            case BeginCommit(_, container, _, _, _, _) =>
              && Container(container) in s.configs
              && var b := s.configs[Container(container)];
              PullsAs(job.config, b.remoteRef, b.lazyPulling, b.downloadEnabled != Some(false))
            case _ => true
  {
    match st
    case BeginLoad(_, _, manifest, opts, _) => LoadedAsAsked(manifest, opts);
    case BeginCreate(_, base, tag, _, _) =>
      if base.Some? {
        var b := s.configs[Image(base.value)];
        DerivedAsBase(b, tag, CommittedLayer(FAKE_CONFIG.digest, 0), b.remoteRef, b.lazyPulling, b.downloadEnabled != Some(false));
      }
    case BeginCommit(_, container, tag, layer, _, _) =>
      var b := s.configs[Container(container)];
      DerivedAsBase(b, tag, layer, b.remoteRef, b.lazyPulling, b.downloadEnabled != Some(false));
    case _ =>
  }

  /** In a registry that started empty every image and container pulls its layers as some load asked for, through
      any number of creations and commits, or does not pull at all. */
  lemma {:induction false} PullsAsSomeLoad(states: seq<State>, steps: seq<Step>, i: nat, id: ContentId)
    requires Steps(states, steps) && states[0].procs == map[] && states[0].store.configs == map[]
    requires i < |states| && id in states[i].store.configs
    ensures PullsAs(states[i].store.configs[id], None, false, true)
            || exists k :: 0 <= k < i && AskedFor(steps[k], states[i].store.configs[id])
    decreases i
  {
    ConfigIsGiven(states, steps, i, id);
    var c := states[i].store.configs[id];
    var k, job: Job :| 0 <= k < i && Begun(states[k].store, steps[k], job) && job.target == id && job.config == c;
    BegunAsAsked(states[k].store, steps[k], job);
    if steps[k].BeginCreate? && steps[k].base.Some? {
      PullsAsSomeLoad(states, steps, k, Image(steps[k].base.value));
    } else if steps[k].BeginCommit? {
      PullsAsSomeLoad(states, steps, k, Container(steps[k].container));
    }
  }

  // ---------- One creation ----------

  /** How far a creation of container `t` is, when it found no directory. */
  ghost predicate Underway(s: State, p: Pid, t: string, data: Blob, index: Blob) {
    var proc := At(s, p);
    && Pending(proc) && proc.job.target == Container(t) && proc.job.upper == Some((data, index))
    && var stage := if proc.Queued? then NoDir else proc.stage;
    && (t in s.store.containers <==> stage != NoDir)
    && (stage != NoDir ==>
          s.store.containers[t] == ContainerDir(if stage == DirMade then None else Some(data),
                                                if stage == DirReady then Some(index) else None))
  }

  /** What the directory of a container holds. */
  function Entry(s: State, t: string): Option<ContainerDir> {
    if t in s.store.containers then Some(s.store.containers[t]) else None
  }

  lemma BeginIsUnderway(s: State, st: Step)
    requires st.BeginCreate? && Enabled(s, st) && st.tag !in s.store.containers
    ensures Underway(Apply(s, st), st.p, st.tag, st.data, st.index)
  {
  }

  lemma OwnStep(s: State, st: Step, t: string, data: Blob, index: Blob)
    requires Enabled(s, st) && Underway(s, st.p, t, data, index) && !st.Abort? && !st.WriteConfig?
    ensures Underway(Apply(s, st), st.p, t, data, index)
  {
  }

  lemma OtherStep(s: State, st: Step, p: Pid, t: string, data: Blob, index: Blob)
    requires Enabled(s, st) && Underway(s, p, t, data, index) && st.p != p && Entry(Apply(s, st), t) == Entry(s, t)
    ensures Underway(Apply(s, st), p, t, data, index)
  {
  }

  /** The creation goes on, or somebody else does something else than touch its directory. */
  ghost predicate Lets(s: State, st: Step, p: Pid, t: string)
    requires Enabled(s, st)
  {
    if st.p == p then !st.Abort? && !st.WriteConfig? else Entry(Apply(s, st), t) == Entry(s, t)
  }

  ghost predicate Undisturbed(states: seq<State>, steps: seq<Step>, i: nat, j: nat, p: Pid, t: string)
    requires Steps(states, steps) && j <= |steps|
  {
    forall k | i <= k < j :: Lets(states[k], steps[k], p, t)
  }

  lemma {:induction false} StaysUnderway(states: seq<State>, steps: seq<Step>, i: nat, j: nat)
    requires Steps(states, steps) && i < j <= |steps| && steps[i].BeginCreate?
    requires steps[i].tag !in states[i].store.containers && Undisturbed(states, steps, i + 1, j, steps[i].p, steps[i].tag)
    ensures Underway(states[j], steps[i].p, steps[i].tag, steps[i].data, steps[i].index)
    decreases j
  {
    var p, t, data, index := steps[i].p, steps[i].tag, steps[i].data, steps[i].index;
    assert Enabled(states[j - 1], steps[j - 1]);
    if i == j - 1 {
      BeginIsUnderway(states[i], steps[i]);
    } else {
      StaysUnderway(states, steps, i, j - 1);
      assert Lets(states[j - 1], steps[j - 1], p, t);
      if steps[j - 1].p == p {
        OwnStep(states[j - 1], steps[j - 1], t, data, index);
      } else {
        OtherStep(states[j - 1], steps[j - 1], p, t, data, index);
      }
    }
  }

  /** A creation that found no directory, and whose directory nobody else touched, ends with its own data and its own
      index in the files of those names. */
  lemma CreationKeepsItsFiles(states: seq<State>, steps: seq<Step>, i: nat, j: nat)
    requires Steps(states, steps) && i < j < |steps| && steps[i].BeginCreate? && steps[j] == WriteConfig(steps[i].p)
    requires steps[i].tag !in states[i].store.containers && Undisturbed(states, steps, i + 1, j, steps[i].p, steps[i].tag)
    ensures Entry(states[j + 1], steps[i].tag) == Some(ContainerDir(Some(steps[i].data), Some(steps[i].index)))
  {
    StaysUnderway(states, steps, i, j);
    assert Enabled(states[j], steps[j]);
  }
}
