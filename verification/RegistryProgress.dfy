/** What the operations on the registry achieve when they are not interrupted. */
module RegistryProgress {
  import opened Wrappers
  import opened RegistryModel
  import opened RegistryProtocol
  import opened RegistryDangling

  function CommitFileOf(s: Store, d: Digest): Option<Blob> {
    if d in s.layers then s.layers[d].commitFile else None
  }

  /** The file of a layer once it has been linked: a stored one stays. */
  function Linked(s: Store, files: map<Digest, Option<Blob>>, d: Digest): Option<Blob>
    requires d in files
  {
    if CommitFileOf(s, d).Some? then CommitFileOf(s, d) else files[d]
  }

  /** How far a writer of an image is, compared with the registry it found. */
  ghost predicate Writing(s0: State, s: State, p: Pid, job: Job, dirs: set<Digest>, links: set<Digest>) {
    && At(s, p) == Preparing(job, dirs, links, DirReady) && dirs <= job.files.Keys && links <= job.files.Keys
    && s.procs == s0.procs[p := At(s, p)] && s.shared == s0.shared + {p} && s.exclusive == None
    && s.store.configs == s0.store.configs && s.store.containers == s0.store.containers
    && s.store.layers.Keys == s0.store.layers.Keys + (job.files.Keys - dirs)
    && (forall d | d in s.store.layers && (d !in job.files || d in dirs + links) :: CommitFileOf(s.store, d) == CommitFileOf(s0.store, d))
    && forall d | d in job.files && d !in dirs + links :: CommitFileOf(s.store, d) == Linked(s0.store, job.files, d)
  }

  lemma WriterLocks(s: State, p: Pid, job: Job)
    requires At(s, p) == Queued(job) && s.exclusive == None && job.target.Image?
    ensures Enabled(s, LockShared(p)) && Writing(s, Apply(s, LockShared(p)), p, job, job.files.Keys, {})
  {
  }

  lemma OneDir(s0: State, s: State, p: Pid, job: Job, dirs: set<Digest>, links: set<Digest>, d: Digest)
    requires Writing(s0, s, p, job, dirs, links) && dirs !! links && d in dirs
    ensures Enabled(s, MakeLayerDir(p, d)) && Writing(s0, Apply(s, MakeLayerDir(p, d)), p, job, dirs - {d}, links + {d})
  {
  }

  lemma OneLink(s0: State, s: State, p: Pid, job: Job, links: set<Digest>, d: Digest)
    requires Writing(s0, s, p, job, {}, links) && d in links
    ensures Enabled(s, LinkLayer(p, d)) && Writing(s0, Apply(s, LinkLayer(p, d)), p, job, {}, links - {d})
  {
  }

  lemma {:induction false} MakeDirs(s0: State, states0: seq<State>, steps0: seq<Step>, p: Pid, job: Job, dirs: set<Digest>, links: set<Digest>)
    returns (states: seq<State>, steps: seq<Step>)
    requires Steps(states0, steps0) && Writing(s0, states0[|steps0|], p, job, dirs, links) && dirs !! links
    ensures Continues(states0, steps0, states, steps) && Writing(s0, states[|steps|], p, job, {}, dirs + links)
    decreases dirs
  {
    states, steps := states0, steps0;
    if d :| d in dirs {
      OneDir(s0, states0[|steps0|], p, job, dirs, links, d);
      states, steps := Extended(states0, steps0, MakeLayerDir(p, d));
      states, steps := MakeDirs(s0, states, steps, p, job, dirs - {d}, links + {d});
      assert dirs - {d} + (links + {d}) == dirs + links;
    } else {
      assert dirs == {} && dirs + links == links;
    }
  }

  lemma {:induction false} LinkAll(s0: State, states0: seq<State>, steps0: seq<Step>, p: Pid, job: Job, links: set<Digest>)
    returns (states: seq<State>, steps: seq<Step>)
    requires Steps(states0, steps0) && Writing(s0, states0[|steps0|], p, job, {}, links)
    ensures Continues(states0, steps0, states, steps) && Writing(s0, states[|steps|], p, job, {}, {})
    decreases links
  {
    states, steps := states0, steps0;
    if d :| d in links {
      OneLink(s0, states0[|steps0|], p, job, links, d);
      states, steps := Extended(states0, steps0, LinkLayer(p, d));
      states, steps := LinkAll(s0, states, steps, p, job, links - {d});
    } else {
      assert links == {};
    }
  }

  lemma LayersAreWritten(states0: seq<State>, steps0: seq<Step>, p: Pid, job: Job) returns (states: seq<State>, steps: seq<Step>)
    requires Steps(states0, steps0)
    requires At(states0[|steps0|], p) == Queued(job) && states0[|steps0|].exclusive == None && job.target.Image?
    ensures Continues(states0, steps0, states, steps) && Writing(states0[|steps0|], states[|steps|], p, job, {}, {})
  {
    var s := states0[|steps0|];
    WriterLocks(s, p, job);
    states, steps := Extended(states0, steps0, LockShared(p));
    states, steps := MakeDirs(s, states, steps, p, job, job.files.Keys, {});
    assert job.files.Keys + {} == job.files.Keys;
    states, steps := LinkAll(s, states, steps, p, job, job.files.Keys);
  }

  /** What a writer of an image leaves: its layers on disk, no lock, and everything else as it was. */
  ghost predicate Wrote(s0: State, s: State, p: Pid, job: Job, after: Proc) {
    && s.procs == s0.procs[p := after] && s.shared == s0.shared - {p} && s.exclusive == None
    && s.store.containers == s0.store.containers && s.store.layers.Keys == s0.store.layers.Keys + job.files.Keys
    && forall d | d in s.store.layers ::
         CommitFileOf(s.store, d) == if d in job.files then Linked(s0.store, job.files, d) else CommitFileOf(s0.store, d)
  }

  lemma ConfigIsWritten(s0: State, s: State, p: Pid, job: Job)
    requires Writing(s0, s, p, job, {}, {}) && p !in s0.shared && job.target !in s0.store.configs
    ensures Enabled(s, WriteConfig(p))
    ensures var n := Apply(s, WriteConfig(p));
            Wrote(s0, n, p, job, AfterWrite(job)) && n.store.configs == s0.store.configs[job.target := job.config]
  {
    assert s0.shared + {p} - {p} == s0.shared - {p};
  }

  lemma ConfigIsCompared(s0: State, s: State, p: Pid, job: Job)
    requires Writing(s0, s, p, job, {}, {}) && p !in s0.shared && job.target in s0.store.configs
    ensures Enabled(s, WriteConfig(p))
    ensures var n := Apply(s, WriteConfig(p));
            && Enabled(n, Compare(p))
            && var m := Apply(n, Compare(p));
            && m.store.configs == s0.store.configs
            && Wrote(s0, m, p, job, if s0.store.configs[job.target] == job.config then AfterWrite(job) else Idle)
  {
    assert s0.shared + {p} - {p} == s0.shared - {p};
  }

  /** A load that nobody interrupts writes its config, with a file on disk for every layer it brought, or finds the id
      taken and changes no config; it gives the lock back and touches nothing else. */
  lemma LoadGoesThrough(states0: seq<State>, steps0: seq<Step>, p: Pid, tag: string, manifest: Manifest, opts: LoadOpts,
                        files: map<Digest, Option<Blob>>) returns (states: seq<State>, steps: seq<Step>)
    requires Steps(states0, steps0) && Enabled(states0[|steps0|], BeginLoad(p, tag, manifest, opts, files))
    requires states0[|steps0|].exclusive == None && p !in states0[|steps0|].shared
    ensures Continues(states0, steps0, states, steps)
    ensures var (s, n, c) := (states0[|steps0|], states[|steps|], LoadConfig(manifest, opts).value);
            && n.store.configs == (if Image(tag) in s.store.configs then s.store.configs else s.store.configs[Image(tag) := c])
            && n.store.containers == s.store.containers && At(n, p) == Idle && n.shared == s.shared && n.exclusive == None
            && forall d | d in files :: d in n.store.layers && CommitFileOf(n.store, d) == Linked(s.store, files, d)
  {
    var s := states0[|steps0|];
    states, steps := Extended(states0, steps0, BeginLoad(p, tag, manifest, opts, files));
    var begun := states[|steps|];
    var job := At(begun, p).job;
    states, steps := LayersAreWritten(states, steps, p, job);
    if Image(tag) in s.store.configs {
      ConfigIsCompared(begun, states[|steps|], p, job);
      states, steps := Extended(states, steps, WriteConfig(p));
      states, steps := Extended(states, steps, Compare(p));
    } else {
      ConfigIsWritten(begun, states[|steps|], p, job);
      states, steps := Extended(states, steps, WriteConfig(p));
    }
  }

  /** A commit that nobody interrupts writes the config of the image and the file of its new layer; whether the container is to
      be removed is what it does next. */
  lemma CommitGoesThrough(states0: seq<State>, steps0: seq<Step>, p: Pid, container: string, tag: string, layer: Descriptor,
                          blob: Blob, remove: bool) returns (states: seq<State>, steps: seq<Step>)
    requires Steps(states0, steps0) && Enabled(states0[|steps0|], BeginCommit(p, container, tag, layer, blob, remove))
    requires states0[|steps0|].exclusive == None && p !in states0[|steps0|].shared
    requires Image(tag) !in states0[|steps0|].store.configs
    ensures Continues(states0, steps0, states, steps)
    ensures var (s, n) := (states0[|steps0|], states[|steps|]);
            var c := CommitConfig(s.store.configs[Container(container)], layer).value;
            && n.store.configs == s.store.configs[Image(tag) := c] && n.store.containers == s.store.containers
            && At(n, p) == (if remove then Cleaning(container) else Idle) && n.shared == s.shared && n.exclusive == None
            && layer.digest in n.store.layers
            && CommitFileOf(n.store, layer.digest)
               == (if CommitFileOf(s.store, layer.digest).Some? then CommitFileOf(s.store, layer.digest) else Some(blob))
  {
    states, steps := Extended(states0, steps0, BeginCommit(p, container, tag, layer, blob, remove));
    var begun := states[|steps|];
    var job := At(begun, p).job;
    states, steps := LayersAreWritten(states, steps, p, job);
    ConfigIsWritten(begun, states[|steps|], p, job);
    states, steps := Extended(states, steps, WriteConfig(p));
  }

  // ---------- A container ----------

  /** How far a creation is, compared with the registry it found. */
  ghost predicate Creating(s0: State, s: State, p: Pid, job: Job, stage: Stage, dir: ContainerDir) {
    && At(s, p) == Preparing(job, {}, {}, stage) && job.target.Container? && job.upper.Some?
    && s.shared == s0.shared + {p} && s.exclusive == None
    && s.store.configs == s0.store.configs && s.store.layers == s0.store.layers
    && s.store.containers == if stage == NoDir then s0.store.containers else s0.store.containers[job.target.tag := dir]
  }

  lemma CreatorLocks(s: State, p: Pid, job: Job, dir: ContainerDir)
    requires At(s, p) == Queued(job) && s.exclusive == None && job.target.Container? && job.upper.Some? && job.files == map[]
    ensures Enabled(s, LockShared(p)) && Creating(s, Apply(s, LockShared(p)), p, job, NoDir, dir)
  {
  }

  lemma DirIsMade(s0: State, s: State, p: Pid, job: Job)
    requires Creating(s0, s, p, job, NoDir, ContainerDir(None, None)) && job.target.tag !in s0.store.containers
    ensures Enabled(s, MakeContainerDir(p))
    ensures Creating(s0, Apply(s, MakeContainerDir(p)), p, job, DirMade, ContainerDir(None, None))
  {
  }

  lemma DataIsLinked(s0: State, s: State, p: Pid, job: Job, data: Blob, index: Blob)
    requires Creating(s0, s, p, job, DirMade, ContainerDir(None, None)) && job.upper == Some((data, index))
    ensures Enabled(s, LinkData(p))
    ensures Creating(s0, Apply(s, LinkData(p)), p, job, DataLinked, ContainerDir(Some(data), None))
  {
  }

  lemma IndexIsLinked(s0: State, s: State, p: Pid, job: Job, data: Blob, index: Blob)
    requires Creating(s0, s, p, job, DataLinked, ContainerDir(Some(data), None)) && job.upper == Some((data, index))
    ensures Enabled(s, LinkIndex(p))
    ensures Creating(s0, Apply(s, LinkIndex(p)), p, job, DirReady, ContainerDir(Some(data), Some(index)))
  {
  }

  lemma CreatorWrites(s0: State, s: State, p: Pid, job: Job, dir: ContainerDir)
    requires Creating(s0, s, p, job, DirReady, dir) && p !in s0.shared && job.target !in s0.store.configs && job.cleanup == None
    ensures Enabled(s, WriteConfig(p))
    ensures var n := Apply(s, WriteConfig(p));
            && n.store.configs == s0.store.configs[job.target := job.config] && n.store.layers == s0.store.layers
            && n.store.containers == s0.store.containers[job.target.tag := dir]
            && At(n, p) == Idle && n.shared == s0.shared && n.exclusive == None
  {
    assert s0.shared + {p} - {p} == s0.shared;
  }

  lemma DirIsFilled(states0: seq<State>, steps0: seq<Step>, p: Pid, job: Job, data: Blob, index: Blob)
    returns (states: seq<State>, steps: seq<Step>)
    requires Steps(states0, steps0) && At(states0[|steps0|], p) == Queued(job) && states0[|steps0|].exclusive == None
    requires job.target.Container? && job.files == map[] && job.upper == Some((data, index))
    requires job.target.tag !in states0[|steps0|].store.containers
    ensures Continues(states0, steps0, states, steps)
    ensures Creating(states0[|steps0|], states[|steps|], p, job, DirReady, ContainerDir(Some(data), Some(index)))
  {
    var s := states0[|steps0|];
    CreatorLocks(s, p, job, ContainerDir(None, None));
    states, steps := Extended(states0, steps0, LockShared(p));
    DirIsMade(s, states[|steps|], p, job);
    states, steps := Extended(states, steps, MakeContainerDir(p));
    DataIsLinked(s, states[|steps|], p, job, data, index);
    states, steps := Extended(states, steps, LinkData(p));
    IndexIsLinked(s, states[|steps|], p, job, data, index);
    states, steps := Extended(states, steps, LinkIndex(p));
  }

  /** A creation that nobody interrupts, under an id that is free, makes the container with its own data and index and a
      config derived from that of its base, and touches nothing else. */
  lemma CreationGoesThrough(states0: seq<State>, steps0: seq<Step>, p: Pid, base: Option<string>, tag: string, data: Blob, index: Blob)
    returns (states: seq<State>, steps: seq<Step>)
    requires Steps(states0, steps0) && Enabled(states0[|steps0|], BeginCreate(p, base, tag, data, index))
    requires states0[|steps0|].exclusive == None && p !in states0[|steps0|].shared
    requires Container(tag) !in states0[|steps0|].store.configs && tag !in states0[|steps0|].store.containers
    ensures Continues(states0, steps0, states, steps)
    ensures var (s, n) := (states0[|steps0|], states[|steps|]);
            var c := ContainerConfig(if base.Some? then Some(s.store.configs[Image(base.value)]) else None, tag);
            && n.store.configs == s.store.configs[Container(tag) := c] && n.store.layers == s.store.layers
            && n.store.containers == s.store.containers[tag := ContainerDir(Some(data), Some(index))]
            && At(n, p) == Idle && n.shared == s.shared && n.exclusive == None
  {
    states, steps := Extended(states0, steps0, BeginCreate(p, base, tag, data, index));
    var begun := states[|steps|];
    var job := At(begun, p).job;
    states, steps := DirIsFilled(states, steps, p, job, data, index);
    CreatorWrites(begun, states[|steps|], p, job, ContainerDir(Some(data), Some(index)));
    states, steps := Extended(states, steps, WriteConfig(p));
  }

  // ---------- Removing and giving up ----------

  /** A removal that nobody interrupts takes the config, and of a container the directory, and nothing else. */
  lemma RemovalGoesThrough(states0: seq<State>, steps0: seq<Step>, p: Pid, id: ContentId) returns (states: seq<State>, steps: seq<Step>)
    requires Steps(states0, steps0)
    requires At(states0[|steps0|], p) == Idle || (id.Container? && At(states0[|steps0|], p) == Cleaning(id.tag))
    ensures Continues(states0, steps0, states, steps)
    ensures var (s, n) := (states0[|steps0|], states[|steps|]);
            && n.store.configs == s.store.configs - {id} && n.store.layers == s.store.layers
            && n.store.containers == (if id.Container? then s.store.containers - {id.tag} else s.store.containers)
            && n.procs == s.procs[p := Idle] && n.shared == s.shared && n.exclusive == s.exclusive
  {
    states, steps := Extended(states0, steps0, Unlink(p, id));
    if id.Container? {
      var s := states0[|steps0|];
      states, steps := Extended(states, steps, RemoveFiles(p));
      assert states[|steps|].store.containers - {id.tag} == s.store.containers - {id.tag};
      states, steps := Extended(states, steps, RemoveDir(p));
      assert s.procs[p := Unlinked(id.tag)][p := Idle] == s.procs[p := Idle];
    }
  }

  lemma RemovalIsInterrupted(states0: seq<State>, steps0: seq<Step>, p: Pid, tag: string) returns (states: seq<State>, steps: seq<Step>)
    requires Steps(states0, steps0) && At(states0[|steps0|], p) == Idle && tag in states0[|steps0|].store.containers
    ensures Continues(states0, steps0, states, steps) && At(states[|steps|], p) == Idle
    ensures var s := states0[|steps0|].store;
            states[|steps|].store == s.(configs := s.configs - {Container(tag)}, containers := s.containers[tag := ContainerDir(None, None)])
  {
    states, steps := Extended(states0, steps0, Unlink(p, Container(tag)));
    states, steps := Extended(states, steps, RemoveFiles(p));
    states, steps := Extended(states, steps, Abort(p));
  }

  /** A removal interrupted in the middle leaves a directory without files and no config, and running it again ends where
      an uninterrupted one ends. */
  lemma RemovalResumes(states0: seq<State>, steps0: seq<Step>, p: Pid, tag: string) returns (k: nat, states: seq<State>, steps: seq<Step>)
    requires Steps(states0, steps0) && At(states0[|steps0|], p) == Idle && tag in states0[|steps0|].store.containers
    ensures Continues(states0, steps0, states, steps) && |steps0| <= k < |states|
    ensures At(states[k], p) == Idle && Container(tag) !in states[k].store.configs
    ensures tag in states[k].store.containers && states[k].store.containers[tag] == ContainerDir(None, None)
    ensures var (s, n) := (states0[|steps0|].store, states[|steps|].store);
            n == s.(configs := s.configs - {Container(tag)}, containers := s.containers - {tag})
  {
    var s := states0[|steps0|].store;
    var states1, steps1 := RemovalIsInterrupted(states0, steps0, p, tag);
    k := |steps1|;
    states, steps := RemovalGoesThrough(states1, steps1, p, Container(tag));
    assert s.configs - {Container(tag)} - {Container(tag)} == s.configs - {Container(tag)};
    assert s.containers[tag := ContainerDir(None, None)] - {tag} == s.containers - {tag};
  }

  /** A process that fails or crashes leaves the store as it is, and its lock to others. */
  lemma AbortFrees(s: State, p: Pid)
    requires At(s, p) != Idle
    ensures Enabled(s, Abort(p))
    ensures var n := Apply(s, Abort(p));
            && n.store == s.store && n.procs == s.procs[p := Idle] && n.shared == s.shared - {p}
            && n.exclusive == (if s.exclusive == Some(p) then None else s.exclusive)
  {
  }
}
