/** The commit as one process runs it alone, effect by effect, is a run of the protocol. */
module RegistryCommits {
  import opened Wrappers
  import opened RegistryModel
  import opened RegistryProtocol
  import opened RegistryDangling
  import opened RegistryStore

  /** From `start` on the run has only registries of the trace, and has them in its order: the one numbered k at `at[k]`. */
  ghost predicate Passes(states: seq<State>, start: nat, trace: seq<Store>, at: seq<nat>) {
    && |at| == |trace|
    && (forall k | 0 <= k < |at| :: start <= at[k] < |states| && states[at[k]].store == trace[k])
    && (forall j, k | 0 <= j < k < |at| :: at[j] < at[k])
    && forall i | start <= i < |states| :: states[i].store in trace
  }

  /** The run began with the given one, passed the registries of the trace since, and the process is at this point. */
  ghost predicate Committing(states0: seq<State>, steps0: seq<Step>, states: seq<State>, steps: seq<Step>, p: Pid, proc: Proc,
                             trace: seq<Store>, at: seq<nat>) {
    && Steps(states0, steps0) && Continues(states0, steps0, states, steps) && Passes(states, |steps0|, trace, at)
    && trace != [] && Reached(states[|steps|], p, proc, trace[|trace| - 1])
  }

  ghost predicate Reached(s: State, p: Pid, proc: Proc, store: Store) {
    At(s, p) == proc && s.store == store && s.exclusive == None
  }

  /** A step that reaches the next registry of the trace. */
  lemma Effect(states0: seq<State>, steps0: seq<Step>, states1: seq<State>, steps1: seq<Step>, p: Pid, proc: Proc,
               trace: seq<Store>, at1: seq<nat>, st: Step, proc': Proc, store: Store)
    returns (states: seq<State>, steps: seq<Step>, at: seq<nat>)
    requires Committing(states0, steps0, states1, steps1, p, proc, trace, at1)
    requires Enabled(states1[|steps1|], st) && Reached(Apply(states1[|steps1|], st), p, proc', store)
    ensures Committing(states0, steps0, states, steps, p, proc', trace + [store], at)
  {
    states, steps := Extended(states1, steps1, st);
    at := at1 + [|steps|];
  }

  /** A step of the process that the file system does not show. */
  lemma NoEffect(states0: seq<State>, steps0: seq<Step>, states1: seq<State>, steps1: seq<Step>, p: Pid, proc: Proc,
                 trace: seq<Store>, at: seq<nat>, st: Step, proc': Proc)
    returns (states: seq<State>, steps: seq<Step>)
    requires Committing(states0, steps0, states1, steps1, p, proc, trace, at)
    requires Enabled(states1[|steps1|], st) && Reached(Apply(states1[|steps1|], st), p, proc', trace[|trace| - 1])
    ensures Committing(states0, steps0, states, steps, p, proc', trace, at)
  {
    states, steps := Extended(states1, steps1, st);
  }

  // ---------- The steps of a commit ----------

  lemma CommitBegins(states0: seq<State>, steps0: seq<Step>, p: Pid, container: string, tag: string, layer: Descriptor, blob: Blob)
    returns (states: seq<State>, steps: seq<Step>, at: seq<nat>)
    requires Steps(states0, steps0) && Enabled(states0[|steps0|], BeginCommit(p, container, tag, layer, blob, true))
    requires states0[|steps0|].exclusive == None
    ensures var s := states0[|steps0|].store;
            Committing(states0, steps0, states, steps, p, Queued(CommitJob(s, container, tag, layer, blob, true)), [s], at)
  {
    at := [|steps0|];
    var s := states0[|steps0|].store;
    states, steps := NoEffect(states0, steps0, states0, steps0, p, At(states0[|steps0|], p), [s], at,
                              BeginCommit(p, container, tag, layer, blob, true), Queued(CommitJob(s, container, tag, layer, blob, true)));
  }

  lemma CommitLocks(states0: seq<State>, steps0: seq<Step>, states1: seq<State>, steps1: seq<Step>, p: Pid, job: Job,
                    trace: seq<Store>, at: seq<nat>, d: Digest, file: Option<Blob>)
    returns (states: seq<State>, steps: seq<Step>)
    requires Committing(states0, steps0, states1, steps1, p, Queued(job), trace, at) && job.target.Image? && job.files == map[d := file]
    ensures Committing(states0, steps0, states, steps, p, Preparing(job, {d}, {}, DirReady), trace, at)
  {
    assert job.files.Keys == {d};
    states, steps := NoEffect(states0, steps0, states1, steps1, p, Queued(job), trace, at, LockShared(p), Preparing(job, {d}, {}, DirReady));
  }

  lemma CommitMakesDir(states0: seq<State>, steps0: seq<Step>, states1: seq<State>, steps1: seq<Step>, p: Pid, job: Job,
                       trace: seq<Store>, at1: seq<nat>, d: Digest)
    returns (states: seq<State>, steps: seq<Step>, at: seq<nat>)
    requires Committing(states0, steps0, states1, steps1, p, Preparing(job, {d}, {}, DirReady), trace, at1)
    ensures Committing(states0, steps0, states, steps, p, Preparing(job, {}, {d}, DirReady), trace + [MkLayer(trace[|trace| - 1], d)], at)
  {
    assert {d} - {d} == {} && {} + {d} == {d};
    states, steps, at := Effect(states0, steps0, states1, steps1, p, Preparing(job, {d}, {}, DirReady), trace, at1,
                                MakeLayerDir(p, d), Preparing(job, {}, {d}, DirReady), MkLayer(trace[|trace| - 1], d));
  }

  lemma CommitLinks(states0: seq<State>, steps0: seq<Step>, states1: seq<State>, steps1: seq<Step>, p: Pid, job: Job,
                    trace: seq<Store>, at1: seq<nat>, d: Digest, file: Option<Blob>)
    returns (states: seq<State>, steps: seq<Step>, at: seq<nat>)
    requires Committing(states0, steps0, states1, steps1, p, Preparing(job, {}, {d}, DirReady), trace, at1)
    requires job.files == map[d := file] && d in trace[|trace| - 1].layers
    ensures Committing(states0, steps0, states, steps, p, Preparing(job, {}, {}, DirReady), trace + [LinkCommit(trace[|trace| - 1], d, file)], at)
  {
    assert {d} - {d} == {};
    states, steps, at := Effect(states0, steps0, states1, steps1, p, Preparing(job, {}, {d}, DirReady), trace, at1,
                                LinkLayer(p, d), Preparing(job, {}, {}, DirReady), LinkCommit(trace[|trace| - 1], d, file));
  }

  lemma CommitWrites(states0: seq<State>, steps0: seq<Step>, states1: seq<State>, steps1: seq<Step>, p: Pid, job: Job,
                     trace: seq<Store>, at1: seq<nat>, container: string)
    returns (states: seq<State>, steps: seq<Step>, at: seq<nat>)
    requires Committing(states0, steps0, states1, steps1, p, Preparing(job, {}, {}, DirReady), trace, at1)
    requires job.cleanup == Some(container) && job.target.Image? && job.target !in trace[|trace| - 1].configs
    ensures Committing(states0, steps0, states, steps, p, Cleaning(container),
                       trace + [WithImage(trace[|trace| - 1], job.target.tag, job.config)], at)
  {
    states, steps, at := Effect(states0, steps0, states1, steps1, p, Preparing(job, {}, {}, DirReady), trace, at1,
                                WriteConfig(p), Cleaning(container), WithImage(trace[|trace| - 1], job.target.tag, job.config));
  }

  lemma CommitCompares(states0: seq<State>, steps0: seq<Step>, states1: seq<State>, steps1: seq<Step>, p: Pid, job: Job,
                       trace: seq<Store>, at1: seq<nat>, container: string)
    returns (states: seq<State>, steps: seq<Step>, at: seq<nat>)
    requires Committing(states0, steps0, states1, steps1, p, Preparing(job, {}, {}, DirReady), trace, at1)
    requires job.cleanup == Some(container) && job.target.Image? && job.target in trace[|trace| - 1].configs
    ensures trace[|trace| - 1].configs[job.target] == job.config ==>
              Committing(states0, steps0, states, steps, p, Cleaning(container),
                         trace + [WithImage(trace[|trace| - 1], job.target.tag, job.config)], at)
    ensures trace[|trace| - 1].configs[job.target] != job.config ==> Committing(states0, steps0, states, steps, p, Idle, trace, at)
  {
    var s := trace[|trace| - 1];
    states, steps := NoEffect(states0, steps0, states1, steps1, p, Preparing(job, {}, {}, DirReady), trace, at1, WriteConfig(p), Comparing(job));
    if s.configs[job.target] == job.config {
      assert s.configs[job.target := job.config] == s.configs;
      states, steps, at := Effect(states0, steps0, states, steps, p, Comparing(job), trace, at1, Compare(p), Cleaning(container),
                                  WithImage(s, job.target.tag, job.config));
    } else {
      at := at1;
      states, steps := NoEffect(states0, steps0, states, steps, p, Comparing(job), trace, at1, Compare(p), Idle);
    }
  }

  /** The config is written, or found to be there already, or the commit ends. */
  lemma CommitPublishes(states0: seq<State>, steps0: seq<Step>, states1: seq<State>, steps1: seq<Step>, p: Pid, job: Job,
                        trace: seq<Store>, at1: seq<nat>, container: string)
    returns (states: seq<State>, steps: seq<Step>, at: seq<nat>)
    requires Committing(states0, steps0, states1, steps1, p, Preparing(job, {}, {}, DirReady), trace, at1)
    requires job.cleanup == Some(container) && job.target.Image?
    ensures var s := trace[|trace| - 1];
            if job.target in s.configs && s.configs[job.target] != job.config
            then Committing(states0, steps0, states, steps, p, Idle, trace, at)
            else Committing(states0, steps0, states, steps, p, Cleaning(container), trace + [WithImage(s, job.target.tag, job.config)], at)
  {
    if job.target in trace[|trace| - 1].configs {
      states, steps, at := CommitCompares(states0, steps0, states1, steps1, p, job, trace, at1, container);
    } else {
      states, steps, at := CommitWrites(states0, steps0, states1, steps1, p, job, trace, at1, container);
    }
  }

  lemma CommitUnlinks(states0: seq<State>, steps0: seq<Step>, states1: seq<State>, steps1: seq<Step>, p: Pid, t: string,
                      trace: seq<Store>, at1: seq<nat>)
    returns (states: seq<State>, steps: seq<Step>, at: seq<nat>)
    requires Committing(states0, steps0, states1, steps1, p, Cleaning(t), trace, at1)
    ensures Committing(states0, steps0, states, steps, p, Unlinked(t), trace + [WithoutConfig(trace[|trace| - 1], Container(t))], at)
  {
    states, steps, at := Effect(states0, steps0, states1, steps1, p, Cleaning(t), trace, at1, Unlink(p, Container(t)), Unlinked(t),
                                WithoutConfig(trace[|trace| - 1], Container(t)));
  }

  lemma CommitRemovesFiles(states0: seq<State>, steps0: seq<Step>, states1: seq<State>, steps1: seq<Step>, p: Pid, t: string,
                           trace: seq<Store>, at1: seq<nat>)
    returns (states: seq<State>, steps: seq<Step>, at: seq<nat>)
    requires Committing(states0, steps0, states1, steps1, p, Unlinked(t), trace, at1)
    ensures Committing(states0, steps0, states, steps, p, Unlinked(t), trace + [WithoutFiles(trace[|trace| - 1], t)], at)
  {
    states, steps, at := Effect(states0, steps0, states1, steps1, p, Unlinked(t), trace, at1, RemoveFiles(p), Unlinked(t),
                                WithoutFiles(trace[|trace| - 1], t));
  }

  lemma CommitRemovesDir(states0: seq<State>, steps0: seq<Step>, states1: seq<State>, steps1: seq<Step>, p: Pid, t: string,
                         trace: seq<Store>, at1: seq<nat>)
    returns (states: seq<State>, steps: seq<Step>, at: seq<nat>)
    requires Committing(states0, steps0, states1, steps1, p, Unlinked(t), trace, at1)
    ensures Committing(states0, steps0, states, steps, p, Idle, trace + [WithoutDir(trace[|trace| - 1], t)], at)
  {
    states, steps, at := Effect(states0, steps0, states1, steps1, p, Unlinked(t), trace, at1, RemoveDir(p), Idle,
                                WithoutDir(trace[|trace| - 1], t));
  }

  /** The container goes: config, files, directory. */
  lemma CommitCleans(states0: seq<State>, steps0: seq<Step>, states1: seq<State>, steps1: seq<Step>, p: Pid, t: string,
                     trace: seq<Store>, at1: seq<nat>, s4: Store, s5: Store)
    returns (states: seq<State>, steps: seq<Step>, at: seq<nat>)
    requires Committing(states0, steps0, states1, steps1, p, Cleaning(t), trace, at1)
    requires s4 == WithoutConfig(trace[|trace| - 1], Container(t)) && s5 == WithoutFiles(s4, t)
    ensures Committing(states0, steps0, states, steps, p, Idle, trace + [s4] + [s5] + [WithoutDir(s5, t)], at)
  {
    states, steps, at := CommitUnlinks(states0, steps0, states1, steps1, p, t, trace, at1);
    states, steps, at := CommitRemovesFiles(states0, steps0, states, steps, p, t, trace + [s4], at);
    states, steps, at := CommitRemovesDir(states0, steps0, states, steps, p, t, trace + [s4] + [s5], at);
  }

  // ---------- The whole commit ----------

  /** Up to the layer file, which is where a commit whose image id is taken ends. */
  lemma CommitPrepares(states0: seq<State>, steps0: seq<Step>, p: Pid, container: string, tag: string, layer: Descriptor, blob: Blob)
    returns (states: seq<State>, steps: seq<Step>, at: seq<nat>)
    requires Steps(states0, steps0) && Enabled(states0[|steps0|], BeginCommit(p, container, tag, layer, blob, true))
    requires states0[|steps0|].exclusive == None
    ensures var s := states0[|steps0|].store;
            var s1 := MkLayer(s, layer.digest);
            Committing(states0, steps0, states, steps, p, Preparing(CommitJob(s, container, tag, layer, blob, true), {}, {}, DirReady),
                       [s] + [s1] + [LinkCommit(s1, layer.digest, Some(blob))], at)
  {
    var s, d := states0[|steps0|].store, layer.digest;
    var job := CommitJob(s, container, tag, layer, blob, true);
    states, steps, at := CommitBegins(states0, steps0, p, container, tag, layer, blob);
    states, steps := CommitLocks(states0, steps0, states, steps, p, job, [s], at, d, Some(blob));
    states, steps, at := CommitMakesDir(states0, steps0, states, steps, p, job, [s], at, d);
    states, steps, at := CommitLinks(states0, steps0, states, steps, p, job, [s] + [MkLayer(s, d)], at, d, Some(blob));
  }

  lemma TraceShape(s: Store, container: string, tag: string, layer: Descriptor, blob: Blob, c: Config, s2: Store, s4: Store, s5: Store)
    requires Container(container) in s.configs && s.configs[Container(container)].upper.Some?
    requires CommitConfig(s.configs[Container(container)], layer) == Success(c)
    requires s2 == LinkCommit(MkLayer(s, layer.digest), layer.digest, Some(blob))
    requires s4 == WithoutConfig(WithImage(s2, tag, c), Container(container)) && s5 == WithoutFiles(s4, container)
    ensures s2.configs == s.configs
    ensures var start := [s] + [MkLayer(s, layer.digest)] + [s2];
            CommitTrace(s, container, tag, layer, blob).0
            == if Image(tag) in s.configs && s.configs[Image(tag)] != c then start
               else start + [WithImage(s2, tag, c)] + [s4] + [s5] + [WithoutDir(s5, container)]
  {
  }

  lemma CommitRuns(states0: seq<State>, steps0: seq<Step>, p: Pid, container: string, tag: string, layer: Descriptor, blob: Blob)
    returns (states: seq<State>, steps: seq<Step>, at: seq<nat>)
    requires Steps(states0, steps0) && Enabled(states0[|steps0|], BeginCommit(p, container, tag, layer, blob, true))
    requires states0[|steps0|].exclusive == None && states0[|steps0|].store.configs[Container(container)].upper.Some?
    ensures Committing(states0, steps0, states, steps, p, Idle, CommitTrace(states0[|steps0|].store, container, tag, layer, blob).0, at)
  {
    var s := states0[|steps0|].store;
    var job := CommitJob(s, container, tag, layer, blob, true);
    var s2 := LinkCommit(MkLayer(s, layer.digest), layer.digest, Some(blob));
    var s4 := WithoutConfig(WithImage(s2, tag, job.config), Container(container));
    var s5 := WithoutFiles(s4, container);
    var start := [s] + [MkLayer(s, layer.digest)] + [s2];
    TraceShape(s, container, tag, layer, blob, job.config, s2, s4, s5);
    states, steps, at := CommitPrepares(states0, steps0, p, container, tag, layer, blob);
    states, steps, at := CommitPublishes(states0, steps0, states, steps, p, job, start, at, container);
    if Image(tag) !in s.configs || s.configs[Image(tag)] == job.config {
      states, steps, at := CommitCleans(states0, steps0, states, steps, p, container, start + [WithImage(s2, tag, job.config)], at, s4, s5);
    }
  }

  /** From every point of a run where the lock is free, a commit with removal that nobody interrupts passes through exactly the
      registries of its trace, in their order, and ends in the last one: the crash points of the one are those of the other. */
  lemma CommitTraceIsARun(states0: seq<State>, steps0: seq<Step>, p: Pid, container: string, tag: string, layer: Descriptor, blob: Blob)
    returns (states: seq<State>, steps: seq<Step>, at: seq<nat>)
    requires Steps(states0, steps0) && Enabled(states0[|steps0|], BeginCommit(p, container, tag, layer, blob, true))
    requires states0[|steps0|].exclusive == None && states0[|steps0|].store.configs[Container(container)].upper.Some?
    ensures Continues(states0, steps0, states, steps)
    ensures Passes(states, |steps0|, CommitTrace(states0[|steps0|].store, container, tag, layer, blob).0, at)
    ensures At(states[|steps|], p) == Idle
    ensures states[|steps|].store == CommitEnd(states0[|steps0|].store, container, tag, layer, blob)
  {
    states, steps, at := CommitRuns(states0, steps0, p, container, tag, layer, blob);
  }
}
