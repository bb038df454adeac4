/** The reservations of a prebuild and the block registry together. Workspaces are cloned from the two images of the
    prebuild, its archival removes them, and any other process may use the registry at the same time. */
module ReservedRegistry {
  import opened Wrappers
  import opened RegistryModel
  import Event = PrebuildReservations
  import Registry = RegistryProtocol

  /** The tags of the two images of the prebuild. */
  datatype Tags = Tags(rootFs: string, projectFiles: string)

  function ImageOf(tags: Tags, part: Event.Part): ContentId {
    Image(if part.RootFs? then tags.rootFs else tags.projectFiles)
  }

  /** `clones` tells which process of the registry makes a container for which workspace and from which image. */
  datatype State = State(
    event: Event.State,
    registry: Registry.State,
    clones: map<Registry.Pid, (Event.Pid, Event.Part)>)

  datatype Step =
    | OnEvent(eventStep: Event.Step)
    | OnRegistry(registryStep: Registry.Step)
    | Clone(p: Event.Pid, part: Event.Part, q: Registry.Pid, tag: string, data: Blob, index: Blob)
    | WriteClone(p: Event.Pid, part: Event.Part, q: Registry.Pid)
    | AbandonClone(q: Registry.Pid)
    | Remove(p: Event.Pid, part: Event.Part, q: Registry.Pid)

  predicate IsImageOf(tags: Tags, id: ContentId) {
    exists part :: id == ImageOf(tags, part)
  }

  /** What others do with the registry concerns neither the images of the prebuild nor the clones of them. */
  predicate Elsewhere(s: State, st: Registry.Step, tags: Tags) {
    match st
    case BeginCreate(_, base, _, _, _) => base.Some? ==> !IsImageOf(tags, Image(base.value))
    case Unlink(_, id) => !IsImageOf(tags, id)
    case WriteConfig(q) =>
      var proc := Registry.At(s.registry, q);
      q !in s.clones && (proc.Preparing? ==> !IsImageOf(tags, proc.job.target))
    case Abort(q) => q !in s.clones
    case _ => true
  }

  /** Reading an image, writing a container and removing an image are steps of both; and an attempt to create a workspace
      ends only when none of its containers is being made any more. */
  predicate Alone(s: State, st: Event.Step) {
    match st
    case ReadImage(p, part) => part !in s.event.images && forall q | q in s.clones :: s.clones[q].0 != p
    case EndCreate(p) => forall q | q in s.clones :: s.clones[q].0 != p
    case WriteContainer(_, _) => false
    case RemoveImage(_, _) => false
    case _ => true
  }

  function CreateStep(st: Step, tags: Tags): Registry.Step
    requires st.Clone?
  {
    Registry.BeginCreate(st.q, Some(ImageOf(tags, st.part).tag), st.tag, st.data, st.index)
  }

  predicate Enabled(s: State, st: Step, tags: Tags) {
    match st
    case OnEvent(e) => Event.Enabled(s.event, e) && Alone(s, e)
    case OnRegistry(r) => Registry.Enabled(s.registry, r) && Elsewhere(s, r, tags)
    case Clone(p, part, q, _, _, _) =>
      && Event.Enabled(s.event, Event.ReadImage(p, part)) && part in s.event.images
      && Registry.Enabled(s.registry, CreateStep(st, tags))
    case WriteClone(p, part, q) =>
      && q in s.clones && s.clones[q] == (p, part)
      && Event.Enabled(s.event, Event.WriteContainer(p, part)) && Registry.Enabled(s.registry, Registry.WriteConfig(q))
    case AbandonClone(q) => q in s.clones && Registry.Enabled(s.registry, Registry.Abort(q))
    case Remove(p, part, q) =>
      && Event.Enabled(s.event, Event.RemoveImage(p, part))
      && Registry.At(s.registry, q) == Registry.Idle
  }

  function Apply(s: State, st: Step, tags: Tags): State
    requires Enabled(s, st, tags)
  {
    match st
    case OnEvent(e) => s.(event := Event.Apply(s.event, e))
    case OnRegistry(r) => s.(registry := Registry.Apply(s.registry, r))
    case Clone(p, part, q, _, _, _) =>
      State(Event.Apply(s.event, Event.ReadImage(p, part)), Registry.Apply(s.registry, CreateStep(st, tags)),
            s.clones[q := (p, part)])
    case WriteClone(p, part, q) =>
      State(Event.Apply(s.event, Event.WriteContainer(p, part)), Registry.Apply(s.registry, Registry.WriteConfig(q)),
            s.clones - {q})
    case AbandonClone(q) => s.(registry := Registry.Apply(s.registry, Registry.Abort(q)), clones := s.clones - {q})
    case Remove(p, part, q) =>
      s.(event := Event.Apply(s.event, Event.RemoveImage(p, part)),
         registry := Registry.Apply(s.registry, Registry.Unlink(q, ImageOf(tags, part))))
  }

  /** What is assumed: the checks of the two sides are kept apart, both are in time, and others use the registry with
      discipline. Nothing is assumed of the removal of the images. */
  ghost predicate Assumed(s: State, st: Step, tags: Tags) {
    match st
    case OnEvent(e) => Event.ChecksApart(s.event, e) && Event.InTime(s.event, e)
    case OnRegistry(r) => Registry.Disciplined(s.registry, r)
    case Clone(_, _, _, _, _, _) => Registry.Disciplined(s.registry, CreateStep(st, tags))
    case _ => true
  }

  // ---------- The invariant ----------

  /** Every clone under way computes a container from an image that its workspace reads, and no two clones
      stand for the same reading. */
  ghost predicate CloneOk(s: State, tags: Tags, q: Registry.Pid)
    requires q in s.clones
  {
    var proc := Registry.At(s.registry, q);
    && Registry.Pending(proc) && proc.job.target.Container? && proc.job.base == Some(ImageOf(tags, s.clones[q].1))
    && Event.IsReading(s.event, s.clones[q].0, s.clones[q].1)
  }

  ghost predicate ClonesOk(s: State, tags: Tags) {
    && (forall q | q in s.clones :: CloneOk(s, tags, q))
    && forall q, r | q in s.clones && r in s.clones && q != r :: s.clones[q] != s.clones[r]
  }

  /** The base that the process waits for the lock with. */
  predicate AwaitsWith(s: Registry.State, q: Registry.Pid, id: ContentId) {
    Registry.At(s, q).Queued? && Registry.At(s, q).job.base == Some(id)
  }

  /** Whoever waits for the lock with an image of the prebuild as base is a clone. */
  ghost predicate BasesOk(s: State, tags: Tags) {
    forall q, part | AwaitsWith(s.registry, q, ImageOf(tags, part)) :: q in s.clones
  }

  /** What the event takes to be there is there. */
  ghost predicate Mirrored(s: State, tags: Tags) {
    forall part :: part in s.event.images <==> ImageOf(tags, part) in s.registry.store.configs
  }

  ghost predicate Inv(s: State, tags: Tags) {
    && tags.rootFs != tags.projectFiles
    && Event.Inv(s.event) && Registry.Inv(s.registry) && Registry.FilesOk(s.registry)
    && ClonesOk(s, tags) && BasesOk(s, tags) && Mirrored(s, tags)
  }

  /** While images are removed nobody reads any. */
  lemma NobodyReads(s: Event.State, p: Event.Pid, removed: Event.Part, q: Event.Pid, part: Event.Part)
    requires Event.Inv(s) && Event.Enabled(s, Event.RemoveImage(p, removed))
    ensures !Event.IsReading(s, q, part)
  {
    assert Event.ProcOk(s, p) && Event.Deletes(s.procs[p]);
    assert q in s.procs ==> !Event.Creator(s.procs[q]);
  }

  lemma NobodyClones(s: State, st: Step, tags: Tags)
    requires Inv(s, tags) && st.Remove? && Enabled(s, st, tags)
    ensures s.clones == map[]
  {
    if q :| q in s.clones {
      assert CloneOk(s, tags, q);
      NobodyReads(s.event, st.p, st.part, s.clones[q].0, s.clones[q].1);
    }
  }

  lemma NotAwaited(s: Registry.State, q: Registry.Pid, id: ContentId)
    requires id.Image? && forall r :: !AwaitsWith(s, r, id)
    ensures Registry.Disciplined(s, Registry.Unlink(q, id))
  {
    forall r | r in s.procs && s.procs[r].Queued? ensures s.procs[r].job.base != Some(id) {
      assert !AwaitsWith(s, r, id);
    }
  }

  /** So when an image is removed nobody waits with it as base. */
  lemma RemovalIsDisciplined(s: State, st: Step, tags: Tags)
    requires Inv(s, tags) && st.Remove? && Enabled(s, st, tags)
    ensures Registry.Disciplined(s.registry, Registry.Unlink(st.q, ImageOf(tags, st.part)))
  {
    NobodyClones(s, st, tags);
    var id := ImageOf(tags, st.part);
    forall q ensures !AwaitsWith(s.registry, q, id) {
      assert AwaitsWith(s.registry, q, ImageOf(tags, st.part)) ==> q in s.clones;
    }
    NotAwaited(s.registry, st.q, id);
  }

  // ---------- Every step keeps it ----------

  lemma StaysPending(s: Registry.State, st: Registry.Step, q: Registry.Pid)
    requires Registry.Enabled(s, st) && Registry.Pending(Registry.At(s, q))
    requires st != Registry.WriteConfig(q) && st != Registry.Abort(q)
    ensures var proc := Registry.At(Registry.Apply(s, st), q);
            Registry.Pending(proc) && proc.job == Registry.At(s, q).job
  {
  }

  lemma StaysReading(s: Event.State, st: Event.Step, p: Event.Pid, part: Event.Part)
    requires Event.Enabled(s, st) && Event.IsReading(s, p, part)
    requires st != Event.EndCreate(p) && st != Event.WriteContainer(p, part)
    requires st.ReadImage? && st.p == p ==> st.part in s.images
    ensures Event.IsReading(Event.Apply(s, st), p, part)
  {
  }

  lemma AwaitedBefore(s: Registry.State, st: Registry.Step, q: Registry.Pid, id: ContentId)
    requires Registry.Enabled(s, st) && id.Image? && AwaitsWith(Registry.Apply(s, st), q, id)
    requires st.BeginCreate? && st.p == q ==> st.base != Some(id.tag)
    ensures AwaitsWith(s, q, id)
  {
  }

  lemma ImageStays(s: Registry.State, st: Registry.Step, id: ContentId)
    requires Registry.Enabled(s, st) && !(st.Unlink? && st.id == id)
    requires st.WriteConfig? ==> Registry.At(s, st.p).job.target != id
    ensures id in Registry.Apply(s, st).store.configs <==> id in s.store.configs
  {
  }

  lemma EventKeeps(s: State, st: Step, tags: Tags)
    requires Inv(s, tags) && st.OnEvent? && Enabled(s, st, tags) && Assumed(s, st, tags)
    ensures Inv(Apply(s, st, tags), tags)
  {
    var n := Apply(s, st, tags);
    Event.StepKeeps(s.event, st.eventStep);
    forall q | q in n.clones ensures CloneOk(n, tags, q) {
      assert CloneOk(s, tags, q);
      StaysReading(s.event, st.eventStep, s.clones[q].0, s.clones[q].1);
    }
  }

  /** What the steps of the registry leave of clones, bases and images. */
  lemma OthersStay(s: State, n: State, st: Registry.Step, tags: Tags)
    requires Inv(s, tags) && Registry.Enabled(s.registry, st) && Elsewhere(s, st, tags)
    requires n == s.(registry := Registry.Apply(s.registry, st))
    ensures ClonesOk(n, tags) && BasesOk(n, tags) && Mirrored(n, tags)
  {
    forall q | q in n.clones ensures CloneOk(n, tags, q) {
      assert CloneOk(s, tags, q);
      StaysPending(s.registry, st, q);
    }
    forall q, part | AwaitsWith(n.registry, q, ImageOf(tags, part)) ensures q in n.clones {
      AwaitedBefore(s.registry, st, q, ImageOf(tags, part));
    }
    forall part ensures part in n.event.images <==> ImageOf(tags, part) in n.registry.store.configs {
      ImageStays(s.registry, st, ImageOf(tags, part));
    }
  }

  lemma RegistryKeeps(s: State, st: Step, tags: Tags)
    requires Inv(s, tags) && st.OnRegistry? && Enabled(s, st, tags) && Assumed(s, st, tags)
    ensures Inv(Apply(s, st, tags), tags)
  {
    Registry.StepKeeps(s.registry, st.registryStep);
    Registry.StepKeepsFiles(s.registry, st.registryStep);
    OthersStay(s, Apply(s, st, tags), st.registryStep, tags);
  }

  lemma NewCloneIsOk(s: State, st: Step, tags: Tags)
    requires st.Clone? && Enabled(s, st, tags)
    ensures CloneOk(Apply(s, st, tags), tags, st.q)
  {
    assert Registry.At(Registry.Apply(s.registry, CreateStep(st, tags)), st.q).Queued?;
  }

  lemma OldCloneIsOk(s: State, n: State, tags: Tags, q: Registry.Pid)
    requires q in s.clones && q in n.clones && n.clones[q] == s.clones[q] && CloneOk(s, tags, q)
    requires Registry.Pending(Registry.At(n.registry, q))
    requires Registry.At(n.registry, q).job == Registry.At(s.registry, q).job
    requires Event.IsReading(n.event, s.clones[q].0, s.clones[q].1)
    ensures CloneOk(n, tags, q)
  {
  }

  lemma StaysClone(s: State, st: Step, tags: Tags, q: Registry.Pid)
    requires st.Clone? && Enabled(s, st, tags) && q in s.clones && q != st.q && CloneOk(s, tags, q)
    ensures CloneOk(Apply(s, st, tags), tags, q)
  {
    StaysPending(s.registry, CreateStep(st, tags), q);
    StaysReading(s.event, Event.ReadImage(st.p, st.part), s.clones[q].0, s.clones[q].1);
    OldCloneIsOk(s, Apply(s, st, tags), tags, q);
  }

  lemma OneMoreClone(s: State, n: State, tags: Tags, q: Registry.Pid)
    requires ClonesOk(s, tags) && q in n.clones && n.clones == s.clones[q := n.clones[q]] && CloneOk(n, tags, q)
    requires forall r | r in s.clones && r != q :: CloneOk(n, tags, r) && s.clones[r] != n.clones[q]
    ensures ClonesOk(n, tags)
  {
  }

  lemma CloneKeepsClones(s: State, st: Step, tags: Tags)
    requires Inv(s, tags) && st.Clone? && Enabled(s, st, tags)
    ensures ClonesOk(Apply(s, st, tags), tags)
  {
    var n := Apply(s, st, tags);
    NewCloneIsOk(s, st, tags);
    forall q | q in s.clones && q != st.q ensures CloneOk(n, tags, q) && s.clones[q] != n.clones[st.q] {
      assert CloneOk(s, tags, q);
      StaysClone(s, st, tags, q);
    }
    OneMoreClone(s, n, tags, st.q);
  }

  lemma CloneKeeps(s: State, st: Step, tags: Tags)
    requires Inv(s, tags) && st.Clone? && Enabled(s, st, tags) && Assumed(s, st, tags)
    ensures Inv(Apply(s, st, tags), tags)
  {
    var n, r := Apply(s, st, tags), CreateStep(st, tags);
    Event.StepKeeps(s.event, Event.ReadImage(st.p, st.part));
    Registry.StepKeeps(s.registry, r);
    Registry.StepKeepsFiles(s.registry, r);
    CloneKeepsClones(s, st, tags);
    forall q, part | AwaitsWith(n.registry, q, ImageOf(tags, part)) ensures q in n.clones {
      if q != st.q {
        AwaitedBefore(s.registry, r, q, ImageOf(tags, part));
      }
    }
    forall part ensures part in n.event.images <==> ImageOf(tags, part) in n.registry.store.configs {
      ImageStays(s.registry, r, ImageOf(tags, part));
    }
  }

  /** A clone ends: it has written its config, or was abandoned. */
  lemma EndedCloneKeepsClones(s: State, st: Step, tags: Tags, r: Registry.Step)
    requires Inv(s, tags) && (st.WriteClone? || st.AbandonClone?) && Enabled(s, st, tags)
    requires r == if st.WriteClone? then Registry.WriteConfig(st.q) else Registry.Abort(st.q)
    ensures ClonesOk(Apply(s, st, tags), tags)
  {
    var n := Apply(s, st, tags);
    forall q | q in n.clones ensures CloneOk(n, tags, q) {
      assert CloneOk(s, tags, q) && s.clones[q] != s.clones[st.q];
      StaysPending(s.registry, r, q);
      if st.WriteClone? {
        StaysReading(s.event, Event.WriteContainer(st.p, st.part), s.clones[q].0, s.clones[q].1);
      }
    }
  }

  lemma EndedCloneKeepsRest(s: State, st: Step, tags: Tags, r: Registry.Step)
    requires Inv(s, tags) && (st.WriteClone? || st.AbandonClone?) && Enabled(s, st, tags)
    requires r == if st.WriteClone? then Registry.WriteConfig(st.q) else Registry.Abort(st.q)
    ensures BasesOk(Apply(s, st, tags), tags) && Mirrored(Apply(s, st, tags), tags)
  {
    var n := Apply(s, st, tags);
    forall q, part | AwaitsWith(n.registry, q, ImageOf(tags, part)) ensures q in n.clones {
      AwaitedBefore(s.registry, r, q, ImageOf(tags, part));
    }
    assert CloneOk(s, tags, st.q);
    forall part ensures part in n.event.images <==> ImageOf(tags, part) in n.registry.store.configs {
      ImageStays(s.registry, r, ImageOf(tags, part));
    }
  }

  lemma WriteCloneKeeps(s: State, st: Step, tags: Tags)
    requires Inv(s, tags) && st.WriteClone? && Enabled(s, st, tags)
    ensures Inv(Apply(s, st, tags), tags)
  {
    Event.StepKeeps(s.event, Event.WriteContainer(st.p, st.part));
    Registry.StepKeeps(s.registry, Registry.WriteConfig(st.q));
    Registry.StepKeepsFiles(s.registry, Registry.WriteConfig(st.q));
    EndedCloneKeepsClones(s, st, tags, Registry.WriteConfig(st.q));
    EndedCloneKeepsRest(s, st, tags, Registry.WriteConfig(st.q));
  }

  lemma AbandonCloneKeeps(s: State, st: Step, tags: Tags)
    requires Inv(s, tags) && st.AbandonClone? && Enabled(s, st, tags)
    ensures Inv(Apply(s, st, tags), tags)
  {
    Registry.StepKeeps(s.registry, Registry.Abort(st.q));
    Registry.StepKeepsFiles(s.registry, Registry.Abort(st.q));
    EndedCloneKeepsClones(s, st, tags, Registry.Abort(st.q));
    EndedCloneKeepsRest(s, st, tags, Registry.Abort(st.q));
  }

  lemma RemoveKeepsRest(s: State, st: Step, tags: Tags)
    requires Inv(s, tags) && st.Remove? && Enabled(s, st, tags)
    ensures BasesOk(Apply(s, st, tags), tags) && Mirrored(Apply(s, st, tags), tags)
  {
    var n, r := Apply(s, st, tags), Registry.Unlink(st.q, ImageOf(tags, st.part));
    forall q, part | AwaitsWith(n.registry, q, ImageOf(tags, part)) ensures q in n.clones {
      AwaitedBefore(s.registry, r, q, ImageOf(tags, part));
    }
    forall part | part != st.part ensures part in n.event.images <==> ImageOf(tags, part) in n.registry.store.configs {
      ImageStays(s.registry, r, ImageOf(tags, part));
    }
  }

  lemma RemoveKeeps(s: State, st: Step, tags: Tags)
    requires Inv(s, tags) && st.Remove? && Enabled(s, st, tags)
    ensures Inv(Apply(s, st, tags), tags)
  {
    NobodyClones(s, st, tags);
    RemovalIsDisciplined(s, st, tags);
    Event.StepKeeps(s.event, Event.RemoveImage(st.p, st.part));
    Registry.StepKeeps(s.registry, Registry.Unlink(st.q, ImageOf(tags, st.part)));
    Registry.StepKeepsFiles(s.registry, Registry.Unlink(st.q, ImageOf(tags, st.part)));
    RemoveKeepsRest(s, st, tags);
  }

  lemma StepKeeps(s: State, st: Step, tags: Tags)
    requires Inv(s, tags) && Enabled(s, st, tags) && Assumed(s, st, tags)
    ensures Inv(Apply(s, st, tags), tags)
  {
    match st
    case OnEvent(_) => EventKeeps(s, st, tags);
    case OnRegistry(_) => RegistryKeeps(s, st, tags);
    case Clone(_, _, _, _, _, _) => CloneKeeps(s, st, tags);
    case WriteClone(_, _, _) => WriteCloneKeeps(s, st, tags);
    case AbandonClone(_) => AbandonCloneKeeps(s, st, tags);
    case Remove(_, _, _) => RemoveKeeps(s, st, tags);
  }

  // ---------- Runs ----------

  ghost predicate Start(s: State, tags: Tags) {
    && tags.rootFs != tags.projectFiles
    && Event.Start(s.event) && Registry.Start(s.registry) && s.clones == map[]
    && forall part :: ImageOf(tags, part) in s.registry.store.configs
  }

  ghost predicate Run(states: seq<State>, steps: seq<Step>, tags: Tags) {
    && |states| == |steps| + 1 && Start(states[0], tags)
    && (forall i | 0 <= i < |steps| ::
          Enabled(states[i], steps[i], tags) && states[i + 1] == Apply(states[i], steps[i], tags))
    && forall i | 0 <= i < |steps| :: Assumed(states[i], steps[i], tags)
  }

  lemma StartIsOk(s: State, tags: Tags)
    requires Start(s, tags)
    ensures Inv(s, tags)
  {
    Event.RunKeeps([s.event], [], 0);
    Registry.RunKeeps([s.registry], [], 0);
  }

  lemma {:induction false} RunKeeps(states: seq<State>, steps: seq<Step>, tags: Tags, i: nat)
    requires Run(states, steps, tags) && i < |states|
    ensures Inv(states[i], tags)
  {
    if i == 0 {
      StartIsOk(states[0], tags);
    } else {
      RunKeeps(states, steps, tags, i - 1);
      assert Enabled(states[i - 1], steps[i - 1], tags) && Assumed(states[i - 1], steps[i - 1], tags);
      StepKeeps(states[i - 1], steps[i - 1], tags);
    }
  }

  /** In every run the archival removes an image only while no process waits with it as the base of a container:
      the discipline that the registry needs is kept by the reservations. */
  lemma RemovalsAreDisciplined(states: seq<State>, steps: seq<Step>, tags: Tags, i: nat)
    requires Run(states, steps, tags) && i < |steps| && steps[i].Remove?
    ensures Registry.Disciplined(states[i].registry, Registry.Unlink(steps[i].q, ImageOf(tags, steps[i].part)))
  {
    RunKeeps(states, steps, tags, i);
    assert Enabled(states[i], steps[i], tags);
    RemovalIsDisciplined(states[i], steps[i], tags);
  }

  /** So nothing of the registry dangles, at any moment of creating workspaces from the prebuild and archiving it. */
  lemma NothingDangles(states: seq<State>, steps: seq<Step>, tags: Tags, i: nat)
    requires Run(states, steps, tags) && i < |states|
    ensures var s := states[i].registry.store;
            forall id | id in s.configs ::
              && Backed(id, s.configs[id], s.layers, s.containers)
              && FilesThere(s.configs[id], s.layers) && Coherent(s.configs[id])
  {
    RunKeeps(states, steps, tags, i);
  }
}
