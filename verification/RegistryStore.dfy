/** One process alone on the block registry: committing a container, removing
    content and collecting garbage, and what a crash in the middle leaves. */
module RegistryStore {
  import opened Wrappers
  import opened RegistryModel
  import opened RegistryProtocol

  datatype CommitError = NothingToCommit | NotAContainer | BadConfig(error: LoadError) | ImageExists

  // ---------- What a collection leaves ----------

  /** The registry without the layers and containers that no config refers to. */
  function Collected(s: Store): Store {
    Store(s.configs,
          map d | d in s.layers && (Collectable(d) ==> d in AllLayerRefs(s)) :: s.layers[d],
          map t | t in s.containers && t in UpperRefs(s) :: s.containers[t])
  }

  function UpperRefs(s: Store): set<string> {
    set id | id in s.configs && s.configs[id].upper.Some? :: s.configs[id].upper.value
  }

  // ---------- A commit, effect by effect ----------

  function WithImage(s: Store, tag: string, c: Config): Store {
    s.(configs := s.configs[Image(tag) := c])
  }

  function WithoutConfig(s: Store, id: ContentId): Store {
    s.(configs := s.configs - {id})
  }

  function WithoutFiles(s: Store, t: string): Store {
    if t in s.containers then s.(containers := s.containers[t := ContainerDir(None, None)]) else s
  }

  function WithoutDir(s: Store, t: string): Store {
    s.(containers := s.containers - {t})
  }

  /** The registries a commit with container removal passes through, one file system
      effect apart, and its outcome. A crash leaves one of them. */
  function CommitTrace(s: Store, container: string, tag: string, layer: Descriptor, blob: Blob)
    : (r: (seq<Store>, Result<ContentId, CommitError>))
    ensures |r.0| > 0 && r.0[0] == s
  {
    var ct, im := Container(container), Image(tag);
    if ct !in s.configs then
      ([s], if im in s.configs then Success(im) else Failure(NothingToCommit))
    else if s.configs[ct].upper == None then ([s], Failure(NotAContainer))
    else
      var c := CommitConfig(s.configs[ct], layer);
      if c.Failure? then ([s], Failure(BadConfig(c.error)))
      else
        var s1 := MkLayer(s, layer.digest);
        var s2 := LinkCommit(s1, layer.digest, Some(blob));
        if im in s2.configs && s2.configs[im] != c.value then ([s, s1, s2], Failure(ImageExists))
        else
          var s3 := WithImage(s2, tag, c.value);
          var s4 := WithoutConfig(s3, ct);
          var s5 := WithoutFiles(s4, container);
          ([s, s1, s2, s3, s4, s5, WithoutDir(s5, container)], Success(im))
  }

  function CommitEnd(s: Store, container: string, tag: string, layer: Descriptor, blob: Blob): Store {
    var trace := CommitTrace(s, container, tag, layer, blob).0;
    trace[|trace| - 1]
  }

  /** What can happen to an unfinished commit: another attempt that crashes after
      some of its effects, or a garbage collection. */
  datatype Event = Crash(effects: nat) | Collection

  function After(s: Store, e: Event, container: string, tag: string, layer: Descriptor, blob: Blob): Store {
    match e
    case Collection => Collected(s)
    case Crash(k) =>
      var trace := CommitTrace(s, container, tag, layer, blob).0;
      if k < |trace| then trace[k] else trace[|trace| - 1]
  }

  function AfterAll(s: Store, es: seq<Event>, container: string, tag: string, layer: Descriptor, blob: Blob): Store
    decreases |es|
  {
    if es == [] then s
    else After(AfterAll(s, es[..|es| - 1], container, tag, layer, blob), es[|es| - 1], container, tag, layer, blob)
  }

  // ---------- Crash recovery ----------

  /** A container ready to be committed: the registry is in order, the image id is
      unused or already holds this very commit, and a layer directory of the digest,
      should one exist, holds no other bytes. */
  ghost predicate Committable(s: Store, container: string, tag: string, layer: Descriptor, blob: Blob) {
    && AllBacked(s) && AllCoherent(s)
    && Container(container) in s.configs
    && Supported(layer)
    && CommitConfig(s.configs[Container(container)], layer).Success?
    && (Image(tag) in s.configs ==> s.configs[Image(tag)] == CommitConfig(s.configs[Container(container)], layer).value)
    && (layer.digest in s.layers ==> s.layers[layer.digest] in {LayerDir(None, None), LayerDir(Some(blob), None)})
  }

  /** The config table with the image, and then without the container. */
  function Both(s: Store, container: string, tag: string, layer: Descriptor): map<ContentId, Config>
    requires Container(container) in s.configs && CommitConfig(s.configs[Container(container)], layer).Success?
  {
    s.configs[Image(tag) := CommitConfig(s.configs[Container(container)], layer).value]
  }

  function Done(s: Store, container: string, tag: string, layer: Descriptor): map<ContentId, Config>
    requires Container(container) in s.configs && CommitConfig(s.configs[Container(container)], layer).Success?
  {
    Both(s, container, tag, layer) - {Container(container)}
  }

  /** No layer of `s0` that is in use is lost, none but `d` is added, and `d` is complete
      once its image is written. */
  ghost predicate LayersBetween(s0: Store, layers: map<Digest, LayerDir>, d: Digest, blob: Blob, written: bool) {
    && (forall x | x in layers && x != d :: x in s0.layers && layers[x] == s0.layers[x])
    && (forall x | x in s0.layers && (Collectable(x) ==> x in AllLayerRefs(s0)) :: x in layers)
    && (d in layers ==> layers[d] in {LayerDir(None, None), LayerDir(Some(blob), None)})
    && (written ==> d in layers && layers[d] == LayerDir(Some(blob), None))
  }

  /** No other container is added or changed, and none that is in use is lost. */
  ghost predicate ContainersBetween(s0: Store, containers: map<string, ContainerDir>, container: string, alive: bool) {
    && (forall t | t in containers && t != container :: t in s0.containers && containers[t] == s0.containers[t])
    && (forall t | t in s0.containers && Container(t) in s0.configs && t != container :: t in containers)
    && (alive ==> container in containers && container in s0.containers
                  && containers[container] == s0.containers[container])
  }

  /** `s` is the registry `s0` somewhere between the start and the end of the commit. */
  ghost predicate Between(s0: Store, s: Store, container: string, tag: string, layer: Descriptor, blob: Blob)
    requires Committable(s0, container, tag, layer, blob)
  {
    && s.configs in {s0.configs, Both(s0, container, tag, layer), Done(s0, container, tag, layer)}
    && LayersBetween(s0, s.layers, layer.digest, blob, s.configs != s0.configs)
    && ContainersBetween(s0, s.containers, container, Container(container) in s.configs)
  }

  lemma StartIsBetween(s: Store, container: string, tag: string, layer: Descriptor, blob: Blob)
    requires Committable(s, container, tag, layer, blob)
    ensures Between(s, s, container, tag, layer, blob)
  {
    assert Backed(Container(container), s.configs[Container(container)], s.layers, s.containers);
  }

  lemma NothingElseIsReferred(s0: Store, s: Store, container: string, tag: string, layer: Descriptor, blob: Blob)
    requires Committable(s0, container, tag, layer, blob)
    requires s.configs in {s0.configs, Both(s0, container, tag, layer), Done(s0, container, tag, layer)}
    ensures AllLayerRefs(s) <= AllLayerRefs(s0) + {layer.digest}
  {
    CommitIsCoherent(s0.configs[Container(container)], layer);
    forall x | x in AllLayerRefs(s) ensures x in AllLayerRefs(s0) + {layer.digest} {
      var id :| id in s.configs && x in LayerRefs(s.configs[id]);
      assert x in LayerRefs(s0.configs[Container(container)]) + {layer.digest}
             || (id in s0.configs && x in LayerRefs(s0.configs[id]));
    }
  }

  lemma NoReferenceIsLost(s0: Store, s: Store, container: string, tag: string, layer: Descriptor, blob: Blob)
    requires Committable(s0, container, tag, layer, blob)
    requires s.configs in {s0.configs, Both(s0, container, tag, layer), Done(s0, container, tag, layer)}
    ensures AllLayerRefs(s0) <= AllLayerRefs(s)
  {
    var ct, im := Container(container), Image(tag);
    CommitIsCoherent(s0.configs[ct], layer);
    forall x | x in AllLayerRefs(s0) ensures x in AllLayerRefs(s) {
      var id :| id in s0.configs && x in LayerRefs(s0.configs[id]);
      if id == ct && id !in s.configs {
        assert im in s.configs && x in LayerRefs(s.configs[im]);
      } else {
        assert id in s.configs && s.configs[id] == s0.configs[id];
      }
    }
  }

  /** The image keeps all layers of the container it replaces, and adds one. */
  lemma RefsAreKept(s0: Store, s: Store, container: string, tag: string, layer: Descriptor, blob: Blob)
    requires Committable(s0, container, tag, layer, blob)
    requires s.configs in {s0.configs, Both(s0, container, tag, layer), Done(s0, container, tag, layer)}
    ensures AllLayerRefs(s0) <= AllLayerRefs(s)
    ensures AllLayerRefs(s) <= AllLayerRefs(s0) + {layer.digest}
    ensures s.configs != s0.configs ==> layer.digest in AllLayerRefs(s)
  {
    NoReferenceIsLost(s0, s, container, tag, layer, blob);
    NothingElseIsReferred(s0, s, container, tag, layer, blob);
    if s.configs != s0.configs {
      CommitIsCoherent(s0.configs[Container(container)], layer);
      var c := CommitConfig(s0.configs[Container(container)], layer).value;
      assert Image(tag) in s.configs && s.configs[Image(tag)] == c && layer.digest in LayerRefs(c);
    }
  }

  lemma AttemptOnContainer(s0: Store, s: Store, container: string, tag: string, layer: Descriptor, blob: Blob)
    requires Committable(s0, container, tag, layer, blob) && Between(s0, s, container, tag, layer, blob)
    requires Container(container) in s.configs
    ensures s.configs[Container(container)] == s0.configs[Container(container)]
    ensures CommitTrace(s, container, tag, layer, blob).1 == Success(Image(tag))
    ensures CommitEnd(s, container, tag, layer, blob).configs == Done(s0, container, tag, layer)
  {
    assert Backed(Container(container), s0.configs[Container(container)], s0.layers, s0.containers);
  }

  /** A complete attempt succeeds, wherever the earlier ones stopped. */
  lemma AttemptSucceeds(s0: Store, s: Store, container: string, tag: string, layer: Descriptor, blob: Blob)
    requires Committable(s0, container, tag, layer, blob) && Between(s0, s, container, tag, layer, blob)
    ensures CommitTrace(s, container, tag, layer, blob).1 == Success(Image(tag))
    ensures CommitEnd(s, container, tag, layer, blob).configs == Done(s0, container, tag, layer)
    ensures layer.digest in CommitEnd(s, container, tag, layer, blob).layers
            && CommitEnd(s, container, tag, layer, blob).layers[layer.digest] == LayerDir(Some(blob), None)
  {
    if Container(container) in s.configs {
      AttemptOnContainer(s0, s, container, tag, layer, blob);
    }
  }

  lemma LayerStaysBetween(s0: Store, s: Store, d: Digest, blob: Blob, written: bool)
    requires LayersBetween(s0, s.layers, d, blob, written)
    ensures LayersBetween(s0, MkLayer(s, d).layers, d, blob, written)
    ensures LayersBetween(s0, LinkCommit(MkLayer(s, d), d, Some(blob)).layers, d, blob, true)
  {
  }

  lemma FilesStayBetween(s0: Store, s: Store, t: string)
    requires ContainersBetween(s0, s.containers, t, false)
    ensures ContainersBetween(s0, WithoutFiles(s, t).containers, t, false)
    ensures ContainersBetween(s0, WithoutDir(WithoutFiles(s, t), t).containers, t, false)
  {
  }

  /** What an attempt does to the three tables. */
  lemma AttemptShape(s: Store, k: nat, container: string, tag: string, layer: Descriptor, blob: Blob, c: Config)
    requires Container(container) in s.configs && s.configs[Container(container)].upper.Some?
    requires CommitConfig(s.configs[Container(container)], layer) == Success(c)
    requires Image(tag) in s.configs ==> s.configs[Image(tag)] == c
    requires k < 7
    ensures |CommitTrace(s, container, tag, layer, blob).0| == 7
    ensures var t := CommitTrace(s, container, tag, layer, blob).0[k];
            && t.configs == (if k < 3 then s.configs else if k == 3 then s.configs[Image(tag) := c]
                             else s.configs[Image(tag) := c] - {Container(container)})
            && t.layers == (if k == 0 then s.layers else if k == 1 then MkLayer(s, layer.digest).layers
                            else LinkCommit(MkLayer(s, layer.digest), layer.digest, Some(blob)).layers)
            && t.containers == (if k < 5 then s.containers else if k == 5 then WithoutFiles(s, container).containers
                                else WithoutDir(WithoutFiles(s, container), container).containers)
  {
    var trace := CommitTrace(s, container, tag, layer, blob).0;
    var s2 := LinkCommit(MkLayer(s, layer.digest), layer.digest, Some(blob));
    assert s2.configs == s.configs && s2.containers == s.containers;
    assert trace[3] == WithImage(s2, tag, c) && trace[4] == WithoutConfig(trace[3], Container(container));
    assert trace[5] == WithoutFiles(trace[4], container) && trace[6] == WithoutDir(trace[5], container);
  }

  /** Every registry an attempt passes through is between start and end again. */
  lemma AttemptStaysBetween(s0: Store, s: Store, k: nat, container: string, tag: string, layer: Descriptor, blob: Blob)
    requires Committable(s0, container, tag, layer, blob) && Between(s0, s, container, tag, layer, blob)
    requires k < |CommitTrace(s, container, tag, layer, blob).0|
    ensures Between(s0, CommitTrace(s, container, tag, layer, blob).0[k], container, tag, layer, blob)
  {
    var ct := Container(container);
    if ct in s.configs {
      assert s.configs[ct] == s0.configs[ct];
      assert Backed(ct, s0.configs[ct], s0.layers, s0.containers);
      var c := CommitConfig(s0.configs[ct], layer).value;
      assert s.configs[Image(tag) := c] == Both(s0, container, tag, layer);
      AttemptShape(s, if k < 7 then k else 0, container, tag, layer, blob, c);
      LayerStaysBetween(s0, s, layer.digest, blob, s.configs != s0.configs);
      FilesStayBetween(s0, s, container);
    }
  }

  lemma CollectionStaysBetween(s0: Store, s: Store, container: string, tag: string, layer: Descriptor, blob: Blob)
    requires Committable(s0, container, tag, layer, blob) && Between(s0, s, container, tag, layer, blob)
    ensures Between(s0, Collected(s), container, tag, layer, blob)
  {
    RefsAreKept(s0, s, container, tag, layer, blob);
    forall t | t in s0.containers && Container(t) in s0.configs && Container(t) in s.configs
      ensures t in UpperRefs(s)
    {
      assert Backed(Container(t), s0.configs[Container(t)], s0.layers, s0.containers);
      assert s.configs[Container(t)] == s0.configs[Container(t)];
    }
  }

  lemma {:induction false} AllStaysBetween(s: Store, es: seq<Event>, container: string, tag: string, layer: Descriptor, blob: Blob)
    requires Committable(s, container, tag, layer, blob)
    ensures Between(s, AfterAll(s, es, container, tag, layer, blob), container, tag, layer, blob)
    decreases |es|
  {
    if es == [] {
      StartIsBetween(s, container, tag, layer, blob);
    } else {
      AllStaysBetween(s, es[..|es| - 1], container, tag, layer, blob);
      var mid := AfterAll(s, es[..|es| - 1], container, tag, layer, blob);
      match es[|es| - 1]
      case Collection => CollectionStaysBetween(s, mid, container, tag, layer, blob);
      case Crash(k) =>
        var n := |CommitTrace(mid, container, tag, layer, blob).0|;
        AttemptStaysBetween(s, mid, if k < n then k else n - 1, container, tag, layer, blob);
    }
  }

  /** The containers in use at the end of the commit are those in use at its start,
      except the committed one. */
  lemma UppersAtEnd(s0: Store, s: Store, container: string, tag: string, layer: Descriptor, blob: Blob)
    requires Committable(s0, container, tag, layer, blob)
    requires s.configs == Done(s0, container, tag, layer)
    ensures forall t | t in UpperRefs(s) :: t != container && Container(t) in s0.configs && t in s0.containers
  {
    forall t | t in UpperRefs(s) ensures t != container && Container(t) in s0.configs && t in s0.containers {
      var id :| id in s.configs && s.configs[id].upper.Some? && s.configs[id].upper.value == t;
      assert id != Image(tag);
      assert Backed(id, s0.configs[id], s0.layers, s0.containers);
    }
  }

  /** Once nothing refers to them any more, what distinguishes two registries at the
      end of the commit is collected. */
  lemma SameOnceCollected(s0: Store, s: Store, r: Store, container: string, tag: string, layer: Descriptor, blob: Blob)
    requires Committable(s0, container, tag, layer, blob)
    requires Between(s0, s, container, tag, layer, blob) && Between(s0, r, container, tag, layer, blob)
    requires s.configs == r.configs == Done(s0, container, tag, layer)
    ensures LayersBetween(s0, s.layers, layer.digest, blob, true) && LayersBetween(s0, r.layers, layer.digest, blob, true)
            ==> Collected(s) == Collected(r)
  {
    RefsAreKept(s0, s, container, tag, layer, blob);
    UppersAtEnd(s0, s, container, tag, layer, blob);
    assert AllLayerRefs(s) == AllLayerRefs(r) && UpperRefs(s) == UpperRefs(r);
    if LayersBetween(s0, s.layers, layer.digest, blob, true) && LayersBetween(s0, r.layers, layer.digest, blob, true) {
      SameLayers(s0, s, r, layer.digest, blob);
      SameContainers(s0, s, r, container);
    }
  }

  lemma SameLayers(s0: Store, s: Store, r: Store, d: Digest, blob: Blob)
    requires LayersBetween(s0, s.layers, d, blob, true) && LayersBetween(s0, r.layers, d, blob, true)
    requires AllLayerRefs(s) == AllLayerRefs(r) <= AllLayerRefs(s0) + {d}
    ensures Collected(s).layers == Collected(r).layers
  {
    forall x ensures x in Collected(s).layers <==> x in Collected(r).layers {
      assert x in Collected(s).layers <==> x in s.layers && (Collectable(x) ==> x in AllLayerRefs(s));
      assert x in Collected(r).layers <==> x in r.layers && (Collectable(x) ==> x in AllLayerRefs(s));
    }
  }

  lemma SameContainers(s0: Store, s: Store, r: Store, t0: string)
    requires ContainersBetween(s0, s.containers, t0, false) && ContainersBetween(s0, r.containers, t0, false)
    requires UpperRefs(s) == UpperRefs(r)
    requires forall t | t in UpperRefs(s) :: t != t0 && Container(t) in s0.configs && t in s0.containers
    ensures Collected(s).containers == Collected(r).containers
  {
  }

  /** However often and wherever commits of the container crash, and whatever is collected
      in between, running it once more to its end gives the registry of an uninterrupted
      commit, up to one collection: the image with the old layers plus one, and no container. */
  lemma CommitSurvivesCrashes(s: Store, es: seq<Event>, container: string, tag: string, layer: Descriptor, blob: Blob)
    requires Committable(s, container, tag, layer, blob)
    ensures var mid := AfterAll(s, es, container, tag, layer, blob);
            var end := CommitEnd(mid, container, tag, layer, blob);
            && CommitTrace(mid, container, tag, layer, blob).1 == Success(Image(tag))
            && Collected(end) == Collected(CommitEnd(s, container, tag, layer, blob))
            && Container(container) !in end.configs
            && Image(tag) in end.configs
            && LowerDigests(end.configs[Image(tag)].lowers)
               == LowerDigests(s.configs[Container(container)].lowers) + [layer.digest]
  {
    var mid := AfterAll(s, es, container, tag, layer, blob);
    AllStaysBetween(s, es, container, tag, layer, blob);
    StartIsBetween(s, container, tag, layer, blob);
    AttemptSucceeds(s, mid, container, tag, layer, blob);
    AttemptSucceeds(s, s, container, tag, layer, blob);
    AttemptStaysBetween(s, mid, |CommitTrace(mid, container, tag, layer, blob).0| - 1, container, tag, layer, blob);
    AttemptStaysBetween(s, s, |CommitTrace(s, container, tag, layer, blob).0| - 1, container, tag, layer, blob);
    SameOnceCollected(s, CommitEnd(mid, container, tag, layer, blob), CommitEnd(s, container, tag, layer, blob),
                      container, tag, layer, blob);
    CommitIsCoherent(s.configs[Container(container)], layer);
  }

  // ---------- Collecting again changes nothing, and loses nothing ----------

  lemma CollectionKeepsOrder(s: Store)
    requires AllBacked(s)
    ensures AllBacked(Collected(s))
    ensures Collected(Collected(s)) == Collected(s)
    ensures forall d | Collectable(d) :: d in Collected(s).layers <==> d in AllLayerRefs(s)
    ensures forall t :: t in Collected(s).containers <==> Container(t) in s.configs
  {
    forall id | id in s.configs ensures Backed(id, s.configs[id], Collected(s).layers, Collected(s).containers) {
      assert Backed(id, s.configs[id], s.layers, s.containers);
      assert LayerRefs(s.configs[id]) <= AllLayerRefs(s);
    }
    forall d | Collectable(d) && d in AllLayerRefs(s) ensures d in s.layers {
      var id :| id in s.configs && d in LayerRefs(s.configs[id]);
      assert Backed(id, s.configs[id], s.layers, s.containers);
    }
    forall t ensures t in Collected(s).containers <==> Container(t) in s.configs {
      if t in UpperRefs(s) {
        var id :| id in s.configs && s.configs[id].upper.Some? && s.configs[id].upper.value == t;
        assert Backed(id, s.configs[id], s.layers, s.containers);
      }
      if Container(t) in s.configs {
        assert Backed(Container(t), s.configs[Container(t)], s.layers, s.containers);
      }
    }
    assert AllLayerRefs(Collected(s)) == AllLayerRefs(s) && UpperRefs(Collected(s)) == UpperRefs(s);
  }

  // ---------- The service ----------

  /** The three directories, changed in place. */
  class BlockRegistry {
    var configs: map<ContentId, Config>
    var layers: map<Digest, LayerDir>
    var containers: map<string, ContainerDir>

    constructor (s: Store)
      ensures Now() == s
    {
      configs, layers, containers := s.configs, s.layers, s.containers;
    }

    ghost function Now(): Store
      reads this
    {
      Store(configs, layers, containers)
    }

    static method LayersOf(config: Config) returns (refs: set<Digest>)
      ensures refs == LayerRefs(config)
    {
      refs := {};
      for i := 0 to |config.lowers|
        invariant refs == set d | d in LowerDigests(config.lowers[..i])
      {
        assert LowerDigests(config.lowers[..i + 1]) == LowerDigests(config.lowers[..i]) + [config.lowers[i].digest];
        refs := refs + {config.lowers[i].digest};
      }
      assert config.lowers[..|config.lowers|] == config.lowers;
    }

    /** Reads every config and gathers the layers and containers in use. */
    method FindReferences() returns (referencedLayers: set<Digest>, referencedContainers: set<string>)
      ensures referencedLayers == AllLayerRefs(Now()) && referencedContainers == UpperRefs(Now())
    {
      referencedLayers, referencedContainers := {}, {};
      var ids := configs.Keys;
      while ids != {}
        invariant ids <= configs.Keys
        invariant referencedLayers == set id, d | id in configs && id !in ids && d in LayerRefs(configs[id]) :: d
        invariant referencedContainers ==
                  set id | id in configs && id !in ids && configs[id].upper.Some? :: configs[id].upper.value
        decreases |ids|
      {
        var id :| id in ids;
        ids := ids - {id};
        var config := configs[id];
        if config.upper.Some? {
          referencedContainers := referencedContainers + {config.upper.value};
        }
        var lowers := LayersOf(config);
        referencedLayers := referencedLayers + lowers;
      }
    }

    method SweepContainers(referenced: set<string>)
      modifies this`containers
      ensures containers == map t | t in old(containers) && t in referenced :: old(containers)[t]
    {
      var dead := containers.Keys - referenced;
      while dead != {}
        invariant dead !! referenced
        invariant forall t :: t in containers <==> t in old(containers) && (t in referenced || t in dead)
        invariant forall t | t in containers :: containers[t] == old(containers)[t]
        decreases |dead|
      {
        var t :| t in dead;
        dead := dead - {t};
        containers := containers - {t};
      }
    }

    method SweepLayers(referenced: set<Digest>)
      modifies this`layers
      ensures layers == map d | d in old(layers) && (Collectable(d) ==> d in referenced) :: old(layers)[d]
    {
      var dead := (set d | d in layers && Collectable(d)) - referenced;
      while dead != {}
        invariant dead !! referenced && (forall d | d in dead :: Collectable(d))
        invariant forall d :: d in layers <==> d in old(layers) && (Collectable(d) ==> d in referenced || d in dead)
        invariant forall d | d in layers :: layers[d] == old(layers)[d]
        decreases |dead|
      {
        var d :| d in dead;
        dead := dead - {d};
        layers := layers - {d};
      }
    }

    method GarbageCollect()
      modifies this`layers, this`containers
      ensures Now() == Collected(old(Now()))
    {
      var referencedLayers, referencedContainers := FindReferences();
      SweepContainers(referencedContainers);
      SweepLayers(referencedLayers);
    }

    method RemoveContent(id: ContentId)
      modifies this`configs, this`containers
      ensures configs == old(configs) - {id}
      ensures containers == if id.Container? then old(containers) - {id.tag} else old(containers)
    {
      configs := configs - {id};
      if id.Container? {
        containers := containers - {id.tag};
      }
    }

    /** `mkdir` and `link`, both of which accept that the target exists. */
    method LoadLocalLayer(d: Digest, file: Blob)
      modifies this`layers
      ensures Now() == LinkCommit(MkLayer(old(Now()), d), d, Some(file))
    {
      if d !in layers {
        layers := layers[d := LayerDir(None, None)];
      }
      if layers[d].commitFile == None {
        layers := layers[d := layers[d].(commitFile := Some(file))];
      }
    }

    method CommitContainer(container: string, tag: string, layer: Descriptor, blob: Blob)
      returns (r: Result<ContentId, CommitError>)
      modifies this
      ensures Now() == CommitEnd(old(Now()), container, tag, layer, blob)
      ensures r == CommitTrace(old(Now()), container, tag, layer, blob).1
    {
      var outputImageExists := Image(tag) in configs;
      var containerExists := Container(container) in configs;
      if outputImageExists && !containerExists {
        return Success(Image(tag));
      }
      if !outputImageExists && !containerExists {
        return Failure(NothingToCommit);
      }
      var obdConfig := configs[Container(container)];
      if obdConfig.upper == None {
        return Failure(NotAContainer);
      }
      var imageConfig := CommitConfig(obdConfig, layer);
      if imageConfig.Failure? {
        return Failure(BadConfig(imageConfig.error));
      }
      LoadLocalLayer(layer.digest, blob);
      if Image(tag) in configs && configs[Image(tag)] != imageConfig.value {
        return Failure(ImageExists);
      }
      configs := configs[Image(tag) := imageConfig.value];
      RemoveContent(Container(container));
      assert WithoutDir(WithoutFiles(old(Now()), container), container).containers == containers;
      r := Success(Image(tag));
    }
  }
}
