/** The data of the block registry: overlaybd configs, OCI manifests, and the
    three directories the registry keeps on disk. */
module RegistryModel {
  import opened Wrappers

  type Blob = string

  /** A digest "algo:hash", already split at the colon. */
  datatype Digest = Digest(algo: string, hash: string)

  datatype Descriptor = Descriptor(mediaType: string, digest: Digest, size: nat, blobDigest: Option<Digest>)

  datatype BlobRef = BlobRef(digest: Digest, size: nat)

  datatype Manifest = Manifest(config: BlobRef, layers: seq<Descriptor>)

  /** A read-only layer of a config: `layers/<digest>/overlaybd.commit` (or `.sealed`)
      when it is on disk, `layers/<digest>` when it is pulled lazily. */
  datatype Lower =
    | LocalLower(digest: Digest, isSealed: bool)
    | LazyLower(digest: Digest, size: nat)

  /** Content ids: "im_<tag>" and "ct_<tag>". */
  datatype ContentId = Image(tag: string) | Container(tag: string)

  /** `upper` names the container directory of `upper.data` and `upper.index`;
      `lazyPulling` stands for the presence of `repoBlobUrl`. */
  datatype Config = Config(
    remoteRef: Option<string>,
    lazyPulling: bool,
    downloadEnabled: Option<bool>,
    lowers: seq<Lower>,
    upper: Option<string>,
    manifest: Option<Manifest>)

  datatype LayerDir = LayerDir(commitFile: Option<Blob>, sealedFile: Option<Blob>)

  datatype ContainerDir = ContainerDir(data: Option<Blob>, index: Option<Blob>)

  /** The `block_config`, `layers` and `containers` directories. */
  datatype Store = Store(
    configs: map<ContentId, Config>,
    layers: map<Digest, LayerDir>,
    containers: map<string, ContainerDir>)

  const LAYER_MEDIA_TYPE := "application/vnd.oci.image.layer.v1.tar"
  const EAGER_THRESHOLD: nat := 10 * 1024 * 1024
  const FAKE_CONFIG := BlobRef(Digest("sha256", "e7c9d53532bd3d8a83a967b0331a52e1cfc2ef87873503e3967893926206801d"), 1337)

  // ---------- What a config refers to ----------

  function LowerDigests(lowers: seq<Lower>): (ds: seq<Digest>) {
    seq(|lowers|, i requires 0 <= i < |lowers| => lowers[i].digest)
  }

  function LayerDigests(layers: seq<Descriptor>): (ds: seq<Digest>) {
    seq(|layers|, i requires 0 <= i < |layers| => layers[i].digest)
  }

  function ManifestDigests(m: Option<Manifest>): (ds: seq<Digest>) {
    if m.Some? then LayerDigests(m.value.layers) else []
  }

  function LayerRefs(c: Config): (refs: set<Digest>) {
    set d | d in LowerDigests(c.lowers)
  }

  /** Only overlaybd layers are accepted. */
  predicate Supported(d: Descriptor) {
    d.mediaType == LAYER_MEDIA_TYPE && d.blobDigest.Some?
  }

  predicate AllSupported(m: Manifest) {
    forall d | d in m.layers :: Supported(d)
  }

  /** The layers of a config are, in order, those of the manifest stored with it;
      a lazily pulled config names the repository to pull from. */
  predicate Coherent(c: Config) {
    && LowerDigests(c.lowers) == ManifestDigests(c.manifest)
    && (c.manifest.Some? ==> AllSupported(c.manifest.value))
    && (c.lazyPulling ==> c.remoteRef.Some?)
  }

  /** Everything the config of `id` refers to is on disk. */
  predicate Backed(id: ContentId, c: Config, layers: map<Digest, LayerDir>, containers: map<string, ContainerDir>) {
    && LayerRefs(c) <= layers.Keys
    && (match id
        case Image(_) => c.upper == None
        case Container(t) =>
          && c.upper == Some(t)
          && t in containers
          && containers[t].data.Some?
          && containers[t].index.Some?)
  }

  ghost predicate AllBacked(s: Store) {
    forall id | id in s.configs :: Backed(id, s.configs[id], s.layers, s.containers)
  }

  ghost predicate AllCoherent(s: Store) {
    forall id | id in s.configs :: Coherent(s.configs[id])
  }

  /** The file that a local lower names is there. */
  predicate FileThere(l: Lower, layers: map<Digest, LayerDir>) {
    l.LocalLower? ==>
      && l.digest in layers
      && (if l.isSealed then layers[l.digest].sealedFile.Some? else layers[l.digest].commitFile.Some?)
  }

  ghost predicate FilesThere(c: Config, layers: map<Digest, LayerDir>) {
    forall l | l in c.lowers :: FileThere(l, layers)
  }

  ghost predicate AllFilesThere(s: Store) {
    forall id | id in s.configs :: FilesThere(s.configs[id], s.layers)
  }

  // ---------- The configs that operations write ----------

  datatype LoadOpts = LoadOpts(
    remoteRef: Option<string>,
    onDisk: bool,
    lazyPulling: bool,
    disableDownload: bool,
    eagerThreshold: nat)

  datatype LoadError = UnsupportedLayer | NoRemoteForLazyPulling | LayerNotOnDisk

  /** Whether a layer gets a file right away, rather than being pulled lazily. */
  predicate Eager(d: Descriptor, opts: LoadOpts) {
    || opts.onDisk
    || !opts.lazyPulling
    || d.size < (if opts.eagerThreshold != 0 then opts.eagerThreshold else EAGER_THRESHOLD)
  }

  function ExtraLower(d: Descriptor, opts: LoadOpts): Lower {
    if Eager(d, opts) then LocalLower(d.digest, false) else LazyLower(d.digest, d.size)
  }

  function ExtraLowers(layers: seq<Descriptor>, opts: LoadOpts): seq<Lower> {
    seq(|layers|, i requires 0 <= i < |layers| => ExtraLower(layers[i], opts))
  }

  /** The config of an image built from `manifest` by adding `extra` to `existing`. */
  function ImageConfig(manifest: Manifest, existing: seq<Lower>, extra: seq<Descriptor>, opts: LoadOpts)
    : (r: Result<Config, LoadError>)
  {
    if opts.lazyPulling && opts.remoteRef == None then Failure(NoRemoteForLazyPulling)
    else if extra != [] && !opts.onDisk && opts.remoteRef == None then Failure(LayerNotOnDisk)
    else Success(Config(
                   opts.remoteRef,
                   opts.lazyPulling,
                   Some(!opts.disableDownload),
                   existing + ExtraLowers(extra, opts),
                   None,
                   Some(manifest)))
  }

  function LoadConfig(manifest: Manifest, opts: LoadOpts): (r: Result<Config, LoadError>) {
    if !AllSupported(manifest) then Failure(UnsupportedLayer)
    else ImageConfig(manifest, [], manifest.layers, opts)
  }

  function ContainerConfig(base: Option<Config>, tag: string): Config {
    match base
    case None => Config(None, false, None, [], Some(tag), None)
    case Some(b) => Config(b.remoteRef, b.lazyPulling, b.downloadEnabled, b.lowers, Some(tag), b.manifest)
  }

  function CommittedLayer(digest: Digest, size: nat): Descriptor {
    Descriptor(LAYER_MEDIA_TYPE, digest, size, Some(digest))
  }

  function CommitOpts(c: Config): LoadOpts {
    LoadOpts(c.remoteRef, true, c.lazyPulling, c.downloadEnabled == Some(false), 0)
  }

  function CommitManifest(c: Config, layer: Descriptor): Manifest {
    var m := if c.manifest.Some? then c.manifest.value else Manifest(FAKE_CONFIG, []);
    m.(layers := m.layers + [layer])
  }

  /** The image that committing a container with config `c` yields. */
  function CommitConfig(c: Config, layer: Descriptor): Result<Config, LoadError> {
    ImageConfig(CommitManifest(c, layer), c.lowers, [layer], CommitOpts(c))
  }

  // ---------- Coherence of what is written ----------

  /** A manifest loads exactly when all its layers are supported and each can be had: from disk, or from a
      repository, without which none is pulled lazily. */
  lemma LoadIsCoherent(manifest: Manifest, opts: LoadOpts)
    ensures LoadConfig(manifest, opts).Success? <==>
              && AllSupported(manifest)
              && (opts.remoteRef.Some? || (!opts.lazyPulling && (opts.onDisk || manifest.layers == [])))
    ensures LoadConfig(manifest, opts).Success? ==>
              && Coherent(LoadConfig(manifest, opts).value)
              && LowerDigests(LoadConfig(manifest, opts).value.lowers) == LayerDigests(manifest.layers)
  {
    if LoadConfig(manifest, opts).Success? {
      var c := LoadConfig(manifest, opts).value;
      assert c.lowers == ExtraLowers(manifest.layers, opts);
      assert LowerDigests(c.lowers) == LayerDigests(manifest.layers);
    }
  }

  /** The config of a container can always be committed. */
  lemma CommitIsCoherent(c: Config, layer: Descriptor)
    requires Coherent(c) && Supported(layer)
    ensures CommitConfig(c, layer).Success?
    ensures Coherent(CommitConfig(c, layer).value)
    ensures LowerDigests(CommitConfig(c, layer).value.lowers) == LowerDigests(c.lowers) + [layer.digest]
    ensures LayerRefs(CommitConfig(c, layer).value) == LayerRefs(c) + {layer.digest}
  {
    var r := CommitConfig(c, layer).value;
    assert r.lowers == c.lowers + [ExtraLower(layer, CommitOpts(c))];
    assert LowerDigests(r.lowers) == LowerDigests(c.lowers) + [layer.digest];
    assert ManifestDigests(r.manifest) == ManifestDigests(c.manifest) + [layer.digest];
  }

  // ---------- What a config is told ----------

  /** Where layers are pulled from, whether lazily, and whether they are downloaded in the background. */
  ghost predicate PullsAs(c: Config, remoteRef: Option<string>, lazyPulling: bool, download: bool) {
    c.remoteRef == remoteRef && c.lazyPulling == lazyPulling && (c.downloadEnabled != Some(false) <==> download)
  }

  /** The layers fetched at once: all of them, unless the image is pulled lazily, when the small ones of a
      repository are; the limit is ten mebibytes if none is given. */
  lemma LoadedAsAsked(manifest: Manifest, opts: LoadOpts)
    requires LoadConfig(manifest, opts).Success?
    ensures var c := LoadConfig(manifest, opts).value;
            && PullsAs(c, opts.remoteRef, opts.lazyPulling, !opts.disableDownload) && |c.lowers| == |manifest.layers|
            && forall i | 0 <= i < |manifest.layers| ::
                 var layer := manifest.layers[i];
                 && (c.lowers[i] == LocalLower(layer.digest, false) || c.lowers[i] == LazyLower(layer.digest, layer.size))
                 && (opts.onDisk || !opts.lazyPulling ==> c.lowers[i].LocalLower?)
                 && (!opts.onDisk && opts.lazyPulling && opts.eagerThreshold > 0 ==>
                       (c.lowers[i].LazyLower? <==> layer.size >= opts.eagerThreshold))
                 && (!opts.onDisk && opts.lazyPulling && opts.eagerThreshold == 0 ==>
                       (c.lowers[i].LazyLower? <==> layer.size >= 10485760))
  {
    var c := LoadConfig(manifest, opts).value;
    assert c.lowers == ExtraLowers(manifest.layers, opts);
  }

  /** A container pulls as its base does, and so does an image committed from it, whose new layer is local. */
  lemma DerivedAsBase(base: Config, tag: string, layer: Descriptor, remoteRef: Option<string>, lazyPulling: bool, download: bool)
    requires PullsAs(base, remoteRef, lazyPulling, download)
    ensures var c := ContainerConfig(Some(base), tag);
            PullsAs(c, remoteRef, lazyPulling, download) && c.lowers == base.lowers && c.manifest == base.manifest
    ensures CommitConfig(base, layer).Success? ==>
              var c := CommitConfig(base, layer).value;
              && PullsAs(c, remoteRef, lazyPulling, download)
              && c.lowers == base.lowers + [LocalLower(layer.digest, false)]
  {
    if CommitConfig(base, layer).Success? {
      assert ExtraLowers([layer], CommitOpts(base)) == [LocalLower(layer.digest, false)];
    }
  }
}
