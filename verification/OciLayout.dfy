/** Exporting an image as an OCI image layout directory and loading such a directory
    (OCI Image Format Specification, sections "Image Layout" and "Image Manifest"). */
module OciLayout {
  import opened Wrappers
  import opened RegistryModel
  import opened RegistryProtocol

  /** The contents of a file under `blobs/`. */
  datatype Document =
    | LayerBytes(bytes: Blob)
    | ImageConfigJson(diffIds: seq<Digest>)
    | ManifestJson(manifest: Manifest)

  /** `index.json` and the files `blobs/<algo>/<hash>`. */
  datatype Layout = Layout(index: seq<BlobRef>, blobs: map<Digest, Document>)

  /** How documents are serialised and hashed. */
  datatype Encoding = Encoding(digestOf: Document -> Digest, sizeOf: Document -> nat)

  datatype ExportError =
    | ImageNotFound
    | ManifestNotFound
    | SealedLayer
    | NoSourceRepository
    | LayerFileMissing
    | DownloadFailed
    | BlobExists(digest: Digest)

  datatype ImportError = UnsupportedIndex | ManifestUnreadable | BadManifest(error: LoadError) | BlobMissing

  // ---------- Export ----------

  /** The file that backs a lower layer; `remote` is what the source repository serves. */
  function SourceFile(layers: map<Digest, LayerDir>, c: Config, lower: Lower, remote: Digest -> Option<Blob>)
    : Result<Blob, ExportError>
  {
    var dir := if lower.digest in layers then layers[lower.digest] else LayerDir(None, None);
    match lower
    case LocalLower(d, isSealed) =>
      if isSealed then Failure(SealedLayer)
      else if dir.commitFile.Some? then Success(dir.commitFile.value)
      else Failure(LayerFileMissing)
    case LazyLower(d, size) =>
      if dir.commitFile.Some? then Success(dir.commitFile.value)
      else if dir.sealedFile.Some? then Success(dir.sealedFile.value)
      else if c.remoteRef == None then Failure(NoSourceRepository)
      else if remote(d).Some? then Success(remote(d).value)
      else Failure(DownloadFailed)
  }

  function ConfigJson(m: Manifest): Document {
    ImageConfigJson(LayerDigests(m.layers))
  }

  function ExportedManifest(m: Manifest, enc: Encoding): Manifest {
    m.(config := BlobRef(enc.digestOf(ConfigJson(m)), enc.sizeOf(ConfigJson(m))))
  }

  predicate Distinct(ds: seq<Digest>) {
    forall i, j | 0 <= i < j < |ds| :: ds[i] != ds[j]
  }

  /** Files of these digests can all be linked beside the ones that are there. */
  predicate Linkable(ds: seq<Digest>, taken: set<Digest>) {
    Distinct(ds) && forall i | 0 <= i < |ds| :: ds[i] !in taken
  }

  /** The digests of the two documents written before the layers. */
  function DocumentDigests(m: Manifest, enc: Encoding): set<Digest> {
    {enc.digestOf(ConfigJson(m)), enc.digestOf(ManifestJson(ExportedManifest(m, enc)))}
  }

  /** Exactly when an export succeeds: the image has a manifest, all its layers can be
      had, and no two of the files to be linked have the same digest. */
  predicate Exportable(s: Store, id: ContentId, remote: Digest -> Option<Blob>, enc: Encoding) {
    && id in s.configs
    && var c := s.configs[id];
    && c.manifest.Some?
    && (forall i | 0 <= i < |c.lowers| :: SourceFile(s.layers, c, c.lowers[i], remote).Success?)
    && Linkable(LowerDigests(c.lowers), DocumentDigests(c.manifest.value, enc))
  }

  /** The layers, linked under their digests. */
  function LinkedBlobs(s: Store, c: Config, lowers: seq<Lower>, remote: Digest -> Option<Blob>,
                       blobs: map<Digest, Document>): map<Digest, Document>
    requires forall i | 0 <= i < |lowers| :: SourceFile(s.layers, c, lowers[i], remote).Success?
    decreases |lowers|
  {
    if lowers == [] then blobs
    else
      LinkedBlobs(s, c, lowers[1..], remote,
                  blobs[lowers[0].digest := LayerBytes(SourceFile(s.layers, c, lowers[0], remote).value)])
  }

  function Documents(m: Manifest, enc: Encoding): map<Digest, Document> {
    var m' := ExportedManifest(m, enc);
    map[m'.config.digest := ConfigJson(m)][enc.digestOf(ManifestJson(m')) := ManifestJson(m')]
  }

  function ExportedLayout(s: Store, id: ContentId, remote: Digest -> Option<Blob>, enc: Encoding): Layout
    requires Exportable(s, id, remote, enc)
  {
    var c := s.configs[id];
    var m := ManifestJson(ExportedManifest(c.manifest.value, enc));
    Layout([BlobRef(enc.digestOf(m), enc.sizeOf(m))],
           LinkedBlobs(s, c, c.lowers, remote, Documents(c.manifest.value, enc)))
  }

  lemma LinkedBefore(ds: seq<Digest>, i: nat, taken: set<Digest>)
    requires i < |ds| && (ds[i] in taken || ds[i] in ds[..i])
    ensures !Linkable(ds, taken)
  {
    if ds[i] !in taken {
      var k :| 0 <= k < i && ds[..i][k] == ds[i];
      assert ds[k] == ds[i];
    }
  }

  lemma LinkableMore(ds: seq<Digest>, i: nat, taken: set<Digest>)
    requires i < |ds| && Linkable(ds[..i], taken) && ds[i] !in taken && ds[i] !in ds[..i]
    ensures Linkable(ds[..i + 1], taken)
  {
    assert ds[..i + 1] == ds[..i] + [ds[i]];
  }

  lemma LinkOne(s: Store, c: Config, i: nat, remote: Digest -> Option<Blob>, blobs: map<Digest, Document>)
    requires i < |c.lowers| && forall k | 0 <= k < |c.lowers| :: SourceFile(s.layers, c, c.lowers[k], remote).Success?
    ensures LinkedBlobs(s, c, c.lowers[i..], remote, blobs)
         == LinkedBlobs(s, c, c.lowers[i + 1..], remote,
                        blobs[c.lowers[i].digest := LayerBytes(SourceFile(s.layers, c, c.lowers[i], remote).value)])
  {
    assert c.lowers[i..][1..] == c.lowers[i + 1..];
  }

  /** `link` of every layer file, which fails when the target exists. */
  method LinkLayers(s: Store, c: Config, remote: Digest -> Option<Blob>, documents: map<Digest, Document>)
    returns (r: Result<map<Digest, Document>, ExportError>)
    requires forall i | 0 <= i < |c.lowers| :: SourceFile(s.layers, c, c.lowers[i], remote).Success?
    ensures r.Success? <==> Linkable(LowerDigests(c.lowers), documents.Keys)
    ensures r.Success? ==> r.value == LinkedBlobs(s, c, c.lowers, remote, documents)
  {
    ghost var ds := LowerDigests(c.lowers);
    var blobs := documents;
    for i := 0 to |c.lowers|
      invariant Linkable(ds[..i], documents.Keys)
      invariant forall d :: d in blobs <==> d in documents || d in ds[..i]
      invariant LinkedBlobs(s, c, c.lowers[i..], remote, blobs) == LinkedBlobs(s, c, c.lowers, remote, documents)
    {
      var d := c.lowers[i].digest;
      assert ds[i] == d && ds[..i + 1] == ds[..i] + [d];
      if d in blobs {
        LinkedBefore(ds, i, documents.Keys);
        return Failure(BlobExists(d));
      }
      LinkableMore(ds, i, documents.Keys);
      LinkOne(s, c, i, remote, blobs);
      blobs := blobs[d := LayerBytes(SourceFile(s.layers, c, c.lowers[i], remote).value)];
    }
    assert ds[..|c.lowers|] == ds;
    r := Success(blobs);
  }

  method ExportImage(s: Store, id: ContentId, remote: Digest -> Option<Blob>, enc: Encoding)
    returns (r: Result<Layout, ExportError>)
    ensures r.Success? <==> Exportable(s, id, remote, enc)
    ensures r.Success? ==> r.value == ExportedLayout(s, id, remote, enc)
  {
    if id !in s.configs {
      return Failure(ImageNotFound);
    }
    var c := s.configs[id];
    if c.manifest == None {
      return Failure(ManifestNotFound);
    }
    for i := 0 to |c.lowers|
      invariant forall k | 0 <= k < i :: SourceFile(s.layers, c, c.lowers[k], remote).Success?
    {
      var source := SourceFile(s.layers, c, c.lowers[i], remote);
      if source.Failure? {
        return Failure(source.error);
      }
    }
    var m := ManifestJson(ExportedManifest(c.manifest.value, enc));
    var documents := Documents(c.manifest.value, enc);
    assert documents.Keys == DocumentDigests(c.manifest.value, enc);
    var blobs := LinkLayers(s, c, remote, documents);
    if blobs.Failure? {
      return Failure(blobs.error);
    }
    r := Success(Layout([BlobRef(enc.digestOf(m), enc.sizeOf(m))], blobs.value));
  }

  /** An exported directory holds, beside what was there, one file per layer with the bytes of that layer. */
  lemma {:induction false} BlobsAreLinked(s: Store, c: Config, lowers: seq<Lower>, remote: Digest -> Option<Blob>,
                                          blobs: map<Digest, Document>)
    requires forall i | 0 <= i < |lowers| :: SourceFile(s.layers, c, lowers[i], remote).Success?
    requires forall i, j | 0 <= i < j < |lowers| :: lowers[i].digest != lowers[j].digest
    requires forall i | 0 <= i < |lowers| :: lowers[i].digest !in blobs
    ensures var all := LinkedBlobs(s, c, lowers, remote, blobs);
            && (forall d | d in blobs :: d in all && all[d] == blobs[d])
            && (forall i | 0 <= i < |lowers| ::
                  && lowers[i].digest in all
                  && all[lowers[i].digest] == LayerBytes(SourceFile(s.layers, c, lowers[i], remote).value))
            && (forall d | d in all :: d in blobs || exists i :: 0 <= i < |lowers| && lowers[i].digest == d)
    decreases |lowers|
  {
    if lowers != [] {
      var d := lowers[0].digest;
      var rest := lowers[1..];
      var blobs' := blobs[d := LayerBytes(SourceFile(s.layers, c, lowers[0], remote).value)];
      forall i | 0 <= i < |rest| ensures rest[i].digest !in blobs' {
        assert rest[i] == lowers[i + 1];
      }
      BlobsAreLinked(s, c, rest, remote, blobs');
      var all := LinkedBlobs(s, c, rest, remote, blobs');
      forall i | 0 <= i < |lowers|
        ensures lowers[i].digest in all
        ensures all[lowers[i].digest] == LayerBytes(SourceFile(s.layers, c, lowers[i], remote).value)
      {
        if i > 0 {
          assert lowers[i] == rest[i - 1];
        }
      }
    }
  }

  // ---------- Import ----------

  const FROM_DISK := LoadOpts(None, true, false, false, 0)

  /** The manifest an index leads to. */
  function ReadManifest(l: Layout): Result<Manifest, ImportError> {
    if |l.index| != 1 then Failure(UnsupportedIndex)
    else if l.index[0].digest in l.blobs && l.blobs[l.index[0].digest].ManifestJson?
    then Success(l.blobs[l.index[0].digest].manifest)
    else Failure(ManifestUnreadable)
  }

  predicate HasLayer(l: Layout, d: Digest) {
    d in l.blobs && l.blobs[d].LayerBytes?
  }

  predicate HasLayers(l: Layout, layers: seq<Descriptor>) {
    forall i | 0 <= i < |layers| :: HasLayer(l, layers[i].digest)
  }

  /** The layers, linked into the registry one after the other. */
  function WithLayers(s: Store, layers: seq<Descriptor>, l: Layout): Store
    requires HasLayers(l, layers)
    decreases |layers|
  {
    if layers == [] then s
    else
      var d := layers[0].digest;
      WithLayers(LinkCommit(MkLayer(s, d), d, Some(l.blobs[d].bytes)), layers[1..], l)
  }

  /** `loadImageFromDisk` into an unused image id. */
  function LoadLayout(s: Store, tag: string, l: Layout): Result<Store, ImportError> {
    var manifest := ReadManifest(l);
    if manifest.Failure? then Failure(manifest.error)
    else
      var c := LoadConfig(manifest.value, FROM_DISK);
      if c.Failure? then Failure(BadManifest(c.error))
      else if !HasLayers(l, manifest.value.layers) then Failure(BlobMissing)
      else
        var s' := WithLayers(s, manifest.value.layers, l);
        Success(s'.(configs := s'.configs[Image(tag) := c.value]))
  }

  /** Linking layers adds their directories, each with a commit file, and disturbs nothing else. */
  lemma {:induction false} LayersAreLinked(s: Store, layers: seq<Descriptor>, l: Layout)
    requires HasLayers(l, layers)
    ensures var s' := WithLayers(s, layers, l);
            && s'.configs == s.configs && s'.containers == s.containers
            && (forall i | 0 <= i < |layers| ::
                  layers[i].digest in s'.layers && s'.layers[layers[i].digest].commitFile.Some?)
            && (forall d | d in s.layers ::
                  && d in s'.layers
                  && (s.layers[d].commitFile.Some? || (forall i | 0 <= i < |layers| :: layers[i].digest != d)
                      ==> s'.layers[d] == s.layers[d]))
    decreases |layers|
  {
    if layers != [] {
      var d := layers[0].digest;
      var s1 := LinkCommit(MkLayer(s, d), d, Some(l.blobs[d].bytes));
      LayersAreLinked(s1, layers[1..], l);
      var s' := WithLayers(s1, layers[1..], l);
      forall i | 0 <= i < |layers|
        ensures layers[i].digest in s'.layers && s'.layers[layers[i].digest].commitFile.Some?
      {
        if i > 0 {
          assert layers[i] == layers[1..][i - 1];
        }
      }
    }
  }

  /** The exported directory of an image of the registry leads back to its manifest, and
      every layer descriptor of that manifest has its file. */
  lemma ExportIsComplete(s: Store, id: ContentId, remote: Digest -> Option<Blob>, enc: Encoding)
    requires Exportable(s, id, remote, enc) && Coherent(s.configs[id])
    ensures var l := ExportedLayout(s, id, remote, enc);
            var m := s.configs[id].manifest.value;
            && ReadManifest(l) == Success(ExportedManifest(m, enc))
            && HasLayers(l, m.layers)
            && (forall i | 0 <= i < |m.layers| :: l.blobs[m.layers[i].digest] ==
                  LayerBytes(SourceFile(s.layers, s.configs[id], s.configs[id].lowers[i], remote).value))
  {
    var c := s.configs[id];
    var m := c.manifest.value;
    assert forall i | 0 <= i < |c.lowers| :: c.lowers[i].digest == LowerDigests(c.lowers)[i];
    assert forall i | 0 <= i < |m.layers| :: m.layers[i].digest == LayerDigests(m.layers)[i];
    assert Documents(m, enc).Keys == DocumentDigests(m, enc);
    forall i, j | 0 <= i < j < |c.lowers| ensures c.lowers[i].digest != c.lowers[j].digest {
      assert LowerDigests(c.lowers)[i] != LowerDigests(c.lowers)[j];
    }
    BlobsAreLinked(s, c, c.lowers, remote, Documents(m, enc));
  }

  /** An image of the registry, exported and loaded again under a fresh id: the new image
      has the same layers in the same order, all of them on disk, and nothing else changed. */
  lemma ExportThenLoad(s: Store, id: ContentId, tag: string, remote: Digest -> Option<Blob>, enc: Encoding)
    requires AllBacked(s) && AllCoherent(s) && Image(tag) !in s.configs
    requires Exportable(s, id, remote, enc)
    ensures LoadLayout(s, tag, ExportedLayout(s, id, remote, enc)).Success?
    ensures var s' := LoadLayout(s, tag, ExportedLayout(s, id, remote, enc)).value;
            && Image(tag) in s'.configs
            && var copy := s'.configs[Image(tag)];
            && s'.configs == s.configs[Image(tag) := copy]
            && LowerDigests(copy.lowers) == LowerDigests(s.configs[id].lowers)
            && copy.manifest.Some?
            && copy.manifest.value.layers == s.configs[id].manifest.value.layers
            && AllBacked(s') && AllCoherent(s')
            && (forall i | 0 <= i < |copy.lowers| ::
                  copy.lowers[i].digest in s'.layers && s'.layers[copy.lowers[i].digest].commitFile.Some?)
  {
    var l := ExportedLayout(s, id, remote, enc);
    var m := ExportedManifest(s.configs[id].manifest.value, enc);
    ExportIsComplete(s, id, remote, enc);
    LoadIsCoherent(m, FROM_DISK);
    LayersAreLinked(s, m.layers, l);
    var s' := LoadLayout(s, tag, l).value;
    var copy := s'.configs[Image(tag)];
    assert LowerDigests(copy.lowers) == LayerDigests(m.layers);
    forall i | 0 <= i < |copy.lowers| ensures copy.lowers[i].digest == m.layers[i].digest {
      assert LowerDigests(copy.lowers)[i] == LayerDigests(m.layers)[i];
    }
    forall x | x in s'.configs ensures Backed(x, s'.configs[x], s'.layers, s'.containers) {
      if x != Image(tag) {
        assert Backed(x, s.configs[x], s.layers, s.containers);
      }
    }
  }

  // ---------- Bytes ----------

  function FileOf(layers: map<Digest, LayerDir>, d: Digest): Option<Blob> {
    if d in layers then layers[d].commitFile else None
  }

  /** The bytes of a lower layer: those of its file on disk, or, for a lazy layer without one, what the source
      repository serves. */
  ghost predicate HasBytes(layers: map<Digest, LayerDir>, c: Config, lower: Lower, remote: Digest -> Option<Blob>, b: Blob) {
    match lower
    case LocalLower(d, isSealed) => !isSealed && d in layers && layers[d].commitFile == Some(b)
    case LazyLower(d, _) =>
      if d in layers && layers[d].commitFile.Some? then layers[d].commitFile == Some(b)
      else if d in layers && layers[d].sealedFile.Some? then layers[d].sealedFile == Some(b)
      else c.remoteRef.Some? && remote(d) == Some(b)
  }

  /** The exported blob of every layer of the manifest has the bytes of the layer at its place in the config. */
  lemma ExportedBytes(s: Store, id: ContentId, remote: Digest -> Option<Blob>, enc: Encoding, i: nat)
    requires Exportable(s, id, remote, enc) && Coherent(s.configs[id]) && i < |s.configs[id].lowers|
    ensures var (l, c) := (ExportedLayout(s, id, remote, enc), s.configs[id]);
            && i < |c.manifest.value.layers|
            && var d := c.manifest.value.layers[i].digest;
            && c.lowers[i].digest == d && HasLayer(l, d) && HasBytes(s.layers, c, c.lowers[i], remote, l.blobs[d].bytes)
  {
    var c := s.configs[id];
    ExportIsComplete(s, id, remote, enc);
    assert LowerDigests(c.lowers)[i] == LayerDigests(c.manifest.value.layers)[i];
  }

  /** Loading a directory gives every layer without a file the bytes of its blob, and leaves the other files alone. */
  lemma {:induction false} LinkedBytes(s: Store, layers: seq<Descriptor>, l: Layout, i: nat)
    requires HasLayers(l, layers) && i < |layers|
    ensures var d := layers[i].digest;
            HasLayer(l, d) && FileOf(WithLayers(s, layers, l).layers, d)
                              == if FileOf(s.layers, d).Some? then FileOf(s.layers, d) else Some(l.blobs[d].bytes)
    decreases |layers|
  {
    var first := layers[0].digest;
    var s1 := LinkCommit(MkLayer(s, first), first, Some(l.blobs[first].bytes));
    if i > 0 {
      assert layers[1..][i - 1] == layers[i];
      LinkedBytes(s1, layers[1..], l, i - 1);
    } else {
      LayersAreLinked(s1, layers[1..], l);
    }
  }

  /** Exported and loaded again, in the same registry or in another one, a layer that the other has no file of gets the bytes
      that it had in the first. */
  lemma BytesTravel(s: Store, id: ContentId, remote: Digest -> Option<Blob>, enc: Encoding, other: Store, tag: string, i: nat)
    requires Exportable(s, id, remote, enc) && Coherent(s.configs[id]) && i < |s.configs[id].lowers|
    requires FileOf(other.layers, s.configs[id].lowers[i].digest) == None
    ensures LoadLayout(other, tag, ExportedLayout(s, id, remote, enc)).Success?
    ensures var (c, d) := (s.configs[id], s.configs[id].lowers[i].digest);
            var file := FileOf(LoadLayout(other, tag, ExportedLayout(s, id, remote, enc)).value.layers, d);
            file.Some? && HasBytes(s.layers, c, c.lowers[i], remote, file.value)
  {
    var l := ExportedLayout(s, id, remote, enc);
    var m := ExportedManifest(s.configs[id].manifest.value, enc);
    ExportIsComplete(s, id, remote, enc);
    LoadIsCoherent(m, FROM_DISK);
    ExportedBytes(s, id, remote, enc, i);
    LinkedBytes(other, m.layers, l, i);
  }
}
