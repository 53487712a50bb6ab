/**
 Import, pushDescriptor and pushBlob (internal/offline/registry.go:83-245): children
 and blobs go up before the manifest that lists them, and the tag goes last. Every
 request may be refused, may be lost, or may take effect although it reports failure;
 `history` records the registry after each request, so a property of all of `history`
 also holds after a crash at any point.
 */
module OciImport {
  import opened Wrappers
  import opened OciLayout
  import OciVerify

  datatype Held = Held(media: MediaType, blob: Blob)

  datatype Registry = Registry(blobs: set<Digest>, manifests: map<Digest, Held>, tags: map<string, Digest>)

  function ListedBlobs(h: Held): set<Digest> {
    if IsManifest(h.media) && h.blob.manifest.Some?
    then set b | b in Blobs(h.blob.manifest.value) :: b.digest
    else {}
  }

  function ListedChildren(h: Held): set<Digest> {
    if IsIndex(h.media) && h.blob.index.Some?
    then set c | c in h.blob.index.value :: c.digest
    else {}
  }

  predicate Supported(registry: Registry, h: Held) {
    ListedBlobs(h) <= registry.blobs && ListedChildren(h) <= registry.manifests.Keys
  }

  /** Every manifest or index the registry holds has all its listed blobs and children, and tags do not dangle. */
  ghost predicate Closed(registry: Registry) {
    && (forall g | g in registry.manifests :: Supported(registry, registry.manifests[g]))
    && (forall t | t in registry.tags :: registry.tags[t] in registry.manifests)
  }

  /** The registry holds `d` as the layout has it, with every blob it lists. */
  predicate Present(registry: Registry, store: Store, d: Descriptor)
    requires d.digest in store
  {
    && d.digest in registry.manifests
    && registry.manifests[d.digest] == Held(d.media, store[d.digest])
    && Supported(registry, registry.manifests[d.digest])
  }

  ghost predicate AllPresent(registry: Registry, store: Store, pushed: set<Descriptor>) {
    forall d | d in pushed :: d.digest in store && Present(registry, store, d)
  }

  predicate Grown(before: Registry, after: Registry) {
    && before.blobs <= after.blobs
    && before.manifests.Keys <= after.manifests.Keys
  }

  /** References lead to strictly smaller ranks: what content addressing gives when no two blobs collide. */
  ghost predicate Ranked(store: Store, rank: Digest -> nat) {
    forall d, c | c in Children(store, d) :: rank(c.digest) < rank(d.digest)
  }

  datatype ImportError = Rejected | LocalBlob(digest: Digest) | LocalDecode(digest: Digest) | LocalMedia | Remote

  class Importer {
    const store: Store
    var registry: Registry
    var visited: set<Digest>
    var uploadedBlobs: nat
    var skippedBlobs: nat
    var manifests: nat
    ghost var history: seq<Registry>
    ghost var failures: nat  // requests that failed, whether or not they took effect
    ghost var pushed: set<Descriptor>  // the descriptors whose digests are in `visited`

    constructor (store: Store, registry: Registry)
      ensures this.store == store && this.registry == registry && history == [registry]
      ensures visited == {} && pushed == {} && manifests == 0 && failures == 0
    {
      this.store, this.registry, history := store, registry, [registry];
      visited, pushed := {}, {};
      uploadedBlobs, skippedBlobs, manifests, failures := 0, 0, 0, 0;
    }

    /** After every request so far the registry was closed and no tag had moved. */
    ghost predicate HistoryOk()
      reads this
    {
      && history != [] && history[|history| - 1] == registry
      && (forall r | r in history :: Closed(r) && r.tags == history[0].tags)
    }

    ghost predicate Valid()
      reads this
    {
      && HistoryOk()
      && visited == (set d | d in pushed :: d.digest)
      && manifests == |visited|
      && AllPresent(registry, store, pushed)
      && (forall d, c | d in pushed && c in Children(store, d) :: c.digest in visited)
    }

    /** What a push of `d` may have added. */
    twostate predicate Progress(d: Descriptor, rank: Digest -> nat)
      reads this
    {
      && old(pushed) <= pushed && old(visited) <= visited && old(history) <= history
      && Grown(old(registry), registry)
      && (forall e | e in pushed - old(pushed) :: Reachable(store, d, e))
      && (forall g | g in visited - old(visited) :: rank(g) <= rank(d.digest))
    }

    // ---------------------------------------------------------------- requests

    method Record(next: Registry)
      requires HistoryOk() && Closed(next) && next.tags == registry.tags
      modifies this`registry, this`history, this`failures
      ensures HistoryOk() && registry == next && history == old(history) + [next] && failures == old(failures)
    {
      registry := next;
      history := history + [next];
    }

    method HeadBlob(digest: Digest) returns (found: Option<bool>)
      modifies this`failures
      ensures found.Some? ==> (found.value <==> digest in registry.blobs)
      ensures failures == old(failures) + if found.None? then 1 else 0
    {
      if * {
        failures := failures + 1;
        return None;
      }
      return Some(digest in registry.blobs);
    }

    method PutBlob(digest: Digest) returns (ok: bool)
      requires HistoryOk()
      modifies this`registry, this`history, this`failures
      ensures HistoryOk() && old(history) <= history
      ensures Grown(old(registry), registry) && registry.manifests == old(registry.manifests)
      ensures ok ==> digest in registry.blobs
      ensures failures == old(failures) + if ok then 0 else 1
    {
      if * {
        failures := failures + 1;
        return false;
      }
      Record(registry.(blobs := registry.blobs + {digest}));
      ok := *;
      if !ok {
        failures := failures + 1;
      }
    }

    /** Legal only when everything the manifest lists is already there. */
    method PutManifest(d: Descriptor) returns (ok: bool)
      requires HistoryOk() && d.digest in store && Supported(registry, Held(d.media, store[d.digest]))
      modifies this`registry, this`history, this`failures
      ensures HistoryOk() && old(history) <= history && Grown(old(registry), registry)
      ensures registry.manifests == old(registry.manifests)
        || registry.manifests == old(registry.manifests)[d.digest := Held(d.media, store[d.digest])]
      ensures ok ==> Present(registry, store, d)
      ensures failures == old(failures) + if ok then 0 else 1
    {
      if * {
        failures := failures + 1;
        return false;
      }
      var next := registry.(manifests := registry.manifests[d.digest := Held(d.media, store[d.digest])]);
      StillClosed(registry, d.digest, Held(d.media, store[d.digest]));
      Record(next);
      ok := *;
      if !ok {
        failures := failures + 1;
      }
    }

    /** The last request of an import: the root manifest under the tag. */
    method PutTag(tag: string, root: Descriptor) returns (ok: bool)
      requires Valid() && root in pushed
      modifies this`registry, this`history, this`failures, this`manifests
      ensures ok ==> registry.tags == old(registry.tags)[tag := root.digest]
      ensures registry == old(registry) || registry == old(registry).(tags := old(registry.tags)[tag := root.digest])
      ensures (history == old(history) && registry == old(registry)) || history == old(history) + [registry]
      ensures Closed(registry)
      ensures manifests == if ok then old(manifests) + 1 else old(manifests)
      ensures failures == old(failures) + if ok then 0 else 1
    {
      ok := false;
      if * {
        failures := failures + 1;
        return;
      }
      StillClosed(registry, root.digest, registry.manifests[root.digest]);
      registry := registry.(tags := registry.tags[tag := root.digest]);
      history := history + [registry];
      ok := *;
      if ok {
        manifests := manifests + 1;
      } else {
        failures := failures + 1;
      }
    }

    // ---------------------------------------------------------------- the push

    method PushBlob(b: Descriptor) returns (error: Option<ImportError>)
      requires Valid()
      modifies this`registry, this`history, this`failures, this`uploadedBlobs, this`skippedBlobs
      ensures Valid() && old(history) <= history
      ensures Grown(old(registry), registry) && registry.manifests == old(registry.manifests)
      ensures error.None? ==> b.digest in registry.blobs
      ensures error.None? ==> uploadedBlobs + skippedBlobs == old(uploadedBlobs + skippedBlobs) + 1
      ensures error.None? ==> (skippedBlobs == old(skippedBlobs) + 1 <==> b.digest in old(registry.blobs))
      ensures b.digest in old(registry.blobs) ==> registry == old(registry) && history == old(history)
      ensures error.Some? && error.value != Remote ==> !Readable(store, b)
      ensures old(failures) <= failures && (error == Some(Remote) ==> old(failures) < failures)
    {
      if !Readable(store, b) {
        return Some(LocalBlob(b.digest));
      }
      var found := HeadBlob(b.digest);
      if found.None? {
        return Some(Remote);
      }
      if found.value {
        skippedBlobs := skippedBlobs + 1;
        return None;
      }
      var ok := PutBlob(b.digest);
      if !ok {
        return Some(Remote);
      }
      uploadedBlobs := uploadedBlobs + 1;
      return None;
    }

    method PushDescriptor(d: Descriptor, ghost rank: Digest -> nat) returns (r: Result<Blob, ImportError>)
      requires Valid() && Ranked(store, rank)
      modifies this
      ensures HistoryOk() && Progress(d, rank)
      ensures r.Success? ==> Valid() && d.digest in visited && Readable(store, d) && r.value == store[d.digest]
      ensures r.Success? ==> d in pushed || d.digest in old(visited)
      ensures r.Failure? && r.error != Remote ==> exists e :: Reachable(store, d, e) && !Good(store, e)
      ensures old(failures) <= failures && (r == Failure(Remote) ==> old(failures) < failures)
      decreases rank(d.digest), 2
    {
      hide AllPresent, Closed, Supported, Children, Reachable, Good, Ranked, IsIndex, IsManifest;
      ReachableSelf(store, d);
      if !Readable(store, d) {
        assert !Good(store, d) by {
          UnreadableIsBad(store, d);
        }
        return Failure(LocalBlob(d.digest));
      }
      if d.digest in visited {
        return Success(store[d.digest]);
      }
      var error := PushContent(d, rank);
      if error.Some? {
        return Failure(error.value);
      }
      var ok := Publish(d);
      return if ok then Success(store[d.digest]) else Failure(Remote);
    }

    /** Everything a descriptor lists goes up, by the kind of its media type. */
    method PushContent(d: Descriptor, ghost rank: Digest -> nat) returns (error: Option<ImportError>)
      requires Valid() && Ranked(store, rank)
      requires d.digest !in visited && Readable(store, d)
      modifies this
      ensures HistoryOk() && Progress(d, rank)
      ensures error.None? ==> Valid() && d.digest !in visited
      ensures error.None? ==> Supported(registry, Held(d.media, store[d.digest]))
      ensures error.None? ==> forall c | c in Children(store, d) :: c.digest in visited
      ensures error.Some? && error.value != Remote ==> exists e :: Reachable(store, d, e) && !Good(store, e)
      ensures old(failures) <= failures && (error == Some(Remote) ==> old(failures) < failures)
      decreases rank(d.digest), 1
    {
      ReachableSelf(store, d);
      var payload := store[d.digest];
      if IsIndex(d.media) {
        if payload.index.None? {
          return Some(LocalDecode(d.digest));
        }
        error := PushChildren(d, payload.index.value, rank);
      } else if IsManifest(d.media) {
        if payload.manifest.None? {
          return Some(LocalDecode(d.digest));
        }
        error := PushBlobs(d, payload.manifest.value, rank);
      } else {
        return Some(LocalMedia);
      }
    }

    /** Puts the manifest whose listed content is all there, and marks its digest. */
    method Publish(d: Descriptor) returns (ok: bool)
      requires Valid() && d.digest !in visited && d.digest in store
      requires Supported(registry, Held(d.media, store[d.digest]))
      requires forall c | c in Children(store, d) :: c.digest in visited
      modifies this`registry, this`history, this`failures, this`manifests, this`visited, this`pushed
      ensures HistoryOk() && old(history) <= history && Grown(old(registry), registry)
      ensures if ok then Valid() && visited == old(visited) + {d.digest} && pushed == old(pushed) + {d}
              else visited == old(visited) && pushed == old(pushed)
      ensures old(failures) <= failures && (!ok ==> old(failures) < failures)
    {
      hide Closed, Supported, ListedBlobs, ListedChildren, Children, Present, AllPresent;
      ok := PutManifest(d);
      if ok {
        PublishedIsPresent(old(registry), registry, store, old(pushed), d);
        manifests := manifests + 1;
        visited := visited + {d.digest};
        pushed := pushed + {d};
      }
    }

    /** One entry of the index `d`: what its push added is also reachable from, and ranked below, `d`. */
    method PushChild(d: Descriptor, child: Descriptor, ghost rank: Digest -> nat) returns (error: Option<ImportError>)
      requires Valid() && Ranked(store, rank) && d.digest !in visited && child in Children(store, d)
      modifies this
      ensures HistoryOk() && Progress(d, rank)
      ensures error.None? ==> Valid() && d.digest !in visited && child.digest in visited
      ensures error.Some? && error.value != Remote ==> exists e :: Reachable(store, d, e) && !Good(store, e)
      ensures old(failures) <= failures && (error == Some(Remote) ==> old(failures) < failures)
      decreases rank(d.digest), 0, 0
    {
      hide AllPresent, Closed, Good, Readable, Supported;
      var r := PushDescriptor(child, rank);
      forall e | e in pushed - old(pushed) ensures Reachable(store, d, e) {
        ReachableChild(store, d, child, e);
      }
      if r.Success? {
        return None;
      }
      if r.error != Remote {
        ghost var e :| Reachable(store, child, e) && !Good(store, e);
        ReachableChild(store, d, child, e);
      }
      return Some(r.error);
    }

    /** The loop over an index's entries. */
    method PushChildren(d: Descriptor, children: seq<Descriptor>, ghost rank: Digest -> nat)
      returns (error: Option<ImportError>)
      requires Valid() && Ranked(store, rank)
      requires d.digest !in visited && children == Children(store, d)
      modifies this
      ensures HistoryOk() && Progress(d, rank)
      ensures error.None? ==> Valid() && d.digest !in visited
      ensures error.None? ==> forall c | c in children :: c.digest in visited
      ensures error.Some? && error.value != Remote ==> exists e :: Reachable(store, d, e) && !Good(store, e)
      ensures old(failures) <= failures && (error == Some(Remote) ==> old(failures) < failures)
      decreases rank(d.digest), 0, 1
    {
      hide AllPresent, Closed, Reachable, Good, Supported, Children, Ranked;
      for i := 0 to |children|
        invariant Valid() && Progress(d, rank) && old(failures) <= failures
        invariant d.digest !in visited
        invariant forall j | 0 <= j < i :: children[j].digest in visited
      {
        error := PushChild(d, children[i], rank);
        if error.Some? {
          return;
        }
      }
      return None;
    }

    /** The loop over a manifest's config and layers. */
    method PushBlobs(d: Descriptor, manifest: Manifest, ghost rank: Digest -> nat) returns (error: Option<ImportError>)
      requires Valid() && IsManifest(d.media) && Readable(store, d) && store[d.digest].manifest == Some(manifest)
      modifies this`registry, this`history, this`failures, this`uploadedBlobs, this`skippedBlobs
      ensures Valid() && Progress(d, rank)
      ensures error.None? ==> HasContents(registry.blobs, manifest) && forall b | b in Blobs(manifest) :: b.digest in registry.blobs
      ensures error.None? ==> uploadedBlobs + skippedBlobs == old(uploadedBlobs + skippedBlobs) + 1 + |manifest.layers|
      ensures error.Some? && error.value != Remote ==> exists e :: Reachable(store, d, e) && !Good(store, e)
      ensures old(failures) <= failures && (error == Some(Remote) ==> old(failures) < failures)
    {
      hide AllPresent, Closed, Supported, Reachable, Good, Present, HasContents, Blobs;
      var blobs := Blobs(manifest);
      for i := 0 to |blobs|
        invariant Valid() && Grown(old(registry), registry) && old(history) <= history && old(failures) <= failures
        invariant forall j | 0 <= j < i :: blobs[j].digest in registry.blobs
        invariant uploadedBlobs + skippedBlobs == old(uploadedBlobs + skippedBlobs) + i
      {
        error := PushBlob(blobs[i]);
        if error.Some? {
          if error.value != Remote {
            UnreadableBlobIsBad(store, d, manifest, i);
          }
          return;
        }
      }
      BlobsAreTheContents(registry.blobs, manifest);
      return None;
    }
  }

  lemma BlobsAreTheContents(blobs: set<Digest>, manifest: Manifest)
    ensures |Blobs(manifest)| == 1 + |manifest.layers|
    ensures (forall b | b in Blobs(manifest) :: b.digest in blobs) ==> HasContents(blobs, manifest)
  {
    assert manifest.config in Blobs(manifest) && forall layer | layer in manifest.layers :: layer in Blobs(manifest);
  }

  lemma PublishedIsPresent(before: Registry, after: Registry, store: Store, pushed: set<Descriptor>, d: Descriptor)
    requires Grown(before, after) && AllPresent(before, store, pushed)
    requires d.digest in store && Present(after, store, d) && forall e | e in pushed :: e.digest != d.digest
    requires after.manifests == before.manifests
      || after.manifests == before.manifests[d.digest := Held(d.media, store[d.digest])]
    ensures AllPresent(after, store, pushed + {d})
  {
  }

  lemma UnreadableBlobIsBad(store: Store, d: Descriptor, manifest: Manifest, i: nat)
    requires IsManifest(d.media) && Readable(store, d) && store[d.digest].manifest == Some(manifest)
    requires i < |Blobs(manifest)| && !Readable(store, Blobs(manifest)[i])
    ensures Reachable(store, d, d) && !Good(store, d)
  {
    ReachableSelf(store, d);
    assert Blobs(manifest)[i] == manifest.config || Blobs(manifest)[i] in manifest.layers;
  }

  lemma UnreadableIsBad(store: Store, d: Descriptor)
    requires !Readable(store, d)
    ensures !Good(store, d)
  {
  }

  lemma PresentStays(before: Registry, after: Registry, store: Store, pushed: set<Descriptor>)
    requires AllPresent(before, store, pushed) && after.blobs == before.blobs && after.manifests == before.manifests
    ensures AllPresent(after, store, pushed)
  {
  }

  lemma StillClosed(registry: Registry, digest: Digest, h: Held)
    requires Closed(registry) && Supported(registry, h)
    ensures Closed(registry.(manifests := registry.manifests[digest := h]))
  {
  }

  ghost predicate IsReachableDigests(store: Store, root: Descriptor, digests: set<Digest>) {
    forall g :: g in digests <==> exists d :: Reachable(store, root, d) && d.digest == g
  }

  /** The config and every layer of an image manifest are among the blobs. */
  predicate HasContents(blobs: set<Digest>, m: Manifest) {
    m.config.digest in blobs && forall layer | layer in m.layers :: layer.digest in blobs
  }

  /** Of what the registry holds, no config, layer, listed manifest or tagged manifest is missing. */
  ghost predicate NothingMissing(registry: Registry) {
    && (forall g | g in registry.manifests :: NothingMissingFor(registry, registry.manifests[g]))
    && (forall t | t in registry.tags :: registry.tags[t] in registry.manifests)
  }

  predicate NothingMissingFor(registry: Registry, h: Held) {
    && (h.media in {OciManifest, DockerManifest} && h.blob.manifest.Some? ==> HasContents(registry.blobs, h.blob.manifest.value))
    && (h.media in {OciIndex, DockerList} && h.blob.index.Some? ==> forall c | c in h.blob.index.value :: c.digest in registry.manifests)
  }

  lemma SupportedIff(registry: Registry, h: Held)
    ensures Supported(registry, h) <==> NothingMissingFor(registry, h)
  {
    if h.media in {OciManifest, DockerManifest} && h.blob.manifest.Some? {
      var m := h.blob.manifest.value;
      assert m.config in Blobs(m) && forall layer | layer in m.layers :: layer in Blobs(m);
      assert forall b | b in Blobs(m) :: b == m.config || b in m.layers;
      assert forall b | b in Blobs(m) :: b.digest in ListedBlobs(h);
    }
    if h.media in {OciIndex, DockerList} && h.blob.index.Some? {
      assert forall c | c in h.blob.index.value :: c.digest in ListedChildren(h);
    }
  }

  lemma ClosedIffNothingMissing(registry: Registry)
    ensures Closed(registry) <==> NothingMissing(registry)
  {
    hide Supported, NothingMissingFor;
    forall g | g in registry.manifests
      ensures Supported(registry, registry.manifests[g]) <==> NothingMissingFor(registry, registry.manifests[g])
    {
      SupportedIff(registry, registry.manifests[g]);
    }
  }

  /** Everything reachable from the root is in the registry as the layout has it, every manifest with its config and layers. */
  ghost predicate WholeClosurePresent(registry: Registry, store: Store, root: Descriptor) {
    forall d | Reachable(store, root, d) ::
      && d.digest in store && d.digest in registry.manifests && registry.manifests[d.digest] == Held(d.media, store[d.digest])
      && NothingMissingFor(registry, Held(d.media, store[d.digest]))
  }

  lemma PushedIsWholeClosure(registry: Registry, store: Store, root: Descriptor, pushed: set<Descriptor>)
    requires AllPresent(registry, store, pushed) && forall d :: d in pushed <==> Reachable(store, root, d)
    ensures WholeClosurePresent(registry, store, root)
  {
    hide Supported, NothingMissingFor, Reachable;
    forall d | Reachable(store, root, d)
      ensures d.digest in store && Present(registry, store, d) && NothingMissingFor(registry, Held(d.media, store[d.digest]))
    {
      SupportedIff(registry, Held(d.media, store[d.digest]));
    }
  }

  lemma HistoryMissesNothing(history: seq<Registry>)
    requires forall r | r in history :: Closed(r)
    ensures forall r | r in history :: NothingMissing(r)
  {
    hide Closed, NothingMissing;
    forall r | r in history
      ensures NothingMissing(r)
    {
      ClosedIffNothingMissing(r);
    }
  }

  /** In no registry of the history is anything missing, and none before the last one has moved a tag. */
  ghost predicate SafeHistory(history: seq<Registry>, start: Registry, end: Registry) {
    && history != [] && history[0] == start && history[|history| - 1] == end
    && (forall r | r in history :: NothingMissing(r))
    && (forall r | r in history[..|history| - 1] :: r.tags == start.tags)
  }

  /**
   Import of one locked image into a registry that misses nothing. It misses nothing after
   every request, so also after a crash; the tag moves last. With one descriptor per
   digest, an acceptable layout is never refused for a local reason, and success
   means the whole closure of the root is there and each manifest was sent once.
   */
  method Import(files: OciVerify.LayoutFiles, store: Store, locked: Digest, expected: seq<Platform>, tag: string,
                start: Registry, ghost rank: Digest -> nat)
    returns (error: Option<ImportError>, end: Registry, manifests: nat, ghost history: seq<Registry>, ghost failures: nat)
    requires NothingMissing(start) && Ranked(store, rank)
    ensures SafeHistory(history, start, end)
    ensures error.None? ==> end.tags == start.tags[tag := locked]
    ensures error.Some? ==> end.tags == start.tags || end.tags == start.tags[tag := locked]
    ensures error.None? ==> OciVerify.OneRoot(files, locked)
    ensures error == Some(Remote) ==> failures > 0
    ensures OciVerify.OneRoot(files, locked) && OneDescriptorPerDigest(store, files.roots.value[0]) ==>
              var root := files.roots.value[0];
              && (error == Some(Rejected) <==> !OciVerify.AcceptableLayout(files, store, locked, expected))
              && (error.Some? ==> error.value == Rejected || error.value == Remote)
              && (OciVerify.AcceptableLayout(files, store, locked, expected) && failures == 0 ==> error.None?)
              && (error.None? ==> WholeClosurePresent(end, store, root))
              && (error.None? ==> exists digests :: IsReachableDigests(store, root, digests) && manifests == |digests| + 1)
  {
    hide Supported, ListedBlobs, ListedChildren, Good, Reachable, Ranked, Closed, NothingMissing, WholeClosurePresent, OciVerify.Intact, OciVerify.Declared, OciVerify.Checked, OciVerify.IndexAgreement;
    history := [start];
    ClosedIffNothingMissing(start);
    var accepted := OciVerify.ValidateOciLayout(files, store, locked, expected);
    if !accepted {
      return Some(Rejected), start, 0, history, 0;
    }
    var root := files.roots.value[0];
    var importer := new Importer(store, start);
    var payload := importer.PushDescriptor(root, rank);
    end, history := importer.registry, importer.history;
    assert history[0] == start;
    HistoryMissesNothing(history);
    if payload.Failure? {
      OciVerify.AllGoodIffIntact(store, root);
      return Some(payload.error), end, 0, history, importer.failures;
    }
    ghost var pushed, before := importer.pushed, importer.history;
    ghost var visited := importer.visited;
    if OneDescriptorPerDigest(store, root) {
      ReachableSelf(store, root);
      OciVerify.FinishedWalkIsReachability(store, root, pushed);
      assert IsReachableDigests(store, root, visited);
    }
    var ok := importer.PutTag(tag, root);
    end, history := importer.registry, importer.history;
    HistoryMissesNothing(history);
    if OneDescriptorPerDigest(store, root) {
      PresentStays(before[|before| - 1], end, store, pushed);
      PushedIsWholeClosure(end, store, root, pushed);
    }
    manifests := importer.manifests;
    return if ok then None else Some(Remote), end, manifests, history, importer.failures;
  }
}
