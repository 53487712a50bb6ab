/**
 An OCI image layout as internal/offline/registry.go reads it. A blob file is known
 by its digest; a file whose content does not hash to its name is not in the store
 (readOCIBlob rejects it). The same bytes may decode as an index, a manifest or an
 image config; the descriptor's media type decides which decoding is used.
 */
module OciLayout {
  import opened Wrappers

  type Digest = string

  datatype MediaType = OciIndex | DockerList | OciManifest | DockerManifest | OtherMedia(name: string)

  datatype Descriptor = Descriptor(media: MediaType, digest: Digest, size: int)

  datatype Manifest = Manifest(config: Descriptor, layers: seq<Descriptor>)

  datatype ImageConfig = ImageConfig(os: string, architecture: string)

  /** The three decodings a blob may have; None where it does not decode or is not schemaVersion 2. */
  datatype Blob = Blob(size: nat, index: Option<seq<Descriptor>>, manifest: Option<Manifest>, config: Option<ImageConfig>)

  type Store = map<Digest, Blob>

  type Platform = (string, string)

  predicate IsIndex(media: MediaType) { media.OciIndex? || media.DockerList? }

  predicate IsManifest(media: MediaType) { media.OciManifest? || media.DockerManifest? }

  /** readOCIBlob succeeds. */
  predicate Readable(store: Store, d: Descriptor) {
    d.digest in store && store[d.digest].size == d.size
  }

  /** The descriptors an index descriptor leads to. */
  function Children(store: Store, d: Descriptor): seq<Descriptor> {
    if IsIndex(d.media) && Readable(store, d) && store[d.digest].index.Some? then store[d.digest].index.value else []
  }

  /** The config and layers of a manifest, in the order they are pushed. */
  function Blobs(manifest: Manifest): seq<Descriptor> {
    [manifest.config] + manifest.layers
  }

  predicate CompletePlatform(config: ImageConfig) {
    (config.os == "") == (config.architecture == "")
  }

  predicate GoodManifest(store: Store, m: Manifest) {
    && Readable(store, m.config)
    && store[m.config.digest].config.Some?
    && CompletePlatform(store[m.config.digest].config.value)
    && forall layer | layer in m.layers :: Readable(store, layer)
  }

  /** Verification of this one descriptor, apart from its children, succeeds. */
  predicate Good(store: Store, d: Descriptor) {
    && Readable(store, d)
    && (IsIndex(d.media) ==> store[d.digest].index.Some?)
    && (IsManifest(d.media) ==>
          && store[d.digest].manifest.Some?
          && GoodManifest(store, store[d.digest].manifest.value))
    && (IsIndex(d.media) || IsManifest(d.media))
  }

  /** The platform a manifest contributes, if any. */
  function PlatformOf(store: Store, d: Descriptor): set<Platform>
    requires Good(store, d)
  {
    if IsManifest(d.media) then
      var config := store[store[d.digest].manifest.value.config.digest].config.value;
      if config.os == "" then {} else {(config.os, config.architecture)}
    else {}
  }

  // ---------------------------------------------------------------- reachability

  predicate IsPath(store: Store, p: seq<Descriptor>) {
    p != [] && forall i | 0 <= i < |p| - 1 :: p[i + 1] in Children(store, p[i])
  }

  ghost predicate Reachable(store: Store, from: Descriptor, to: Descriptor) {
    exists p :: IsPath(store, p) && p[0] == from && p[|p| - 1] == to
  }

  lemma ReachableSelf(store: Store, d: Descriptor)
    ensures Reachable(store, d, d)
  {
    assert IsPath(store, [d]);
  }

  lemma ReachableChild(store: Store, d: Descriptor, child: Descriptor, to: Descriptor)
    requires child in Children(store, d) && Reachable(store, child, to)
    ensures Reachable(store, d, to)
  {
    var p :| IsPath(store, p) && p[0] == child && p[|p| - 1] == to;
    var q := [d] + p;
    forall i | 0 <= i < |q| - 1 ensures q[i + 1] in Children(store, q[i]) {
      if i > 0 {
        assert q[i] == p[i - 1] && q[i + 1] == p[i];
      }
    }
    assert IsPath(store, q);
  }

  lemma ReachableThen(store: Store, from: Descriptor, d: Descriptor, child: Descriptor)
    requires Reachable(store, from, d) && child in Children(store, d)
    ensures Reachable(store, from, child)
  {
    var p :| IsPath(store, p) && p[0] == from && p[|p| - 1] == d;
    var q := p + [child];
    forall i | 0 <= i < |q| - 1 ensures q[i + 1] in Children(store, q[i]) {
      if i < |p| - 1 {
        assert q[i] == p[i] && q[i + 1] == p[i + 1];
      }
    }
    assert IsPath(store, q);
  }

  /** A set that contains a descriptor and is closed under children contains everything reachable from it. */
  lemma {:induction false} ClosedContainsReachable(store: Store, closed: set<Descriptor>, p: seq<Descriptor>)
    requires IsPath(store, p) && p[0] in closed
    requires forall d, c | d in closed && c in Children(store, d) :: c in closed
    ensures p[|p| - 1] in closed
    decreases |p|
  {
    if |p| > 1 {
      assert IsPath(store, p[1..]) by {
        forall i | 0 <= i < |p[1..]| - 1 ensures p[1..][i + 1] in Children(store, p[1..][i]) {
          assert p[1..][i] == p[i + 1] && p[1..][i + 1] == p[i + 2];
        }
      }
      assert p[0 + 1] in Children(store, p[0]);
      ClosedContainsReachable(store, closed, p[1..]);
    }
  }

  /** Descriptors reachable from the root that name the same digest are the same descriptor. */
  ghost predicate OneDescriptorPerDigest(store: Store, root: Descriptor) {
    forall d, e | Reachable(store, root, d) && Reachable(store, root, e) && d.digest == e.digest :: d == e
  }

  ghost predicate AllGood(store: Store, root: Descriptor) {
    forall d | Reachable(store, root, d) :: Good(store, d)
  }

  /** `platforms` is exactly what the reachable manifests contribute. */
  ghost predicate PlatformsOfReachable(store: Store, root: Descriptor, platforms: set<Platform>)
    requires AllGood(store, root)
  {
    && (forall d | Reachable(store, root, d) :: PlatformOf(store, d) <= platforms)
    && (forall p | p in platforms :: exists d :: Reachable(store, root, d) && p in PlatformOf(store, d))
  }
}
