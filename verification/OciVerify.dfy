/**
 verifyDescriptorTree and validateOCILayout (internal/offline/registry.go:266-357):
 a recursive walk that marks a digest before it descends, so it ends on every
 finite store, cyclic ones included.
 */
module OciVerify {
  import opened Wrappers
  import opened OciLayout

  datatype VerifyError =
    | UnreadableBlob(digest: Digest)
    | BadIndex(digest: Digest)
    | BadManifest(digest: Digest)
    | BadConfig(digest: Digest)
    | UnsupportedMedia(media: MediaType)

  class Verifier {
    const store: Store
    var visited: set<Digest>
    var platforms: set<Platform>
    ghost var expanded: set<Descriptor>  // the descriptors whose digests were marked

    constructor (store: Store)
      ensures this.store == store && visited == {} && platforms == {} && expanded == {}
    {
      this.store := store;
      visited, platforms, expanded := {}, {}, {};
    }

    /**
     Everything expanded is sound, and everything expanded outside the walk's
     current stack has all its children marked.
     */
    ghost predicate Valid(stack: set<Descriptor>)
      reads this
    {
      && visited == (set d | d in expanded :: d.digest)
      && stack <= expanded
      && (forall d | d in stack :: IsIndex(d.media))
      && (forall d | d in expanded :: Good(store, d))
      && (forall d, c | d in expanded - stack && c in Children(store, d) :: c.digest in visited)
      && (forall d | d in expanded :: PlatformOf(store, d) <= platforms)
      && (forall p | p in platforms :: exists d :: d in expanded && p in PlatformOf(store, d))
    }

    /** What a walk from `d` may have added. */
    twostate predicate Walked(d: Descriptor)
      reads this
    {
      && old(expanded) <= expanded && old(visited) <= visited
      && (forall e | e in expanded - old(expanded) :: Reachable(store, d, e))
    }

    method VerifyDescriptorTree(d: Descriptor, ghost stack: set<Descriptor>) returns (error: Option<VerifyError>)
      requires Valid(stack)
      modifies this
      ensures error.None? ==> Valid(stack) && d.digest in visited && Walked(d)
      ensures error.None? ==> d in expanded || d.digest in old(visited)
      ensures error.Some? ==> exists e :: Reachable(store, d, e) && !Good(store, e)
      decreases store.Keys - visited, 1
    {
      ReachableSelf(store, d);
      if d.digest in visited {
        return None;
      }
      if !Readable(store, d) {
        return Some(UnreadableBlob(d.digest));
      }
      var blob := store[d.digest];
      visited := visited + {d.digest};
      if IsIndex(d.media) {
        if blob.index.None? {
          return Some(BadIndex(d.digest));
        }
        expanded := expanded + {d};
        error := VerifyChildren(d, blob.index.value, stack);
      } else if IsManifest(d.media) {
        if blob.manifest.None? {
          return Some(BadManifest(d.digest));
        }
        error := VerifyManifest(blob.manifest.value);
        if error.None? {
          expanded := expanded + {d};
          platforms := platforms + PlatformOf(store, d);
        }
      } else {
        return Some(UnsupportedMedia(d.media));
      }
    }

    /** The loop over an index's entries, with the index itself still on the stack. */
    method VerifyChildren(d: Descriptor, children: seq<Descriptor>, ghost stack: set<Descriptor>)
      returns (error: Option<VerifyError>)
      requires Valid(stack + {d}) && d !in stack && d in expanded && children == Children(store, d)
      modifies this
      ensures error.None? ==> Valid(stack) && Walked(d) && d in expanded
      ensures error.Some? ==> exists e :: Reachable(store, d, e) && !Good(store, e)
      decreases store.Keys - visited, 2
    {
      for i := 0 to |children|
        invariant Valid(stack + {d}) && Walked(d)
        invariant forall j | 0 <= j < i :: children[j].digest in visited
      {
        label before:
        error := VerifyDescriptorTree(children[i], stack + {d});
        if error.Some? {
          ghost var e :| Reachable(store, children[i], e) && !Good(store, e);
          ReachableChild(store, d, children[i], e);
          return;
        }
        forall e | e in expanded - old(expanded) ensures Reachable(store, d, e) {
          if e !in old@before(expanded) {
            ReachableChild(store, d, children[i], e);
          }
        }
      }
      return None;
    }

    /** The config and the layers of a manifest are read; the config must name both os and architecture or neither. */
    method VerifyManifest(manifest: Manifest) returns (error: Option<VerifyError>)
      ensures error.None? <==> GoodManifest(store, manifest)
    {
      if !Readable(store, manifest.config) {
        return Some(UnreadableBlob(manifest.config.digest));
      }
      var config := store[manifest.config.digest].config;
      if config.None? {
        return Some(BadConfig(manifest.config.digest));
      }
      if config.value.os != "" || config.value.architecture != "" {
        if config.value.os == "" || config.value.architecture == "" {
          return Some(BadConfig(manifest.config.digest));
        }
      }
      for i := 0 to |manifest.layers|
        invariant forall j | 0 <= j < i :: Readable(store, manifest.layers[j])
      {
        if !Readable(store, manifest.layers[i]) {
          return Some(UnreadableBlob(manifest.layers[i].digest));
        }
      }
      return None;
    }
  }

  /**
   A finished walk from the root has expanded exactly the descriptors reachable
   from it, when equal digests mean equal descriptors.
   */
  lemma FinishedWalkIsReachability(store: Store, root: Descriptor, expanded: set<Descriptor>)
    requires OneDescriptorPerDigest(store, root)
    requires forall d | d in expanded :: Reachable(store, root, d)
    requires exists d :: d in expanded && d.digest == root.digest
    requires forall d, c | d in expanded && c in Children(store, d) :: exists e :: e in expanded && e.digest == c.digest
    ensures forall d :: d in expanded <==> Reachable(store, root, d)
  {
    ReachableSelf(store, root);
    forall d, c | d in expanded && c in Children(store, d) ensures c in expanded {
      ReachableThen(store, root, d, c);
      var e :| e in expanded && e.digest == c.digest;
    }
    forall d | Reachable(store, root, d) ensures d in expanded {
      var p :| IsPath(store, p) && p[0] == root && p[|p| - 1] == d;
      ClosedContainsReachable(store, expanded, p);
    }
  }

  /** The files of a layout besides its blobs: the declared version and, if it decodes, the list of root descriptors. */
  datatype LayoutFiles = LayoutFiles(version: string, roots: Option<seq<Descriptor>>)

  predicate OneRoot(files: LayoutFiles, locked: Digest) {
    files.version == "1.0.0" && files.roots.Some? && |files.roots.value| == 1 && files.roots.value[0].digest == locked
  }

  /** The file a descriptor names is there and has its size. */
  predicate IsThere(store: Store, d: Descriptor) { d.digest in store && store[d.digest].size == d.size }

  /** A listed file: an index, or an image manifest with its config and layers; a config names its whole platform or none. */
  predicate Intact(store: Store, d: Descriptor) {
    && IsThere(store, d)
    && match d.media
       case OciIndex => store[d.digest].index.Some?
       case DockerList => store[d.digest].index.Some?
       case OciManifest => store[d.digest].manifest.Some? && IntactImage(store, store[d.digest].manifest.value)
       case DockerManifest => store[d.digest].manifest.Some? && IntactImage(store, store[d.digest].manifest.value)
       case OtherMedia(_) => false
  }

  predicate IntactImage(store: Store, m: Manifest) {
    && IsThere(store, m.config) && store[m.config.digest].config.Some?
    && (store[m.config.digest].config.value.os != "" <==> store[m.config.digest].config.value.architecture != "")
    && forall layer | layer in m.layers :: IsThere(store, layer)
  }

  /** The config of the image manifest names this operating system and architecture. */
  predicate Declares(store: Store, d: Descriptor, platform: Platform) {
    && d.media in {OciManifest, DockerManifest} && d.digest in store && store[d.digest].manifest.Some?
    && var config := store[d.digest].manifest.value.config.digest;
       platform.0 != "" && config in store && store[config].config == Some(ImageConfig(platform.0, platform.1))
  }

  /** What validateOCILayout promises: everything reachable is intact and the declared platforms are the locked ones, each listed once. */
  ghost predicate AcceptableLayout(files: LayoutFiles, store: Store, locked: Digest, expected: seq<Platform>) {
    && OneRoot(files, locked)
    && (forall d | Reachable(store, files.roots.value[0], d) :: Intact(store, d))
    && exists platforms: set<Platform> :: Declared(store, files.roots.value[0], platforms) && multiset(platforms) == multiset(expected)
  }

  ghost predicate Declared(store: Store, root: Descriptor, platforms: set<Platform>) {
    forall platform :: platform in platforms <==> exists d :: Reachable(store, root, d) && Declares(store, d, platform)
  }

  lemma GoodIffIntact(store: Store, d: Descriptor)
    ensures Good(store, d) <==> Intact(store, d)
  {
  }

  lemma ContributesWhatItDeclares(store: Store, d: Descriptor, platform: Platform)
    requires Good(store, d)
    ensures platform in PlatformOf(store, d) <==> Declares(store, d, platform)
  {
  }

  lemma AllGoodIffIntact(store: Store, root: Descriptor)
    ensures AllGood(store, root) <==> forall d | Reachable(store, root, d) :: Intact(store, d)
  {
    hide Good, Intact, Reachable;
    forall d
      ensures Good(store, d) <==> Intact(store, d)
    {
      GoodIffIntact(store, d);
    }
  }

  lemma PlatformsAreDeclared(store: Store, root: Descriptor, platforms: set<Platform>)
    requires AllGood(store, root)
    ensures PlatformsOfReachable(store, root, platforms) <==> Declared(store, root, platforms)
  {
    hide Good, Reachable, PlatformOf, Declares;
    forall d, platform | Reachable(store, root, d)
      ensures platform in PlatformOf(store, d) <==> Declares(store, d, platform)
    {
      ContributesWhatItDeclares(store, d, platform);
    }
  }

  /** What an index lists is reachable wherever the index is. */
  lemma ListedIsReachable(store: Store, root: Descriptor, d: Descriptor, c: Descriptor)
    requires Reachable(store, root, d) && d.media in {OciIndex, DockerList} && IsThere(store, d)
    requires store[d.digest].index.Some? && c in store[d.digest].index.value
    ensures Reachable(store, root, c)
  {
    ReachableThen(store, root, d, c);
  }

  /** And nothing else is, apart from the root. */
  lemma ReachableIsListed(store: Store, root: Descriptor, c: Descriptor)
    requires Reachable(store, root, c) && c != root
    ensures exists d :: Reachable(store, root, d) && d.media in {OciIndex, DockerList} && d.digest in store
              && store[d.digest].index.Some? && c in store[d.digest].index.value
  {
    var p :| IsPath(store, p) && p[0] == root && p[|p| - 1] == c;
    var n := |p| - 1;
    assert p[n - 1 + 1] in Children(store, p[n - 1]);
    PrefixIsPath(store, p);
    assert p[..n][n - 1] == p[n - 1] && Reachable(store, root, p[n - 1]);
  }

  /**
   What acceptance means even where one digest is listed by several descriptors: some
   reachable descriptors, the root among them, are sound, the digests of all they list
   are theirs, and their platforms are the locked ones.
   */
  ghost predicate Checked(store: Store, root: Descriptor, checked: set<Descriptor>, expected: seq<Platform>) {
    && root in checked
    && (forall d | d in checked :: Reachable(store, root, d) && Good(store, d))
    && (forall d, c | d in checked && c in Children(store, d) :: c.digest in Digests(checked))
    && exists platforms: set<Platform> :: multiset(platforms) == multiset(expected) && PlatformsOf(store, checked, platforms)
  }

  ghost predicate PlatformsOf(store: Store, checked: set<Descriptor>, platforms: set<Platform>)
    requires forall d | d in checked :: Good(store, d)
  {
    && (forall d | d in checked :: PlatformOf(store, d) <= platforms)
    && (forall p | p in platforms :: exists d :: d in checked && p in PlatformOf(store, d))
  }

  function Digests(descriptors: set<Descriptor>): set<Digest> { set d | d in descriptors :: d.digest }

  /** No digest is listed both as an index and as something else. */
  ghost predicate IndexAgreement(store: Store, root: Descriptor) {
    forall d, e | Reachable(store, root, d) && Reachable(store, root, e) && d.digest == e.digest :: IsIndex(d.media) == IsIndex(e.media)
  }

  lemma ChildIsChecked(store: Store, root: Descriptor, checked: set<Descriptor>, expected: seq<Platform>, d: Descriptor, c: Descriptor)
    requires Checked(store, root, checked, expected) && IndexAgreement(store, root)
    requires Reachable(store, root, d) && d.digest in Digests(checked) && c in Children(store, d)
    ensures c.digest in Digests(checked)
  {
    hide Reachable;
    var e :| e in checked && e.digest == d.digest;
    assert Children(store, e) == Children(store, d);
  }

  /** Then the checked digests are all the reachable ones. */
  lemma {:induction false} CheckedCoversReachable(store: Store, root: Descriptor, checked: set<Descriptor>, expected: seq<Platform>, p: seq<Descriptor>)
    requires Checked(store, root, checked, expected) && IndexAgreement(store, root)
    requires IsPath(store, p) && p[0] == root
    ensures p[|p| - 1].digest in Digests(checked)
    decreases |p|
  {
    hide IndexAgreement, Children;
    if |p| == 1 {
      RootIsChecked(store, root, checked, expected);
    } else {
      hide Checked, Digests;
      var n := |p| - 1;
      PrefixIsPath(store, p);
      CheckedCoversReachable(store, root, checked, expected, p[..n]);
      assert Reachable(store, root, p[n - 1]);
      assert p[n - 1 + 1] in Children(store, p[n - 1]);
      ChildIsChecked(store, root, checked, expected, p[n - 1], p[n]);
    }
  }

  lemma ReachableIsChecked(store: Store, root: Descriptor, checked: set<Descriptor>, expected: seq<Platform>)
    requires Checked(store, root, checked, expected) && IndexAgreement(store, root)
    ensures forall d | Reachable(store, root, d) :: d.digest in Digests(checked)
  {
    hide Checked, IndexAgreement, Digests;
    forall d | Reachable(store, root, d)
      ensures d.digest in Digests(checked)
    {
      var p :| IsPath(store, p) && p[0] == root && p[|p| - 1] == d;
      CheckedCoversReachable(store, root, checked, expected, p);
    }
  }

  lemma RootIsChecked(store: Store, root: Descriptor, checked: set<Descriptor>, expected: seq<Platform>)
    requires Checked(store, root, checked, expected)
    ensures root.digest in Digests(checked)
  {
  }

  lemma PrefixIsPath(store: Store, p: seq<Descriptor>)
    requires IsPath(store, p) && |p| > 1
    ensures IsPath(store, p[..|p| - 1])
  {
    hide Children;
    var before := p[..|p| - 1];
    forall i | 0 <= i < |before| - 1
      ensures before[i + 1] in Children(store, before[i])
    {
      assert before[i] == p[i] && before[i + 1] == p[i + 1];
    }
  }

  lemma PlatformsAreUnique(store: Store, root: Descriptor, p: set<Platform>, q: set<Platform>)
    requires AllGood(store, root) && PlatformsOfReachable(store, root, p) && PlatformsOfReachable(store, root, q)
    ensures p == q
  {
  }

  method ValidateOciLayout(files: LayoutFiles, store: Store, locked: Digest, expected: seq<Platform>)
    returns (accepted: bool)
    ensures OneRoot(files, locked) && OneDescriptorPerDigest(store, files.roots.value[0]) ==>
              (accepted <==> AcceptableLayout(files, store, locked, expected))
    ensures !OneRoot(files, locked) ==> !accepted
    ensures accepted ==> exists checked :: Checked(store, files.roots.value[0], checked, expected)
    ensures accepted && IndexAgreement(store, files.roots.value[0]) ==>
              exists checked :: Checked(store, files.roots.value[0], checked, expected)
                && forall d | Reachable(store, files.roots.value[0], d) :: d.digest in Digests(checked)
  {
    hide Good, Intact, Declared, Children, Reachable, PlatformOf, IndexAgreement;
    if files.version != "1.0.0" || files.roots.None? || |files.roots.value| != 1 || files.roots.value[0].digest != locked {
      return false;
    }
    var root := files.roots.value[0];
    AllGoodIffIntact(store, root);
    var verifier := new Verifier(store);
    var error := verifier.VerifyDescriptorTree(root, {});
    if error.Some? {
      return false;
    }
    accepted := multiset(verifier.platforms) == multiset(expected);
    if accepted {
      assert PlatformsOf(store, verifier.expanded, verifier.platforms);
      assert Checked(store, root, verifier.expanded, expected);
      if IndexAgreement(store, root) {
        ReachableIsChecked(store, root, verifier.expanded, expected);
      }
    }
    if OneDescriptorPerDigest(store, root) {
      FinishedWalkIsReachability(store, root, verifier.expanded);
      assert PlatformsOfReachable(store, root, verifier.platforms);
      forall p: set<Platform> | Declared(store, root, p) ensures p == verifier.platforms {
        PlatformsAreDeclared(store, root, p);
        PlatformsAreUnique(store, root, p, verifier.platforms);
      }
      PlatformsAreDeclared(store, root, verifier.platforms);
    }
  }
}
