/**
 The Velero StorageClass mappings of every run share one ConfigMap
 (internal/adapter/kubernetes/execution.go). Each run owns one annotation, and
 `data` must be the merge of all owners. Writes are guarded by resourceVersion.

 An annotation key is either some run's key (the hash of the run ID, taken to be
 collision-free) or an unrelated one; an annotation value either decodes to a
 mapping or does not.
 */
module StorageMappings {
  import opened Wrappers

  type Mapping = map<string, string>

  datatype AnnotationKey = RunKey(run: string) | OtherKey(name: string)

  datatype AnnotationValue = Encoded(mappings: Mapping) | Undecodable(text: string)

  type Annotations = map<AnnotationKey, AnnotationValue>

  // ---------------------------------------------------------------- merging

  /** `k` is the annotation of a run, it decodes, and its mapping names `source`. */
  predicate Owns(a: Annotations, k: AnnotationKey, source: string) {
    k in a && k.RunKey? && a[k].Encoded? && source in a[k].mappings
  }

  predicate Decodable(a: Annotations) {
    forall k | k in a && k.RunKey? :: a[k].Encoded?
  }

  ghost predicate Agree(a: Annotations) {
    forall j, k, s | Owns(a, j, s) && Owns(a, k, s) :: a[j].mappings[s] == a[k].mappings[s]
  }

  ghost predicate Mergeable(a: Annotations) {
    Decodable(a) && Agree(a)
  }

  /** `m` holds every owner's entries and nothing else. */
  ghost predicate IsUnion(a: Annotations, m: Mapping) {
    && (forall k, s | Owns(a, k, s) :: s in m && m[s] == a[k].mappings[s])
    && (forall s | s in m :: exists k :: Owns(a, k, s))
  }

  ghost function Union(a: Annotations): (m: Mapping)
    requires Mergeable(a)
    ensures IsUnion(a, m)
  {
    var sources := set k, s | k in a && k.RunKey? && a[k].Encoded? && s in a[k].mappings :: s;
    map s | s in sources :: (var k :| Owns(a, k, s); a[k].mappings[s])
  }

  lemma UnionIsUnique(a: Annotations, m: Mapping, n: Mapping)
    requires IsUnion(a, m) && IsUnion(a, n)
    ensures m == n
  {
  }

  datatype MergeError = UndecodableOwner(key: AnnotationKey) | Disagreement(source: string)

  /**
   The merge loop. Both loops take the entries in an arbitrary order, as ranging
   over a Go map does, so the contract holds for every enumeration order.
   */
  method MergeStorageMappingOwners(annotations: Annotations) returns (r: Result<Mapping, MergeError>)
    ensures r.Success? <==> Mergeable(annotations)
    ensures r.Success? ==> r.value == Union(annotations)
    ensures r.Failure? && r.error.UndecodableOwner? ==>
              var k := r.error.key; k in annotations && k.RunKey? && annotations[k].Undecodable?
    ensures r.Failure? && r.error.Disagreement? ==>
              exists j, k :: Owns(annotations, j, r.error.source) && Owns(annotations, k, r.error.source)
                && annotations[j].mappings[r.error.source] != annotations[k].mappings[r.error.source]
  {
    var merged: Mapping := map[];
    var keys := annotations.Keys;
    ghost var part: Annotations := map[];
    while keys != {}
      invariant keys <= annotations.Keys
      invariant part == map k | k in annotations && k !in keys :: annotations[k]
      invariant Mergeable(part) && IsUnion(part, merged)
    {
      var key :| key in keys;
      keys := keys - {key};
      if key.OtherKey? {
        ghost var next := part[key := annotations[key]];
        assert forall k, s :: Owns(next, k, s) <==> Owns(part, k, s);
        part := next;
        continue;
      }
      if annotations[key].Undecodable? {
        return Failure(UndecodableOwner(key));
      }
      var mappings := annotations[key].mappings;
      merged, r := MergeOneOwner(part, key, mappings, merged);
      if r.Failure? {
        ghost var s := r.error.source;
        ghost var j :| Owns(part, j, s) && part[j].mappings[s] != mappings[s];
        assert Owns(annotations, j, s) && Owns(annotations, key, s);
        return;
      }
      part := part[key := Encoded(mappings)];
    }
    assert part == annotations;
    UnionIsUnique(annotations, merged, Union(annotations));
    return Success(merged);
  }

  /** What the entries of one more owner, taken so far, add to the merge of `part`. */
  ghost predicate PartlyMerged(part: Annotations, mappings: Mapping, left: set<string>, merged: Mapping) {
    && (forall k, s | Owns(part, k, s) :: s in merged && merged[s] == part[k].mappings[s])
    && (forall s | s in mappings && s !in left :: s in merged && merged[s] == mappings[s])
    && (forall s | s in merged :: (exists k :: Owns(part, k, s)) || (s in mappings && s !in left))
  }

  lemma OwnerMerged(part: Annotations, key: AnnotationKey, mappings: Mapping, merged: Mapping)
    requires key.RunKey? && key !in part && Mergeable(part)
    requires PartlyMerged(part, mappings, {}, merged)
    ensures Mergeable(part[key := Encoded(mappings)])
    ensures IsUnion(part[key := Encoded(mappings)], merged)
  {
    var all := part[key := Encoded(mappings)];
    forall k, s
      ensures Owns(all, k, s) <==> Owns(part, k, s) || (k == key && s in mappings)
    {
    }
    forall k, s | Owns(all, k, s) ensures s in merged && merged[s] == all[k].mappings[s] {
    }
    forall s | s in merged ensures exists k :: Owns(all, k, s) {
      if k :| Owns(part, k, s) {
        assert Owns(all, k, s);
      } else {
        assert Owns(all, key, s);
      }
    }
  }

  lemma OneMoreEntry(part: Annotations, mappings: Mapping, left: set<string>, merged: Mapping, source: string)
    requires PartlyMerged(part, mappings, left, merged) && source in left && left <= mappings.Keys
    requires source in merged ==> merged[source] == mappings[source]
    ensures PartlyMerged(part, mappings, left - {source}, merged[source := mappings[source]])
  {
  }

  /** The inner loop: one owner's entries go into the map merged so far. */
  method MergeOneOwner(ghost part: Annotations, key: AnnotationKey, mappings: Mapping, before: Mapping)
    returns (merged: Mapping, r: Result<Mapping, MergeError>)
    requires key.RunKey? && key !in part && Mergeable(part) && IsUnion(part, before)
    ensures r.Success? ==> Mergeable(part[key := Encoded(mappings)])
    ensures r.Success? ==> IsUnion(part[key := Encoded(mappings)], merged)
    ensures r.Failure? ==> r.error.Disagreement? && r.error.source in mappings
    ensures r.Failure? ==>
              exists j :: Owns(part, j, r.error.source) && part[j].mappings[r.error.source] != mappings[r.error.source]
  {
    merged := before;
    var sources := mappings.Keys;
    while sources != {}
      invariant sources <= mappings.Keys
      invariant PartlyMerged(part, mappings, sources, merged)
    {
      var source :| source in sources;
      var target := mappings[source];
      if source in merged && merged[source] != target {
        ghost var j :| Owns(part, j, source);
        return merged, Failure(Disagreement(source));
      }
      OneMoreEntry(part, mappings, sources, merged, source);
      merged := merged[source := target];
      sources := sources - {source};
    }
    OwnerMerged(part, key, mappings, merged);
    return merged, Success(merged);
  }
}
