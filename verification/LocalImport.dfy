/** The preview of a local import, the keys of its intents, and its confirmation. */
module LocalImport {
  import opened Basics
  import opened Choosing

  /** A scanned file. Its snapshot hash is the fact itself, as hashes are free constructors. */
  datatype LocalFileFact = LocalFileFact(
    path: string, sizeBytes: nat, sha256: string, mimeType: string, device: nat, inode: nat, modifiedNs: nat,
        changedNs: nat)

  datatype LocalError =
    | DuplicateMedia | SnapshotDiffers | IntentConflict | ConfirmationUnverified | ConfirmationFailed

  // ---------------------------------------------------------------- preview

  predicate Unknown(fact: LocalFileFact, paths: set<string>, hashes: set<string>) {
    fact.path !in paths && fact.sha256 !in hashes
  }

  /** The first file of its content among those that are not stored yet. */
  predicate FirstOfItsKind(facts: seq<LocalFileFact>, i: nat, paths: set<string>, hashes: set<string>)
    requires i < |facts|
  {
    && Unknown(facts[i], paths, hashes)
    && forall j :: 0 <= j < i && Unknown(facts[j], paths, hashes) ==> facts[j].sha256 != facts[i].sha256
  }

  function PathsOf(facts: seq<LocalFileFact>): seq<string> {
    seq(|facts|, i requires 0 <= i < |facts| => facts[i].path)
  }

  ghost function First(facts: seq<LocalFileFact>, paths: set<string>, hashes: set<string>): int -> bool {
    i => 0 <= i < |facts| && FirstOfItsKind(facts, i, paths, hashes)
  }

  /** The hashes that the loop has remembered after n files. */
  ghost predicate Remembered(seen: set<string>, facts: seq<LocalFileFact>, n: nat, paths: set<string>,
                             hashes: set<string>)
    requires n <= |facts|
  {
    forall h :: h in seen <==> exists j :: 0 <= j < n && Unknown(facts[j], paths, hashes) && facts[j].sha256 == h
  }

  /** Files with stored path or content, and repetitions, are duplicates; the rest can be imported. */
  method BuildPreview(facts: seq<LocalFileFact>, existingPaths: set<string>, existingHashes: set<string>)
    returns (r: Result<(seq<LocalFileFact>, seq<string>), LocalError>)
    ensures r.Err? <==> forall i :: 0 <= i < |facts| ==> !FirstOfItsKind(facts, i, existingPaths, existingHashes)
    ensures r.Err? ==> r.error == DuplicateMedia
    ensures r.Ok? ==>
              var first := First(facts, existingPaths, existingHashes);
              && r.value.0 == Chosen(facts, |facts|, first, true)
              && r.value.1 == PathsOf(Chosen(facts, |facts|, first, false))
  {
    ghost var first := First(facts, existingPaths, existingHashes);
    var importable: seq<LocalFileFact>, duplicates: seq<string> := [], [];
    var selectedHashes: set<string> := {};
    for i := 0 to |facts|
      invariant importable == Chosen(facts, i, first, true)
      invariant duplicates == PathsOf(Chosen(facts, i, first, false))
      invariant Remembered(selectedHashes, facts, i, existingPaths, existingHashes)
      invariant importable == []
                <==> forall j :: 0 <= j < i ==> !FirstOfItsKind(facts, j, existingPaths, existingHashes)
    {
      var fact := facts[i];
      if fact.path in existingPaths || fact.sha256 in existingHashes || fact.sha256 in selectedHashes {
        assert !FirstOfItsKind(facts, i, existingPaths, existingHashes);
        duplicates := duplicates + [fact.path];
      } else {
        assert FirstOfItsKind(facts, i, existingPaths, existingHashes);
        selectedHashes := selectedHashes + {fact.sha256};
        importable := importable + [fact];
      }
    }
    if importable == [] {
      return Err(DuplicateMedia);
    }
    return Ok((importable, duplicates));
  }

  /** Importable files and duplicates together are the selected files. */
  lemma PreviewPartitions(facts: seq<LocalFileFact>, paths: set<string>, hashes: set<string>)
    ensures var first := First(facts, paths, hashes);
            multiset(Chosen(facts, |facts|, first, true)) + multiset(Chosen(facts, |facts|, first, false)) ==
                multiset(facts)
  {
    ChoicePartitions(facts, First(facts, paths, hashes));
  }

  /** What can be imported has pairwise different contents, none of them stored, and no new content is lost. */
  lemma ImportableIsFresh(facts: seq<LocalFileFact>, paths: set<string>, hashes: set<string>)
    ensures var chosen := Chosen(facts, |facts|, First(facts, paths, hashes), true);
            && (forall k, l :: 0 <= k < l < |chosen| ==> chosen[k].sha256 != chosen[l].sha256)
            && (forall k :: 0 <= k < |chosen| ==> Unknown(chosen[k], paths, hashes))
            && (forall i :: 0 <= i < |facts| && Unknown(facts[i], paths, hashes) ==>
                  exists k :: 0 <= k < |chosen| && chosen[k].sha256 == facts[i].sha256)
  {
    var first := First(facts, paths, hashes);
    var chosen := Chosen(facts, |facts|, first, true);
    forall k, l | 0 <= k < l < |chosen|
      ensures chosen[k].sha256 != chosen[l].sha256
    {
      var i := ChosenComesFrom(facts, |facts|, first, k);
      var j := ChosenComesFrom(facts, |facts|, first, l);
      if j <= i {
        ChosenGrows(facts, j, i, first);
      }
    }
    forall k | 0 <= k < |chosen|
      ensures Unknown(chosen[k], paths, hashes)
    {
      var i := ChosenComesFrom(facts, |facts|, first, k);
    }
    forall i | 0 <= i < |facts| && Unknown(facts[i], paths, hashes)
      ensures exists k :: 0 <= k < |chosen| && chosen[k].sha256 == facts[i].sha256
    {
      var j := EarliestTwin(facts, i, paths, hashes);
      var k := PositionOf(facts, |facts|, first, j);
    }
  }

  lemma {:induction false} EarliestTwin(facts: seq<LocalFileFact>, i: nat, paths: set<string>,
                                        hashes: set<string>) returns (j: nat)
    requires i < |facts| && Unknown(facts[i], paths, hashes)
    ensures j <= i && FirstOfItsKind(facts, j, paths, hashes) && facts[j].sha256 == facts[i].sha256
    decreases i
  {
    if FirstOfItsKind(facts, i, paths, hashes) {
      j := i;
    } else {
      var k :| 0 <= k < i && Unknown(facts[k], paths, hashes) && facts[k].sha256 == facts[i].sha256;
      j := EarliestTwin(facts, k, paths, hashes);
    }
  }
}
