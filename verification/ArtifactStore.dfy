/** The registry object over its tables and the file system (class ArtifactRegistry). */
module ArtifactStore {
  import opened Common
  import opened ArtifactRegistry
  import opened ArtifactGraph
  import opened ArtifactArchive
  import opened ArtifactOutputs
  import R = ArtifactRuns

  datatype RegisterError = NotScoped

  datatype Archival = Archival(id: nat, archiveKey: Key, applied: bool)

  class ArtifactRegistryStore {
    var artifacts: seq<Artifact>
    var relations: seq<Relation>
    var files: map<Path, string>
    /** The customer a job is associated with. */
    var scopes: map<string, string>

    ghost function Reg(): Registry
      reads this
    {
      Registry(artifacts, relations)
    }

    constructor ()
      ensures Reg() == Registry([], []) && files == map[] && scopes == map[]
    {
      artifacts, relations, files, scopes := [], [], map[], map[];
    }

    /** register_artifact without a version: one more than the greatest of the line. */
    method RegisterArtifact(outputs: Outputs, artifactType: string, key: Key, digest: Digest)
        returns (r: Result<nat, RegisterError>)
      modifies this`artifacts
      ensures r.Ok? <==> Scoped(scopes, outputs)
      ensures r.Err? ==> artifacts == old(artifacts)
      ensures r.Ok? ==> r.value == |old(artifacts)|
      ensures r.Ok? ==> artifacts == old(artifacts) + [NewArtifact(old(Reg()), outputs, artifactType, key, digest)]
      ensures r.Ok? <==> outputs.jobId in scopes && scopes[outputs.jobId] == outputs.customerId
      ensures r.Ok? ==>
        NextVersion(old(artifacts), outputs, artifactType, key, digest, artifacts[r.value])
    {
      if !(outputs.jobId in scopes && scopes[outputs.jobId] == outputs.customerId) {
        return Err(NotScoped);
      }
      NewArtifactIsNext(Reg(), outputs, artifactType, key, digest);
      var previous := Latest(artifacts, outputs.jobId, artifactType);
      var version := 1 + if previous.Some? then artifacts[previous.value].version else 0;
      r := Ok(|artifacts|);
      artifacts := artifacts + [Artifact(outputs.customerId, outputs.jobId, artifactType, version, key, digest,
                                         Some(outputs.retentionUntil), Active)];
    }

    /** One output file: an existing row with its key and content, or a new version with its supersedes relation. */
    method RegisterOne(outputs: Outputs, artifactType: string, key: Key, digest: Digest)
        returns (r: Result<nat, RegisterError>)
      modifies this`artifacts, this`relations
      ensures r.Err? <==> !Scoped(scopes, outputs) && FindFile(old(artifacts), outputs.jobId, key, digest).None?
      ensures r.Err? ==> Reg() == old(Reg())
      ensures r.Ok? ==> (Reg(), r.value) == RegisterFile(old(Reg()), outputs, artifactType, key, digest)
    {
      var existing := FindFile(artifacts, outputs.jobId, key, digest);
      if existing.Some? {
        return Ok(existing.value);
      }
      var previous := Latest(artifacts, outputs.jobId, artifactType);
      r := RegisterArtifact(outputs, artifactType, key, digest);
      if r.Ok? && previous.Some? {
        relations := relations + [Relation(previous.value, r.value, Supersedes)];
      }
    }

    /**
     * Register every output file present, then link the derivations. A job that is not associated with the customer
     * stops at its first unregistered file, before anything is written.
     */
    method RegisterOutputs(outputs: Outputs) returns (r: Result<map<string, nat>, RegisterError>)
      modifies this`artifacts, this`relations
      ensures r.Err? <==> !Scoped(scopes, outputs) && !AllKnown(old(artifacts), outputs, files)
      ensures r.Err? ==> Reg() == old(Reg())
      ensures r.Ok? ==> Reg() == Registered(old(Reg()), outputs, files)
      ensures r.Ok? ==> r.value == Scanned(old(Reg()), outputs, files, |OUTPUT_TYPES|).1
    {
      hide OUTPUT_TYPES, DERIVATIONS, RegisterFile, FindFile, OutputKey, OutputPath;
      var byType: map<string, nat>, i := map[], 0;
      while i < |OUTPUT_TYPES|
        invariant 0 <= i <= |OUTPUT_TYPES|
        invariant (Reg(), byType) == Scanned(old(Reg()), outputs, files, i)
        invariant !Scoped(scopes, outputs) ==> Reg() == old(Reg())
        invariant !Scoped(scopes, outputs) ==> forall j: nat :: j < i ==> FileKnown(old(artifacts), outputs, files, j)
      {
        var path := OutputPath(outputs, i);
        if path in files {
          var one := RegisterOne(outputs, OUTPUT_TYPES[i].1, OutputKey(outputs, i), Sha256(files[path]));
          if one.Err? {
            assert !FileKnown(old(artifacts), outputs, files, i);
            return Err(one.error);
          }
          KnownRow(old(Reg()), outputs, files, i);
          byType := byType[OUTPUT_TYPES[i].1 := one.value];
        } else {
          assert FileKnown(old(artifacts), outputs, files, i);
        }
        i := i + 1;
      }
      Link(byType);
      r := Ok(byType);
    }

    method Link(byType: map<string, nat>)
      modifies this`relations
      ensures relations == Linked(old(relations), byType, |DERIVATIONS|)
    {
      hide DERIVATIONS;
      var d := 0;
      while d < |DERIVATIONS|
        invariant 0 <= d <= |DERIVATIONS|
        invariant relations == Linked(old(relations), byType, d)
      {
        var (parent, child) := DERIVATIONS[d];
        if parent in byType && child in byType && Relation(byType[parent], byType[child], DerivedFrom) !in relations {
          relations := relations + [Relation(byType[parent], byType[child], DerivedFrom)];
        }
        d := d + 1;
      }
    }

    /** One turn of the archive loop: verify the source, copy beside the target, verify the copy, rename, update. */
    method ArchiveArtifact(roots: Roots, disk: Disk, id: nat) returns (error: Option<ArchiveError>)
      requires id < |artifacts|
      modifies this`artifacts, this`files
      ensures (Vault(artifacts, files), error) == ArchiveOne(old(Vault(artifacts, files)), roots, disk, id)
      ensures FailsAs(old(Vault(artifacts, files)), roots.active + old(artifacts)[id].key, old(artifacts)[id], id,
                      disk(id), error)
      ensures |artifacts| == |old(artifacts)|
      ensures if error.Some? then artifacts == old(artifacts)
              else artifacts == old(artifacts)[id := artifacts[id]]
                   && MovedToArchive(old(artifacts)[id], artifacts[id], id)
    {
      TurnMeans(Vault(artifacts, files), roots, disk, id);
      hide MovedToArchive, FailsAs;
      hide TargetKey, SourcePath, TargetPath, PartialPath;
      var a := artifacts[id];
      var source, temporary := SourcePath(roots, a), PartialPath(roots, a, id);
      if source !in files {
        return Some(SourceMissing(id));
      }
      if Sha256(files[source]) != a.digest {
        return Some(SourceMismatch(id));
      }
      var content := files[source];
      var copy := disk(id);
      if !copy.Faithful? {
        content := copy.content;
      }
      ghost var start := files;
      files := files[temporary := content];
      if copy.Broke? {
        return Some(CopyError(id));
      }
      assert Remove(files, temporary) == Remove(start, temporary);
      if Sha256(files[temporary]) != a.digest {
        files := Remove(files, temporary);
        return Some(ArchiveMismatch(id));
      }
      var moved := files[temporary];
      files := Remove(files, temporary)[TargetPath(roots, a, id) := moved];
      artifacts := artifacts[id := a.(key := TargetKey(a, id), status := Archived)];
      error := None;
    }

    /** Archive the due artifacts one after the other; a dry run only lists them. */
    method ArchiveDue(roots: Roots, asOf: int, apply: bool, disk: Disk)
        returns (error: Option<ArchiveError>, results: seq<Archival>)
      modifies this`artifacts, this`files
      ensures !apply ==> error.None? && artifacts == old(artifacts) && files == old(files)
      ensures apply ==>
        (Vault(artifacts, files), error)
          == ArchiveRun(old(Vault(artifacts, files)), roots, disk, Due(old(artifacts), asOf))
      ensures |artifacts| == |old(artifacts)| && OnlyExpiredMoved(old(artifacts), artifacts, asOf)
      ensures apply && error.None? ==> ExpiredMoved(old(artifacts), artifacts, asOf)
      ensures |results| <= |Due(old(artifacts), asOf)|
      ensures error.None? ==> |results| == |Due(old(artifacts), asOf)|
      ensures forall k :: 0 <= k < |results| ==>
        results[k] == ListedAs(old(artifacts), Due(old(artifacts), asOf), k, apply)
    {
      hide ArchiveOne, ArchiveRun, TargetKey, IsDue, Due, OnlyExpiredMoved, ExpiredMoved, MovedToArchive, FailsAs;
      RowsTouched(Vault(artifacts, files), roots, disk, asOf);
      ArchiveRunEmpty(Vault(artifacts, files), roots, disk);
      var due := Due(artifacts, asOf);
      results, error := [], None;
      var k := 0;
      while k < |due|
        invariant 0 <= k <= |due| && |results| == k && |artifacts| == |old(artifacts)| && error.None?
        invariant !apply ==> artifacts == old(artifacts) && files == old(files)
        invariant apply ==>
          (Vault(artifacts, files), None) == ArchiveRun(old(Vault(artifacts, files)), roots, disk, due[..k])
        invariant SameFrom(old(artifacts), artifacts, due, k)
        invariant forall i :: 0 <= i < k ==> results[i] == ListedAs(old(artifacts), due, i, apply)
      {
        var id := due[k];
        var listed := Archival(id, TargetKey(artifacts[id], id), apply);
        if apply {
          ArchiveRunStep(old(Vault(artifacts, files)), roots, disk, due, k);
          ArchiveOneTouches(Vault(artifacts, files), roots, disk, id);
          ghost var rows := artifacts;
          error := ArchiveArtifact(roots, disk, id);
          SameFromStep(old(artifacts), rows, artifacts, due, k);
          if error.Some? {
            RunStops(old(Vault(artifacts, files)), roots, disk, due, k + 1);
            return;
          }
        }
        results := results + [listed];
        k := k + 1;
        assert SameFrom(old(artifacts), artifacts, due, k);
      }
      assert due[..k] == due;
    }

    method RequestDelete(customerId: string, id: nat, reason: string) returns (r: Result<Artifact, R.DeleteError>)
      modifies this`artifacts
      ensures var change := R.StatusChange(old(artifacts), customerId, id, reason, Archived, PendingDelete);
        && (r.Ok? <==> change.Ok?) && (r.Err? ==> r.error == change.error && artifacts == old(artifacts))
        && (r.Ok? ==> artifacts == change.value && id < |artifacts| && r.value == artifacts[id])
      ensures r.Ok? ==> artifacts == old(artifacts)[id := old(artifacts)[id].(status := PendingDelete)]
      ensures r == Err(R.BlankReason) <==> Strip(reason) == []
      ensures Strip(reason) != [] ==>
        (r == Err(R.NotFound) <==> id >= |old(artifacts)| || old(artifacts)[id].customerId != customerId)
      ensures r.Ok? <==>
        && Strip(reason) != [] && id < |old(artifacts)| && old(artifacts)[id].customerId == customerId
        && old(artifacts)[id].status == Archived
    {
      hide Strip;
      r := ChangeStatus(customerId, id, reason, Archived, PendingDelete);
    }

    method CancelDelete(customerId: string, id: nat, reason: string) returns (r: Result<Artifact, R.DeleteError>)
      modifies this`artifacts
      ensures var change := R.StatusChange(old(artifacts), customerId, id, reason, PendingDelete, Archived);
        && (r.Ok? <==> change.Ok?) && (r.Err? ==> r.error == change.error && artifacts == old(artifacts))
        && (r.Ok? ==> artifacts == change.value && id < |artifacts| && r.value == artifacts[id])
      ensures r.Ok? ==> artifacts == old(artifacts)[id := old(artifacts)[id].(status := Archived)]
      ensures r == Err(R.BlankReason) <==> Strip(reason) == []
      ensures Strip(reason) != [] ==>
        (r == Err(R.NotFound) <==> id >= |old(artifacts)| || old(artifacts)[id].customerId != customerId)
      ensures r.Ok? <==>
        && Strip(reason) != [] && id < |old(artifacts)| && old(artifacts)[id].customerId == customerId
        && old(artifacts)[id].status == PendingDelete
    {
      hide Strip;
      r := ChangeStatus(customerId, id, reason, PendingDelete, Archived);
    }

    method ChangeStatus(customerId: string, id: nat, reason: string, from: ArchiveStatus, to: ArchiveStatus)
        returns (r: Result<Artifact, R.DeleteError>)
      modifies this`artifacts
      ensures var change := R.StatusChange(old(artifacts), customerId, id, reason, from, to);
        && (r.Ok? <==> change.Ok?) && (r.Err? ==> r.error == change.error && artifacts == old(artifacts))
        && (r.Ok? ==> artifacts == change.value && id < |artifacts| && r.value == artifacts[id])
    {
      hide Strip;
      if Strip(reason) == [] {
        return Err(R.BlankReason);
      }
      if id >= |artifacts| || artifacts[id].customerId != customerId {
        return Err(R.NotFound);
      }
      if artifacts[id].status != from {
        return Err(R.WrongStatus);
      }
      artifacts := artifacts[id := artifacts[id].(status := to)];
      r := Ok(artifacts[id]);
    }
  }

  /** A row that is not active, or whose retention is not over, is as it was; the others are so or archived. */
  ghost predicate OnlyExpiredMoved(before: seq<Artifact>, after: seq<Artifact>, asOf: int)
    requires |after| == |before|
  {
    forall id: nat :: id < |before| ==>
      after[id] == before[id] || (Expired(before[id], asOf) && MovedToArchive(before[id], after[id], id))
  }

  /** Every active row whose retention is over is archived. */
  ghost predicate ExpiredMoved(before: seq<Artifact>, after: seq<Artifact>, asOf: int)
    requires |after| == |before|
  {
    forall id: nat :: id < |before| && Expired(before[id], asOf) ==> MovedToArchive(before[id], after[id], id)
  }

  lemma RowsTouched(v: Vault, roots: Roots, disk: Disk, asOf: int)
    ensures OnlyExpiredMoved(v.artifacts, v.artifacts, asOf)
    ensures var (after, error) := ArchiveRun(v, roots, disk, Due(v.artifacts, asOf));
      && |after.artifacts| == |v.artifacts| && OnlyExpiredMoved(v.artifacts, after.artifacts, asOf)
      && (error.None? ==> ExpiredMoved(v.artifacts, after.artifacts, asOf))
  {
    hide ArchiveRun, Due, Expired, MovedToArchive;
    forall id: nat | id < |v.artifacts|
      ensures var (after, error) := ArchiveRun(v, roots, disk, Due(v.artifacts, asOf));
        && (!Expired(v.artifacts[id], asOf) ==> after.artifacts[id] == v.artifacts[id])
        && (after.artifacts[id] == v.artifacts[id] || MovedToArchive(v.artifacts[id], after.artifacts[id], id))
        && (error.None? && Expired(v.artifacts[id], asOf) ==>
              MovedToArchive(v.artifacts[id], after.artifacts[id], id))
    {
      ArchivingTouches(v, roots, disk, asOf, id);
    }
  }

  predicate Scoped(scopes: map<string, string>, outputs: Outputs) {
    outputs.jobId in scopes && scopes[outputs.jobId] == outputs.customerId
  }

  function ListedAs(artifacts: seq<Artifact>, due: seq<nat>, k: nat, apply: bool): Archival
    requires k < |due| && due[k] < |artifacts|
  {
    Archival(due[k], TargetKey(artifacts[due[k]], due[k]), apply)
  }

  /** A row found for a file is not registered again. */
  lemma KnownRow(reg: Registry, outputs: Outputs, files: map<Path, string>, i: nat)
    requires i < |OUTPUT_TYPES|
    ensures FileKnown(reg.artifacts, outputs, files, i) && OutputPath(outputs, i) in files ==>
      RegisterFile(reg, outputs, OUTPUT_TYPES[i].1, OutputKey(outputs, i), Sha256(files[OutputPath(outputs, i)])).0
        == reg
  {
    hide OUTPUT_TYPES;
  }

  lemma ArchiveOneTouches(v: Vault, roots: Roots, disk: Disk, id: nat)
    requires id < |v.artifacts|
    ensures var after := ArchiveOne(v, roots, disk, id).0;
      |after.artifacts| == |v.artifacts| && forall j: nat :: j < |v.artifacts| && j != id ==>
        after.artifacts[j] == v.artifacts[j]
  {
  }

  /** The due rows from position k on are still as they were. */
  ghost predicate SameFrom(before: seq<Artifact>, after: seq<Artifact>, due: seq<nat>, k: nat)
    requires |before| == |after| && forall i :: 0 <= i < |due| ==> due[i] < |before|
  {
    forall i :: k <= i < |due| ==> after[due[i]] == before[due[i]]
  }

  lemma SameFromStep(first: seq<Artifact>, before: seq<Artifact>, after: seq<Artifact>, due: seq<nat>, k: nat)
    requires |first| == |before| == |after| && forall i :: 0 <= i < |due| ==> due[i] < |first|
    requires k < |due| && SameFrom(first, before, due, k)
    requires forall i, j :: 0 <= i < j < |due| ==> due[i] < due[j]
    requires forall j: nat :: j < |before| && j != due[k] ==> after[j] == before[j]
    ensures SameFrom(first, after, due, k + 1)
  {
  }

  lemma ArchiveRunEmpty(v: Vault, roots: Roots, disk: Disk)
    ensures ArchiveRun(v, roots, disk, []) == (v, None)
  {
  }

  lemma ArchiveRunStep(v: Vault, roots: Roots, disk: Disk, due: seq<nat>, k: nat)
    requires k < |due| && forall i :: 0 <= i < |due| ==> due[i] < |v.artifacts|
    requires ArchiveRun(v, roots, disk, due[..k]).1.None?
    ensures ArchiveRun(v, roots, disk, due[..k + 1])
      == ArchiveOne(ArchiveRun(v, roots, disk, due[..k]).0, roots, disk, due[k])
  {
    hide ArchiveOne;
    assert due[..k + 1][..k] == due[..k];
  }

  /** After an exception the rest of the due list is not looked at. */
  lemma {:induction false} RunStops(v: Vault, roots: Roots, disk: Disk, due: seq<nat>, k: nat)
    requires k <= |due| && forall i :: 0 <= i < |due| ==> due[i] < |v.artifacts|
    requires ArchiveRun(v, roots, disk, due[..k]).1.Some?
    ensures ArchiveRun(v, roots, disk, due) == ArchiveRun(v, roots, disk, due[..k])
  {
    hide ArchiveOne;
    if k == |due| {
      assert due[..k] == due;
    } else {
      var n := |due| - 1;
      assert due[..n][..k] == due[..k];
      RunStops(v, roots, disk, due[..n], k);
    }
  }
}
