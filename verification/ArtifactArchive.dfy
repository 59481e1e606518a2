/** Copy-verify archiving over a file map, and delete requests (archive_due, request_delete, cancel_delete). */
module ArtifactArchive {
  import opened Common
  import opened ArtifactRegistry

  datatype Roots = Roots(active: Path, archive: Path)

  datatype Vault = Vault(artifacts: seq<Artifact>, files: map<Path, string>)

  datatype ArchiveError =
    | SourceMissing(id: nat)
    | SourceMismatch(id: nat)
    | CopyError(id: nat)
    | ArchiveMismatch(id: nat)

  /** What copying the source of an artifact did: all of it, other bytes, or an exception after some bytes. */
  datatype Copy = Faithful | Wrote(content: string) | Broke(content: string)

  type Disk = nat -> Copy

  function LastPart(key: Key): string {
    if key == [] then "" else key[|key| - 1]
  }

  function TargetKey(a: Artifact, id: nat): Key {
    ["artifacts", a.customerId, a.jobId, Decimal(id), LastPart(a.key)]
  }

  function TargetPath(roots: Roots, a: Artifact, id: nat): Path {
    roots.archive + TargetKey(a, id)
  }

  function PartialPath(roots: Roots, a: Artifact, id: nat): Path {
    roots.archive + ["artifacts", a.customerId, a.jobId, Decimal(id), LastPart(a.key) + ".partial"]
  }

  /** The archive tree below the archive root. */
  predicate InTree(roots: Roots, path: Path) {
    roots.archive + ["artifacts"] <= path
  }

  function SourcePath(roots: Roots, a: Artifact): Path {
    roots.active + a.key
  }

  predicate IsDue(a: Artifact, asOf: int) {
    a.status == Active && a.retentionUntil.Some? && a.retentionUntil.value <= asOf
  }

  /** The due artifacts, oldest first. */
  function Due(artifacts: seq<Artifact>, asOf: int): (r: seq<nat>)
    ensures forall k :: 0 <= k < |r| ==> r[k] < |artifacts|
    ensures forall id: nat :: id in r <==> id < |artifacts| && IsDue(artifacts[id], asOf)
    ensures forall i, j :: 0 <= i < j < |r| ==> r[i] < r[j]
  {
    if artifacts == [] then []
    else
      var n := |artifacts| - 1;
      var before := Due(artifacts[..n], asOf);
      if IsDue(artifacts[n], asOf) then before + [n] else before
  }

  function ArchivedRow(a: Artifact, id: nat): Artifact {
    a.(key := TargetKey(a, id), status := Archived)
  }

  function Remove(files: map<Path, string>, path: Path): map<Path, string> {
    map p | p in files && p != path :: files[p]
  }

  // ----- One artifact -----

  function ArchiveOne(v: Vault, roots: Roots, disk: Disk, id: nat): (Vault, Option<ArchiveError>)
    requires id < |v.artifacts|
  {
    var a := v.artifacts[id];
    var source, temporary, target := SourcePath(roots, a), PartialPath(roots, a, id), TargetPath(roots, a, id);
    if source !in v.files then (v, Some(SourceMissing(id)))
    else if Sha256(v.files[source]) != a.digest then (v, Some(SourceMismatch(id)))
    else if disk(id).Broke? then (v.(files := v.files[temporary := disk(id).content]), Some(CopyError(id)))
    else
      var copied := if disk(id).Wrote? then disk(id).content else v.files[source];
      if Sha256(copied) != a.digest then (v.(files := Remove(v.files, temporary)), Some(ArchiveMismatch(id)))
      else (Vault(v.artifacts[id := ArchivedRow(a, id)], Remove(v.files, temporary)[target := copied]), None)
  }

  /** The loop over the due artifacts; an exception ends it. */
  function ArchiveRun(v: Vault, roots: Roots, disk: Disk, due: seq<nat>): (r: (Vault, Option<ArchiveError>))
    requires forall k :: 0 <= k < |due| ==> due[k] < |v.artifacts|
    ensures |r.0.artifacts| == |v.artifacts|
  {
    if due == [] then (v, None)
    else
      var n := |due| - 1;
      var (before, error) := ArchiveRun(v, roots, disk, due[..n]);
      if error.Some? then (before, error) else ArchiveOne(before, roots, disk, due[n])
  }

  // ----- Paths -----

  lemma InsideTree(roots: Roots, a: Artifact, id: nat)
    ensures InTree(roots, TargetPath(roots, a, id)) && InTree(roots, PartialPath(roots, a, id))
  {
    assert TargetPath(roots, a, id)[..|roots.archive| + 1] == roots.archive + ["artifacts"];
    assert PartialPath(roots, a, id)[..|roots.archive| + 1] == roots.archive + ["artifacts"];
  }

  /** No target or temporary file of one artifact is a target of another. */
  lemma TargetsApart(roots: Roots, a: Artifact, i: nat, b: Artifact, j: nat)
    requires i != j
    ensures TargetPath(roots, a, i) != TargetPath(roots, b, j)
    ensures PartialPath(roots, a, i) != TargetPath(roots, b, j)
  {
    var k := |roots.archive| + 3;
    assert TargetPath(roots, a, i)[k] == Decimal(i) && PartialPath(roots, a, i)[k] == Decimal(i);
    assert TargetPath(roots, b, j)[k] == Decimal(j);
    if Decimal(i) == Decimal(j) {
      DecimalInjective(i, j);
    }
  }

  lemma PartialIsNotTarget(roots: Roots, a: Artifact, id: nat)
    ensures PartialPath(roots, a, id) != TargetPath(roots, a, id)
  {
    var k := |roots.archive| + 4;
    assert |PartialPath(roots, a, id)[k]| == |TargetPath(roots, a, id)[k]| + 8;
  }

  // ----- What the loop does -----

  /** The file of an archived row is where its key says, with the registered content. */
  predicate Safe(artifacts: seq<Artifact>, files: map<Path, string>, roots: Roots, id: nat)
    requires id < |artifacts|
  {
    var a := artifacts[id];
    && a.key == TargetKey(a, id)
    && TargetPath(roots, a, id) in files && Sha256(files[TargetPath(roots, a, id)]) == a.digest
  }

  predicate Kept(status: ArchiveStatus) {
    status == Archived || status == PendingDelete
  }

  ghost predicate VaultInv(v: Vault, roots: Roots) {
    forall id: nat :: id < |v.artifacts| && Kept(v.artifacts[id].status) ==> Safe(v.artifacts, v.files, roots, id)
  }

  /** Files outside the archive tree are as they were. */
  ghost predicate OutsideUnchanged(roots: Roots, files: map<Path, string>, files': map<Path, string>) {
    forall p :: !InTree(roots, p) ==> (p in files' <==> p in files) && (p in files ==> files'[p] == files[p])
  }

  /** The rows of done are archived, the others are as they were. */
  ghost predicate ExactlyArchived(before: seq<Artifact>, after: seq<Artifact>, done: seq<nat>) {
    && |after| == |before|
    && (forall id: nat :: id < |before| ==> after[id] == if id in done then ArchivedRow(before[id], id) else before[id])
  }

  lemma ArchiveOneStep(v: Vault, roots: Roots, disk: Disk, id: nat)
    requires VaultInv(v, roots) && id < |v.artifacts| && v.artifacts[id].status == Active
    ensures var (after, error) := ArchiveOne(v, roots, disk, id);
      && VaultInv(after, roots)
      && OutsideUnchanged(roots, v.files, after.files)
      && (error.Some? ==> after.artifacts == v.artifacts && error.value.id == id)
      && (error.None? ==> after.artifacts == v.artifacts[id := ArchivedRow(v.artifacts[id], id)])
  {
    var (after, error) := ArchiveOne(v, roots, disk, id);
    var a := v.artifacts[id];
    InsideTree(roots, a, id);
    PartialIsNotTarget(roots, a, id);
    SameTarget(roots, a, id);
    hide TargetPath, PartialPath, TargetKey, InTree;
    forall other: nat | other < |v.artifacts| && Kept(after.artifacts[other].status)
      ensures Safe(after.artifacts, after.files, roots, other)
    {
      if other != id {
        TargetsApart(roots, a, id, v.artifacts[other], other);
        assert Safe(v.artifacts, v.files, roots, other);
      }
    }
  }

  lemma SameTarget(roots: Roots, a: Artifact, id: nat)
    ensures TargetKey(ArchivedRow(a, id), id) == TargetKey(a, id)
    ensures TargetPath(roots, ArchivedRow(a, id), id) == TargetPath(roots, a, id)
  {
  }

  ghost predicate AllActive(artifacts: seq<Artifact>, due: seq<nat>) {
    && (forall k :: 0 <= k < |due| ==> due[k] < |artifacts| && artifacts[due[k]].status == Active)
    && (forall i, j :: 0 <= i < j < |due| ==> due[i] != due[j])
  }

  /** The loop stopped at due[n]: exactly the rows before it are archived, and the error names it. */
  ghost predicate StoppedAt(before: seq<Artifact>, after: seq<Artifact>, due: seq<nat>, error: ArchiveError, n: nat) {
    n < |due| && ExactlyArchived(before, after, due[..n]) && error.id == due[n]
  }

  /**
   * After the loop, however it ended, the rows of a prefix of the due list are archived and nothing else changed in
   * the table: all of it without an exception; with one, the rows before the artifact that the exception names. Every
   * archived or pending_delete artifact has a file with its registered digest at its key, and no file outside the
   * archive tree was touched.
   */
  lemma {:induction false} ArchiveRunMeans(v: Vault, roots: Roots, disk: Disk, due: seq<nat>)
    requires VaultInv(v, roots) && AllActive(v.artifacts, due)
    ensures var (after, error) := ArchiveRun(v, roots, disk, due);
      && VaultInv(after, roots) && OutsideUnchanged(roots, v.files, after.files)
      && (error.None? ==> ExactlyArchived(v.artifacts, after.artifacts, due))
      && (error.Some? ==> exists n: nat :: StoppedAt(v.artifacts, after.artifacts, due, error.value, n))
  {
    hide Safe, TargetKey, InTree, ArchiveOne;
    if due != [] {
      var n := |due| - 1;
      var (before, error) := ArchiveRun(v, roots, disk, due[..n]);
      ArchiveRunMeans(v, roots, disk, due[..n]);
      if error.Some? {
        var m: nat :| StoppedAt(v.artifacts, before.artifacts, due[..n], error.value, m);
        StoppedBefore(v.artifacts, before.artifacts, due, error.value, n, m);
      } else {
        assert due[n] !in due[..n];
        ArchiveOneStep(before, roots, disk, due[n]);
        Extends(v.artifacts, before.artifacts, due, n);
        if ArchiveOne(before, roots, disk, due[n]).1.Some? {
          assert StoppedAt(v.artifacts, before.artifacts, due, ArchiveOne(before, roots, disk, due[n]).1.value, n);
        }
      }
    }
  }

  lemma StoppedBefore(before: seq<Artifact>, after: seq<Artifact>, due: seq<nat>, error: ArchiveError, n: nat, m: nat)
    requires n <= |due| && StoppedAt(before, after, due[..n], error, m)
    ensures StoppedAt(before, after, due, error, m)
  {
    hide ExactlyArchived;
    assert due[..n][..m] == due[..m];
  }

  lemma Extends(before: seq<Artifact>, after: seq<Artifact>, due: seq<nat>, n: nat)
    requires n < |due| && due[n] < |before| && ExactlyArchived(before, after, due[..n]) && due[n] !in due[..n]
    ensures after[due[n]] == before[due[n]]
    ensures ExactlyArchived(before, after[due[n] := ArchivedRow(after[due[n]], due[n])], due[..n + 1])
  {
    assert due[..n + 1] == due[..n] + [due[n]];
  }

  // ----- When the loop gets through -----

  /** The source still holds the registered content, and copying it delivers that content. */
  predicate Archivable(v: Vault, roots: Roots, disk: Disk, id: nat)
    requires id < |v.artifacts|
  {
    var a := v.artifacts[id];
    && SourcePath(roots, a) in v.files && Sha256(v.files[SourcePath(roots, a)]) == a.digest
    && !disk(id).Broke? && (disk(id).Wrote? ==> Sha256(disk(id).content) == a.digest)
  }

  lemma ArchivesIff(v: Vault, roots: Roots, disk: Disk, id: nat)
    requires id < |v.artifacts|
    ensures ArchiveOne(v, roots, disk, id).1.None? <==> Archivable(v, roots, disk, id)
  {
  }

  lemma ArchivableStays(v: Vault, v': Vault, roots: Roots, disk: Disk, id: nat)
    requires id < |v.artifacts| && id < |v'.artifacts| && v'.artifacts[id] == v.artifacts[id]
    requires OutsideUnchanged(roots, v.files, v'.files) && !InTree(roots, SourcePath(roots, v.artifacts[id]))
    ensures Archivable(v', roots, disk, id) <==> Archivable(v, roots, disk, id)
  {
    hide InTree, SourcePath;
  }

  ghost predicate AllArchivable(v: Vault, roots: Roots, disk: Disk, due: seq<nat>) {
    forall k :: 0 <= k < |due| ==> due[k] < |v.artifacts| && Archivable(v, roots, disk, due[k])
  }

  /** due[n] is the first due artifact that cannot be archived. */
  ghost predicate FirstFailure(v: Vault, roots: Roots, disk: Disk, due: seq<nat>, n: nat) {
    n < |due| && due[n] < |v.artifacts| && AllArchivable(v, roots, disk, due[..n])
      && !Archivable(v, roots, disk, due[n])
  }

  ghost predicate SourcesOutside(v: Vault, roots: Roots, due: seq<nat>) {
    forall k :: 0 <= k < |due| ==> due[k] < |v.artifacts| && !InTree(roots, SourcePath(roots, v.artifacts[due[k]]))
  }

  /** What the last round adds, when the rounds before it went through. */
  lemma LastRound(v: Vault, roots: Roots, disk: Disk, due: seq<nat>, n: nat)
    requires VaultInv(v, roots) && AllActive(v.artifacts, due) && SourcesOutside(v, roots, due) && n == |due| - 1
    requires ArchiveRun(v, roots, disk, due[..n]).1.None?
    ensures ArchiveRun(v, roots, disk, due).1.None? <==> Archivable(v, roots, disk, due[n])
    ensures ArchiveRun(v, roots, disk, due).1.Some? ==>
      StoppedAt(v.artifacts, ArchiveRun(v, roots, disk, due).0.artifacts, due,
        ArchiveRun(v, roots, disk, due).1.value, n)
  {
    hide InTree, SourcePath, VaultInv, ArchiveOne, Archivable, OutsideUnchanged;
    var (before, error) := ArchiveRun(v, roots, disk, due[..n]);
    ArchiveRunMeans(v, roots, disk, due[..n]);
    assert due[n] !in due[..n];
    ArchivableStays(v, before, roots, disk, due[n]);
    ArchivesIff(before, roots, disk, due[n]);
    if ArchiveOne(before, roots, disk, due[n]).1.Some? {
      FailureKeepsRows(before, roots, disk, due[n]);
    }
  }

  lemma FailureKeepsRows(v: Vault, roots: Roots, disk: Disk, id: nat)
    requires id < |v.artifacts| && ArchiveOne(v, roots, disk, id).1.Some?
    ensures ArchiveOne(v, roots, disk, id).0.artifacts == v.artifacts && ArchiveOne(v, roots, disk, id).1.value.id == id
  {
  }

  lemma NoneDue(v: Vault, roots: Roots, disk: Disk, due: seq<nat>)
    requires due == []
    ensures AllArchivable(v, roots, disk, due)
  {
  }

  lemma FailureStays(v: Vault, roots: Roots, disk: Disk, due: seq<nat>, n: nat, m: nat)
    requires n <= |due| && FirstFailure(v, roots, disk, due[..n], m)
    ensures FirstFailure(v, roots, disk, due, m) && !AllArchivable(v, roots, disk, due)
  {
    hide Archivable;
    assert due[..n][..m] == due[..m] && due[m] == due[..n][m];
  }

  /** The last due artifact decides when all before it can be archived; then it is the first failure, if it is one. */
  lemma AllButLast(v: Vault, roots: Roots, disk: Disk, due: seq<nat>, n: nat)
    requires n == |due| - 1 && due[n] < |v.artifacts| && AllArchivable(v, roots, disk, due[..n])
    ensures AllArchivable(v, roots, disk, due) <==> Archivable(v, roots, disk, due[n])
    ensures !Archivable(v, roots, disk, due[n]) ==> FirstFailure(v, roots, disk, due, n)
  {
    hide Archivable;
    assert due == due[..n] + [due[n]];
  }

  /**
   * The loop ends without an exception exactly when every due source still has its registered content and is copied
   * faithfully. Otherwise it stops at the first due artifact for which that fails, with exactly those before it
   * archived. One overwritten source, such as the file of a superseded version, keeps all later ones from being
   * archived.
   */
  lemma {:induction false} ArchivesAllIff(v: Vault, roots: Roots, disk: Disk, due: seq<nat>)
    requires VaultInv(v, roots) && AllActive(v.artifacts, due) && SourcesOutside(v, roots, due)
    ensures var (after, error) := ArchiveRun(v, roots, disk, due);
      && (error.None? <==> AllArchivable(v, roots, disk, due))
      && (error.Some? ==>
            exists n: nat ::
              FirstFailure(v, roots, disk, due, n) && StoppedAt(v.artifacts, after.artifacts, due, error.value, n))
  {
    hide VaultInv, ArchiveOne, Archivable, StoppedAt, SourcePath, InTree, AllArchivable, FirstFailure;
    if due == [] {
      NoneDue(v, roots, disk, due);
    } else {
      var n := |due| - 1;
      ArchivesAllIff(v, roots, disk, due[..n]);
      var (before, error) := ArchiveRun(v, roots, disk, due[..n]);
      if error.Some? {
        var m: nat :| FirstFailure(v, roots, disk, due[..n], m)
          && StoppedAt(v.artifacts, before.artifacts, due[..n], error.value, m);
        StoppedBefore(v.artifacts, before.artifacts, due, error.value, n, m);
        FailureStays(v, roots, disk, due, n, m);
      } else {
        LastRound(v, roots, disk, due, n);
        AllButLast(v, roots, disk, due, n);
      }
    }
  }
}
