/** What a registration stores for the files it finds, and which rows archiving touches (artifact_lifecycle.py). */
module ArtifactOutputs {
  import opened Common
  import opened ArtifactRegistry
  import opened ArtifactGraph
  import opened ArtifactArchive

  // ----- Files and their rows -----

  function FileKey(outputs: Outputs, name: string): Key {
    outputs.dir + [name]
  }

  /** The row of the job that stands for a file with this content. */
  predicate RowOf(artifacts: seq<Artifact>, outputs: Outputs, name: string, content: string, id: nat) {
    && id < |artifacts| && artifacts[id].jobId == outputs.jobId && artifacts[id].key == FileKey(outputs, name)
    && artifacts[id].digest == Sha256(content)
  }

  predicate Present(outputs: Outputs, files: map<Path, string>, name: string) {
    outputs.root + FileKey(outputs, name) in files
  }

  /** Which output file is made from which. */
  predicate MadeFrom(parent: string, child: string) {
    || (parent == "assessment.json" && child == "section-workflow.json")
    || (parent == "normalized.json" && child == "report-model.json")
    || (parent == "report-model.json" && child == "v4-report.json")
    || (parent == "cve-result.json" && child == "v4-report.json")
    || (parent == "v4-report.json" && child == "report.docx")
    || (parent == "report.docx" && child == "report.pdf")
  }

  /** The output files and the types of their artifacts. */
  predicate TypedAs(name: string, artifactType: string) {
    match artifactType
    case "inventory-json" => name == "inventory.json"
    case "topology-json" => name == "topology.json"
    case "scope-json" => name == "scope-ledger.json"
    case "canonical-json" => name == "normalized.json"
    case "configuration-json" => name == "configuration-comparison.json"
    case "assessment-json" => name == "assessment.json"
    case "section-workflow-json" => name == "section-workflow.json"
    case "coverage-json" => name == "coverage-ledger.json"
    case "qa-json" => name == "qa-result.json"
    case "report-model-json" => name == "report-model.json"
    case "v4-report-json" => name == "v4-report.json"
    case "v4-qa-json" => name == "v4-qa-result.json"
    case "cve-result-json" => name == "cve-result.json"
    case "report-docx" => name == "report.docx"
    case "report-pdf" => name == "report.pdf"
    case _ => false
  }

  lemma OutputOf(name: string, artifactType: string) returns (i: nat)
    requires TypedAs(name, artifactType)
    ensures i < |OUTPUT_TYPES| && OUTPUT_TYPES[i] == (name, artifactType)
  {
    match artifactType
    case "inventory-json" => i := 0;
    case "topology-json" => i := 1;
    case "scope-json" => i := 2;
    case "canonical-json" => i := 3;
    case "configuration-json" => i := 4;
    case "assessment-json" => i := 5;
    case "section-workflow-json" => i := 6;
    case "coverage-json" => i := 7;
    case "qa-json" => i := 8;
    case "report-model-json" => i := 9;
    case "v4-report-json" => i := 10;
    case "v4-qa-json" => i := 11;
    case "cve-result-json" => i := 12;
    case "report-docx" => i := 13;
    case "report-pdf" => i := 14;
  }

  /** Derivation pair d is about outputs i and j. */
  predicate PairOf(d: nat, i: nat, j: nat) {
    && d < |DERIVATIONS| && i < |OUTPUT_TYPES| && j < |OUTPUT_TYPES|
    && DERIVATIONS[d] == (OUTPUT_TYPES[i].1, OUTPUT_TYPES[j].1)
  }

  lemma MadeFromPair(parent: string, child: string) returns (d: nat, i: nat, j: nat)
    requires MadeFrom(parent, child)
    ensures PairOf(d, i, j) && OUTPUT_TYPES[i].0 == parent && OUTPUT_TYPES[j].0 == child
  {
    if parent == "assessment.json" {
      d, i, j := 0, 5, 6;
    } else if parent == "normalized.json" {
      d, i, j := 1, 3, 9;
    } else if parent == "report-model.json" {
      d, i, j := 2, 9, 10;
    } else if parent == "cve-result.json" {
      d, i, j := 3, 12, 10;
    } else if parent == "v4-report.json" {
      d, i, j := 4, 10, 13;
    } else {
      d, i, j := 5, 13, 14;
    }
  }

  lemma FoundAmong(reg: Registry, outputs: Outputs, files: map<Path, string>, i: nat, n: nat) returns (id: nat)
    requires RegInv(reg) && i < n <= |OUTPUT_TYPES| && Present(outputs, files, OUTPUT_TYPES[i].0)
    ensures var (after, byType) := Scanned(reg, outputs, files, n);
      && OUTPUT_TYPES[i].1 in byType && byType[OUTPUT_TYPES[i].1] == id
      && RowOf(after.artifacts, outputs, OUTPUT_TYPES[i].0, files[outputs.root + FileKey(outputs, OUTPUT_TYPES[i].0)],
               id)
  {
    ScannedFinds(reg, outputs, files, n);
    hide OUTPUT_TYPES, Scanned, RegInv;
    assert Finds(Scanned(reg, outputs, files, n).0.artifacts, outputs, files, Scanned(reg, outputs, files, n).1, i);
    id := Scanned(reg, outputs, files, n).1[OUTPUT_TYPES[i].1];
  }

  lemma FoundRow(reg: Registry, outputs: Outputs, files: map<Path, string>, i: nat) returns (id: nat)
    requires RegInv(reg) && i < |OUTPUT_TYPES| && Present(outputs, files, OUTPUT_TYPES[i].0)
    ensures var (after, byType) := Scanned(reg, outputs, files, |OUTPUT_TYPES|);
      && OUTPUT_TYPES[i].1 in byType && byType[OUTPUT_TYPES[i].1] == id
      && RowOf(after.artifacts, outputs, OUTPUT_TYPES[i].0, files[outputs.root + FileKey(outputs, OUTPUT_TYPES[i].0)],
               id)
  {
    hide OUTPUT_TYPES, RegInv, Scanned;
    id := FoundAmong(reg, outputs, files, i, |OUTPUT_TYPES|);
  }

  ghost predicate Stored(after: Registry, outputs: Outputs, name: string, artifactType: string, content: string) {
    exists id: nat :: RowOf(after.artifacts, outputs, name, content, id)
      && after.artifacts[id].artifactType == artifactType
  }

  ghost predicate Derived(after: Registry, outputs: Outputs, parent: string, first: string, child: string,
                          second: string) {
    exists p: nat, c: nat :: Related(after, outputs, parent, first, child, second, p, c)
  }

  predicate Related(after: Registry, outputs: Outputs, parent: string, first: string, child: string, second: string,
                    p: nat, c: nat) {
    && RowOf(after.artifacts, outputs, parent, first, p) && RowOf(after.artifacts, outputs, child, second, c)
    && Relation(p, c, DerivedFrom) in after.relations
  }

  /** After a registration every output file present has a row of its type, with its key and its present content. */
  lemma PresentFilesStored(reg: Registry, outputs: Outputs, files: map<Path, string>, name: string,
                           artifactType: string)
    requires RegInv(reg) && TypedAs(name, artifactType) && Present(outputs, files, name)
    ensures Stored(Registered(reg, outputs, files), outputs, name, artifactType,
                   files[outputs.root + FileKey(outputs, name)])
  {
    var i := OutputOf(name, artifactType);
    hide OUTPUT_TYPES, Scanned, RegInv, DERIVATIONS, Linked, TypedAs;
    var id := FoundRow(reg, outputs, files, i);
    RegisteredInv(reg, outputs, files);
    NamesOfRows(Registered(reg, outputs, files), outputs, i, id);
  }

  lemma NamesOfRows(reg: Registry, outputs: Outputs, i: nat, id: nat)
    requires RegInv(reg) && i < |OUTPUT_TYPES| && id < |reg.artifacts|
    requires reg.artifacts[id].key == FileKey(outputs, OUTPUT_TYPES[i].0)
    ensures reg.artifacts[id].artifactType == OUTPUT_TYPES[i].1
  {
    hide OUTPUT_TYPES;
    TypeByName(reg.artifacts[id], outputs, i);
  }

  /** Two files present of which one is made from the other: their rows are related so. */
  lemma DerivationsRecorded(reg: Registry, outputs: Outputs, files: map<Path, string>, parent: string, child: string)
    requires RegInv(reg) && MadeFrom(parent, child)
    requires Present(outputs, files, parent) && Present(outputs, files, child)
    ensures Derived(Registered(reg, outputs, files), outputs,
                    parent, files[outputs.root + FileKey(outputs, parent)],
                    child, files[outputs.root + FileKey(outputs, child)])
  {
    var d, i, j := MadeFromPair(parent, child);
    hide OUTPUT_TYPES, DERIVATIONS, RegInv, Scanned, MadeFrom, Linked, RowOf;
    var p := FoundRow(reg, outputs, files, i);
    var c := FoundRow(reg, outputs, files, j);
    var (after, byType) := Scanned(reg, outputs, files, |OUTPUT_TYPES|);
    assert Links(byType, d, Relation(p, c, DerivedFrom));
    LinkedContent(after.relations, byType, |DERIVATIONS|, Relation(p, c, DerivedFrom));
    assert Related(Registered(reg, outputs, files), outputs, parent, files[outputs.root + FileKey(outputs, parent)],
                   child, files[outputs.root + FileKey(outputs, child)], p, c);
  }

  /** The row a new version gets: the columns of the request, the next version of its line, active until retention. */
  predicate NextVersion(artifacts: seq<Artifact>, outputs: Outputs, artifactType: string, key: Key, digest: Digest,
                        a: Artifact) {
    && a.customerId == outputs.customerId && a.jobId == outputs.jobId && a.artifactType == artifactType
    && a.key == key && a.digest == digest && a.retentionUntil == Some(outputs.retentionUntil) && a.status == Active
    && (forall b :: b in artifacts && b.jobId == a.jobId && b.artifactType == artifactType ==> b.version < a.version)
    && (a.version == 1 || exists b ::
          b in artifacts && b.jobId == a.jobId && b.artifactType == artifactType && b.version + 1 == a.version)
  }

  lemma NewArtifactIsNext(reg: Registry, outputs: Outputs, artifactType: string, key: Key, digest: Digest)
    ensures NextVersion(reg.artifacts, outputs, artifactType, key, digest,
                        NewArtifact(reg, outputs, artifactType, key, digest))
  {
    hide Latest;
  }

  // ----- Which rows archiving touches -----

  /** Archived: the key below the archive root names customer, job and artifact; all other columns are kept. */
  predicate MovedToArchive(a: Artifact, a': Artifact, id: nat) {
    && a'.status == Archived && a'.key == ["artifacts", a.customerId, a.jobId, Decimal(id)] + [FileName(a.key)]
    && a' == a.(status := a'.status, key := a'.key)
  }

  function FileName(key: Key): string {
    if key == [] then "" else key[|key| - 1]
  }

  /** The retention of an active row is over. */
  predicate Expired(a: Artifact, asOf: int) {
    a.status == Active && a.retentionUntil.Some? && !(asOf < a.retentionUntil.value)
  }

  function ArchivePath(roots: Roots, a: Artifact, id: nat, suffix: string): Path {
    roots.archive + ["artifacts", a.customerId, a.jobId, Decimal(id), FileName(a.key) + suffix]
  }

  /** The path has the same file, or none, in both. */
  predicate SameAt(files: map<Path, string>, files': map<Path, string>, path: Path) {
    (path in files' <==> path in files) && (path in files ==> files'[path] == files[path])
  }

  /** Why the turn of an artifact fails, by its source file and what copying did; None when it goes through. */
  predicate FailsAs(v: Vault, source: Path, a: Artifact, id: nat, copy: Copy, error: Option<ArchiveError>) {
    if source !in v.files then error == Some(SourceMissing(id))
    else if a.digest != Sha256(v.files[source]) then error == Some(SourceMismatch(id))
    else match copy
      case Faithful => error == None
      case Broke(_) => error == Some(CopyError(id))
      case Wrote(content) => error == if Sha256(content) == a.digest then None else Some(ArchiveMismatch(id))
  }

  /**
   * One turn on the files: none but the target and the temporary file beside it can change. When it goes through, the
   * target has the registered content and the temporary file is gone; otherwise the row and the target are as they
   * were, and a temporary file is left only by a broken copy.
   */
  lemma TurnMeans(v: Vault, roots: Roots, disk: Disk, id: nat)
    requires id < |v.artifacts|
    ensures var a, (after, error) := v.artifacts[id], ArchiveOne(v, roots, disk, id);
      var temporary, target := ArchivePath(roots, a, id, ".partial"), ArchivePath(roots, a, id, "");
      && FailsAs(v, roots.active + a.key, a, id, disk(id), error)
      && (forall p :: p != temporary && p != target ==> SameAt(v.files, after.files, p))
      && (error.None? ==>
            && target in after.files && Sha256(after.files[target]) == a.digest && temporary !in after.files
            && after.artifacts == v.artifacts[id := after.artifacts[id]]
            && MovedToArchive(a, after.artifacts[id], id))
      && (error.Some? ==> after.artifacts == v.artifacts && SameAt(v.files, after.files, target))
      && (error.Some? && !error.value.CopyError? ==>
            temporary !in after.files || SameAt(v.files, after.files, temporary))
      && (error.Some? && error.value.ArchiveMismatch? ==> temporary !in after.files)
  {
    PathsOf(roots, v.artifacts[id], id);
    PartialIsNotTarget(roots, v.artifacts[id], id);
    hide TargetPath, PartialPath, ArchivePath;
  }

  lemma PathsOf(roots: Roots, a: Artifact, id: nat)
    ensures TargetPath(roots, a, id) == ArchivePath(roots, a, id, "")
    ensures PartialPath(roots, a, id) == ArchivePath(roots, a, id, ".partial")
  {
    assert LastPart(a.key) + "" == LastPart(a.key);
  }

  lemma TurnTouches(v: Vault, roots: Roots, disk: Disk, id: nat, j: nat)
    requires id < |v.artifacts| && j < |v.artifacts|
    ensures var (after, error) := ArchiveOne(v, roots, disk, id);
      && |after.artifacts| == |v.artifacts|
      && after.artifacts[j] == if j == id && error.None? then ArchivedRow(v.artifacts[id], id) else v.artifacts[j]
  {
    hide TargetKey, SourcePath, PartialPath, TargetPath;
  }

  lemma {:induction false} RunTouches(v: Vault, roots: Roots, disk: Disk, due: seq<nat>, id: nat)
    requires forall k :: 0 <= k < |due| ==> due[k] < |v.artifacts|
    requires forall i, j :: 0 <= i < j < |due| ==> due[i] != due[j]
    requires id < |v.artifacts|
    ensures var (after, error) := ArchiveRun(v, roots, disk, due);
      && (id !in due ==> after.artifacts[id] == v.artifacts[id])
      && (after.artifacts[id] == v.artifacts[id] || after.artifacts[id] == ArchivedRow(v.artifacts[id], id))
      && (error.None? && id in due ==> after.artifacts[id] == ArchivedRow(v.artifacts[id], id))
  {
    hide ArchiveOne, ArchivedRow;
    if due != [] {
      var n := |due| - 1;
      RunTouches(v, roots, disk, due[..n], id);
      TurnTouches(ArchiveRun(v, roots, disk, due[..n]).0, roots, disk, due[n], id);
      assert due == due[..n] + [due[n]];
      assert forall k :: 0 <= k < n ==> due[..n][k] != due[n];
    }
  }

  /**
   * Archiving everything due: a row that is not active, has no retention date or a later one keeps its columns; the
   * others are archived, all of them when the loop ends without an exception.
   */
  lemma ArchivingTouches(v: Vault, roots: Roots, disk: Disk, asOf: int, id: nat)
    requires id < |v.artifacts|
    ensures var (after, error) := ArchiveRun(v, roots, disk, Due(v.artifacts, asOf));
      && (!Expired(v.artifacts[id], asOf) ==> after.artifacts[id] == v.artifacts[id])
      && (after.artifacts[id] == v.artifacts[id] || MovedToArchive(v.artifacts[id], after.artifacts[id], id))
      && (error.None? && Expired(v.artifacts[id], asOf) ==>
            MovedToArchive(v.artifacts[id], after.artifacts[id], id))
  {
    hide ArchiveRun, Due;
    RunTouches(v, roots, disk, Due(v.artifacts, asOf), id);
  }
}
