/**
 * The artifact rows and relations written by register_outputs (artifact_lifecycle.py) with the version allocation of
 * register_artifact (application_data.py). An artifact id is the index of its row; a storage key is its list of parts.
 */
module ArtifactRegistry {
  import opened Common

  type Key = seq<string>

  /** Absolute path of a file. */
  type Path = seq<string>

  /** SHA-256 stands for an injective function. */
  datatype Digest = Sha256(content: string)

  datatype ArchiveStatus = Active | Archived | PendingDelete | Deleted

  datatype Artifact = Artifact(
    customerId: string,
    jobId: string,
    artifactType: string,
    version: int,
    key: Key,
    digest: Digest,
    retentionUntil: Option<int>,
    status: ArchiveStatus)

  datatype Kind = Supersedes | DerivedFrom

  datatype Relation = Relation(parent: nat, child: nat, kind: Kind)

  datatype Registry = Registry(artifacts: seq<Artifact>, relations: seq<Relation>)

  const OUTPUT_TYPES: seq<(string, string)> := [
    ("inventory.json", "inventory-json"),
    ("topology.json", "topology-json"),
    ("scope-ledger.json", "scope-json"),
    ("normalized.json", "canonical-json"),
    ("configuration-comparison.json", "configuration-json"),
    ("assessment.json", "assessment-json"),
    ("section-workflow.json", "section-workflow-json"),
    ("coverage-ledger.json", "coverage-json"),
    ("qa-result.json", "qa-json"),
    ("report-model.json", "report-model-json"),
    ("v4-report.json", "v4-report-json"),
    ("v4-qa-result.json", "v4-qa-json"),
    ("cve-result.json", "cve-result-json"),
    ("report.docx", "report-docx"),
    ("report.pdf", "report-pdf")
  ]

  const DERIVATIONS: seq<(string, string)> := [
    ("assessment-json", "section-workflow-json"),
    ("canonical-json", "report-model-json"),
    ("report-model-json", "v4-report-json"),
    ("cve-result-json", "v4-report-json"),
    ("v4-report-json", "report-docx"),
    ("report-docx", "report-pdf")
  ]

  /** The job whose outputs are registered, the data root, and the directory of the outputs below it. */
  datatype Outputs = Outputs(customerId: string, jobId: string, root: Path, dir: Key, retentionUntil: int)

  predicate SameLine(a: Artifact, b: Artifact) {
    a.jobId == b.jobId && a.artifactType == b.artifactType
  }

  predicate SameFile(a: Artifact, jobId: string, key: Key, digest: Digest) {
    a.jobId == jobId && a.key == key && a.digest == digest
  }

  // ----- Looking rows up -----

  function FindFile(artifacts: seq<Artifact>, jobId: string, key: Key, digest: Digest): (r: Option<nat>)
    ensures r.Some? ==> r.value < |artifacts| && SameFile(artifacts[r.value], jobId, key, digest)
    ensures r.None? ==> forall i :: 0 <= i < |artifacts| ==> !SameFile(artifacts[i], jobId, key, digest)
  {
    if artifacts == [] then None
    else
      var n := |artifacts| - 1;
      if SameFile(artifacts[n], jobId, key, digest) then Some(n) else FindFile(artifacts[..n], jobId, key, digest)
  }

  predicate InLine(a: Artifact, jobId: string, artifactType: string) {
    a.jobId == jobId && a.artifactType == artifactType
  }

  /** The row of the line with the greatest version. */
  function Latest(artifacts: seq<Artifact>, jobId: string, artifactType: string): (r: Option<nat>)
    ensures r.Some? ==> r.value < |artifacts| && InLine(artifacts[r.value], jobId, artifactType)
    ensures r.Some? ==> forall i :: 0 <= i < |artifacts| && InLine(artifacts[i], jobId, artifactType) ==>
      artifacts[i].version <= artifacts[r.value].version
    ensures r.None? ==> forall i :: 0 <= i < |artifacts| ==> !InLine(artifacts[i], jobId, artifactType)
  {
    if artifacts == [] then None
    else
      var n := |artifacts| - 1;
      var before := Latest(artifacts[..n], jobId, artifactType);
      if !InLine(artifacts[n], jobId, artifactType) then before
      else if before.Some? && artifacts[before.value].version >= artifacts[n].version then before
      else Some(n)
  }

  // ----- Registering one file -----

  function NewArtifact(reg: Registry, outputs: Outputs, artifactType: string, key: Key, digest: Digest): Artifact {
    var previous := Latest(reg.artifacts, outputs.jobId, artifactType);
    var greatest := if previous.Some? then reg.artifacts[previous.value].version else 0;
    Artifact(outputs.customerId, outputs.jobId, artifactType, 1 + greatest, key, digest,
             Some(outputs.retentionUntil), Active)
  }

  /** The registry after one output file, and the id of its artifact. */
  function RegisterFile(reg: Registry, outputs: Outputs, artifactType: string, key: Key,
      digest: Digest): (r: (Registry, nat))
    ensures reg.artifacts <= r.0.artifacts && r.1 < |r.0.artifacts|
  {
    var existing := FindFile(reg.artifacts, outputs.jobId, key, digest);
    if existing.Some? then (reg, existing.value)
    else
      var id, previous := |reg.artifacts|, Latest(reg.artifacts, outputs.jobId, artifactType);
      (Registry(reg.artifacts + [NewArtifact(reg, outputs, artifactType, key, digest)],
                if previous.Some? then reg.relations + [Relation(previous.value, id, Supersedes)] else reg.relations),
       id)
  }

  // ----- Registering all outputs -----

  function OutputKey(outputs: Outputs, i: nat): Key
    requires i < |OUTPUT_TYPES|
  {
    outputs.dir + [OUTPUT_TYPES[i].0]
  }

  function OutputPath(outputs: Outputs, i: nat): Path
    requires i < |OUTPUT_TYPES|
  {
    outputs.root + OutputKey(outputs, i)
  }

  /** The registry and by_type after the first n output names. */
  function Scanned(reg: Registry, outputs: Outputs, files: map<Path, string>, n: nat): (r: (Registry, map<string, nat>))
    requires n <= |OUTPUT_TYPES|
    ensures reg.artifacts <= r.0.artifacts
    ensures forall t :: t in r.1 ==> r.1[t] < |r.0.artifacts|
  {
    if n == 0 then (reg, map[])
    else
      var (before, byType) := Scanned(reg, outputs, files, n - 1);
      var key, path := OutputKey(outputs, n - 1), OutputPath(outputs, n - 1);
      if path !in files then (before, byType)
      else
        var (after, id) := RegisterFile(before, outputs, OUTPUT_TYPES[n - 1].1, key, Sha256(files[path]));
        (after, byType[OUTPUT_TYPES[n - 1].1 := id])
  }

  function Add(relations: seq<Relation>, r: Relation): seq<Relation> {
    if r in relations then relations else relations + [r]
  }

  /** The relations after the first n pairs of DERIVATIONS. */
  function Linked(relations: seq<Relation>, byType: map<string, nat>, n: nat): seq<Relation>
    requires n <= |DERIVATIONS|
  {
    if n == 0 then relations
    else
      var before, (parent, child) := Linked(relations, byType, n - 1), DERIVATIONS[n - 1];
      if parent in byType && child in byType then Add(before, Relation(byType[parent], byType[child], DerivedFrom))
      else before
  }

  function Registered(reg: Registry, outputs: Outputs, files: map<Path, string>): Registry {
    var (scanned, byType) := Scanned(reg, outputs, files, |OUTPUT_TYPES|);
    Registry(scanned.artifacts, Linked(scanned.relations, byType, |DERIVATIONS|))
  }

  // ----- What holds of every registry -----

  ghost predicate HasVersion(artifacts: seq<Artifact>, line: Artifact, version: int) {
    exists j :: 0 <= j < |artifacts| && SameLine(artifacts[j], line) && artifacts[j].version == version
  }

  /** The versions of every line are 1, 2, ..., n, each once. */
  ghost predicate VersionsOk(artifacts: seq<Artifact>) {
    && (forall i :: 0 <= i < |artifacts| ==> artifacts[i].version >= 1)
    && (forall i, v :: 0 <= i < |artifacts| && 1 <= v <= artifacts[i].version ==>
      HasVersion(artifacts, artifacts[i], v))
    && (forall i, j :: 0 <= i < j < |artifacts| && SameLine(artifacts[i], artifacts[j]) ==>
          artifacts[i].version != artifacts[j].version)
  }

  predicate Consecutive(artifacts: seq<Artifact>, p: nat, c: nat) {
    && p < |artifacts| && c < |artifacts|
    && SameLine(artifacts[p], artifacts[c]) && artifacts[c].version == artifacts[p].version + 1
  }

  /** The supersedes relations are exactly the consecutive version pairs. */
  ghost predicate SupersedesOk(reg: Registry) {
    forall p: nat, c: nat :: Relation(p, c, Supersedes) in reg.relations <==> Consecutive(reg.artifacts, p, c)
  }

  predicate Derivation(artifacts: seq<Artifact>, p: nat, c: nat) {
    && p < |artifacts| && c < |artifacts|
    && artifacts[p].jobId == artifacts[c].jobId
    && (artifacts[p].artifactType, artifacts[c].artifactType) in DERIVATIONS
  }

  ghost predicate DerivedOk(reg: Registry) {
    forall p: nat, c: nat :: Relation(p, c, DerivedFrom) in reg.relations ==> Derivation(reg.artifacts, p, c)
  }

  /** No relation is stored twice: uq_artifact_relation. */
  ghost predicate RelationsOnce(relations: seq<Relation>) {
    forall i, j :: 0 <= i < j < |relations| ==> relations[i] != relations[j]
  }

  /** The file name at the end of a key tells the artifact type. */
  predicate NameOk(a: Artifact) {
    a.key != [] && (a.key[|a.key| - 1], a.artifactType) in OUTPUT_TYPES
  }

  ghost predicate NamesOk(artifacts: seq<Artifact>) {
    forall i :: 0 <= i < |artifacts| ==> NameOk(artifacts[i])
  }

  /** uq_artifacts_job_storage_digest. */
  ghost predicate FilesOnce(artifacts: seq<Artifact>) {
    forall i, j :: 0 <= i < j < |artifacts| ==>
      !SameFile(artifacts[i], artifacts[j].jobId, artifacts[j].key, artifacts[j].digest)
  }

  ghost predicate RegInv(reg: Registry) {
    && VersionsOk(reg.artifacts) && SupersedesOk(reg) && DerivedOk(reg) && RelationsOnce(reg.relations)
    && NamesOk(reg.artifacts) && FilesOnce(reg.artifacts)
  }

  // ----- One file keeps it -----

  lemma AppendVersions(reg: Registry, a: Artifact)
    requires VersionsOk(reg.artifacts)
    requires var previous := Latest(reg.artifacts, a.jobId, a.artifactType);
      a.version == 1 + if previous.Some? then reg.artifacts[previous.value].version else 0
    ensures VersionsOk(reg.artifacts + [a])
  {
    var artifacts := reg.artifacts + [a];
    var previous := Latest(reg.artifacts, a.jobId, a.artifactType);
    forall i, v | 0 <= i < |artifacts| && 1 <= v <= artifacts[i].version
      ensures HasVersion(artifacts, artifacts[i], v)
    {
      if i < |reg.artifacts| {
        assert artifacts[i] == reg.artifacts[i];
        VersionStays(reg.artifacts, a, artifacts[i], v);
      } else if v == a.version {
        assert SameLine(artifacts[i], a);
      } else {
        VersionStays(reg.artifacts, a, reg.artifacts[previous.value], v);
        var j :|
          0 <= j < |artifacts| && SameLine(artifacts[j], reg.artifacts[previous.value]) && artifacts[j].version == v;
        assert SameLine(artifacts[j], a);
      }
    }
  }

  lemma VersionStays(artifacts: seq<Artifact>, a: Artifact, line: Artifact, version: int)
    requires HasVersion(artifacts, line, version)
    ensures HasVersion(artifacts + [a], line, version)
  {
    var j :| 0 <= j < |artifacts| && SameLine(artifacts[j], line) && artifacts[j].version == version;
    assert (artifacts + [a])[j] == artifacts[j];
  }

  /** The new row makes one new consecutive pair: the latest row of its line and itself. */
  lemma AppendConsecutive(reg: Registry, a: Artifact, p: nat, c: nat)
    requires VersionsOk(reg.artifacts)
    requires var previous := Latest(reg.artifacts, a.jobId, a.artifactType);
      a.version == 1 + if previous.Some? then reg.artifacts[previous.value].version else 0
    ensures var previous := Latest(reg.artifacts, a.jobId, a.artifactType);
      Consecutive(reg.artifacts + [a], p, c) <==>
        Consecutive(reg.artifacts, p, c) || (previous.Some? && p == previous.value && c == |reg.artifacts|)
  {
    var artifacts, n := reg.artifacts + [a], |reg.artifacts|;
    assert forall i :: 0 <= i < n ==> artifacts[i] == reg.artifacts[i];
    assert artifacts[n] == a;
    if c == n && p < n {
      var before := reg.artifacts[p];
      assert Consecutive(artifacts, p, c) <==>
        InLine(before, a.jobId, a.artifactType) && a.version == before.version + 1;
    }
  }

  lemma {:induction false} RegisterFileInv(reg: Registry, outputs: Outputs, artifactType: string, key: Key,
      digest: Digest)
    requires RegInv(reg)
    requires key != [] && (key[|key| - 1], artifactType) in OUTPUT_TYPES
    ensures RegInv(RegisterFile(reg, outputs, artifactType, key, digest).0)
  {
    var existing := FindFile(reg.artifacts, outputs.jobId, key, digest);
    if existing.None? {
      var a := NewArtifact(reg, outputs, artifactType, key, digest);
      var (after, id) := RegisterFile(reg, outputs, artifactType, key, digest);
      AppendVersions(reg, a);
      hide VersionsOk, FindFile, Latest, NewArtifact, OUTPUT_TYPES;
      AppendSupersedes(reg, a);
      AppendDerived(reg, a, after);
      AppendNames(reg, a);
    }
  }

  lemma AppendNames(reg: Registry, a: Artifact)
    requires NamesOk(reg.artifacts) && NameOk(a) && FilesOnce(reg.artifacts)
    requires forall i :: 0 <= i < |reg.artifacts| ==> !SameFile(reg.artifacts[i], a.jobId, a.key, a.digest)
    ensures NamesOk(reg.artifacts + [a]) && FilesOnce(reg.artifacts + [a])
  {
    hide NameOk;
  }

  /** The relations written with a new row. */
  function WithSupersedes(reg: Registry, a: Artifact): seq<Relation> {
    var previous := Latest(reg.artifacts, a.jobId, a.artifactType);
    if previous.Some? then reg.relations + [Relation(previous.value, |reg.artifacts|, Supersedes)] else reg.relations
  }

  lemma AppendSupersedes(reg: Registry, a: Artifact)
    requires VersionsOk(reg.artifacts) && SupersedesOk(reg) && RelationsOnce(reg.relations)
    requires var previous := Latest(reg.artifacts, a.jobId, a.artifactType);
      a.version == 1 + if previous.Some? then reg.artifacts[previous.value].version else 0
    ensures SupersedesOk(Registry(reg.artifacts + [a], WithSupersedes(reg, a)))
    ensures RelationsOnce(WithSupersedes(reg, a))
  {
    hide VersionsOk, Latest;
    var relations := WithSupersedes(reg, a);
    forall p: nat, c: nat
      ensures Relation(p, c, Supersedes) in relations <==> Consecutive(reg.artifacts + [a], p, c)
    {
      AppendConsecutive(reg, a, p, c);
    }
    if Latest(reg.artifacts, a.jobId, a.artifactType).Some? {
      var last := relations[|relations| - 1];
      assert !Consecutive(reg.artifacts, last.parent, last.child);
      assert last !in reg.relations;
    }
  }

  lemma AppendDerived(reg: Registry, a: Artifact, after: Registry)
    requires DerivedOk(reg) && after == Registry(reg.artifacts + [a], WithSupersedes(reg, a))
    ensures DerivedOk(after)
  {
    forall p: nat, c: nat | Relation(p, c, DerivedFrom) in after.relations
      ensures Derivation(after.artifacts, p, c)
    {
      assert Relation(p, c, DerivedFrom) in reg.relations;
      assert Derivation(reg.artifacts, p, c);
    }
  }

  // ----- A whole registration keeps it -----

  /** by_type maps a type to a row of that type of the job. */
  ghost predicate ByTypeOk(artifacts: seq<Artifact>, jobId: string, byType: map<string, nat>) {
    forall t :: t in byType ==> byType[t] < |artifacts| && InLine(artifacts[byType[t]], jobId, t)
  }

  lemma OutputName(outputs: Outputs, i: nat)
    requires i < |OUTPUT_TYPES|
    ensures OutputKey(outputs, i) != []
    ensures (OutputKey(outputs, i)[|OutputKey(outputs, i)| - 1], OUTPUT_TYPES[i].1) in OUTPUT_TYPES
  {
    assert OUTPUT_TYPES[i] in OUTPUT_TYPES;
  }

  /** No file name and no artifact type occurs twice among the outputs. */
  lemma OutputNamesDistinct(i: nat, j: nat)
    requires i < |OUTPUT_TYPES| && j < |OUTPUT_TYPES|
    requires OUTPUT_TYPES[i].0 == OUTPUT_TYPES[j].0 || OUTPUT_TYPES[i].1 == OUTPUT_TYPES[j].1
    ensures i == j
  {
  }

  /** A row with the key of an output file has that output's type. */
  lemma TypeByName(a: Artifact, outputs: Outputs, i: nat)
    requires NameOk(a) && i < |OUTPUT_TYPES| && a.key == OutputKey(outputs, i)
    ensures a.artifactType == OUTPUT_TYPES[i].1
  {
    var j :| 0 <= j < |OUTPUT_TYPES| && OUTPUT_TYPES[j] == (a.key[|a.key| - 1], a.artifactType);
    OutputNamesDistinct(i, j);
  }

  lemma {:induction false} ScannedInv(reg: Registry, outputs: Outputs, files: map<Path, string>, n: nat)
    requires RegInv(reg) && n <= |OUTPUT_TYPES|
    ensures RegInv(Scanned(reg, outputs, files, n).0)
    ensures ByTypeOk(Scanned(reg, outputs, files, n).0.artifacts, outputs.jobId, Scanned(reg, outputs, files, n).1)
  {
    hide RegInv, OUTPUT_TYPES, OutputKey, OutputPath;
    if n > 0 {
      ScannedInv(reg, outputs, files, n - 1);
      var (before, byType) := Scanned(reg, outputs, files, n - 1);
      var key, path := OutputKey(outputs, n - 1), OutputPath(outputs, n - 1);
      if path in files {
        OutputName(outputs, n - 1);
        RegisterFileInv(before, outputs, OUTPUT_TYPES[n - 1].1, key, Sha256(files[path]));
        RegisteredType(before, outputs, n - 1, Sha256(files[path]));
      }
    }
  }

  lemma RegisteredType(reg: Registry, outputs: Outputs, i: nat, digest: Digest)
    requires RegInv(reg) && i < |OUTPUT_TYPES|
    ensures var (after, id) := RegisterFile(reg, outputs, OUTPUT_TYPES[i].1, OutputKey(outputs, i), digest);
      InLine(after.artifacts[id], outputs.jobId, OUTPUT_TYPES[i].1) && reg.artifacts <= after.artifacts
      && SameFile(after.artifacts[id], outputs.jobId, OutputKey(outputs, i), digest)
  {
    var existing := FindFile(reg.artifacts, outputs.jobId, OutputKey(outputs, i), digest);
    hide OUTPUT_TYPES, OutputKey, FindFile, Latest;
    if existing.Some? {
      TypeByName(reg.artifacts[existing.value], outputs, i);
    }
  }

  lemma {:induction false} LinkedContent(relations: seq<Relation>, byType: map<string, nat>, n: nat, r: Relation)
    requires n <= |DERIVATIONS|
    ensures r in Linked(relations, byType, n) <==>
      r in relations || exists d: nat :: d < n && Links(byType, d, r)
    ensures RelationsOnce(relations) ==> RelationsOnce(Linked(relations, byType, n))
  {
    hide DERIVATIONS;
    if n > 0 {
      LinkedContent(relations, byType, n - 1, r);
      var added := Links(byType, n - 1, r);
    }
  }

  predicate Links(byType: map<string, nat>, d: nat, r: Relation) {
    && d < |DERIVATIONS| && DERIVATIONS[d].0 in byType && DERIVATIONS[d].1 in byType
    && r == Relation(byType[DERIVATIONS[d].0], byType[DERIVATIONS[d].1], DerivedFrom)
  }

  lemma LinkedInv(reg: Registry, jobId: string, byType: map<string, nat>)
    requires RegInv(reg) && ByTypeOk(reg.artifacts, jobId, byType)
    ensures RegInv(Registry(reg.artifacts, Linked(reg.relations, byType, |DERIVATIONS|)))
  {
    var relations := Linked(reg.relations, byType, |DERIVATIONS|);
    hide DERIVATIONS, Linked, VersionsOk, NamesOk, FilesOnce;
    forall p: nat, c: nat
      ensures Relation(p, c, Supersedes) in relations <==> Consecutive(reg.artifacts, p, c)
      ensures Relation(p, c, DerivedFrom) in relations ==> Derivation(reg.artifacts, p, c)
    {
      LinkedContent(reg.relations, byType, |DERIVATIONS|, Relation(p, c, Supersedes));
      LinkedContent(reg.relations, byType, |DERIVATIONS|, Relation(p, c, DerivedFrom));
      if d: nat :| Links(byType, d, Relation(p, c, DerivedFrom)) {
        assert DERIVATIONS[d] == (reg.artifacts[p].artifactType, reg.artifacts[c].artifactType);
      }
    }
    LinkedContent(reg.relations, byType, |DERIVATIONS|, Relation(0, 0, Supersedes));
  }

  /** register_outputs keeps the invariant: versions 1..n in every line, supersedes edges the consecutive pairs. */
  lemma RegisteredInv(reg: Registry, outputs: Outputs, files: map<Path, string>)
    requires RegInv(reg)
    ensures RegInv(Registered(reg, outputs, files))
    ensures reg.artifacts <= Registered(reg, outputs, files).artifacts
  {
    ScannedInv(reg, outputs, files, |OUTPUT_TYPES|);
    var (scanned, byType) := Scanned(reg, outputs, files, |OUTPUT_TYPES|);
    hide RegInv, Scanned, Linked, OUTPUT_TYPES, DERIVATIONS;
    LinkedInv(scanned, outputs.jobId, byType);
  }
}
