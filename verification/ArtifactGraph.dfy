/** The relation graph of the artifact registry, and registering the same outputs again. */
module ArtifactGraph {
  import opened Common
  import opened ArtifactRegistry

  // ----- No cycles -----

  /** How many derivation steps lie below a type. */
  function Rank(artifactType: string): nat {
    if artifactType in {"section-workflow-json", "report-model-json"} then 1
    else if artifactType == "v4-report-json" then 2
    else if artifactType == "report-docx" then 3
    else if artifactType == "report-pdf" then 4
    else 0
  }

  lemma DerivationRaisesRank(parent: string, child: string)
    requires (parent, child) in DERIVATIONS
    ensures Rank(parent) < Rank(child)
  {
  }

  /** Lexicographic: type rank, then version. */
  predicate Below(a: Artifact, b: Artifact) {
    Rank(a.artifactType) < Rank(b.artifactType) ||
    (Rank(a.artifactType) == Rank(b.artifactType) && a.version < b.version)
  }

  predicate Edge(reg: Registry, p: nat, c: nat) {
    Relation(p, c, Supersedes) in reg.relations || Relation(p, c, DerivedFrom) in reg.relations
  }

  ghost predicate IsPath(reg: Registry, path: seq<nat>) {
    && (forall k :: 0 <= k < |path| ==> path[k] < |reg.artifacts|)
    && (forall k :: 0 < k < |path| ==> Edge(reg, path[k - 1], path[k]))
  }

  lemma EdgeGoesUp(reg: Registry, p: nat, c: nat)
    requires RegInv(reg) && Edge(reg, p, c)
    ensures p < |reg.artifacts| && c < |reg.artifacts| && Below(reg.artifacts[p], reg.artifacts[c])
  {
    hide DERIVATIONS, VersionsOk, NamesOk, FilesOnce, Rank;
    if Relation(p, c, Supersedes) in reg.relations {
      assert Consecutive(reg.artifacts, p, c);
    } else {
      assert Derivation(reg.artifacts, p, c);
      DerivationRaisesRank(reg.artifacts[p].artifactType, reg.artifacts[c].artifactType);
    }
  }

  lemma {:induction false} PathGoesUp(reg: Registry, path: seq<nat>)
    requires RegInv(reg) && IsPath(reg, path) && |path| >= 2
    ensures Below(reg.artifacts[path[0]], reg.artifacts[path[|path| - 1]])
  {
    var n := |path| - 1;
    EdgeGoesUp(reg, path[n - 1], path[n]);
    hide RegInv, Rank;
    if n > 1 {
      PathGoesUp(reg, path[..n]);
    }
  }

  /** The union of the supersedes and derived_from relations has no cycle. */
  lemma NoCycle(reg: Registry, path: seq<nat>)
    requires RegInv(reg) && IsPath(reg, path) && |path| >= 2
    ensures path[0] != path[|path| - 1]
  {
    PathGoesUp(reg, path);
  }

  // ----- Registering again -----

  ghost predicate FileKnown(artifacts: seq<Artifact>, outputs: Outputs, files: map<Path, string>, i: nat)
    requires i < |OUTPUT_TYPES|
  {
    var path := OutputPath(outputs, i);
    path in files ==> FindFile(artifacts, outputs.jobId, OutputKey(outputs, i), Sha256(files[path])).Some?
  }

  /** Every output file present is registered under its key with its present content. */
  ghost predicate AllKnown(artifacts: seq<Artifact>, outputs: Outputs, files: map<Path, string>) {
    forall i: nat :: i < |OUTPUT_TYPES| ==> FileKnown(artifacts, outputs, files, i)
  }

  /** Unchanged, unarchived outputs add no artifact and no version edge. */
  lemma {:induction false} KnownAddsNothing(reg: Registry, outputs: Outputs, files: map<Path, string>, n: nat)
    requires AllKnown(reg.artifacts, outputs, files) && n <= |OUTPUT_TYPES|
    ensures Scanned(reg, outputs, files, n).0 == reg
  {
    hide OUTPUT_TYPES, FindFile;
    if n > 0 {
      KnownAddsNothing(reg, outputs, files, n - 1);
      assert FileKnown(reg.artifacts, outputs, files, n - 1);
    }
  }

  /** by_type holds, for each of the first n outputs present, the one row with the file's key and content. */
  ghost predicate Finds(artifacts: seq<Artifact>, outputs: Outputs, files: map<Path, string>,
      byType: map<string, nat>, i: nat)
    requires i < |OUTPUT_TYPES|
  {
    var path, t := OutputPath(outputs, i), OUTPUT_TYPES[i].1;
    if path !in files then t !in byType
    else
      t in byType && byType[t] < |artifacts| &&
      SameFile(artifacts[byType[t]], outputs.jobId, OutputKey(outputs, i), Sha256(files[path]))
  }

  lemma {:induction false} ScannedFinds(reg: Registry, outputs: Outputs, files: map<Path, string>, n: nat)
    requires RegInv(reg) && n <= |OUTPUT_TYPES|
    ensures var (after, byType) := Scanned(reg, outputs, files, n);
      && (forall i: nat :: i < n ==> Finds(after.artifacts, outputs, files, byType, i))
      && (forall t :: t in byType ==> exists i: nat :: i < n && OUTPUT_TYPES[i].1 == t)
  {
    hide RegInv, OUTPUT_TYPES, OutputKey, OutputPath, FindFile, RegisterFile;
    if n > 0 {
      ScannedFinds(reg, outputs, files, n - 1);
      ScannedInv(reg, outputs, files, n - 1);
      var (before, byType) := Scanned(reg, outputs, files, n - 1);
      var path, t := OutputPath(outputs, n - 1), OUTPUT_TYPES[n - 1].1;
      if t in byType {
        var i: nat :| i < n - 1 && OUTPUT_TYPES[i].1 == t;
        OutputNamesDistinct(i, n - 1);
      }
      forall i: nat | i < n - 1
        ensures OUTPUT_TYPES[i].1 != t
      {
        if OUTPUT_TYPES[i].1 == t {
          OutputNamesDistinct(i, n - 1);
        }
      }
      if path in files {
        RegisteredType(before, outputs, n - 1, Sha256(files[path]));
        var (after, id) := RegisterFile(before, outputs, t, OutputKey(outputs, n - 1), Sha256(files[path]));
        var rows, updated := after.artifacts, byType[t := id];
        forall i: nat | i < n - 1
          ensures Finds(rows, outputs, files, updated, i)
        {
          FindsStays(before.artifacts, after.artifacts, outputs, files, byType, i, t, id);
        }
      }
    }
  }

  lemma FindsStays(artifacts: seq<Artifact>, more: seq<Artifact>, outputs: Outputs, files: map<Path, string>,
                   byType: map<string, nat>, i: nat, t: string, id: nat)
    requires i < |OUTPUT_TYPES| && Finds(artifacts, outputs, files, byType, i)
    requires artifacts <= more && OUTPUT_TYPES[i].1 != t
    ensures Finds(more, outputs, files, byType[t := id], i)
  {
    hide OUTPUT_TYPES;
  }

  lemma {:induction false} ScannedGrows(reg: Registry, outputs: Outputs, files: map<Path, string>, n: nat, m: nat)
    requires n <= m <= |OUTPUT_TYPES|
    ensures Scanned(reg, outputs, files, n).0.artifacts <= Scanned(reg, outputs, files, m).0.artifacts
  {
    hide OUTPUT_TYPES;
    if n < m {
      ScannedGrows(reg, outputs, files, n, m - 1);
    }
  }

  /** Scanning again finds the rows of the first scan. */
  lemma {:induction false} ScannedAgain(reg: Registry, outputs: Outputs, files: map<Path, string>, after: Registry,
      n: nat)
    requires RegInv(reg) && RegInv(after) && n <= |OUTPUT_TYPES|
    requires after.artifacts == Scanned(reg, outputs, files, |OUTPUT_TYPES|).0.artifacts
    ensures Scanned(after, outputs, files, n) == (after, Scanned(reg, outputs, files, n).1)
  {
    hide OUTPUT_TYPES, OutputKey, OutputPath, VersionsOk, SupersedesOk, DerivedOk, NamesOk, RelationsOnce, FindFile;
    if n > 0 {
      ScannedAgain(reg, outputs, files, after, n - 1);
      ScannedFinds(reg, outputs, files, n);
      ScannedGrows(reg, outputs, files, n, |OUTPUT_TYPES|);
      assert Finds(Scanned(reg, outputs, files, n).0.artifacts, outputs, files, Scanned(reg, outputs, files, n).1,
        n - 1);
    }
  }

  lemma {:induction false} LinkedAgain(relations: seq<Relation>, byType: map<string, nat>, n: nat)
    requires n <= |DERIVATIONS|
    requires forall d: nat, r :: d < n && Links(byType, d, r) ==> r in relations
    ensures Linked(relations, byType, n) == relations
  {
    hide DERIVATIONS;
    if n > 0 {
      LinkedAgain(relations, byType, n - 1);
      var d := DERIVATIONS[n - 1];
      if d.0 in byType && d.1 in byType {
        assert Links(byType, n - 1, Relation(byType[d.0], byType[d.1], DerivedFrom));
      }
    }
  }

  /** Registering the same files twice is registering them once. */
  lemma RegisterTwice(reg: Registry, outputs: Outputs, files: map<Path, string>)
    requires RegInv(reg)
    ensures Registered(Registered(reg, outputs, files), outputs, files) == Registered(reg, outputs, files)
  {
    var after := Registered(reg, outputs, files);
    var (scanned, byType) := Scanned(reg, outputs, files, |OUTPUT_TYPES|);
    RegisteredInv(reg, outputs, files);
    hide RegInv, OUTPUT_TYPES, DERIVATIONS, Scanned, Linked, Links;
    ScannedAgain(reg, outputs, files, after, |OUTPUT_TYPES|);
    forall d: nat, r | d < |DERIVATIONS| && Links(byType, d, r)
      ensures r in after.relations
    {
      LinkedContent(scanned.relations, byType, |DERIVATIONS|, r);
    }
    LinkedAgain(after.relations, byType, |DERIVATIONS|);
  }

  /** A registry whose rows hold all present files gains at most derivation edges between rows it already has. */
  lemma RegisterKnown(reg: Registry, outputs: Outputs, files: map<Path, string>)
    requires AllKnown(reg.artifacts, outputs, files)
    ensures Registered(reg, outputs, files).artifacts == reg.artifacts
    ensures forall r :: r in Registered(reg, outputs, files).relations && r.kind == Supersedes <==>
      r in reg.relations && r.kind == Supersedes
  {
    KnownAddsNothing(reg, outputs, files, |OUTPUT_TYPES|);
    var byType := Scanned(reg, outputs, files, |OUTPUT_TYPES|).1;
    hide OUTPUT_TYPES, DERIVATIONS, Scanned, Linked;
    forall r
      ensures r in Linked(reg.relations, byType, |DERIVATIONS|) && r.kind == Supersedes <==>
        r in reg.relations && r.kind == Supersedes
    {
      LinkedContent(reg.relations, byType, |DERIVATIONS|, r);
    }
  }
}
