/** A run in which an output is overwritten by its next version, and archiving stops at the first one for good. */
module ArtifactOverwrite {
  import opened Common
  import opened ArtifactRegistry
  import opened ArtifactArchive
  import R = ArtifactRuns

  /** Write output k, register it, write it again with other content, register it again. */
  function Overwriting(outputs: Outputs, k: nat, first: string, second: string): seq<R.Step>
    requires k < |OUTPUT_TYPES|
  {
    var path := OutputPath(outputs, k);
    [R.Write(path, Some(first)), R.Register(outputs), R.Write(path, Some(second)), R.Register(outputs)]
  }

  /** Scanning when output k is the only file. */
  lemma {:induction false} OnlyOutput(reg: Registry, outputs: Outputs, files: map<Path, string>, k: nat, n: nat)
    requires k < |OUTPUT_TYPES| && n <= |OUTPUT_TYPES| && files.Keys == {OutputPath(outputs, k)}
    ensures Scanned(reg, outputs, files, n) ==
      if n <= k then (reg, map[])
      else
        var (after, id) :=
          RegisterFile(reg, outputs, OUTPUT_TYPES[k].1, OutputKey(outputs, k), Sha256(files[OutputPath(outputs, k)]));
        (after, map[OUTPUT_TYPES[k].1 := id])
  {
    hide OUTPUT_TYPES, RegisterFile;
    if n > 0 {
      OnlyOutput(reg, outputs, files, k, n - 1);
      if n - 1 != k {
        OtherPath(outputs, k, n - 1);
      }
    }
  }

  lemma OtherPath(outputs: Outputs, i: nat, j: nat)
    requires i < |OUTPUT_TYPES| && j < |OUTPUT_TYPES| && i != j
    ensures OutputPath(outputs, i) != OutputPath(outputs, j)
  {
    var p, q := OutputPath(outputs, i), OutputPath(outputs, j);
    assert p[|p| - 1] == OUTPUT_TYPES[i].0 && q[|q| - 1] == OUTPUT_TYPES[j].0;
    if p == q {
      OutputNamesDistinct(i, j);
    }
  }

  lemma {:induction false} OneTypeLinksNothing(relations: seq<Relation>, t: string, id: nat, n: nat)
    requires n <= |DERIVATIONS|
    ensures Linked(relations, map[t := id], n) == relations
  {
    if n > 0 {
      OneTypeLinksNothing(relations, t, id, n - 1);
    }
  }

  /** Registering a lone output. */
  lemma RegisteredAlone(reg: Registry, outputs: Outputs, files: map<Path, string>, k: nat)
    requires k < |OUTPUT_TYPES| && files.Keys == {OutputPath(outputs, k)}
    ensures Registered(reg, outputs, files)
      == RegisterFile(reg, outputs, OUTPUT_TYPES[k].1, OutputKey(outputs, k), Sha256(files[OutputPath(outputs, k)])).0
  {
    hide OUTPUT_TYPES, RegisterFile, Linked, Scanned;
    OnlyOutput(reg, outputs, files, k, |OUTPUT_TYPES|);
    var (after, id) :=
      RegisterFile(reg, outputs, OUTPUT_TYPES[k].1, OutputKey(outputs, k), Sha256(files[OutputPath(outputs, k)]));
    OneTypeLinksNothing(after.relations, OUTPUT_TYPES[k].1, id, |DERIVATIONS|);
  }

  function Version(outputs: Outputs, k: nat, version: int, content: string): Artifact
    requires k < |OUTPUT_TYPES|
  {
    Artifact(outputs.customerId, outputs.jobId, OUTPUT_TYPES[k].1, version, OutputKey(outputs, k), Sha256(content),
             Some(outputs.retentionUntil), Active)
  }

  lemma FirstVersion(outputs: Outputs, k: nat, content: string)
    requires k < |OUTPUT_TYPES|
    ensures RegisterFile(Registry([], []), outputs, OUTPUT_TYPES[k].1, OutputKey(outputs, k), Sha256(content)).0
         == Registry([Version(outputs, k, 1, content)], [])
  {
    hide OUTPUT_TYPES, OutputKey;
  }

  lemma SecondVersion(outputs: Outputs, k: nat, first: string, second: string)
    requires k < |OUTPUT_TYPES| && first != second
    ensures RegisterFile(Registry([Version(outputs, k, 1, first)], []), outputs, OUTPUT_TYPES[k].1,
                         OutputKey(outputs, k), Sha256(second)).0
         == Registry([Version(outputs, k, 1, first), Version(outputs, k, 2, second)], [Relation(0, 1, Supersedes)])
  {
    hide OUTPUT_TYPES, OutputKey;
    var rows := [Version(outputs, k, 1, first)];
    assert rows[..0] == [];
  }

  lemma OverwritingRun(roots: Roots, outputs: Outputs, k: nat, first: string, second: string)
    requires k < |OUTPUT_TYPES| && first != second
    ensures R.Run(roots, Overwriting(outputs, k, first, second))
         == R.State(Registry([Version(outputs, k, 1, first), Version(outputs, k, 2, second)],
                             [Relation(0, 1, Supersedes)]),
                    map[OutputPath(outputs, k) := second])
  {
    hide OUTPUT_TYPES, OutputPath, OutputKey, Registered, RegisterFile, Version;
    var steps := Overwriting(outputs, k, first, second);
    var path := OutputPath(outputs, k);
    assert steps[..3][..2] == steps[..2] && steps[..2][..1] == steps[..1] && steps[..1][..0] == [];
    assert R.Run(roots, steps[..1]) == R.State(Registry([], []), map[path := first]);
    RegisteredAlone(Registry([], []), outputs, map[path := first], k);
    FirstVersion(outputs, k, first);
    var one := Registry([Version(outputs, k, 1, first)], []);
    assert R.Run(roots, steps[..2]) == R.State(one, map[path := first]);
    assert R.Run(roots, steps[..3]) == R.State(one, map[path := second]);
    RegisteredAlone(one, outputs, map[path := second], k);
    SecondVersion(outputs, k, first, second);
  }

  lemma BothDue(outputs: Outputs, k: nat, first: string, second: string, asOf: int)
    requires k < |OUTPUT_TYPES| && outputs.retentionUntil <= asOf
    ensures Due([Version(outputs, k, 1, first), Version(outputs, k, 2, second)], asOf) == [0, 1]
  {
    hide OUTPUT_TYPES, OutputKey, IsDue, Version;
    var a, b := Version(outputs, k, 1, first), Version(outputs, k, 2, second);
    VersionDue(outputs, k, 1, first, asOf);
    VersionDue(outputs, k, 2, second, asOf);
    TwoDue(a, b, asOf);
  }

  lemma VersionDue(outputs: Outputs, k: nat, version: int, content: string, asOf: int)
    requires k < |OUTPUT_TYPES| && outputs.retentionUntil <= asOf
    ensures IsDue(Version(outputs, k, version, content), asOf)
  {
    hide OUTPUT_TYPES, OutputKey;
  }

  lemma TwoDue(a: Artifact, b: Artifact, asOf: int)
    requires IsDue(a, asOf) && IsDue(b, asOf)
    ensures Due([a, b], asOf) == [0, 1]
  {
    hide IsDue;
    var rows := [a, b];
    assert rows[..1] == [a] && rows[..1][..0] == [];
    assert Due(rows[..1], asOf) == [0];
  }

  /**
   * After the run both versions are due, archiving stops with a mismatch at version 1, and neither is archived. As the
   * first version's content is gone, every later attempt ends the same way, whatever its date and disk.
   */
  lemma OverwrittenSourceBlocks(roots: Roots, outputs: Outputs, k: nat, first: string, second: string, asOf: int,
      disk: Disk)
    requires k < |OUTPUT_TYPES| && first != second && outputs.retentionUntil <= asOf && roots.active == outputs.root
    ensures var s := R.Run(roots, Overwriting(outputs, k, first, second));
      && Due(s.registry.artifacts, asOf) == [0, 1]
      && ArchiveRun(Vault(s.registry.artifacts, s.files), roots, disk, [0, 1])
         == (Vault(s.registry.artifacts, s.files), Some(SourceMismatch(0)))
      && R.Apply(s, roots, R.Archive(asOf, disk)) == s
      && (forall id :: 0 <= id < |s.registry.artifacts| ==> s.registry.artifacts[id].status == Active)
  {
    hide *;
    OverwritingRun(roots, outputs, k, first, second);
    BothDue(outputs, k, first, second, asOf);
    StopsAtFirst(roots, outputs, k, first, second, disk);
    NothingArchived(R.Run(roots, Overwriting(outputs, k, first, second)), roots, asOf, disk, SourceMismatch(0));
    BothActive(outputs, k, first, second);
  }

  lemma BothActive(outputs: Outputs, k: nat, first: string, second: string)
    requires k < |OUTPUT_TYPES|
    ensures Version(outputs, k, 1, first).status == Active && Version(outputs, k, 2, second).status == Active
  {
  }

  /** The present content is not the one version 1 was registered with. */
  lemma StopsAtFirst(roots: Roots, outputs: Outputs, k: nat, first: string, second: string, disk: Disk)
    requires k < |OUTPUT_TYPES| && first != second && roots.active == outputs.root
    ensures var v :=
      Vault([Version(outputs, k, 1, first), Version(outputs, k, 2, second)], map[OutputPath(outputs, k) := second]);
      ArchiveRun(v, roots, disk, [0, 1]) == (v, Some(SourceMismatch(0)))
  {
    hide OUTPUT_TYPES, OutputKey;
    var v :=
      Vault([Version(outputs, k, 1, first), Version(outputs, k, 2, second)], map[OutputPath(outputs, k) := second]);
    assert SourcePath(roots, v.artifacts[0]) == OutputPath(outputs, k);
    assert ArchiveOne(v, roots, disk, 0) == (v, Some(SourceMismatch(0)));
    hide ArchiveOne;
    assert [0, 1][..1] == [0] && [0][..0] == [];
    assert ArchiveRun(v, roots, disk, [0]) == (v, Some(SourceMismatch(0)));
  }

  /** An archive step whose loop changes nothing changes nothing. */
  lemma NothingArchived(s: R.State, roots: Roots, asOf: int, disk: Disk, error: ArchiveError)
    requires ArchiveRun(Vault(s.registry.artifacts, s.files), roots, disk, Due(s.registry.artifacts, asOf))
      == (Vault(s.registry.artifacts, s.files), Some(error))
    ensures R.Apply(s, roots, R.Archive(asOf, disk)) == s
  {
    hide ArchiveRun, Due;
  }
}
