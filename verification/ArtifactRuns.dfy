/** Every run of registrations, archivings, delete requests and outside file writes. */
module ArtifactRuns {
  import opened Common
  import opened ArtifactRegistry
  import opened ArtifactArchive

  datatype State = State(registry: Registry, files: map<Path, string>)

  /** Write stands for anything that creates, changes or removes a file without the registry. */
  datatype Step =
    | Write(path: Path, content: Option<string>)
    | Register(outputs: Outputs)
    | Archive(asOf: int, disk: Disk)
    | RequestDelete(customerId: string, id: nat, reason: string)
    | CancelDelete(customerId: string, id: nat, reason: string)

  datatype DeleteError = BlankReason | NotFound | WrongStatus

  /** Common part of request_delete and cancel_delete: an artifact of the customer in status from goes to status to. */
  function StatusChange(artifacts: seq<Artifact>, customerId: string, id: nat, reason: string,
                        from: ArchiveStatus, to: ArchiveStatus): Result<seq<Artifact>, DeleteError> {
    if Strip(reason) == [] then Err(BlankReason)
    else if id >= |artifacts| || artifacts[id].customerId != customerId then Err(NotFound)
    else if artifacts[id].status != from then Err(WrongStatus)
    else Ok(artifacts[id := artifacts[id].(status := to)])
  }

  function AfterChange(s: State, r: Result<seq<Artifact>, DeleteError>): State {
    if r.Ok? then s.(registry := s.registry.(artifacts := r.value)) else s
  }

  function Archived(s: State, roots: Roots, asOf: int, disk: Disk): State {
    var v := ArchiveRun(Vault(s.registry.artifacts, s.files), roots, disk, Due(s.registry.artifacts, asOf)).0;
    State(s.registry.(artifacts := v.artifacts), v.files)
  }

  function Apply(s: State, roots: Roots, step: Step): State {
    match step
    case Write(path, content) =>
      s.(files := if content.Some? then s.files[path := content.value] else Remove(s.files, path))
    case Register(outputs) => s.(registry := Registered(s.registry, outputs, s.files))
    case Archive(asOf, disk) => Archived(s, roots, asOf, disk)
    case RequestDelete(customerId, id, reason) =>
      AfterChange(s, StatusChange(s.registry.artifacts, customerId, id, reason, ArchiveStatus.Archived, PendingDelete))
    case CancelDelete(customerId, id, reason) =>
      AfterChange(s, StatusChange(s.registry.artifacts, customerId, id, reason, PendingDelete, ArchiveStatus.Archived))
  }

  function Run(roots: Roots, steps: seq<Step>): State {
    if steps == [] then State(Registry([], []), map[])
    else Apply(Run(roots, steps[..|steps| - 1]), roots, steps[|steps| - 1])
  }

  /** Nobody else writes in the archive tree, and no job writes its outputs under a directory called artifacts. */
  predicate Tidy(roots: Roots, step: Step) {
    match step
    case Write(path, _) => !InTree(roots, path)
    case Register(outputs) => outputs.dir != [] && outputs.dir[0] != "artifacts"
    case _ => true
  }

  ghost predicate TidySteps(roots: Roots, steps: seq<Step>) {
    forall k :: 0 <= k < |steps| ==> Tidy(roots, steps[k])
  }

  /** Active rows have keys outside the archive directory; nothing is ever marked deleted. */
  predicate RowKey(a: Artifact) {
    a.status != Deleted && (a.status == Active ==> a.key != [] && a.key[0] != "artifacts")
  }

  ghost predicate KeysOk(artifacts: seq<Artifact>) {
    forall i :: 0 <= i < |artifacts| ==> RowKey(artifacts[i])
  }

  ghost predicate StateInv(s: State, roots: Roots) {
    RegInv(s.registry) && VaultInv(Vault(s.registry.artifacts, s.files), roots) && KeysOk(s.registry.artifacts)
  }

  // ----- Changing one row -----

  /** Facts of a row that versions and relations are about. */
  predicate SameFacts(a: Artifact, b: Artifact) {
    a.jobId == b.jobId && a.artifactType == b.artifactType && a.version == b.version && a.digest == b.digest
  }

  lemma RowChanged(reg: Registry, id: nat, a: Artifact)
    requires RegInv(reg) && id < |reg.artifacts| && SameFacts(reg.artifacts[id], a) && NameOk(a)
    requires forall j: nat :: j < |reg.artifacts| && j != id ==> reg.artifacts[j].key != a.key
    ensures RegInv(reg.(artifacts := reg.artifacts[id := a]))
  {
    var artifacts := reg.artifacts[id := a];
    hide NameOk;
    VersionsSurvive(reg.artifacts, id, a);
    forall p: nat, c: nat
      ensures Consecutive(artifacts, p, c) <==> Consecutive(reg.artifacts, p, c)
      ensures Derivation(artifacts, p, c) <==> Derivation(reg.artifacts, p, c)
    {
    }
  }

  lemma VersionsSurvive(artifacts: seq<Artifact>, id: nat, a: Artifact)
    requires VersionsOk(artifacts) && id < |artifacts| && SameFacts(artifacts[id], a)
    ensures VersionsOk(artifacts[id := a])
  {
    var after := artifacts[id := a];
    forall i, v | 0 <= i < |after| && 1 <= v <= after[i].version
      ensures HasVersion(after, after[i], v)
    {
      assert HasVersion(artifacts, artifacts[i], v);
      var j :| 0 <= j < |artifacts| && SameLine(artifacts[j], artifacts[i]) && artifacts[j].version == v;
      assert SameLine(after[j], after[i]) && after[j].version == v;
    }
  }

  /** Only the status differs: nothing the registry invariant speaks about. */
  lemma StatusChanged(reg: Registry, id: nat, status: ArchiveStatus)
    requires RegInv(reg) && id < |reg.artifacts|
    ensures RegInv(reg.(artifacts := reg.artifacts[id := reg.artifacts[id].(status := status)]))
  {
    var a := reg.artifacts[id].(status := status);
    var artifacts := reg.artifacts[id := a];
    VersionsSurvive(reg.artifacts, id, a);
    hide VersionsOk;
    forall p: nat, c: nat
      ensures Consecutive(artifacts, p, c) <==> Consecutive(reg.artifacts, p, c)
      ensures Derivation(artifacts, p, c) <==> Derivation(reg.artifacts, p, c)
    {
    }
  }

  /** No other row has the key that archiving gives a row. */
  lemma TargetKeyFree(artifacts: seq<Artifact>, files: map<Path, string>, roots: Roots, id: nat, j: nat)
    requires VaultInv(Vault(artifacts, files), roots) && KeysOk(artifacts)
    requires id < |artifacts| && j < |artifacts| && j != id
    ensures artifacts[j].key != TargetKey(artifacts[id], id)
  {
    assert RowKey(artifacts[j]);
    if artifacts[j].status != Active {
      assert Kept(artifacts[j].status) && Safe(artifacts, files, roots, j);
      assert artifacts[j].key[3] == Decimal(j) && TargetKey(artifacts[id], id)[3] == Decimal(id);
      if Decimal(j) == Decimal(id) {
        DecimalInjective(j, id);
      }
    }
  }

  lemma ArchivedNameOk(a: Artifact, id: nat)
    requires NameOk(a)
    ensures NameOk(ArchivedRow(a, id))
  {
    assert LastPart(TargetKey(a, id)) == LastPart(a.key);
    hide OUTPUT_TYPES;
  }

  lemma {:induction false} ArchiveOneReg(reg: Registry, files: map<Path, string>, roots: Roots, disk: Disk, id: nat)
    requires StateInv(State(reg, files), roots) && id < |reg.artifacts|
    ensures var v := ArchiveOne(Vault(reg.artifacts, files), roots, disk, id).0;
      RegInv(reg.(artifacts := v.artifacts)) && KeysOk(v.artifacts)
  {
    var a := ArchivedRow(reg.artifacts[id], id);
    forall j: nat | j < |reg.artifacts| && j != id
      ensures reg.artifacts[j].key != a.key
    {
      TargetKeyFree(reg.artifacts, files, roots, id, j);
    }
    ArchivedNameOk(reg.artifacts[id], id);
    RowChanged(reg, id, a);
    hide RegInv, NameOk;
    assert reg.(artifacts := reg.artifacts) == reg;
  }

  lemma {:induction false} ArchiveRunReg(reg: Registry, files: map<Path, string>, roots: Roots, disk: Disk,
      due: seq<nat>)
    requires StateInv(State(reg, files), roots) && AllActive(reg.artifacts, due)
    ensures var v := ArchiveRun(Vault(reg.artifacts, files), roots, disk, due).0;
      StateInv(State(reg.(artifacts := v.artifacts), v.files), roots)
  {
    hide RegInv, VaultInv, ArchiveOne, KeysOk, ExactlyArchived, OutsideUnchanged;
    ArchiveRunMeans(Vault(reg.artifacts, files), roots, disk, due);
    if due == [] {
      assert reg.(artifacts := reg.artifacts) == reg;
    } else {
      var n := |due| - 1;
      var (v, error) := ArchiveRun(Vault(reg.artifacts, files), roots, disk, due[..n]);
      ArchiveRunReg(reg, files, roots, disk, due[..n]);
      if error.None? {
        ArchiveOneReg(reg.(artifacts := v.artifacts), v.files, roots, disk, due[n]);
      }
    }
  }

  lemma {:induction false} ScannedKeys(s: State, roots: Roots, outputs: Outputs, n: nat)
    requires StateInv(s, roots) && Tidy(roots, Register(outputs)) && n <= |OUTPUT_TYPES|
    ensures var after := Scanned(s.registry, outputs, s.files, n).0;
      KeysOk(after.artifacts) && VaultInv(Vault(after.artifacts, s.files), roots)
  {
    hide OUTPUT_TYPES, RegInv, Safe, FindFile, Latest;
    if n > 0 {
      ScannedKeys(s, roots, outputs, n - 1);
      var before := Scanned(s.registry, outputs, s.files, n - 1).0;
      forall i: nat, rows: seq<Artifact> | i < |before.artifacts| && before.artifacts <= rows
        ensures Safe(rows, s.files, roots, i) <==> Safe(before.artifacts, s.files, roots, i)
      {
        SafeStays(before.artifacts, rows, s.files, roots, i);
      }
    }
  }

  lemma SafeStays(artifacts: seq<Artifact>, rows: seq<Artifact>, files: map<Path, string>, roots: Roots, i: nat)
    requires i < |artifacts| && artifacts <= rows
    ensures Safe(rows, files, roots, i) <==> Safe(artifacts, files, roots, i)
  {
    assert rows[i] == artifacts[i];
  }

  lemma {:induction false} ChangeInv(
      s: State, roots: Roots, customerId: string, id: nat, reason: string, from: ArchiveStatus, to: ArchiveStatus)
    requires StateInv(s, roots) && Kept(from) && Kept(to)
    ensures StateInv(AfterChange(s, StatusChange(s.registry.artifacts, customerId, id, reason, from, to)), roots)
  {
    var r := StatusChange(s.registry.artifacts, customerId, id, reason, from, to);
    if r.Ok? {
      StatusChanged(s.registry, id, to);
      hide RegInv, Strip;
      assert Safe(s.registry.artifacts, s.files, roots, id);
      forall j: nat | j < |r.value| && Kept(r.value[j].status)
        ensures Safe(r.value, s.files, roots, j)
      {
        assert Safe(s.registry.artifacts, s.files, roots, j);
      }
    }
  }

  lemma WriteInv(s: State, roots: Roots, path: Path, content: Option<string>)
    requires StateInv(s, roots) && !InTree(roots, path)
    ensures StateInv(Apply(s, roots, Write(path, content)), roots)
  {
    hide RegInv;
    forall j: nat | j < |s.registry.artifacts| && Kept(s.registry.artifacts[j].status)
      ensures Safe(s.registry.artifacts, Apply(s, roots, Write(path, content)).files, roots, j)
    {
      assert Safe(s.registry.artifacts, s.files, roots, j);
      InsideTree(roots, s.registry.artifacts[j], j);
    }
  }

  lemma ApplyInv(s: State, roots: Roots, step: Step)
    requires StateInv(s, roots) && Tidy(roots, step)
    ensures StateInv(Apply(s, roots, step), roots)
  {
    hide RegInv, VaultInv, KeysOk, Scanned, Linked, ArchiveRun, StatusChange, AfterChange, OUTPUT_TYPES, DERIVATIONS,
      InTree;
    match step
    case Write(path, content) => WriteInv(s, roots, path, content);
    case Register(outputs) =>
      RegisteredInv(s.registry, outputs, s.files);
      ScannedKeys(s, roots, outputs, |OUTPUT_TYPES|);
    case Archive(asOf, disk) =>
      ArchiveRunReg(s.registry, s.files, roots, disk, Due(s.registry.artifacts, asOf));
    case RequestDelete(customerId, id, reason) =>
      ChangeInv(s, roots, customerId, id, reason, ArchiveStatus.Archived, PendingDelete);
    case CancelDelete(customerId, id, reason) =>
      ChangeInv(s, roots, customerId, id, reason, PendingDelete, ArchiveStatus.Archived);
  }

  /**
   * After every run: versions and relations are in order, and every archived or pending_delete artifact has a file
   * with its registered digest at its key.
   */
  lemma {:induction false} RunInv(roots: Roots, steps: seq<Step>)
    requires TidySteps(roots, steps)
    ensures StateInv(Run(roots, steps), roots)
  {
    if steps != [] {
      var n := |steps| - 1;
      RunInv(roots, steps[..n]);
      ApplyInv(Run(roots, steps[..n]), roots, steps[n]);
    }
  }
}
