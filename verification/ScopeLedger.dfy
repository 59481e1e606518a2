/** Node resolution and the Primary-only evidence scope (topology.py, with the job validation of config.py). */
module ScopeLedger {
  import opened Common

  datatype Role = Primary | Standby | DR | Witness

  datatype Node = Node(hostname: string, role: Role, services: seq<string>)

  datatype Domain = Database | Os | Monitoring | Document | SystemMetadata | Unknown

  datatype Mapping = Mapping(path: string, node: string, domain: Domain)

  datatype Job = Job(nodes: seq<Node>, mappings: seq<Mapping>)

  datatype ResolutionStatus = Resolved | Unresolved | Ambiguous

  datatype Resolution = Resolution(
    hostname: Option<string>,
    role: Option<Role>,
    status: ResolutionStatus,
    matched: seq<string>,
    sources: seq<string>)

  /**
   * An inventory file with what text matching says about it: its sample text, its classified domain, and whether one
   * of its path parts is a PEM_check directory.
   */
  datatype File = File(path: string, sha256: string, image: bool, sample: string, domain: Domain, inPemCheck: bool)

  datatype Decision = Allowed | Excluded | Pending

  datatype Classified = Classified(file: File, domain: Domain, resolution: Resolution)

  datatype Entry = Entry(path: string, sha256: string, domain: Domain, resolution: Resolution, decision: Decision)

  /** str.casefold, and whether a text mentions a host or service name as a word of its own. */
  datatype Text = Text(fold: string -> string, mentions: (string, string) -> bool)

  const SOLE_OUTPUT_POLICY := "policy.single_database_output_defaults_to_primary"
  const MONITORING_IMAGE_POLICY := "policy.monitoring_images_default_to_primary"

  const UNRESOLVED := Resolution(None, None, Unresolved, [], [])

  // ----- What JobConfig guarantees -----

  ghost predicate UniqueHostnames(text: Text, nodes: seq<Node>) {
    forall i, j :: 0 <= i < j < |nodes| ==> text.fold(nodes[i].hostname) != text.fold(nodes[j].hostname)
  }

  ghost predicate OnePrimary(nodes: seq<Node>) {
    && (exists i :: 0 <= i < |nodes| && nodes[i].role == Primary)
    && (forall i, j ::
      0 <= i < |nodes| && 0 <= j < |nodes| && nodes[i].role == Primary && nodes[j].role == Primary ==> i == j)
  }

  ghost predicate MappingOk(text: Text, nodes: seq<Node>, m: Mapping) {
    m.domain == Database && exists i :: 0 <= i < |nodes| && text.fold(nodes[i].hostname) == text.fold(m.node)
  }

  ghost predicate ValidJob(text: Text, job: Job) {
    && UniqueHostnames(text, job.nodes) && OnePrimary(job.nodes)
    && (forall i :: 0 <= i < |job.mappings| ==> MappingOk(text, job.nodes, job.mappings[i]))
  }

  // ----- Resolving a node -----

  /** The hostnames mentioned in a text, in configuration order. */
  function HostMatches(text: Text, nodes: seq<Node>, value: string): seq<string> {
    if nodes == [] then []
    else
      var before, node := HostMatches(text, nodes[..|nodes| - 1], value), nodes[|nodes| - 1];
      if text.mentions(value, node.hostname) then before + [node.hostname] else before
  }

  predicate MentionsService(text: Text, value: string, services: seq<string>) {
    exists i :: 0 <= i < |services| && text.mentions(value, services[i])
  }

  /** The hostnames with a service mentioned in a text, each once. */
  function ServiceMatches(text: Text, nodes: seq<Node>, value: string): seq<string> {
    if nodes == [] then []
    else
      var before, node := ServiceMatches(text, nodes[..|nodes| - 1], value), nodes[|nodes| - 1];
      if MentionsService(text, value, node.services) then before + [node.hostname] else before
  }

  /** The first configured node with the hostname, up to case. */
  function FindNode(text: Text, nodes: seq<Node>, hostname: string): (r: Option<Node>)
    ensures r.Some? ==> r.value in nodes && text.fold(r.value.hostname) == text.fold(hostname)
    ensures r.None? ==> forall i :: 0 <= i < |nodes| ==> text.fold(nodes[i].hostname) != text.fold(hostname)
  {
    if nodes == [] then None
    else if text.fold(nodes[0].hostname) == text.fold(hostname) then Some(nodes[0])
    else FindNode(text, nodes[1..], hostname)
  }

  function ResolvedTo(node: Node, matched: seq<string>, source: string): Resolution {
    Resolution(Some(node.hostname), Some(node.role), Resolved, matched, [source])
  }

  /** What a nonempty list of matching hostnames resolves to. */
  function FromMatches(text: Text, nodes: seq<Node>, matches: seq<string>, source: string): Resolution
    requires matches != []
  {
    if |matches| == 1 && FindNode(text, nodes, matches[0]).Some? then
      ResolvedTo(FindNode(text, nodes, matches[0]).value, matches, source)
    else Resolution(None, None, Ambiguous, matches, [source])
  }

  function ResolveNode(text: Text, file: File, job: Job): Resolution {
    var byPath, byService := HostMatches(text, job.nodes, file.path), ServiceMatches(text, job.nodes, file.path);
    var byContent := if file.sample == [] then [] else HostMatches(text, job.nodes, file.sample);
    if byPath != [] then FromMatches(text, job.nodes, byPath, "relative_path")
    else if byService != [] then FromMatches(text, job.nodes, byService, "service_path")
    else if byContent != [] then FromMatches(text, job.nodes, byContent, "content")
    else UNRESOLVED
  }

  predicate Names(r: Resolution, node: Node) {
    r.hostname == Some(node.hostname) && r.role == Some(node.role)
  }

  /** The node a resolution names is configured, with that role. */
  predicate Configured(job: Job, r: Resolution) {
    r.status == Resolved ==> exists i :: 0 <= i < |job.nodes| && Names(r, job.nodes[i])
  }

  lemma {:induction false} HostMatchesConfigured(text: Text, nodes: seq<Node>, value: string)
    ensures forall h :: h in HostMatches(text, nodes, value) <==>
      exists i :: 0 <= i < |nodes| && nodes[i].hostname == h && text.mentions(value, nodes[i].hostname)
  {
    if nodes != [] {
      var n := |nodes| - 1;
      HostMatchesConfigured(text, nodes[..n], value);
      forall h
        ensures h in HostMatches(text, nodes, value) <==>
          exists i :: 0 <= i < |nodes| && nodes[i].hostname == h && text.mentions(value, nodes[i].hostname)
      {
        if i :| 0 <= i < |nodes| && nodes[i].hostname == h && text.mentions(value, nodes[i].hostname) && i < n {
          assert nodes[..n][i] == nodes[i];
        }
      }
    }
  }

  lemma {:induction false} ServiceMatchesConfigured(text: Text, nodes: seq<Node>, value: string)
    ensures forall h :: h in ServiceMatches(text, nodes, value) ==>
      exists i :: 0 <= i < |nodes| && nodes[i].hostname == h
  {
    if nodes != [] {
      ServiceMatchesConfigured(text, nodes[..|nodes| - 1], value);
    }
  }

  /** A single match is always found again, so more than one match is what makes a resolution ambiguous. */
  lemma ResolveNodeMeans(text: Text, file: File, job: Job)
    ensures Configured(job, ResolveNode(text, file, job))
    ensures var r := ResolveNode(text, file, job);
      && (r.status == Resolved <==> |r.matched| == 1)
      && (r.status == Unresolved <==> r.matched == [])
  {
    HostMatchesConfigured(text, job.nodes, file.path);
    HostMatchesConfigured(text, job.nodes, file.sample);
    ServiceMatchesConfigured(text, job.nodes, file.path);
    hide HostMatches, ServiceMatches;
    var r := ResolveNode(text, file, job);
    if r != UNRESOLVED {
      var found := FindNode(text, job.nodes, r.matched[0]);
      assert r.matched[0] in r.matched;
    }
  }

  // ----- Classifying one file -----

  function MappingFor(text: Text, mappings: seq<Mapping>, path: string): (r: Option<Mapping>)
    ensures r.Some? ==> r.value in mappings && text.fold(r.value.path) == text.fold(path)
  {
    if mappings == [] then None
    else if text.fold(mappings[0].path) == text.fold(path) then Some(mappings[0])
    else MappingFor(text, mappings[1..], path)
  }

  predicate RunsPem(text: Text, nodes: seq<Node>, hostname: string) {
    exists i :: 0 <= i < |nodes| && text.fold(nodes[i].hostname) == text.fold(hostname)
      && exists s :: 0 <= s < |nodes[i].services| && text.fold(nodes[i].services[s]) == "pem"
  }

  /** Output of the PEM backend: a Witness found by its service path, running pem, under a PEM_check directory. */
  predicate PemBackend(text: Text, file: File, job: Job) {
    var natural := ResolveNode(text, file, job);
    && natural.status == Resolved && natural.sources == ["service_path"] && natural.role == Some(Witness)
    && natural.hostname.Some? && RunsPem(text, job.nodes, natural.hostname.value)
    && file.inPemCheck
  }

  function PrimaryNode(nodes: seq<Node>): (r: Node)
    requires exists i :: 0 <= i < |nodes| && nodes[i].role == Primary
    ensures r in nodes && r.role == Primary
  {
    if nodes[0].role == Primary then nodes[0] else PrimaryNode(nodes[1..])
  }

  function ToPrimary(primary: Node, policy: string): Resolution {
    Resolution(Some(primary.hostname), Some(primary.role), Resolved, [primary.hostname], [policy])
  }

  /** Domain and resolution before the image policy. */
  function Judged(text: Text, file: File, job: Job): Classified {
    var mapping, natural := MappingFor(text, job.mappings, file.path), ResolveNode(text, file, job);
    if mapping.None? then Classified(file, file.domain, natural)
    else if PemBackend(text, file, job) then
      Classified(file, Database, natural.(sources := ["service_path", "policy.pem_backend_database_scope"]))
    else
      var node := FindNode(text, job.nodes, mapping.value.node);
      if node.None? then Classified(file, mapping.value.domain, UNRESOLVED)
      else
        Classified(file, mapping.value.domain,
                   ResolvedTo(node.value, [node.value.hostname], "operator_confirmed_evidence_mapping"))
  }

  /** Monitoring images that name no node belong to the Primary. */
  function Classify(text: Text, file: File, job: Job): Classified
    requires OnePrimary(job.nodes)
  {
    var c := Judged(text, file, job);
    if c.domain == Monitoring && file.image && c.resolution.status == Unresolved then
      c.(resolution := ToPrimary(PrimaryNode(job.nodes), MONITORING_IMAGE_POLICY))
    else c
  }

  // ----- Deciding -----

  function ScopeDecision(domain: Domain, r: Resolution): Decision {
    match domain
    case SystemMetadata => Excluded
    case Database => if r.status != Resolved then Pending else if r.role == Some(Primary) then Allowed else Excluded
    case Os => if r.status == Resolved then Allowed else Pending
    case Monitoring => if r.status == Resolved then Allowed else Pending
    case Document => Pending
    case Unknown => Pending
  }

  predicate UnresolvedDatabase(c: Classified) {
    c.domain == Database && c.resolution.status == Unresolved
  }

  /** The only database file of the inventory, and it names no node. */
  predicate SoleUnresolved(all: seq<Classified>, i: nat) {
    && i < |all| && UnresolvedDatabase(all[i])
    && forall j :: 0 <= j < |all| && all[j].domain == Database ==> j == i
  }

  function Bound(all: seq<Classified>, i: nat, primary: Node): Classified
    requires i < |all|
  {
    if SoleUnresolved(all, i) then all[i].(resolution := ToPrimary(primary, SOLE_OUTPUT_POLICY))
    else all[i]
  }

  function EntryOf(c: Classified): Entry {
    Entry(c.file.path, c.file.sha256, c.domain, c.resolution, ScopeDecision(c.domain, c.resolution))
  }

  function AllClassified(text: Text, files: seq<File>, job: Job): (r: seq<Classified>)
    requires OnePrimary(job.nodes)
    ensures |r| == |files| && forall i :: 0 <= i < |files| ==> r[i] == Classify(text, files[i], job)
  {
    if files == [] then []
    else AllClassified(text, files[..|files| - 1], job) + [Classify(text, files[|files| - 1], job)]
  }

  /** The ledger entry of file i: what its own text says, unless it is the sole unresolved database file. */
  function LedgerEntry(text: Text, files: seq<File>, job: Job, i: nat): Entry
    requires OnePrimary(job.nodes) && i < |files|
  {
    EntryOf(Bound(AllClassified(text, files, job), i, PrimaryNode(job.nodes)))
  }

  function Count(evidence: seq<Entry>, decision: Decision): nat {
    if evidence == [] then 0
    else Count(evidence[..|evidence| - 1], decision) + if evidence[|evidence| - 1].decision == decision then 1 else 0
  }

  lemma {:induction false} CountsAddUp(evidence: seq<Entry>)
    ensures Count(evidence, Allowed) + Count(evidence, Excluded) + Count(evidence, Pending) == |evidence|
  {
    if evidence != [] {
      CountsAddUp(evidence[..|evidence| - 1]);
    }
  }

  // ----- The ledger loops -----

  /** The indexes of the database files, and of those among them that name no node. */
  method DatabaseIndexes(all: seq<Classified>) returns (database: seq<nat>, unresolved: seq<nat>)
    ensures forall i: nat :: i in database <==> i < |all| && all[i].domain == Database
    ensures forall i: nat :: i in unresolved <==> i < |all| && UnresolvedDatabase(all[i])
    ensures forall a, b :: 0 <= a < b < |database| ==> database[a] < database[b]
    ensures forall a, b :: 0 <= a < b < |unresolved| ==> unresolved[a] < unresolved[b]
  {
    database, unresolved := [], [];
    for k := 0 to |all|
      invariant forall i: nat :: i in database <==> i < k && all[i].domain == Database
      invariant forall i: nat :: i in unresolved <==> i < k && UnresolvedDatabase(all[i])
      invariant forall a, b :: 0 <= a < b < |database| ==> database[a] < database[b]
      invariant forall a, b :: 0 <= a < b < |unresolved| ==> unresolved[a] < unresolved[b]
    {
      assert forall a :: 0 <= a < |database| ==> database[a] in database;
      assert forall a :: 0 <= a < |unresolved| ==> unresolved[a] in unresolved;
      if all[k].domain == Database {
        database := database + [k];
        if all[k].resolution.status == Unresolved {
          unresolved := unresolved + [k];
        }
      }
    }
  }

  lemma SoleByIndexes(all: seq<Classified>, database: seq<nat>, unresolved: seq<nat>, i: nat)
    requires forall i: nat :: i in database <==> i < |all| && all[i].domain == Database
    requires forall i: nat :: i in unresolved <==> i < |all| && UnresolvedDatabase(all[i])
    requires forall a, b :: 0 <= a < b < |database| ==> database[a] < database[b]
    requires forall a, b :: 0 <= a < b < |unresolved| ==> unresolved[a] < unresolved[b]
    ensures SoleUnresolved(all, i) <==> |database| == 1 && |unresolved| == 1 && unresolved[0] == i
  {
    assert |database| > 1 ==> database[0] < database[1];
    assert |unresolved| > 1 ==> unresolved[0] < unresolved[1];
    if |database| == 1 && |unresolved| == 1 && unresolved[0] == i {
      assert unresolved[0] in unresolved && i in database;
      forall j: nat | j < |all| && all[j].domain == Database
        ensures j == i
      {
        assert j in database;
      }
    }
    if SoleUnresolved(all, i) {
      assert i in database && i in unresolved;
      forall a | 0 <= a < |database|
        ensures database[a] == i
      {
        assert database[a] in database && all[database[a]].domain == Database;
      }
      forall a | 0 <= a < |unresolved|
        ensures unresolved[a] == i
      {
        assert unresolved[a] in unresolved && all[unresolved[a]].domain == Database;
      }
    }
  }

  method ClassifyAll(text: Text, files: seq<File>, job: Job) returns (classified: seq<Classified>)
    requires OnePrimary(job.nodes)
    ensures classified == AllClassified(text, files, job)
  {
    hide Classify, OnePrimary;
    classified := [];
    for k := 0 to |files|
      invariant classified == AllClassified(text, files[..k], job)
    {
      assert files[..k + 1][..k] == files[..k];
      classified := classified + [Classify(text, files[k], job)];
    }
    assert files[..|files|] == files;
  }

  /** The single-output default: overwrite the one unresolved entry when it is the one database entry. */
  method BindSole(all: seq<Classified>, primary: Node) returns (classified: seq<Classified>)
    ensures |classified| == |all|
    ensures forall i :: 0 <= i < |all| ==> classified[i] == Bound(all, i, primary)
  {
    hide SoleUnresolved;
    classified := all;
    var database, unresolved := DatabaseIndexes(all);
    if |database| == 1 && |unresolved| == 1 {
      var index := unresolved[0];
      assert index in unresolved;
      var bound := classified[index].(resolution := ToPrimary(primary, SOLE_OUTPUT_POLICY));
      classified := classified[index := bound];
    }
    forall i | 0 <= i < |all|
      ensures classified[i] == Bound(all, i, primary)
    {
      SoleByIndexes(all, database, unresolved, i);
    }
  }

  method Decide(classified: seq<Classified>) returns (evidence: seq<Entry>)
    ensures |evidence| == |classified| && forall i :: 0 <= i < |classified| ==> evidence[i] == EntryOf(classified[i])
  {
    hide ScopeDecision;
    evidence := [];
    for k := 0 to |classified|
      invariant |evidence| == k && forall i :: 0 <= i < k ==> evidence[i] == EntryOf(classified[i])
    {
      evidence := evidence + [EntryOf(classified[k])];
    }
  }

  /** build_scope_ledger: classify every file, bind a sole unresolved database output, decide every entry, count. */
  method BuildScopeLedger(text: Text, files: seq<File>, job: Job)
      returns (evidence: seq<Entry>, allowed: nat, excluded: nat, pending: nat)
    requires ValidJob(text, job)
    ensures |evidence| == |files|
    ensures forall i :: 0 <= i < |files| ==> evidence[i] == LedgerEntry(text, files, job, i)
    ensures allowed == Count(evidence, Allowed) && excluded == Count(evidence, Excluded)
      && pending == Count(evidence, Pending)
    ensures allowed + excluded + pending == |files|
  {
    var primary := PrimaryNode(job.nodes);
    hide Classify, UniqueHostnames, MappingOk, PrimaryNode, Bound, EntryOf;
    var all := ClassifyAll(text, files, job);
    var classified := BindSole(all, primary);
    evidence := Decide(classified);
    allowed, excluded, pending := Count(evidence, Allowed), Count(evidence, Excluded), Count(evidence, Pending);
    CountsAddUp(evidence);
  }

  // ----- What the ledger guarantees -----

  /** The configured Primary is one node, so a Primary resolution names it. */
  predicate NamesPrimary(job: Job, r: Resolution) {
    r.status == Resolved && exists i :: 0 <= i < |job.nodes| && job.nodes[i].role == Primary && Names(r, job.nodes[i])
  }

  lemma ClassifiedConfigured(text: Text, file: File, job: Job)
    requires ValidJob(text, job)
    ensures Configured(job, Classify(text, file, job).resolution)
  {
    ResolveNodeMeans(text, file, job);
    hide ResolveNode, RunsPem, UniqueHostnames;
    var mapping := MappingFor(text, job.mappings, file.path);
    if mapping.Some? {
      var node := FindNode(text, job.nodes, mapping.value.node);
    }
  }

  /** Every allowed database entry is resolved to the one configured Primary. */
  lemma AllowedDatabaseIsPrimary(text: Text, files: seq<File>, job: Job, i: nat)
    requires ValidJob(text, job) && i < |files|
    ensures var e := LedgerEntry(text, files, job, i);
      e.domain == Database ==> (e.decision == Allowed <==> NamesPrimary(job, e.resolution))
  {
    ClassifiedConfigured(text, files[i], job);
    hide Classify, UniqueHostnames, MappingOk, SoleUnresolved;
  }

  lemma OneNamedPrimary(job: Job, r: Resolution, s: Resolution)
    requires OnePrimary(job.nodes) && NamesPrimary(job, r) && NamesPrimary(job, s)
    ensures r.hostname == s.hostname
  {
  }

  /** An operator mapping never turns PEM-backend output into allowed database evidence. */
  lemma PemBackendStaysOut(text: Text, files: seq<File>, job: Job, i: nat)
    requires ValidJob(text, job) && i < |files|
    requires PemBackend(text, files[i], job) && MappingFor(text, job.mappings, files[i].path).Some?
    ensures var e := LedgerEntry(text, files, job, i);
      e.domain == Database && e.decision == Excluded && e.resolution.role == Some(Witness)
  {
    hide ResolveNode, RunsPem, UniqueHostnames, MappingOk, OnePrimary;
  }

  /** With or without a mapping, PEM-backend output is never allowed database evidence. */
  lemma PemBackendNeverAllowed(text: Text, files: seq<File>, job: Job, i: nat)
    requires ValidJob(text, job) && i < |files| && PemBackend(text, files[i], job)
    ensures var e := LedgerEntry(text, files, job, i);
      && e.resolution.role == Some(Witness)
      && !(e.domain == Database && e.decision == Allowed)
  {
    hide ResolveNode, RunsPem, UniqueHostnames, MappingOk, OnePrimary;
  }

  predicate BoundByDefault(e: Entry) {
    e.resolution.sources == [SOLE_OUTPUT_POLICY]
  }

  lemma NaturalSources(text: Text, file: File, job: Job)
    requires OnePrimary(job.nodes)
    ensures Classify(text, file, job).resolution.sources != [SOLE_OUTPUT_POLICY]
  {
    var r := ResolveNode(text, file, job);
    assert r.sources in {[], ["relative_path"], ["service_path"], ["content"]};
    hide ResolveNode, RunsPem, FindNode;
  }

  /** The default binds a file exactly when it is the one database entry and names no node; so it binds at most one. */
  lemma DefaultBindsSoleOutput(text: Text, files: seq<File>, job: Job, i: nat)
    requires ValidJob(text, job) && i < |files|
    ensures BoundByDefault(LedgerEntry(text, files, job, i)) <==> SoleUnresolved(AllClassified(text, files, job), i)
    ensures BoundByDefault(LedgerEntry(text, files, job, i)) ==>
      forall j: nat :: j < |files| && LedgerEntry(text, files, job, j).domain == Database ==> j == i
  {
    NaturalSources(text, files[i], job);
    hide Classify, ValidJob, PrimaryNode;
    forall j: nat | j < |files|
      ensures LedgerEntry(text, files, job, j).domain == AllClassified(text, files, job)[j].domain
    {
    }
  }

  // ----- Permuting the inventory -----

  ghost predicate IsPermutation(p: seq<nat>, n: nat) {
    && |p| == n
    && (forall i :: 0 <= i < n ==> p[i] < n)
    && (forall i, j :: 0 <= i < j < n ==> p[i] != p[j])
    && (forall v: nat :: v < n ==> v in p)
  }

  ghost predicate Permuted<T(!new)>(xs: seq<T>, ys: seq<T>, p: seq<nat>) {
    |ys| == |xs| && IsPermutation(p, |xs|) && forall i :: 0 <= i < |ys| ==> ys[i] == xs[p[i]]
  }

  lemma SolePermuted(all: seq<Classified>, all': seq<Classified>, p: seq<nat>, i: nat)
    requires Permuted(all, all', p) && i < |all|
    ensures SoleUnresolved(all', i) <==> SoleUnresolved(all, p[i])
  {
    if SoleUnresolved(all', i) {
      forall j: nat | j < |all| && all[j].domain == Database
        ensures j == p[i]
      {
        assert j in p;
        var k :| 0 <= k < |p| && p[k] == j;
        assert all'[k] == all[j];
      }
    }
    if SoleUnresolved(all, p[i]) {
      forall j: nat | j < |all'| && all'[j].domain == Database
        ensures j == i
      {
        assert all'[j] == all[p[j]];
      }
    }
  }

  /** Permuting the inventory permutes the ledger. */
  lemma LedgerPermutes(text: Text, files: seq<File>, files': seq<File>, job: Job, p: seq<nat>, i: nat)
    requires ValidJob(text, job) && Permuted(files, files', p) && i < |files|
    ensures LedgerEntry(text, files', job, i) == LedgerEntry(text, files, job, p[i])
  {
    hide Classify, UniqueHostnames, MappingOk, PrimaryNode;
    SolePermuted(AllClassified(text, files, job), AllClassified(text, files', job), p, i);
  }
}
