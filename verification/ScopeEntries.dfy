/** What a ledger entry says about its file: hostnames, services, operator mappings and policies (topology.py). */
module ScopeEntries {
  import opened Common
  import opened ScopeLedger

  // ----- The nodes that a text names -----

  ghost function Hosts(text: Text, nodes: seq<Node>, value: string): set<nat> {
    set i: nat | i < |nodes| && text.mentions(value, nodes[i].hostname)
  }

  predicate Serves(text: Text, node: Node, value: string) {
    exists s :: 0 <= s < |node.services| && text.mentions(value, node.services[s])
  }

  ghost function Servers(text: Text, nodes: seq<Node>, value: string): set<nat> {
    set i: nat | i < |nodes| && Serves(text, nodes[i], value)
  }

  /** The content counts only when there is any. */
  ghost function InContent(text: Text, nodes: seq<Node>, sample: string): set<nat> {
    if sample == [] then {} else Hosts(text, nodes, sample)
  }

  /** The hostnames of the nodes in hits, in configuration order. */
  ghost predicate NamesOf(nodes: seq<Node>, hits: set<nat>, names: seq<string>) {
    && |names| == |hits|
    && (forall i :: i in hits ==> i < |nodes| && nodes[i].hostname in names)
    && (forall k :: 0 <= k < |names| ==> exists i :: i in hits && i < |nodes| && nodes[i].hostname == names[k])
  }

  lemma NamesGrow(nodes: seq<Node>, hits: set<nat>, names: seq<string>, hit: bool)
    requires nodes != [] && NamesOf(nodes[..|nodes| - 1], hits, names)
    ensures var n := |nodes| - 1;
      NamesOf(nodes, if hit then hits + {n} else hits, if hit then names + [nodes[n].hostname] else names)
  {
    var n := |nodes| - 1;
    assert forall i :: 0 <= i < n ==> nodes[..n][i] == nodes[i];
    assert n !in hits;
    if hit {
      var longer := names + [nodes[n].hostname];
      assert longer[|names|] == nodes[n].hostname;
      assert forall name :: name in names ==> name in longer;
      assert |hits + {n}| == |hits| + 1;
    }
  }

  lemma {:induction false} HostNames(text: Text, nodes: seq<Node>, value: string)
    ensures NamesOf(nodes, Hosts(text, nodes, value), HostMatches(text, nodes, value))
  {
    if nodes != [] {
      var n := |nodes| - 1;
      HostNames(text, nodes[..n], value);
      hide NamesOf;
      var hit := text.mentions(value, nodes[n].hostname);
      NamesGrow(nodes, Hosts(text, nodes[..n], value), HostMatches(text, nodes[..n], value), hit);
      HostsGrow(text, nodes, value);
      hide Hosts;
    }
  }

  lemma HostsGrow(text: Text, nodes: seq<Node>, value: string)
    requires nodes != []
    ensures var n := |nodes| - 1; var before := Hosts(text, nodes[..n], value);
      Hosts(text, nodes, value) == if text.mentions(value, nodes[n].hostname) then before + {n} else before
  {
  }

  lemma ServersGrow(text: Text, nodes: seq<Node>, value: string)
    requires nodes != []
    ensures var n := |nodes| - 1; var before := Servers(text, nodes[..n], value);
      Servers(text, nodes, value) == if Serves(text, nodes[n], value) then before + {n} else before
  {
    hide Serves;
  }

  lemma {:induction false} ServerNames(text: Text, nodes: seq<Node>, value: string)
    ensures NamesOf(nodes, Servers(text, nodes, value), ServiceMatches(text, nodes, value))
  {
    if nodes != [] {
      var n := |nodes| - 1;
      ServerNames(text, nodes[..n], value);
      hide NamesOf;
      var hit := Serves(text, nodes[n], value);
      NamesGrow(nodes, Servers(text, nodes[..n], value), ServiceMatches(text, nodes[..n], value), hit);
      ServersGrow(text, nodes, value);
      hide Servers;
    }
  }

  // ----- What resolve_node makes of them -----

  /** Resolved to node n, with its role. */
  predicate At(nodes: seq<Node>, r: Resolution, n: nat) {
    n < |nodes| && r.status == Resolved && r.hostname == Some(nodes[n].hostname) && r.role == Some(nodes[n].role)
  }

  predicate Nowhere(r: Resolution, status: ResolutionStatus) {
    r.status == status && r.hostname == None && r.role == None
  }

  /** One hit resolves to that node, several are ambiguous. */
  ghost predicate FromHits(nodes: seq<Node>, hits: set<nat>, r: Resolution, source: string) {
    && r.sources == [source]
    && (forall n :: hits == {n} ==> At(nodes, r, n))
    && (|hits| > 1 ==> Nowhere(r, Ambiguous))
  }

  lemma FoundAt(text: Text, nodes: seq<Node>, hostname: string, n: nat)
    requires UniqueHostnames(text, nodes) && n < |nodes| && text.fold(nodes[n].hostname) == text.fold(hostname)
    ensures FindNode(text, nodes, hostname) == Some(nodes[n])
  {
    var found := FindNode(text, nodes, hostname);
    var i :| 0 <= i < |nodes| && nodes[i] == found.value;
    assert i == n;
  }

  lemma MatchesMean(text: Text, nodes: seq<Node>, hits: set<nat>, names: seq<string>, source: string)
    requires UniqueHostnames(text, nodes) && NamesOf(nodes, hits, names) && names != []
    ensures FromHits(nodes, hits, FromMatches(text, nodes, names, source), source)
  {
    forall n | hits == {n}
      ensures At(nodes, FromMatches(text, nodes, names, source), n)
    {
      assert n in hits && |{n}| == 1;
      assert names[0] == nodes[n].hostname;
      FoundAt(text, nodes, names[0], n);
    }
  }

  /**
   * The path's hostnames decide; only without any its services do, and only without those the content. A file that
   * names nothing is unresolved.
   */
  ghost predicate ByTier(text: Text, file: File, nodes: seq<Node>, r: Resolution) {
    var byPath, byService := Hosts(text, nodes, file.path), Servers(text, nodes, file.path);
    var byContent := InContent(text, nodes, file.sample);
    if byPath != {} then FromHits(nodes, byPath, r, "relative_path")
    else if byService != {} then FromHits(nodes, byService, r, "service_path")
    else if byContent != {} then FromHits(nodes, byContent, r, "content")
    else Nowhere(r, Unresolved) && r.sources == []
  }

  lemma ResolvedByTier(text: Text, file: File, job: Job)
    requires UniqueHostnames(text, job.nodes)
    ensures ByTier(text, file, job.nodes, ResolveNode(text, file, job))
  {
    var nodes := job.nodes;
    HostNames(text, nodes, file.path);
    ServerNames(text, nodes, file.path);
    HostNames(text, nodes, file.sample);
    var byPath, byService := HostMatches(text, nodes, file.path), ServiceMatches(text, nodes, file.path);
    var byContent := HostMatches(text, nodes, file.sample);
    hide UniqueHostnames, FromHits, Hosts, Servers, HostMatches, ServiceMatches, FromMatches;
    if byPath != [] {
      MatchesMean(text, nodes, Hosts(text, nodes, file.path), byPath, "relative_path");
    } else if byService != [] {
      MatchesMean(text, nodes, Servers(text, nodes, file.path), byService, "service_path");
    } else if byContent != [] && file.sample != [] {
      MatchesMean(text, nodes, Hosts(text, nodes, file.sample), byContent, "content");
    }
  }

  /** A path that mentions exactly one hostname resolves to that node, whatever its services and content say. */
  lemma PathDecides(text: Text, file: File, job: Job, n: nat)
    requires UniqueHostnames(text, job.nodes) && Hosts(text, job.nodes, file.path) == {n}
    ensures At(job.nodes, ResolveNode(text, file, job), n)
  {
    ResolvedByTier(text, file, job);
    hide ResolveNode, Hosts, At;
    assert n in {n};
  }

  // ----- Operator mappings and PEM-backend output -----

  /** m is the first mapping of the file's path. */
  ghost predicate Maps(text: Text, job: Job, file: File, m: Mapping) {
    exists k :: 0 <= k < |job.mappings| && job.mappings[k] == m && text.fold(m.path) == text.fold(file.path)
      && forall j :: 0 <= j < k ==> text.fold(job.mappings[j].path) != text.fold(file.path)
  }

  ghost predicate Unmapped(text: Text, job: Job, file: File) {
    forall k :: 0 <= k < |job.mappings| ==> text.fold(job.mappings[k].path) != text.fold(file.path)
  }

  lemma {:induction false} FirstMapping(text: Text, mappings: seq<Mapping>, path: string) returns (k: nat)
    ensures MappingFor(text, mappings, path).None? <==>
      forall j :: 0 <= j < |mappings| ==> text.fold(mappings[j].path) != text.fold(path)
    ensures MappingFor(text, mappings, path).Some? ==>
      && k < |mappings| && MappingFor(text, mappings, path) == Some(mappings[k])
      && text.fold(mappings[k].path) == text.fold(path)
      && forall j :: 0 <= j < k ==> text.fold(mappings[j].path) != text.fold(path)
  {
    k := 0;
    if mappings != [] && text.fold(mappings[0].path) != text.fold(path) {
      var rest := FirstMapping(text, mappings[1..], path);
      k := rest + 1;
      assert forall j :: 0 < j < |mappings| ==> mappings[j] == mappings[1..][j - 1];
    }
  }

  lemma MappingMeans(text: Text, job: Job, file: File, m: Mapping)
    ensures MappingFor(text, job.mappings, file.path) == Some(m) <==> Maps(text, job, file, m)
    ensures MappingFor(text, job.mappings, file.path).None? <==> Unmapped(text, job, file)
  {
    var k := FirstMapping(text, job.mappings, file.path);
    hide MappingFor;
    if Maps(text, job, file, m) {
      var i :| 0 <= i < |job.mappings| && job.mappings[i] == m && text.fold(m.path) == text.fold(file.path)
        && forall j :: 0 <= j < i ==> text.fold(job.mappings[j].path) != text.fold(file.path);
      assert i == k;
    }
  }

  predicate HasPem(text: Text, node: Node) {
    exists s :: 0 <= s < |node.services| && text.fold(node.services[s]) == "pem"
  }

  /**
   * PEM-backend output: below a PEM_check directory, the path names no host, and the one node whose service it names
   * is a Witness with the service pem.
   */
  ghost predicate PemOutput(text: Text, job: Job, file: File, n: nat) {
    && file.inPemCheck && Hosts(text, job.nodes, file.path) == {} && Servers(text, job.nodes, file.path) == {n}
    && n < |job.nodes| && job.nodes[n].role == Witness && HasPem(text, job.nodes[n])
  }

  lemma PemRuns(text: Text, nodes: seq<Node>, n: nat)
    requires UniqueHostnames(text, nodes) && n < |nodes|
    ensures RunsPem(text, nodes, nodes[n].hostname) <==> HasPem(text, nodes[n])
  {
    if RunsPem(text, nodes, nodes[n].hostname) {
      var i :| 0 <= i < |nodes| && text.fold(nodes[i].hostname) == text.fold(nodes[n].hostname)
        && exists s :: 0 <= s < |nodes[i].services| && text.fold(nodes[i].services[s]) == "pem";
      assert i == n;
    }
  }

  lemma SoleServer(nodes: seq<Node>, hits: set<nat>, r: Resolution, source: string)
    requires FromHits(nodes, hits, r, source) && hits != {} && r.status == Resolved
    ensures exists n :: hits == {n} && At(nodes, r, n)
  {
    var n :| n in hits;
    if hits != {n} {
      var m :| m in hits && m != n;
      assert {n, m} <= hits;
      assert |{n, m}| == 2;
      CardinalityGrows({n, m}, hits);
    }
  }

  lemma CardinalityGrows<T>(a: set<T>, b: set<T>)
    requires a <= b
    ensures |a| <= |b|
  {
    assert b == a + (b - a);
  }

  lemma PemBackendMeans(text: Text, job: Job, file: File)
    requires UniqueHostnames(text, job.nodes)
    ensures PemBackend(text, file, job) <==> exists n :: PemOutput(text, job, file, n)
  {
    ResolvedByTier(text, file, job);
    hide ResolveNode, Hosts, Servers, RunsPem, HasPem, UniqueHostnames;
    var r := ResolveNode(text, file, job);
    if PemBackend(text, file, job) {
      SoleServer(job.nodes, Servers(text, job.nodes, file.path), r, "service_path");
      var n :| Servers(text, job.nodes, file.path) == {n} && At(job.nodes, r, n);
      PemRuns(text, job.nodes, n);
      assert PemOutput(text, job, file, n);
    }
    if n :| PemOutput(text, job, file, n) {
      assert n in {n};
      PemRuns(text, job.nodes, n);
    }
  }

  // ----- Entries -----

  /** A file whose operator mapping decides: what the mapping says, whatever path, services and content say. */
  lemma MappedEntry(text: Text, files: seq<File>, job: Job, i: nat, m: Mapping)
    requires ValidJob(text, job) && i < |files| && Maps(text, job, files[i], m)
    requires forall n :: !PemOutput(text, job, files[i], n)
    ensures var e := LedgerEntry(text, files, job, i);
      && e.domain == m.domain == Database
      && (exists n: nat :: MappedTo(text, job, m, n))
      && (forall n: nat :: MappedTo(text, job, m, n) ==>
            && At(job.nodes, e.resolution, n)
            && e.decision == if job.nodes[n].role == Primary then Allowed else Excluded)
  {
    MappingMeans(text, job, files[i], m);
    PemBackendMeans(text, job, files[i]);
    assert m in job.mappings && MappingOk(text, job.nodes, m);
    var n :| 0 <= n < |job.nodes| && text.fold(job.nodes[n].hostname) == text.fold(m.node);
    assert MappedTo(text, job, m, n);
    hide MappingFor, PemBackend, ResolveNode, FindNode, OnePrimary, Maps, PemOutput;
    forall k: nat | MappedTo(text, job, m, k)
      ensures FindNode(text, job.nodes, m.node) == Some(job.nodes[k])
    {
      FoundAt(text, job.nodes, m.node, k);
    }
  }

  /** Mapped PEM-backend output is database evidence of its Witness, and excluded; the mapping's node is not used. */
  lemma PemEntry(text: Text, files: seq<File>, job: Job, i: nat, m: Mapping, n: nat)
    requires ValidJob(text, job) && i < |files| && Maps(text, job, files[i], m)
    requires PemOutput(text, job, files[i], n)
    ensures var e := LedgerEntry(text, files, job, i);
      e.domain == Database && e.decision == Excluded && At(job.nodes, e.resolution, n)
  {
    MappingMeans(text, job, files[i], m);
    PemBackendMeans(text, job, files[i]);
    ResolvedByTier(text, files[i], job);
    assert n in {n};
    hide MappingFor, PemBackend, ResolveNode, FindNode, OnePrimary, UniqueHostnames, MappingOk, Maps, Hosts, Servers,
      HasPem;
  }

  predicate MappedTo(text: Text, job: Job, m: Mapping, n: nat) {
    n < |job.nodes| && text.fold(job.nodes[n].hostname) == text.fold(m.node)
  }

  /** An entry that no mapping and no policy decides: the file's own domain, and what it names by itself. */
  lemma UnmappedEntry(text: Text, files: seq<File>, job: Job, i: nat)
    requires ValidJob(text, job) && i < |files| && Unmapped(text, job, files[i])
    ensures var e, f := LedgerEntry(text, files, job, i), files[i];
      && e.domain == f.domain
      && (if BindsSole(text, files, job, i) || (f.domain == Monitoring && f.image && Unnamed(text, job, f))
          then ToThePrimary(job, e.resolution)
          else ByTier(text, f, job.nodes, e.resolution))
  {
    UnmappedDomain(text, job, files[i]);
    ResolvedByTier(text, files[i], job);
    SoleMeans(text, files, job, i);
    UnnamedMeans(text, job, files[i]);
    var n := PrimaryPlace(job.nodes, SOLE_OUTPUT_POLICY);
    var m := PrimaryPlace(job.nodes, MONITORING_IMAGE_POLICY);
    hide ResolveNode, Hosts, Servers, InContent, OnePrimary, PrimaryNode, UniqueHostnames, BindsSole, SoleUnresolved,
      ByTier, MappingFor, Unnamed;
  }

  /** Resolved to the node configured as the Primary. */
  ghost predicate ToThePrimary(job: Job, r: Resolution) {
    exists n: nat :: At(job.nodes, r, n) && job.nodes[n].role == Primary
  }

  lemma PrimaryPlace(nodes: seq<Node>, policy: string) returns (n: nat)
    requires OnePrimary(nodes)
    ensures n < |nodes| && nodes[n].role == Primary && At(nodes, ToPrimary(PrimaryNode(nodes), policy), n)
  {
    var primary := PrimaryNode(nodes);
    n :| n < |nodes| && nodes[n] == primary;
  }

  /** The file names no node: neither in its path nor in its content. */
  ghost predicate Unnamed(text: Text, job: Job, file: File) {
    && Hosts(text, job.nodes, file.path) == {} && Servers(text, job.nodes, file.path) == {}
    && InContent(text, job.nodes, file.sample) == {}
  }

  /** Database evidence is what is classified so or mapped. */
  ghost predicate IsDatabase(text: Text, job: Job, file: File) {
    !Unmapped(text, job, file) || file.domain == Database
  }

  /** The one database file of the inventory is unmapped and names no node. */
  ghost predicate BindsSole(text: Text, files: seq<File>, job: Job, i: nat) {
    && i < |files| && files[i].domain == Database && Unmapped(text, job, files[i]) && Unnamed(text, job, files[i])
    && forall j :: 0 <= j < |files| && IsDatabase(text, job, files[j]) ==> j == i
  }

  lemma UnnamedMeans(text: Text, job: Job, file: File)
    requires UniqueHostnames(text, job.nodes)
    ensures ResolveNode(text, file, job).status == Unresolved <==> Unnamed(text, job, file)
  {
    ResolvedByTier(text, file, job);
    hide ResolveNode, Hosts, Servers, InContent, UniqueHostnames;
    var r := ResolveNode(text, file, job);
    forall hits: set<nat> | hits != {} && |hits| <= 1
      ensures exists n :: hits == {n}
    {
      var n :| n in hits;
      if m :| m in hits && m != n {
        CardinalityGrows({n, m}, hits);
      }
      assert hits == {n};
    }
  }

  lemma UnmappedDomain(text: Text, job: Job, file: File)
    requires ValidJob(text, job)
    ensures Unmapped(text, job, file) ==> MappingFor(text, job.mappings, file.path).None?
    ensures Judged(text, file, job).domain == Database <==> IsDatabase(text, job, file)
    ensures !Unmapped(text, job, file) ==> Judged(text, file, job).resolution.status == Resolved
  {
    var k := FirstMapping(text, job.mappings, file.path);
    hide MappingFor, ResolveNode, OnePrimary, RunsPem;
    if MappingFor(text, job.mappings, file.path).Some? {
      assert MappingOk(text, job.nodes, job.mappings[k]);
    }
  }

  lemma SoleMeans(text: Text, files: seq<File>, job: Job, i: nat)
    requires ValidJob(text, job) && i < |files|
    ensures SoleUnresolved(AllClassified(text, files, job), i) <==> BindsSole(text, files, job, i)
  {
    var all := AllClassified(text, files, job);
    forall j: nat | j < |files|
      ensures all[j].domain == Database <==> IsDatabase(text, job, files[j])
      ensures UnresolvedDatabase(all[j]) <==>
        files[j].domain == Database && Unmapped(text, job, files[j]) && Unnamed(text, job, files[j])
    {
      UnmappedDomain(text, job, files[j]);
      UnnamedMeans(text, job, files[j]);
      hide MappingFor, ResolveNode, Unnamed, Unmapped, OnePrimary, ValidJob, PrimaryNode;
    }
    hide AllClassified, Unnamed, Unmapped, IsDatabase, ValidJob;
  }

  /** The decision of every entry: what is allowed and what is excluded, by domain, resolution and role. */
  lemma DecisionMeans(text: Text, files: seq<File>, job: Job, i: nat)
    requires ValidJob(text, job) && i < |files|
    ensures var e := LedgerEntry(text, files, job, i); var resolved := e.resolution.status == Resolved;
      && e.path == files[i].path && e.sha256 == files[i].sha256
      && (e.decision == Allowed <==>
            resolved && (e.domain in {Os, Monitoring} || (e.domain == Database && e.resolution.role == Some(Primary))))
      && (e.decision == Excluded <==>
            e.domain == SystemMetadata || (e.domain == Database && resolved && e.resolution.role != Some(Primary)))
  {
    JudgedFile(text, files[i], job);
    hide Judged, UniqueHostnames, MappingOk, PrimaryNode, SoleUnresolved;
  }

  lemma JudgedFile(text: Text, file: File, job: Job)
    ensures Judged(text, file, job).file == file
  {
    hide ResolveNode, FindNode, PemBackend;
  }
}
