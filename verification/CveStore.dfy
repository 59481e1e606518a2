/** The CVE cache with its enrichment, its per-job matches and the report projection (class CVECacheStore). */
module CveStore {
  import opened Common
  import opened CveVersion
  import opened CveMatcher
  import opened CveSelection

  // ----- Enrichment -----

  /** An NVD record: its facts, and its rejected flag when it states one. */
  datatype NvdRecord = NvdRecord(cveId: string, rejected: Option<bool>, facts: string)

  function EnrichedEntry(entry: Entry, record: NvdRecord): Entry {
    Entry(if record.rejected.Some? then record.rejected.value else entry.rejected, entry.facts + record.facts)
  }

  function Enriched(entries: map<string, Entry>, records: seq<NvdRecord>): map<string, Entry> {
    if records == [] then entries
    else
      var before, record := Enriched(entries, records[..|records| - 1]), records[|records| - 1];
      if record.cveId in before then before[record.cveId := EnrichedEntry(before[record.cveId], record)] else before
  }

  /** Enrichment creates no entry, and only a record that states the flag can change it. */
  lemma {:induction false} EnrichmentFrame(entries: map<string, Entry>, records: seq<NvdRecord>)
    ensures Enriched(entries, records).Keys == entries.Keys
    ensures forall c :: c in entries && (forall r :: r in records && r.cveId == c ==> r.rejected.None?) ==>
      Enriched(entries, records)[c].rejected == entries[c].rejected
  {
    if records != [] {
      EnrichmentFrame(entries, records[..|records| - 1]);
      assert forall r :: r in records[..|records| - 1] ==> r in records;
    }
  }

  predicate EndsWith(text: string, end: string) {
    |end| <= |text| && text[|text| - |end|..] == end
  }

  /** Enrichment adds to the facts of an entry and takes none away; without a record about it an entry is unchanged. */
  lemma {:induction false} FactsKept(entries: map<string, Entry>, records: seq<NvdRecord>, cveId: string)
    requires cveId in entries
    ensures cveId in Enriched(entries, records) && entries[cveId].facts <= Enriched(entries, records)[cveId].facts
    ensures (forall r :: r in records ==> r.cveId != cveId) ==> Enriched(entries, records)[cveId] == entries[cveId]
    ensures records != [] && records[|records| - 1].cveId == cveId ==>
      EndsWith(Enriched(entries, records)[cveId].facts, records[|records| - 1].facts)
  {
    if records != [] {
      FactsKept(entries, records[..|records| - 1], cveId);
      assert forall r :: r in records[..|records| - 1] ==> r in records;
    }
  }

  /** Record k is the last one that states the rejected flag of the CVE. */
  predicate StatesLast(records: seq<NvdRecord>, cveId: string, k: nat) {
    && k < |records| && records[k].cveId == cveId && records[k].rejected.Some?
    && forall j :: k < j < |records| && records[j].cveId == cveId ==> records[j].rejected.None?
  }

  /** The last record that states the flag of a known CVE decides it. */
  lemma {:induction false} StatedFlagWins(entries: map<string, Entry>, records: seq<NvdRecord>, cveId: string, k: nat)
    requires cveId in entries && StatesLast(records, cveId, k)
    ensures cveId in Enriched(entries, records)
    ensures Some(Enriched(entries, records)[cveId].rejected) == records[k].rejected
  {
    var n := |records| - 1;
    EnrichmentFrame(entries, records[..n]);
    if k < n {
      StatedFlagWins(entries, records[..n], cveId, k);
    }
  }

  ghost function KnownAt(entries: map<string, Entry>, records: seq<NvdRecord>): set<nat> {
    set k: nat | k < |records| && records[k].cveId in entries
  }

  lemma {:induction false} RecordsCounted(entries: map<string, Entry>, records: seq<NvdRecord>)
    ensures KnownRecords(entries, records) == |KnownAt(entries, records)|
  {
    if records != [] {
      RecordsCounted(entries, records[..|records| - 1]);
      KnownAtLast(entries, records);
      hide KnownAt;
    }
  }

  lemma KnownAtLast(entries: map<string, Entry>, records: seq<NvdRecord>)
    requires records != []
    ensures var n := |records| - 1; var before := KnownAt(entries, records[..n]);
      && n !in before
      && KnownAt(entries, records) == if records[n].cveId in entries then before + {n} else before
  {
  }

  /** How many records are about a CVE in the cache. */
  function KnownRecords(entries: map<string, Entry>, records: seq<NvdRecord>): nat {
    if records == [] then 0
    else KnownRecords(entries, records[..|records| - 1]) + if records[|records| - 1].cveId in entries then 1 else 0
  }

  /** The same decision up to its status. */
  predicate SameButStatus(m: Match, m': Match) {
    m' == m.(status := m'.status)
  }

  lemma {:induction false} SameRows(e: map<string, Entry>, e': map<string, Entry>, product: Product,
      sorted: seq<Impact>)
    requires e'.Keys == e.Keys && forall i :: 0 <= i < |sorted| ==> sorted[i].cveId in e
    ensures var out, out' := MatchesOf(e, product, sorted), MatchesOf(e', product, sorted);
      && |out'| == |out|
      && (forall k :: 0 <= k < |out| ==> Unaffected(e, e', out[k], out'[k]))
  {
    hide StatusOf, LowerBound, Inferred;
    if sorted != [] {
      SameRows(e, e', product, sorted[..|sorted| - 1]);
    }
  }

  /** The matches are about the same CVE and differ at most in the status, in nothing if the flag is the same. */
  predicate Unaffected(e: map<string, Entry>, e': map<string, Entry>, m: Match, m': Match) {
    && m.cveId in e && m.cveId in e'
    && SameButStatus(m, m')
    && (e'[m.cveId].rejected == e[m.cveId].rejected ==> m' == m)
  }

  /**
   * NVD enrichment does not interfere with matching: over the same rows the same CVEs are matched with the same
   * ranges, and a CVE whose rejected flag did not change keeps its status.
   */
  lemma {:induction false} EnrichmentDoesNotInterfere(
      entries: map<string, Entry>, records: seq<NvdRecord>, product: Product, impacts: seq<Impact>, rows: seq<Impact>)
    requires multiset(rows) == multiset(EligibleRows(entries, product, impacts))
    ensures multiset(rows) == multiset(EligibleRows(Enriched(entries, records), product, impacts))
    ensures AllKnown(entries, rows) && AllKnown(Enriched(entries, records), rows)
    ensures var out, out' :=
      ProductMatches(entries, product, rows), ProductMatches(Enriched(entries, records), product, rows);
      && |out'| == |out|
      && (forall k :: 0 <= k < |out| ==> Unaffected(entries, Enriched(entries, records), out[k], out'[k]))
  {
    var entries' := Enriched(entries, records);
    EnrichmentFrame(entries, records);
    hide Enriched, MatchesOf, Unaffected;
    SameEligible(entries, entries', product, impacts);
    EligibleKnown(entries, product, impacts, rows);
    SortedInEntries(entries, product, rows);
    SameRows(entries, entries', product, StableSort(product, rows));
  }

  lemma {:induction false} SameEligible(e: map<string, Entry>, e': map<string, Entry>, product: Product,
      impacts: seq<Impact>)
    requires e'.Keys == e.Keys
    ensures EligibleRows(e', product, impacts) == EligibleRows(e, product, impacts)
  {
    hide MajorText;
    if impacts != [] {
      SameEligible(e, e', product, impacts[..|impacts| - 1]);
      var x := impacts[|impacts| - 1];
      assert x.cveId in e' <==> x.cveId in e'.Keys;
    }
  }

  // ----- Recording matches -----

  datatype MatchKey = MatchKey(jobId: string, cveId: string, productId: string)

  /** Delete the old row of each match, then insert the new one. */
  function Recorded(matches: map<MatchKey, Match>, jobId: string, out: seq<Match>): map<MatchKey, Match> {
    if out == [] then matches
    else
      var m := out[|out| - 1];
      Recorded(matches, jobId, out[..|out| - 1])[MatchKey(jobId, m.cveId, m.product.productId) := m]
  }

  ghost predicate Names(jobId: string, productId: string, out: seq<Match>, key: MatchKey) {
    exists i :: 0 <= i < |out| && key == MatchKey(jobId, out[i].cveId, productId)
  }

  /** With one match per CVE and product each recorded match is found again. */
  lemma {:induction false} RecordedFound(matches: map<MatchKey, Match>, jobId: string, out: seq<Match>,
      productId: string, i: nat)
    requires OncePerCve(out) && i < |out| && forall k :: 0 <= k < |out| ==> out[k].product.productId == productId
    ensures Stored(Recorded(matches, jobId, out), MatchKey(jobId, out[i].cveId, productId), out[i])
  {
    var n := |out| - 1;
    if i < n {
      RecordedFound(matches, jobId, out[..n], productId, i);
    }
  }

  /** Any other key is as it was. */
  lemma {:induction false} RecordedOthers(matches: map<MatchKey, Match>, jobId: string, out: seq<Match>,
      productId: string, key: MatchKey)
    requires forall k :: 0 <= k < |out| ==> out[k].product.productId == productId
    requires !Names(jobId, productId, out, key)
    ensures key in Recorded(matches, jobId, out) <==> key in matches
    ensures key in matches ==> Stored(Recorded(matches, jobId, out), key, matches[key])
  {
    if out != [] {
      NamesLast(jobId, productId, out, key);
      hide Names;
      RecordedOthers(matches, jobId, out[..|out| - 1], productId, key);
    }
  }

  /** Recording touches the keys of its matches only, and with one match per CVE and product each is found again. */
  lemma {:induction false} RecordedContent(matches: map<MatchKey, Match>, jobId: string, out: seq<Match>,
      productId: string)
    requires OncePerCve(out) && forall i :: 0 <= i < |out| ==> out[i].product.productId == productId
    ensures forall i :: 0 <= i < |out| ==>
      Stored(Recorded(matches, jobId, out), MatchKey(jobId, out[i].cveId, productId), out[i])
    ensures forall key :: key in Recorded(matches, jobId, out) && !Names(jobId, productId, out, key) ==> key in matches
    ensures forall key :: key in matches && !Names(jobId, productId, out, key) ==>
      Stored(Recorded(matches, jobId, out), key, matches[key])
  {
    hide Recorded, Names, OncePerCve;
    forall i | 0 <= i < |out|
      ensures Stored(Recorded(matches, jobId, out), MatchKey(jobId, out[i].cveId, productId), out[i])
    {
      RecordedFound(matches, jobId, out, productId, i);
    }
    forall key | !Names(jobId, productId, out, key)
      ensures key in Recorded(matches, jobId, out) <==> key in matches
      ensures key in matches ==> Stored(Recorded(matches, jobId, out), key, matches[key])
    {
      RecordedOthers(matches, jobId, out, productId, key);
    }
  }

  lemma NamesLast(jobId: string, productId: string, out: seq<Match>, key: MatchKey)
    requires out != []
    ensures Names(jobId, productId, out, key) <==>
      Names(jobId, productId, out[..|out| - 1], key) || key == MatchKey(jobId, out[|out| - 1].cveId, productId)
  {
    var n := |out| - 1;
    if i :| 0 <= i < n && key == MatchKey(jobId, out[..n][i].cveId, productId) {
      assert key == MatchKey(jobId, out[i].cveId, productId);
    }
    if i :| 0 <= i < |out| && key == MatchKey(jobId, out[i].cveId, productId) && i < n {
      assert key == MatchKey(jobId, out[..n][i].cveId, productId);
    }
  }

  predicate Stored(matches: map<MatchKey, Match>, key: MatchKey, m: Match) {
    key in matches && matches[key] == m
  }

  // ----- The newest release of the installed major -----

  datatype Release = Release(productId: string, version: string, family: string, active: bool)

  function ReleaseProducts(productId: string): set<string> {
    if productId == "epas" then {"epas", "edb", "postgresql"} else {productId}
  }

  /** A release row that counts for the installed version. */
  predicate Counts(product: Product, r: Release) {
    && r.productId in ReleaseProducts(product.productId) && r.family == MajorText(product.installed) && r.active
    && ParseVersion(r.version).Some?
  }

  /** An active release of the installed major, of the product or of one that EPAS shares releases with. */
  predicate Offers(product: Product, r: Release) {
    && r.active && MajorOf(product.installed, r.family) && ParseVersion(r.version).Some?
    && (r.productId == product.productId
        || (product.productId == "epas" && (r.productId == "edb" || r.productId == "postgresql")))
  }

  lemma CountsMeans(product: Product, r: Release)
    ensures Counts(product, r) <==> Offers(product, r)
  {
    MajorTextIsMajor(product.installed, r.family);
    hide MajorText, MajorOf, ParseVersion;
  }

  /** Python's max over the parsed rows: the first of the greatest. */
  function LatestSameMajor(product: Product, releases: seq<Release>): (r: Option<string>)
    ensures r.Some? ==> ParseVersion(r.value).Some?
  {
    if releases == [] then None
    else
      var before, x := LatestSameMajor(product, releases[..|releases| - 1]), releases[|releases| - 1];
      if !Counts(product, x) then before
      else if before.None? || Less(ParseVersion(before.value).value, ParseVersion(x.version).value) then Some(x.version)
      else before
  }

  lemma LeqOrder(a: Version, b: Version, c: Version)
    ensures Leq(a, b) || Leq(b, a)
    ensures Leq(a, b) && Leq(b, c) ==> Leq(a, c)
  {
  }

  /** The version returned is a counting release that no counting release is numerically above. */
  lemma {:induction false} LatestIsMaximal(product: Product, releases: seq<Release>)
    ensures LatestSameMajor(product, releases).Some? <==> exists r :: r in releases && Counts(product, r)
    ensures LatestSameMajor(product, releases).Some? ==> var latest := LatestSameMajor(product, releases).value;
      && (exists r :: r in releases && Counts(product, r) && r.version == latest)
      && (forall r :: r in releases && Counts(product, r) ==>
            Leq(ParseVersion(r.version).value, ParseVersion(latest).value))
  {
    hide ParseVersion, MajorText, Leq;
    if releases != [] {
      var init, x := releases[..|releases| - 1], releases[|releases| - 1];
      LatestIsMaximal(product, init);
      assert releases == init + [x];
      var before, latest := LatestSameMajor(product, init), LatestSameMajor(product, releases);
      if Counts(product, x) {
        assert x in releases;
        forall r | r in releases && Counts(product, r)
          ensures Leq(ParseVersion(r.version).value, ParseVersion(latest.value).value)
        {
          LeqOrder(ParseVersion(r.version).value, ParseVersion(r.version).value, ParseVersion(r.version).value);
          if before.Some? {
            LeqOrder(ParseVersion(r.version).value, ParseVersion(before.value).value, ParseVersion(x.version).value);
            LeqOrder(ParseVersion(before.value).value, ParseVersion(x.version).value, ParseVersion(x.version).value);
          }
        }
      }
    }
  }

  /** No active release of the installed major is above the returned one, which is such a release. */
  lemma LatestOffered(product: Product, releases: seq<Release>)
    ensures LatestSameMajor(product, releases).Some? <==> exists r :: r in releases && Offers(product, r)
    ensures LatestSameMajor(product, releases).Some? ==> var latest := LatestSameMajor(product, releases).value;
      && (exists r :: r in releases && Offers(product, r) && r.version == latest)
      && (forall r :: r in releases && Offers(product, r) ==>
            !Above(ParseVersion(r.version).value, ParseVersion(latest).value))
  {
    LatestIsMaximal(product, releases);
    hide LatestSameMajor, Counts, Offers, ParseVersion;
    forall r
      ensures Counts(product, r) <==> Offers(product, r)
    {
      CountsMeans(product, r);
    }
  }

  /** A version is above another by the first component in which they differ. */
  predicate Above(a: Version, b: Version) {
    || a.major > b.major
    || (a.major == b.major && a.minor > b.minor)
    || (a.major == b.major && a.minor == b.minor && a.patch > b.patch)
  }

  /** Minor versions of one major are compared as numbers, not as text: 17.10 is newer than 17.9. */
  lemma MinorsCompareAsNumbers(major: nat, m: nat, n: nat)
    ensures ParseVersion(Decimal(major) + "." + Decimal(m)) == Some(Version(major, m, 0))
    ensures ParseVersion(Decimal(major) + "." + Decimal(n)) == Some(Version(major, n, 0))
    ensures Less(Version(major, m, 0), Version(major, n, 0)) <==> m < n
  {
    hide ParseVersion;
    MinorParses(major, m);
    MinorParses(major, n);
  }

  lemma MinorParses(major: nat, m: nat)
    ensures ParseVersion(Decimal(major) + "." + Decimal(m)) == Some(Version(major, m, 0))
  {
    hide Strip, ParseVersion, Decimal, ParseDecimal;
    var parts := [Decimal(major), Decimal(m)];
    assert parts[1..] == [Decimal(m)];
    assert Groups(parts) && Dotted(parts) == Decimal(major) + "." + Decimal(m);
    DottedEnds(parts);
    NothingToStrip(Dotted(parts));
    GroupsParse(Dotted(parts), parts);
    ParseOfDecimal(major);
    ParseOfDecimal(m);
  }

  // ----- The report -----

  predicate Reported(m: Match) {
    m.status == Applicable || m.status == PotentiallyApplicable
  }

  function ReportedRows(rows: seq<Match>): seq<Match> {
    if rows == [] then []
    else
      var before := ReportedRows(rows[..|rows| - 1]);
      if Reported(rows[|rows| - 1]) then before + [rows[|rows| - 1]] else before
  }

  predicate IsCurrent(product: Product, releases: seq<Release>) {
    var current, latest := ParseVersion(product.installed), LatestSameMajor(product, releases);
    current.Some? && latest.Some? && Leq(ParseVersion(latest.value).value, current.value)
  }

  /** The CVE lines of the report; the first match row gives the product. */
  function ReportCves(rows: seq<Match>, releases: seq<Release>): seq<Match>
    requires rows != []
  {
    if IsCurrent(rows[0].product, releases) then [] else ReportedRows(rows)
  }

  /** The newest release is installed: some release counts, and none that counts is above the installed version. */
  ghost predicate UpToDate(product: Product, releases: seq<Release>) {
    && ParseVersion(product.installed).Some?
    && (exists r :: r in releases && Counts(product, r))
    && (forall r :: r in releases && Counts(product, r) ==>
          Leq(ParseVersion(r.version).value, ParseVersion(product.installed).value))
  }

  lemma {:induction false} ReportedRowsContent(rows: seq<Match>, m: Match)
    ensures m in ReportedRows(rows) <==> m in rows && Reported(m)
  {
    if rows != [] {
      ReportedRowsContent(rows[..|rows| - 1], m);
      assert rows == rows[..|rows| - 1] + [rows[|rows| - 1]];
    }
  }

  lemma {:induction false} CurrentIsUpToDate(product: Product, releases: seq<Release>)
    ensures IsCurrent(product, releases) <==> UpToDate(product, releases)
  {
    LatestIsMaximal(product, releases);
    hide ParseVersion, MajorText, Leq, LatestSameMajor, Counts;
    if ParseVersion(product.installed).Some? && LatestSameMajor(product, releases).Some? {
      var current, latest :=
        ParseVersion(product.installed).value, ParseVersion(LatestSameMajor(product, releases).value).value;
      forall r | r in releases && Counts(product, r)
        ensures ParseVersion(r.version).Some?
        ensures Leq(latest, current) ==> Leq(ParseVersion(r.version).value, current)
      {
        CountsParses(product, r);
        LeqOrder(ParseVersion(r.version).value, latest, current);
      }
    }
  }

  lemma CountsParses(product: Product, r: Release)
    requires Counts(product, r)
    ensures ParseVersion(r.version).Some?
  {
  }

  /** An up-to-date installation is reported without CVEs; any other one with exactly its applicable matches. */
  lemma ReportFollowsUpToDate(rows: seq<Match>, releases: seq<Release>, m: Match)
    requires rows != []
    ensures m in ReportCves(rows, releases) <==>
      !UpToDate(rows[0].product, releases) && m in rows && m.status in {Applicable, PotentiallyApplicable}
  {
    CurrentIsUpToDate(rows[0].product, releases);
    ReportedRowsContent(rows, m);
    hide IsCurrent, UpToDate, ReportedRows;
  }

  /** Every match is of one of the products and was decided by a row of the table. */
  ghost predicate Sound(entries: map<string, Entry>, impacts: seq<Impact>, products: seq<Product>, out: seq<Match>) {
    forall m :: m in out ==> m.product in products && Decided(entries, impacts, m)
  }

  /** Every CVE with a relevant row for a product is matched for it. */
  ghost predicate Complete(entries: map<string, Entry>, impacts: seq<Impact>, products: seq<Product>, out: seq<Match>)
  {
    forall product, x :: product in products && x in impacts && Relevant(entries, product, x) ==>
      HasMatch(out, product, x.cveId)
  }

  class CVECacheStore {
    var entries: map<string, Entry>
    var impacts: seq<Impact>
    var releases: seq<Release>
    var versions: map<(string, string), string>
    var matches: map<MatchKey, Match>

    /** The supplement loop: records of unknown CVEs are skipped, impact rows are not touched. */
    method EnrichNvd(records: seq<NvdRecord>) returns (updated: nat)
      modifies this`entries
      ensures entries == Enriched(old(entries), records)
      ensures updated == KnownRecords(old(entries), records)
    {
      updated := 0;
      var k := 0;
      while k < |records|
        invariant 0 <= k <= |records| && entries.Keys == old(entries).Keys
        invariant entries == Enriched(old(entries), records[..k])
        invariant updated == KnownRecords(old(entries), records[..k])
      {
        var record := records[k];
        if record.cveId in entries {
          entries := entries[record.cveId := EnrichedEntry(entries[record.cveId], record)];
          updated := updated + 1;
        }
        k := k + 1;
        assert records[..k][..k - 1] == records[..k - 1];
      }
      assert records[..k] == records;
    }

    /** The joined query; nothing is promised about the order of the rows. */
    method SelectImpacts(product: Product) returns (rows: seq<Impact>)
      ensures multiset(rows) == multiset(EligibleRows(entries, product, impacts))
    {
      rows := [];
      var k := 0;
      hide Eligible;
      while k < |impacts|
        invariant 0 <= k <= |impacts|
        invariant rows == EligibleRows(entries, product, impacts[..k])
      {
        if Eligible(entries, product, impacts[k]) {
          rows := rows + [impacts[k]];
        }
        k := k + 1;
        assert impacts[..k][..k - 1] == impacts[..k - 1];
      }
      assert impacts[..k] == impacts;
    }

    /** The loop over the sorted rows with its set of seen CVEs. */
    method DecideRows(jobId: string, product: Product, sorted: seq<Impact>) returns (out: seq<Match>)
      requires AllKnown(entries, sorted)
      modifies this`matches
      ensures out == MatchesOf(entries, product, sorted)
      ensures matches == Recorded(old(matches), jobId, out)
    {
      hide MatchOf;
      out := [];
      var seen: set<string>, k := {}, 0;
      while k < |sorted|
        invariant 0 <= k <= |sorted|
        invariant forall c :: c in seen <==> First(sorted[..k], c).Some?
        invariant out == MatchesOf(entries, product, sorted[..k])
        invariant matches == Recorded(old(matches), jobId, out)
      {
        var impact := sorted[k];
        assert sorted[..k + 1][..k] == sorted[..k];
        if impact.cveId !in seen {
          seen := seen + {impact.cveId};
          var m := MatchOf(product, impact, entries[impact.cveId].rejected);
          MatchScope(product, impact, entries[impact.cveId].rejected);
          matches := matches[MatchKey(jobId, impact.cveId, product.productId) := m];
          assert (out + [m])[..|out|] == out;
          out := out + [m];
        }
        k := k + 1;
      }
      assert sorted[..k] == sorted;
    }

    /**
     * One product of match_job: select, sort, keep the first row of each CVE, decide it and replace its stored match.
     * rows tells in which order the database returned the eligible rows.
     */
    method MatchProduct(jobId: string, product: Product) returns (out: seq<Match>, ghost rows: seq<Impact>)
      modifies this`versions, this`matches
      ensures SelectedFor(entries, product, impacts, rows) && AllKnown(entries, rows)
      ensures OncePerCve(out)
      ensures forall m :: m in out <==> MatchedByBest(entries, product, rows, m)
      ensures out == ProductMatches(entries, product, rows)
      ensures matches == Recorded(old(matches), jobId, out)
      ensures versions == old(versions)[(jobId, product.productId) := product.installed]
      ensures forall m :: m in out ==> m.product == product && Decided(entries, impacts, m)
      ensures forall x :: x in impacts && Relevant(entries, product, x) ==> HasMatch(out, product, x.cveId)
    {
      hide StableSort, MatchesOf, EligibleRows, MatchedByBest, Recorded, OncePerCve, Decided, Relevant, HasMatch;
      versions := versions[(jobId, product.productId) := product.installed];
      var selected := SelectImpacts(product);
      rows := selected;
      EligibleKnown(entries, product, impacts, rows);
      SortedInEntries(entries, product, rows);
      MatchesAreBest(entries, product, rows);
      MatchesExplained(entries, product, impacts, rows);
      out := DecideRows(jobId, product, StableSort(product, selected));
    }

    /** All products of a job, one after the other. */
    method MatchJob(jobId: string, products: seq<Product>) returns (results: seq<Match>,
        ghost selected: seq<seq<Impact>>)
      modifies this`versions, this`matches
      ensures |selected| == |products|
      ensures forall i :: 0 <= i < |selected| ==> AllKnown(entries, selected[i])
      ensures forall i :: 0 <= i < |products| ==> SelectedFor(entries, products[i], impacts, selected[i])
      ensures results == JobMatches(entries, products, selected)
      ensures matches == Recorded(old(matches), jobId, results)
      ensures Sound(entries, impacts, products, results) && Complete(entries, impacts, products, results)
      ensures forall key :: key in matches && key !in old(matches) ==> key.jobId == jobId && matches[key] in results
    {
      hide ProductMatches, EligibleRows, MatchedByBest, Recorded, OncePerCve, JobMatches, Sound, Complete, Decided,
        Relevant, HasMatch, SelectedFor, AllKnown;
      RecordedNothing(matches, jobId);
      NoProducts(entries);
      NoProductsYet(entries, impacts);
      results, selected := [], [];
      var k := 0;
      while k < |products|
        invariant 0 <= k <= |products| && |selected| == k
        invariant forall i :: 0 <= i < k ==> AllKnown(entries, selected[i])
        invariant forall i :: 0 <= i < k ==> SelectedFor(entries, products[i], impacts, selected[i])
        invariant results == JobMatches(entries, products[..k], selected)
        invariant matches == Recorded(old(matches), jobId, results)
        invariant Sound(entries, impacts, products[..k], results) && Complete(entries, impacts, products[..k], results)
      {
        ghost var before := matches;
        var out, rows := MatchProduct(jobId, products[k]);
        OneMoreProduct(entries, impacts, products, k, results, out);
        RecordedTwice(old(matches), jobId, results, out);
        JobMatchesStep(entries, products, selected, rows, k);
        results, selected := results + out, selected + [rows];
        k := k + 1;
      }
      assert products[..k] == products;
      RecordedFrom(old(matches), jobId, results);
    }
  }

  lemma NoProductsYet(entries: map<string, Entry>, impacts: seq<Impact>)
    ensures Sound(entries, impacts, [], []) && Complete(entries, impacts, [], [])
  {
  }

  lemma OneMoreProduct(entries: map<string, Entry>, impacts: seq<Impact>, products: seq<Product>, k: nat,
                       results: seq<Match>, out: seq<Match>)
    requires k < |products|
    requires Sound(entries, impacts, products[..k], results) && Complete(entries, impacts, products[..k], results)
    requires forall m :: m in out ==> m.product == products[k] && Decided(entries, impacts, m)
    requires forall x :: x in impacts && Relevant(entries, products[k], x) ==> HasMatch(out, products[k], x.cveId)
    ensures Sound(entries, impacts, products[..k + 1], results + out)
    ensures Complete(entries, impacts, products[..k + 1], results + out)
  {
    hide Decided, Relevant, HasMatch;
    assert products[..k + 1] == products[..k] + [products[k]];
    forall product, x | product in products[..k + 1] && x in impacts && Relevant(entries, product, x)
      ensures HasMatch(results + out, product, x.cveId)
    {
      HasMatchAppend(results, out, product, x.cveId);
    }
  }

  lemma HasMatchAppend(results: seq<Match>, out: seq<Match>, product: Product, cveId: string)
    ensures HasMatch(results, product, cveId) || HasMatch(out, product, cveId) ==>
      HasMatch(results + out, product, cveId)
  {
    assert forall m :: m in results || m in out ==> m in results + out;
  }

  /** The matches of a product in terms of the columns of the advisory table. */
  lemma MatchesExplained(entries: map<string, Entry>, product: Product, impacts: seq<Impact>, rows: seq<Impact>)
    requires SelectedFor(entries, product, impacts, rows)
    ensures var out := ProductMatches(entries, product, rows);
      && (forall m :: m in out ==> m.product == product && Decided(entries, impacts, m))
      && (forall x :: x in impacts && Relevant(entries, product, x) ==> HasMatch(out, product, x.cveId))
  {
    hide ProductMatches, EligibleRows, Decided, Relevant, HasMatch;
    var out := ProductMatches(entries, product, rows);
    forall m | m in out
      ensures m.product == product && Decided(entries, impacts, m)
    {
      MatchOrigin(entries, product, impacts, rows, m);
    }
    forall x | x in impacts && Relevant(entries, product, x)
      ensures HasMatch(out, product, x.cveId)
    {
      MatchedIffRelevant(entries, product, impacts, rows, x.cveId);
    }
  }

  /** What is stored was stored before or is one of the matches recorded. */
  lemma {:induction false} RecordedFrom(matches: map<MatchKey, Match>, jobId: string, out: seq<Match>)
    ensures forall key :: key in matches ==> key in Recorded(matches, jobId, out)
    ensures forall key :: key in Recorded(matches, jobId, out) ==> var m := Recorded(matches, jobId, out)[key];
      || (key in matches && m == matches[key])
      || (m in out && key == MatchKey(jobId, m.cveId, m.product.productId))
  {
    if out != [] {
      RecordedFrom(matches, jobId, out[..|out| - 1]);
      assert forall m :: m in out[..|out| - 1] ==> m in out;
    }
  }

  lemma NoProducts(entries: map<string, Entry>)
    ensures JobMatches(entries, [], []) == []
  {
  }

  lemma JobMatchesStep(entries: map<string, Entry>, products: seq<Product>, selected: seq<seq<Impact>>,
      rows: seq<Impact>, k: nat)
    requires k < |products| && |selected| == k && AllKnown(entries, rows)
    requires forall i :: 0 <= i < k ==> AllKnown(entries, selected[i])
    ensures JobMatches(entries, products[..k + 1], selected + [rows])
      == JobMatches(entries, products[..k], selected) + ProductMatches(entries, products[k], rows)
  {
    hide ProductMatches, AllKnown;
    assert products[..k + 1][..k] == products[..k] && (selected + [rows])[..k] == selected;
  }

  lemma RecordedNothing(matches: map<MatchKey, Match>, jobId: string)
    ensures Recorded(matches, jobId, []) == matches
  {
  }

  lemma MatchScope(product: Product, impact: Impact, rejected: bool)
    ensures MatchOf(product, impact, rejected).cveId == impact.cveId
    ensures MatchOf(product, impact, rejected).product == product
  {
  }

  lemma {:induction false} RecordedTwice(matches: map<MatchKey, Match>, jobId: string, first: seq<Match>,
      second: seq<Match>)
    ensures Recorded(matches, jobId, first + second) == Recorded(Recorded(matches, jobId, first), jobId, second)
  {
    if second == [] {
      assert first + second == first;
    } else {
      assert (first + second)[..|first + second| - 1] == first + second[..|second| - 1];
      RecordedTwice(matches, jobId, first, second[..|second| - 1]);
    }
  }

  /** The matches of every product over the rows selected for it. */
  function JobMatches(entries: map<string, Entry>, products: seq<Product>, selected: seq<seq<Impact>>): seq<Match>
    requires |selected| == |products| && forall i :: 0 <= i < |selected| ==> AllKnown(entries, selected[i])
  {
    if products == [] then []
    else
      var n := |products| - 1;
      assert AllKnown(entries, selected[n]);
      JobMatches(entries, products[..n], selected[..n]) + ProductMatches(entries, products[n], selected[n])
  }
}
