/** Which advisory rows decide a product: the query of match_job in cve.py, and what its matches say about the rows. */
module CveSelection {
  import opened Common
  import opened CveVersion
  import opened CveMatcher

  // ----- The query -----

  predicate AllKnown(entries: map<string, Entry>, rows: seq<Impact>) {
    forall i :: 0 <= i < |rows| ==> rows[i].cveId in entries
  }

  /** The rows of the joined query, in table order; the database may return them in any order. */
  function EligibleRows(entries: map<string, Entry>, product: Product, impacts: seq<Impact>): seq<Impact> {
    if impacts == [] then []
    else
      var before, x := EligibleRows(entries, product, impacts[..|impacts| - 1]), impacts[|impacts| - 1];
      if Eligible(entries, product, x) then before + [x] else before
  }

  /** rows are the eligible rows of the product, in some order. */
  ghost predicate SelectedFor(entries: map<string, Entry>, product: Product, impacts: seq<Impact>, rows: seq<Impact>) {
    AllKnown(entries, rows) && multiset(rows) == multiset(EligibleRows(entries, product, impacts))
  }

  lemma {:induction false} EligibleRowsContent(entries: map<string, Entry>, product: Product, impacts: seq<Impact>,
      x: Impact)
    ensures x in EligibleRows(entries, product, impacts) <==> x in impacts && Eligible(entries, product, x)
  {
    hide MajorText;
    if impacts != [] {
      EligibleRowsContent(entries, product, impacts[..|impacts| - 1], x);
      assert impacts == impacts[..|impacts| - 1] + [impacts[|impacts| - 1]];
    }
  }

  lemma EligibleKnown(entries: map<string, Entry>, product: Product, impacts: seq<Impact>, rows: seq<Impact>)
    requires multiset(rows) == multiset(EligibleRows(entries, product, impacts))
    ensures AllKnown(entries, rows)
  {
    hide MajorText;
    forall i | 0 <= i < |rows|
      ensures rows[i].cveId in entries
    {
      assert rows[i] in multiset(rows);
      EligibleRowsContent(entries, product, impacts, rows[i]);
    }
  }

  // ----- The columns that matter -----

  /** major is the installed version up to its first dot. */
  predicate MajorOf(installed: string, major: string) {
    '.' !in major && (installed == major || major + "." <= installed)
  }

  lemma MajorTextIsMajor(installed: string, major: string)
    ensures MajorOf(installed, major) <==> major == MajorText(installed)
  {
    var text := MajorText(installed);
    if MajorOf(installed, major) && major != installed {
      assert (major + ".")[|major|] == '.';
      assert |text| == |major|;
      assert installed[..|major|] == major && installed[..|text|] == text;
    }
    if major == text && text != installed {
      assert installed[..|text| + 1] == text + ".";
    }
  }

  /** A row about another major than the installed one, and not about all of them. */
  predicate OtherMajor(product: Product, x: Impact) {
    x.affectedMajor != "__all__" && !MajorOf(product.installed, x.affectedMajor)
  }

  /** Neither the vendor's own advisories nor, for EPAS, the upstream ones. */
  predicate OtherSource(product: Product, x: Impact) {
    x.sourceKey != "postgresql_security" && !(product.productId == "epas" && x.sourceKey == "edb_security")
  }

  /** About another product; for EPAS, PostgreSQL is not another one. */
  predicate OtherProduct(product: Product, x: Impact) {
    x.productId != product.productId && !(product.productId == "epas" && x.productId == "postgresql")
  }

  /** The row may not speak about the product, for one of its columns. */
  predicate Foreign(product: Product, x: Impact) {
    || OtherMajor(product, x) || OtherSource(product, x) || OtherProduct(product, x)
    || x.componentId.Some? || x.affectedBefore.None?
  }

  /** The row may speak about the product: its CVE is known and nothing makes it foreign. */
  predicate Relevant(entries: map<string, Entry>, product: Product, x: Impact) {
    x.cveId in entries && !Foreign(product, x)
  }

  lemma EligibleMeans(entries: map<string, Entry>, product: Product, x: Impact)
    ensures Eligible(entries, product, x) <==> Relevant(entries, product, x)
  {
    MajorTextIsMajor(product.installed, x.affectedMajor);
    hide MajorText, MajorOf;
  }

  function Keeping(impacts: seq<Impact>, keep: Impact -> bool): seq<Impact> {
    if impacts == [] then []
    else
      var before, x := Keeping(impacts[..|impacts| - 1], keep), impacts[|impacts| - 1];
      if keep(x) then before + [x] else before
  }

  /**
   * Foreign rows do not interfere: taking any of them out of the table leaves the rows selected for the product as
   * they are, and with them its matches. This holds for rows of another major, source or product, of a component,
   * and without a first unaffected version.
   */
  lemma {:induction false} ForeignRowsIgnored(entries: map<string, Entry>, product: Product, impacts: seq<Impact>,
      keep: Impact -> bool)
    requires forall x :: x in impacts && !keep(x) ==> Foreign(product, x)
    ensures EligibleRows(entries, product, Keeping(impacts, keep)) == EligibleRows(entries, product, impacts)
  {
    hide Foreign, Eligible;
    if impacts != [] {
      var init, x := impacts[..|impacts| - 1], impacts[|impacts| - 1];
      assert forall y :: y in init ==> y in impacts;
      ForeignRowsIgnored(entries, product, init, keep);
      EligibleMeans(entries, product, x);
      var before := Keeping(init, keep);
      assert (before + [x])[..|before|] == before;
    }
  }

  // ----- What a match says about the row it came from -----

  /** No relevant row of the same CVE comes before: own product first, then the smaller source priority. */
  ghost predicate Leads(entries: map<string, Entry>, product: Product, impacts: seq<Impact>, x: Impact) {
    forall y :: y in impacts && Relevant(entries, product, y) && y.cveId == x.cveId ==> Precedes(product, x, y)
  }

  predicate Precedes(product: Product, x: Impact, y: Impact) {
    if (x.productId == product.productId) != (y.productId == product.productId) then x.productId == product.productId
    else x.priority <= y.priority
  }

  /** EDB's "prior to" advisory for the installed major, whose lower bound is then major.0. */
  ghost predicate PriorToOnly(product: Product, x: Impact) {
    && (x.affectedFrom == None || x.affectedFrom == Some(""))
    && x.sourceKey == "edb_security" && (x.productId == "edb" || x.productId == "epas")
    && x.affectedBefore.Some?
    && exists major :: MajorOf(product.installed, major) && MajorOf(x.affectedBefore.value, major)
  }

  /** The match was decided by row x of the table. */
  ghost predicate DecidedBy(entries: map<string, Entry>, impacts: seq<Impact>, m: Match, x: Impact) {
    && x in impacts && Relevant(entries, m.product, x) && Leads(entries, m.product, impacts, x)
    && m.cveId == x.cveId && m.sourceKey == x.sourceKey && m.sourceProduct == x.productId
    && m.affectedBefore == x.affectedBefore
    && (m.inferred <==> PriorToOnly(m.product, x))
    && (!m.inferred ==> m.affectedFrom == x.affectedFrom)
    && (m.inferred ==> exists major :: MajorOf(m.product.installed, major) && m.affectedFrom == Some(major + ".0"))
    && (m.status == NotApplicable <==> x.cveId in entries && entries[x.cveId].rejected)
  }

  ghost predicate Decided(entries: map<string, Entry>, impacts: seq<Impact>, m: Match) {
    exists x :: DecidedBy(entries, impacts, m, x)
  }

  lemma InferredMeans(product: Product, x: Impact)
    ensures Inferred(product, x) <==> PriorToOnly(product, x)
    ensures Inferred(product, x) ==>
      exists major :: MajorOf(product.installed, major) && LowerBound(product, x) == Some(major + ".0")
  {
    hide MajorText, MajorOf;
    MajorTextIsMajor(product.installed, MajorText(product.installed));
    if x.affectedBefore.Some? {
      var before := x.affectedBefore.value;
      forall major
        ensures MajorOf(product.installed, major) <==> major == MajorText(product.installed)
        ensures MajorOf(before, major) <==> major == MajorText(before)
      {
        MajorTextIsMajor(product.installed, major);
        MajorTextIsMajor(before, major);
      }
    }
  }

  lemma MatchColumns(product: Product, x: Impact, rejected: bool)
    ensures var m := MatchOf(product, x, rejected);
      && m.cveId == x.cveId && m.product == product && m.sourceKey == x.sourceKey && m.sourceProduct == x.productId
      && m.affectedBefore == x.affectedBefore && m.inferred == Inferred(product, x)
      && (!m.inferred ==> m.affectedFrom == x.affectedFrom) && m.affectedFrom == LowerBound(product, x)
      && (m.status == NotApplicable <==> rejected)
  {
    hide InRange;
  }

  lemma KeyLeqMeans(product: Product, x: Impact, y: Impact)
    ensures KeyLeq(product, x, y) <==> Precedes(product, x, y)
  {
  }

  /** Every match was decided by a relevant row of the table that no relevant row of its CVE comes before. */
  lemma MatchOrigin(entries: map<string, Entry>, product: Product, impacts: seq<Impact>, rows: seq<Impact>, m: Match)
    requires SelectedFor(entries, product, impacts, rows) && m in ProductMatches(entries, product, rows)
    ensures m.product == product && Decided(entries, impacts, m)
  {
    hide ProductMatches, EligibleRows, MatchOf, Eligible, Relevant, Precedes, KeyLeq, PriorToOnly, MajorOf, OncePerCve;
    MatchesAreBest(entries, product, rows);
    BestIsLeast(product, rows, m.cveId);
    var x := Best(product, rows, m.cveId).value;
    hide Best;
    MatchColumns(product, x, entries[m.cveId].rejected);
    InferredMeans(product, x);
    hide Inferred, LowerBound;
    assert x in multiset(rows);
    EligibleRowsContent(entries, product, impacts, x);
    EligibleMeans(entries, product, x);
    forall y | y in impacts && Relevant(entries, product, y) && y.cveId == x.cveId
      ensures Precedes(product, x, y)
    {
      EligibleMeans(entries, product, y);
      EligibleRowsContent(entries, product, impacts, y);
      assert y in multiset(rows);
      KeyLeqMeans(product, x, y);
    }
    assert DecidedBy(entries, impacts, m, x);
  }

  ghost predicate HasMatch(out: seq<Match>, product: Product, cveId: string) {
    exists m :: m in out && m.product == product && m.cveId == cveId
  }

  /** A CVE is matched exactly when a relevant row is about it. */
  lemma MatchedIffRelevant(entries: map<string, Entry>, product: Product, impacts: seq<Impact>, rows: seq<Impact>,
      cveId: string)
    requires SelectedFor(entries, product, impacts, rows)
    ensures HasMatch(ProductMatches(entries, product, rows), product, cveId) <==>
      exists x :: x in impacts && Relevant(entries, product, x) && x.cveId == cveId
  {
    hide ProductMatches, EligibleRows, MatchOf, Eligible, Relevant, KeyLeq, OncePerCve, DecidedBy;
    if HasMatch(ProductMatches(entries, product, rows), product, cveId) {
      var m :| m in ProductMatches(entries, product, rows) && m.product == product && m.cveId == cveId;
      MatchOrigin(entries, product, impacts, rows, m);
      var x :| DecidedBy(entries, impacts, m, x);
      DecidedFacts(entries, impacts, m, x);
    }
    if x :| x in impacts && Relevant(entries, product, x) && x.cveId == cveId {
      EligibleMeans(entries, product, x);
      EligibleRowsContent(entries, product, impacts, x);
      assert x in multiset(rows);
      MatchesAreBest(entries, product, rows);
      BestIsLeast(product, rows, cveId);
      var best := Best(product, rows, cveId).value;
      var m := MatchOf(product, best, entries[cveId].rejected);
      MatchColumns(product, best, entries[cveId].rejected);
      assert MatchedByBest(entries, product, rows, m);
    }
  }

  lemma DecidedFacts(entries: map<string, Entry>, impacts: seq<Impact>, m: Match, x: Impact)
    requires DecidedBy(entries, impacts, m, x)
    ensures x in impacts && Relevant(entries, m.product, x) && x.cveId == m.cveId
  {
  }
}
