/** The deterministic matcher over the cached advisory tables (match_job, enrich_nvd, report_section in cve.py). */
module CveMatcher {
  import opened Common
  import opened CveVersion

  datatype Impact = Impact(
    cveId: string,
    productId: string,
    componentId: Option<string>,
    affectedMajor: string,
    affectedFrom: Option<string>,
    affectedBefore: Option<string>,
    sourceKey: string,
    priority: int)

  /** The advisory facts of a CVE; scores, texts and references are one value. */
  datatype Entry = Entry(rejected: bool, facts: string)

  datatype Product = Product(productId: string, installed: string)

  datatype Status = Applicable | PotentiallyApplicable | Fixed | NotApplicable | PendingConfirmation

  datatype Match = Match(
    cveId: string,
    product: Product,
    status: Status,
    affectedFrom: Option<string>,
    affectedBefore: Option<string>,
    inferred: bool,
    sourceKey: string,
    sourceProduct: string)

  // ----- Which cached rows may speak about a product -----

  function Candidates(productId: string): set<string> {
    if productId == "epas" then {"epas", "postgresql"} else {productId}
  }

  function AllowedSources(productId: string): set<string> {
    if productId == "epas" then {"edb_security", "postgresql_security"} else {"postgresql_security"}
  }

  predicate Eligible(entries: map<string, Entry>, product: Product, impact: Impact) {
    && impact.cveId in entries
    && impact.productId in Candidates(product.productId)
    && impact.componentId.None?
    && impact.affectedMajor in {MajorText(product.installed), "__all__"}
    && impact.sourceKey in AllowedSources(product.productId)
    && impact.affectedBefore.Some?
  }

  // ----- The sort key: own product first, then source priority -----

  predicate KeyLeq(product: Product, a: Impact, b: Impact) {
    var own, other := a.productId == product.productId, b.productId == product.productId;
    (own && !other) || (own == other && a.priority <= b.priority)
  }

  predicate KeyLess(product: Product, a: Impact, b: Impact) {
    !KeyLeq(product, b, a)
  }

  function Insert(product: Product, sorted: seq<Impact>, x: Impact): (r: seq<Impact>)
    ensures multiset(r) == multiset(sorted) + multiset{x}
  {
    if sorted == [] then [x]
    else
      var n := |sorted| - 1;
      assert sorted == sorted[..n] + [sorted[n]];
      if KeyLeq(product, sorted[n], x) then sorted + [x] else Insert(product, sorted[..n], x) + [sorted[n]]
  }

  /** Python's stable list sort by the key. */
  function StableSort(product: Product, rows: seq<Impact>): (r: seq<Impact>)
    ensures multiset(r) == multiset(rows)
  {
    if rows == [] then []
    else
      var n := |rows| - 1;
      assert rows == rows[..n] + [rows[n]];
      Insert(product, StableSort(product, rows[..n]), rows[n])
  }

  ghost predicate Sorted(product: Product, rows: seq<Impact>) {
    forall i, j :: 0 <= i < j < |rows| ==> KeyLeq(product, rows[i], rows[j])
  }

  // ----- The row that decides a CVE -----

  function First(rows: seq<Impact>, cveId: string): Option<Impact> {
    if rows == [] then None
    else
      var n := |rows| - 1;
      var before := First(rows[..n], cveId);
      if before.Some? then before else if rows[n].cveId == cveId then Some(rows[n]) else None
  }

  function Better(product: Product, best: Option<Impact>, x: Impact): Option<Impact> {
    if best.None? || KeyLess(product, x, best.value) then Some(x) else best
  }

  /** The least row of the CVE by the key; of several equal ones the first. */
  function Best(product: Product, rows: seq<Impact>, cveId: string): Option<Impact> {
    if rows == [] then None
    else
      var n := |rows| - 1;
      var before := Best(product, rows[..n], cveId);
      if rows[n].cveId == cveId then Better(product, before, rows[n]) else before
  }

  lemma {:induction false} FirstFound(rows: seq<Impact>, cveId: string)
    ensures First(rows, cveId).Some? <==> exists i :: 0 <= i < |rows| && rows[i].cveId == cveId
    ensures First(rows, cveId).Some? ==> First(rows, cveId).value in rows && First(rows, cveId).value.cveId == cveId
  {
    if rows != [] {
      var n := |rows| - 1;
      FirstFound(rows[..n], cveId);
      if i :| 0 <= i < |rows| && rows[i].cveId == cveId && i < n {
        assert rows[..n][i].cveId == cveId;
      }
    }
  }

  lemma KeyOrder(product: Product, a: Impact, b: Impact, c: Impact)
    ensures KeyLeq(product, a, b) || KeyLeq(product, b, a)
    ensures KeyLeq(product, a, b) && KeyLeq(product, b, c) ==> KeyLeq(product, a, c)
  {
  }

  lemma InsertMembers(product: Product, sorted: seq<Impact>, x: Impact, y: Impact)
    ensures y in Insert(product, sorted, x) <==> y in sorted || y == x
  {
    assert y in Insert(product, sorted, x) <==> y in multiset(Insert(product, sorted, x));
    assert y in sorted <==> y in multiset(sorted);
    hide Insert;
  }

  /** A row that none of the others is above goes last. */
  lemma SortedAppend(product: Product, sorted: seq<Impact>, x: Impact)
    requires Sorted(product, sorted) && forall i :: 0 <= i < |sorted| ==> KeyLeq(product, sorted[i], x)
    ensures Sorted(product, sorted + [x])
  {
    hide KeyLeq;
  }

  lemma {:induction false} InsertSorted(product: Product, sorted: seq<Impact>, x: Impact)
    requires Sorted(product, sorted)
    ensures Sorted(product, Insert(product, sorted, x))
  {
    hide KeyLeq;
    if sorted != [] {
      var n := |sorted| - 1;
      var last := sorted[n];
      KeyOrder(product, last, x, x);
      if KeyLeq(product, last, x) {
        forall i | 0 <= i < |sorted|
          ensures KeyLeq(product, sorted[i], x)
        {
          KeyOrder(product, sorted[i], last, x);
        }
        SortedAppend(product, sorted, x);
      } else {
        InsertSorted(product, sorted[..n], x);
        var front := Insert(product, sorted[..n], x);
        forall i | 0 <= i < |front|
          ensures KeyLeq(product, front[i], last)
        {
          InsertMembers(product, sorted[..n], x, front[i]);
        }
        SortedAppend(product, front, last);
      }
    }
  }

  lemma {:induction false} InsertFirst(product: Product, sorted: seq<Impact>, x: Impact, cveId: string)
    requires Sorted(product, sorted)
    ensures First(Insert(product, sorted, x), cveId)
         == if x.cveId == cveId then Better(product, First(sorted, cveId), x) else First(sorted, cveId)
  {
    if sorted == [] {
    } else {
      var n := |sorted| - 1;
      var r := Insert(product, sorted, x);
      if KeyLeq(product, sorted[n], x) {
        assert r[..|r| - 1] == sorted;
        FirstFound(sorted, cveId);
        if First(sorted, cveId).Some? {
          assert KeyLeq(product, First(sorted, cveId).value, sorted[n]);
        }
      } else {
        assert r[..|r| - 1] == Insert(product, sorted[..n], x);
        InsertFirst(product, sorted[..n], x, cveId);
      }
    }
  }

  /** Sorting and taking the first row of a CVE is picking its least row. */
  lemma {:induction false} SortThenFirst(product: Product, rows: seq<Impact>, cveId: string)
    ensures Sorted(product, StableSort(product, rows))
    ensures First(StableSort(product, rows), cveId) == Best(product, rows, cveId)
  {
    if rows != [] {
      var n := |rows| - 1;
      SortThenFirst(product, rows[..n], cveId);
      InsertSorted(product, StableSort(product, rows[..n]), rows[n]);
      InsertFirst(product, StableSort(product, rows[..n]), rows[n], cveId);
    }
  }

  /** Best is a row of the CVE that no other row of the CVE is below. */
  lemma {:induction false} BestIsLeast(product: Product, rows: seq<Impact>, cveId: string)
    ensures Best(product, rows, cveId).Some? <==> exists x :: x in rows && x.cveId == cveId
    ensures Best(product, rows, cveId).Some? ==> var b := Best(product, rows, cveId).value;
      b in rows && b.cveId == cveId && forall x :: x in rows && x.cveId == cveId ==> KeyLeq(product, b, x)
  {
    if rows != [] {
      var n := |rows| - 1;
      BestIsLeast(product, rows[..n], cveId);
      assert forall x :: x in rows <==> x in rows[..n] || x == rows[n];
    }
  }

  /** A CVE with an advisory of the installed product's own vendor is never decided by an upstream one. */
  lemma {:induction false} OwnAdvisoryDecides(product: Product, rows: seq<Impact>, cveId: string)
    requires exists x :: x in rows && x.cveId == cveId && x.productId == product.productId
    ensures Best(product, rows, cveId).Some? && Best(product, rows, cveId).value.productId == product.productId
  {
    BestIsLeast(product, rows, cveId);
  }

  /** No two different rows of the CVE are both least. */
  ghost predicate UniqueLeast(product: Product, rows: seq<Impact>, cveId: string) {
    forall x, y :: IsLeast(product, rows, cveId, x) && IsLeast(product, rows, cveId, y) ==> x == y
  }

  ghost predicate IsLeast(product: Product, rows: seq<Impact>, cveId: string, x: Impact) {
    x in rows && x.cveId == cveId && forall y :: y in rows && y.cveId == cveId ==> KeyLeq(product, x, y)
  }

  /** Every order of the rows leads to the same choice for the CVE. */
  ghost predicate OrderFree(product: Product, rows: seq<Impact>, cveId: string) {
    forall rows' :: multiset(rows') == multiset(rows) ==> Best(product, rows', cveId) == Best(product, rows, cveId)
  }

  lemma UniqueIsOrderFree(product: Product, rows: seq<Impact>, rows': seq<Impact>, cveId: string)
    requires UniqueLeast(product, rows, cveId) && multiset(rows') == multiset(rows)
    ensures Best(product, rows', cveId) == Best(product, rows, cveId)
  {
    BestIsLeast(product, rows, cveId);
    BestIsLeast(product, rows', cveId);
    assert forall x :: x in rows <==> x in multiset(rows);
    assert forall x :: x in rows' <==> x in multiset(rows');
    if Best(product, rows, cveId).Some? {
      assert IsLeast(product, rows, cveId, Best(product, rows, cveId).value);
      assert IsLeast(product, rows, cveId, Best(product, rows', cveId).value);
    }
  }

  /** The choice is independent of the order of the rows exactly when the least row is unique. */
  lemma OrderIndependence(product: Product, rows: seq<Impact>, cveId: string)
    ensures OrderFree(product, rows, cveId) <==> UniqueLeast(product, rows, cveId)
  {
    if UniqueLeast(product, rows, cveId) {
      forall rows' | multiset(rows') == multiset(rows)
        ensures Best(product, rows', cveId) == Best(product, rows, cveId)
      {
        UniqueIsOrderFree(product, rows, rows', cveId);
      }
    }
    if OrderFree(product, rows, cveId) {
      forall x, y | IsLeast(product, rows, cveId, x) && IsLeast(product, rows, cveId, y)
        ensures x == y
      {
        var rx := MovedFirst(product, rows, cveId, x);
        var ry := MovedFirst(product, rows, cveId, y);
      }
    }
  }

  /** Any least row is chosen when it comes first. */
  lemma MovedFirst(product: Product, rows: seq<Impact>, cveId: string, x: Impact) returns (moved: seq<Impact>)
    requires IsLeast(product, rows, cveId, x)
    ensures multiset(moved) == multiset(rows)
    ensures Best(product, moved, cveId) == Some(x)
  {
    var i :| 0 <= i < |rows| && rows[i] == x;
    assert rows == rows[..i] + [x] + rows[i + 1..];
    moved := [x] + (rows[..i] + rows[i + 1..]);
    assert multiset(moved) == multiset(rows);
    assert forall y :: y in moved <==> y in multiset(moved);
    assert forall y :: y in rows <==> y in multiset(rows);
    FirstStays(product, moved, cveId, x);
  }

  lemma {:induction false} FirstStays(product: Product, rows: seq<Impact>, cveId: string, x: Impact)
    requires rows != [] && rows[0] == x && x.cveId == cveId
    requires forall y :: y in rows && y.cveId == cveId ==> KeyLeq(product, x, y)
    ensures Best(product, rows, cveId) == Some(x)
  {
    var n := |rows| - 1;
    if n > 0 {
      FirstStays(product, rows[..n], cveId, x);
    }
  }

  // ----- The decision -----

  /** "Prior to" ranges of EDB's own advisories get the floor major.0 of the installed major. */
  predicate Inferred(product: Product, impact: Impact) {
    && !Given(impact.affectedFrom)
    && impact.sourceKey == "edb_security"
    && impact.productId in {"edb", "epas"}
    && impact.affectedBefore.Some? && MajorText(impact.affectedBefore.value) == MajorText(product.installed)
  }

  function LowerBound(product: Product, impact: Impact): Option<string> {
    if Inferred(product, impact) then Some(MajorText(product.installed) + ".0") else impact.affectedFrom
  }

  function StatusOf(product: Product, impact: Impact, rejected: bool): Status {
    var inRange := InRange(product.installed, LowerBound(product, impact), impact.affectedBefore);
    if rejected then NotApplicable
    else if inRange.None? then PendingConfirmation
    else if inRange.value && product.productId == "epas" && impact.productId == "postgresql" then PotentiallyApplicable
    else if inRange.value then Applicable
    else Fixed
  }

  function MatchOf(product: Product, impact: Impact, rejected: bool): Match {
    Match(impact.cveId, product, StatusOf(product, impact, rejected), LowerBound(product, impact),
          impact.affectedBefore, Inferred(product, impact), impact.sourceKey, impact.productId)
  }

  /** installed lies in the half-open range from the lower bound to the first unaffected version. */
  ghost predicate Within(installed: string, from: Option<string>, before: Option<string>) {
    Given(from) && Given(before) && exists lower, upper, current ::
      && ParseVersion(from.value) == Some(lower) && ParseVersion(before.value) == Some(upper)
      && ParseVersion(installed) == Some(current)
      && Leq(lower, current) && Less(current, upper)
  }

  /** The range as stated by the advisory, with a missing lower bound of an EDB advisory taken as none at all. */
  ghost predicate Affected(product: Product, impact: Impact) {
    if Inferred(product, impact) then
      Given(impact.affectedBefore) && exists upper, current ::
        && ParseVersion(impact.affectedBefore.value) == Some(upper)
        && ParseVersion(product.installed) == Some(current) && Less(current, upper)
    else Within(product.installed, impact.affectedFrom, impact.affectedBefore)
  }

  lemma {:induction false} InferredRange(product: Product, impact: Impact)
    requires Strip(product.installed) == product.installed
    ensures InRange(product.installed, LowerBound(product, impact), impact.affectedBefore) == Some(true)
         <==> Affected(product, impact)
  {
    hide ParseVersion, MajorText, Strip;
    if Inferred(product, impact) && ParseVersion(product.installed).Some? {
      FloorIsBelow(product.installed);
    }
  }

  /**
   * applicable means: not rejected, the row is about the installed product itself, and the installed version is in
   * the affected range. An EPAS installation is never applicable on the strength of an upstream PostgreSQL row.
   */
  lemma {:induction false} ApplicableMeans(entries: map<string, Entry>, product: Product, impact: Impact)
    requires Eligible(entries, product, impact) && Strip(product.installed) == product.installed
    ensures var status := StatusOf(product, impact, entries[impact.cveId].rejected);
      && (status == Applicable <==>
            !entries[impact.cveId].rejected && impact.productId == product.productId && Affected(product, impact))
      && (status == PotentiallyApplicable <==>
            !entries[impact.cveId].rejected && impact.productId != product.productId && Affected(product, impact))
  {
    hide ParseVersion, MajorText, Strip, InRange, Inferred, Affected;
    InferredRange(product, impact);
  }

  /** Installed version and both bounds can be read; an inferred lower bound always can. */
  predicate Comparable(product: Product, impact: Impact) {
    && ParseVersion(product.installed).Some?
    && Given(impact.affectedBefore) && ParseVersion(impact.affectedBefore.value).Some?
    && (Inferred(product, impact) || (Given(impact.affectedFrom) && ParseVersion(impact.affectedFrom.value).Some?))
  }

  /** The other three outcomes: rejected, not decidable, and outside the affected range. */
  lemma OtherwiseMeans(product: Product, impact: Impact, rejected: bool)
    requires Strip(product.installed) == product.installed
    ensures var status := StatusOf(product, impact, rejected);
      && (status == NotApplicable <==> rejected)
      && (status == PendingConfirmation <==> !rejected && !Comparable(product, impact))
      && (status == Fixed <==> !rejected && Comparable(product, impact) && !Affected(product, impact))
  {
    hide ParseVersion, MajorText, Strip;
    InferredRange(product, impact);
    if Inferred(product, impact) && ParseVersion(product.installed).Some? {
      FloorIsBelow(product.installed);
    }
  }

  // ----- The loop -----

  /** Matches of the sorted rows with the CVEs of seen left out: the loop over impacts. */
  function MatchesOf(entries: map<string, Entry>, product: Product, sorted: seq<Impact>): seq<Match>
    requires forall i :: 0 <= i < |sorted| ==> sorted[i].cveId in entries
  {
    if sorted == [] then []
    else
      var n := |sorted| - 1;
      var before := MatchesOf(entries, product, sorted[..n]);
      if First(sorted[..n], sorted[n].cveId).Some? then before
      else before + [MatchOf(product, sorted[n], entries[sorted[n].cveId].rejected)]
  }

  ghost predicate OncePerCve(out: seq<Match>) {
    forall i, j :: 0 <= i < j < |out| ==> out[i].cveId != out[j].cveId
  }

  /** Every CVE of the rows is matched once, by its first row; no other CVE is. */
  lemma {:induction false} MatchesByFirst(entries: map<string, Entry>, product: Product, sorted: seq<Impact>)
    requires forall i :: 0 <= i < |sorted| ==> sorted[i].cveId in entries
    ensures OncePerCve(MatchesOf(entries, product, sorted))
    ensures forall m :: m in MatchesOf(entries, product, sorted) <==> MatchedByFirst(entries, product, sorted, m)
  {
    hide MatchOf;
    if sorted != [] {
      var n := |sorted| - 1;
      var init, x := sorted[..n], sorted[n];
      MatchesByFirst(entries, product, init);
      MatchKeeps(product, x, entries[x.cveId].rejected);
      var before := MatchesOf(entries, product, init);
      if First(init, x.cveId).Some? {
        forall m
          ensures MatchedByFirst(entries, product, sorted, m) <==> MatchedByFirst(entries, product, init, m)
        {
        }
      } else {
        var last := MatchOf(product, x, entries[x.cveId].rejected);
        forall m
          ensures MatchedByFirst(entries, product, sorted, m) <==>
            MatchedByFirst(entries, product, init, m) || m == last
        {
        }
        forall i | 0 <= i < |before|
          ensures before[i].cveId != x.cveId
        {
          assert MatchedByFirst(entries, product, init, before[i]);
        }
      }
    }
  }

  lemma MatchKeeps(product: Product, x: Impact, rejected: bool)
    ensures MatchOf(product, x, rejected).cveId == x.cveId
  {
  }

  ghost predicate MatchedByFirst(entries: map<string, Entry>, product: Product, rows: seq<Impact>, m: Match) {
    var x := First(rows, m.cveId);
    x.Some? && m.cveId in entries && m == MatchOf(product, x.value, entries[m.cveId].rejected)
  }

  /** The matches of a product over its selected rows, in whatever order they came. */
  function ProductMatches(entries: map<string, Entry>, product: Product, rows: seq<Impact>): seq<Match>
    requires forall i :: 0 <= i < |rows| ==> rows[i].cveId in entries
  {
    SortedInEntries(entries, product, rows);
    MatchesOf(entries, product, StableSort(product, rows))
  }

  lemma {:induction false} SortedInEntries(entries: map<string, Entry>, product: Product, rows: seq<Impact>)
    requires forall i :: 0 <= i < |rows| ==> rows[i].cveId in entries
    ensures |StableSort(product, rows)| == |rows|
    ensures forall i :: 0 <= i < |rows| ==> StableSort(product, rows)[i].cveId in entries
  {
    var sorted := StableSort(product, rows);
    assert |multiset(sorted)| == |multiset(rows)|;
    forall i | 0 <= i < |sorted|
      ensures sorted[i].cveId in entries
    {
      assert sorted[i] in multiset(sorted);
      assert sorted[i] in rows;
    }
  }

  ghost predicate MatchedByBest(entries: map<string, Entry>, product: Product, rows: seq<Impact>, m: Match) {
    var x := Best(product, rows, m.cveId);
    x.Some? && m.cveId in entries && m == MatchOf(product, x.value, entries[m.cveId].rejected)
  }

  /**
   * Sorting, then taking each CVE the first time it is seen, yields exactly one match for every CVE with an eligible
   * row, decided by its least row; and no other match.
   */
  lemma MatchesAreBest(entries: map<string, Entry>, product: Product, rows: seq<Impact>)
    requires forall i :: 0 <= i < |rows| ==> rows[i].cveId in entries
    ensures OncePerCve(ProductMatches(entries, product, rows))
    ensures forall m :: m in ProductMatches(entries, product, rows) <==> MatchedByBest(entries, product, rows, m)
  {
    SortedInEntries(entries, product, rows);
    var sorted := StableSort(product, rows);
    MatchesByFirst(entries, product, sorted);
    hide MatchOf, MatchesOf, StableSort, First, Best, OncePerCve;
    forall m
      ensures MatchedByFirst(entries, product, sorted, m) <==> MatchedByBest(entries, product, rows, m)
    {
      SortThenFirst(product, rows, m.cveId);
    }
  }
}
