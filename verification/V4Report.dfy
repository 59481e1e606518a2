/**
 * The workflow of a V4 report and its way back into the report (build_v4_section_workflow and
 * apply_workflow_to_v4_report in section_workflow.py). A text field that is missing or empty is the empty string.
 */
module V4Report {
  import opened Common
  import opened SectionWorkflow
  import SP = SectionPersistence

  datatype Evidence = Evidence(isImage: bool, path: string, suffix: string, digest: string, snapshot: string)

  datatype ReportItem = ReportItem(
    displayed: bool,
    title: string,
    node: string,
    status: RuleStatus,
    observation: string,
    recommendation: string,
    evidence: Evidence)

  datatype Section = Section(number: string, items: seq<ReportItem>)

  datatype Chapter = Chapter(sections: seq<Section>)

  datatype Report = Report(chapters: seq<Chapter>)

  /** The check id derived from a title: never empty, and without a colon. */
  type CheckIds = string -> string

  ghost predicate CheckIdsOk(ids: CheckIds) {
    forall title :: ids(title) != [] && ':' !in ids(title)
  }

  const DEFAULT_OBSERVATION := "已彙整當期 Output。\n結論：本項仍待確認"
  const DEFAULT_RECOMMENDATION := "確認 Output 後完成覆核"

  function OrElse(text: string, default: string): string {
    if text == [] then default else text
  }

  function TitleOf(item: ReportItem): string {
    OrElse(item.title, "Report Section")
  }

  function SectionKey(number: string, ordinal: nat, checkId: string): string {
    "v4:" + number + ":" + Decimal(ordinal) + ":" + checkId
  }

  function KeyOf(ids: CheckIds, number: string, ordinal: nat, item: ReportItem): string {
    SectionKey(number, ordinal, ids(TitleOf(item)))
  }

  function MediaType(suffix: string): string {
    if suffix in {".jpg", ".jpeg"} then "image/jpeg"
    else if suffix == ".webp" then "image/webp"
    else if suffix in {".tif", ".tiff"} then "image/tiff"
    else "image/png"
  }

  function MediaOf(e: Evidence): Option<Media> {
    if e.isImage && e.path != [] then Some(Media(e.path, MediaType(e.suffix))) else None
  }

  function EntryOf(ids: CheckIds, ruleset: string, number: string, ordinal: nat, item: ReportItem): Item {
    var check, node := ids(TitleOf(item)), OrElse(item.node, "all-nodes");
    var text := Narrative(DeterministicTemplate, OrElse(item.observation, DEFAULT_OBSERVATION),
                          OrElse(item.recommendation, DEFAULT_RECOMMENDATION));
    Item(Facts(KeyOf(ids, number, ordinal, item), number, check, node, item.status, text,
               [EvidenceRef(check, node, item.evidence.digest)], Some(item.evidence.snapshot),
               RuleTrace("report.v4.visible_section.v1", ruleset), MediaOf(item.evidence)),
         Generated, 1, None, None, None, SelectedDeterministic)
  }

  /** The text, or the default when there is none. */
  predicate TextOr(text: string, default: string, given: string) {
    (|text| > 0 ==> given == text) && (|text| == 0 ==> given == default)
  }

  /** An image with a path, as the media of an entry; its type by the suffix, png when it is none of the others. */
  predicate ShowsImage(e: Evidence, media: Option<Media>) {
    if !e.isImage || e.path == "" then media == None
    else
      && media.Some? && media.value.path == e.path
      && (media.value.mediaType == "image/jpeg" <==> e.suffix == ".jpg" || e.suffix == ".jpeg")
      && (media.value.mediaType == "image/tiff" <==> e.suffix == ".tif" || e.suffix == ".tiff")
      && (media.value.mediaType == "image/webp" <==> e.suffix == ".webp")
      && media.value.mediaType in {"image/jpeg", "image/tiff", "image/webp", "image/png"}
  }

  /** What the entry of a report item holds: its facts, its texts or the default ones, its evidence; nothing edited. */
  predicate Records(ids: CheckIds, ruleset: string, number: string, item: ReportItem, e: Item) {
    && e.facts.sectionId == number && e.facts.status == item.status
    && e.facts.checkId == ids(if item.title == "" then "Report Section" else item.title)
    && TextOr(item.node, "all-nodes", e.facts.node)
    && e.facts.deterministic.source == DeterministicTemplate
    && TextOr(item.observation, DEFAULT_OBSERVATION, e.facts.deterministic.observation)
    && TextOr(item.recommendation, DEFAULT_RECOMMENDATION, e.facts.deterministic.recommendation)
    && e.facts.evidenceRefs == [EvidenceRef(e.facts.checkId, e.facts.node, item.evidence.digest)]
    && e.facts.evidenceSnapshot == Some(item.evidence.snapshot)
    && e.facts.trace == RuleTrace("report.v4.visible_section.v1", ruleset)
    && ShowsImage(item.evidence, e.facts.media)
    && e.workflowStatus == Generated && e.revision == 1 && e.selected == SelectedDeterministic
    && e.aiDraft == None && e.reviewed == None && e.approved == None
  }

  lemma EntryRecords(ids: CheckIds, ruleset: string, number: string, ordinal: nat, item: ReportItem)
    ensures var e := EntryOf(ids, ruleset, number, ordinal, item);
      Records(ids, ruleset, number, item, e)
      && e.facts.sectionKey == "v4:" + number + ":" + Decimal(ordinal) + ":" + e.facts.checkId
  {
  }

  // ----- The entries of a report, in document order -----

  function SectionEntries(ids: CheckIds, ruleset: string, section: Section, n: nat): seq<Item>
    requires n <= |section.items|
  {
    if n == 0 then []
    else
      var before, item := SectionEntries(ids, ruleset, section, n - 1), section.items[n - 1];
      if item.displayed then before + [EntryOf(ids, ruleset, section.number, n - 1, item)] else before
  }

  function ChapterEntries(ids: CheckIds, ruleset: string, chapter: Chapter, n: nat): seq<Item>
    requires n <= |chapter.sections|
  {
    if n == 0 then []
    else
      var section := chapter.sections[n - 1];
      ChapterEntries(ids, ruleset, chapter, n - 1) + SectionEntries(ids, ruleset, section, |section.items|)
  }

  function ReportEntries(ids: CheckIds, ruleset: string, report: Report, n: nat): seq<Item>
    requires n <= |report.chapters|
  {
    if n == 0 then []
    else
      var chapter := report.chapters[n - 1];
      ReportEntries(ids, ruleset, report, n - 1) + ChapterEntries(ids, ruleset, chapter, |chapter.sections|)
  }

  function Entries(ids: CheckIds, ruleset: string, report: Report): seq<Item> {
    ReportEntries(ids, ruleset, report, |report.chapters|)
  }

  // ----- Slots: the places of a report -----

  datatype Slot = Slot(chapter: nat, section: nat, ordinal: nat)

  predicate IsSlot(report: Report, p: Slot) {
    && p.chapter < |report.chapters|
    && p.section < |report.chapters[p.chapter].sections|
    && p.ordinal < |report.chapters[p.chapter].sections[p.section].items|
  }

  function SectionAt(report: Report, p: Slot): Section
    requires IsSlot(report, p)
  {
    report.chapters[p.chapter].sections[p.section]
  }

  function ItemAt(report: Report, p: Slot): ReportItem
    requires IsSlot(report, p)
  {
    SectionAt(report, p).items[p.ordinal]
  }

  predicate Visible(report: Report, p: Slot) {
    IsSlot(report, p) && ItemAt(report, p).displayed
  }

  function EntryAt(ids: CheckIds, ruleset: string, report: Report, p: Slot): Item
    requires IsSlot(report, p)
  {
    EntryOf(ids, ruleset, SectionAt(report, p).number, p.ordinal, ItemAt(report, p))
  }

  function KeyAt(ids: CheckIds, report: Report, p: Slot): string
    requires IsSlot(report, p)
  {
    KeyOf(ids, SectionAt(report, p).number, p.ordinal, ItemAt(report, p))
  }

  /** No section number occurs twice in the report. */
  ghost predicate DistinctNumbers(report: Report) {
    forall p, q ::
      IsSlot(report, p) && IsSlot(report, q) && SectionAt(report, p).number == SectionAt(report, q).number ==>
        p.chapter == q.chapter && p.section == q.section
  }

  // ----- Keys -----

  lemma LastColon(a: string, b: string)
    requires ':' !in b
    ensures (a + ":" + b)[|a|] == ':'
    ensures forall k :: |a| < k < |a + ":" + b| ==> (a + ":" + b)[k] != ':'
  {
    assert forall k :: |a| < k < |a + ":" + b| ==> (a + ":" + b)[k] == b[k - |a| - 1];
  }

  lemma SplitAtLastColon(a: string, b: string, c: string, d: string)
    requires a + ":" + b == c + ":" + d && ':' !in b && ':' !in d
    ensures a == c && b == d
  {
    LastColon(a, b);
    LastColon(c, d);
    var s := a + ":" + b;
    assert |a| == |c|;
    assert s[..|a|] == a && s[..|a|] == c;
    assert s[|a| + 1..] == b && s[|a| + 1..] == d;
  }

  /** A key tells the section number, the ordinal and the check id, even when section numbers hold colons. */
  lemma KeyInjective(n: string, o: nat, c: string, n': string, o': nat, c': string)
    requires ':' !in c && ':' !in c'
    requires SectionKey(n, o, c) == SectionKey(n', o', c')
    ensures n == n' && o == o' && c == c'
  {
    SplitAtLastColon("v4:" + n + ":" + Decimal(o), c, "v4:" + n' + ":" + Decimal(o'), c');
    assert ':' !in Decimal(o) && ':' !in Decimal(o');
    SplitAtLastColon("v4:" + n, Decimal(o), "v4:" + n', Decimal(o'));
    DecimalInjective(o, o');
    assert ("v4:" + n)[3..] == n && ("v4:" + n')[3..] == n';
  }

  /** Two slots have the same key exactly when section number, ordinal and check id agree. */
  lemma SameKeyMeans(ids: CheckIds, report: Report, p: Slot, q: Slot)
    requires CheckIdsOk(ids) && IsSlot(report, p) && IsSlot(report, q)
    ensures KeyAt(ids, report, p) == KeyAt(ids, report, q) <==>
      && SectionAt(report, p).number == SectionAt(report, q).number
      && p.ordinal == q.ordinal
      && ids(TitleOf(ItemAt(report, p))) == ids(TitleOf(ItemAt(report, q)))
  {
    if KeyAt(ids, report, p) == KeyAt(ids, report, q) {
      KeyInjective(SectionAt(report, p).number, p.ordinal, ids(TitleOf(ItemAt(report, p))),
                   SectionAt(report, q).number, q.ordinal, ids(TitleOf(ItemAt(report, q))));
    }
  }

  /** A visible slot has the key of slot p. */
  ghost predicate VisibleTwin(ids: CheckIds, report: Report, p: Slot, q: Slot) {
    IsSlot(report, p) && Visible(report, q) && KeyAt(ids, report, p) == KeyAt(ids, report, q)
  }

  /** No two visible slots have the same key. */
  ghost predicate VisibleKeysApart(ids: CheckIds, report: Report) {
    forall p, q :: Visible(report, p) && VisibleTwin(ids, report, p, q) ==> p == q
  }

  /** Distinct section numbers keep all keys apart. */
  lemma DistinctNumbersSuffice(ids: CheckIds, report: Report, p: Slot, q: Slot)
    requires CheckIdsOk(ids) && DistinctNumbers(report) && VisibleTwin(ids, report, p, q)
    ensures p == q
  {
    SameKeyMeans(ids, report, p, q);
  }

  // ----- Entries are exactly the visible slots, in document order -----

  /** Entry i is the entry of the visible slot slots[i], and no slot is listed twice. */
  ghost predicate Listing(ids: CheckIds, ruleset: string, report: Report, items: seq<Item>, slots: seq<Slot>) {
    && |items| == |slots|
    && (forall i :: 0 <= i < |slots| ==>
      Visible(report, slots[i]) && items[i] == EntryAt(ids, ruleset, report, slots[i]))
    && (forall i, j :: 0 <= i < j < |slots| ==> slots[i] != slots[j])
  }

  lemma ListingAppend(ids: CheckIds, ruleset: string, report: Report, items: seq<Item>, slots: seq<Slot>,
                      more: seq<Item>, next: seq<Slot>)
    requires Listing(ids, ruleset, report, items, slots) && Listing(ids, ruleset, report, more, next)
    requires forall p :: p in slots ==> p !in next
    ensures Listing(ids, ruleset, report, items + more, slots + next)
    ensures forall p :: p in slots + next <==> p in slots || p in next
  {
    hide EntryAt;
    forall i, j | 0 <= i < j < |slots + next|
      ensures (slots + next)[i] != (slots + next)[j]
    {
      assert i < |slots| ==> slots[i] in slots;
      assert j >= |slots| ==> next[j - |slots|] in next;
    }
  }

  lemma {:induction false} SectionListing(ids: CheckIds, ruleset: string, report: Report, c: nat, s: nat, n: nat)
      returns (slots: seq<Slot>)
    requires c < |report.chapters| && s < |report.chapters[c].sections| && n <= |report.chapters[c].sections[s].items|
    ensures Listing(ids, ruleset, report, SectionEntries(ids, ruleset, report.chapters[c].sections[s], n), slots)
    ensures forall p :: p in slots <==> Visible(report, p) && p.chapter == c && p.section == s && p.ordinal < n
  {
    hide EntryOf;
    slots := [];
    if n > 0 {
      slots := SectionListing(ids, ruleset, report, c, s, n - 1);
      var section, p := report.chapters[c].sections[s], Slot(c, s, n - 1);
      if section.items[n - 1].displayed {
        assert EntryAt(ids, ruleset, report, p) == EntryOf(ids, ruleset, section.number, n - 1, section.items[n - 1]);
        ListingAppend(ids, ruleset, report, SectionEntries(ids, ruleset, section, n - 1), slots,
                      [EntryAt(ids, ruleset, report, p)], [p]);
        slots := slots + [p];
      }
    }
  }

  lemma {:induction false} ChapterListing(ids: CheckIds, ruleset: string, report: Report, c: nat, n: nat)
      returns (slots: seq<Slot>)
    requires c < |report.chapters| && n <= |report.chapters[c].sections|
    ensures Listing(ids, ruleset, report, ChapterEntries(ids, ruleset, report.chapters[c], n), slots)
    ensures forall p :: p in slots <==> Visible(report, p) && p.chapter == c && p.section < n
  {
    hide EntryAt, SectionEntries;
    slots := [];
    if n > 0 {
      slots := ChapterListing(ids, ruleset, report, c, n - 1);
      var section := report.chapters[c].sections[n - 1];
      var next := SectionListing(ids, ruleset, report, c, n - 1, |section.items|);
      ListingAppend(ids, ruleset, report, ChapterEntries(ids, ruleset, report.chapters[c], n - 1), slots,
                    SectionEntries(ids, ruleset, section, |section.items|), next);
      slots := slots + next;
    }
  }

  lemma {:induction false} ReportListing(ids: CheckIds, ruleset: string, report: Report, n: nat)
      returns (slots: seq<Slot>)
    requires n <= |report.chapters|
    ensures Listing(ids, ruleset, report, ReportEntries(ids, ruleset, report, n), slots)
    ensures forall p :: p in slots <==> Visible(report, p) && p.chapter < n
  {
    hide EntryAt, ChapterEntries;
    slots := [];
    if n > 0 {
      slots := ReportListing(ids, ruleset, report, n - 1);
      var chapter := report.chapters[n - 1];
      var next := ChapterListing(ids, ruleset, report, n - 1, |chapter.sections|);
      ListingAppend(ids, ruleset, report, ReportEntries(ids, ruleset, report, n - 1), slots,
                    ChapterEntries(ids, ruleset, chapter, |chapter.sections|), next);
      slots := slots + next;
    }
  }

  /** The builder makes one entry for every visible slot and nothing else. */
  lemma EntriesAreVisibleSlots(ids: CheckIds, ruleset: string, report: Report, e: Item)
    ensures e in Entries(ids, ruleset, report) <==>
      exists p :: Visible(report, p) && e == EntryAt(ids, ruleset, report, p)
  {
    var slots := ReportListing(ids, ruleset, report, |report.chapters|);
    hide EntryAt, ReportEntries;
    var items := Entries(ids, ruleset, report);
    if e in items {
      var i :| 0 <= i < |items| && items[i] == e;
      assert Visible(report, slots[i]) && e == EntryAt(ids, ruleset, report, slots[i]);
    }
    if p :| Visible(report, p) && e == EntryAt(ids, ruleset, report, p) {
      assert p in slots;
      var i :| 0 <= i < |slots| && slots[i] == p;
      assert items[i] == e;
    }
  }

  /** Every entry records a visible item of the report, under the key of its section number, place and check id. */
  lemma EntriesRecord(ids: CheckIds, ruleset: string, report: Report, e: Item)
    requires e in Entries(ids, ruleset, report)
    ensures exists p :: IsSlot(report, p) && ItemAt(report, p).displayed && RecordedAt(ids, ruleset, report, p, e)
  {
    EntriesAreVisibleSlots(ids, ruleset, report, e);
    hide Entries, EntryOf, Records;
    var p :| Visible(report, p) && e == EntryAt(ids, ruleset, report, p);
    EntryRecords(ids, ruleset, SectionAt(report, p).number, p.ordinal, ItemAt(report, p));
    assert RecordedAt(ids, ruleset, report, p, e);
  }

  predicate RecordedAt(ids: CheckIds, ruleset: string, report: Report, p: Slot, e: Item)
    requires IsSlot(report, p)
  {
    && Records(ids, ruleset, SectionAt(report, p).number, ItemAt(report, p), e)
    && e.facts.sectionKey == "v4:" + SectionAt(report, p).number + ":" + Decimal(p.ordinal) + ":" + e.facts.checkId
  }

  lemma ListedKeys(ids: CheckIds, ruleset: string, report: Report, items: seq<Item>, slots: seq<Slot>, i: nat, j: nat)
    requires Listing(ids, ruleset, report, items, slots) && i < |items| && j < |items|
    ensures items[i].facts.sectionKey == items[j].facts.sectionKey <==> VisibleTwin(ids, report, slots[i], slots[j])
  {
    EntryHasKey(ids, ruleset, report, slots[i]);
    EntryHasKey(ids, ruleset, report, slots[j]);
    hide EntryAt, KeyAt;
  }

  /** The store's own check: the entries have pairwise different keys exactly when no two visible slots share one. */
  lemma EntriesDistinct(ids: CheckIds, ruleset: string, report: Report)
    ensures SP.DistinctKeys(Entries(ids, ruleset, report)) <==> VisibleKeysApart(ids, report)
  {
    hide ReportEntries, EntryAt, KeyAt, VisibleTwin;
    var slots := ReportListing(ids, ruleset, report, |report.chapters|);
    var items := Entries(ids, ruleset, report);
    hide Entries;
    if VisibleKeysApart(ids, report) {
      forall i, j | 0 <= i < j < |items|
        ensures items[i].facts.sectionKey != items[j].facts.sectionKey
      {
        ListedKeys(ids, ruleset, report, items, slots, i, j);
      }
    }
    if SP.DistinctKeys(items) {
      forall p, q | Visible(report, p) && VisibleTwin(ids, report, p, q)
        ensures p == q
      {
        TwinVisible(ids, report, p, q);
        assert p in slots && q in slots;
        var i :| 0 <= i < |slots| && slots[i] == p;
        var j :| 0 <= j < |slots| && slots[j] == q;
        ListedKeys(ids, ruleset, report, items, slots, i, j);
      }
    }
  }

  lemma TwinVisible(ids: CheckIds, report: Report, p: Slot, q: Slot)
    requires VisibleTwin(ids, report, p, q)
    ensures Visible(report, q)
  {
  }

  lemma EntryHasKey(ids: CheckIds, ruleset: string, report: Report, p: Slot)
    requires IsSlot(report, p)
    ensures EntryAt(ids, ruleset, report, p).facts.sectionKey == KeyAt(ids, report, p)
  {
  }

  // ----- The way back -----

  /** The dictionary by_key: the last item with the key wins. */
  function LastWith(items: seq<Item>, key: string): Option<Item> {
    if items == [] then None
    else if items[|items| - 1].facts.sectionKey == key then Some(items[|items| - 1])
    else LastWith(items[..|items| - 1], key)
  }

  lemma {:induction false} LastWithFinds(items: seq<Item>, key: string)
    ensures LastWith(items, key).Some? ==> LastWith(items, key).value in items
    ensures LastWith(items, key).Some? ==> LastWith(items, key).value.facts.sectionKey == key
    ensures LastWith(items, key).None? ==> forall e :: e in items ==> e.facts.sectionKey != key
  {
    if items != [] {
      LastWithFinds(items[..|items| - 1], key);
    }
  }

  ghost predicate OneItemPerKey(items: seq<Item>) {
    forall e, f :: e in items && f in items && e.facts.sectionKey == f.facts.sectionKey ==> e == f
  }

  ghost predicate KeyIn(items: seq<Item>, key: string) {
    exists e :: e in items && e.facts.sectionKey == key
  }

  lemma LastWithKey(items: seq<Item>, key: string)
    ensures LastWith(items, key).Some? <==> KeyIn(items, key)
  {
    LastWithFinds(items, key);
  }

  lemma LastWithUnique(items: seq<Item>, e: Item)
    requires OneItemPerKey(items) && e in items
    ensures LastWith(items, e.facts.sectionKey) == Some(e)
  {
    LastWithFinds(items, e.facts.sectionKey);
  }

  function OverlaidItem(item: ReportItem, entry: Option<Item>, usesAi: bool): ReportItem {
    if entry.None? then item
    else
      var text := NarrativeForRender(entry.value, usesAi);
      item.(observation := text.observation, recommendation := text.recommendation)
  }

  function OverlaidSection(ids: CheckIds, section: Section, items: seq<Item>, usesAi: bool,
      n: nat): (r: seq<ReportItem>)
    requires n <= |section.items|
    ensures |r| == n
    ensures forall o :: 0 <= o < n ==>
      r[o] == OverlaidItem(section.items[o], LastWith(items, KeyOf(ids, section.number, o, section.items[o])), usesAi)
  {
    if n == 0 then []
    else
      var item := section.items[n - 1];
      OverlaidSection(ids, section, items, usesAi, n - 1)
      + [OverlaidItem(item, LastWith(items, KeyOf(ids, section.number, n - 1, item)), usesAi)]
  }

  function WholeSection(ids: CheckIds, section: Section, items: seq<Item>, usesAi: bool): Section {
    Section(section.number, OverlaidSection(ids, section, items, usesAi, |section.items|))
  }

  function OverlaidChapter(ids: CheckIds, chapter: Chapter, items: seq<Item>, usesAi: bool, n: nat): (r: seq<Section>)
    requires n <= |chapter.sections|
    ensures |r| == n
    ensures forall s :: 0 <= s < n ==> r[s] == WholeSection(ids, chapter.sections[s], items, usesAi)
  {
    if n == 0 then []
    else
      var section := chapter.sections[n - 1];
      OverlaidChapter(ids, chapter, items, usesAi, n - 1)
      + [WholeSection(ids, section, items, usesAi)]
  }

  function WholeChapter(ids: CheckIds, chapter: Chapter, items: seq<Item>, usesAi: bool): Chapter {
    Chapter(OverlaidChapter(ids, chapter, items, usesAi, |chapter.sections|))
  }

  function OverlaidChapters(ids: CheckIds, report: Report, items: seq<Item>, usesAi: bool, n: nat): (r: seq<Chapter>)
    requires n <= |report.chapters|
    ensures |r| == n
    ensures forall c :: 0 <= c < n ==>
      r[c] == WholeChapter(ids, report.chapters[c], items, usesAi)
  {
    if n == 0 then []
    else
      var chapter := report.chapters[n - 1];
      OverlaidChapters(ids, report, items, usesAi, n - 1)
      + [WholeChapter(ids, chapter, items, usesAi)]
  }

  function Overlaid(ids: CheckIds, report: Report, items: seq<Item>, usesAi: bool): Report {
    Report(OverlaidChapters(ids, report, items, usesAi, |report.chapters|))
  }

  ghost predicate SameSlots(r: Report, r': Report) {
    && (forall p :: IsSlot(r', p) <==> IsSlot(r, p))
    && (forall p :: IsSlot(r, p) ==> SectionAt(r', p).number == SectionAt(r, p).number)
  }

  lemma OverlaidAt(ids: CheckIds, report: Report, items: seq<Item>, usesAi: bool, p: Slot)
    ensures IsSlot(Overlaid(ids, report, items, usesAi), p) <==> IsSlot(report, p)
    ensures IsSlot(report, p) ==> var r' := Overlaid(ids, report, items, usesAi);
      && SectionAt(r', p).number == SectionAt(report, p).number
      && ItemAt(r', p) == OverlaidItem(ItemAt(report, p), LastWith(items, KeyAt(ids, report, p)), usesAi)
  {
  }

  /** Two reports with the same sections and the same item in every slot are equal. */
  lemma ReportsEqual(ids: CheckIds, report: Report, items: seq<Item>, usesAi: bool)
    requires forall p :: IsSlot(report, p) ==> ItemAt(Overlaid(ids, report, items, usesAi), p) == ItemAt(report, p)
    ensures Overlaid(ids, report, items, usesAi) == report
  {
    var r' := Overlaid(ids, report, items, usesAi);
    forall c | 0 <= c < |report.chapters|
      ensures r'.chapters[c] == report.chapters[c]
    {
      forall s | 0 <= s < |report.chapters[c].sections|
        ensures r'.chapters[c].sections[s] == report.chapters[c].sections[s]
      {
        var was, now := report.chapters[c].sections[s], r'.chapters[c].sections[s];
        forall o | 0 <= o < |was.items|
          ensures now.items[o] == was.items[o]
        {
          assert IsSlot(report, Slot(c, s, o)) && ItemAt(r', Slot(c, s, o)) == now.items[o];
        }
        assert now.items == was.items;
      }
      assert r'.chapters[c].sections == report.chapters[c].sections;
    }
    assert r'.chapters == report.chapters;
  }

  /**
   * Whatever the workflow, applying it changes no more than the observation and the recommendation of the items that
   * have an entry; these get the text selected for delivery.
   */
  lemma OverlayFrame(ids: CheckIds, report: Report, items: seq<Item>, usesAi: bool, p: Slot)
    requires IsSlot(report, p)
    ensures SameSlots(report, Overlaid(ids, report, items, usesAi))
    ensures var now, was, key :=
      ItemAt(Overlaid(ids, report, items, usesAi), p), ItemAt(report, p), KeyAt(ids, report, p);
      && now == was.(observation := now.observation, recommendation := now.recommendation)
      && ((forall e :: e in items ==> e.facts.sectionKey != key) ==> now == was)
      && (forall e :: e in items && e.facts.sectionKey == key && OneItemPerKey(items) ==>
            now.observation == NarrativeForRender(e, usesAi).observation &&
            now.recommendation == NarrativeForRender(e, usesAi).recommendation)
  {
    forall q
      ensures IsSlot(Overlaid(ids, report, items, usesAi), q) <==> IsSlot(report, q)
      ensures IsSlot(report, q) ==>
        SectionAt(Overlaid(ids, report, items, usesAi), q).number == SectionAt(report, q).number
    {
      OverlaidAt(ids, report, items, usesAi, q);
    }
    OverlaidAt(ids, report, items, usesAi, p);
    LastWithFinds(items, KeyAt(ids, report, p));
    forall e | e in items && e.facts.sectionKey == KeyAt(ids, report, p) && OneItemPerKey(items)
      ensures LastWith(items, KeyAt(ids, report, p)) == Some(e)
    {
      LastWithUnique(items, e);
    }
  }

  // ----- Building and applying -----

  /** A slot finds an entry exactly when a visible slot has its key, and then the entry of such a slot. */
  lemma EntryFound(ids: CheckIds, ruleset: string, report: Report, p: Slot)
    requires IsSlot(report, p)
    ensures var found := LastWith(Entries(ids, ruleset, report), KeyAt(ids, report, p));
      && (found.Some? <==> exists q :: VisibleTwin(ids, report, p, q))
      && (found.Some? ==> exists q :: VisibleTwin(ids, report, p, q) && found.value == EntryAt(ids, ruleset, report, q))
  {
    var items, key := Entries(ids, ruleset, report), KeyAt(ids, report, p);
    LastWithFinds(items, key);
    hide Entries, LastWith, EntryOf, KeyOf;
    var found := LastWith(items, key);
    if found.Some? {
      EntriesAreVisibleSlots(ids, ruleset, report, found.value);
      var q :| Visible(report, q) && found.value == EntryAt(ids, ruleset, report, q);
      EntryHasKey(ids, ruleset, report, q);
      assert VisibleTwin(ids, report, p, q);
    }
    if q :| VisibleTwin(ids, report, p, q) {
      EntriesAreVisibleSlots(ids, ruleset, report, EntryAt(ids, ruleset, report, q));
      EntryHasKey(ids, ruleset, report, q);
      assert EntryAt(ids, ruleset, report, q) in items;
    }
  }

  predicate HasText(item: ReportItem) {
    item.observation != [] && item.recommendation != []
  }

  predicate SameText(a: ReportItem, b: ReportItem) {
    a.observation == b.observation && a.recommendation == b.recommendation
  }

  /** Every slot with the key of a visible one has the texts of that one, and they are given. */
  ghost predicate TextsAgree(ids: CheckIds, report: Report) {
    forall p, q :: VisibleTwin(ids, report, p, q) ==>
      HasText(ItemAt(report, q)) && SameText(ItemAt(report, p), ItemAt(report, q))
  }

  /** Overlaying the entry of slot q leaves a slot alone exactly when it has the texts the entry took from q. */
  lemma EntryOverlay(ids: CheckIds, ruleset: string, report: Report, p: Slot, q: Slot, usesAi: bool)
    requires IsSlot(report, p) && IsSlot(report, q)
    ensures var item, e := ItemAt(report, q), EntryAt(ids, ruleset, report, q);
      OverlaidItem(ItemAt(report, p), Some(e), usesAi)
      == ItemAt(report, p).(observation := OrElse(item.observation, DEFAULT_OBSERVATION),
                            recommendation := OrElse(item.recommendation, DEFAULT_RECOMMENDATION))
  {
  }

  /** What the builder's own workflow does to a slot. */
  lemma OwnOverlay(ids: CheckIds, ruleset: string, report: Report, p: Slot, usesAi: bool)
    requires IsSlot(report, p)
    ensures IsSlot(Overlaid(ids, report, Entries(ids, ruleset, report), usesAi), p)
    ensures var now := ItemAt(Overlaid(ids, report, Entries(ids, ruleset, report), usesAi), p);
      if exists q :: VisibleTwin(ids, report, p, q) then
        exists q :: VisibleTwin(ids, report, p, q)
          && now == OverlaidItem(ItemAt(report, p), Some(EntryAt(ids, ruleset, report, q)), usesAi)
      else now == ItemAt(report, p)
  {
    EntryFound(ids, ruleset, report, p);
    OverlaidAt(ids, report, Entries(ids, ruleset, report), usesAi, p);
    hide Entries, LastWith, EntryAt, KeyAt, Overlaid;
  }

  /**
   * Building the workflow and applying it back is the identity on the report exactly when every slot with the key of
   * a visible slot has the texts of that slot, and these are not empty.
   */
  lemma BuildThenApply(ids: CheckIds, ruleset: string, report: Report, usesAi: bool)
    ensures Overlaid(ids, report, Entries(ids, ruleset, report), usesAi) == report <==> TextsAgree(ids, report)
  {
    var items := Entries(ids, ruleset, report);
    hide Entries, Overlaid, KeyAt, EntryAt, OverlaidItem;
    if TextsAgree(ids, report) {
      forall p | IsSlot(report, p)
        ensures IsSlot(Overlaid(ids, report, items, usesAi), p)
        ensures ItemAt(Overlaid(ids, report, items, usesAi), p) == ItemAt(report, p)
      {
        OwnOverlay(ids, ruleset, report, p, usesAi);
        if exists q :: VisibleTwin(ids, report, p, q) {
          var q :| VisibleTwin(ids, report, p, q) && ItemAt(Overlaid(ids, report, items, usesAi), p)
            == OverlaidItem(ItemAt(report, p), Some(EntryAt(ids, ruleset, report, q)), usesAi);
          EntryOverlay(ids, ruleset, report, p, q, usesAi);
        }
      }
      ReportsEqual(ids, report, items, usesAi);
    }
    if Overlaid(ids, report, items, usesAi) == report {
      forall p, q | VisibleTwin(ids, report, p, q)
        ensures HasText(ItemAt(report, q)) && SameText(ItemAt(report, p), ItemAt(report, q))
      {
        TwinsEqual(ids, ruleset, report, p, q, usesAi);
      }
    }
  }

  /** After an identical overlay a slot and a visible slot with its key show the same texts. */
  lemma TwinsEqual(ids: CheckIds, ruleset: string, report: Report, p: Slot, q: Slot, usesAi: bool)
    requires Overlaid(ids, report, Entries(ids, ruleset, report), usesAi) == report && VisibleTwin(ids, report, p, q)
    ensures HasText(ItemAt(report, q)) && SameText(ItemAt(report, p), ItemAt(report, q))
  {
    var items, key := Entries(ids, ruleset, report), KeyAt(ids, report, p);
    EntryFound(ids, ruleset, report, p);
    OverlaidAt(ids, report, items, usesAi, p);
    OverlaidAt(ids, report, items, usesAi, q);
    hide Entries, LastWith, KeyAt, Overlaid, EntryAt, OverlaidItem;
    var r :| VisibleTwin(ids, report, p, r) && LastWith(items, key) == Some(EntryAt(ids, ruleset, report, r));
    EntryOverlay(ids, ruleset, report, p, r, usesAi);
    EntryOverlay(ids, ruleset, report, q, r, usesAi);
  }

  /** With keys apart it is the identity exactly when every visible item has both texts. */
  lemma BuildThenApplyApart(ids: CheckIds, ruleset: string, report: Report, usesAi: bool)
    requires forall p, q :: VisibleTwin(ids, report, p, q) ==> p == q
    ensures Overlaid(ids, report, Entries(ids, ruleset, report), usesAi) == report <==>
      forall p :: Visible(report, p) ==> HasText(ItemAt(report, p))
  {
    BuildThenApply(ids, ruleset, report, usesAi);
    hide Overlaid, Entries, KeyAt;
    if TextsAgree(ids, report) {
      forall p | Visible(report, p)
        ensures HasText(ItemAt(report, p))
      {
        assert VisibleTwin(ids, report, p, p);
      }
    }
  }

  /** The given items have the keys of the builder's entries, each once: a persisted copy, whatever was edited since. */
  ghost predicate SameKeys(items: seq<Item>, entries: seq<Item>) {
    OneItemPerKey(items) && forall key :: KeyIn(items, key) <==> KeyIn(entries, key)
  }

  /** The text an edited workflow gives a slot: that of the item with its key. */
  ghost predicate TakesText(ids: CheckIds, report: Report, items: seq<Item>, p: Slot, now: ReportItem, usesAi: bool)
    requires IsSlot(report, p)
  {
    exists f :: f in items && f.facts.sectionKey == KeyAt(ids, report, p)
      && now == OverlaidItem(ItemAt(report, p), Some(f), usesAi)
  }

  /** An edited workflow reaches exactly the slots with the key of a visible slot. */
  lemma EditedWorkflow(ids: CheckIds, ruleset: string, report: Report, items: seq<Item>, usesAi: bool, p: Slot)
    requires SameKeys(items, Entries(ids, ruleset, report)) && IsSlot(report, p)
    ensures IsSlot(Overlaid(ids, report, items, usesAi), p)
    ensures var now := ItemAt(Overlaid(ids, report, items, usesAi), p);
      if exists q :: VisibleTwin(ids, report, p, q) then TakesText(ids, report, items, p, now, usesAi)
      else now == ItemAt(report, p)
  {
    var entries, key := Entries(ids, ruleset, report), KeyAt(ids, report, p);
    OverlaidAt(ids, report, items, usesAi, p);
    EntryFound(ids, ruleset, report, p);
    LastWithKey(entries, key);
    LastWithKey(items, key);
    LastWithFinds(items, key);
    hide Entries, Overlaid, OverlaidItem, LastWith, KeyAt, VisibleTwin, OneItemPerKey, KeyIn;
  }

  // ----- When hidden items are safe -----

  /** The item with the given text instead of its own. */
  function Retold(e: Item, text: string): Item {
    e.(facts := e.facts.(deterministic := Narrative(DeterministicTemplate, text, text)), aiDraft := None,
       selected := SelectedDeterministic)
  }

  /** A workflow with the keys of the given entries, each once, and one text throughout. */
  function Rewritten(entries: seq<Item>, text: string): seq<Item> {
    if entries == [] then []
    else
      var before, e := Rewritten(entries[..|entries| - 1], text), entries[|entries| - 1];
      if LastWith(before, e.facts.sectionKey).Some? then before else before + [Retold(e, text)]
  }

  lemma RetoldText(e: Item, text: string)
    ensures Retold(e, text).facts.sectionKey == e.facts.sectionKey
    ensures NarrativeForRender(Retold(e, text), false).observation == text
  {
  }

  lemma {:induction false} RewrittenKeys(entries: seq<Item>, text: string)
    ensures SameKeys(Rewritten(entries, text), entries)
    ensures forall f :: f in Rewritten(entries, text) ==> NarrativeForRender(f, false).observation == text
  {
    hide Retold, NarrativeForRender, LastWith, KeyIn;
    if entries != [] {
      var n := |entries| - 1;
      var before, e := Rewritten(entries[..n], text), entries[n];
      RewrittenKeys(entries[..n], text);
      LastWithFinds(before, e.facts.sectionKey);
      LastWithKey(before, e.facts.sectionKey);
      RetoldText(e, text);
      assert entries == entries[..n] + [e];
      forall key
        ensures KeyIn(Rewritten(entries, text), key) <==> KeyIn(entries, key)
      {
        KeyInAppend(entries[..n], e, key);
        KeyInAppend(before, Retold(e, text), key);
      }
    }
  }

  lemma KeyInAppend(items: seq<Item>, e: Item, key: string)
    ensures KeyIn(items + [e], key) <==> KeyIn(items, key) || e.facts.sectionKey == key
  {
    assert e in items + [e];
    assert forall x :: x in items ==> x in items + [e];
  }

  /** Every workflow with the builder's keys leaves the slot alone. */
  ghost predicate SafeSlot(ids: CheckIds, ruleset: string, report: Report, p: Slot)
    requires IsSlot(report, p)
  {
    forall items, usesAi :: SameKeys(items, Entries(ids, ruleset, report)) ==> LeftAlone(ids, report, items, usesAi, p)
  }

  ghost predicate LeftAlone(ids: CheckIds, report: Report, items: seq<Item>, usesAi: bool, p: Slot)
    requires IsSlot(report, p)
  {
    IsSlot(Overlaid(ids, report, items, usesAi), p)
      && ItemAt(Overlaid(ids, report, items, usesAi), p) == ItemAt(report, p)
  }

  /**
   * A slot, hidden or not, is left alone by every workflow with the builder's keys exactly when no visible slot has
   * its key: none with its section number, its ordinal and its check id.
   */
  lemma SafeSlotIff(ids: CheckIds, ruleset: string, report: Report, p: Slot)
    requires IsSlot(report, p)
    ensures SafeSlot(ids, ruleset, report, p) <==> !exists q :: VisibleTwin(ids, report, p, q)
  {
    var entries := Entries(ids, ruleset, report);
    hide Entries, Overlaid, SameKeys, VisibleTwin, TakesText, Rewritten;
    if exists q :: VisibleTwin(ids, report, p, q) {
      var text := ItemAt(report, p).observation + "!";
      var items := Rewritten(entries, text);
      RewrittenKeys(entries, text);
      EditedWorkflow(ids, ruleset, report, items, false, p);
      TextTaken(ids, report, items, p, ItemAt(Overlaid(ids, report, items, false), p), text);
      assert !LeftAlone(ids, report, items, false, p);
    } else {
      forall items, usesAi | SameKeys(items, entries)
        ensures LeftAlone(ids, report, items, usesAi, p)
      {
        EditedWorkflow(ids, ruleset, report, items, usesAi, p);
      }
    }
  }

  lemma TextTaken(ids: CheckIds, report: Report, items: seq<Item>, p: Slot, now: ReportItem, text: string)
    requires IsSlot(report, p) && TakesText(ids, report, items, p, now, false)
    requires forall f :: f in items ==> NarrativeForRender(f, false).observation == text
    ensures now.observation == text
  {
    hide NarrativeForRender, KeyAt;
  }

  /** Without distinct section numbers a hidden item can receive the text of a visible one. */
  lemma SharedNumberOverwritesHidden(ids: CheckIds, ruleset: string, evidence: Evidence)
    ensures var shown := ReportItem(true, "CPU", "n1", Normal, "shown", "keep", evidence);
      var hidden := shown.(displayed := false, observation := "hidden");
      var report := Report([Chapter([Section("1", [shown]), Section("1", [hidden])])]);
      var after := Overlaid(ids, report, Entries(ids, ruleset, report), false);
      IsSlot(after, Slot(0, 1, 0)) && ItemAt(after, Slot(0, 1, 0)).observation == "shown"
  {
    var shown := ReportItem(true, "CPU", "n1", Normal, "shown", "keep", evidence);
    var hidden := shown.(displayed := false, observation := "hidden");
    var report := Report([Chapter([Section("1", [shown]), Section("1", [hidden])])]);
    var items := Entries(ids, ruleset, report);
    var e := EntryOf(ids, ruleset, "1", 0, shown);
    var chapter := report.chapters[0];
    calc {
      items;
      ReportEntries(ids, ruleset, report, 1);
      ChapterEntries(ids, ruleset, chapter, 2);
      ChapterEntries(ids, ruleset, chapter, 1) + SectionEntries(ids, ruleset, chapter.sections[1], 1);
      { assert SectionEntries(ids, ruleset, chapter.sections[1], 1) == []; }
      ChapterEntries(ids, ruleset, chapter, 1);
      SectionEntries(ids, ruleset, chapter.sections[0], 1);
      [e];
    }
    OverlaidAt(ids, report, items, false, Slot(0, 1, 0));
    assert KeyAt(ids, report, Slot(0, 1, 0)) == e.facts.sectionKey;
  }

  // ----- The loops -----

  /** A visible item in a section without a number fails validation of its entry. */
  predicate SectionBuilds(section: Section, n: nat)
    requires n <= |section.items|
  {
    section.number != [] || forall o :: 0 <= o < n ==> !section.items[o].displayed
  }

  /** Every visible item is in a section with a number. */
  ghost predicate Builds(report: Report) {
    forall p :: Visible(report, p) ==> SectionAt(report, p).number != []
  }

  lemma EntryIsBaseline(ids: CheckIds, ruleset: string, number: string, ordinal: nat, item: ReportItem)
    requires CheckIdsOk(ids)
    ensures IsBaseline(EntryOf(ids, ruleset, number, ordinal, item)) <==> number != []
  {
  }

  method BuildSection(ids: CheckIds, ruleset: string, section: Section, start: seq<Item>)
      returns (r: Result<seq<Item>, Error>)
    requires CheckIdsOk(ids)
    ensures r.Ok? <==> SectionBuilds(section, |section.items|)
    ensures r.Ok? ==> r.value == start + SectionEntries(ids, ruleset, section, |section.items|)
  {
    var items, o := start, 0;
    hide CheckIdsOk, EntryOf, Loadable;
    while o < |section.items|
      invariant 0 <= o <= |section.items| && SectionBuilds(section, o)
      invariant items == start + SectionEntries(ids, ruleset, section, o)
    {
      if section.items[o].displayed {
        var entry := EntryOf(ids, ruleset, section.number, o, section.items[o]);
        EntryIsBaseline(ids, ruleset, section.number, o, section.items[o]);
        if section.number == [] {
          return Err(InvalidPayload);
        }
        items := items + [entry];
      }
      o := o + 1;
    }
    r := Ok(items);
  }

  /** Baseline of a whole report, in document order; it fails exactly when a visible item's section has no number. */
  method BuildV4SectionWorkflow(ids: CheckIds, ruleset: string, report: Report) returns (r: Result<SP.Document, Error>)
    requires CheckIdsOk(ids)
    ensures r.Ok? <==> Builds(report)
    ensures r.Ok? ==> r.value == SP.Document(ruleset, false, Entries(ids, ruleset, report))
  {
    var items: seq<Item>, c := [], 0;
    hide CheckIdsOk, SectionEntries, EntryOf;
    while c < |report.chapters|
      invariant 0 <= c <= |report.chapters|
      invariant items == ReportEntries(ids, ruleset, report, c)
      invariant forall p :: Visible(report, p) && p.chapter < c ==> SectionAt(report, p).number != []
    {
      var chapter, s := report.chapters[c], 0;
      ghost var before := items;
      while s < |chapter.sections|
        invariant 0 <= s <= |chapter.sections|
        invariant items == before + ChapterEntries(ids, ruleset, chapter, s)
        invariant forall p :: Visible(report, p) && p.chapter == c && p.section < s ==>
          SectionAt(report, p).number != []
      {
        var section := chapter.sections[s];
        var built := BuildSection(ids, ruleset, section, items);
        if built.Err? {
          var o :| 0 <= o < |section.items| && section.items[o].displayed;
          assert Visible(report, Slot(c, s, o));
          return Err(built.error);
        }
        items := built.value;
        s := s + 1;
      }
      c := c + 1;
    }
    r := Ok(SP.Document(ruleset, false, items));
  }

  method KeyTable(items: seq<Item>) returns (byKey: map<string, Item>)
    ensures forall key :: LastWith(items, key) == if key in byKey then Some(byKey[key]) else None
  {
    byKey := map[];
    var i := 0;
    while i < |items|
      invariant 0 <= i <= |items|
      invariant forall key :: LastWith(items[..i], key) == if key in byKey then Some(byKey[key]) else None
    {
      byKey := byKey[items[i].facts.sectionKey := items[i]];
      i := i + 1;
      assert items[..i][..i - 1] == items[..i - 1];
    }
    assert items[..i] == items;
  }

  /** The innermost overlay loop: the two texts of every item with an entry are replaced. */
  method OverlaySection(ids: CheckIds, section: Section, byKey: map<string, Item>, usesAi: bool, ghost items: seq<Item>)
      returns (rows: seq<ReportItem>)
    requires forall key :: LastWith(items, key) == if key in byKey then Some(byKey[key]) else None
    ensures rows == OverlaidSection(ids, section, items, usesAi, |section.items|)
  {
    hide LastWith, NarrativeForRender, KeyOf;
    var o := 0;
    rows := section.items;
    while o < |section.items|
      invariant 0 <= o <= |section.items| && |rows| == |section.items|
      invariant rows[..o] == OverlaidSection(ids, section, items, usesAi, o)
      invariant forall i :: o <= i < |rows| ==> rows[i] == section.items[i]
    {
      var key := KeyOf(ids, section.number, o, rows[o]);
      ghost var was := rows;
      if key in byKey {
        var text := NarrativeForRender(byKey[key], usesAi);
        rows := rows[o := rows[o].(observation := text.observation, recommendation := text.recommendation)];
      }
      o := o + 1;
      assert rows[..o] == was[..o - 1] + [rows[o - 1]];
    }
    assert rows[..o] == rows;
  }

  method OverlayChapter(ids: CheckIds, chapter: Chapter, byKey: map<string, Item>, usesAi: bool, ghost items: seq<Item>)
      returns (sections: seq<Section>)
    requires forall key :: LastWith(items, key) == if key in byKey then Some(byKey[key]) else None
    ensures sections == OverlaidChapter(ids, chapter, items, usesAi, |chapter.sections|)
  {
    hide LastWith, KeyOf, OverlaidSection;
    var s := 0;
    sections := [];
    while s < |chapter.sections|
      invariant 0 <= s <= |chapter.sections|
      invariant sections == OverlaidChapter(ids, chapter, items, usesAi, s)
    {
      var rows := OverlaySection(ids, chapter.sections[s], byKey, usesAi, items);
      sections := sections + [Section(chapter.sections[s].number, rows)];
      s := s + 1;
    }
  }

  /** Entries found by key replace the two texts of the copied report. */
  method ApplyWorkflowToV4Report(ids: CheckIds, report: Report, items: seq<Item>, usesAi: bool)
      returns (updated: Report)
    ensures updated == Overlaid(ids, report, items, usesAi)
  {
    var byKey := KeyTable(items);
    hide LastWith, OverlaidChapter;
    var chapters: seq<Chapter>, c := [], 0;
    while c < |report.chapters|
      invariant 0 <= c <= |report.chapters|
      invariant chapters == OverlaidChapters(ids, report, items, usesAi, c)
    {
      var sections := OverlayChapter(ids, report.chapters[c], byKey, usesAi, items);
      chapters := chapters + [Chapter(sections)];
      c := c + 1;
    }
    updated := Report(chapters);
  }
}
