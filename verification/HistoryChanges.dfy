/** What the reported changes say about the records of the two snapshots (compare_snapshots in history.py). */
module HistoryChanges {
  import opened Common
  import opened History

  // ----- The record that counts for a key: its last one -----

  predicate About(fold: Fold, node: string, checkId: string, key: Key) {
    fold(node) == key.node && checkId == key.checkId
  }

  ghost predicate Checks(fold: Fold, checks: seq<Check>, key: Key) {
    exists i :: 0 <= i < |checks| && About(fold, checks[i].node, checks[i].checkId, key)
  }

  /** Record i is the last check of the key. */
  predicate LastCheck(fold: Fold, checks: seq<Check>, key: Key, i: nat) {
    && i < |checks| && About(fold, checks[i].node, checks[i].checkId, key)
    && forall j :: i < j < |checks| ==> !About(fold, checks[j].node, checks[j].checkId, key)
  }

  /** Record i is the last assessment of the key. */
  predicate LastAssessment(fold: Fold, assessments: seq<Assessment>, key: Key, i: nat) {
    && i < |assessments| && About(fold, assessments[i].node, assessments[i].checkId, key)
    && forall j :: i < j < |assessments| ==> !About(fold, assessments[j].node, assessments[j].checkId, key)
  }

  /** The last check of the key has this evidence. */
  ghost predicate LastEvidence(fold: Fold, checks: seq<Check>, key: Key, sha256: string) {
    exists i: nat :: LastCheck(fold, checks, key, i) && checks[i].evidenceSha256 == sha256
  }

  /** The last assessment of the key has this status; no status means that there is none. */
  ghost predicate LastStatus(fold: Fold, assessments: seq<Assessment>, key: Key, status: Option<Status>) {
    if status.None? then
      forall i :: 0 <= i < |assessments| ==> !About(fold, assessments[i].node, assessments[i].checkId, key)
    else exists i: nat :: LastAssessment(fold, assessments, key, i) && assessments[i].status == status.value
  }

  lemma LastCheckGrows(fold: Fold, checks: seq<Check>, key: Key, i: nat)
    requires checks != [] && LastCheck(fold, checks[..|checks| - 1], key, i)
    requires !About(fold, checks[|checks| - 1].node, checks[|checks| - 1].checkId, key)
    ensures LastCheck(fold, checks, key, i)
  {
    var n := |checks| - 1;
    assert forall j :: 0 <= j < n ==> checks[..n][j] == checks[j];
  }

  lemma {:induction false} CheckFound(fold: Fold, checks: seq<Check>, key: Key)
    ensures CheckAt(fold, checks, key).Some? <==> Checks(fold, checks, key)
    ensures CheckAt(fold, checks, key).Some? ==>
      LastEvidence(fold, checks, key, CheckAt(fold, checks, key).value.evidenceSha256)
  {
    if checks != [] {
      var n := |checks| - 1;
      CheckFound(fold, checks[..n], key);
      if About(fold, checks[n].node, checks[n].checkId, key) {
        assert LastCheck(fold, checks, key, n);
      } else if CheckAt(fold, checks[..n], key).Some? {
        var sha256 := CheckAt(fold, checks[..n], key).value.evidenceSha256;
        var i: nat :| LastCheck(fold, checks[..n], key, i) && checks[..n][i].evidenceSha256 == sha256;
        LastCheckGrows(fold, checks, key, i);
      }
    }
  }

  lemma LastAssessmentGrows(fold: Fold, assessments: seq<Assessment>, key: Key, i: nat)
    requires assessments != [] && LastAssessment(fold, assessments[..|assessments| - 1], key, i)
    requires !About(fold, assessments[|assessments| - 1].node, assessments[|assessments| - 1].checkId, key)
    ensures LastAssessment(fold, assessments, key, i)
  {
    var n := |assessments| - 1;
    assert forall j :: 0 <= j < n ==> assessments[..n][j] == assessments[j];
  }

  lemma {:induction false} StatusFound(fold: Fold, assessments: seq<Assessment>, key: Key)
    ensures LastStatus(fold, assessments, key, StatusAt(fold, assessments, key))
  {
    if assessments != [] {
      var n := |assessments| - 1;
      StatusFound(fold, assessments[..n], key);
      var status := StatusAt(fold, assessments[..n], key);
      assert forall j :: 0 <= j < n ==> assessments[..n][j] == assessments[j];
      if About(fold, assessments[n].node, assessments[n].checkId, key) {
        assert LastAssessment(fold, assessments, key, n);
      } else if status.Some? {
        var i: nat :| LastAssessment(fold, assessments[..n], key, i) && assessments[..n][i].status == status.value;
        LastAssessmentGrows(fold, assessments, key, i);
      }
    }
  }

  /** A key has one last check and one last assessment. */
  lemma LastIsUnique(fold: Fold, snapshot: Snapshot, key: Key)
    ensures forall a, b ::
      LastEvidence(fold, snapshot.checks, key, a) && LastEvidence(fold, snapshot.checks, key, b) ==> a == b
    ensures forall s, t ::
      LastStatus(fold, snapshot.assessments, key, s) && LastStatus(fold, snapshot.assessments, key, t) ==> s == t
  {
  }

  // ----- The entries -----

  /** The last checks of the key in both snapshots have one evidence. */
  ghost predicate SameEvidence(fold: Fold, current: Snapshot, prior: Snapshot, key: Key) {
    exists sha256 :: LastEvidence(fold, prior.checks, key, sha256) && LastEvidence(fold, current.checks, key, sha256)
  }

  /** The last assessments of the key in both snapshots say the same, or there is none in either. */
  ghost predicate SameStatus(fold: Fold, current: Snapshot, prior: Snapshot, key: Key) {
    exists status :: LastStatus(fold, prior.assessments, key, status)
      && LastStatus(fold, current.assessments, key, status)
  }

  function Severity(status: Option<Status>): Status {
    if status.Some? then status.value else Normal
  }

  /** What an entry says, by which snapshots check its key and by the last assessments. */
  ghost predicate Explains(fold: Fold, current: Snapshot, prior: Snapshot, c: Change) {
    var before, after := Checks(fold, prior.checks, c.key), Checks(fold, current.checks, c.key);
    && (before || after)
    && (c.kind == Added <==> !before)
    && (c.kind == Removed <==> !after)
    && (if before then LastStatus(fold, prior.assessments, c.key, c.prior) else c.prior == None)
    && (if after then LastStatus(fold, current.assessments, c.key, c.current) else c.current == None)
  }

  /** The kind of an entry whose key both snapshots check. */
  ghost predicate Graded(fold: Fold, current: Snapshot, prior: Snapshot, c: Change) {
    && (c.kind == Worsened <==> c.prior != c.current && Severity(c.current) in Above(Severity(c.prior)))
    && (c.kind == Improved <==> c.prior != c.current && Severity(c.prior) in Above(Severity(c.current)))
    && (c.kind == Changed <==> c.prior != c.current && Severity(c.prior) == Severity(c.current))
    && (c.kind == EvidenceChanged <==> c.prior == c.current)
    && (c.kind == EvidenceChanged ==> !SameEvidence(fold, current, prior, c.key))
  }

  /**
   * Every entry: added and removed by which snapshot checks the key, the two statuses those of the last assessments;
   * for a key in both, worsened exactly when the current status is above the prior one, improved exactly when it is
   * the other way round, and evidence_changed exactly when only the evidence differs.
   */
  lemma EntryMeans(fold: Fold, current: Snapshot, prior: Snapshot, c: Change)
    requires c in Changes(fold, current, prior)
    ensures Explains(fold, current, prior, c)
    ensures Checks(fold, prior.checks, c.key) && Checks(fold, current.checks, c.key) ==>
      Graded(fold, current, prior, c)
  {
    AllKeysContent(fold, current, prior);
    Pair(fold, current, prior, c.key);
    StatusFound(fold, prior.assessments, c.key);
    StatusFound(fold, current.assessments, c.key);
    hide SameEvidence, SameStatus, AllKeys, CheckAt, StatusAt, Checks, LastStatus, LastEvidence, Ordered, ChangesOver;
    ChangesOverContent(fold, current, prior, AllKeys(fold, current, prior), c);
  }

  /** Whether the evidence and the status of a key are the same in both snapshots, by the values looked up. */
  lemma Pair(fold: Fold, current: Snapshot, prior: Snapshot, key: Key)
    ensures CheckAt(fold, current.checks, key).Some? <==> Checks(fold, current.checks, key)
    ensures CheckAt(fold, prior.checks, key).Some? <==> Checks(fold, prior.checks, key)
    ensures SameStatus(fold, current, prior, key) <==>
      StatusAt(fold, prior.assessments, key) == StatusAt(fold, current.assessments, key)
    ensures SameEvidence(fold, current, prior, key) ==>
      Checks(fold, current.checks, key) && Checks(fold, prior.checks, key)
    ensures var before, after := CheckAt(fold, prior.checks, key), CheckAt(fold, current.checks, key);
      before.Some? && after.Some? ==>
        (SameEvidence(fold, current, prior, key) <==> before.value.evidenceSha256 == after.value.evidenceSha256)
  {
    hide CheckAt, StatusAt, LastStatus;
    CheckFound(fold, prior.checks, key);
    CheckFound(fold, current.checks, key);
    StatusFound(fold, prior.assessments, key);
    StatusFound(fold, current.assessments, key);
    LastIsUnique(fold, prior, key);
    LastIsUnique(fold, current, key);
    var was, now := StatusAt(fold, prior.assessments, key), StatusAt(fold, current.assessments, key);
    assert was == now ==> LastStatus(fold, prior.assessments, key, now);
  }

  /** A key has no entry exactly when neither snapshot checks it, or both do with the same evidence and status. */
  lemma ListedMeans(fold: Fold, current: Snapshot, prior: Snapshot, key: Key)
    ensures !Listed(Changes(fold, current, prior), key) <==>
      || (!Checks(fold, current.checks, key) && !Checks(fold, prior.checks, key))
      || (SameEvidence(fold, current, prior, key) && SameStatus(fold, current, prior, key))
  {
    ListedIffNotUnchanged(fold, current, prior, key);
    Pair(fold, current, prior, key);
    hide Changes, CheckAt, StatusAt, Checks, SameEvidence, SameStatus;
  }

  // ----- The order and the summary -----

  /** Character by character, a proper prefix first: Python's order on text. */
  lemma {:induction false} TextLessMeans(a: string, b: string)
    ensures TextLess(a, b) <==> exists k: nat :: Parting(a, b, k)
  {
    if a != [] && b != [] && a[0] == b[0] {
      TextLessMeans(a[1..], b[1..]);
      if k: nat :| Parting(a[1..], b[1..], k) {
        assert a[..k + 1] == [a[0]] + a[1..][..k] && b[..k + 1] == [b[0]] + b[1..][..k];
        assert Parting(a, b, k + 1);
      }
      if k: nat :| Parting(a, b, k) {
        assert k > 0;
        assert a[1..][..k - 1] == a[..k][1..] && b[1..][..k - 1] == b[..k][1..];
        assert Parting(a[1..], b[1..], k - 1);
      }
    } else if b != [] && (a == [] || a[0] < b[0]) {
      assert Parting(a, b, 0);
    }
  }

  /** a and b agree on their first k characters, and then a ends or has the smaller character. */
  predicate Parting(a: string, b: string, k: nat) {
    k <= |a| && k < |b| && a[..k] == b[..k] && (k == |a| || a[k] < b[k])
  }

  /** The entries are sorted by folded node name, then by check id. */
  lemma SortedByNode(fold: Fold, current: Snapshot, prior: Snapshot, i: nat, j: nat)
    requires i < j < |Changes(fold, current, prior)|
    ensures var a, b := Changes(fold, current, prior)[i].key, Changes(fold, current, prior)[j].key;
      || (exists k: nat :: Parting(a.node, b.node, k))
      || (a.node == b.node && exists k: nat :: Parting(a.checkId, b.checkId, k))
  {
    var a, b := Changes(fold, current, prior)[i].key, Changes(fold, current, prior)[j].key;
    ListedOnceInOrder(fold, current, prior, i, j);
    hide Changes, Parting;
    TextLessMeans(a.node, b.node);
    TextLessMeans(a.checkId, b.checkId);
  }

  ghost function OfKind(changes: seq<Change>, kind: Kind): set<nat> {
    set i: nat | i < |changes| && changes[i].kind == kind
  }

  lemma {:induction false} KindsCounted(changes: seq<Change>, kind: Kind)
    ensures CountKind(changes, kind) == |OfKind(changes, kind)|
  {
    if changes != [] {
      var n := |changes| - 1;
      KindsCounted(changes[..n], kind);
      assert OfKind(changes, kind) == OfKind(changes[..n], kind) + if changes[n].kind == kind then {n} else {};
    }
  }

  /** Each count of the summary is the number of entries of its kind. */
  lemma SummaryMeans(changes: seq<Change>)
    ensures var s := Summarize(changes);
      && s.added == |OfKind(changes, Added)| && s.removed == |OfKind(changes, Removed)|
      && s.improved == |OfKind(changes, Improved)| && s.worsened == |OfKind(changes, Worsened)|
      && s.evidenceChanged == |OfKind(changes, EvidenceChanged)|
  {
    KindsCounted(changes, Added);
    KindsCounted(changes, Removed);
    KindsCounted(changes, Improved);
    KindsCounted(changes, Worsened);
    KindsCounted(changes, EvidenceChanged);
    hide OfKind;
  }
}
