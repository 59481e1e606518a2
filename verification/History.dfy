/** Comparison of two health-check snapshots (history.py). */
module History {
  import opened Common

  datatype Status = Normal | Pending | Attention | Critical

  datatype Check = Check(node: string, checkId: string, evidenceSha256: string)

  datatype Assessment = Assessment(node: string, checkId: string, status: Status)

  datatype Snapshot = Snapshot(checks: seq<Check>, assessments: seq<Assessment>)

  datatype Key = Key(node: string, checkId: string)

  datatype Kind = Added | Removed | Improved | Worsened | Changed | EvidenceChanged

  datatype Change = Change(key: Key, kind: Kind, prior: Option<Status>, current: Option<Status>)

  /** str.casefold, applied to node names. */
  type Fold = string -> string

  // ----- The two dictionaries of a snapshot: the last record of a key wins -----

  function KeyOf(fold: Fold, check: Check): Key {
    Key(fold(check.node), check.checkId)
  }

  function CheckAt(fold: Fold, checks: seq<Check>, key: Key): (r: Option<Check>)
    ensures r.Some? <==> exists i :: 0 <= i < |checks| && KeyOf(fold, checks[i]) == key
  {
    if checks == [] then None
    else
      var n := |checks| - 1;
      if KeyOf(fold, checks[n]) == key then Some(checks[n]) else CheckAt(fold, checks[..n], key)
  }

  function StatusAt(fold: Fold, assessments: seq<Assessment>, key: Key): Option<Status> {
    if assessments == [] then None
    else
      var n := |assessments| - 1;
      if Key(fold(assessments[n].node), assessments[n].checkId) == key then Some(assessments[n].status)
      else StatusAt(fold, assessments[..n], key)
  }

  // ----- Python's order on pairs of strings -----

  predicate TextLess(a: string, b: string) {
    b != [] && (a == [] || a[0] < b[0] || (a[0] == b[0] && TextLess(a[1..], b[1..])))
  }

  /** Exactly one of less, equal and greater. */
  lemma {:induction false} TextOrder(a: string, b: string)
    ensures TextLess(a, b) || a == b || TextLess(b, a)
    ensures !(TextLess(a, b) && TextLess(b, a))
    ensures a == b ==> !TextLess(a, b)
  {
    if a != [] && b != [] {
      TextOrder(a[1..], b[1..]);
      if a[0] == b[0] && a[1..] == b[1..] {
        assert a == [a[0]] + a[1..] && b == [b[0]] + b[1..];
      }
    }
  }

  lemma {:induction false} TextTransitive(a: string, b: string, c: string)
    requires TextLess(a, b) && TextLess(b, c)
    ensures TextLess(a, c)
  {
    if a != [] && a[0] == b[0] && b[0] == c[0] {
      TextTransitive(a[1..], b[1..], c[1..]);
    }
  }

  predicate KeyLess(a: Key, b: Key) {
    TextLess(a.node, b.node) || (a.node == b.node && TextLess(a.checkId, b.checkId))
  }

  lemma KeyOrder(a: Key, b: Key)
    ensures KeyLess(a, b) || a == b || KeyLess(b, a)
    ensures !(KeyLess(a, b) && KeyLess(b, a)) && !KeyLess(a, a)
  {
    TextOrder(a.node, b.node);
    TextOrder(a.checkId, b.checkId);
    TextOrder(a.node, a.node);
    TextOrder(a.checkId, a.checkId);
  }

  lemma KeyTransitive(a: Key, b: Key, c: Key)
    requires KeyLess(a, b) && KeyLess(b, c)
    ensures KeyLess(a, c)
  {
    if TextLess(a.node, b.node) && TextLess(b.node, c.node) {
      TextTransitive(a.node, b.node, c.node);
    }
    if TextLess(a.checkId, b.checkId) && TextLess(b.checkId, c.checkId) {
      TextTransitive(a.checkId, b.checkId, c.checkId);
    }
  }

  ghost predicate Ordered(keys: seq<Key>) {
    forall i, j :: 0 <= i < j < |keys| ==> KeyLess(keys[i], keys[j])
  }

  /** Insert a key into an ordered list that lists it at most once. */
  function InsertKey(keys: seq<Key>, key: Key): seq<Key> {
    if keys == [] then [key]
    else
      var n := |keys| - 1;
      if keys[n] == key then keys
      else if KeyLess(keys[n], key) then keys + [key]
      else InsertKey(keys[..n], key) + [keys[n]]
  }

  lemma {:induction false} InsertKeyOrdered(keys: seq<Key>, key: Key)
    requires Ordered(keys)
    ensures Ordered(InsertKey(keys, key))
    ensures forall k :: k in InsertKey(keys, key) <==> k in keys || k == key
  {
    hide KeyLess;
    if keys != [] {
      var n := |keys| - 1;
      var last := keys[n];
      KeyOrder(last, key);
      if KeyLess(last, key) {
        forall i | 0 <= i < n
          ensures KeyLess(keys[i], key)
        {
          KeyTransitive(keys[i], last, key);
        }
      } else if last != key {
        InsertKeyOrdered(keys[..n], key);
        var front := InsertKey(keys[..n], key);
        forall i | 0 <= i < |front|
          ensures KeyLess(front[i], last)
        {
          assert front[i] in front;
        }
      }
    }
  }

  /** The sorted keys of a list of checks, added to an ordered list. */
  function WithKeys(fold: Fold, keys: seq<Key>, checks: seq<Check>): seq<Key> {
    if checks == [] then keys
    else InsertKey(WithKeys(fold, keys, checks[..|checks| - 1]), KeyOf(fold, checks[|checks| - 1]))
  }

  lemma {:induction false} WithKeysOrdered(fold: Fold, keys: seq<Key>, checks: seq<Check>)
    requires Ordered(keys)
    ensures Ordered(WithKeys(fold, keys, checks))
    ensures forall k :: k in WithKeys(fold, keys, checks) <==> k in keys || CheckAt(fold, checks, k).Some?
  {
    hide KeyLess;
    if checks != [] {
      var n := |checks| - 1;
      WithKeysOrdered(fold, keys, checks[..n]);
      InsertKeyOrdered(WithKeys(fold, keys, checks[..n]), KeyOf(fold, checks[n]));
    }
  }

  /** sorted(set(current) | set(prior)). */
  function AllKeys(fold: Fold, current: Snapshot, prior: Snapshot): seq<Key> {
    WithKeys(fold, WithKeys(fold, [], current.checks), prior.checks)
  }

  predicate InEither(fold: Fold, current: Snapshot, prior: Snapshot, key: Key) {
    CheckAt(fold, current.checks, key).Some? || CheckAt(fold, prior.checks, key).Some?
  }

  lemma AllKeysContent(fold: Fold, current: Snapshot, prior: Snapshot)
    ensures Ordered(AllKeys(fold, current, prior))
    ensures forall k :: k in AllKeys(fold, current, prior) <==> InEither(fold, current, prior, k)
  {
    WithKeysOrdered(fold, [], current.checks);
    WithKeysOrdered(fold, WithKeys(fold, [], current.checks), prior.checks);
  }

  lemma {:induction false} OrderedUnique(a: seq<Key>, b: seq<Key>)
    requires Ordered(a) && Ordered(b) && forall k :: k in a <==> k in b
    ensures a == b
  {
    hide KeyLess;
    assert a != [] ==> a[0] in b;
    assert b != [] ==> b[0] in a;
    if a != [] && b != [] {
      var m, n := |a| - 1, |b| - 1;
      assert a[m] in b && b[n] in a;
      var i :| 0 <= i < |b| && b[i] == a[m];
      var j :| 0 <= j < |a| && a[j] == b[n];
      KeyOrder(a[m], b[n]);
      assert a[m] == b[n];
      forall k
        ensures k in a[..m] <==> k in b[..n]
      {
        DropLast(a, k);
        DropLast(b, k);
      }
      OrderedUnique(a[..m], b[..n]);
      assert a == a[..m] + [a[m]] && b == b[..n] + [b[n]];
    }
  }

  lemma DropLast(a: seq<Key>, k: Key)
    requires a != [] && Ordered(a)
    ensures k in a[..|a| - 1] <==> k in a && k != a[|a| - 1]
  {
    hide KeyLess;
    var m := |a| - 1;
    assert a == a[..m] + [a[m]];
    KeyOrder(a[m], a[m]);
    assert forall i :: 0 <= i < m ==> KeyLess(a[i], a[m]);
  }

  // ----- What changed at one key -----

  function Rank(status: Option<Status>): nat {
    match status
    case Some(Pending) => 1
    case Some(Attention) => 2
    case Some(Critical) => 3
    case _ => 0
  }

  function Direction(prior: Option<Status>, current: Option<Status>): Kind {
    if Rank(current) < Rank(prior) then Improved else if Rank(current) > Rank(prior) then Worsened else Changed
  }

  /** The statuses more severe than the given one. */
  function Above(status: Status): set<Status> {
    match status
    case Normal => {Pending, Attention, Critical}
    case Pending => {Attention, Critical}
    case Attention => {Critical}
    case Critical => {}
  }

  /** A status change is worse or better by severity; a missing assessment counts as normal, so it may be neither. */
  lemma DirectionFollowsSeverity(prior: Option<Status>, current: Option<Status>)
    ensures var was, now :=
      (if prior.Some? then prior.value else Normal), (if current.Some? then current.value else Normal);
      && (Direction(prior, current) == Worsened <==> now in Above(was))
      && (Direction(prior, current) == Improved <==> was in Above(now))
      && (Direction(prior, current) == Changed <==> was == now)
  {
  }

  /** The entry of a key that at least one snapshot checks, if there is one. */
  function ChangeAt(fold: Fold, current: Snapshot, prior: Snapshot, key: Key): Option<Change> {
    var before, after := CheckAt(fold, prior.checks, key), CheckAt(fold, current.checks, key);
    var was, now := StatusAt(fold, prior.assessments, key), StatusAt(fold, current.assessments, key);
    if before.None? then Some(Change(key, Added, None, now))
    else if after.None? then Some(Change(key, Removed, was, None))
    else if was != now then Some(Change(key, Direction(was, now), was, now))
    else if before.value.evidenceSha256 != after.value.evidenceSha256 then Some(Change(key, EvidenceChanged, was, now))
    else None
  }

  function ChangesOver(fold: Fold, current: Snapshot, prior: Snapshot, keys: seq<Key>): seq<Change> {
    if keys == [] then []
    else
      var n := |keys| - 1;
      var before, change := ChangesOver(fold, current, prior, keys[..n]), ChangeAt(fold, current, prior, keys[n]);
      if change.Some? then before + [change.value] else before
  }

  function Changes(fold: Fold, current: Snapshot, prior: Snapshot): seq<Change> {
    ChangesOver(fold, current, prior, AllKeys(fold, current, prior))
  }

  function CountKind(changes: seq<Change>, kind: Kind): nat {
    if changes == [] then 0
    else CountKind(changes[..|changes| - 1], kind) + if changes[|changes| - 1].kind == kind then 1 else 0
  }

  /** The summary counts every kind but changed. */
  datatype Summary = Summary(added: nat, removed: nat, improved: nat, worsened: nat, evidenceChanged: nat)

  function Summarize(changes: seq<Change>): Summary {
    Summary(CountKind(changes, Added), CountKind(changes, Removed), CountKind(changes, Improved),
            CountKind(changes, Worsened), CountKind(changes, EvidenceChanged))
  }

  /** The comparison loop over the sorted keys. */
  method CompareSnapshots(fold: Fold, current: Snapshot, prior: Snapshot) returns (changes: seq<Change>,
      summary: Summary)
    ensures changes == Changes(fold, current, prior)
    ensures summary == Summarize(changes)
  {
    hide CheckAt, StatusAt, AllKeys, Direction, KeyOf;
    var keys := AllKeys(fold, current, prior);
    changes := [];
    for k := 0 to |keys|
      invariant changes == ChangesOver(fold, current, prior, keys[..k])
    {
      assert keys[..k + 1][..k] == keys[..k];
      var key := keys[k];
      var before, after := CheckAt(fold, prior.checks, key), CheckAt(fold, current.checks, key);
      if before.None? {
        changes := changes + [Change(key, Added, None, StatusAt(fold, current.assessments, key))];
        continue;
      }
      if after.None? {
        changes := changes + [Change(key, Removed, StatusAt(fold, prior.assessments, key), None)];
        continue;
      }
      var was, now := StatusAt(fold, prior.assessments, key), StatusAt(fold, current.assessments, key);
      if was != now {
        changes := changes + [Change(key, Direction(was, now), was, now)];
      } else if before.value.evidenceSha256 != after.value.evidenceSha256 {
        changes := changes + [Change(key, EvidenceChanged, was, now)];
      }
    }
    assert keys[..|keys|] == keys;
    summary := Summarize(changes);
  }

  // ----- Duality -----

  function DualKind(kind: Kind): Kind {
    match kind
    case Added => Removed
    case Removed => Added
    case Improved => Worsened
    case Worsened => Improved
    case Changed => Changed
    case EvidenceChanged => EvidenceChanged
  }

  function Dual(change: Change): Change {
    Change(change.key, DualKind(change.kind), change.current, change.prior)
  }

  function DualAll(changes: seq<Change>): seq<Change> {
    if changes == [] then [] else DualAll(changes[..|changes| - 1]) + [Dual(changes[|changes| - 1])]
  }

  lemma ChangeAtDual(fold: Fold, current: Snapshot, prior: Snapshot, key: Key)
    requires InEither(fold, current, prior, key)
    ensures var there, back := ChangeAt(fold, current, prior, key), ChangeAt(fold, prior, current, key);
      back == if there.Some? then Some(Dual(there.value)) else None
  {
    hide CheckAt, StatusAt;
  }

  lemma {:induction false} ChangesDual(fold: Fold, current: Snapshot, prior: Snapshot, keys: seq<Key>)
    requires forall i :: 0 <= i < |keys| ==> InEither(fold, current, prior, keys[i])
    ensures ChangesOver(fold, prior, current, keys) == DualAll(ChangesOver(fold, current, prior, keys))
  {
    hide ChangeAt, Dual, InEither;
    if keys != [] {
      var n := |keys| - 1;
      ChangesDual(fold, current, prior, keys[..n]);
      ChangeAtDual(fold, current, prior, keys[n]);
    }
  }

  lemma {:induction false} CountDual(changes: seq<Change>, kind: Kind)
    ensures CountKind(DualAll(changes), DualKind(kind)) == CountKind(changes, kind)
  {
    if changes != [] {
      CountDual(changes[..|changes| - 1], kind);
    }
  }

  /** Comparing the other way round gives the dual changes in the same order, and the dual summary. */
  lemma ComparisonIsDual(fold: Fold, current: Snapshot, prior: Snapshot)
    ensures Changes(fold, prior, current) == DualAll(Changes(fold, current, prior))
    ensures var there, back := Summarize(Changes(fold, current, prior)), Summarize(Changes(fold, prior, current));
      && back.added == there.removed && back.removed == there.added
      && back.improved == there.worsened && back.worsened == there.improved
      && back.evidenceChanged == there.evidenceChanged
  {
    AllKeysContent(fold, current, prior);
    AllKeysContent(fold, prior, current);
    hide Ordered, AllKeys, ChangesOver;
    var keys := AllKeys(fold, current, prior);
    OrderedUnique(keys, AllKeys(fold, prior, current));
    forall i | 0 <= i < |keys|
      ensures InEither(fold, current, prior, keys[i])
    {
      assert keys[i] in keys;
    }
    ChangesDual(fold, current, prior, keys);
    var there := Changes(fold, current, prior);
    CountDual(there, Added);
    CountDual(there, Removed);
    CountDual(there, Improved);
    CountDual(there, Worsened);
    CountDual(there, EvidenceChanged);
  }

  // ----- Which keys are listed -----

  /** Both snapshots check the key, with the same status and the same evidence. */
  predicate Unchanged(fold: Fold, current: Snapshot, prior: Snapshot, key: Key) {
    var before, after := CheckAt(fold, prior.checks, key), CheckAt(fold, current.checks, key);
    && before.Some? && after.Some?
    && StatusAt(fold, prior.assessments, key) == StatusAt(fold, current.assessments, key)
    && before.value.evidenceSha256 == after.value.evidenceSha256
  }

  lemma {:induction false} ChangesOverContent(fold: Fold, current: Snapshot, prior: Snapshot, keys: seq<Key>,
      change: Change)
    ensures change in ChangesOver(fold, current, prior, keys) <==>
      change.key in keys && ChangeAt(fold, current, prior, change.key) == Some(change)
  {
    if keys != [] {
      var n := |keys| - 1;
      assert keys == keys[..n] + [keys[n]];
      ChangesOverContent(fold, current, prior, keys[..n], change);
      ChangeAtKey(fold, current, prior, keys[n]);
      hide ChangeAt;
    }
  }

  lemma ChangeAtKey(fold: Fold, current: Snapshot, prior: Snapshot, key: Key)
    ensures ChangeAt(fold, current, prior, key).Some? ==> ChangeAt(fold, current, prior, key).value.key == key
    ensures InEither(fold, current, prior, key) ==>
      (ChangeAt(fold, current, prior, key).None? <==> Unchanged(fold, current, prior, key))
  {
    hide CheckAt, StatusAt;
  }

  ghost predicate Listed(changes: seq<Change>, key: Key) {
    exists i :: 0 <= i < |changes| && changes[i].key == key
  }

  /** A key is listed exactly when a snapshot checks it and it is not unchanged. */
  lemma ListedIffNotUnchanged(fold: Fold, current: Snapshot, prior: Snapshot, key: Key)
    ensures Listed(Changes(fold, current, prior), key) <==>
      InEither(fold, current, prior, key) && !Unchanged(fold, current, prior, key)
  {
    AllKeysContent(fold, current, prior);
    ChangeAtKey(fold, current, prior, key);
    var keys, changes, at :=
      AllKeys(fold, current, prior), Changes(fold, current, prior), ChangeAt(fold, current, prior, key);
    hide AllKeys, ChangesOver, ChangeAt, Unchanged, InEither, Ordered;
    if i :| 0 <= i < |changes| && changes[i].key == key {
      ChangesOverContent(fold, current, prior, keys, changes[i]);
      assert changes[i] in changes;
    }
    if at.Some? && key in keys {
      ChangesOverContent(fold, current, prior, keys, at.value);
    }
  }

  ghost predicate OrderedChanges(changes: seq<Change>) {
    forall i, j :: 0 <= i < j < |changes| ==> KeyLess(changes[i].key, changes[j].key)
  }

  lemma {:induction false} ChangesOrdered(fold: Fold, current: Snapshot, prior: Snapshot, keys: seq<Key>)
    requires Ordered(keys)
    ensures OrderedChanges(ChangesOver(fold, current, prior, keys))
  {
    hide KeyLess, ChangeAt;
    if keys != [] {
      var n := |keys| - 1;
      ChangesOrdered(fold, current, prior, keys[..n]);
      ChangeAtKey(fold, current, prior, keys[n]);
      var before := ChangesOver(fold, current, prior, keys[..n]);
      forall i | 0 <= i < |before|
        ensures KeyLess(before[i].key, keys[n])
      {
        ChangesOverContent(fold, current, prior, keys[..n], before[i]);
        assert before[i] in before;
      }
    }
  }

  /** The changes are in key order, so no key is listed twice. */
  lemma ListedOnceInOrder(fold: Fold, current: Snapshot, prior: Snapshot, i: nat, j: nat)
    requires i < j < |Changes(fold, current, prior)|
    ensures KeyLess(Changes(fold, current, prior)[i].key, Changes(fold, current, prior)[j].key)
    ensures Changes(fold, current, prior)[i].key != Changes(fold, current, prior)[j].key
  {
    AllKeysContent(fold, current, prior);
    hide AllKeys, ChangesOver, Ordered, KeyLess;
    ChangesOrdered(fold, current, prior, AllKeys(fold, current, prior));
    KeyOrder(Changes(fold, current, prior)[i].key, Changes(fold, current, prior)[j].key);
  }

  /** A snapshot compared with itself shows no change. */
  lemma SelfComparisonIsEmpty(fold: Fold, snapshot: Snapshot)
    ensures Changes(fold, snapshot, snapshot) == []
  {
    var changes := Changes(fold, snapshot, snapshot);
    hide Changes;
    assert forall i :: 0 <= i < |changes| ==> Listed(changes, changes[i].key);
    if changes != [] {
      ListedIffNotUnchanged(fold, snapshot, snapshot, changes[0].key);
    }
  }

  /** The five counts of the summary and the uncounted changed entries make up all changes. */
  lemma {:induction false} SummaryAddsUp(changes: seq<Change>)
    ensures var s := Summarize(changes);
      s.added + s.removed + s.improved + s.worsened + s.evidenceChanged + CountKind(changes, Changed) == |changes|
  {
    if changes != [] {
      SummaryAddsUp(changes[..|changes| - 1]);
    }
  }
}
