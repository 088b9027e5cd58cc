/** `_sync_state` against plain replacement, and what its callbacks report. */
module PresenceSnapshot {
  import opened PyDict
  import opened PresenceSpec
  import opened PresenceDiff

  // ---------- The computed joins and leaves ----------

  lemma DeltaKeyFrame(state: State, h: string, value: seq<Presence>, d: Diff, k: string)
    requires h != k
    ensures SameAt(DeltaKey(state, h, value, d), d, k)
  {
  }

  lemma {:induction false} DeltaFrame(state: State, new_: State, n: nat, d: Diff, k: string)
    requires new_.Wf() && n <= |new_.keys|
    requires forall i :: n <= i < |new_.keys| ==> new_.keys[i] != k
    ensures SameAt(Delta(state, new_, n, d), d, k)
    decreases |new_.keys| - n
  {
    if n < |new_.keys| {
      DeltaKeyFrame(state, new_.keys[n], new_.vals[new_.keys[n]], d, k);
      DeltaFrame(state, new_, n + 1, DeltaKey(state, new_.keys[n], new_.vals[new_.keys[n]], d), k);
    }
  }

  lemma DeltaKeySame(state: State, k: string, value: seq<Presence>, d: Diff, e: Diff)
    requires SameAt(d, e, k)
    ensures SameAt(DeltaKey(state, k, value, d), DeltaKey(state, k, value, e), k)
  {
  }

  lemma {:induction false} DeltaHit(state: State, new_: State, n: nat, d: Diff, i: nat)
    requires new_.Wf() && n <= i < |new_.keys|
    ensures var k := new_.keys[i];
      SameAt(Delta(state, new_, n, d), DeltaKey(state, k, new_.vals[k], d), k)
    decreases |new_.keys| - n
  {
    var h := new_.keys[n];
    var next := DeltaKey(state, h, new_.vals[h], d);
    assert Delta(state, new_, n, d) == Delta(state, new_, n + 1, next);
    if n == i {
      DeltaFrame(state, new_, n + 1, next, h);
    } else {
      DeltaHit(state, new_, n + 1, next, i);
      DeltaKeyFrame(state, h, new_.vals[h], d, new_.keys[i]);
      DeltaKeySame(state, new_.keys[i], new_.vals[new_.keys[i]], d, next);
    }
  }

  ghost predicate SameAt(d: Diff, e: Diff, k: string) {
    && (k in d.joins.vals <==> k in e.joins.vals) && Get(d.joins, k) == Get(e.joins, k)
    && (k in d.leaves.vals <==> k in e.leaves.vals) && Get(d.leaves, k) == Get(e.leaves, k)
  }

  /** One key of the computed payloads, whatever lists are empty. */
  lemma AnyDeltaAt(state: State, new_: State, k: string)
    requires state.Wf() && new_.Wf()
    ensures var d := SnapshotDiff(state, new_);
      && Get(d.joins, k) == Keep(Get(new_, k), RefsOf(Get(state, k)))
      && Get(d.leaves, k) == Keep(Get(state, k), RefsOf(Get(new_, k)))
      && (k in d.joins.vals <==> Get(d.joins, k) != [] || (k in new_.vals && Get(state, k) == []))
      && (k in d.leaves.vals <==> Get(d.leaves, k) != [] || (k in state.vals && k !in new_.vals))
  {
    var start := Diff(Dict([], map[]), Exclude(state, new_.vals.Keys));
    if k in new_.vals {
      var i :| 0 <= i < |new_.keys| && new_.keys[i] == k;
      DeltaHit(state, new_, 0, start, i);
    } else {
      DeltaFrame(state, new_, 0, start, k);
    }
    assert RefsOf([]) == {};
    if k !in new_.vals { KeepAll(Get(state, k), {}); }
    if Get(state, k) == [] { KeepAll(Get(new_, k), {}); }
  }

  /** Per key, the joins are the new presences with unknown refs, the leaves the stored ones whose refs are gone. */
  lemma SnapshotDiffAt(state: State, new_: State, k: string)
    requires state.Wf() && new_.Wf() && NonEmpty(state) && NonEmpty(new_)
    ensures var d := SnapshotDiff(state, new_);
      && Get(d.joins, k) == Keep(Get(new_, k), RefsOf(Get(state, k)))
      && Get(d.leaves, k) == Keep(Get(state, k), RefsOf(Get(new_, k)))
      && (k in d.joins.vals <==> Get(d.joins, k) != [])
      && (k in d.leaves.vals <==> Get(d.leaves, k) != [])
      && RefsOf(Get(d.joins, k)) == RefsOf(Get(new_, k)) - RefsOf(Get(state, k))
      && RefsOf(Get(d.leaves, k)) == RefsOf(Get(state, k)) - RefsOf(Get(new_, k))
  {
    AnyDeltaAt(state, new_, k);
    KeepRefs(Get(new_, k), RefsOf(Get(state, k)));
    KeepRefs(Get(state, k), RefsOf(Get(new_, k)));
    assert RefsOf([]) == {};
    if k !in state.vals { KeepAll(Get(new_, k), {}); }
    if k !in new_.vals { KeepAll(Get(state, k), {}); }
  }

  lemma SnapshotDiffTracked(state: State, new_: State)
    requires state.Wf() && new_.Wf() && NonEmpty(state) && NonEmpty(new_)
    ensures var d := SnapshotDiff(state, new_);
      NonEmpty(d.joins) && d.leaves.vals.Keys <= state.vals.Keys
  {
    forall k ensures var d := SnapshotDiff(state, new_);
      && (k in d.joins.vals ==> d.joins.vals[k] != [])
      && (k in d.leaves.vals ==> k in state.vals) {
      SnapshotDiffAt(state, new_, k);
    }
  }

  // ---------- Main result: the incremental sync refines replacement ----------

  lemma {:induction false} KeepSame(ps: seq<Presence>, d: set<string>, e: set<string>)
    requires RefsOf(ps) * d == RefsOf(ps) * e
    ensures Keep(ps, d) == Keep(ps, e)
  {
    if ps != [] {
      assert ps[0].ref in RefsOf(ps) && (ps[0].ref in d <==> ps[0].ref in RefsOf(ps) * d)
          && (ps[0].ref in e <==> ps[0].ref in RefsOf(ps) * e);
      assert forall r :: r in RefsOf(ps[1..]) ==> r in RefsOf(ps);
      forall r | r in RefsOf(ps[1..]) ensures r in d <==> r in e {
        assert r in RefsOf(ps) * d <==> r in RefsOf(ps) * e;
      }
      KeepSame(ps[1..], d, e);
    }
  }

  lemma NetIsReplaced(current: seq<Presence>, value: seq<Presence>, joined: seq<Presence>, left: seq<Presence>)
    requires joined == Keep(value, RefsOf(current)) && left == Keep(current, RefsOf(value))
    ensures Keep(current, RefsOf(joined) + RefsOf(left)) + Keep(joined, RefsOf(left)) == Replaced(current, value)
  {
    KeepRefs(value, RefsOf(current));
    KeepRefs(current, RefsOf(value));
    KeepSame(current, RefsOf(joined) + RefsOf(left), RefsOf(current) - RefsOf(value));
    KeepAll(joined, RefsOf(left));
  }

  lemma SyncStateAt(s: Synced, new_: State, k: string)
    requires s.state.Wf() && new_.Wf() && NonEmpty(s.state) && NonEmpty(new_)
    ensures var r := SyncState(s, new_).state;
      && Get(r, k) == Replaced(Get(s.state, k), Get(new_, k))
      && (k in r.vals <==> Get(r, k) != [])
  {
    var d := SnapshotDiff(s.state, new_);
    SnapshotDiffTracked(s.state, new_);
    SnapshotDiffAt(s.state, new_, k);
    AllTracked(s, d.joins, d.leaves);
    NonEmptyDiffAt(s, d.joins, d.leaves, k);
    NetIsReplaced(Get(s.state, k), Get(new_, k), Get(d.joins, k), Get(d.leaves, k));
  }

  /** What a key holds after a snapshot: the stored presences it confirms, then its new ones. */
  function Replaced(current: seq<Presence>, value: seq<Presence>): seq<Presence> {
    Keep(current, RefsOf(current) - RefsOf(value)) + Keep(value, RefsOf(current))
  }

  lemma ReplacedRefs(current: seq<Presence>, value: seq<Presence>)
    ensures RefsOf(Replaced(current, value)) == RefsOf(value)
  {
    KeepRefs(current, RefsOf(current) - RefsOf(value));
    KeepRefs(value, RefsOf(current));
    RefsConcat(Keep(current, RefsOf(current) - RefsOf(value)), Keep(value, RefsOf(current)));
  }

  lemma SameLookups(r: State, t: State)
    requires forall k :: k in r.vals <==> k in t.vals
    requires forall k :: RefsOf(Get(r, k)) == RefsOf(Get(t, k))
    ensures Abs(r) == Abs(t)
  {
    forall k | k in r.vals ensures RefsOf(r.vals[k]) == RefsOf(t.vals[k]) {
      assert RefsOf(Get(r, k)) == RefsOf(Get(t, k));
    }
  }

  lemma SameRefs(r: State, t: State)
    requires NonEmpty(r) && NonEmpty(t)
    requires forall k :: RefsOf(Get(r, k)) == RefsOf(Get(t, k))
    ensures Abs(r) == Abs(t)
  {
    forall k ensures k in r.vals <==> k in t.vals {
      NoRefs(Get(r, k));
      NoRefs(Get(t, k));
      assert RefsOf(Get(r, k)) == RefsOf(Get(t, k));
    }
    SameLookups(r, t);
  }

  /**
   * A snapshot leaves exactly its own keys, each with exactly its own refs; the two payloads share no ref and no
   * leave is skipped.
   */
  lemma SnapshotRefinesReplacement(s: Synced, new_: State)
    requires s.state.Wf() && new_.Wf() && NonEmpty(s.state) && NonEmpty(new_)
    ensures var r := SyncState(s, new_).state; NonEmpty(r) && Abs(r) == Abs(new_)
    ensures var d := SnapshotDiff(s.state, new_);
      && (forall k :: RefsOf(Get(d.joins, k)) !! RefsOf(Get(d.leaves, k)))
      && StopsAt(Mid(s, d.joins), d.leaves, 0) == |d.leaves.keys|
  {
    var d := SnapshotDiff(s.state, new_);
    var r := SyncState(s, new_).state;
    SnapshotDiffTracked(s.state, new_);
    AllTracked(s, d.joins, d.leaves);
    forall k ensures RefsOf(Get(r, k)) == RefsOf(Get(new_, k)) && (k in r.vals <==> Get(r, k) != []) {
      SyncStateAt(s, new_, k);
      ReplacedRefs(Get(s.state, k), Get(new_, k));
    }
    SameRefs(r, new_);
    forall k ensures RefsOf(Get(d.joins, k)) !! RefsOf(Get(d.leaves, k)) {
      SnapshotDiffAt(s.state, new_, k);
    }
  }

  // ---------- Snapshots with empty lists ----------

  /** A stored key that the snapshot lacks holds an empty list. */
  predicate Blocks(state: State, new_: State, k: string) {
    k in state.vals && k !in new_.vals && state.vals[k] == []
  }

  /** The vacant leaves of a snapshot are the stored empty lists that it lacks. */
  lemma VacantIsBlocking(state: State, new_: State, k: string)
    requires state.Wf() && new_.Wf()
    ensures var d := SnapshotDiff(state, new_);
      k in d.leaves.vals && Vacant(state, d.joins, k) <==> Blocks(state, new_, k)
  {
    AnyDeltaAt(state, new_, k);
  }

  /** The leave loop of a snapshot runs to its end exactly when no stored empty list is for a key that it lacks. */
  lemma SnapshotLeavesReachedIff(s: Synced, new_: State)
    requires s.state.Wf() && new_.Wf()
    ensures var d := SnapshotDiff(s.state, new_);
      StopsAt(Mid(s, d.joins), d.leaves, 0) == |d.leaves.keys| <==> forall k :: !Blocks(s.state, new_, k)
  {
    var d := SnapshotDiff(s.state, new_);
    ExitsAtVacant(s, d.joins, d.leaves);
    forall k ensures k in d.leaves.vals && Vacant(s.state, d.joins, k) <==> Blocks(s.state, new_, k) {
      VacantIsBlocking(s.state, new_, k);
    }
  }

  /** The key's part of the condition under which a snapshot replaces the state. */
  predicate Replaceable(state: State, new_: State, k: string) {
    k in state.vals ==> if k in new_.vals then state.vals[k] == [] || new_.vals[k] != [] else state.vals[k] != []
  }

  lemma AnySnapshotAt(s: Synced, new_: State, k: string)
    requires s.state.Wf() && new_.Wf() && forall h :: !Blocks(s.state, new_, h)
    ensures var r := SyncState(s, new_).state;
      && RefsOf(Get(r, k)) == RefsOf(Get(new_, k))
      && Get(r, k) == Replaced(Get(s.state, k), Get(new_, k))
  {
    var d := SnapshotDiff(s.state, new_);
    forall h | h in d.leaves.vals ensures !Vacant(s.state, d.joins, h) {
      VacantIsBlocking(s.state, new_, h);
    }
    AnyDeltaAt(s.state, new_, k);
    DiffAt(s, d.joins, d.leaves, k);
    NetIsReplaced(Get(s.state, k), Get(new_, k), Get(d.joins, k), Get(d.leaves, k));
    ReplacedRefs(Get(s.state, k), Get(new_, k));
  }

  lemma SnapshotKeyAt(s: Synced, new_: State, k: string)
    requires s.state.Wf() && new_.Wf() && forall h :: !Blocks(s.state, new_, h)
    requires Replaceable(s.state, new_, k)
    ensures k in SyncState(s, new_).state.vals <==> k in new_.vals
  {
    var d, r := SnapshotDiff(s.state, new_), SyncState(s, new_).state;
    forall h | h in d.leaves.vals ensures !Vacant(s.state, d.joins, h) {
      VacantIsBlocking(s.state, new_, h);
    }
    AnyDeltaAt(s.state, new_, k);
    DiffAt(s, d.joins, d.leaves, k);
    AnySnapshotAt(s, new_, k);
    NoRefs(Get(r, k));
    NoRefs(Get(new_, k));
    assert RefsOf([]) == {};
  }

  /** A stored list that an empty one should replace: its key is dropped, or the list stays because the loop stopped. */
  lemma DroppedOrKept(s: Synced, new_: State, k: string)
    requires s.state.Wf() && new_.Wf() && !Replaceable(s.state, new_, k) && !Blocks(s.state, new_, k)
    ensures var r := SyncState(s, new_).state; k !in r.vals || RefsOf(Get(r, k)) != {}
    ensures k in new_.vals && new_.vals[k] == []
  {
    var d, r := SnapshotDiff(s.state, new_), SyncState(s, new_).state;
    AnyDeltaAt(s.state, new_, k);
    AnyDiffAt(s, d.joins, d.leaves, k);
    NoRefs(Get(r, k));
    NoRefs(Get(s.state, k));
  }

  lemma BlockedStays(s: Synced, new_: State, k: string)
    requires s.state.Wf() && new_.Wf() && Blocks(s.state, new_, k)
    ensures k in SyncState(s, new_).state.vals
  {
    var d := SnapshotDiff(s.state, new_);
    VacantIsBlocking(s.state, new_, k);
    VacantStays(s, d.joins, d.leaves, k);
  }

  lemma NotReplaced(s: Synced, new_: State, k: string)
    requires s.state.Wf() && new_.Wf() && !Replaceable(s.state, new_, k)
    ensures Abs(SyncState(s, new_).state) != Abs(new_)
  {
    var r := SyncState(s, new_).state;
    if Blocks(s.state, new_, k) {
      BlockedStays(s, new_, k);
      assert k in Abs(r) && k !in Abs(new_);
    } else {
      DroppedOrKept(s, new_, k);
      assert k in Abs(new_) && Abs(new_)[k] == {};
      assert k in Abs(r) ==> Abs(r)[k] == RefsOf(Get(r, k));
    }
  }

  /**
   * Any snapshot on any state replaces it exactly when it has no empty list for a key with presences, and no
   * stored empty list is for a key that it lacks.
   */
  lemma SnapshotReplacesIff(s: Synced, new_: State)
    requires s.state.Wf() && new_.Wf()
    ensures Abs(SyncState(s, new_).state) == Abs(new_) <==> forall k :: Replaceable(s.state, new_, k)
  {
    var r := SyncState(s, new_).state;
    if forall k :: Replaceable(s.state, new_, k) {
      forall h ensures !Blocks(s.state, new_, h) {
        assert Replaceable(s.state, new_, h);
      }
      forall k ensures RefsOf(Get(r, k)) == RefsOf(Get(new_, k)) && (k in r.vals <==> k in new_.vals) {
        AnySnapshotAt(s, new_, k);
        SnapshotKeyAt(s, new_, k);
      }
      SameLookups(r, new_);
    } else {
      var k :| !Replaceable(s.state, new_, k);
      NotReplaced(s, new_, k);
    }
  }

  const NOBODY: State := Dict([], map[])

  /** A snapshot that gives key a an empty list and key b one presence. */
  function HalfEmpty(a: string, b: string, p: Presence): (r: State)
    requires a != b
    ensures r.Wf()
  {
    Dict([a, b], map[a := [], b := [p]])
  }

  lemma HalfEmptyDelta(a: string, b: string, p: Presence)
    requires a != b
    ensures SnapshotDiff(NOBODY, HalfEmpty(a, b, p)) == Diff(HalfEmpty(a, b, p), NOBODY)
  {
    var new_, start := HalfEmpty(a, b, p), Diff(NOBODY, NOBODY);
    assert Exclude(NOBODY, new_.vals.Keys) == NOBODY;
    var one := Diff(Put(NOBODY, a, []), NOBODY);
    assert DeltaKey(NOBODY, a, [], start) == one;
    assert DeltaKey(NOBODY, b, [p], one) == Diff(new_, NOBODY);
    assert Delta(NOBODY, new_, 0, start) == Delta(NOBODY, new_, 1, one);
    assert Delta(NOBODY, new_, 1, one) == Delta(NOBODY, new_, 2, Diff(new_, NOBODY));
  }

  lemma NewKeyJoined(s: Synced, k: string, joined: seq<Presence>)
    requires k !in s.state.vals
    ensures JoinKey(s, k, joined).state == Dict(s.state.keys + [k], s.state.vals[k := joined])
  {
  }

  lemma JoinsTurn(s: Synced, joins: State, n: nat)
    requires joins.Wf() && n < |joins.keys|
    ensures joins.keys[n] in joins.vals
    ensures Joins(s, joins, n) == Joins(JoinKey(s, joins.keys[n], joins.vals[joins.keys[n]]), joins, n + 1)
  {
  }

  lemma JoinsEnd(s: Synced, joins: State)
    requires joins.Wf()
    ensures Joins(s, joins, |joins.keys|) == s
  {
  }

  lemma SecondJoined(s: Synced, a: string, b: string, p: Presence)
    requires a != b && s.state == Dict([a], map[a := []])
    ensures Joins(s, HalfEmpty(a, b, p), 1).state == HalfEmpty(a, b, p)
  {
    var two := JoinKey(s, b, [p]);
    NewKeyJoined(s, b, [p]);
    JoinsTurn(s, HalfEmpty(a, b, p), 1);
    JoinsEnd(two, HalfEmpty(a, b, p));
    assert [a] + [b] == [a, b];
  }

  lemma HalfEmptyJoined(a: string, b: string, p: Presence)
    requires a != b
    ensures Joins(Synced(NOBODY, []), HalfEmpty(a, b, p), 0).state == HalfEmpty(a, b, p)
  {
    var s := Synced(NOBODY, []);
    NewKeyJoined(s, a, []);
    JoinsTurn(s, HalfEmpty(a, b, p), 0);
    SecondJoined(JoinKey(s, a, []), a, b, p);
  }

  lemma HalfEmptyStored(a: string, b: string, p: Presence)
    requires a != b
    ensures SyncState(Synced(NOBODY, []), HalfEmpty(a, b, p)).state == HalfEmpty(a, b, p)
  {
    var s, joins := Synced(NOBODY, []), HalfEmpty(a, b, p);
    HalfEmptyDelta(a, b, p);
    HalfEmptyJoined(a, b, p);
    LeavesEnd(Joins(s, joins, 0), NOBODY, 0);
  }

  lemma HalfEmptyStays(s: Synced, a: string, b: string, p: Presence)
    requires a != b && s.state == HalfEmpty(a, b, p)
    ensures SyncState(s, NOBODY) == s
  {
    assert NOBODY.vals.Keys == {};
    WithoutNothing(s.state.keys);
    assert s.state.vals - {} == s.state.vals;
    assert SnapshotDiff(s.state, NOBODY) == Diff(NOBODY, s.state);
    assert Get(s.state, a) == [];
  }

  lemma {:induction false} StaysThrough(s: Synced, a: string, b: string, p: Presence, more: seq<Event>)
    requires a != b && s.state == HalfEmpty(a, b, p) && forall i :: 0 <= i < |more| ==> more[i] == StateEvent(NOBODY)
    ensures Run(s, more).state == HalfEmpty(a, b, p)
    decreases |more|
  {
    if more != [] {
      StaysThrough(s, a, b, p, more[..|more| - 1]);
      HalfEmptyStays(Run(s, more[..|more| - 1]), a, b, p);
    }
  }

  /** Such a first snapshot makes a new client keep its presence through any number of empty snapshots. */
  lemma EmptyListBlocksSnapshots(a: string, b: string, p: Presence, more: seq<Event>)
    requires a != b && forall i :: 0 <= i < |more| ==> more[i] == StateEvent(NOBODY)
    ensures Run(Handle(Synced(NOBODY, []), StateEvent(HalfEmpty(a, b, p))), more).state == HalfEmpty(a, b, p)
  {
    HalfEmptyStored(a, b, p);
    StaysThrough(Handle(Synced(NOBODY, []), StateEvent(HalfEmpty(a, b, p))), a, b, p, more);
  }

  // ---------- Idempotence ----------

  lemma FirstKeyMapped(d: State)
    requires d.Wf()
    ensures d.keys == [] || d.keys[0] in d.vals
  {
    assert d.keys == [] || d.keys[0] in d.keys;
  }

  lemma NoKeys(d: State)
    requires d.Wf() && forall k :: k !in d.vals
    ensures d.keys == []
  {
    FirstKeyMapped(d);
  }

  /** A snapshot whose refs are the stored ones changes nothing and calls no callback. */
  lemma SameSnapshotIsSilent(s: Synced, new_: State)
    requires s.state.Wf() && new_.Wf() && NonEmpty(s.state) && NonEmpty(new_)
    requires Abs(s.state) == Abs(new_)
    ensures SyncState(s, new_) == s
  {
    var d := SnapshotDiff(s.state, new_);
    forall k ensures k !in d.joins.vals && k !in d.leaves.vals {
      SnapshotDiffAt(s.state, new_, k);
      AbsAt(s.state, k);
      AbsAt(new_, k);
      NoRefs(Get(d.joins, k));
      NoRefs(Get(d.leaves, k));
    }
    NoKeys(d.joins);
    NoKeys(d.leaves);
  }

  lemma SameRefsNonEmpty(s: State, t: State)
    requires Abs(s) == Abs(t) && NonEmpty(t)
    ensures NonEmpty(s)
  {
    forall k | k in s.vals ensures s.vals[k] != [] {
      assert k in Abs(t) && Abs(s)[k] == Abs(t)[k];
      NoRefs(s.vals[k]);
      NoRefs(t.vals[k]);
    }
  }

  /**
   * Applying the same non-empty snapshot twice, to any state without a blocking empty list: the second time leaves
   * the lists and the log as they are.
   */
  lemma SnapshotIdempotent(s: Synced, new_: State)
    requires s.state.Wf() && new_.Wf() && NonEmpty(new_) && forall k :: !Blocks(s.state, new_, k)
    ensures SyncState(SyncState(s, new_), new_) == SyncState(s, new_)
  {
    forall k ensures Replaceable(s.state, new_, k) {
      assert !Blocks(s.state, new_, k);
    }
    SnapshotReplacesIff(s, new_);
    SameRefsNonEmpty(SyncState(s, new_).state, new_);
    SameSnapshotIsSilent(SyncState(s, new_), new_);
  }

  lemma KeepMerged(current: seq<Presence>, joined: seq<Presence>, j: set<string>)
    requires j == RefsOf(joined)
    ensures Keep(Keep(current, j) + joined, j) == Keep(current, j)
  {
    KeepConcat(Keep(current, j), joined, j);
    KeepTwice(current, j, j);
    KeepNone(joined, j);
    assert j + j == j;
  }

  lemma MergeTwice(current: seq<Presence>, joined: seq<Presence>)
    ensures Merge(Merge(current, joined), joined) == Merge(current, joined)
  {
    MergeIsKeep(current, joined);
    MergeIsKeep(Merge(current, joined), joined);
    KeepMerged(current, joined, RefsOf(joined));
  }

  lemma JoinsTwiceAt(s: Synced, joins: State, k: string)
    requires joins.Wf()
    ensures var once := Joins(s, joins, 0);
      var twice := Joins(once, joins, 0);
      Get(twice.state, k) == Get(once.state, k) && (k in twice.state.vals <==> k in once.state.vals)
  {
    JoinsAt(s, joins, k);
    JoinsAt(Joins(s, joins, 0), joins, k);
    MergeTwice(Get(s.state, k), Get(joins, k));
  }

  /** Applying the same joins twice gives exactly the same lists as once. */
  lemma JoinsIdempotent(s: Synced, joins: State)
    requires joins.Wf()
    ensures var none: State := Dict([], map[]);
      var once := SyncDiff(s, joins, none);
      SyncDiff(once, joins, none).state.vals == once.state.vals
  {
    var none: State := Dict([], map[]);
    var once := SyncDiff(s, joins, none);
    var twice := SyncDiff(once, joins, none);
    forall k ensures Get(twice.state, k) == Get(once.state, k)
             ensures k in twice.state.vals <==> k in once.state.vals {
      JoinsTwiceAt(s, joins, k);
    }
    forall k | k in once.state.vals ensures twice.state.vals[k] == once.state.vals[k] {
      assert Get(twice.state, k) == Get(once.state, k);
    }
  }
}
