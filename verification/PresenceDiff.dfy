/** What `_sync_diff` computes, for every payload. */
module PresenceDiff {
  import opened PyDict
  import opened PresenceSpec

  // ---------- Filtering ----------

  lemma {:induction false} KeepRefs(ps: seq<Presence>, drop: set<string>)
    ensures RefsOf(Keep(ps, drop)) == RefsOf(ps) - drop
    ensures forall p :: p in Keep(ps, drop) <==> p in ps && p.ref !in drop
  {
    if ps != [] {
      KeepRefs(ps[1..], drop);
      assert ps == [ps[0]] + ps[1..];
    }
  }

  lemma KeepCons(p: Presence, ps: seq<Presence>, drop: set<string>)
    ensures Keep([p] + ps, drop) == (if p.ref in drop then [] else [p]) + Keep(ps, drop)
  {
    assert ([p] + ps)[1..] == ps;
  }

  lemma {:induction false} KeepConcat(a: seq<Presence>, b: seq<Presence>, drop: set<string>)
    ensures Keep(a + b, drop) == Keep(a, drop) + Keep(b, drop)
  {
    if a == [] {
      assert a + b == b;
    } else {
      KeepConcat(a[1..], b, drop);
      assert a == [a[0]] + a[1..] && a + b == [a[0]] + (a[1..] + b);
      KeepCons(a[0], a[1..], drop);
      KeepCons(a[0], a[1..] + b, drop);
    }
  }

  lemma {:induction false} KeepTwice(ps: seq<Presence>, d: set<string>, e: set<string>)
    ensures Keep(Keep(ps, d), e) == Keep(ps, d + e)
  {
    if ps != [] {
      KeepTwice(ps[1..], d, e);
      var rest := Keep(ps[1..], d);
      assert ([ps[0]] + rest)[1..] == rest;
    }
  }

  lemma {:induction false} KeepAll(ps: seq<Presence>, drop: set<string>)
    requires RefsOf(ps) !! drop
    ensures Keep(ps, drop) == ps
  {
    if ps != [] {
      assert ps[0].ref in RefsOf(ps);
      assert RefsOf(ps[1..]) <= RefsOf(ps);
      KeepAll(ps[1..], drop);
    }
  }

  lemma NoRefs(ps: seq<Presence>)
    ensures ps == [] <==> RefsOf(ps) == {}
  {
    if ps != [] {
      assert ps[0].ref in RefsOf(ps);
    }
  }

  lemma KeepNone(ps: seq<Presence>, drop: set<string>)
    ensures Keep(ps, drop) == [] <==> RefsOf(ps) <= drop
  {
    KeepRefs(ps, drop);
    NoRefs(Keep(ps, drop));
  }

  lemma RefsConcat(a: seq<Presence>, b: seq<Presence>)
    ensures RefsOf(a + b) == RefsOf(a) + RefsOf(b)
  {
    forall r ensures r in RefsOf(a + b) <==> r in RefsOf(a) + RefsOf(b) {
      if r in RefsOf(a) { var p :| p in a && p.ref == r; assert p in a + b; }
      if r in RefsOf(b) { var p :| p in b && p.ref == r; assert p in a + b; }
    }
  }

  lemma {:induction false} KeepUnique(ps: seq<Presence>, drop: set<string>)
    requires UniqueRefs(ps)
    ensures UniqueRefs(Keep(ps, drop))
  {
    if ps != [] {
      KeepUnique(ps[1..], drop);
      KeepRefs(ps[1..], drop);
    }
  }

  // ---------- The two loops, key by key ----------

  /** The list a key holds after the joins. */
  function Merged(s: State, joins: State, k: string): seq<Presence> {
    if k in joins.vals then Merge(Get(s, k), joins.vals[k]) else Get(s, k)
  }

  lemma MergeIsKeep(current: seq<Presence>, joined: seq<Presence>)
    ensures Merge(current, joined) == Keep(current, RefsOf(joined)) + joined
    ensures RefsOf(Merge(current, joined)) == RefsOf(current) + RefsOf(joined)
  {
    KeepRefs(current, RefsOf(joined));
    RefsConcat(Keep(current, RefsOf(joined)), joined);
    NoRefs(current);
  }

  lemma {:induction false} JoinsFrame(s: Synced, joins: State, n: nat, k: string)
    requires joins.Wf() && n <= |joins.keys|
    requires forall i :: n <= i < |joins.keys| ==> joins.keys[i] != k
    ensures var r := Joins(s, joins, n).state;
      Get(r, k) == Get(s.state, k) && (k in r.vals <==> k in s.state.vals)
    decreases |joins.keys| - n
  {
    if n < |joins.keys| {
      var h := joins.keys[n];
      JoinsFrame(JoinKey(s, h, joins.vals[h]), joins, n + 1, k);
    }
  }

  lemma JoinKeyAt(s: Synced, h: string, joined: seq<Presence>, k: string)
    ensures var r := JoinKey(s, h, joined).state;
      Get(r, k) == (if k == h then Merge(Get(s.state, h), joined) else Get(s.state, k)) && h in r.vals
  {
  }

  lemma {:induction false} JoinsHit(s: Synced, joins: State, n: nat, i: nat)
    requires joins.Wf() && n <= i < |joins.keys|
    ensures var r := Joins(s, joins, n).state; var k := joins.keys[i];
      k in r.vals && Get(r, k) == Merge(Get(s.state, k), joins.vals[k])
    decreases |joins.keys| - n
  {
    var h := joins.keys[n];
    var next := JoinKey(s, h, joins.vals[h]);
    JoinKeyAt(s, h, joins.vals[h], joins.keys[i]);
    if n == i {
      JoinsFrame(next, joins, n + 1, h);
    } else {
      JoinsHit(next, joins, n + 1, i);
    }
  }

  lemma JoinsAt(s: Synced, joins: State, k: string)
    requires joins.Wf()
    ensures var r := Joins(s, joins, 0).state;
      && Get(r, k) == Merged(s.state, joins, k)
      && (k in r.vals <==> k in joins.vals || k in s.state.vals)
  {
    if k in joins.vals {
      var i :| 0 <= i < |joins.keys| && joins.keys[i] == k;
      JoinsHit(s, joins, 0, i);
    } else {
      JoinsFrame(s, joins, 0, k);
    }
  }

  /** Where the leave loop ends: at its first key without presences, or after its last key. */
  function StopsAt(s: State, leaves: State, n: nat): (r: nat)
    requires leaves.Wf() && n <= |leaves.keys|
    ensures n <= r <= |leaves.keys|
    decreases |leaves.keys| - n
  {
    if n == |leaves.keys| || Get(s, leaves.keys[n]) == [] then n else StopsAt(s, leaves, n + 1)
  }

  lemma {:induction false} StopsAtFrame(s: State, t: State, leaves: State, n: nat)
    requires leaves.Wf() && n <= |leaves.keys|
    requires forall i :: n <= i < |leaves.keys| ==> Get(s, leaves.keys[i]) == Get(t, leaves.keys[i])
    ensures StopsAt(s, leaves, n) == StopsAt(t, leaves, n)
    decreases |leaves.keys| - n
  {
    if n < |leaves.keys| {
      StopsAtFrame(s, t, leaves, n + 1);
    }
  }

  lemma {:induction false} StopsAtEnd(s: State, leaves: State, n: nat)
    requires leaves.Wf() && n <= |leaves.keys|
    ensures var e := StopsAt(s, leaves, n);
      && (e < |leaves.keys| ==> Get(s, leaves.keys[e]) == [])
      && forall i :: n <= i < e ==> Get(s, leaves.keys[i]) != []
    decreases |leaves.keys| - n
  {
    if n < |leaves.keys| && Get(s, leaves.keys[n]) != [] {
      StopsAtEnd(s, leaves, n + 1);
    }
  }

  lemma LeaveKeyAt(s: Synced, h: string, left: seq<Presence>, k: string)
    ensures var r := LeaveKey(s, h, left).state;
      && Get(r, k) == (if k == h then Keep(Get(s.state, h), RefsOf(left)) else Get(s.state, k))
      && (k in r.vals <==> if k == h then Get(r, k) != [] else k in s.state.vals)
  {
  }

  /** One turn of the leave loop: the keys still to come are as they were. */
  lemma LeavesTurn(s: Synced, leaves: State, n: nat)
    requires leaves.Wf() && n < |leaves.keys| && Get(s.state, leaves.keys[n]) != []
    ensures leaves.keys[n] in leaves.vals
    ensures var k := leaves.keys[n];
      var next := LeaveKey(s, k, leaves.vals[k]);
      && Leaves(s, leaves, n) == Leaves(next, leaves, n + 1)
      && StopsAt(s.state, leaves, n) == StopsAt(next.state, leaves, n + 1)
  {
    var h := leaves.keys[n];
    var next := LeaveKey(s, h, leaves.vals[h]);
    forall i | n < i < |leaves.keys| ensures Get(s.state, leaves.keys[i]) == Get(next.state, leaves.keys[i]) {
      LeaveKeyAt(s, h, leaves.vals[h], leaves.keys[i]);
    }
    StopsAtFrame(s.state, next.state, leaves, n + 1);
  }

  lemma LeavesEnd(s: Synced, leaves: State, n: nat)
    requires leaves.Wf() && n <= |leaves.keys| && (n == |leaves.keys| || Get(s.state, leaves.keys[n]) == [])
    ensures Leaves(s, leaves, n) == s
  {
  }

  lemma {:induction false} LeavesFrame(s: Synced, leaves: State, n: nat, k: string)
    requires leaves.Wf() && n <= |leaves.keys|
    requires forall i :: n <= i < StopsAt(s.state, leaves, n) ==> leaves.keys[i] != k
    ensures var r := Leaves(s, leaves, n).state;
      Get(r, k) == Get(s.state, k) && (k in r.vals <==> k in s.state.vals)
    decreases |leaves.keys| - n
  {
    if n < |leaves.keys| && Get(s.state, leaves.keys[n]) != [] {
      var h := leaves.keys[n];
      LeavesTurn(s, leaves, n);
      LeaveKeyAt(s, h, leaves.vals[h], k);
      LeavesFrame(LeaveKey(s, h, leaves.vals[h]), leaves, n + 1, k);
    }
  }

  lemma {:induction false} LeavesHit(s: Synced, leaves: State, n: nat, i: nat)
    requires leaves.Wf() && n <= i < |leaves.keys| && i < StopsAt(s.state, leaves, n)
    ensures var r := Leaves(s, leaves, n).state; var k := leaves.keys[i];
      && Get(r, k) == Keep(Get(s.state, k), RefsOf(leaves.vals[k]))
      && (k in r.vals <==> Get(r, k) != [])
    decreases |leaves.keys| - n
  {
    var h := leaves.keys[n];
    var next := LeaveKey(s, h, leaves.vals[h]);
    LeavesTurn(s, leaves, n);
    LeaveKeyAt(s, h, leaves.vals[h], leaves.keys[i]);
    if n == i {
      LeavesFrame(next, leaves, n + 1, h);
    } else {
      LeavesHit(next, leaves, n + 1, i);
    }
  }

  /** The leave loop gets to the key. */
  ghost predicate Reached(s: State, leaves: State, k: string)
    requires leaves.Wf()
  {
    exists i :: 0 <= i < StopsAt(s, leaves, 0) && leaves.keys[i] == k
  }

  lemma LeavesAt(s: Synced, leaves: State, k: string)
    requires leaves.Wf()
    ensures var r := Leaves(s, leaves, 0).state;
      if Reached(s.state, leaves, k) then
        && Get(r, k) == Keep(Get(s.state, k), RefsOf(Get(leaves, k)))
        && (k in r.vals <==> Get(r, k) != [])
      else
        Get(r, k) == Get(s.state, k) && (k in r.vals <==> k in s.state.vals)
  {
    if Reached(s.state, leaves, k) {
      var i :| 0 <= i < StopsAt(s.state, leaves, 0) && leaves.keys[i] == k;
      LeavesHit(s, leaves, 0, i);
    } else {
      LeavesFrame(s, leaves, 0, k);
    }
  }

  // ---------- Main results ----------

  /** The list a key should hold after a diff: old survivors in order, then the joined presences that stay. */
  function Net(s: State, joins: State, leaves: State, k: string): seq<Presence> {
    Keep(Get(s, k), RefsOf(Get(joins, k)) + RefsOf(Get(leaves, k))) + Keep(Get(joins, k), RefsOf(Get(leaves, k)))
  }

  lemma NetIsMergedMinusLeft(s: State, joins: State, leaves: State, k: string)
    ensures Net(s, joins, leaves, k) == Keep(Merged(s, joins, k), RefsOf(Get(leaves, k)))
    ensures RefsOf(Net(s, joins, leaves, k))
         == (RefsOf(Get(s, k)) + RefsOf(Get(joins, k))) - RefsOf(Get(leaves, k))
  {
    var j, l := RefsOf(Get(joins, k)), RefsOf(Get(leaves, k));
    MergeIsKeep(Get(s, k), Get(joins, k));
    KeepConcat(Keep(Get(s, k), j), Get(joins, k), l);
    KeepTwice(Get(s, k), j, l);
    if k !in joins.vals {
      assert j == {} && j + l == l;
      assert Merge(Get(s, k), []) == Get(s, k) by { KeepAll(Get(s, k), {}); }
    }
    KeepRefs(Merged(s, joins, k), l);
  }

  /** The state between the two loops. */
  function Mid(s: Synced, joins: State): State
    requires joins.Wf()
  {
    Joins(s, joins, 0).state
  }

  /** A key that holds no presences after the joins: untracked, or tracked with an empty list. */
  predicate Vacant(s: State, joins: State, k: string) {
    Get(s, k) == [] && Get(joins, k) == []
  }

  lemma MidAt(s: Synced, joins: State, k: string)
    requires joins.Wf()
    ensures Get(Mid(s, joins), k) == Merged(s.state, joins, k)
    ensures RefsOf(Get(Mid(s, joins), k)) == RefsOf(Get(s.state, k)) + RefsOf(Get(joins, k))
    ensures Get(Mid(s, joins), k) == [] <==> Vacant(s.state, joins, k)
    ensures k in Mid(s, joins).vals <==> k in s.state.vals || k in joins.vals
  {
    JoinsAt(s, joins, k);
    MergeIsKeep(Get(s.state, k), Get(joins, k));
    assert RefsOf([]) == {};
    NoRefs(Get(Mid(s, joins), k));
    NoRefs(Get(s.state, k));
    NoRefs(Get(joins, k));
  }

  /** The leave loop runs to its end exactly when none of its keys is vacant; else it stops at the first that is. */
  lemma ExitsAtVacant(s: Synced, joins: State, leaves: State)
    requires joins.Wf() && leaves.Wf()
    ensures var e := StopsAt(Mid(s, joins), leaves, 0);
      && (e < |leaves.keys| ==> Vacant(s.state, joins, leaves.keys[e]))
      && forall i :: 0 <= i < e ==> !Vacant(s.state, joins, leaves.keys[i])
    ensures StopsAt(Mid(s, joins), leaves, 0) == |leaves.keys|
      <==> forall k :: k in leaves.vals ==> !Vacant(s.state, joins, k)
  {
    var e := StopsAt(Mid(s, joins), leaves, 0);
    StopsAtEnd(Mid(s, joins), leaves, 0);
    forall i | 0 <= i < |leaves.keys|
      ensures Get(Mid(s, joins), leaves.keys[i]) == [] <==> Vacant(s.state, joins, leaves.keys[i]) {
      MidAt(s, joins, leaves.keys[i]);
    }
    if e < |leaves.keys| {
      assert leaves.keys[e] in leaves.vals;
    }
  }

  lemma TrackedIsNotVacant(s: State, joins: State, k: string)
    requires NonEmpty(s) && NonEmpty(joins) && (k in s.vals || k in joins.vals)
    ensures !Vacant(s, joins, k)
  {
  }

  /** With non-empty lists and leaves of tracked keys the early exit is never taken. */
  lemma AllTracked(s: Synced, joins: State, leaves: State)
    requires joins.Wf() && leaves.Wf() && NonEmpty(s.state) && NonEmpty(joins)
    requires leaves.vals.Keys <= s.state.vals.Keys + joins.vals.Keys
    ensures forall k :: k in leaves.vals ==> !Vacant(s.state, joins, k)
    ensures StopsAt(Mid(s, joins), leaves, 0) == |leaves.keys|
  {
    forall k | k in leaves.vals ensures !Vacant(s.state, joins, k) {
      assert k in leaves.vals.Keys;
      TrackedIsNotVacant(s.state, joins, k);
    }
    ExitsAtVacant(s, joins, leaves);
  }

  /** One key of a diff none of whose leaves is vacant: the exact list, and whether the key stays. */
  lemma DiffAt(s: Synced, joins: State, leaves: State, k: string)
    requires joins.Wf() && leaves.Wf()
    requires forall h :: h in leaves.vals ==> !Vacant(s.state, joins, h)
    ensures var r := SyncDiff(s, joins, leaves).state;
      && Get(r, k) == Net(s.state, joins, leaves, k)
      && (k in r.vals <==> if k in leaves.vals then Get(r, k) != [] else k in s.state.vals || k in joins.vals)
  {
    ExitsAtVacant(s, joins, leaves);
    MidAt(s, joins, k);
    LeavesAt(Joins(s, joins, 0), leaves, k);
    if k in leaves.vals {
      var i :| 0 <= i < |leaves.keys| && leaves.keys[i] == k;
      assert Reached(Mid(s, joins), leaves, k);
    }
    NetIsMergedMinusLeft(s.state, joins, leaves, k);
    KeepAll(Get(Mid(s, joins), k), {});
    assert RefsOf([]) == {};
  }

  lemma AbsAt(s: State, k: string)
    ensures RefsAt(Abs(s), k) == RefsOf(Get(s, k))
  {
    assert RefsOf([]) == {};
  }

  lemma SpecAt(s: State, joins: State, leaves: State, k: string)
    ensures var spec := ApplyDiff(Abs(s), Abs(joins), Abs(leaves));
      var refs := RefsOf(Get(s, k)) + RefsOf(Get(joins, k)) - RefsOf(Get(leaves, k));
      (k in spec <==> refs != {}) && (k in spec ==> spec[k] == refs) && RefsAt(spec, k) == refs
  {
    AbsAt(s, k); AbsAt(joins, k); AbsAt(leaves, k);
  }

  lemma AbsIs(r: State, m: RefMap)
    requires forall k :: k in r.vals <==> k in m
    requires forall k :: k in r.vals ==> RefsOf(r.vals[k]) == m[k]
    ensures Abs(r) == m
  {
  }

  lemma AbsOfLists(s: State, joins: State, leaves: State, r: State)
    requires forall k :: RefsOf(Get(r, k)) == RefsOf(Get(s, k)) + RefsOf(Get(joins, k)) - RefsOf(Get(leaves, k))
    requires forall k :: k in r.vals <==> Get(r, k) != []
    ensures Abs(r) == ApplyDiff(Abs(s), Abs(joins), Abs(leaves))
  {
    var spec := ApplyDiff(Abs(s), Abs(joins), Abs(leaves));
    forall k ensures k in r.vals <==> k in spec
             ensures k in r.vals ==> RefsOf(r.vals[k]) == spec[k] {
      assert RefsOf(Get(r, k)) == RefsOf(Get(s, k)) + RefsOf(Get(joins, k)) - RefsOf(Get(leaves, k));
      SpecAt(s, joins, leaves, k);
      NoRefs(Get(r, k));
    }
    AbsIs(r, spec);
  }

  lemma NetUnique(s: State, joins: State, leaves: State, k: string)
    requires UniqueRefs(Get(s, k)) && UniqueRefs(Get(joins, k))
    ensures UniqueRefs(Net(s, joins, leaves, k))
  {
    var j, l := RefsOf(Get(joins, k)), RefsOf(Get(leaves, k));
    KeepUnique(Get(s, k), j + l);
    KeepUnique(Get(joins, k), l);
    KeepRefs(Get(s, k), j + l);
    KeepRefs(Get(joins, k), l);
    var a, b := Keep(Get(s, k), j + l), Keep(Get(joins, k), l);
    forall i, i' | 0 <= i < |a| && 0 <= i' < |b| ensures a[i].ref != b[i'].ref {
      assert a[i] in a && b[i'] in b;
      assert b[i'].ref in j;
    }
  }

  /** Leaves of keys that hold presences after the joins: the exact list of every key, and unique refs stay so. */
  lemma DiffLists(s: Synced, joins: State, leaves: State)
    requires joins.Wf() && leaves.Wf()
    requires forall k :: k in leaves.vals ==> !Vacant(s.state, joins, k)
    ensures var r := SyncDiff(s, joins, leaves).state;
      && (forall k :: Get(r, k) == Net(s.state, joins, leaves, k))
      && (forall k :: UniqueRefs(Get(s.state, k)) && UniqueRefs(Get(joins, k)) ==> UniqueRefs(Get(r, k)))
  {
    var r := SyncDiff(s, joins, leaves).state;
    forall k ensures Get(r, k) == Net(s.state, joins, leaves, k) {
      DiffAt(s, joins, leaves, k);
    }
    forall k | UniqueRefs(Get(s.state, k)) && UniqueRefs(Get(joins, k)) ensures UniqueRefs(Get(r, k)) {
      NetUnique(s.state, joins, leaves, k);
    }
  }

  /** One key of any diff: whether the leave loop reached it decides what it loses and whether it is dropped. */
  lemma AnyDiffAt(s: Synced, joins: State, leaves: State, k: string)
    requires joins.Wf() && leaves.Wf()
    ensures var r := SyncDiff(s, joins, leaves).state;
      var refs := RefsOf(Get(s.state, k)) + RefsOf(Get(joins, k));
      if Reached(Mid(s, joins), leaves, k) then
        && RefsOf(Get(r, k)) == refs - RefsOf(Get(leaves, k))
        && (k in r.vals <==> Get(r, k) != [])
      else
        && RefsOf(Get(r, k)) == refs
        && (k in r.vals <==> k in s.state.vals || k in joins.vals)
  {
    MidAt(s, joins, k);
    LeavesAt(Joins(s, joins, 0), leaves, k);
    KeepRefs(Get(Mid(s, joins), k), RefsOf(Get(leaves, k)));
  }

  lemma NonEmptyDiffAt(s: Synced, joins: State, leaves: State, k: string)
    requires joins.Wf() && leaves.Wf() && NonEmpty(s.state) && NonEmpty(joins)
    requires forall h :: h in leaves.vals ==> !Vacant(s.state, joins, h)
    ensures var r := SyncDiff(s, joins, leaves).state;
      Get(r, k) == Net(s.state, joins, leaves, k) && (k in r.vals <==> Get(r, k) != [])
  {
    DiffAt(s, joins, leaves, k);
    AnyDiffAt(s, joins, leaves, k);
    NoRefs(Get(SyncDiff(s, joins, leaves).state, k));
    NoRefs(Get(s.state, k));
    NoRefs(Get(joins, k));
    assert RefsOf([]) == {};
  }

  /** Non-empty joins and leaves of keys tracked after them: the exact lists, and only those keys. */
  lemma DiffSemantics(s: Synced, joins: State, leaves: State)
    requires joins.Wf() && leaves.Wf() && NonEmpty(s.state) && NonEmpty(joins)
    requires leaves.vals.Keys <= s.state.vals.Keys + joins.vals.Keys
    ensures var r := SyncDiff(s, joins, leaves).state;
      && NonEmpty(r)
      && (forall k :: Get(r, k) == Net(s.state, joins, leaves, k))
      && Abs(r) == ApplyDiff(Abs(s.state), Abs(joins), Abs(leaves))
      && (forall k :: UniqueRefs(Get(s.state, k)) && UniqueRefs(Get(joins, k)) ==> UniqueRefs(Get(r, k)))
  {
    var r := SyncDiff(s, joins, leaves).state;
    AllTracked(s, joins, leaves);
    DiffLists(s, joins, leaves);
    forall k ensures k in r.vals <==> Get(r, k) != []
             ensures RefsOf(Get(r, k)) == RefsOf(Get(s.state, k)) + RefsOf(Get(joins, k)) - RefsOf(Get(leaves, k)) {
      NonEmptyDiffAt(s, joins, leaves, k);
      NetIsMergedMinusLeft(s.state, joins, leaves, k);
    }
    AbsOfLists(s.state, joins, leaves, r);
  }

  // ---------- Any diff ----------

  /** A leave that comes after one of a vacant key has nothing to remove. */
  ghost predicate NothingMissed(s: State, joins: State, leaves: State)
    requires leaves.Wf()
  {
    forall i, j :: 0 <= i < j < |leaves.keys| && Vacant(s, joins, leaves.keys[i])
      ==> NoneLeft(s, joins, leaves, leaves.keys[j])
  }

  ghost predicate NoneLeft(s: State, joins: State, leaves: State, k: string) {
    RefsOf(Get(s, k)) + RefsOf(Get(joins, k)) !! RefsOf(Get(leaves, k))
  }

  /** The refs that a key should hold after a diff. */
  ghost predicate RefsMeetSpec(r: State, s: State, joins: State, leaves: State, k: string) {
    RefsOf(Get(r, k)) == RefsOf(Get(s, k)) + RefsOf(Get(joins, k)) - RefsOf(Get(leaves, k))
  }

  lemma UnreachedPosition(mid: State, leaves: State, k: string) returns (j: nat)
    requires leaves.Wf() && k in leaves.vals && !Reached(mid, leaves, k)
    ensures StopsAt(mid, leaves, 0) <= j < |leaves.keys| && leaves.keys[j] == k
  {
    j :| 0 <= j < |leaves.keys| && leaves.keys[j] == k;
  }

  lemma UnreachedHasNothing(s: Synced, joins: State, leaves: State, k: string)
    requires joins.Wf() && leaves.Wf()
    requires NothingMissed(s.state, joins, leaves) && k in leaves.vals && !Reached(Mid(s, joins), leaves, k)
    ensures NoneLeft(s.state, joins, leaves, k)
  {
    var j := UnreachedPosition(Mid(s, joins), leaves, k);
    ExitsAtVacant(s, joins, leaves);
    assert RefsOf([]) == {};
  }

  lemma NotMissedAt(s: Synced, joins: State, leaves: State, k: string)
    requires joins.Wf() && leaves.Wf() && NothingMissed(s.state, joins, leaves)
    ensures RefsMeetSpec(SyncDiff(s, joins, leaves).state, s.state, joins, leaves, k)
  {
    AnyDiffAt(s, joins, leaves, k);
    assert RefsOf([]) == {};
    if k in leaves.vals && !Reached(Mid(s, joins), leaves, k) {
      UnreachedHasNothing(s, joins, leaves, k);
    }
  }

  lemma MissedAt(s: Synced, joins: State, leaves: State, i: nat, j: nat)
    requires joins.Wf() && leaves.Wf()
    requires i < j < |leaves.keys| && Vacant(s.state, joins, leaves.keys[i])
    requires !NoneLeft(s.state, joins, leaves, leaves.keys[j])
    ensures !RefsMeetSpec(SyncDiff(s, joins, leaves).state, s.state, joins, leaves, leaves.keys[j])
  {
    var k := leaves.keys[j];
    ExitsAtVacant(s, joins, leaves);
    assert !Reached(Mid(s, joins), leaves, k);
    AnyDiffAt(s, joins, leaves, k);
    var x :| x in RefsOf(Get(s.state, k)) + RefsOf(Get(joins, k)) && x in RefsOf(Get(leaves, k));
    assert x in RefsOf(Get(SyncDiff(s, joins, leaves).state, k));
  }

  /** Any diff on any state: every key ends with the intended refs exactly when the early exit misses nothing. */
  lemma DiffMeetsSpecIff(s: Synced, joins: State, leaves: State)
    requires joins.Wf() && leaves.Wf()
    ensures (forall k :: RefsMeetSpec(SyncDiff(s, joins, leaves).state, s.state, joins, leaves, k))
      <==> NothingMissed(s.state, joins, leaves)
  {
    if NothingMissed(s.state, joins, leaves) {
      forall k ensures RefsMeetSpec(SyncDiff(s, joins, leaves).state, s.state, joins, leaves, k) {
        NotMissedAt(s, joins, leaves, k);
      }
    } else {
      var i, j :| 0 <= i < j < |leaves.keys| && Vacant(s.state, joins, leaves.keys[i])
        && !NoneLeft(s.state, joins, leaves, leaves.keys[j]);
      MissedAt(s, joins, leaves, i, j);
    }
  }

  /** No tracked key holds an empty list after the joins. */
  ghost predicate NoneVacant(s: State, joins: State) {
    forall k :: k in s.vals || k in joins.vals ==> !Vacant(s, joins, k)
  }

  lemma VacantStays(s: Synced, joins: State, leaves: State, k: string)
    requires joins.Wf() && leaves.Wf() && Vacant(s.state, joins, k)
    ensures !Reached(Mid(s, joins), leaves, k)
    ensures k in SyncDiff(s, joins, leaves).state.vals <==> k in s.state.vals || k in joins.vals
  {
    ExitsAtVacant(s, joins, leaves);
    AnyDiffAt(s, joins, leaves, k);
  }

  lemma KeysMeetSpecAt(s: Synced, joins: State, leaves: State, k: string)
    requires joins.Wf() && leaves.Wf() && NoneVacant(s.state, joins)
    ensures var r := SyncDiff(s, joins, leaves).state; k in r.vals <==> Get(r, k) != []
  {
    var r := SyncDiff(s, joins, leaves).state;
    AnyDiffAt(s, joins, leaves, k);
    NoRefs(Get(r, k));
    NoRefs(Get(s.state, k));
    NoRefs(Get(joins, k));
  }

  /** And the keys are the intended ones too exactly when besides no empty list is stored after the joins. */
  lemma DiffMeetsMapIff(s: Synced, joins: State, leaves: State)
    requires joins.Wf() && leaves.Wf()
    ensures Abs(SyncDiff(s, joins, leaves).state) == ApplyDiff(Abs(s.state), Abs(joins), Abs(leaves))
      <==> NothingMissed(s.state, joins, leaves) && NoneVacant(s.state, joins)
  {
    var r := SyncDiff(s, joins, leaves).state;
    DiffMeetsSpecIff(s, joins, leaves);
    if NothingMissed(s.state, joins, leaves) && NoneVacant(s.state, joins) {
      forall k ensures RefsOf(Get(r, k)) == RefsOf(Get(s.state, k)) + RefsOf(Get(joins, k)) - RefsOf(Get(leaves, k))
               ensures k in r.vals <==> Get(r, k) != [] {
        assert RefsMeetSpec(r, s.state, joins, leaves, k);
        KeysMeetSpecAt(s, joins, leaves, k);
      }
      AbsOfLists(s.state, joins, leaves, r);
    } else if !NoneVacant(s.state, joins) {
      var k :| (k in s.state.vals || k in joins.vals) && Vacant(s.state, joins, k);
      VacantStays(s, joins, leaves, k);
      SpecAt(s.state, joins, leaves, k);
      assert RefsOf([]) == {};
      assert k in Abs(r) && k !in ApplyDiff(Abs(s.state), Abs(joins), Abs(leaves));
    } else {
      var k :| !RefsMeetSpec(r, s.state, joins, leaves, k);
      SpecAt(s.state, joins, leaves, k);
      AbsAt(r, k);
    }
  }

  /** The early exit at work: a leave of an untracked key hides the leave of a tracked one, and its presence stays. */
  lemma EarlyExitMissesLeave(p: Presence, q: Presence, log: seq<Call>)
    ensures var here: State := Dict(["b"], map["b" := [p]]);
      var none: State := Dict([], map[]);
      var leaves: State := Dict(["a", "b"], map["a" := [q], "b" := [p]]);
      && SyncDiff(Synced(here, log), none, leaves) == Synced(here, log)
      && ApplyDiff(Abs(here), Abs(none), Abs(leaves)) == map[]
  {
    var here: State := Dict(["b"], map["b" := [p]]);
    var none: State := Dict([], map[]);
    var leaves: State := Dict(["a", "b"], map["a" := [q], "b" := [p]]);
    assert Get(here, "a") == [];
    forall k ensures k !in ApplyDiff(Abs(here), Abs(none), Abs(leaves)) {
      AbsAt(here, k); AbsAt(none, k); AbsAt(leaves, k);
      assert RefsOf([]) == {};
    }
  }

  /** So does a leave of a tracked key whose list is empty. */
  lemma EmptyListHidesLeave(p: Presence, log: seq<Call>)
    ensures var here: State := Dict(["a", "b"], map["a" := [], "b" := [p]]);
      var none: State := Dict([], map[]);
      && SyncDiff(Synced(here, log), none, here) == Synced(here, log)
      && ApplyDiff(Abs(here), Abs(none), Abs(here)) == map[]
  {
    var here: State := Dict(["a", "b"], map["a" := [], "b" := [p]]);
    var none: State := Dict([], map[]);
    assert Get(here, "a") == [];
    forall k ensures k !in ApplyDiff(Abs(here), Abs(none), Abs(here)) {
      SpecAt(here, none, here, k);
    }
  }
}
