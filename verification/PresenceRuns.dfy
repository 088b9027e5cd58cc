/** Whole histories: convergence to the server, and the callback log as a change log. */
module PresenceRuns {
  import opened PresenceSpec
  import opened PresenceDiff
  import opened PresenceSnapshot

  // ---------- Convergence ----------

  ghost predicate NonEmptyEvent(e: Event) {
    match e
    case StateEvent(snapshot) => NonEmpty(snapshot)
    case DiffEvent(joins, _) => NonEmpty(joins)
  }

  /** What the server holds before and after it emits a message. */
  ghost predicate ServerStep(before: RefMap, e: Event, after: RefMap) {
    match e
    case StateEvent(snapshot) => after == before && Abs(snapshot) == before
    case DiffEvent(joins, leaves) =>
      && leaves.vals.Keys <= before.Keys + joins.vals.Keys
      && after == ApplyDiff(before, Abs(joins), Abs(leaves))
  }

  ghost predicate ServerHistory(servers: seq<RefMap>, events: seq<Event>) {
    && |servers| == |events| + 1
    && forall i :: 0 <= i < |events| ==>
         events[i].Wf() && NonEmptyEvent(events[i]) && ServerStep(servers[i], events[i], servers[i + 1])
  }

  lemma HandleKeepsNonEmpty(s: Synced, e: Event)
    requires s.state.Wf() && e.Wf() && NonEmpty(s.state) && NonEmptyEvent(e)
    ensures NonEmpty(Handle(s, e).state)
  {
    match e
    case StateEvent(snapshot) => SnapshotRefinesReplacement(s, snapshot);
    case DiffEvent(joins, leaves) =>
      forall k ensures var r := SyncDiff(s, joins, leaves).state; k in r.vals <==> Get(r, k) != [] {
        KeysMeetSpecAt(s, joins, leaves, k);
      }
  }

  lemma HandleFollowsServer(s: Synced, e: Event, before: RefMap, after: RefMap)
    requires s.state.Wf() && e.Wf() && NonEmpty(s.state) && NonEmptyEvent(e)
    requires ServerStep(before, e, after)
    requires e.StateEvent? || Abs(s.state) == before
    ensures Abs(Handle(s, e).state) == after
  {
    match e
    case StateEvent(snapshot) => SnapshotRefinesReplacement(s, snapshot);
    case DiffEvent(joins, leaves) => DiffSemantics(s, joins, leaves);
  }

  ghost predicate SawSnapshot(events: seq<Event>) {
    exists i :: 0 <= i < |events| && events[i].StateEvent?
  }

  lemma SnapshotSeenBefore(events: seq<Event>)
    requires SawSnapshot(events)
    ensures events[|events| - 1].StateEvent? || SawSnapshot(events[..|events| - 1])
  {
    var i :| 0 <= i < |events| && events[i].StateEvent?;
    if i < |events| - 1 {
      assert events[..|events| - 1][i].StateEvent?;
    }
  }

  lemma ServerPrefix(servers: seq<RefMap>, events: seq<Event>, n: nat)
    requires ServerHistory(servers, events) && n <= |events|
    ensures ServerHistory(servers[..n + 1], events[..n])
  {
    forall i | 0 <= i < n ensures ServerStep(servers[..n + 1][i], events[..n][i], servers[..n + 1][i + 1]) {
      assert ServerStep(servers[i], events[i], servers[i + 1]);
    }
  }

  /**
   * After every message of every history: once in step or once given a snapshot, the client holds what the server
   * holds.
   */
  lemma {:induction false} Converges(s: Synced, servers: seq<RefMap>, events: seq<Event>)
    requires s.state.Wf() && NonEmpty(s.state) && ServerHistory(servers, events)
    ensures NonEmpty(Run(s, events).state)
    ensures Abs(s.state) == servers[0] || SawSnapshot(events)
            ==> Abs(Run(s, events).state) == servers[|events|]
    decreases |events|
  {
    if events != [] {
      var n := |events| - 1;
      var e, before := events[n], Run(s, events[..n]);
      ServerPrefix(servers, events, n);
      Converges(s, servers[..n + 1], events[..n]);
      HandleKeepsNonEmpty(before, e);
      if SawSnapshot(events) {
        SnapshotSeenBefore(events);
      }
      if e.StateEvent? || Abs(before.state) == servers[n] {
        HandleFollowsServer(before, e, servers[n], servers[n + 1]);
      }
    }
  }

  // ---------- The callback log replays the changes ----------

  function ReplayCall(m: RefMap, c: Call): RefMap {
    match c
    case OnJoin(k, _, joined) => m[k := RefsAt(m, k) + RefsOf(joined)]
    case OnLeave(k, _, left) =>
      var rest := RefsAt(m, k) - RefsOf(left);
      if rest == {} then m - {k} else m[k := rest]
    case OnSync => m
  }

  /** A call's "current" list agrees with the replayed state: before a join, after a leave. */
  ghost predicate Agrees(m: RefMap, c: Call) {
    match c
    case OnJoin(k, current, _) => RefsOf(current) == RefsAt(m, k)
    case OnLeave(k, current, left) => RefsOf(current) == RefsAt(m, k) - RefsOf(left)
    case OnSync => true
  }

  /** Replaying the calls over m gives m', and every call agrees with the state it was made in. */
  ghost predicate Replays(m: RefMap, calls: seq<Call>, m': RefMap)
    decreases |calls|
  {
    if calls == [] then m == m'
    else Agrees(m, calls[0]) && Replays(ReplayCall(m, calls[0]), calls[1..], m')
  }

  lemma {:induction false} ReplaysConcat(m: RefMap, a: seq<Call>, m': RefMap, b: seq<Call>, m'': RefMap)
    requires Replays(m, a, m') && Replays(m', b, m'')
    ensures Replays(m, a + b, m'')
    decreases |a|
  {
    if a == [] {
      assert a + b == b;
    } else {
      ReplaysConcat(ReplayCall(m, a[0]), a[1..], m', b, m'');
      assert (a + b)[1..] == a[1..] + b;
    }
  }

  /** From one synchronisation state to a later one, the log grew by calls that replay the change. */
  ghost predicate Logged(s: Synced, r: Synced) {
    && s.log <= r.log
    && Replays(Abs(s.state), r.log[|s.log|..], Abs(r.state))
  }

  lemma LoggedTrans(s: Synced, t: Synced, r: Synced)
    requires Logged(s, t) && Logged(t, r)
    ensures Logged(s, r)
  {
    var a, b := t.log[|s.log|..], r.log[|t.log|..];
    assert r.log[|s.log|..] == a + b;
    ReplaysConcat(Abs(s.state), a, Abs(t.state), b, Abs(r.state));
  }

  lemma LoggedCall(s: Synced, c: Call, state: State)
    requires Agrees(Abs(s.state), c) && ReplayCall(Abs(s.state), c) == Abs(state)
    ensures Logged(s, Synced(state, s.log + [c]))
  {
    assert (s.log + [c])[|s.log|..] == [c];
    assert Replays(ReplayCall(Abs(s.state), c), [c][1..], Abs(state));
  }

  lemma JoinKeyLogged(s: Synced, k: string, joined: seq<Presence>)
    ensures Logged(s, JoinKey(s, k, joined))
  {
    var r := JoinKey(s, k, joined);
    var c := OnJoin(k, Get(s.state, k), joined);
    AbsAt(s.state, k);
    MergeIsKeep(Get(s.state, k), joined);
    assert ReplayCall(Abs(s.state), c) == Abs(r.state);
    LoggedCall(s, c, r.state);
  }

  lemma LeaveKeyLogged(s: Synced, k: string, left: seq<Presence>)
    ensures Logged(s, LeaveKey(s, k, left))
  {
    var r := LeaveKey(s, k, left);
    var rest := Keep(Get(s.state, k), RefsOf(left));
    var c := OnLeave(k, rest, left);
    AbsAt(s.state, k);
    KeepRefs(Get(s.state, k), RefsOf(left));
    NoRefs(rest);
    assert ReplayCall(Abs(s.state), c) == Abs(r.state);
    LoggedCall(s, c, r.state);
  }

  lemma LoggedRefl(s: Synced)
    ensures Logged(s, s)
  {
    assert s.log[|s.log|..] == [];
  }

  lemma {:induction false} JoinsLogged(s: Synced, joins: State, n: nat)
    requires joins.Wf() && n <= |joins.keys|
    ensures Logged(s, Joins(s, joins, n))
    decreases |joins.keys| - n
  {
    if n == |joins.keys| {
      LoggedRefl(s);
    } else {
      var k := joins.keys[n];
      var next := JoinKey(s, k, joins.vals[k]);
      JoinKeyLogged(s, k, joins.vals[k]);
      JoinsLogged(next, joins, n + 1);
      LoggedTrans(s, next, Joins(s, joins, n));
    }
  }

  lemma {:induction false} LeavesLogged(s: Synced, leaves: State, n: nat)
    requires leaves.Wf() && n <= |leaves.keys|
    ensures Logged(s, Leaves(s, leaves, n))
    decreases |leaves.keys| - n
  {
    if n == |leaves.keys| || Get(s.state, leaves.keys[n]) == [] {
      LoggedRefl(s);
    } else {
      var k := leaves.keys[n];
      var next := LeaveKey(s, k, leaves.vals[k]);
      LeaveKeyLogged(s, k, leaves.vals[k]);
      LeavesLogged(next, leaves, n + 1);
      LoggedTrans(s, next, Leaves(s, leaves, n));
    }
  }

  lemma SyncDiffLogged(s: Synced, joins: State, leaves: State)
    requires joins.Wf() && leaves.Wf()
    ensures Logged(s, SyncDiff(s, joins, leaves))
  {
    JoinsLogged(s, joins, 0);
    LeavesLogged(Joins(s, joins, 0), leaves, 0);
    LoggedTrans(s, Joins(s, joins, 0), SyncDiff(s, joins, leaves));
  }

  lemma HandleLogged(s: Synced, e: Event)
    requires s.state.Wf() && e.Wf()
    ensures Logged(s, Handle(s, e))
  {
    var r := match e
      case StateEvent(snapshot) => SyncState(s, snapshot)
      case DiffEvent(joins, leaves) => SyncDiff(s, joins, leaves);
    match e {
      case StateEvent(snapshot) =>
        var d := SnapshotDiff(s.state, snapshot);
        SyncDiffLogged(s, d.joins, d.leaves);
      case DiffEvent(joins, leaves) => SyncDiffLogged(s, joins, leaves);
    }
    LoggedCall(r, OnSync, r.state);
    LoggedTrans(s, r, Handle(s, e));
  }

  /** Any history of messages, whatever they hold: the log replays the initial refs into the final ones. */
  lemma {:induction false} LogIsChangeLog(s: Synced, events: seq<Event>)
    requires s.state.Wf() && forall i :: 0 <= i < |events| ==> events[i].Wf()
    ensures Logged(s, Run(s, events))
    decreases |events|
  {
    if events == [] {
      LoggedRefl(s);
    } else {
      var n := |events| - 1;
      LogIsChangeLog(s, events[..n]);
      HandleLogged(Run(s, events[..n]), events[n]);
      LoggedTrans(s, Run(s, events[..n]), Run(s, events));
    }
  }

  // ---------- One snapshot reports every change once ----------

  /** The call reports ref r at key k, as joined or as left. */
  predicate Reports(c: Call, joining: bool, k: string, r: string) {
    if joining then c.OnJoin? && c.key == k && r in RefsOf(c.joined)
    else c.OnLeave? && c.key == k && r in RefsOf(c.left)
  }

  function Count(log: seq<Call>, joining: bool, k: string, r: string): nat {
    if log == [] then 0
    else Count(log[..|log| - 1], joining, k, r) + if Reports(log[|log| - 1], joining, k, r) then 1 else 0
  }

  lemma CountCall(log: seq<Call>, c: Call, joining: bool, k: string, r: string)
    ensures Count(log + [c], joining, k, r) == Count(log, joining, k, r) + if Reports(c, joining, k, r) then 1 else 0
  {
    assert (log + [c])[..|log|] == log;
  }

  lemma {:induction false} JoinsCountFrame(s: Synced, joins: State, n: nat, joining: bool, k: string, r: string)
    requires joins.Wf() && n <= |joins.keys|
    requires joining ==> forall i :: n <= i < |joins.keys| ==> joins.keys[i] != k
    ensures Count(Joins(s, joins, n).log, joining, k, r) == Count(s.log, joining, k, r)
    decreases |joins.keys| - n
  {
    if n < |joins.keys| {
      var h := joins.keys[n];
      CountCall(s.log, OnJoin(h, Get(s.state, h), joins.vals[h]), joining, k, r);
      JoinsCountFrame(JoinKey(s, h, joins.vals[h]), joins, n + 1, joining, k, r);
    }
  }

  lemma {:induction false} JoinsCountHit(s: Synced, joins: State, n: nat, i: nat, r: string)
    requires joins.Wf() && n <= i < |joins.keys|
    ensures var k := joins.keys[i];
      Count(Joins(s, joins, n).log, true, k, r)
        == Count(s.log, true, k, r) + if r in RefsOf(joins.vals[k]) then 1 else 0
    decreases |joins.keys| - n
  {
    var h := joins.keys[n];
    var next := JoinKey(s, h, joins.vals[h]);
    CountCall(s.log, OnJoin(h, Get(s.state, h), joins.vals[h]), true, joins.keys[i], r);
    if n == i {
      JoinsCountFrame(next, joins, n + 1, true, h, r);
    } else {
      JoinsCountHit(next, joins, n + 1, i, r);
    }
  }

  lemma {:induction false} LeavesCountFrame(s: Synced, leaves: State, n: nat, joining: bool, k: string, r: string)
    requires leaves.Wf() && n <= |leaves.keys|
    requires !joining ==> forall i :: n <= i < |leaves.keys| ==> leaves.keys[i] != k
    ensures Count(Leaves(s, leaves, n).log, joining, k, r) == Count(s.log, joining, k, r)
    decreases |leaves.keys| - n
  {
    if n < |leaves.keys| && Get(s.state, leaves.keys[n]) != [] {
      var h := leaves.keys[n];
      var next := LeaveKey(s, h, leaves.vals[h]);
      CountCall(s.log, OnLeave(h, Keep(Get(s.state, h), RefsOf(leaves.vals[h])), leaves.vals[h]), joining, k, r);
      LeavesCountFrame(next, leaves, n + 1, joining, k, r);
    }
  }

  lemma {:induction false} LeavesCountHit(s: Synced, leaves: State, n: nat, i: nat, r: string)
    requires leaves.Wf() && n <= i < |leaves.keys| && i < StopsAt(s.state, leaves, n)
    ensures var k := leaves.keys[i];
      Count(Leaves(s, leaves, n).log, false, k, r)
        == Count(s.log, false, k, r) + if r in RefsOf(leaves.vals[k]) then 1 else 0
    decreases |leaves.keys| - n
  {
    var h := leaves.keys[n];
    var next := LeaveKey(s, h, leaves.vals[h]);
    var call := OnLeave(h, Keep(Get(s.state, h), RefsOf(leaves.vals[h])), leaves.vals[h]);
    CountCall(s.log, call, false, leaves.keys[i], r);
    if n == i {
      LeavesCountFrame(next, leaves, n + 1, false, h, r);
    } else {
      StopsAtFrame(s.state, next.state, leaves, n + 1);
      LeavesCountHit(next, leaves, n + 1, i, r);
    }
  }

  /** Any snapshot reports each newly present ref in exactly one join call, and no other ref as joined. */
  lemma SnapshotReportsJoinsOnce(s: Synced, new_: State, k: string, r: string)
    requires s.state.Wf() && new_.Wf()
    ensures Count(SyncState(s, new_).log, true, k, r)
         == Count(s.log, true, k, r) + if r in RefsOf(Get(new_, k)) - RefsOf(Get(s.state, k)) then 1 else 0
  {
    var d := SnapshotDiff(s.state, new_);
    AnyDeltaAt(s.state, new_, k);
    KeepRefs(Get(new_, k), RefsOf(Get(s.state, k)));
    LeavesCountFrame(Joins(s, d.joins, 0), d.leaves, 0, true, k, r);
    if k in d.joins.vals {
      var i :| 0 <= i < |d.joins.keys| && d.joins.keys[i] == k;
      JoinsCountHit(s, d.joins, 0, i, r);
    } else {
      JoinsCountFrame(s, d.joins, 0, true, k, r);
      assert RefsOf([]) == {};
    }
  }

  /**
   * A snapshot on a state without a blocking empty list reports each vanished ref in exactly one leave call, and no
   * other ref as left.
   */
  lemma SnapshotReportsLeavesOnce(s: Synced, new_: State, k: string, r: string)
    requires s.state.Wf() && new_.Wf() && forall h :: !Blocks(s.state, new_, h)
    ensures Count(SyncState(s, new_).log, false, k, r)
         == Count(s.log, false, k, r) + if r in RefsOf(Get(s.state, k)) - RefsOf(Get(new_, k)) then 1 else 0
  {
    var d := SnapshotDiff(s.state, new_);
    AnyDeltaAt(s.state, new_, k);
    KeepRefs(Get(s.state, k), RefsOf(Get(new_, k)));
    JoinsCountFrame(s, d.joins, 0, false, k, r);
    if k in d.leaves.vals {
      var i :| 0 <= i < |d.leaves.keys| && d.leaves.keys[i] == k;
      SnapshotLeavesReachedIff(s, new_);
      LeavesCountHit(Joins(s, d.joins, 0), d.leaves, 0, i, r);
    } else {
      LeavesCountFrame(Joins(s, d.joins, 0), d.leaves, 0, false, k, r);
      assert RefsOf([]) == {};
    }
  }
}
