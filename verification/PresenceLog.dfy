/** The exact calls that a message makes to the user's presence callbacks, in terms of what was stored before it. */
module PresenceLog {
  import opened PyDict
  import opened PresenceSpec
  import opened PresenceDiff
  import opened PresenceSnapshot

  // ---------- The calls of one diff ----------

  /** One join call per payload key from position n on, in payload order, with the list stored before the diff. */
  function JoinCalls(s: State, joins: State, n: nat): seq<Call>
    requires n <= |joins.keys|
    decreases |joins.keys| - n
  {
    if n == |joins.keys| then []
    else
      var k := joins.keys[n];
      [OnJoin(k, Get(s, k), Get(joins, k))] + JoinCalls(s, joins, n + 1)
  }

  /** One leave call per payload key from position n up to position e, with what the key is left with. */
  function LeaveCalls(mid: State, leaves: State, n: nat, e: nat): seq<Call>
    requires n <= e <= |leaves.keys|
    decreases e - n
  {
    if n == e then []
    else
      var k := leaves.keys[n];
      [OnLeave(k, Keep(Get(mid, k), RefsOf(Get(leaves, k))), Get(leaves, k))] + LeaveCalls(mid, leaves, n + 1, e)
  }

  lemma {:induction false} JoinCallsFrame(s: State, t: State, joins: State, n: nat)
    requires n <= |joins.keys|
    requires forall i :: n <= i < |joins.keys| ==> Get(s, joins.keys[i]) == Get(t, joins.keys[i])
    ensures JoinCalls(s, joins, n) == JoinCalls(t, joins, n)
    decreases |joins.keys| - n
  {
    if n < |joins.keys| {
      JoinCallsFrame(s, t, joins, n + 1);
    }
  }

  lemma {:induction false} LeaveCallsFrame(s: State, t: State, leaves: State, n: nat, e: nat)
    requires n <= e <= |leaves.keys|
    requires forall i :: n <= i < e ==> Get(s, leaves.keys[i]) == Get(t, leaves.keys[i])
    ensures LeaveCalls(s, leaves, n, e) == LeaveCalls(t, leaves, n, e)
    decreases e - n
  {
    if n < e {
      LeaveCallsFrame(s, t, leaves, n + 1, e);
    }
  }

  lemma JoinsTurnLog(s: Synced, joins: State, n: nat)
    requires joins.Wf() && n < |joins.keys|
    ensures var k := joins.keys[n]; var next := JoinKey(s, k, Get(joins, k));
      && Joins(s, joins, n) == Joins(next, joins, n + 1)
      && next.log == s.log + [OnJoin(k, Get(s.state, k), Get(joins, k))]
      && forall i :: n < i < |joins.keys| ==> Get(next.state, joins.keys[i]) == Get(s.state, joins.keys[i])
  {
    var k := joins.keys[n];
    JoinsTurn(s, joins, n);
    forall i | n < i < |joins.keys|
      ensures Get(JoinKey(s, k, Get(joins, k)).state, joins.keys[i]) == Get(s.state, joins.keys[i]) {
      JoinKeyAt(s, k, Get(joins, k), joins.keys[i]);
    }
  }

  lemma Associate(a: seq<Call>, b: seq<Call>, c: seq<Call>)
    ensures a + b + c == a + (b + c)
  {
  }

  lemma Append(log: seq<Call>, call: Call, rest: seq<Call>)
    ensures log + [call] + rest == log + ([call] + rest)
  {
  }

  lemma {:induction false} JoinsLog(s: Synced, joins: State, n: nat)
    requires joins.Wf() && n <= |joins.keys|
    ensures Joins(s, joins, n).log == s.log + JoinCalls(s.state, joins, n)
    decreases |joins.keys| - n
  {
    if n < |joins.keys| {
      var k := joins.keys[n];
      var next := JoinKey(s, k, Get(joins, k));
      JoinsTurnLog(s, joins, n);
      JoinsLog(next, joins, n + 1);
      JoinCallsFrame(next.state, s.state, joins, n + 1);
      Append(s.log, OnJoin(k, Get(s.state, k), Get(joins, k)), JoinCalls(s.state, joins, n + 1));
    }
  }

  lemma LeavesTurnLog(s: Synced, leaves: State, n: nat)
    requires leaves.Wf() && n < |leaves.keys| && Get(s.state, leaves.keys[n]) != []
    ensures var k := leaves.keys[n]; var next := LeaveKey(s, k, Get(leaves, k));
      && Leaves(s, leaves, n) == Leaves(next, leaves, n + 1)
      && StopsAt(s.state, leaves, n) == StopsAt(next.state, leaves, n + 1)
      && next.log == s.log + [OnLeave(k, Keep(Get(s.state, k), RefsOf(Get(leaves, k))), Get(leaves, k))]
      && forall i :: n < i < |leaves.keys| ==> Get(next.state, leaves.keys[i]) == Get(s.state, leaves.keys[i])
  {
    var k := leaves.keys[n];
    LeavesTurn(s, leaves, n);
    forall i | n < i < |leaves.keys|
      ensures Get(LeaveKey(s, k, Get(leaves, k)).state, leaves.keys[i]) == Get(s.state, leaves.keys[i]) {
      LeaveKeyAt(s, k, Get(leaves, k), leaves.keys[i]);
    }
  }

  lemma {:induction false} LeavesLog(s: Synced, leaves: State, n: nat)
    requires leaves.Wf() && n <= |leaves.keys|
    ensures Leaves(s, leaves, n).log == s.log + LeaveCalls(s.state, leaves, n, StopsAt(s.state, leaves, n))
    decreases |leaves.keys| - n
  {
    if n < |leaves.keys| && Get(s.state, leaves.keys[n]) != [] {
      var k := leaves.keys[n];
      var next := LeaveKey(s, k, Get(leaves, k));
      var e := StopsAt(s.state, leaves, n);
      LeavesTurnLog(s, leaves, n);
      LeavesLog(next, leaves, n + 1);
      LeaveCallsFrame(next.state, s.state, leaves, n + 1, e);
      var call := OnLeave(k, Keep(Get(s.state, k), RefsOf(Get(leaves, k))), Get(leaves, k));
      Append(s.log, call, LeaveCalls(s.state, leaves, n + 1, e));
    } else {
      LeavesEnd(s, leaves, n);
    }
  }

  /**
   * Each joined key in payload order, with the list stored before the diff and the payload's list; then each left
   * key up to the early exit, with the list it is left with and the payload's list.
   */
  function CallsOf(s: Synced, joins: State, leaves: State): seq<Call>
    requires joins.Wf() && leaves.Wf()
  {
    JoinCalls(s.state, joins, 0) + LeaveCalls(Mid(s, joins), leaves, 0, StopsAt(Mid(s, joins), leaves, 0))
  }

  /** Any diff on any state makes exactly these calls. */
  lemma DiffCalls(s: Synced, joins: State, leaves: State)
    requires joins.Wf() && leaves.Wf()
    ensures SyncDiff(s, joins, leaves).log == s.log + CallsOf(s, joins, leaves)
  {
    var mid := Joins(s, joins, 0);
    JoinsLog(s, joins, 0);
    LeavesLog(mid, leaves, 0);
    Associate(s.log, JoinCalls(s.state, joins, 0), LeaveCalls(mid.state, leaves, 0, StopsAt(mid.state, leaves, 0)));
  }

  // ---------- The sync callback ----------

  predicate NoSync(calls: seq<Call>) {
    forall i :: 0 <= i < |calls| ==> !calls[i].OnSync?
  }

  lemma {:induction false} JoinCallsAreJoins(s: State, joins: State, n: nat)
    requires n <= |joins.keys|
    ensures NoSync(JoinCalls(s, joins, n))
    decreases |joins.keys| - n
  {
    if n < |joins.keys| {
      JoinCallsAreJoins(s, joins, n + 1);
    }
  }

  lemma {:induction false} LeaveCallsAreLeaves(s: State, leaves: State, n: nat, e: nat)
    requires n <= e <= |leaves.keys|
    ensures NoSync(LeaveCalls(s, leaves, n, e))
    decreases e - n
  {
    if n < e {
      LeaveCallsAreLeaves(s, leaves, n + 1, e);
    }
  }

  /** The joins and leaves that a message amounts to on the stored state. */
  function Payload(state: State, e: Event): (d: Diff)
    requires state.Wf() && e.Wf()
    ensures d.joins.Wf() && d.leaves.Wf()
  {
    match e
    case StateEvent(snapshot) => SnapshotDiff(state, snapshot)
    case DiffEvent(joins, leaves) => Diff(joins, leaves)
  }

  /** The join and leave calls that a message makes. */
  function Calls(s: Synced, e: Event): seq<Call>
    requires s.state.Wf() && e.Wf()
  {
    CallsOf(s, Payload(s.state, e).joins, Payload(s.state, e).leaves)
  }

  lemma CallsAreNoSyncs(s: Synced, joins: State, leaves: State)
    requires joins.Wf() && leaves.Wf()
    ensures NoSync(CallsOf(s, joins, leaves))
  {
    JoinCallsAreJoins(s.state, joins, 0);
    LeaveCallsAreLeaves(Mid(s, joins), leaves, 0, StopsAt(Mid(s, joins), leaves, 0));
  }

  lemma HandleAppliesDiff(s: Synced, e: Event)
    requires s.state.Wf() && e.Wf()
    ensures var d := Payload(s.state, e); var r := SyncDiff(s, d.joins, d.leaves);
      Handle(s, e) == Synced(r.state, r.log + [OnSync])
  {
  }

  /** Every message makes its join and leave calls and then exactly one sync call, the last. */
  lemma EventCalls(s: Synced, e: Event)
    requires s.state.Wf() && e.Wf()
    ensures Handle(s, e).log == s.log + Calls(s, e) + [OnSync] && NoSync(Calls(s, e))
  {
    var d := Payload(s.state, e);
    HandleAppliesDiff(s, e);
    DiffCalls(s, d.joins, d.leaves);
    CallsAreNoSyncs(s, d.joins, d.leaves);
  }

  function Syncs(log: seq<Call>): nat {
    if log == [] then 0 else Syncs(log[..|log| - 1]) + if log[|log| - 1].OnSync? then 1 else 0
  }

  lemma {:induction false} SyncsConcat(a: seq<Call>, b: seq<Call>)
    ensures Syncs(a + b) == Syncs(a) + Syncs(b)
    decreases |b|
  {
    if b == [] {
      assert a + b == a;
    } else {
      SyncsConcat(a, b[..|b| - 1]);
      assert (a + b)[..|a + b| - 1] == a + b[..|b| - 1];
    }
  }

  lemma {:induction false} NoSyncs(calls: seq<Call>)
    requires NoSync(calls)
    ensures Syncs(calls) == 0
  {
    if calls != [] {
      NoSyncs(calls[..|calls| - 1]);
    }
  }

  /** Over any history of messages the sync callback is called once per message. */
  lemma {:induction false} SyncsOncePerMessage(s: Synced, events: seq<Event>)
    requires s.state.Wf() && forall i :: 0 <= i < |events| ==> events[i].Wf()
    ensures Syncs(Run(s, events).log) == Syncs(s.log) + |events|
    decreases |events|
  {
    if events != [] {
      var n := |events| - 1;
      var t, e := Run(s, events[..n]), events[n];
      SyncsOncePerMessage(s, events[..n]);
      EventCalls(t, e);
      NoSyncs(Calls(t, e));
      SyncsConcat(t.log, Calls(t, e));
      SyncsConcat(t.log + Calls(t, e), [OnSync]);
      assert Syncs([OnSync]) == Syncs([OnSync][..0]) + 1;
    }
  }

  // ---------- The order of the stored keys ----------

  lemma {:induction false} WithoutTwice(s: seq<string>, d: set<string>, e: set<string>)
    ensures Without(Without(s, d), e) == Without(s, d + e)
  {
    if s != [] {
      WithoutTwice(s[1..], d, e);
      var rest := Without(s[1..], d);
      assert ([s[0]] + rest)[1..] == rest;
    }
  }

  lemma {:induction false} WithoutSame(s: seq<string>, d: set<string>, e: set<string>)
    requires forall k :: k in s ==> (k in d <==> k in e)
    ensures Without(s, d) == Without(s, e)
  {
    if s != [] {
      WithoutSame(s[1..], d, e);
    }
  }

  lemma KeyOnce(d: State, n: nat)
    requires d.Wf() && n < |d.keys|
    ensures d.keys[n..] == [d.keys[n]] + d.keys[n + 1..] && d.keys[n] !in d.keys[n + 1..]
  {
  }

  lemma KeysAfterPut(keys: seq<string>, held: set<string>, k: string, rest: seq<string>)
    requires k !in rest
    ensures (if k in held then keys else keys + [k]) + Without(rest, held + {k}) == keys + Without([k] + rest, held)
  {
    WithoutSame(rest, held + {k}, held);
    assert ([k] + rest)[1..] == rest;
    if k !in held {
      assert (keys + [k]) + Without(rest, held) == keys + ([k] + Without(rest, held));
    }
  }

  lemma JoinKeyOrder(s: Synced, k: string, joined: seq<Presence>)
    ensures var r := JoinKey(s, k, joined).state;
      && r.keys == (if k in s.state.vals then s.state.keys else s.state.keys + [k])
      && r.vals.Keys == s.state.vals.Keys + {k}
  {
  }

  /** The joins keep the stored keys in place and put the new ones after them in payload order. */
  lemma {:induction false} JoinsKeepOrder(s: Synced, joins: State, n: nat)
    requires joins.Wf() && n <= |joins.keys|
    ensures Joins(s, joins, n).state.keys == s.state.keys + Without(joins.keys[n..], s.state.vals.Keys)
    decreases |joins.keys| - n
  {
    if n == |joins.keys| {
      assert joins.keys[n..] == [];
    } else {
      var k := joins.keys[n];
      JoinsTurn(s, joins, n);
      JoinsKeepOrder(JoinKey(s, k, joins.vals[k]), joins, n + 1);
      JoinKeyOrder(s, k, joins.vals[k]);
      KeyOnce(joins, n);
      KeysAfterPut(s.state.keys, s.state.vals.Keys, k, joins.keys[n + 1..]);
    }
  }

  lemma LeaveKeyOrder(s: Synced, k: string, left: seq<Presence>)
    requires s.state.Wf() && k in s.state.vals
    ensures var r := LeaveKey(s, k, left).state;
      r.vals.Keys <= s.state.vals.Keys && r.keys == Without(s.state.keys, s.state.vals.Keys - r.vals.Keys)
  {
    var r := LeaveKey(s, k, left).state;
    var rest := Keep(Get(s.state, k), RefsOf(left));
    if rest == [] {
      assert s.state.vals.Keys - r.vals.Keys == {k};
    } else {
      assert r.vals.Keys == s.state.vals.Keys;
      assert s.state.vals.Keys - r.vals.Keys == {};
      WithoutNothing(s.state.keys);
    }
  }

  /** The leaves drop keys and keep the others in their order. */
  lemma {:induction false} LeavesKeepOrder(s: Synced, leaves: State, n: nat)
    requires s.state.Wf() && leaves.Wf() && n <= |leaves.keys|
    ensures var r := Leaves(s, leaves, n).state; r.keys == Without(s.state.keys, s.state.vals.Keys - r.vals.Keys)
    ensures Leaves(s, leaves, n).state.vals.Keys <= s.state.vals.Keys
    decreases |leaves.keys| - n
  {
    if n < |leaves.keys| && Get(s.state, leaves.keys[n]) != [] {
      var k := leaves.keys[n];
      var next := LeaveKey(s, k, Get(leaves, k));
      LeavesTurn(s, leaves, n);
      LeavesKeepOrder(next, leaves, n + 1);
      LeaveKeyOrder(s, k, Get(leaves, k));
      var r := Leaves(s, leaves, n).state;
      var d, e := s.state.vals.Keys - next.state.vals.Keys, next.state.vals.Keys - r.vals.Keys;
      WithoutTwice(s.state.keys, d, e);
      assert d + e == s.state.vals.Keys - r.vals.Keys;
    } else {
      LeavesEnd(s, leaves, n);
      assert s.state.vals.Keys - s.state.vals.Keys == {};
      WithoutNothing(s.state.keys);
    }
  }

  /** A diff keeps the surviving stored keys in order, and puts the surviving new ones after them in payload order. */
  lemma DiffKeyOrder(s: Synced, joins: State, leaves: State)
    requires s.state.Wf() && joins.Wf() && leaves.Wf()
    ensures var r := SyncDiff(s, joins, leaves).state;
      var all := s.state.keys + Without(joins.keys, s.state.vals.Keys);
      r.keys == Without(all, Mid(s, joins).vals.Keys - r.vals.Keys)
  {
    JoinsKeepOrder(s, joins, 0);
    assert joins.keys[0..] == joins.keys;
    LeavesKeepOrder(Joins(s, joins, 0), leaves, 0);
  }
}
