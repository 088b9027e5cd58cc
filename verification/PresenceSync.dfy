/** The presence object of a channel, run with the source's loops and updates in place. */
module PresenceSync {
  import opened PyDict
  import opened PresenceSpec
  import opened PresenceDiff
  import opened PresenceTransform

  /** One meta of a raw payload: a dictionary that decoding edits. */
  class PresenceMeta {
    var fields: Fields

    constructor (fields: Fields)
      ensures this.fields == fields
    {
      this.fields := fields;
    }
  }

  type RawState = Dict<seq<PresenceMeta>>

  ghost function Metas(raw: RawState): set<PresenceMeta> {
    set k, m | k in raw.vals && m in raw.vals[k] :: m
  }

  /** Freshly parsed payloads share no meta object. */
  ghost predicate Unshared(raw: RawState) {
    forall k, i, k', i' | k in raw.vals && k' in raw.vals && 0 <= i < |raw.vals[k]| && 0 <= i' < |raw.vals[k']|
      :: raw.vals[k][i] == raw.vals[k'][i'] ==> k == k' && i == i'
  }

  ghost function FieldsOf(metas: seq<PresenceMeta>): (r: seq<Fields>)
    reads metas
    ensures |r| == |metas| && forall i :: 0 <= i < |metas| ==> r[i] == metas[i].fields
  {
    seq(|metas|, i requires 0 <= i < |metas| reads metas => metas[i].fields)
  }

  lemma AreMetas(raw: RawState, k: string)
    requires k in raw.vals
    ensures forall m :: m in raw.vals[k] ==> m in Metas(raw)
  {
  }

  ghost function Contents(raw: RawState): Dict<seq<Fields>>
    reads Metas(raw)
  {
    Dict(raw.keys, map k | k in raw.vals :: (AreMetas(raw, k); FieldsOf(raw.vals[k])))
  }

  function Popped(meta: Fields): Fields {
    meta - {"phx_ref", "phx_ref_prev"}
  }

  /** A stripped meta has exactly the fields it had but the two, with their values. */
  lemma StrippedExactly(metas: seq<Fields>, i: nat, field: string)
    requires i < |metas|
    ensures var before, after := metas[i], PoppedList(metas)[i];
      && (field in after <==> field in before && field != "phx_ref" && field != "phx_ref_prev")
      && (field in after ==> after[field] == before[field])
  {
  }

  /** The inner loop of `_transform_state`; a meta without `phx_ref` raises. */
  method TransformMetas(metas: seq<PresenceMeta>) returns (ok: bool, r: seq<Presence>)
    requires forall i, j :: 0 <= i < j < |metas| ==> metas[i] != metas[j]
    modifies metas
    ensures ok == AllHaveRefs(old(FieldsOf(metas)))
    ensures ok ==> r == DecodedList(old(FieldsOf(metas)))
    ensures ok ==> forall i :: 0 <= i < |metas| ==> metas[i].fields == Popped(old(metas[i].fields))
  {
    r := [];
    for i := 0 to |metas|
      invariant |r| == i
      invariant forall j :: 0 <= j < i ==> "phx_ref" in old(metas[j].fields) && r[j] == Decoded(old(metas[j].fields))
      invariant forall j :: 0 <= j < i ==> metas[j].fields == Popped(old(metas[j].fields))
      invariant forall j :: i <= j < |metas| ==> metas[j].fields == old(metas[j].fields)
    {
      var presence := metas[i];
      ghost var before := presence.fields;
      if "phx_ref_prev" in presence.fields {
        presence.fields := presence.fields - {"phx_ref_prev"};
      }
      if "phx_ref" !in presence.fields {
        assert "phx_ref" !in old(FieldsOf(metas))[i];
        return false, r;
      }
      var newPresence := map["presence_ref" := presence.fields["phx_ref"]];
      presence.fields := presence.fields - {"phx_ref"};
      assert presence.fields == Popped(before);
      newPresence := newPresence + presence.fields;
      assert newPresence == Renamed(before);
      r := r + [FromFields(newPresence)];
    }
    ok := true;
  }

  function PoppedList(metas: seq<Fields>): seq<Fields> {
    seq(|metas|, i requires 0 <= i < |metas| => Popped(metas[i]))
  }

  /** The result holds the first n keys, decoded. */
  ghost predicate DecodedUpTo(before: Dict<seq<Fields>>, r: State, n: nat)
    requires before.Wf() && n <= |before.keys|
  {
    && r.Wf() && r.keys == before.keys[..n]
    && forall j :: 0 <= j < n ==> var k := before.keys[j];
         AllHaveRefs(before.vals[k]) && k in r.vals && r.vals[k] == DecodedList(before.vals[k])
  }

  lemma DecodedOneMore(before: Dict<seq<Fields>>, r: State, n: nat, presences: seq<Presence>)
    requires before.Wf() && n < |before.keys| && DecodedUpTo(before, r, n)
    requires AllHaveRefs(before.vals[before.keys[n]]) && presences == DecodedList(before.vals[before.keys[n]])
    ensures DecodedUpTo(before, Put(r, before.keys[n], presences), n + 1)
  {
    var k := before.keys[n];
    assert k !in r.keys;
    assert Put(r, k, presences).keys == before.keys[..n + 1];
    forall j | 0 <= j < n ensures before.keys[j] != k {
    }
  }

  /** The metas of the first n keys are stripped, the others untouched. */
  ghost predicate StrippedUpTo(raw: RawState, before: Dict<seq<Fields>>, n: nat)
    requires raw.Wf() && n <= |raw.keys|
    reads Metas(raw)
  {
    && before.keys == raw.keys && before.vals.Keys == raw.vals.Keys
    && forall j :: 0 <= j < |raw.keys| ==> (AreMetas(raw, raw.keys[j]); Holds(raw, before, raw.keys[j], j < n))
  }

  /** The metas of a key are as they were before, or stripped. */
  ghost predicate Holds(raw: RawState, before: Dict<seq<Fields>>, k: string, stripped: bool)
    requires k in raw.vals && k in before.vals
    reads raw.vals[k]
  {
    Now(raw, k) == if stripped then PoppedList(before.vals[k]) else before.vals[k]
  }

  ghost function Now(raw: RawState, k: string): seq<Fields>
    requires k in raw.vals
    reads raw.vals[k]
  {
    FieldsOf(raw.vals[k])
  }

  lemma ListPopped(metas: seq<PresenceMeta>, before: seq<Fields>)
    requires |metas| == |before| && forall i :: 0 <= i < |metas| ==> metas[i].fields == Popped(before[i])
    ensures FieldsOf(metas) == PoppedList(before)
  {
  }

  lemma Apart(raw: RawState, n: nat, j: nat)
    requires raw.Wf() && Unshared(raw) && n < |raw.keys| && j < |raw.keys| && j != n
    ensures forall m :: m in raw.vals[raw.keys[j]] ==> m !in raw.vals[raw.keys[n]]
  {
  }

  /** One key: its metas are decoded and stripped, those of the other keys stay as they were. */
  method StripKey(raw: RawState, n: nat, ghost before: Dict<seq<Fields>>) returns (ok: bool, presences: seq<Presence>)
    requires raw.Wf() && Unshared(raw) && n < |raw.keys| && StrippedUpTo(raw, before, n)
    modifies Metas(raw)
    ensures ok == AllHaveRefs(before.vals[raw.keys[n]])
    ensures ok ==> StrippedUpTo(raw, before, n + 1) && presences == DecodedList(before.vals[raw.keys[n]])
  {
    var k := raw.keys[n];
    AreMetas(raw, k);
    assert Holds(raw, before, k, false);
    ok, presences := TransformMetas(raw.vals[k]);
    if ok {
      ListPopped(raw.vals[k], before.vals[k]);
      assert Holds(raw, before, k, true);
      forall j | 0 <= j < |raw.keys| && j != n ensures Holds(raw, before, raw.keys[j], j < n + 1) {
        Apart(raw, n, j);
        assert old(Holds(raw, before, raw.keys[j], j < n));
      }
    }
  }

  method TransformKey(raw: RawState, n: nat, r: State, ghost before: Dict<seq<Fields>>) returns (ok: bool, r': State)
    requires raw.Wf() && Unshared(raw) && n < |raw.keys| && before.Wf()
    requires StrippedUpTo(raw, before, n) && DecodedUpTo(before, r, n)
    modifies Metas(raw)
    ensures if ok then StrippedUpTo(raw, before, n + 1) && DecodedUpTo(before, r', n + 1) else !Decodable(before)
  {
    var presences;
    ok, presences := StripKey(raw, n, before);
    r' := r;
    if ok {
      DecodedOneMore(before, r, n, presences);
      r' := Put(r, raw.keys[n], presences);
    }
  }

  lemma AllDecoded(before: Dict<seq<Fields>>, r: State)
    requires before.Wf() && DecodedUpTo(before, r, |before.keys|)
    ensures Decodable(before) && r == DecodedState(before)
  {
    assert before.keys[..|before.keys|] == before.keys;
    forall k | k in before.vals
      ensures AllHaveRefs(before.vals[k]) && k in r.vals && r.vals[k] == DecodedList(before.vals[k]) {
      var j :| 0 <= j < |before.keys| && before.keys[j] == k;
    }
    assert forall k :: k in r.vals ==> k in r.keys;
    assert r.vals == DecodedState(before).vals;
  }

  lemma AllStripped(raw: RawState, before: Dict<seq<Fields>>)
    requires raw.Wf() && StrippedUpTo(raw, before, |raw.keys|)
    ensures forall k :: k in raw.vals ==> Contents(raw).vals[k] == PoppedList(before.vals[k])
  {
    forall k | k in raw.vals ensures Contents(raw).vals[k] == PoppedList(before.vals[k]) {
      var j :| 0 <= j < |raw.keys| && raw.keys[j] == k;
      assert Holds(raw, before, raw.keys[j], true);
    }
  }

  /** `_transform_state`: the decoded payload, with every raw meta left without the two ref fields. */
  method TransformState(raw: RawState) returns (ok: bool, r: State)
    requires raw.Wf() && Unshared(raw)
    modifies Metas(raw)
    ensures ok == Decodable(old(Contents(raw)))
    ensures ok ==> r.Wf() && r == DecodedState(old(Contents(raw)))
    ensures ok ==> forall k :: k in raw.vals ==> Contents(raw).vals[k] == PoppedList(old(Contents(raw)).vals[k])
  {
    ghost var before := Contents(raw);
    r := Dict([], map[]);
    for n := 0 to |raw.keys|
      invariant StrippedUpTo(raw, before, n) && DecodedUpTo(before, r, n)
    {
      ok, r := TransformKey(raw, n, r, before);
      if !ok {
        return;
      }
    }
    ok := true;
    AllDecoded(before, r);
    AllStripped(raw, before);
  }

  /** Decoding one payload does not touch another. */
  twostate lemma Unmoved(raw: RawState)
    requires forall m :: m in Metas(raw) ==> old(allocated(m)) && m.fields == old(m.fields)
    ensures Contents(raw) == old(Contents(raw))
  {
    forall k | k in raw.vals ensures FieldsOf(raw.vals[k]) == old(FieldsOf(raw.vals[k])) {
      AreMetas(raw, k);
      assert forall i :: 0 <= i < |raw.vals[k]| ==> raw.vals[k][i] in raw.vals[k];
    }
  }

  class AsyncRealtimePresence {
    var state: State
    /** The calls made to the user's callbacks, oldest first. */
    var log: seq<Call>

    ghost predicate Valid()
      reads this
    {
      state.Wf()
    }

    ghost function View(): Synced
      reads this
    {
      Synced(state, log)
    }

    constructor ()
      ensures Valid() && View() == Synced(Dict([], map[]), [])
    {
      state, log := Dict([], map[]), [];
    }

    method SyncDiff(joins: State, leaves: State)
      requires Valid() && joins.Wf() && leaves.Wf()
      modifies this
      ensures Valid() && View() == PresenceSpec.SyncDiff(old(View()), joins, leaves)
    {
      AddJoins(joins);
      DropLeaves(leaves);
    }

    method AddJoins(joins: State)
      requires Valid() && joins.Wf()
      modifies this
      ensures Valid() && View() == Joins(old(View()), joins, 0)
    {
      for n := 0 to |joins.keys|
        invariant Valid() && Joins(View(), joins, n) == Joins(old(View()), joins, 0)
      {
        var key := joins.keys[n];
        AddKey(key, joins.vals[key]);
      }
    }

    method AddKey(key: string, newPresences: seq<Presence>)
      requires Valid()
      modifies this
      ensures Valid() && View() == JoinKey(old(View()), key, newPresences)
    {
      var currentPresences := Get(state, key);
      state := Put(state, key, newPresences);
      if |currentPresences| > 0 {
        var curPresences := Keep(currentPresences, RefsOf(newPresences));
        state := Put(state, key, curPresences + state.vals[key]);
      }
      log := log + [OnJoin(key, currentPresences, newPresences)];
    }

    /** The loop that stops at the first key without stored presences. */
    method DropLeaves(leaves: State)
      requires Valid() && leaves.Wf()
      modifies this
      ensures Valid() && View() == Leaves(old(View()), leaves, 0)
    {
      var n := 0;
      while n < |leaves.keys|
        invariant n <= |leaves.keys|
        invariant Valid() && Leaves(View(), leaves, n) == Leaves(old(View()), leaves, 0)
      {
        var key := leaves.keys[n];
        if |Get(state, key)| == 0 {
          break;
        }
        LeavesTurn(View(), leaves, n);
        DropKey(key, leaves.vals[key]);
        n := n + 1;
      }
      LeavesEnd(View(), leaves, n);
    }

    method DropKey(key: string, leftPresences: seq<Presence>)
      requires Valid() && Get(state, key) != []
      modifies this
      ensures Valid() && View() == LeaveKey(old(View()), key, leftPresences)
    {
      var currentPresences := Keep(Get(state, key), RefsOf(leftPresences));
      state := Put(state, key, currentPresences);
      log := log + [OnLeave(key, currentPresences, leftPresences)];
      if |currentPresences| == 0 {
        RemoveAfterPut(old(state), key, currentPresences);
        state := Remove(state, key);
      }
    }

    method SyncState(newState: State)
      requires Valid() && newState.Wf()
      modifies this
      ensures Valid() && View() == PresenceSpec.SyncState(old(View()), newState)
    {
      var joins: State := Dict([], map[]);
      var leaves := Exclude(state, newState.vals.Keys);
      for n := 0 to |newState.keys|
        invariant joins.Wf() && leaves.Wf()
        invariant Delta(state, newState, n, Diff(joins, leaves)) == SnapshotDiff(state, newState)
      {
        var key := newState.keys[n];
        var value := newState.vals[key];
        var currentPresences := Get(state, key);
        if |currentPresences| > 0 {
          var newPresenceRefs := RefsOf(value);
          var curPresenceRefs := RefsOf(currentPresences);
          var joinedPresences := Keep(value, curPresenceRefs);
          var leftPresences := Keep(currentPresences, newPresenceRefs);
          if joinedPresences != [] {
            joins := Put(joins, key, joinedPresences);
          }
          if leftPresences != [] {
            leaves := Put(leaves, key, leftPresences);
          }
        } else {
          joins := Put(joins, key, value);
        }
      }
      SyncDiff(joins, leaves);
    }

    /** A payload that cannot be decoded raises and leaves the stored presences alone. */
    method OnStateEvent(payload: RawState) returns (ok: bool)
      requires Valid() && payload.Wf() && Unshared(payload)
      modifies this, Metas(payload)
      ensures Valid() && ok == Decodable(old(Contents(payload)))
      ensures ok ==> View() == Handle(old(View()), StateEvent(DecodedState(old(Contents(payload)))))
      ensures !ok ==> View() == old(View())
    {
      var newState;
      ok, newState := TransformState(payload);
      if ok {
        assert newState == DecodedState(old(Contents(payload)));
        SyncState(newState);
        log := log + [OnSync];
      }
    }

    method OnDiffEvent(joinsPayload: RawState, leavesPayload: RawState) returns (ok: bool)
      requires Valid() && joinsPayload.Wf() && Unshared(joinsPayload) && leavesPayload.Wf() && Unshared(leavesPayload)
      requires Metas(joinsPayload) !! Metas(leavesPayload)
      modifies this, Metas(joinsPayload), Metas(leavesPayload)
      ensures Valid() && ok == (Decodable(old(Contents(joinsPayload))) && Decodable(old(Contents(leavesPayload))))
      ensures ok ==>
        var joins, leaves := DecodedState(old(Contents(joinsPayload))), DecodedState(old(Contents(leavesPayload)));
        View() == Handle(old(View()), DiffEvent(joins, leaves))
      ensures !ok ==> View() == old(View())
    {
      var joins, leaves;
      ok, joins := TransformState(joinsPayload);
      if ok {
        Unmoved(leavesPayload);
        ok, leaves := TransformState(leavesPayload);
        if ok {
          assert joins == DecodedState(old(Contents(joinsPayload)));
          assert leaves == DecodedState(old(Contents(leavesPayload)));
          SyncDiff(joins, leaves);
          log := log + [OnSync];
        }
      }
    }
  }
}
