/**
 * The presence dictionary of one channel: what the two synchronisation
 * routines compute, as functions of the stored dictionary, the payload and the
 * log of user callbacks. Class AsyncRealtimePresence runs them with loops.
 */
module PresenceSpec {
  import opened PyDict

  /** A presence is a record with a ref; its other fields are carried along unread. */
  datatype Presence = Presence(ref: string, fields: map<string, string>)
  type State = Dict<seq<Presence>>

  function RefsOf(ps: seq<Presence>): set<string> {
    set p | p in ps :: p.ref
  }

  /** `[p for p in ps if p["presence_ref"] not in drop]` */
  function Keep(ps: seq<Presence>, drop: set<string>): seq<Presence> {
    if ps == [] then []
    else if ps[0].ref in drop then Keep(ps[1..], drop)
    else [ps[0]] + Keep(ps[1..], drop)
  }

  /** `state.get(key, [])` */
  function Get(s: State, k: string): seq<Presence> {
    if k in s.vals then s.vals[k] else []
  }

  /** One call of a user's presence callback, with its arguments. */
  datatype Call =
    | OnJoin(key: string, current: seq<Presence>, joined: seq<Presence>)
    | OnLeave(key: string, current: seq<Presence>, left: seq<Presence>)
    | OnSync

  datatype Synced = Synced(state: State, log: seq<Call>)

  function Merge(current: seq<Presence>, joined: seq<Presence>): seq<Presence> {
    if |current| > 0 then Keep(current, RefsOf(joined)) + joined else joined
  }

  function JoinKey(s: Synced, k: string, joined: seq<Presence>): Synced {
    var current := Get(s.state, k);
    Synced(Put(s.state, k, Merge(current, joined)), s.log + [OnJoin(k, current, joined)])
  }

  /** The first loop of `_sync_diff`, from its n-th key on. */
  function Joins(s: Synced, joins: State, n: nat): (r: Synced)
    requires joins.Wf() && n <= |joins.keys|
    ensures s.state.Wf() ==> r.state.Wf()
    decreases |joins.keys| - n
  {
    if n == |joins.keys| then s
    else
      var k := joins.keys[n];
      Joins(JoinKey(s, k, joins.vals[k]), joins, n + 1)
  }

  function LeaveKey(s: Synced, k: string, left: seq<Presence>): Synced {
    var rest := Keep(Get(s.state, k), RefsOf(left));
    var state := if rest == [] then Remove(s.state, k) else Put(s.state, k, rest);
    Synced(state, s.log + [OnLeave(k, rest, left)])
  }

  /** The second loop of `_sync_diff`, from its n-th key on: it stops at a key without presences. */
  function Leaves(s: Synced, leaves: State, n: nat): (r: Synced)
    requires leaves.Wf() && n <= |leaves.keys|
    ensures s.state.Wf() ==> r.state.Wf()
    decreases |leaves.keys| - n
  {
    if n == |leaves.keys| || Get(s.state, leaves.keys[n]) == [] then s
    else
      var k := leaves.keys[n];
      Leaves(LeaveKey(s, k, leaves.vals[k]), leaves, n + 1)
  }

  function SyncDiff(s: Synced, joins: State, leaves: State): (r: Synced)
    requires joins.Wf() && leaves.Wf()
    ensures s.state.Wf() ==> r.state.Wf()
  {
    Leaves(Joins(s, joins, 0), leaves, 0)
  }

  datatype Diff = Diff(joins: State, leaves: State)

  function DeltaKey(state: State, k: string, value: seq<Presence>, d: Diff): Diff {
    var current := Get(state, k);
    if |current| > 0 then
      var joined := Keep(value, RefsOf(current));
      var left := Keep(current, RefsOf(value));
      Diff(if joined != [] then Put(d.joins, k, joined) else d.joins,
           if left != [] then Put(d.leaves, k, left) else d.leaves)
    else
      Diff(Put(d.joins, k, value), d.leaves)
  }

  /** The loop of `_sync_state`, from its n-th key on. */
  function Delta(state: State, new_: State, n: nat, d: Diff): (r: Diff)
    requires new_.Wf() && n <= |new_.keys|
    ensures d.joins.Wf() && d.leaves.Wf() ==> r.joins.Wf() && r.leaves.Wf()
    decreases |new_.keys| - n
  {
    if n == |new_.keys| then d
    else Delta(state, new_, n + 1, DeltaKey(state, new_.keys[n], new_.vals[new_.keys[n]], d))
  }

  /** The joins and leaves that turn a stored dictionary into a snapshot. */
  function SnapshotDiff(state: State, new_: State): (d: Diff)
    requires state.Wf() && new_.Wf()
    ensures d.joins.Wf() && d.leaves.Wf()
  {
    Delta(state, new_, 0, Diff(Dict([], map[]), Exclude(state, new_.vals.Keys)))
  }

  function SyncState(s: Synced, new_: State): (r: Synced)
    requires s.state.Wf() && new_.Wf()
    ensures r.state.Wf()
  {
    var d := SnapshotDiff(s.state, new_);
    SyncDiff(s, d.joins, d.leaves)
  }

  /** A decoded server message. */
  datatype Event =
    | StateEvent(snapshot: State)
    | DiffEvent(joins: State, leaves: State)
  {
    ghost predicate Wf() {
      match this
      case StateEvent(snapshot) => snapshot.Wf()
      case DiffEvent(joins, leaves) => joins.Wf() && leaves.Wf()
    }
  }

  /** `_on_state_event` and `_on_diff_event` on decoded payloads. */
  function Handle(s: Synced, e: Event): (r: Synced)
    requires s.state.Wf() && e.Wf()
    ensures r.state.Wf()
  {
    var r := match e
      case StateEvent(snapshot) => SyncState(s, snapshot)
      case DiffEvent(joins, leaves) => SyncDiff(s, joins, leaves);
    Synced(r.state, r.log + [OnSync])
  }

  /** The client after a whole history of messages. */
  function Run(s: Synced, events: seq<Event>): (r: Synced)
    requires s.state.Wf() && forall i :: 0 <= i < |events| ==> events[i].Wf()
    ensures r.state.Wf()
  {
    if events == [] then s else Handle(Run(s, events[..|events| - 1]), events[|events| - 1])
  }

  // ---------- What the routines are for: maps from keys to sets of refs ----------

  type RefMap = map<string, set<string>>

  function Abs(s: State): RefMap {
    map k | k in s.vals :: RefsOf(s.vals[k])
  }

  function RefsAt(m: RefMap, k: string): set<string> {
    if k in m then m[k] else {}
  }

  /** Per key (old refs plus joined refs) minus left refs; an emptied key is dropped. */
  function ApplyDiff(m: RefMap, joins: RefMap, leaves: RefMap): RefMap {
    map k | k in m.Keys + joins.Keys && (RefsAt(m, k) + RefsAt(joins, k)) - RefsAt(leaves, k) != {}
          :: (RefsAt(m, k) + RefsAt(joins, k)) - RefsAt(leaves, k)
  }

  ghost predicate NonEmpty(s: State) {
    forall k :: k in s.vals ==> s.vals[k] != []
  }

  ghost predicate UniqueRefs(ps: seq<Presence>) {
    forall i, j :: 0 <= i < j < |ps| ==> ps[i].ref != ps[j].ref
  }
}
