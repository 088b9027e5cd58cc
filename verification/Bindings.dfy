/** Postgres change bindings: positional matching against the join reply, and dispatch. */
module Bindings {
  import opened PyDict

  /** One `on_postgres_changes` registration; the user's callback is its position in the list. */
  datatype Binding = Binding(
    event: string, table: Option<string>, schema: Option<string>, filter: Option<string>, id: Option<int>)

  /** One entry of the server's list. */
  datatype Row = Row(id: int, events: string, table: string, schema: Option<string>, filter: Option<string>)

  predicate Agrees(b: Binding, r: Row) {
    r.events == b.event && r.schema == b.schema && Some(r.table) == b.table && r.filter == b.filter
  }

  datatype Outcome = Outcome(bindings: seq<Binding>, matched: bool)

  /** The matching loop from position i on: ids are assigned in place until the first mismatch. */
  function MatchFrom(bs: seq<Binding>, rows: seq<Row>, i: nat): Outcome
    requires i <= |bs|
    decreases |bs| - i
  {
    if i == |bs| then Outcome(bs, true)
    else if AgreesAt(bs, rows, i) then
      MatchFrom(bs[i := bs[i].(id := Some(rows[i].id))], rows, i + 1)
    else Outcome(bs, false)
  }

  /** What a join reply does to the list: a reply without bindings empties it. */
  function Match(bs: seq<Binding>, rows: seq<Row>): Outcome {
    if rows == [] then Outcome([], true) else MatchFrom(bs, rows, 0)
  }

  /** The registration at position i equals the server entry at position i. */
  predicate AgreesAt(bs: seq<Binding>, rows: seq<Row>, i: nat)
    requires i < |bs|
  {
    i < |rows| && Agrees(bs[i], rows[i])
  }

  predicate AllAgree(bs: seq<Binding>, rows: seq<Row>) {
    forall i :: 0 <= i < |bs| ==> AgreesAt(bs, rows, i)
  }

  /** Same registrations in the same order; only ids may differ. */
  ghost predicate SameList(a: seq<Binding>, b: seq<Binding>) {
    |a| == |b| && forall i :: 0 <= i < |a| ==> a[i].(id := None) == b[i].(id := None)
  }

  lemma {:induction false} MatchFromIff(bs: seq<Binding>, rows: seq<Row>, i: nat)
    requires i <= |bs|
    ensures var o := MatchFrom(bs, rows, i);
      && SameList(bs, o.bindings)
      && (o.matched <==> forall j :: i <= j < |bs| ==> AgreesAt(bs, rows, j))
      && (forall j :: 0 <= j < i ==> o.bindings[j] == bs[j])
      && (o.matched ==> forall j :: i <= j < |bs| ==> AgreesAt(bs, rows, j) && o.bindings[j].id == Some(rows[j].id))
    decreases |bs| - i
  {
    if i < |bs| && AgreesAt(bs, rows, i) {
      var next := bs[i := bs[i].(id := Some(rows[i].id))];
      MatchFromIff(next, rows, i + 1);
      assert forall j :: i < j < |bs| ==> (AgreesAt(next, rows, j) <==> AgreesAt(bs, rows, j));
    }
  }

  /** Ids are written in place up to the first mismatch, also when the list does not match as a whole. */
  lemma {:induction false} MatchFromAt(bs: seq<Binding>, rows: seq<Row>, i: nat, k: nat)
    requires i <= |bs| && k < |bs|
    ensures var o := MatchFrom(bs, rows, i);
      && |o.bindings| == |bs|
      && if i <= k && k < |rows| && (forall j :: i <= j <= k ==> AgreesAt(bs, rows, j))
         then o.bindings[k] == bs[k].(id := Some(rows[k].id)) else o.bindings[k] == bs[k]
    decreases |bs| - i
  {
    if i < |bs| && AgreesAt(bs, rows, i) {
      var next := bs[i := bs[i].(id := Some(rows[i].id))];
      MatchFromAt(next, rows, i + 1, k);
      assert forall j :: i < j < |bs| ==> (AgreesAt(next, rows, j) <==> AgreesAt(bs, rows, j));
    }
  }

  /** An entry has the server's id exactly when it and all before it agree; all others stay as they were. */
  lemma MatchAt(bs: seq<Binding>, rows: seq<Row>, k: nat)
    requires rows != [] && k < |bs|
    ensures var o := Match(bs, rows);
      && |o.bindings| == |bs|
      && if k < |rows| && (forall j :: 0 <= j <= k ==> AgreesAt(bs, rows, j))
         then o.bindings[k] == bs[k].(id := Some(rows[k].id)) else o.bindings[k] == bs[k]
  {
    MatchFromAt(bs, rows, 0, k);
  }

  /** A non-empty reply matches exactly when every registration equals the server entry at its position. */
  lemma MatchIff(bs: seq<Binding>, rows: seq<Row>)
    requires rows != []
    ensures var o := Match(bs, rows);
      && SameList(bs, o.bindings)
      && (o.matched <==> AllAgree(bs, rows))
      && (o.matched ==> forall i :: 0 <= i < |bs| ==> AgreesAt(bs, rows, i) && o.bindings[i].id == Some(rows[i].id))
  {
    MatchFromIff(bs, rows, 0);
  }

  /** The registration has the entry's event, schema, table and filter. */
  predicate EqualFields(b: Binding, r: Row) {
    b.event == r.events && b.schema == r.schema && b.table == Some(r.table) && b.filter == r.filter
  }

  /** In full: the list matches exactly when event, schema, table and filter are equal at every position. */
  lemma MatchesEqualFields(bs: seq<Binding>, rows: seq<Row>)
    requires rows != []
    ensures Match(bs, rows).matched
      <==> |bs| <= |rows| && forall i :: 0 <= i < |bs| ==> EqualFields(bs[i], rows[i])
  {
    MatchIff(bs, rows);
    forall i | 0 <= i < |bs| ensures AgreesAt(bs, rows, i) <==> i < |rows| && EqualFields(bs[i], rows[i]) {
    }
    if Match(bs, rows).matched && bs != [] {
      assert AgreesAt(bs, rows, |bs| - 1);
    }
  }

  /** The server names a table in every entry: a list with a registration that names none never matches. */
  lemma TablelessNeverMatches(bs: seq<Binding>, rows: seq<Row>, i: nat)
    requires rows != [] && i < |bs| && bs[i].table.None?
    ensures !Match(bs, rows).matched
  {
    MatchIff(bs, rows);
    assert !AgreesAt(bs, rows, i);
  }

  /** `PostgresChangesCallback.__call__`'s guard. */
  predicate Fires(b: Binding, kind: string, ids: seq<int>) {
    b.id.Some? && b.id.value != 0 && b.id.value in ids && (b.event == kind || b.event == "*")
  }

  /** One call of the i-th registered callback. */
  datatype Call = Call(position: nat, kind: string, ids: seq<int>)

  /** The dispatch loop over the first n registrations. */
  function Dispatch(bs: seq<Binding>, kind: string, ids: seq<int>, n: nat): seq<Call>
    requires n <= |bs|
  {
    if n == 0 then []
    else Dispatch(bs, kind, ids, n - 1) + if Fires(bs[n - 1], kind, ids) then [Call(n - 1, kind, ids)] else []
  }

  /** A change calls callback i exactly when its binding fires, once, and in list order. */
  lemma {:induction false} DispatchIff(bs: seq<Binding>, kind: string, ids: seq<int>, n: nat)
    requires n <= |bs|
    ensures var calls := Dispatch(bs, kind, ids, n);
      && (forall i :: 0 <= i < n ==> (Fires(bs[i], kind, ids) <==> Call(i, kind, ids) in calls))
      && (forall c :: c in calls ==> c.position < n && c == Call(c.position, kind, ids))
      && (forall j, j' :: 0 <= j < j' < |calls| ==> calls[j].position < calls[j'].position)
  {
    if n > 0 {
      DispatchIff(bs, kind, ids, n - 1);
      var calls := Dispatch(bs, kind, ids, n - 1);
      assert forall j :: 0 <= j < |calls| ==> calls[j] in calls;
    }
  }
}
