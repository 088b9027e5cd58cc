/** Every operation on pushes keeps the invariant of module Pushes. */
module PushesProofs {
  import opened PyDict
  import opened Refs
  import opened Timers
  import opened Pushes

  // ---------- Sending ----------

  /** A push that may be sent for the first time. */
  ghost predicate Unsent(m: Mail, p: nat)
    requires p < |m.pushes|
  {
    var q := m.pushes[p];
    && q.channel < |m.boxes| && m.boxes[q.channel].join != p
    && q.kind != Join && q.ref.None? && q.resp.None? && q.delivered == [] && !q.sent
    && (q.slot == EMPTY || (q.slot.current == Some(0) && q.slot.tasks == [Pending]))
    && (q.kind == Leave ==> q.okHooks == [Close] && q.errorHooks == [Close] && q.timeoutHooks == [] && !q.buffered)
    && (q.kind == User ==> q.okHooks == [] && q.errorHooks == [] && q.timeoutHooks == [])
    && !Held(m, p) && !Queued(m, p)
  }

  /**
   * Everything but push p is in order, and p comes out of its queue last of the older and first of the younger
   * pushes.
   */
  ghost predicate InvBut(m: Mail, p: nat)
    requires p < |m.pushes|
  {
    && RequestsOk(m) && MessagesOk(m) && BoxesOk(m) && QueueOk(m)
    && (forall q :: 0 <= q < |m.pushes| && q != p ==> PushOk(m, q))
    && (forall a, b :: 0 <= a < b < |m.pushes| && a != p && b != p ==> InOrder(m, a, b))
    && (forall a :: 0 <= a < p && Rivals(m, a, p) ==> !Held(m, a) && !Queued(m, a))
    && (forall b :: p < b < |m.pushes| && Rivals(m, p, b) ==> m.pushes[b].ref.None?)
  }

  predicate Rivals(m: Mail, p: nat, q: nat)
    requires p < |m.pushes| && q < |m.pushes|
  {
    m.pushes[p].buffered && m.pushes[q].buffered && m.pushes[p].channel == m.pushes[q].channel
  }

  lemma TransmitRequests(m: Mail, p: nat)
    requires RequestsOk(m) && p < |m.pushes| && m.pushes[p].channel < |m.boxes|
    ensures RequestsOk(Transmit(m, p))
  {
    var m' := Transmit(m, p);
    var msg := m'.requested[|m.requested|];
    assert m.wire + m.sendBuffer + [msg] == m.wire + (m.sendBuffer + [msg]);
    assert m.connected ==> m.wire + [msg] + [] == m.wire + [] + [msg];
  }

  /** Messages stay right when no topic, kind or ref of an old push has changed, joins' refs excepted. */
  lemma MessagesFrame(m: Mail, n: Mail)
    requires MessagesOk(m) && n.requested == m.requested && |m.pushes| <= |n.pushes| && |m.boxes| <= |n.boxes|
    requires forall p :: 0 <= p < |m.pushes| ==> SameSender(m.pushes[p], n.pushes[p])
    requires forall c :: 0 <= c < |m.boxes| ==> n.boxes[c].topic == m.boxes[c].topic
    ensures MessagesOk(n)
  {
    forall i | 0 <= i < |n.requested| ensures MessageOk(n, i) {
      assert MessageOk(m, i);
    }
  }

  ghost predicate SameSender(q: Push, q': Push) {
    q'.channel == q.channel && q'.kind == q.kind && (q'.ref == q.ref || q.kind == Join)
  }

  lemma TransmitMessages(m: Mail, p: nat)
    requires MessagesOk(m) && p < |m.pushes| && m.pushes[p].channel < |m.boxes|
    requires m.pushes[p].kind == Join || m.pushes[p].ref.None?
    ensures MessagesOk(Transmit(m, p))
  {
    var m' := Transmit(m, p);
    forall i | 0 <= i < |m'.requested| ensures MessageOk(m', i) {
      assert i < |m.requested| ==> MessageOk(m, i);
    }
  }

  lemma TransmitIssues(m: Mail, p: nat)
    requires RequestsOk(m) && p < |m.pushes| && m.pushes[p].channel < |m.boxes|
    ensures var m' := Transmit(m, p); var r := Decimal(m.ref + 1);
      && m'.pushes[p].ref == Some(r) && Number(r) == m.ref + 1 && Issued(m', r, p)
      && (forall k, e :: Issued(m, k, e) ==> Issued(m', k, e) && k != r)
  {
    NumberOfDecimal(m.ref + 1);
  }

  lemma TransmitOther(m: Mail, p: nat, q: nat)
    requires RequestsOk(m) && p < |m.pushes| && m.pushes[p].channel < |m.boxes|
    requires q < |m.pushes| && q != p && PushOk(m, q)
    ensures PushOk(Transmit(m, p), q)
  {
    TransmitIssues(m, p);
  }

  lemma TransmitSelf(m: Mail, p: nat)
    requires RequestsOk(m) && p < |m.pushes| && Unsent(m, p)
    ensures PushOk(Transmit(m, p), p)
  {
    TransmitIssues(m, p);
  }

  lemma TransmitJoin(m: Mail, p: nat)
    requires RequestsOk(m) && p < |m.pushes| && PushOk(m, p) && m.pushes[p].kind == Join
    ensures PushOk(Transmit(m, p), p)
  {
    TransmitIssues(m, p);
  }

  lemma TransmitEntry(m: Mail, p: nat, c: nat, k: string)
    requires RequestsOk(m) && p < |m.pushes| && m.pushes[p].channel < |m.boxes|
    requires m.pushes[p].kind == Join || (m.pushes[p].ref.None? && m.pushes[p].resp.None?)
    requires c < |m.boxes| && k in Transmit(m, p).boxes[c].waiting
    requires k in m.boxes[c].waiting ==> EntryOk(m, c, k)
    ensures EntryOk(Transmit(m, p), c, k)
  {
    TransmitIssues(m, p);
  }

  lemma TransmitBoxes(m: Mail, p: nat)
    requires RequestsOk(m) && BoxesOk(m) && p < |m.pushes| && m.pushes[p].channel < |m.boxes|
    requires m.pushes[p].kind == Join || (m.pushes[p].ref.None? && m.pushes[p].resp.None?)
    ensures BoxesOk(Transmit(m, p))
  {
    var m' := Transmit(m, p);
    forall c | 0 <= c < |m'.boxes| ensures BoxOk(m', c) {
      assert BoxOk(m, c);
      forall k | k in m'.boxes[c].waiting ensures EntryOk(m', c, k) {
        TransmitEntry(m, p, c, k);
      }
    }
  }

  lemma TransmitQueue(m: Mail, p: nat)
    requires QueueOk(m) && p < |m.pushes| && m.pushes[p].channel < |m.boxes|
    ensures QueueOk(Transmit(m, p))
  {
    var m' := Transmit(m, p);
    forall i | 0 <= i < |m'.ready| ensures TaskOk(m', m'.ready[i]) {
      assert TaskOk(m, m.ready[i]);
    }
    forall i, j | 0 <= i < j < |m'.ready| ensures Ascending(m', m'.ready[i], m'.ready[j]) {
      assert Ascending(m, m.ready[i], m.ready[j]);
    }
  }

  lemma TransmitOrder(m: Mail, p: nat, a: nat, b: nat)
    requires p < |m.pushes| && InvBut(m, p) && m.pushes[p].channel < |m.boxes|
    requires !Held(m, p) && !Queued(m, p)
    requires a < b < |m.pushes|
    ensures InOrder(Transmit(m, p), a, b)
  {
    TransmitIssues(m, p);
    if a != p && b != p {
      assert InOrder(m, a, b);
    } else if b == p {
      assert PushOk(m, a);
    }
  }

  /** The first send of a push. */
  lemma TransmitKeeps(m: Mail, p: nat)
    requires p < |m.pushes| && InvBut(m, p) && Unsent(m, p)
    ensures Inv(Transmit(m, p))
  {
    var m' := Transmit(m, p);
    TransmitRequests(m, p);
    TransmitMessages(m, p);
    TransmitBoxes(m, p);
    TransmitQueue(m, p);
    TransmitSelf(m, p);
    forall q | 0 <= q < |m'.pushes| && q != p ensures PushOk(m', q) {
      TransmitOther(m, p, q);
    }
    forall a, b | 0 <= a < b < |m'.pushes| ensures InOrder(m', a, b) {
      TransmitOrder(m, p, a, b);
    }
  }

  /** Only buffered user pushes are held or queued. */
  lemma StoredKind(m: Mail, p: nat)
    requires Inv(m) && p < |m.pushes| && (Held(m, p) || Queued(m, p))
    ensures StoredOk(m, m.pushes[p].channel, p)
  {
    assert PushOk(m, p);
    var c := m.pushes[p].channel;
    assert BoxOk(m, c);
    if Held(m, p) {
      var i :| 0 <= i < |m.boxes[c].buffer| && m.boxes[c].buffer[i] == p;
      assert StoredOk(m, c, m.boxes[c].buffer[i]);
    } else {
      var i :| 0 <= i < |m.ready| && m.ready[i] == SendPush(p);
      assert TaskOk(m, m.ready[i]);
    }
  }

  lemma JoinUnbuffered(m: Mail, p: nat)
    requires Inv(m) && p < |m.pushes| && m.pushes[p].kind != User
    ensures !Held(m, p) && !Queued(m, p)
  {
    if Held(m, p) || Queued(m, p) {
      StoredKind(m, p);
    }
  }

  lemma JoinEditPush(m: Mail, n: Mail, p: nat, q: nat)
    requires p < |m.pushes| && JoinEdit(m, n, p) && q < |m.pushes| && PushOk(m, q)
    ensures PushOk(n, q)
  {
  }

  lemma JoinEditBox(m: Mail, n: Mail, p: nat, c: nat)
    requires p < |m.pushes| && JoinEdit(m, n, p) && c < |m.boxes| && BoxOk(m, c)
    ensures BoxOk(n, c)
  {
    forall k | k in n.boxes[c].waiting ensures EntryOk(n, c, k) {
      assert EntryOk(m, c, k);
    }
    forall i | 0 <= i < |n.boxes[c].buffer| ensures StoredOk(n, c, n.boxes[c].buffer[i]) {
      assert StoredOk(m, c, m.boxes[c].buffer[i]);
    }
  }

  lemma JoinEditQueue(m: Mail, n: Mail, p: nat)
    requires p < |m.pushes| && JoinEdit(m, n, p) && QueueOk(m)
    ensures QueueOk(n)
  {
    forall i | 0 <= i < |n.ready| ensures TaskOk(n, n.ready[i]) {
      assert TaskOk(m, m.ready[i]);
    }
    forall i, j | 0 <= i < j < |n.ready| ensures Ascending(n, n.ready[i], n.ready[j]) {
      assert Ascending(m, m.ready[i], m.ready[j]);
    }
  }

  lemma JoinEditKeeps(m: Mail, n: Mail, p: nat)
    requires Inv(m) && p < |m.pushes| && JoinEdit(m, n, p)
    ensures Inv(n)
  {
    JoinEditQueue(m, n, p);
    MessagesFrame(m, n);
    assert PushOk(m, p);
    forall q | 0 <= q < |n.pushes| ensures PushOk(n, q) {
      JoinEditPush(m, n, p, q);
    }
    forall c | 0 <= c < |n.boxes| ensures BoxOk(n, c) {
      JoinEditBox(m, n, p, c);
    }
    forall a, b | 0 <= a < b < |n.pushes| ensures InOrder(n, a, b) {
      assert InOrder(m, a, b);
    }
  }

  lemma ClearedKeeps(m: Mail, n: Mail, p: nat)
    requires Inv(m) && p < |m.pushes| && m.pushes[p].kind == Join
    requires n == m.(pushes := m.pushes[p := m.pushes[p].(ref := None, resp := None, sent := false)])
    ensures Inv(n) && InvBut(n, p)
  {
    assert PushOk(m, p);
    JoinEditKeeps(m, n, p);
    JoinUnbuffered(n, p);
  }

  /** `resend` of a join push. */
  lemma ResendKeeps(m: Mail, p: nat)
    requires Inv(m) && p < |m.pushes| && m.pushes[p].kind == Join
    ensures m.pushes[p].channel < |m.boxes| && Inv(Resend(m, p))
  {
    assert PushOk(m, p);
    var n := m.(pushes := m.pushes[p := m.pushes[p].(ref := None, resp := None, sent := false)]);
    var m' := Transmit(n, p);
    ClearedKeeps(m, n, p);
    TransmitRequests(n, p);
    TransmitMessages(n, p);
    TransmitBoxes(n, p);
    TransmitQueue(n, p);
    TransmitJoin(n, p);
    forall q | 0 <= q < |m'.pushes| && q != p ensures PushOk(m', q) {
      TransmitOther(n, p, q);
    }
    forall a, b | 0 <= a < b < |m'.pushes| ensures InOrder(m', a, b) {
      assert InOrder(n, a, b);
      JoinUnbuffered(m, p);
      TransmitOrder(n, p, a, b);
    }
  }

  /** Changing only the ref, response, slot, hooks and deliveries of a join push keeps the invariant. */
  ghost predicate JoinEdit(m: Mail, n: Mail, p: nat)
    requires p < |m.pushes|
  {
    && |n.pushes| == |m.pushes| && n == m.(pushes := m.pushes[p := n.pushes[p]])
    && var q, q' := m.pushes[p], n.pushes[p];
       && q.kind == Join && q'.kind == Join && q'.channel == q.channel && q'.buffered == q.buffered
       && q'.slot.Ok() && (q'.ref.Some? ==> q'.ref == q.ref) && (NeverCloses(q) ==> NeverCloses(q'))
  }

  // ---------- New pushes and channels ----------

  lemma NewIsNowhere(m: Mail, x: Push)
    requires Inv(m) && x.channel < |m.boxes|
    ensures |m.pushes| !in m.boxes[x.channel].buffer && SendPush(|m.pushes|) !in m.ready
    ensures m.boxes[x.channel].join != |m.pushes|
  {
    assert BoxOk(m, x.channel);
    var buffer := m.boxes[x.channel].buffer;
    forall i | 0 <= i < |buffer| ensures buffer[i] < |m.pushes| {
      assert StoredOk(m, x.channel, buffer[i]);
    }
    forall i | 0 <= i < |m.ready| ensures m.ready[i] != SendPush(|m.pushes|) {
      assert TaskOk(m, m.ready[i]);
    }
  }

  lemma GrownBox(m: Mail, x: Push, c: nat)
    requires Inv(m) && c < |m.boxes|
    ensures BoxOk(m.(pushes := m.pushes + [x]), c)
  {
    var n := m.(pushes := m.pushes + [x]);
    assert BoxOk(m, c);
    forall k | k in n.boxes[c].waiting ensures EntryOk(n, c, k) {
      assert EntryOk(m, c, k);
    }
    forall i | 0 <= i < |n.boxes[c].buffer| ensures StoredOk(n, c, n.boxes[c].buffer[i]) {
      assert StoredOk(m, c, m.boxes[c].buffer[i]);
    }
  }

  lemma Grown(m: Mail, x: Push)
    requires Inv(m) && x.kind != Join && x.channel < |m.boxes|
    ensures var n := m.(pushes := m.pushes + [x]);
      && RequestsOk(n) && MessagesOk(n) && BoxesOk(n) && QueueOk(n)
      && (forall q :: 0 <= q < |m.pushes| ==> PushOk(n, q))
      && (forall a, b :: 0 <= a < b < |m.pushes| ==> InOrder(n, a, b))
      && !Held(n, |m.pushes|) && !Queued(n, |m.pushes|) && n.boxes[x.channel].join != |m.pushes|
  {
    var n := m.(pushes := m.pushes + [x]);
    MessagesFrame(m, n);
    forall c | 0 <= c < |n.boxes| ensures BoxOk(n, c) {
      GrownBox(m, x, c);
    }
    forall q | 0 <= q < |m.pushes| ensures PushOk(n, q) {
      assert PushOk(m, q);
    }
    forall i | 0 <= i < |n.ready| ensures TaskOk(n, n.ready[i]) {
      assert TaskOk(m, m.ready[i]);
    }
    forall i, j | 0 <= i < j < |n.ready| ensures Ascending(n, n.ready[i], n.ready[j]) {
      assert Ascending(m, m.ready[i], m.ready[j]) && TaskOk(m, m.ready[i]) && TaskOk(m, m.ready[j]);
    }
    forall a, b | 0 <= a < b < |m.pushes| ensures InOrder(n, a, b) {
      assert InOrder(m, a, b);
    }
    NewIsNowhere(m, x);
  }

  /** A push sent at once. */
  lemma PostKeeps(m: Mail, c: nat, kind: Kind)
    requires Inv(m) && c < |m.boxes| && kind != Join
    ensures Inv(Post(m, c, kind))
  {
    Grown(m, NewPush(c, kind));
    TransmitKeeps(m.(pushes := m.pushes + [NewPush(c, kind)]), |m.pushes|);
  }

  lemma HoldBox(m: Mail, n: Mail, c: nat, d: nat)
    requires c < |m.boxes| && d < |m.boxes|
    requires n == m.(pushes := m.pushes + [StartTimeout(NewPush(c, User)).(buffered := true)]) && BoxOk(n, d)
    requires BoxesOk(m)
    ensures BoxOk(Hold(m, c), d)
  {
    var m' := Hold(m, c);
    var b, b' := n.boxes[d], m'.boxes[d];
    forall k | k in b'.waiting ensures EntryOk(m', d, k) {
      assert EntryOk(n, d, k);
    }
    assert BoxOk(m, d);
    forall i | 0 <= i < |b.buffer| ensures b.buffer[i] < |m.pushes| && StoredOk(m', d, b.buffer[i]) {
      assert StoredOk(m, d, b.buffer[i]);
    }
  }

  lemma HoldOrder(m: Mail, n: Mail, c: nat)
    requires Inv(m) && c < |m.boxes|
    requires n == m.(pushes := m.pushes + [StartTimeout(NewPush(c, User)).(buffered := true)])
    ensures OrderOk(Hold(m, c))
  {
    var m' := Hold(m, c);
    Grown(m, StartTimeout(NewPush(c, User)).(buffered := true));
    forall a, b | 0 <= a < b < |m'.pushes| ensures InOrder(m', a, b) {
      assert b < |m.pushes| ==> InOrder(n, a, b);
    }
  }

  /** A push that has to wait. */
  lemma HoldKeeps(m: Mail, c: nat)
    requires Inv(m) && c < |m.boxes|
    ensures Inv(Hold(m, c))
  {
    var x := StartTimeout(NewPush(c, User)).(buffered := true);
    var n := m.(pushes := m.pushes + [x]);
    var m' := Hold(m, c);
    Grown(m, x);
    MessagesFrame(m, m');
    forall q | 0 <= q < |m'.pushes| ensures PushOk(m', q) {
      assert q < |m.pushes| ==> PushOk(n, q);
    }
    forall d | 0 <= d < |m'.boxes| ensures BoxOk(m', d) {
      HoldBox(m, n, c, d);
    }
    forall i | 0 <= i < |m'.ready| ensures TaskOk(m', m'.ready[i]) {
      assert TaskOk(n, n.ready[i]);
    }
    forall i, j | 0 <= i < j < |m'.ready| ensures Ascending(m', m'.ready[i], m'.ready[j]) {
      assert Ascending(n, n.ready[i], n.ready[j]);
    }
    HoldOrder(m, n, c);
  }

  lemma AddBoxBox(m: Mail, topic: string, c: nat)
    requires Inv(m) && c < |m.boxes|
    ensures BoxOk(AddBox(m, topic), c)
  {
    var m' := AddBox(m, topic);
    assert BoxOk(m, c);
    forall k | k in m.boxes[c].waiting ensures EntryOk(m', c, k) {
      assert EntryOk(m, c, k);
    }
    forall i | 0 <= i < |m.boxes[c].buffer| ensures StoredOk(m', c, m.boxes[c].buffer[i]) {
      assert StoredOk(m, c, m.boxes[c].buffer[i]);
    }
  }

  /** A new channel. */
  lemma AddBoxKeeps(m: Mail, topic: string)
    requires Inv(m)
    ensures Inv(AddBox(m, topic))
  {
    var m' := AddBox(m, topic);
    MessagesFrame(m, m');
    forall q | 0 <= q < |m'.pushes| ensures PushOk(m', q) {
      assert q < |m.pushes| ==> PushOk(m, q);
    }
    forall c | 0 <= c < |m'.boxes| ensures BoxOk(m', c) {
      if c < |m.boxes| {
        AddBoxBox(m, topic, c);
      }
    }
    forall i | 0 <= i < |m'.ready| ensures TaskOk(m', m'.ready[i]) {
      assert TaskOk(m, m.ready[i]);
    }
    forall i, j | 0 <= i < j < |m'.ready| ensures Ascending(m', m'.ready[i], m'.ready[j]) {
      assert Ascending(m, m.ready[i], m.ready[j]) && TaskOk(m, m.ready[i]) && TaskOk(m, m.ready[j]);
    }
    forall a, b | 0 <= a < b < |m'.pushes| ensures InOrder(m', a, b) {
      assert b < |m.pushes| ==> InOrder(m, a, b) && PushOk(m, a) && PushOk(m, b);
    }
  }

  // ---------- The ready queue ----------

  lemma DrainPlaces(m: Mail, c: nat, q: nat)
    requires Inv(m) && c < |m.boxes| && q < |m.pushes|
    ensures var m' := Drain(m, c);
      && (Held(m', q) <==> Held(m, q) && m.pushes[q].channel != c)
      && (Queued(m', q) <==> Queued(m, q) || (Held(m, q) && m.pushes[q].channel == c))
  {
    var buffer := m.boxes[c].buffer;
    var tasks := SendTasks(buffer);
    if q in buffer {
      var i :| 0 <= i < |buffer| && buffer[i] == q;
      assert BoxOk(m, c) && StoredOk(m, c, buffer[i]);
      assert tasks[i] == SendPush(q);
    }
    if SendPush(q) in tasks {
      var i :| 0 <= i < |tasks| && tasks[i] == SendPush(q);
      assert buffer[i] == q;
    }
    assert PushOk(m, q);
  }

  lemma DrainPush(m: Mail, c: nat, q: nat)
    requires Inv(m) && c < |m.boxes| && q < |m.pushes|
    ensures PushOk(Drain(m, c), q)
  {
    assert PushOk(m, q);
    DrainPlaces(m, c, q);
  }

  lemma DrainTask(m: Mail, c: nat, i: nat)
    requires Inv(m) && c < |m.boxes| && i < |Drain(m, c).ready|
    ensures TaskOk(Drain(m, c), Drain(m, c).ready[i])
    ensures |m.ready| <= i ==> var k := i - |m.ready|;
      && k < |m.boxes[c].buffer| && Drain(m, c).ready[i] == SendPush(m.boxes[c].buffer[k])
      && StoredOk(m, c, m.boxes[c].buffer[k])
  {
    if i < |m.ready| {
      assert TaskOk(m, m.ready[i]);
    } else {
      assert BoxOk(m, c) && StoredOk(m, c, m.boxes[c].buffer[i - |m.ready|]);
    }
  }

  lemma OrderAt(m: Mail, p: nat, q: nat)
    requires OrderOk(m) && p < |m.pushes| && q < |m.pushes|
    ensures p < q ==> InOrder(m, p, q)
  {
  }

  lemma DrainAscending(m: Mail, c: nat, i: nat, j: nat)
    requires Inv(m) && c < |m.boxes| && i < j < |Drain(m, c).ready|
    ensures Ascending(Drain(m, c), Drain(m, c).ready[i], Drain(m, c).ready[j])
  {
    var s, t := Drain(m, c).ready[i], Drain(m, c).ready[j];
    DrainTask(m, c, i);
    DrainTask(m, c, j);
    if j < |m.ready| {
      assert Ascending(m, m.ready[i], m.ready[j]);
    } else if i < |m.ready| {
      if s.SendPush? && m.pushes[s.push].channel == c {
        var a, b := s.push, t.push;
        assert m.ready[i] == SendPush(a) && b in m.boxes[c].buffer;
        assert PushOk(m, a) && PushOk(m, b);
        OrderAt(m, b, a);
      }
    } else {
      assert BoxOk(m, c);
    }
  }

  /** A successful join turns the buffer into tasks. */
  lemma DrainKeeps(m: Mail, c: nat)
    requires Inv(m) && c < |m.boxes|
    ensures Inv(Drain(m, c))
  {
    var m' := Drain(m, c);
    MessagesFrame(m, m');
    forall q | 0 <= q < |m'.pushes| ensures PushOk(m', q) {
      DrainPush(m, c, q);
    }
    forall d | 0 <= d < |m'.boxes| ensures BoxOk(m', d) {
      assert BoxOk(m, d);
      forall k | k in m'.boxes[d].waiting ensures EntryOk(m', d, k) {
        assert EntryOk(m, d, k);
      }
      forall i | 0 <= i < |m'.boxes[d].buffer| ensures StoredOk(m', d, m'.boxes[d].buffer[i]) {
        assert StoredOk(m, d, m.boxes[d].buffer[i]);
      }
    }
    forall i | 0 <= i < |m'.ready| ensures TaskOk(m', m'.ready[i]) {
      DrainTask(m, c, i);
    }
    forall i, j | 0 <= i < j < |m'.ready| ensures Ascending(m', m'.ready[i], m'.ready[j]) {
      DrainAscending(m, c, i, j);
    }
    forall a, b | 0 <= a < b < |m'.pushes| ensures InOrder(m', a, b) {
      DrainPlaces(m, c, a);
      DrainPlaces(m, c, b);
      assert InOrder(m, a, b);
    }
  }

  lemma PoppedPlaces(m: Mail, q: nat)
    requires Inv(m) && m.ready != [] && q < |m.pushes|
    ensures Queued(PopTask(m), q) <==> Queued(m, q) && m.ready[0] != SendPush(q)
    ensures Held(PopTask(m), q) <==> Held(m, q)
  {
    assert m.ready == [m.ready[0]] + m.ready[1..];
    if Queued(PopTask(m), q) {
      var j :| 0 <= j < |m.ready[1..]| && m.ready[1..][j] == SendPush(q);
      assert Ascending(m, m.ready[0], m.ready[j + 1]);
    }
  }

  lemma PoppedQueue(m: Mail)
    requires Inv(m) && m.ready != []
    ensures QueueOk(PopTask(m)) && BoxesOk(PopTask(m)) && RequestsOk(PopTask(m)) && MessagesOk(PopTask(m))
  {
    var n := PopTask(m);
    MessagesFrame(m, n);
    forall i | 0 <= i < |n.ready| ensures TaskOk(n, n.ready[i]) {
      assert TaskOk(m, m.ready[i + 1]);
    }
    forall i, j | 0 <= i < j < |n.ready| ensures Ascending(n, n.ready[i], n.ready[j]) {
      assert Ascending(m, m.ready[i + 1], m.ready[j + 1]);
    }
    forall c | 0 <= c < |n.boxes| ensures BoxOk(n, c) {
      assert BoxOk(m, c);
      forall k | k in n.boxes[c].waiting ensures EntryOk(n, c, k) {
        assert EntryOk(m, c, k);
      }
      forall i | 0 <= i < |n.boxes[c].buffer| ensures StoredOk(n, c, n.boxes[c].buffer[i]) {
        assert StoredOk(m, c, m.boxes[c].buffer[i]);
      }
    }
  }

  /** What stays queued is younger than what runs. */
  lemma PoppedYounger(m: Mail, a: nat, b: nat)
    requires Inv(m) && m.ready != [] && a < |m.pushes| && b < |m.pushes|
    ensures m.ready[0] == SendPush(b) && Queued(PopTask(m), a) && Rivals(m, a, b) ==> b < a
  {
    if m.ready[0] == SendPush(b) && Queued(PopTask(m), a) && Rivals(m, a, b) {
      var j :| 0 <= j < |m.ready[1..]| && m.ready[1..][j] == SendPush(a);
      assert Ascending(m, m.ready[0], m.ready[j + 1]);
    }
  }

  lemma PoppedOrder(m: Mail, a: nat, b: nat)
    requires Inv(m) && m.ready != [] && a < b < |m.pushes|
    ensures InOrder(PopTask(m), a, b)
  {
    PoppedPlaces(m, a);
    PoppedPlaces(m, b);
    PoppedYounger(m, a, b);
    assert InOrder(m, a, b);
  }

  lemma PopTaskKeeps(m: Mail)
    requires Inv(m) && m.ready != []
    requires m.ready[0].SendPush? ==> m.ready[0].push < |m.pushes| && m.pushes[m.ready[0].push].TimedOut()
    ensures Inv(PopTask(m))
  {
    var n := PopTask(m);
    PoppedQueue(m);
    forall q | 0 <= q < |n.pushes| ensures PushOk(n, q) {
      assert PushOk(m, q);
      PoppedPlaces(m, q);
    }
    forall a, b | 0 <= a < b < |n.pushes| ensures InOrder(n, a, b) {
      PoppedOrder(m, a, b);
    }
  }

  /** The oldest task sends its push, unless that push has timed out. */
  lemma RunSendKeeps(m: Mail)
    requires Inv(m) && m.ready != [] && m.ready[0].SendPush?
    ensures m.ready[0].push < |m.pushes| && m.pushes[m.ready[0].push].channel < |m.boxes|
    ensures Inv(RunSend(m))
  {
    var p := m.ready[0].push;
    var n := PopTask(m);
    assert TaskOk(m, m.ready[0]);
    assert PushOk(m, p);
    if m.pushes[p].TimedOut() {
      PopTaskKeeps(m);
    } else {
      PoppedQueue(m);
      PoppedPlaces(m, p);
      assert Queued(m, p);
      forall q | 0 <= q < |n.pushes| && q != p ensures PushOk(n, q) {
        assert PushOk(m, q);
        PoppedPlaces(m, q);
      }
      forall a, b | 0 <= a < b < |n.pushes| ensures InOrder(n, a, b) {
        PoppedOrder(m, a, b);
      }
      forall a | 0 <= a < p && Rivals(n, a, p) ensures !Held(n, a) && !Queued(n, a) {
        assert InOrder(m, a, p);
        PoppedYounger(m, a, p);
      }
      forall b | p < b < |n.pushes| && Rivals(n, p, b) ensures n.pushes[b].ref.None? {
        assert InOrder(m, p, b) && PushOk(m, b);
      }
      TransmitKeeps(n, p);
    }
  }

  lemma QueueUnsubscribeKeeps(m: Mail, c: nat)
    requires Inv(m) && c < |m.boxes|
    ensures Inv(QueueUnsubscribe(m, c))
  {
    var n := QueueUnsubscribe(m, c);
    MessagesFrame(m, n);
    forall q | 0 <= q < |n.pushes| ensures PushOk(n, q) && (Queued(n, q) <==> Queued(m, q)) {
      assert PushOk(m, q);
    }
    forall d | 0 <= d < |n.boxes| ensures BoxOk(n, d) {
      assert BoxOk(m, d);
      forall k | k in n.boxes[d].waiting ensures EntryOk(n, d, k) {
        assert EntryOk(m, d, k);
      }
      forall i | 0 <= i < |n.boxes[d].buffer| ensures StoredOk(n, d, n.boxes[d].buffer[i]) {
        assert StoredOk(m, d, m.boxes[d].buffer[i]);
      }
    }
    forall i | 0 <= i < |n.ready| ensures TaskOk(n, n.ready[i]) {
      assert i < |m.ready| ==> TaskOk(m, m.ready[i]);
    }
    forall i, j | 0 <= i < j < |n.ready| ensures Ascending(n, n.ready[i], n.ready[j]) {
      assert j < |m.ready| ==> Ascending(m, m.ready[i], m.ready[j]);
    }
    forall a, b | 0 <= a < b < |n.pushes| ensures InOrder(n, a, b) {
      assert InOrder(m, a, b);
    }
  }

  // ---------- Replies and timeouts ----------

  /** n is m with one entry gone from channel c's waiting map and push p, whose entry it was, responded to. */
  ghost predicate Answered(m: Mail, n: Mail, c: nat, r: string, p: nat)
    requires c < |m.boxes| && p < |m.pushes|
  {
    && |n.pushes| == |m.pushes|
    && n == m.(boxes := m.boxes[c := m.boxes[c].(waiting := m.boxes[c].waiting - {r})],
               pushes := m.pushes[p := n.pushes[p]])
    && var q, q' := m.pushes[p], n.pushes[p];
       && q'.kind == q.kind && q'.channel == q.channel && q'.buffered == q.buffered
       && q'.sent == q.sent && q'.ref == q.ref
       && q'.okHooks == q.okHooks && q'.errorHooks == q.errorHooks && q'.timeoutHooks == q.timeoutHooks && q'.slot.Ok()
  }

  lemma UnansweredPush(m: Mail, n: Mail, c: nat, r: string, p: nat, q: nat)
    requires Inv(m) && c < |m.boxes| && p < |m.pushes| && m.pushes[p].channel == c && Answered(m, n, c, r, p)
    requires r in m.boxes[c].waiting ==> m.boxes[c].waiting[r] == p
    requires q < |m.pushes| && q != p
    ensures PushOk(n, q)
  {
    assert PushOk(m, q) && PushOk(m, p);
    assert n.pushes[q] == m.pushes[q];
  }

  lemma AnsweredPush(m: Mail, n: Mail, c: nat, r: string, p: nat, q: nat)
    requires Inv(m) && c < |m.boxes| && p < |m.pushes| && m.pushes[p].channel == c && Answered(m, n, c, r, p)
    requires m.pushes[p].kind != Join ==>
      DeliveriesOk(n.pushes[p]) && n.pushes[p].resp.Some? && (m.pushes[p].ref.Some? ==> m.pushes[p].ref == Some(r))
      && (m.pushes[p].sent || n.pushes[p].delivered[0] == Timeout)
      && (!m.pushes[p].sent && m.pushes[p].TimedOut() ==> n.pushes[p].TimedOut())
    requires r in m.boxes[c].waiting ==> m.boxes[c].waiting[r] == p
    requires q < |m.pushes|
    ensures PushOk(n, q)
  {
    assert PushOk(m, q) && PushOk(m, p);
    if q != p {
      UnansweredPush(m, n, c, r, p, q);
    }
  }

  lemma AnsweredBox(m: Mail, n: Mail, c: nat, r: string, p: nat, d: nat)
    requires Inv(m) && c < |m.boxes| && p < |m.pushes| && m.pushes[p].channel == c && Answered(m, n, c, r, p)
    requires m.pushes[p].kind != Join && m.pushes[p].ref.Some? ==> m.pushes[p].ref == Some(r)
    requires d < |m.boxes|
    ensures BoxOk(n, d)
  {
    assert BoxOk(m, d) && PushOk(m, p);
    forall k | k in n.boxes[d].waiting ensures EntryOk(n, d, k) {
      assert EntryOk(m, d, k);
    }
    forall i | 0 <= i < |n.boxes[d].buffer| ensures StoredOk(n, d, n.boxes[d].buffer[i]) {
      assert StoredOk(m, d, m.boxes[d].buffer[i]);
    }
  }

  lemma AnsweredKeeps(m: Mail, n: Mail, c: nat, r: string, p: nat)
    requires Inv(m) && c < |m.boxes| && p < |m.pushes| && m.pushes[p].channel == c && Answered(m, n, c, r, p)
    requires m.pushes[p].kind != Join ==>
      DeliveriesOk(n.pushes[p]) && n.pushes[p].resp.Some? && (m.pushes[p].ref.Some? ==> m.pushes[p].ref == Some(r))
      && (m.pushes[p].sent || n.pushes[p].delivered[0] == Timeout)
      && (!m.pushes[p].sent && m.pushes[p].TimedOut() ==> n.pushes[p].TimedOut())
    requires r in m.boxes[c].waiting ==> m.boxes[c].waiting[r] == p
    ensures Inv(n)
  {
    MessagesFrame(m, n);
    forall q | 0 <= q < |n.pushes| ensures PushOk(n, q) {
      AnsweredPush(m, n, c, r, p, q);
    }
    forall d | 0 <= d < |n.boxes| ensures BoxOk(n, d) {
      AnsweredBox(m, n, c, r, p, d);
    }
    forall i | 0 <= i < |n.ready| ensures TaskOk(n, n.ready[i]) {
      assert TaskOk(m, m.ready[i]);
    }
    forall i, j | 0 <= i < j < |n.ready| ensures Ascending(n, n.ready[i], n.ready[j]) {
      assert Ascending(m, m.ready[i], m.ready[j]);
    }
    forall a, b | 0 <= a < b < |n.pushes| ensures InOrder(n, a, b) {
      assert InOrder(m, a, b);
    }
  }

  lemma ReplyKeeps(m: Mail, c: nat, r: string, resp: Response)
    requires Inv(m) && c < |m.boxes| && r in m.boxes[c].waiting && resp.status != Timeout
    ensures m.boxes[c].waiting[r] < |m.pushes| && m.pushes[m.boxes[c].waiting[r]].channel == c
    ensures Inv(Reply(m, c, r, resp))
  {
    var p := m.boxes[c].waiting[r];
    assert BoxOk(m, c) && EntryOk(m, c, r);
    assert PushOk(m, p);
    AnsweredKeeps(m, Reply(m, c, r, resp), c, r, p);
  }

  /** The next ref waits nowhere: taking it away changes nothing. */
  lemma FreshRefUnknown(m: Mail, c: nat)
    requires Inv(m) && c < |m.boxes|
    ensures var r := Decimal(m.ref + 1);
      && r !in m.boxes[c].waiting
      && m.boxes[c := m.boxes[c].(waiting := m.boxes[c].waiting - {r})] == m.boxes
  {
    var r := Decimal(m.ref + 1);
    NumberOfDecimal(m.ref + 1);
    assert BoxOk(m, c) && forall k :: k in m.boxes[c].waiting ==> EntryOk(m, c, k);
    assert m.boxes[c].waiting - {r} == m.boxes[c].waiting;
  }

  lemma UnsentTimeoutKeeps(m: Mail, p: nat, i: nat)
    requires Inv(m) && p < |m.pushes| && m.pushes[p].kind != Join && m.pushes[p].ref.None?
    requires i < |m.pushes[p].slot.tasks| && m.pushes[p].slot.tasks[i].Pending?
    ensures Inv(Expire(m, p, i))
  {
    assert PushOk(m, p);
    var c := m.pushes[p].channel;
    var r := Decimal(m.ref + 1);
    FreshRefUnknown(m, c);
    AnsweredKeeps(m, Expire(m, p, i), c, r, p);
  }

  /** The whole timeout task of a push that is not a join. */
  lemma SentTimeoutKeeps(m: Mail, p: nat, i: nat)
    requires Inv(m) && p < |m.pushes| && m.pushes[p].kind != Join && m.pushes[p].ref.Some?
    requires i < |m.pushes[p].slot.tasks| && m.pushes[p].slot.tasks[i].Pending?
    ensures m.pushes[p].channel < |m.boxes| && Inv(Forget(Expire(m, p, i), p))
  {
    assert PushOk(m, p);
    var q := m.pushes[p];
    assert BoxOk(m, q.channel);
    assert q.ref.value in m.boxes[q.channel].waiting ==> EntryOk(m, q.channel, q.ref.value);
    AnsweredKeeps(m, Forget(Expire(m, p, i), p), q.channel, q.ref.value, p);
  }

  lemma TimeoutKeeps(m: Mail, p: nat, i: nat)
    requires Inv(m) && p < |m.pushes| && m.pushes[p].kind != Join
    requires i < |m.pushes[p].slot.tasks| && m.pushes[p].slot.tasks[i].Pending?
    ensures m.pushes[p].channel < |m.boxes| && Inv(Forget(Expire(m, p, i), p))
  {
    assert PushOk(m, p);
    var q := m.pushes[p];
    if q.ref.Some? {
      SentTimeoutKeeps(m, p, i);
    } else {
      UnsentTimeoutKeeps(m, p, i);
    }
  }

  lemma ExpireJoinKeeps(m: Mail, p: nat, i: nat)
    requires Inv(m) && p < |m.pushes| && m.pushes[p].kind == Join && i < |m.pushes[p].slot.tasks|
    ensures Inv(Expire(m, p, i))
  {
    assert PushOk(m, p);
    JoinEditKeeps(m, Expire(m, p, i), p);
  }

  lemma ForgetJoinKeeps(m: Mail, p: nat)
    requires Inv(m) && p < |m.pushes| && m.pushes[p].kind == Join
    ensures m.pushes[p].channel < |m.boxes| && Inv(Forget(m, p))
  {
    assert PushOk(m, p);
    var c := m.pushes[p].channel;
    if m.pushes[p].ref.Some? {
      assert BoxOk(m, c);
      assert m.pushes[p].ref.value in m.boxes[c].waiting ==> EntryOk(m, c, m.pushes[p].ref.value);
      assert m.pushes[p := m.pushes[p]] == m.pushes;
      AnsweredKeeps(m, Forget(m, p), c, m.pushes[p].ref.value, p);
    }
  }

  lemma DestroyKeeps(m: Mail, p: nat)
    requires Inv(m) && p < |m.pushes| && m.pushes[p].kind == Join
    ensures Inv(Destroy(m, p))
  {
    assert PushOk(m, p);
    JoinEditKeeps(m, Destroy(m, p), p);
  }

  lemma AddHookKeeps(m: Mail, p: nat, status: Ack, h: Hook)
    requires Inv(m) && p < |m.pushes| && m.pushes[p].kind == Join && h != Close
    ensures Inv(AddHook(m, p, status, h))
  {
    assert PushOk(m, p);
    JoinEditKeeps(m, AddHook(m, p, status, h), p);
  }

  // ---------- The connection ----------

  lemma ConnectionKeeps(m: Mail, n: Mail)
    requires Inv(m) && (n == Open(m) || n == Disconnect(m))
    ensures Inv(n)
  {
    assert n.wire + n.sendBuffer == m.wire + m.sendBuffer;
    MessagesFrame(m, n);
    forall q | 0 <= q < |n.pushes| ensures PushOk(n, q) {
      assert PushOk(m, q);
    }
    forall d | 0 <= d < |n.boxes| ensures BoxOk(n, d) {
      assert BoxOk(m, d);
      forall k | k in n.boxes[d].waiting ensures EntryOk(n, d, k) {
        assert EntryOk(m, d, k);
      }
      forall i | 0 <= i < |n.boxes[d].buffer| ensures StoredOk(n, d, n.boxes[d].buffer[i]) {
        assert StoredOk(m, d, m.boxes[d].buffer[i]);
      }
    }
    forall i | 0 <= i < |n.ready| ensures TaskOk(n, n.ready[i]) {
      assert TaskOk(m, m.ready[i]);
    }
    forall i, j | 0 <= i < j < |n.ready| ensures Ascending(n, n.ready[i], n.ready[j]) {
      assert Ascending(m, m.ready[i], m.ready[j]);
    }
    forall a, b | 0 <= a < b < |n.pushes| ensures InOrder(n, a, b) {
      assert InOrder(m, a, b);
    }
  }

  lemma WaitingRefIsText(m: Mail, c: nat, ref: string)
    requires Inv(m) && c < |m.boxes| && ref in m.boxes[c].waiting
    ensures ref != ""
  {
    assert BoxOk(m, c) && EntryOk(m, c, ref);
    assert m.requested[Number(ref) - 1].ref == Decimal(Number(ref));
  }
}
