/** What each call of the user and each change of the connection does to the whole client. */
module CallEffects {
  import opened PyDict
  import opened Refs
  import opened Timers
  import opened Pushes
  import opened Protocol
  import opened ProtocolLife
  import opened Recovery
  import opened SelfLeave
  import opened HeardRuns
  import Bindings

  /** From m to n one message with the next ref was asked for: on the wire while connected, else buffered last. */
  predicate Asks(m: Mail, n: Mail, msg: Message) {
    && n.requested == m.requested + [msg] && n.ref == m.ref + 1 && n.connected == m.connected
    && n.wire == (if m.connected then m.wire + [msg] else m.wire)
    && n.sendBuffer == (if m.connected then m.sendBuffer else m.sendBuffer + [msg])
  }

  function OneTask(): Slot {
    Slot(Some(0), [Pending])
  }

  lemma NewPushTimeout(m: Mail, c: nat, kind: Kind, q: Push)
    ensures StartTimeout(NewPush(c, kind)) == NewPush(c, kind).(slot := OneTask())
    ensures (m.pushes + [NewPush(c, kind)])[|m.pushes| := q] == m.pushes + [q]
  {
    assert EMPTY.tasks + [Pending] == [Pending];
  }

  // ---------- Pushes of the user ----------

  /** Before the first `subscribe` a push raises and changes nothing. */
  lemma PushBeforeSubscribe(w: World, c: nat)
    requires WorldOk(w) && c < |w.chans| && !w.chans[c].joinedOnce
    ensures Step(w, UserPushes(c)) == w
  {
  }

  lemma PostEffect(m: Mail, c: nat, kind: Kind)
    requires c < |m.boxes|
    ensures var n := Post(m, c, kind); var ref, p := Decimal(m.ref + 1), |m.pushes|;
      && Asks(m, n, Message(m.boxes[c].topic, kind, ref, p)) && n.ready == m.ready
      && n.pushes == m.pushes + [NewPush(c, kind).(ref := Some(ref), sent := true, slot := OneTask())]
      && n.boxes == m.boxes[c := m.boxes[c].(waiting := m.boxes[c].waiting[ref := p])]
  {
    NewPushTimeout(m, c, kind, NewPush(c, kind).(ref := Some(Decimal(m.ref + 1)), sent := true, slot := OneTask()));
  }

  /** While connected it is sent at once under the next ref, whatever is buffered, with its timeout running. */
  lemma PushConnected(w: World, c: nat)
    requires WorldOk(w) && c < |w.chans| && w.chans[c].joinedOnce && w.mail.connected
    ensures var m, r := w.mail, Step(w, UserPushes(c)); var n, ref, b := |m.pushes|, Decimal(m.ref + 1), m.boxes[c];
      && r == w.(mail := r.mail) && Asks(m, r.mail, Message(b.topic, User, ref, n)) && r.mail.ready == m.ready
      && r.mail.pushes == m.pushes + [NewPush(c, User).(ref := Some(ref), sent := true, slot := OneTask())]
      && r.mail.boxes == m.boxes[c := b.(waiting := b.waiting[ref := n])]
  {
    PostEffect(w.mail, c, User);
  }

  /** While disconnected it is held last in its channel's buffer: without ref, unsent, with its timeout running. */
  lemma PushDisconnected(w: World, c: nat)
    requires WorldOk(w) && c < |w.chans| && w.chans[c].joinedOnce && !w.mail.connected
    ensures var m, r := w.mail, Step(w, UserPushes(c)); var n, b := |m.pushes|, m.boxes[c];
      && r == w.(mail := m.(pushes := m.pushes + [NewPush(c, User).(buffered := true, slot := OneTask())],
                            boxes := m.boxes[c := b.(buffer := b.buffer + [n])]))
      && n < |r.mail.pushes| && Held(r.mail, n) && !r.mail.pushes[n].sent && r.mail.pushes[n].ref.None?
      && r.mail.pushes[n].slot.IsPending()
  {
    NewPushTimeout(w.mail, c, User, NewPush(c, User));
  }

  // ---------- Leaving ----------

  /** From w to r channel c has left: its timers are stopped, one leave push was made and asked for, and that is all. */
  ghost predicate LeavesNow(w: World, r: World, c: nat) {
    && WorldOk(w) && c < |w.chans| == |r.chans|
    && var m, n, ref, ch := w.mail, |w.mail.pushes|, Decimal(w.mail.ref + 1), w.chans[c];
       && r.registry == w.registry && r.chans == w.chans[c := ch.(state := Leaving, timer := r.chans[c].timer)]
       && !r.chans[c].timer.slot.IsPending() && r.chans[c].timer.tries == 0
       && Asks(m, r.mail, Message(Topic(w, c), Leave, ref, n)) && r.mail.ready == m.ready
       && |r.mail.pushes| == n + 1 && JoinOf(w, c) < n
       && r.mail.pushes == m.pushes[JoinOf(w, c) := JoinPush(w, c).(slot := r.mail.pushes[JoinOf(w, c)].slot)]
                         + [NewPush(c, Leave).(ref := Some(ref), sent := true, slot := OneTask())]
       && Stopped(r.mail.pushes[JoinOf(w, c)].slot)
       && r.mail.boxes == m.boxes[c := m.boxes[c].(waiting := m.boxes[c].waiting[ref := n])]
  }

  /** No task is held, and none is pending. */
  ghost predicate Stopped(s: Slot) {
    s.current.None? && forall i :: 0 <= i < |s.tasks| ==> !s.tasks[i].Pending?
  }

  lemma DestroyStops(s: Slot)
    requires s.Ok()
    ensures Stopped(s.Cancel().Clear())
  {
  }

  lemma UnsubEffect(w: World, c: nat)
    requires LifeOk(w) && c < |w.chans|
    ensures LeavesNow(w, Unsub(w, c), c)
  {
    var j := JoinOf(w, c);
    assert ChanOk(w, c) && PushOk(w.mail, j);
    ResetOk(w.chans[c].timer);
    DestroyStops(JoinPush(w, c).slot);
    PostEffect(Destroy(w.mail, j), c, Leave);
  }

  lemma UnsubscribeEffect(w: World, c: nat)
    requires LifeOk(w) && c < |w.chans|
    ensures LeavesNow(w, Step(w, Unsubscribes(c)), c)
  {
    UnsubEffect(w, c);
  }

  /**
   * `remove_channel` makes the channel now registered for the topic leave, and keeps the connection, also when it is
   * the last; only when no channel at all is registered does it disconnect.
   */
  lemma RemoveEffect(w: World, c: nat)
    requires LifeOk(w) && c < |w.chans|
    ensures var t, r := Topic(w, c), Step(w, Removes(c));
      if t in w.registry.vals then LeavesNow(w, r, w.registry.vals[t])
      else r == w.(mail := w.mail.(connected := w.mail.connected && w.registry.keys != []))
  {
    var t := Topic(w, c);
    if t in w.registry.vals {
      UnsubEffect(w, w.registry.vals[t]);
      assert t in w.registry.keys;
    }
  }

  // ---------- Channels, registrations, subscriptions that raise ----------

  /** A new closed channel takes over its topic; no other channel and no message is touched. */
  lemma CreateEffect(w: World, name: string)
    requires WorldOk(w)
    ensures var r, c, t := Step(w, Creates(name)), |w.chans|, "realtime:" + name;
      && r.chans == w.chans + [NEW_CHAN] && Topic(r, c) == t && r.registry.vals == w.registry.vals[t := c]
      && r.registry.keys == (if t in w.registry.vals then w.registry.keys else w.registry.keys + [t])
      && r.mail == w.mail.(pushes := w.mail.pushes + [JoinPush(r, c)], boxes := w.mail.boxes + [r.mail.boxes[c]])
      && JoinPush(r, c) == NewPush(c, Join) && r.mail.boxes[c] == Box(t, |w.mail.pushes|, map[], [])
  {
  }

  /** A registration is added last, without id. */
  lemma RegisterEffect(w: World, c: nat, b: Bindings.Binding)
    requires WorldOk(w) && c < |w.chans|
    ensures var ch := w.chans[c];
      Step(w, Registers(c, b)) == w.(chans := w.chans[c := ch.(bindings := ch.bindings + [b.(id := None)])])
  {
  }

  /** A `subscribe` that cannot connect changes nothing; a second one only connects. */
  lemma SubscribeRaises(w: World, c: nat, succeeds: bool)
    requires WorldOk(w) && c < |w.chans| && (w.chans[c].joinedOnce || !(w.mail.connected || succeeds))
    ensures Step(w, Subscribes(c, succeeds)) == Step(w, Connects(succeeds))
  {
  }

  /** What a first `subscribe` tells its callback at once: what the join's recorded response amounts to. */
  function Tells(q: Push, bs: seq<Bindings.Binding>): seq<Report> {
    if q.resp.None? then []
    else match q.resp.value.status
      case Ok => [if Bindings.Match(bs, q.resp.value.rows).matched then Subscribed else ChannelError]
      case Error => [ChannelError]
      case Timeout => [Report.TimedOut]
  }

  lemma ReceiveTells(w: World, c: nat, status: Ack, h: Hook)
    requires WorldOk(w) && c < |w.chans|
    requires h == match status case Ok => SubscribeOk case Error => SubscribeError case Timeout => SubscribeTimeout
    ensures var q, r := JoinPush(w, c), Receive(w, c, status, h);
      && JoinOf(r, c) == JoinOf(w, c) && JoinPush(r, c).resp == q.resp
      && r.chans[c].reports == w.chans[c].reports + (if Gave(q, status) then Tells(q, w.chans[c].bindings) else [])
      && (status != Pushes.Ok ==> r.chans[c].bindings == w.chans[c].bindings)
  {
    ReceiveAdds(w, c, status, h);
  }

  lemma RejoinKeepsReports(w: World, d: nat, c: nat)
    requires WorldOk(w) && d < |w.chans| && c < |w.chans|
    ensures Rejoin(w, d).chans[c].reports == w.chans[c].reports
  {
  }

  lemma CallbacksTell(u: World, c: nat)
    requires WorldOk(u) && c < |u.chans|
    ensures var r := RegisterCallbacks(u, c);
      r.chans[c].reports == u.chans[c].reports + Tells(JoinPush(u, c), u.chans[c].bindings)
  {
    var w1 := u.(chans := u.chans[c := u.chans[c].(joinedOnce := true)]);
    var w2 := Receive(w1, c, Pushes.Ok, SubscribeOk);
    var w3 := Receive(w2, c, Error, SubscribeError);
    assert JoinPush(w1, c) == JoinPush(u, c);
    ReceiveTells(w1, c, Pushes.Ok, SubscribeOk);
    ReceiveTells(w2, c, Error, SubscribeError);
    ReceiveTells(w3, c, Timeout, SubscribeTimeout);
  }

  /** A first `subscribe` that does not raise reports at once what the response recorded on the join push amounts to. */
  lemma SubscribeTells(w: World, c: nat, succeeds: bool)
    requires FirstSubscribe(w, c, succeeds)
    ensures var r := Step(w, Subscribes(c, succeeds));
      c < |r.chans| && r.chans[c].reports == w.chans[c].reports + Tells(JoinPush(w, c), w.chans[c].bindings)
  {
    BareJoin(w, c, succeeds);
    CallbacksTell(Connect(w, succeeds), c);
    RejoinKeepsReports(RegisterCallbacks(Connect(w, succeeds), c), c, c);
  }

  // ---------- Rejoining ----------

  lemma LeaveOpenTopicTrace(w: World, topic: string)
    requires WorldOk(w)
    ensures LeaveOpenTopic(w, topic).mail.requested == w.mail.requested
      + if OpenHolder(w, topic) then [Message(topic, Leave, Decimal(w.mail.ref + 1), |w.mail.pushes|)] else []
  {
  }

  lemma RejoinedTrace(v: World, c: nat)
    requires WorldOk(v) && c < |v.chans|
    ensures var r := Rejoined(v, c);
      && JoinOf(r, c) == JoinOf(v, c) && JoinPush(r, c).resp.None? && JoinPush(r, c).sent
      && JoinPush(r, c).ref == Some(Decimal(r.mail.ref))
      && r.mail.requested == v.mail.requested + [Message(Topic(v, c), Join, Decimal(r.mail.ref), JoinOf(v, c))]
  {
  }

  /**
   * A rejoin asks for at most two messages: a leave of the topic's joined or joining holder, and then the join. The
   * join's earlier response is forgotten.
   */
  lemma RejoinTrace(w: World, c: nat)
    requires WorldOk(w) && c < |w.chans|
    ensures var t, n, r := Topic(w, c), w.mail.ref, Rejoin(w, c);
      if w.chans[c].state == Leaving then r == w
      else
        && JoinOf(r, c) == JoinOf(w, c) && JoinPush(r, c).resp.None? && JoinPush(r, c).sent
        && JoinPush(r, c).ref == Some(Decimal(r.mail.ref))
        && r.mail.requested == w.mail.requested
             + (if OpenHolder(w, t) then [Message(t, Leave, Decimal(n + 1), |w.mail.pushes|)] else [])
             + [Message(t, Join, Decimal(r.mail.ref), JoinOf(w, c))]
  {
    if w.chans[c].state != Leaving {
      var v := LeaveOpenTopic(w, Topic(w, c));
      LeavingKeepsJoin(w, Topic(w, c), c);
      LeaveOpenTopicTrace(w, Topic(w, c));
      RejoinedTrace(v, c);
    }
  }

  predicate OpenHolder(w: World, topic: string)
    requires WorldOk(w)
  {
    topic in w.registry.vals && w.chans[w.registry.vals[topic]].state in {Joined, Joining}
  }

  /** What it does to the channels: the open holder of the topic leaves, channel c is joining, no other is touched. */
  lemma RejoinChannels(w: World, c: nat, d: nat)
    requires WorldOk(w) && c < |w.chans| && d < |w.chans| && w.chans[c].state != Leaving
    ensures var t, r := Topic(w, c), Rejoin(w, c);
      var left := OpenHolder(w, t) && w.registry.vals[t] == d;
      r.chans[d] == w.chans[d].(
        state := if d == c then Joining else if left then Leaving else w.chans[d].state,
        timer := if left then Reset(w.chans[d].timer) else w.chans[d].timer)
  {
  }

  // ---------- The connection ----------

  /** A `connect` that succeeds sends what was buffered, in order; one that fails, or is not needed, changes nothing. */
  lemma ConnectEffect(w: World, succeeds: bool)
    requires WorldOk(w)
    ensures var r, m := Step(w, Connects(succeeds)), w.mail;
      if m.connected || !succeeds then r == w
      else r == w.(mail := m.(connected := true, wire := m.wire + m.sendBuffer, sendBuffer := []))
  {
  }

  lemma DisconnectEffect(w: World)
    requires WorldOk(w)
    ensures Step(w, Closes) == w.(mail := w.mail.(connected := false))
  {
  }

  /** A reconnect that fails only leaves the client disconnected: no channel, push, message or registration changes. */
  lemma ReconnectFails(w: World)
    requires WorldOk(w)
    ensures Step(w, Reconnects(false)) == w.(mail := w.mail.(connected := false))
  {
    var e := Reconnects(false);
    ReconnectStep(w, e);
  }

  lemma RejoinedKeepsWaiting(w: World, d: nat, c: nat, ref: string)
    requires JoinWaits(w, c, ref) && d < |w.chans| && d != c
    ensures JoinWaits(Rejoined(w, d), c, ref)
  {
  }

  lemma UnsubKeepsWaiting(w: World, d: nat, c: nat, ref: string)
    requires JoinWaits(w, c, ref) && d < |w.chans| && d != c
    ensures JoinWaits(Unsub(w, d), c, ref)
  {
    UnsubKeepsBox(w, d, c);
  }

  lemma RejoinKeepsWaiting(w: World, d: nat, c: nat, ref: string)
    requires JoinWaits(w, c, ref) && d < |w.chans| && Topic(w, d) != Topic(w, c)
    ensures JoinWaits(Rejoin(w, d), c, ref)
  {
    var t := Topic(w, d);
    if w.chans[d].state != Leaving {
      if t in w.registry.vals {
        UnsubKeepsWaiting(w, w.registry.vals[t], c, ref);
      }
      RejoinedKeepsWaiting(LeaveOpenTopic(w, t), d, c, ref);
    }
  }

  lemma {:induction false} RejoinAllKeepsWaiting(w: World, topics: seq<string>, c: nat, ref: string)
    requires JoinWaits(w, c, ref) && w.chans[c].state == Joining && Topic(w, c) !in topics
    requires forall t :: t in topics ==> t in w.registry.vals
    ensures JoinWaits(RejoinAll(w, topics), c, ref) && RejoinAll(w, topics).chans[c].state == Joining
    decreases |topics|
  {
    if topics != [] {
      assert topics[0] in topics;
      var d := w.registry.vals[topics[0]];
      RejoinKeepsWaiting(w, d, c, ref);
      RejoinSparesOthers(w, d, c);
      RejoinKeepsTopic(w, d, c);
      RejoinAllKeepsWaiting(Rejoin(w, d), topics[1..], c, ref);
    }
  }

  lemma RejoinRefGrows(w: World, d: nat)
    requires WorldOk(w) && d < |w.chans|
    ensures Rejoin(w, d).mail.ref >= w.mail.ref
  {
    if w.chans[d].state != Leaving {
      RejoinSends(w, d);
    }
  }

  lemma JoinsAtTurn(w: World, rest: seq<string>, c: nat) returns (n: nat)
    requires WorldOk(w) && c < |w.chans| && Registered(w, c) && w.chans[c].state != Leaving && Topic(w, c) !in rest
    requires forall t :: t in rest ==> t in w.registry.vals
    ensures var r := RejoinAll(Rejoin(w, c), rest);
      n > w.mail.ref && JoinWaits(r, c, Decimal(n)) && r.chans[c].state == Joining
  {
    n := Rejoin(w, c).mail.ref;
    RejoinSends(w, c);
    RejoinWaits(w, c);
    RejoinKeepsTopic(w, c, c);
    RejoinAllKeepsWaiting(Rejoin(w, c), rest, c, Decimal(n));
  }

  lemma {:induction false} RejoinAllJoins(w: World, topics: seq<string>, c: nat) returns (n: nat)
    requires WorldOk(w) && c < |w.chans| && Registered(w, c) && w.chans[c].state != Leaving
    requires Topic(w, c) in topics && Distinct(topics) && forall t :: t in topics ==> t in w.registry.vals
    ensures var r := RejoinAll(w, topics);
      n > w.mail.ref && JoinWaits(r, c, Decimal(n)) && r.chans[c].state == Joining
    decreases |topics|
  {
    var d, rest := w.registry.vals[topics[0]], topics[1..];
    assert topics == [topics[0]] + rest && topics[0] !in rest;
    if topics[0] == Topic(w, c) {
      n := JoinsAtTurn(w, rest, c);
    } else {
      RejoinSparesOthers(w, d, c);
      RejoinKeepsTopic(w, d, c);
      RejoinRefGrows(w, d);
      n := RejoinAllJoins(Rejoin(w, d), rest, c);
    }
  }

  lemma {:induction false} RejoinAllKeepsRegistry(w: World, topics: seq<string>)
    requires WorldOk(w) && forall t :: t in topics ==> t in w.registry.vals
    ensures RejoinAll(w, topics).registry == w.registry && RejoinAll(w, topics).mail.connected == w.mail.connected
    decreases |topics|
  {
    if topics != [] {
      RejoinKeepsPlace(w, w.registry.vals[topics[0]]);
      RejoinAllKeepsRegistry(Rejoin(w, w.registry.vals[topics[0]]), topics[1..]);
    }
  }

  /** A reconnect that succeeds makes every registered channel but a leaving one join again under a new waiting ref. */
  lemma ReconnectJoins(w: World, c: nat) returns (n: nat)
    requires WorldOk(w) && c < |w.chans| && Registered(w, c) && w.chans[c].state != Leaving
    ensures var r := Step(w, Reconnects(true));
      n > w.mail.ref && JoinWaits(r, c, Decimal(n)) && r.chans[c].state == Joining && r.registry == w.registry
  {
    var v := Connect(CloseSocket(w), true);
    ReconnectStep(w, Reconnects(true));
    ReconnectRejoinsAll(w);
    SocketKeepsRegistered(w, c);
    RejoinAllKeepsRegistry(v, v.registry.keys);
    n := RejoinAllJoins(v, v.registry.keys, c);
  }
}
