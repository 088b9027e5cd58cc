/** What every run guarantees about refs, acknowledgements, buffered pushes and timeouts. */
module PushRuns {
  import opened PyDict
  import opened Refs
  import opened Timers
  import opened Pushes
  import opened PushesProofs
  import opened Protocol
  import opened ProtocolLife

  // ---------- The socket, for messages of any kind ----------

  /** A call on the socket that is run to completion; an opening call is a `connect` that succeeds. */
  datatype SocketCall = SendCall(msg: Message) | OpenCall | CloseCall

  function SocketStep(m: Mail, call: SocketCall): Mail {
    match call
    case SendCall(msg) => SocketSend(m, msg)
    case OpenCall => if m.connected then m else Open(m)
    case CloseCall => Disconnect(m)
  }

  function SocketRun(m: Mail, calls: seq<SocketCall>): Mail {
    if calls == [] then m else SocketStep(SocketRun(m, calls[..|calls| - 1]), calls[|calls| - 1])
  }

  /** The messages that the calls ask for, oldest first. */
  function Requests(calls: seq<SocketCall>): seq<Message> {
    if calls == [] then []
    else
      var last := calls[|calls| - 1];
      Requests(calls[..|calls| - 1]) + if last.SendCall? then [last.msg] else []
  }

  lemma SocketStepMoves(n: Mail, call: SocketCall)
    requires n.connected ==> n.sendBuffer == []
    ensures var r := SocketStep(n, call);
      && r.wire + r.sendBuffer == n.wire + n.sendBuffer + (if call.SendCall? then [call.msg] else [])
      && n.wire <= r.wire
  {
  }

  /**
   * Over any calls, with any messages: what is on the wire and then in the buffer is every requested message in
   * order.
   */
  lemma {:induction false} SocketRefines(m: Mail, calls: seq<SocketCall>)
    requires m.wire + m.sendBuffer == m.requested && (m.connected ==> m.sendBuffer == [])
    ensures var r := SocketRun(m, calls);
      && r.wire + r.sendBuffer == m.requested + Requests(calls)
      && m.wire <= r.wire && (r.connected ==> r.sendBuffer == [])
  {
    if calls != [] {
      var last, n := calls[|calls| - 1], SocketRun(m, calls[..|calls| - 1]);
      SocketRefines(m, calls[..|calls| - 1]);
      SocketStepMoves(n, last);
      assert m.requested + Requests(calls[..|calls| - 1]) + (if last.SendCall? then [last.msg] else [])
          == m.requested + Requests(calls);
    }
  }

  // ---------- In every reachable state ----------

  /** No ref is shared: neither by two pushes, nor by the waiting maps of two channels. */
  lemma RefsUnshared(events: seq<Event>)
    ensures var m := Run(events).mail;
      && (forall p, q | 0 <= p < q < |m.pushes| :: m.pushes[p].ref.Some? ==> m.pushes[p].ref != m.pushes[q].ref)
      && (forall c, d, r | 0 <= c < |m.boxes| && 0 <= d < |m.boxes|
            && r in m.boxes[c].waiting && r in m.boxes[d].waiting :: c == d)
  {
    var m := Run(events).mail;
    forall p, q | 0 <= p < q < |m.pushes| && m.pushes[p].ref.Some? ensures m.pushes[p].ref != m.pushes[q].ref {
      assert PushOk(m, p) && PushOk(m, q);
    }
    forall c, d, r | 0 <= c < |m.boxes| && 0 <= d < |m.boxes| && r in m.boxes[c].waiting && r in m.boxes[d].waiting
      ensures c == d {
      assert BoxOk(m, c) && BoxOk(m, d) && EntryOk(m, c, r) && EntryOk(m, d, r);
    }
  }

  /**
   * A push that is not a join waits, on its own channel and under its own ref only, exactly from its send to its
   * first response.
   */
  lemma AckCorrespondence(events: seq<Event>, p: nat, c: nat, r: string)
    requires p < |Run(events).mail.pushes| && Run(events).mail.pushes[p].kind != Join && c < |Run(events).mail.boxes|
    ensures var m := Run(events).mail; var q := m.pushes[p];
      r in m.boxes[c].waiting && m.boxes[c].waiting[r] == p
      <==> c == q.channel && q.ref == Some(r) && q.sent && q.resp.None?
  {
    var m := Run(events).mail;
    assert PushOk(m, p);
    assert BoxOk(m, c);
    if r in m.boxes[c].waiting {
      assert EntryOk(m, c, r);
    }
  }

  /**
   * Sent messages: the i-th request has the i-th ref; what is on the wire and then in the send buffer is every
   * request in order.
   */
  lemma SendBufferRefines(events: seq<Event>)
    ensures var m := Run(events).mail;
      && m.wire + m.sendBuffer == m.requested
      && (m.connected ==> m.sendBuffer == [] && m.wire == m.requested)
      && |m.requested| == m.ref
      && forall i :: 0 <= i < |m.requested| ==> m.requested[i].ref == Decimal(i + 1)
  {
    assert RequestsOk(Run(events).mail);
  }

  /** The push has been taken from its queue after it had timed out. */
  predicate Dropped(m: Mail, p: nat)
    requires p < |m.pushes|
  {
    !m.pushes[p].sent && !Held(m, p) && !Queued(m, p) && m.pushes[p].TimedOut()
  }

  /** Every accepted push is in exactly one place: buffered, scheduled, sent, or dropped after a timeout. */
  lemma PushConservation(events: seq<Event>, p: nat)
    requires p < |Run(events).mail.pushes| && Run(events).mail.pushes[p].kind == User
    ensures var m := Run(events).mail; var q := m.pushes[p];
      && (Held(m, p) || Queued(m, p) || q.sent || Dropped(m, p))
      && (Held(m, p) ==> !Queued(m, p) && !q.sent && !Dropped(m, p))
      && (Queued(m, p) ==> !q.sent && !Dropped(m, p))
      && (q.sent ==> !Dropped(m, p))
  {
    assert PushOk(Run(events).mail, p);
  }

  lemma SentOnceAt(m: Mail, p: nat, i: nat)
    requires Inv(m) && p < |m.pushes| && m.pushes[p].kind != Join && i < |m.requested|
    ensures m.requested[i].push == p <==> m.pushes[p].sent && m.pushes[p].ref == Some(Decimal(i + 1))
  {
    assert PushOk(m, p) && MessageOk(m, i);
    NumberOfDecimal(i + 1);
  }

  /** A sent push has exactly one message, the one with its ref, and an unsent push has none. */
  lemma SentOnce(events: seq<Event>, p: nat)
    requires p < |Run(events).mail.pushes| && Run(events).mail.pushes[p].kind != Join
    ensures var m := Run(events).mail; var q := m.pushes[p];
      forall i :: 0 <= i < |m.requested| ==>
        (m.requested[i].push == p <==> q.sent && q.ref == Some(Decimal(i + 1)))
  {
    var m := Run(events).mail;
    forall i | 0 <= i < |m.requested|
      ensures m.requested[i].push == p <==> m.pushes[p].sent && m.pushes[p].ref == Some(Decimal(i + 1)) {
      SentOnceAt(m, p, i);
    }
  }

  /** Pushes buffered on one channel leave in buffering order and get refs, and so are sent, in that order. */
  lemma DrainedInOrder(events: seq<Event>, p: nat, q: nat)
    requires p < q < |Run(events).mail.pushes|
    requires var m := Run(events).mail;
      m.pushes[p].buffered && m.pushes[q].buffered && m.pushes[p].channel == m.pushes[q].channel
    ensures var m := Run(events).mail;
      && (m.pushes[q].sent ==> !Held(m, p) && !Queued(m, p))
      && (m.pushes[p].sent <==> m.pushes[p].ref.Some?)
      && (m.pushes[p].ref.Some? && m.pushes[q].ref.Some? ==>
            Number(m.pushes[p].ref.value) < Number(m.pushes[q].ref.value))
  {
    var m := Run(events).mail;
    assert InOrder(m, p, q) && PushOk(m, p) && PushOk(m, q);
  }

  // ---------- From any reachable state on ----------

  /** How a push may change: what has been delivered and sent stays, and a push that timed out unsent stays so. */
  ghost predicate Evolves(q: Push, q': Push) {
    && q'.channel == q.channel && q'.kind == q.kind
    && (q.kind != Join ==>
          && q.delivered <= q'.delivered
          && (q.sent ==> q'.sent && q'.ref == q.ref)
          && (!q.sent && q.TimedOut() ==> !q'.sent && q'.TimedOut()))
  }

  ghost predicate MailEvolves(m: Mail, n: Mail) {
    |m.pushes| <= |n.pushes| && forall p :: 0 <= p < |m.pushes| ==> Evolves(m.pushes[p], n.pushes[p])
  }

  lemma EvolvesTrans(m: Mail, n: Mail, o: Mail)
    requires MailEvolves(m, n) && MailEvolves(n, o)
    ensures MailEvolves(m, o)
  {
    forall p | 0 <= p < |m.pushes| ensures Evolves(m.pushes[p], o.pushes[p]) {
      assert Evolves(m.pushes[p], n.pushes[p]) && Evolves(n.pushes[p], o.pushes[p]);
    }
  }

  lemma TouchesEvolves(m: Mail, n: Mail, p: int)
    requires TouchesOnly(m, n, p) && (0 <= p < |m.pushes| ==> Evolves(m.pushes[p], n.pushes[p]))
    ensures MailEvolves(m, n)
  {
  }

  lemma UnsubEvolves(w: World, c: nat)
    requires WorldOk(w) && c < |w.chans|
    ensures MailEvolves(w.mail, Unsub(w, c).mail)
  {
    var j := JoinOf(w, c);
    PostTouches(Destroy(w.mail, j), c, Leave);
    assert TouchesOnly(w.mail, Unsub(w, c).mail, j);
    TouchesEvolves(w.mail, Unsub(w, c).mail, j);
  }

  lemma RejoinedEvolves(w: World, c: nat)
    requires WorldOk(w) && c < |w.chans|
    ensures MailEvolves(w.mail, Rejoined(w, c).mail)
  {
    var j := JoinOf(w, c);
    assert TouchesOnly(w.mail, Rejoined(w, c).mail, j);
    TouchesEvolves(w.mail, Rejoined(w, c).mail, j);
  }

  lemma LeaveOpenTopicEvolves(w: World, topic: string)
    requires WorldOk(w)
    ensures MailEvolves(w.mail, LeaveOpenTopic(w, topic).mail) && |LeaveOpenTopic(w, topic).chans| == |w.chans|
  {
    if topic in w.registry.vals {
      UnsubEvolves(w, w.registry.vals[topic]);
    }
  }

  lemma RejoinEvolves(w: World, c: nat)
    requires WorldOk(w) && c < |w.chans|
    ensures MailEvolves(w.mail, Rejoin(w, c).mail)
  {
    if w.chans[c].state != Leaving {
      var v := LeaveOpenTopic(w, Topic(w, c));
      LeaveOpenTopicEvolves(w, Topic(w, c));
      RejoinedEvolves(v, c);
      EvolvesTrans(w.mail, v.mail, Rejoin(w, c).mail);
    }
  }

  lemma {:induction false} RejoinAllEvolves(w: World, topics: seq<string>)
    requires WorldOk(w) && forall t :: t in topics ==> t in w.registry.vals
    ensures MailEvolves(w.mail, RejoinAll(w, topics).mail)
    decreases |topics|
  {
    if topics != [] {
      var v := Rejoin(w, w.registry.vals[topics[0]]);
      RejoinEvolves(w, w.registry.vals[topics[0]]);
      RejoinAllEvolves(v, topics[1..]);
      EvolvesTrans(w.mail, v.mail, RejoinAll(w, topics).mail);
    }
  }

  lemma HandleMessageEvolves(w: World, c: nat, msg: ServerMessage)
    requires WorldOk(w) && c < |w.chans|
    ensures MailEvolves(w.mail, HandleMessage(w, c, msg).mail)
  {
    if msg.ReplyTo? && msg.ref.Some? && msg.ref.value != "" && msg.ref.value in w.mail.boxes[c].waiting {
      var resp := if msg.ok then Response(Pushes.Ok, msg.rows) else Response(Error, []);
      var p := w.mail.boxes[c].waiting[msg.ref.value];
      ReplyKeeps(w.mail, c, msg.ref.value, resp);
      assert BoxOk(w.mail, c) && EntryOk(w.mail, c, msg.ref.value) && PushOk(w.mail, p);
      TouchesEvolves(w.mail, Reply(w.mail, c, msg.ref.value, resp), p);
    }
  }

  lemma ReceiveEvolves(w: World, c: nat, status: Ack, h: Hook)
    requires WorldOk(w) && c < |w.chans| && h != Close
    ensures MailEvolves(w.mail, Receive(w, c, status, h).mail)
  {
    TouchesEvolves(w.mail, AddHook(w.mail, JoinOf(w, c), status, h), JoinOf(w, c));
  }

  lemma CallbacksEvolve(w: World, c: nat)
    requires WorldOk(w) && c < |w.chans|
    ensures MailEvolves(w.mail, RegisterCallbacks(w, c).mail)
  {
    var w1 := w.(chans := w.chans[c := w.chans[c].(joinedOnce := true)]);
    var w2 := Receive(w1, c, Pushes.Ok, SubscribeOk);
    var w3 := Receive(w2, c, Error, SubscribeError);
    ReceiveEvolves(w1, c, Pushes.Ok, SubscribeOk);
    ReceiveEvolves(w2, c, Error, SubscribeError);
    ReceiveEvolves(w3, c, Timeout, SubscribeTimeout);
    EvolvesTrans(w1.mail, w2.mail, w3.mail);
    EvolvesTrans(w1.mail, w3.mail, Receive(w3, c, Timeout, SubscribeTimeout).mail);
  }

  lemma SubscribeEvolves(w: World, c: nat, succeeds: bool)
    requires WorldOk(w) && c < |w.chans|
    ensures MailEvolves(w.mail, Subscribe(w, c, succeeds).mail)
  {
    var v := Connect(w, succeeds);
    if v.mail.connected && !v.chans[c].joinedOnce {
      var u := RegisterCallbacks(v, c);
      CallbacksEvolve(v, c);
      RejoinEvolves(u, c);
      EvolvesTrans(v.mail, u.mail, Rejoin(u, c).mail);
    }
  }

  lemma RunReadyEvolves(w: World)
    requires WorldOk(w) && w.mail.ready != []
    ensures MailEvolves(w.mail, RunReady(w).mail)
  {
    assert TaskOk(w.mail, w.mail.ready[0]);
    match w.mail.ready[0] {
      case SendPush(p) =>
        RunSendKeeps(w.mail);
        assert PushOk(w.mail, p) && Queued(w.mail, p);
        TouchesEvolves(w.mail, RunSend(w.mail), p);
      case Unsubscribe(c) =>
        PopTaskKeeps(w.mail);
        UnsubEvolves(w.(mail := PopTask(w.mail)), c);
    }
  }

  lemma TimeoutFiresEvolves(w: World, p: nat, i: nat)
    requires WorldOk(w) && TimeoutPending(w, p, i)
    ensures MailEvolves(w.mail, TimeoutFires(w, p, i).mail)
  {
    assert PushOk(w.mail, p);
    assert TimeoutFires(w, p, i).mail.pushes == Expire(w.mail, p, i).pushes;
  }

  lemma RemoveEvolves(w: World, c: nat)
    requires WorldOk(w) && c < |w.chans|
    ensures MailEvolves(w.mail, RemoveChannel(w, c).mail)
  {
    if Topic(w, c) in w.registry.vals {
      UnsubEvolves(w, w.registry.vals[Topic(w, c)]);
    }
  }

  lemma CreateEvolves(w: World, name: string)
    requires WorldOk(w)
    ensures MailEvolves(w.mail, CreateChannel(w, name).mail)
  {
  }

  lemma PushEvolves(w: World, c: nat)
    requires WorldOk(w) && c < |w.chans|
    ensures MailEvolves(w.mail, PushEvent(w, c).mail)
  {
    PostTouches(w.mail, c, User);
  }

  lemma UserStepEvolves(w: World, e: Event)
    requires WorldOk(w) && ByUser(e)
    ensures MailEvolves(w.mail, Step(w, e).mail)
  {
    match e {
      case Creates(name) => CreateEvolves(w, name);
      case Subscribes(c, succeeds) => if c < |w.chans| { SubscribeEvolves(w, c, succeeds); }
      case Unsubscribes(c) => if c < |w.chans| { UnsubEvolves(w, c); }
      case Removes(c) => if c < |w.chans| { RemoveEvolves(w, c); }
      case UserPushes(c) => if c < |w.chans| { PushEvolves(w, c); }
      case Registers(c, b) =>
    }
  }

  lemma TimerFiresEvolves(w: World, c: nat, i: nat)
    requires WorldOk(w) && TimerPending(w, c, i)
    ensures MailEvolves(w.mail, TimerFires(w, c, i).mail)
  {
    var ch := w.chans[c];
    var v := w.(chans := w.chans[c := ch.(timer := Fire(ch.timer, i))]);
    RejoinEvolves(v.(chans := v.chans[c := v.chans[c].(timer := Schedule(v.chans[c].timer))]), c);
  }

  lemma ReconnectEvolves(w: World, succeeds: bool)
    requires WorldOk(w)
    ensures MailEvolves(w.mail, Reconnect(w, succeeds).mail)
  {
    RejoinAllEvolves(Connect(CloseSocket(w), succeeds), w.registry.keys);
  }

  lemma StepEvolves(w: World, e: Event)
    requires WorldOk(w)
    ensures MailEvolves(w.mail, Step(w, e).mail)
  {
    match e {
      case Receives(topic, msg) =>
        if topic in w.registry.vals { HandleMessageEvolves(w, w.registry.vals[topic], msg); }
      case PushTimesOut(p, i) => if TimeoutPending(w, p, i) { TimeoutFiresEvolves(w, p, i); }
      case TimerWakes(c, i) => if TimerPending(w, c, i) { TimerFiresEvolves(w, c, i); }
      case TaskStarts => if w.mail.ready != [] { RunReadyEvolves(w); }
      case Connects(succeeds) =>
      case Closes =>
      case Reconnects(succeeds) => ReconnectEvolves(w, succeeds);
      case _ => UserStepEvolves(w, e);
    }
  }

  lemma {:induction false} RunEvolves(w: World, events: seq<Event>)
    requires WorldOk(w)
    ensures MailEvolves(w.mail, RunFrom(w, events).mail)
    decreases |events|
  {
    if events != [] {
      var v := RunFrom(w, events[..|events| - 1]);
      RunEvolves(w, events[..|events| - 1]);
      StepEvolves(v, events[|events| - 1]);
      EvolvesTrans(w.mail, v.mail, RunFrom(w, events).mail);
    }
  }

  lemma NonJoin(m: Mail, p: nat)
    requires Inv(m) && p < |m.pushes| && m.pushes[p].kind != Join
    ensures DeliveriesOk(m.pushes[p]) && (m.pushes[p].sent <==> m.pushes[p].ref.Some?)
    ensures m.pushes[p].ref.None? ==> forall i :: 0 <= i < |m.requested| ==> m.requested[i].push != p
  {
    assert PushOk(m, p);
    forall i | 0 <= i < |m.requested| && m.pushes[p].ref.None? ensures m.requested[i].push != p {
      assert MessageOk(m, i);
    }
  }

  lemma EvolvedDeliveries(q: Push, q': Push)
    requires q.kind != Join && Evolves(q, q') && DeliveriesOk(q) && DeliveriesOk(q')
    ensures Timeout in q.delivered ==> q'.delivered == q.delivered && q.TimedOut()
  {
  }

  /**
   * A push that is not a join gets at most one reply and at most one timeout, the timeout last;
   * after a timeout nothing is ever delivered; what timed out unsent never gets a ref nor a message.
   */
  lemma TimeoutIsFinal(events: seq<Event>, more: seq<Event>, p: nat)
    requires p < |Run(events).mail.pushes| && Run(events).mail.pushes[p].kind != Join
    ensures var m, n := Run(events).mail, RunFrom(Run(events), more).mail;
      && p < |n.pushes|
      && var q, q' := m.pushes[p], n.pushes[p];
         && q.delivered <= q'.delivered
         && |q'.delivered| <= 2 && (|q'.delivered| == 2 ==> q'.delivered[0] != Timeout && q'.delivered[1] == Timeout)
         && (Timeout in q.delivered ==> q'.delivered == q.delivered)
         && (Timeout in q.delivered && !q.sent ==>
               !q'.sent && q'.ref.None? && forall i :: 0 <= i < |n.requested| ==> n.requested[i].push != p)
  {
    var w := Run(events);
    var v := RunFrom(w, more);
    RunEvolves(w, more);
    assert Evolves(w.mail.pushes[p], v.mail.pushes[p]);
    NonJoin(w.mail, p);
    NonJoin(v.mail, p);
    EvolvedDeliveries(w.mail.pushes[p], v.mail.pushes[p]);
  }
}
