/** What events leave alone: the callbacks on a channel's join push, and its buffered pushes. */
module SteadyRuns {
  import opened Timers
  import opened Pushes
  import opened PushesProofs
  import opened Protocol
  import opened ProtocolLife
  import opened BindingRuns
  import Bindings

  predicate SameHooks(q: Push, q': Push) {
    q'.okHooks == q.okHooks && q'.errorHooks == q.errorHooks && q'.timeoutHooks == q.timeoutHooks
  }

  /** Channel c keeps its join push with its callbacks, and stays marked as subscribed. */
  ghost predicate Hooked(w: World, r: World, c: nat) {
    && WorldOk(w) && WorldOk(r) && c < |w.chans| <= |r.chans| && JoinOf(r, c) == JoinOf(w, c)
    && SameHooks(JoinPush(w, c), JoinPush(r, c)) && (w.chans[c].joinedOnce ==> r.chans[c].joinedOnce)
  }

  /** Channel c's buffered pushes stay in its buffer; others may follow. */
  ghost predicate Buffered(w: World, r: World, c: nat) {
    c < |w.mail.boxes| <= |r.mail.boxes| && w.mail.boxes[c].buffer <= r.mail.boxes[c].buffer
  }

  ghost predicate Steady(w: World, r: World, c: nat) {
    Hooked(w, r, c) && Buffered(w, r, c)
  }

  lemma SteadyTrans(w: World, v: World, r: World, c: nat)
    requires Steady(w, v, c) && Steady(v, r, c)
    ensures Steady(w, r, c)
  {
  }

  /** A mail operation that changes neither callbacks of pushes nor buffers nor joins. */
  ghost predicate MailSteady(m: Mail, n: Mail) {
    && |m.pushes| <= |n.pushes| && |m.boxes| <= |n.boxes|
    && (forall p :: 0 <= p < |m.pushes| ==> SameHooks(m.pushes[p], n.pushes[p]))
    && (forall c :: 0 <= c < |m.boxes| ==> n.boxes[c].join == m.boxes[c].join && m.boxes[c].buffer <= n.boxes[c].buffer)
  }

  lemma SteadyMail(w: World, r: World, c: nat)
    requires WorldOk(w) && WorldOk(r) && c < |w.chans| <= |r.chans| && MailSteady(w.mail, r.mail)
    requires w.chans[c].joinedOnce ==> r.chans[c].joinedOnce
    ensures Steady(w, r, c)
  {
  }

  // ---------- Handlers that send ----------

  lemma UnsubSteady(w: World, d: nat, c: nat)
    requires WorldOk(w) && d < |w.chans| && c < |w.chans|
    ensures Steady(w, Unsub(w, d), c)
  {
    assert MailSteady(w.mail, Unsub(w, d).mail);
  }

  lemma RejoinedSteady(w: World, d: nat, c: nat)
    requires WorldOk(w) && d < |w.chans| && c < |w.chans|
    ensures Steady(w, Rejoined(w, d), c)
  {
    assert MailSteady(w.mail, Rejoined(w, d).mail);
  }

  lemma LeaveOpenTopicSteady(w: World, topic: string, c: nat)
    requires WorldOk(w) && c < |w.chans|
    ensures Steady(w, LeaveOpenTopic(w, topic), c) && |LeaveOpenTopic(w, topic).chans| == |w.chans|
  {
    if topic in w.registry.vals {
      UnsubSteady(w, w.registry.vals[topic], c);
    }
  }

  lemma RejoinSteady(w: World, d: nat, c: nat)
    requires WorldOk(w) && d < |w.chans| && c < |w.chans|
    ensures Steady(w, Rejoin(w, d), c)
  {
    if w.chans[d].state != Leaving {
      var v := LeaveOpenTopic(w, Topic(w, d));
      LeaveOpenTopicSteady(w, Topic(w, d), c);
      RejoinedSteady(v, d, c);
      SteadyTrans(w, v, Rejoined(v, d), c);
    }
  }

  lemma {:induction false} RejoinAllSteady(w: World, topics: seq<string>, c: nat)
    requires WorldOk(w) && c < |w.chans| && forall t :: t in topics ==> t in w.registry.vals
    ensures Steady(w, RejoinAll(w, topics), c)
    decreases |topics|
  {
    if topics != [] {
      var v := Rejoin(w, w.registry.vals[topics[0]]);
      RejoinSteady(w, w.registry.vals[topics[0]], c);
      RejoinAllSteady(v, topics[1..], c);
      SteadyTrans(w, v, RejoinAll(w, topics), c);
    }
  }

  // ---------- Callbacks and replies ----------

  lemma RunHookHooked(w: World, d: nat, h: Hook, rows: seq<Bindings.Row>, c: nat)
    requires WorldOk(w) && d < |w.chans| && c < |w.chans|
    ensures Hooked(w, RunHook(w, d, h, rows), c)
    ensures d != c || h != JoinOk ==> Buffered(w, RunHook(w, d, h, rows), c)
  {
  }

  lemma {:induction false} RunHooksHooked(w: World, d: nat, hooks: seq<Hook>, rows: seq<Bindings.Row>, c: nat)
    requires WorldOk(w) && d < |w.chans| && c < |w.chans|
    ensures Hooked(w, RunHooks(w, d, hooks, rows), c)
    ensures d != c || JoinOk !in hooks ==> Buffered(w, RunHooks(w, d, hooks, rows), c)
    decreases |hooks|
  {
    if hooks != [] {
      assert hooks[0] in hooks;
      RunHookHooked(w, d, hooks[0], rows, c);
      RunHooksHooked(RunHook(w, d, hooks[0], rows), d, hooks[1..], rows, c);
    }
  }

  lemma ReplySteady(w: World, d: nat, ref: string, resp: Response, c: nat)
    requires WorldOk(w) && d < |w.chans| && c < |w.chans| && ref in w.mail.boxes[d].waiting && resp.status != Timeout
    ensures w.mail.boxes[d].waiting[ref] < |w.mail.pushes| && Inv(Reply(w.mail, d, ref, resp))
    ensures Steady(w, w.(mail := Reply(w.mail, d, ref, resp)), c)
  {
    ReplyKeeps(w.mail, d, ref, resp);
    assert MailSteady(w.mail, Reply(w.mail, d, ref, resp));
  }

  /** Only a join carries the callback that drains the buffer, and only for success. */
  lemma DrainsOnlyJoins(w: World, d: nat, ref: string)
    requires LifeOk(w) && d < |w.chans| && ref in w.mail.boxes[d].waiting
    ensures w.mail.boxes[d].waiting[ref] < |w.mail.pushes|
    ensures var p := w.mail.boxes[d].waiting[ref]; var q := w.mail.pushes[p];
      JoinOk !in q.errorHooks && (p != w.mail.boxes[d].join ==> JoinOk !in q.okHooks)
  {
    var p := w.mail.boxes[d].waiting[ref];
    assert BoxOk(w.mail, d) && EntryOk(w.mail, d, ref) && PushOk(w.mail, p) && ChanOk(w, d);
  }

  lemma HandleReplyHooked(w: World, d: nat, ref: string, ok: bool, rows: seq<Bindings.Row>, c: nat)
    requires LifeOk(w) && d < |w.chans| && c < |w.chans| && ref in w.mail.boxes[d].waiting
    ensures Hooked(w, HandleReply(w, d, ref, ok, rows), c)
    ensures d != c || !ok || w.mail.boxes[c].waiting[ref] != w.mail.boxes[c].join
      ==> Buffered(w, HandleReply(w, d, ref, ok, rows), c)
  {
    var resp := if ok then Response(Pushes.Ok, rows) else Response(Error, []);
    ReplySteady(w, d, ref, resp, c);
    DrainsOnlyJoins(w, d, ref);
    var q := w.mail.pushes[w.mail.boxes[d].waiting[ref]];
    RunHooksHooked(w.(mail := Reply(w.mail, d, ref, resp)), d, if ok then q.okHooks else q.errorHooks, resp.rows, c);
  }

  lemma DeliverHooked(w: World, topic: string, msg: ServerMessage, c: nat)
    requires LifeOk(w) && c < |w.chans|
    ensures Hooked(w, Deliver(w, topic, msg), c)
    ensures !AcceptsJoin(w, Receives(topic, msg), c) ==> Buffered(w, Deliver(w, topic, msg), c)
  {
    if topic in w.registry.vals && msg.ReplyTo? {
      var d := w.registry.vals[topic];
      if msg.ref.Some? && msg.ref.value in w.mail.boxes[d].waiting {
        ReplyIsHandled(w, d, msg.ref.value, msg.ok, msg.rows);
        HandleReplyHooked(w, d, msg.ref.value, msg.ok, msg.rows, c);
      }
    }
  }

  // ---------- `subscribe` ----------

  lemma ReceiveBuffered(w: World, d: nat, status: Ack, h: Hook, c: nat)
    requires WorldOk(w) && d < |w.chans| && c < |w.chans| && h in {SubscribeOk, SubscribeError, SubscribeTimeout}
    ensures Buffered(w, Receive(w, d, status, h), c) && (d != c ==> Hooked(w, Receive(w, d, status, h), c))
  {
    RunHookHooked(w, d, h, [], c);
  }

  lemma CallbacksBuffered(w: World, d: nat, c: nat)
    requires WorldOk(w) && d < |w.chans| && c < |w.chans|
    ensures Buffered(w, RegisterCallbacks(w, d), c) && (d != c ==> Hooked(w, RegisterCallbacks(w, d), c))
  {
    var w1 := w.(chans := w.chans[d := w.chans[d].(joinedOnce := true)]);
    var w2 := Receive(w1, d, Pushes.Ok, SubscribeOk);
    var w3 := Receive(w2, d, Error, SubscribeError);
    ReceiveBuffered(w1, d, Pushes.Ok, SubscribeOk, c);
    ReceiveBuffered(w2, d, Error, SubscribeError, c);
    ReceiveBuffered(w3, d, Timeout, SubscribeTimeout, c);
  }

  lemma SubscribeBuffered(w: World, d: nat, succeeds: bool, c: nat)
    requires WorldOk(w) && d < |w.chans| && c < |w.chans|
    ensures Buffered(w, Subscribe(w, d, succeeds), c)
    ensures d != c || w.chans[c].joinedOnce ==> Hooked(w, Subscribe(w, d, succeeds), c)
  {
    var v := Connect(w, succeeds);
    if v.mail.connected && !v.chans[d].joinedOnce {
      CallbacksBuffered(v, d, c);
      RejoinSteady(RegisterCallbacks(v, d), d, c);
    }
  }

  // ---------- Other events ----------

  lemma RemoveSteady(w: World, d: nat, c: nat)
    requires WorldOk(w) && d < |w.chans| && c < |w.chans|
    ensures Steady(w, RemoveChannel(w, d), c)
  {
    if Topic(w, d) in w.registry.vals {
      UnsubSteady(w, w.registry.vals[Topic(w, d)], c);
    }
  }

  lemma PushSteady(w: World, d: nat, c: nat)
    requires WorldOk(w) && d < |w.chans| && c < |w.chans|
    ensures Steady(w, PushEvent(w, d), c)
  {
    assert MailSteady(w.mail, PushEvent(w, d).mail);
  }

  lemma CreateSteady(w: World, name: string, c: nat)
    requires WorldOk(w) && c < |w.chans|
    ensures Steady(w, CreateChannel(w, name), c)
  {
    assert MailSteady(w.mail, CreateChannel(w, name).mail);
  }

  lemma JoinTimeoutHooks(w: World, p: nat)
    requires LifeOk(w) && p < |w.mail.pushes| && w.mail.pushes[p].kind == Join
    ensures JoinOk !in w.mail.pushes[p].timeoutHooks
  {
    assert PushOk(w.mail, p) && ChanOk(w, w.mail.pushes[p].channel);
  }

  lemma ForgottenSteady(w: World, p: nat, c: nat)
    requires WorldOk(w) && p < |w.mail.pushes| && w.mail.pushes[p].kind == Join && c < |w.chans|
    ensures Steady(w, JoinForgotten(w, p), c)
  {
    ForgetJoinKeeps(w.mail, p);
  }

  lemma OtherTimeoutSteady(w: World, p: nat, i: nat, c: nat)
    requires WorldOk(w) && TimeoutPending(w, p, i) && w.mail.pushes[p].kind != Join && c < |w.chans|
    ensures Steady(w, TimeoutFires(w, p, i), c)
  {
    TimeoutKeeps(w.mail, p, i);
    assert MailSteady(w.mail, TimeoutFires(w, p, i).mail);
  }

  lemma TimeoutSteady(w: World, p: nat, i: nat, c: nat)
    requires LifeOk(w) && TimeoutPending(w, p, i) && c < |w.chans|
    ensures Steady(w, TimeoutFires(w, p, i), c)
  {
    var q := w.mail.pushes[p];
    if q.kind == Join {
      var v := JoinExpired(w, p, i);
      JoinTimeoutHooks(w, p);
      assert MailSteady(w.mail, v.mail);
      RunHooksHooked(v, q.channel, q.timeoutHooks, [], c);
      ForgottenSteady(RunHooks(v, q.channel, q.timeoutHooks, []), p, c);
    } else {
      OtherTimeoutSteady(w, p, i, c);
    }
  }

  lemma TimerSteady(w: World, d: nat, i: nat, c: nat)
    requires WorldOk(w) && TimerPending(w, d, i) && c < |w.chans|
    ensures Steady(w, TimerFires(w, d, i), c)
  {
    var ch := w.chans[d];
    var v := w.(chans := w.chans[d := ch.(timer := Fire(ch.timer, i))]);
    RejoinSteady(v.(chans := v.chans[d := v.chans[d].(timer := Schedule(v.chans[d].timer))]), d, c);
  }

  lemma RunReadySteady(w: World, c: nat)
    requires WorldOk(w) && w.mail.ready != [] && c < |w.chans|
    ensures Steady(w, RunReady(w), c)
  {
    assert TaskOk(w.mail, w.mail.ready[0]);
    match w.mail.ready[0] {
      case SendPush(p) =>
        RunSendKeeps(w.mail);
        assert MailSteady(w.mail, RunSend(w.mail));
      case Unsubscribe(d) =>
        PopTaskKeeps(w.mail);
        UnsubSteady(w.(mail := PopTask(w.mail)), d, c);
    }
  }

  lemma SocketSteady(w: World, succeeds: bool, c: nat)
    requires WorldOk(w) && c < |w.chans|
    ensures Steady(w, Connect(w, succeeds), c) && Steady(w, CloseSocket(w), c)
  {
  }

  lemma ReconnectSteady(w: World, succeeds: bool, c: nat)
    requires WorldOk(w) && c < |w.chans|
    ensures Steady(w, Reconnect(w, succeeds), c)
  {
    var v := Connect(CloseSocket(w), succeeds);
    SocketSteady(w, succeeds, c);
    SocketSteady(CloseSocket(w), succeeds, c);
    RejoinAllSteady(v, w.registry.keys, c);
  }

  lemma UserStepSteady(w: World, e: Event, c: nat)
    requires WorldOk(w) && c < |w.chans| && ByUser(e) && !e.Subscribes?
    ensures Steady(w, Step(w, e), c)
  {
    match e {
      case Creates(name) => CreateSteady(w, name, c);
      case Unsubscribes(d) => if d < |w.chans| { UnsubSteady(w, d, c); }
      case Removes(d) => if d < |w.chans| { RemoveSteady(w, d, c); }
      case UserPushes(d) => if d < |w.chans| { PushSteady(w, d, c); }
      case Registers(d, b) =>
    }
  }

  /** Tasks that wake or start, what happens to the connection, and all calls of the user but `subscribe`. */
  lemma OtherStepSteady(w: World, e: Event, c: nat)
    requires LifeOk(w) && c < |w.chans| && !e.Subscribes? && !e.Receives?
    ensures Steady(w, Step(w, e), c)
  {
    match e {
      case PushTimesOut(p, i) => if TimeoutPending(w, p, i) { TimeoutSteady(w, p, i, c); }
      case TimerWakes(d, i) => if TimerPending(w, d, i) { TimerSteady(w, d, i, c); }
      case TaskStarts => if w.mail.ready != [] { RunReadySteady(w, c); }
      case Connects(succeeds) => SocketSteady(w, succeeds, c);
      case Closes => SocketSteady(w, false, c);
      case Reconnects(succeeds) => ReconnectSteady(w, succeeds, c);
      case _ => UserStepSteady(w, e, c);
    }
  }

  // ---------- Every event ----------

  /** No event changes the callbacks on the join push of a channel that has been subscribed. */
  lemma StepHooked(w: World, e: Event, c: nat)
    requires LifeOk(w) && c < |w.chans| && w.chans[c].joinedOnce
    ensures Hooked(w, Step(w, e), c)
  {
    match e {
      case Receives(topic, msg) => DeliverHooked(w, topic, msg, c);
      case Subscribes(d, succeeds) => if d < |w.chans| { SubscribeBuffered(w, d, succeeds, c); }
      case _ => OtherStepSteady(w, e, c);
    }
  }

  lemma {:induction false} HooksStay(w: World, events: seq<Event>, c: nat)
    requires LifeOk(w) && c < |w.chans| && w.chans[c].joinedOnce
    ensures Hooked(w, RunFrom(w, events), c)
    decreases |events|
  {
    if events != [] {
      HooksStay(w, events[..|events| - 1], c);
      RunFromLife(w, events[..|events| - 1]);
      StepHooked(RunFrom(w, events[..|events| - 1]), events[|events| - 1], c);
    }
  }

  /** No event but an accepted join takes pushes out of a channel's buffer. */
  lemma StepBuffered(w: World, e: Event, c: nat)
    requires LifeOk(w) && c < |w.chans| && !AcceptsJoin(w, e, c)
    ensures Buffered(w, Step(w, e), c)
  {
    match e {
      case Receives(topic, msg) => DeliverHooked(w, topic, msg, c);
      case Subscribes(d, succeeds) => if d < |w.chans| { SubscribeBuffered(w, d, succeeds, c); }
      case _ => OtherStepSteady(w, e, c);
    }
  }
}
