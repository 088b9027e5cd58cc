/** A ref that has stopped waiting, and was issued, never waits again: what comes later is ignored. */
module StaleRuns {
  import opened PyDict
  import opened Refs
  import opened Timers
  import opened Pushes
  import opened PushesProofs
  import opened Protocol
  import opened ProtocolLife
  import Bindings

  /** From m to n only refs that had not been issued have begun to wait. */
  ghost predicate NoOldRefs(m: Mail, n: Mail) {
    && m.ref <= n.ref && |m.boxes| <= |n.boxes|
    && forall c, r :: 0 <= c < |n.boxes| && r in n.boxes[c].waiting ==>
         (c < |m.boxes| && r in m.boxes[c].waiting) || Number(r) > m.ref
  }

  lemma NoOldRefsTrans(m: Mail, n: Mail, o: Mail)
    requires NoOldRefs(m, n) && NoOldRefs(n, o)
    ensures NoOldRefs(m, o)
  {
  }

  /** Channel d's next ref begins to wait. */
  lemma NextRefWaits(m: Mail, n: Mail, d: nat, p: nat)
    requires d < |m.boxes| == |n.boxes| && n.ref == m.ref + 1
    requires forall c :: 0 <= c < |m.boxes| && c != d ==> n.boxes[c].waiting == m.boxes[c].waiting
    requires n.boxes[d].waiting == m.boxes[d].waiting[Decimal(m.ref + 1) := p]
    ensures NoOldRefs(m, n)
  {
    NumberOfDecimal(m.ref + 1);
  }

  // ---------- Handlers that send ----------

  lemma SendNoOld(m: Mail, p: nat)
    requires p < |m.pushes| && m.pushes[p].channel < |m.boxes|
    ensures NoOldRefs(m, Send(m, p))
  {
    if !m.pushes[p].TimedOut() {
      NextRefWaits(m, Send(m, p), m.pushes[p].channel, p);
    }
  }

  lemma UnsubNoOld(w: World, d: nat)
    requires WorldOk(w) && d < |w.chans|
    ensures NoOldRefs(w.mail, Unsub(w, d).mail)
  {
    var m := Destroy(w.mail, JoinOf(w, d));
    SendNoOld(m.(pushes := m.pushes + [NewPush(d, Leave)]), |m.pushes|);
  }

  lemma RejoinedNoOld(w: World, d: nat)
    requires WorldOk(w) && d < |w.chans|
    ensures NoOldRefs(w.mail, Rejoined(w, d).mail)
  {
    var m, j := w.mail, JoinOf(w, d);
    SendNoOld(m.(pushes := m.pushes[j := m.pushes[j].(ref := None, resp := None, sent := false)]), j);
  }

  lemma LeaveOpenTopicNoOld(w: World, topic: string)
    requires WorldOk(w)
    ensures NoOldRefs(w.mail, LeaveOpenTopic(w, topic).mail) && |LeaveOpenTopic(w, topic).chans| == |w.chans|
  {
    if topic in w.registry.vals {
      UnsubNoOld(w, w.registry.vals[topic]);
    }
  }

  lemma RejoinNoOld(w: World, d: nat)
    requires WorldOk(w) && d < |w.chans|
    ensures NoOldRefs(w.mail, Rejoin(w, d).mail)
  {
    if w.chans[d].state != Leaving {
      var v := LeaveOpenTopic(w, Topic(w, d));
      LeaveOpenTopicNoOld(w, Topic(w, d));
      RejoinedNoOld(v, d);
      NoOldRefsTrans(w.mail, v.mail, Rejoined(v, d).mail);
    }
  }

  lemma {:induction false} RejoinAllNoOld(w: World, topics: seq<string>)
    requires WorldOk(w) && forall t :: t in topics ==> t in w.registry.vals
    ensures NoOldRefs(w.mail, RejoinAll(w, topics).mail)
    decreases |topics|
  {
    if topics != [] {
      var v := Rejoin(w, w.registry.vals[topics[0]]);
      RejoinNoOld(w, w.registry.vals[topics[0]]);
      RejoinAllNoOld(v, topics[1..]);
      NoOldRefsTrans(w.mail, v.mail, RejoinAll(w, topics).mail);
    }
  }

  // ---------- Callbacks and replies ----------

  lemma RunHookNoOld(w: World, d: nat, h: Hook, rows: seq<Bindings.Row>)
    requires WorldOk(w) && d < |w.chans|
    ensures NoOldRefs(w.mail, RunHook(w, d, h, rows).mail)
  {
  }

  lemma {:induction false} RunHooksNoOld(w: World, d: nat, hooks: seq<Hook>, rows: seq<Bindings.Row>)
    requires WorldOk(w) && d < |w.chans|
    ensures NoOldRefs(w.mail, RunHooks(w, d, hooks, rows).mail)
    decreases |hooks|
  {
    if hooks != [] {
      var v := RunHook(w, d, hooks[0], rows);
      RunHookNoOld(w, d, hooks[0], rows);
      RunHooksNoOld(v, d, hooks[1..], rows);
      NoOldRefsTrans(w.mail, v.mail, RunHooks(w, d, hooks, rows).mail);
    }
  }

  lemma HandleReplyNoOld(w: World, d: nat, ref: string, ok: bool, rows: seq<Bindings.Row>)
    requires WorldOk(w) && d < |w.chans| && ref in w.mail.boxes[d].waiting
    ensures NoOldRefs(w.mail, HandleReply(w, d, ref, ok, rows).mail)
  {
    var resp := if ok then Response(Pushes.Ok, rows) else Response(Error, []);
    ReplyKeeps(w.mail, d, ref, resp);
    var q, v := w.mail.pushes[w.mail.boxes[d].waiting[ref]], w.(mail := Reply(w.mail, d, ref, resp));
    RunHooksNoOld(v, d, if ok then q.okHooks else q.errorHooks, resp.rows);
    NoOldRefsTrans(w.mail, v.mail, HandleReply(w, d, ref, ok, rows).mail);
  }

  lemma DeliverNoOld(w: World, topic: string, msg: ServerMessage)
    requires WorldOk(w)
    ensures NoOldRefs(w.mail, Deliver(w, topic, msg).mail)
  {
    if topic in w.registry.vals && msg.ReplyTo? {
      var d := w.registry.vals[topic];
      if msg.ref.Some? && msg.ref.value in w.mail.boxes[d].waiting {
        ReplyIsHandled(w, d, msg.ref.value, msg.ok, msg.rows);
        HandleReplyNoOld(w, d, msg.ref.value, msg.ok, msg.rows);
      }
    }
  }

  // ---------- Calls of the user ----------

  lemma ReceiveNoOld(w: World, d: nat, status: Ack, h: Hook)
    requires WorldOk(w) && d < |w.chans| && h in {SubscribeOk, SubscribeError, SubscribeTimeout}
    ensures NoOldRefs(w.mail, Receive(w, d, status, h).mail)
  {
  }

  lemma CallbacksNoOld(w: World, d: nat)
    requires WorldOk(w) && d < |w.chans|
    ensures NoOldRefs(w.mail, RegisterCallbacks(w, d).mail)
  {
    var w1 := w.(chans := w.chans[d := w.chans[d].(joinedOnce := true)]);
    var w2 := Receive(w1, d, Pushes.Ok, SubscribeOk);
    var w3 := Receive(w2, d, Error, SubscribeError);
    ReceiveNoOld(w1, d, Pushes.Ok, SubscribeOk);
    ReceiveNoOld(w2, d, Error, SubscribeError);
    ReceiveNoOld(w3, d, Timeout, SubscribeTimeout);
    NoOldRefsTrans(w1.mail, w2.mail, w3.mail);
    NoOldRefsTrans(w1.mail, w3.mail, Receive(w3, d, Timeout, SubscribeTimeout).mail);
  }

  lemma SubscribeNoOld(w: World, d: nat, succeeds: bool)
    requires WorldOk(w) && d < |w.chans|
    ensures NoOldRefs(w.mail, Subscribe(w, d, succeeds).mail)
  {
    var v := Connect(w, succeeds);
    if v.mail.connected && !v.chans[d].joinedOnce {
      var u := RegisterCallbacks(v, d);
      CallbacksNoOld(v, d);
      RejoinNoOld(u, d);
      NoOldRefsTrans(v.mail, u.mail, Rejoin(u, d).mail);
    }
  }

  lemma RemoveNoOld(w: World, d: nat)
    requires WorldOk(w) && d < |w.chans|
    ensures NoOldRefs(w.mail, RemoveChannel(w, d).mail)
  {
    if Topic(w, d) in w.registry.vals {
      UnsubNoOld(w, w.registry.vals[Topic(w, d)]);
    }
  }

  lemma PushNoOld(w: World, d: nat)
    requires WorldOk(w) && d < |w.chans|
    ensures NoOldRefs(w.mail, PushEvent(w, d).mail)
  {
    var m := w.mail;
    SendNoOld(m.(pushes := m.pushes + [NewPush(d, User)]), |m.pushes|);
  }

  lemma CreateNoOld(w: World, name: string)
    requires WorldOk(w)
    ensures NoOldRefs(w.mail, CreateChannel(w, name).mail)
  {
  }

  lemma UserStepNoOld(w: World, e: Event)
    requires WorldOk(w) && ByUser(e)
    ensures NoOldRefs(w.mail, Step(w, e).mail)
  {
    match e {
      case Creates(name) => CreateNoOld(w, name);
      case Subscribes(d, succeeds) => if d < |w.chans| { SubscribeNoOld(w, d, succeeds); }
      case Unsubscribes(d) => if d < |w.chans| { UnsubNoOld(w, d); }
      case Removes(d) => if d < |w.chans| { RemoveNoOld(w, d); }
      case UserPushes(d) => if d < |w.chans| { PushNoOld(w, d); }
      case Registers(d, b) =>
    }
  }

  // ---------- Tasks and the connection ----------

  lemma ForgottenNoOld(u: World, p: nat)
    requires WorldOk(u) && p < |u.mail.pushes| && u.mail.pushes[p].kind == Join
    ensures NoOldRefs(u.mail, JoinForgotten(u, p).mail)
  {
    ForgetJoinKeeps(u.mail, p);
  }

  lemma TimeoutNoOld(w: World, p: nat, i: nat)
    requires WorldOk(w) && TimeoutPending(w, p, i)
    ensures NoOldRefs(w.mail, TimeoutFires(w, p, i).mail)
  {
    var q := w.mail.pushes[p];
    if q.kind == Join {
      var v := JoinExpired(w, p, i);
      var u := RunHooks(v, q.channel, q.timeoutHooks, []);
      RunHooksNoOld(v, q.channel, q.timeoutHooks, []);
      ForgottenNoOld(u, p);
      NoOldRefsTrans(v.mail, u.mail, JoinForgotten(u, p).mail);
    } else {
      TimeoutKeeps(w.mail, p, i);
    }
  }

  lemma TimerNoOld(w: World, d: nat, i: nat)
    requires WorldOk(w) && TimerPending(w, d, i)
    ensures NoOldRefs(w.mail, TimerFires(w, d, i).mail)
  {
    var ch := w.chans[d];
    var v := w.(chans := w.chans[d := ch.(timer := Fire(ch.timer, i))]);
    RejoinNoOld(v.(chans := v.chans[d := v.chans[d].(timer := Schedule(v.chans[d].timer))]), d);
  }

  lemma RunReadyNoOld(w: World)
    requires WorldOk(w) && w.mail.ready != []
    ensures NoOldRefs(w.mail, RunReady(w).mail)
  {
    assert TaskOk(w.mail, w.mail.ready[0]);
    match w.mail.ready[0] {
      case SendPush(p) =>
        RunSendKeeps(w.mail);
        SendNoOld(w.mail.(ready := w.mail.ready[1..]), p);
      case Unsubscribe(d) =>
        PopTaskKeeps(w.mail);
        UnsubNoOld(w.(mail := PopTask(w.mail)), d);
    }
  }

  lemma ReconnectNoOld(w: World, succeeds: bool)
    requires WorldOk(w)
    ensures NoOldRefs(w.mail, Reconnect(w, succeeds).mail)
  {
    RejoinAllNoOld(Connect(CloseSocket(w), succeeds), w.registry.keys);
  }

  lemma StepNoOld(w: World, e: Event)
    requires WorldOk(w)
    ensures NoOldRefs(w.mail, Step(w, e).mail)
  {
    match e {
      case Receives(topic, msg) => DeliverNoOld(w, topic, msg);
      case PushTimesOut(p, i) => if TimeoutPending(w, p, i) { TimeoutNoOld(w, p, i); }
      case TimerWakes(d, i) => if TimerPending(w, d, i) { TimerNoOld(w, d, i); }
      case TaskStarts => if w.mail.ready != [] { RunReadyNoOld(w); }
      case Connects(succeeds) =>
      case Closes =>
      case Reconnects(succeeds) => ReconnectNoOld(w, succeeds);
      case _ => UserStepNoOld(w, e);
    }
  }

  lemma {:induction false} RunNoOld(w: World, events: seq<Event>)
    requires WorldOk(w)
    ensures NoOldRefs(w.mail, RunFrom(w, events).mail)
    decreases |events|
  {
    if events != [] {
      var v := RunFrom(w, events[..|events| - 1]);
      RunNoOld(w, events[..|events| - 1]);
      StepNoOld(v, events[|events| - 1]);
      NoOldRefsTrans(w.mail, v.mail, RunFrom(w, events).mail);
    }
  }

  // ---------- Main result ----------

  /** The ref has been issued and does not wait on channel c, nor ever will. */
  ghost predicate Dead(w: World, c: nat, ref: string) {
    WorldOk(w) && c < |w.chans| && ref !in w.mail.boxes[c].waiting && Number(ref) <= w.mail.ref
  }

  lemma WaitingWasIssued(w: World, c: nat, ref: string)
    requires WorldOk(w) && c < |w.chans| && ref in w.mail.boxes[c].waiting
    ensures Number(ref) <= w.mail.ref
  {
    assert BoxOk(w.mail, c) && EntryOk(w.mail, c, ref);
  }

  lemma DeadReplyIgnored(w: World, c: nat, ref: string, ok: bool, rows: seq<Bindings.Row>)
    requires Dead(w, c, ref)
    ensures Registered(w, c) ==> Deliver(w, Topic(w, c), ReplyTo(Some(ref), ok, rows)) == w
  {
  }

  /** After any run, any reply to a dead ref still changes nothing. */
  lemma DeadStaysDead(w: World, events: seq<Event>, c: nat, ref: string, ok: bool, rows: seq<Bindings.Row>)
    requires Dead(w, c, ref)
    ensures var v := RunFrom(w, events);
      && Dead(v, c, ref)
      && (Registered(v, c) ==> Step(v, Receives(Topic(v, c), ReplyTo(Some(ref), ok, rows))) == v)
  {
    RunNoOld(w, events);
    DeadReplyIgnored(RunFrom(w, events), c, ref, ok, rows);
  }

  lemma {:induction false} RunHooksKeepWaiting(w: World, d: nat, hooks: seq<Hook>, rows: seq<Bindings.Row>, c: nat)
    requires WorldOk(w) && d < |w.chans| && c < |w.chans|
    ensures RunHooks(w, d, hooks, rows).mail.boxes[c].waiting == w.mail.boxes[c].waiting
    ensures RunHooks(w, d, hooks, rows).mail.ref == w.mail.ref
    decreases |hooks|
  {
    if hooks != [] {
      RunHooksKeepWaiting(RunHook(w, d, hooks[0], rows), d, hooks[1..], rows, c);
    }
  }

  /** A ref that has been answered is dead: a second reply to it, at any later time, changes nothing. */
  lemma AnsweredIsDead(w: World, c: nat, ref: string, ok: bool, rows: seq<Bindings.Row>)
    requires WorldOk(w) && c < |w.chans| && Registered(w, c) && ref in w.mail.boxes[c].waiting
    ensures Dead(Deliver(w, Topic(w, c), ReplyTo(Some(ref), ok, rows)), c, ref)
  {
    var resp := if ok then Response(Pushes.Ok, rows) else Response(Error, []);
    WaitingWasIssued(w, c, ref);
    ReplyIsHandled(w, c, ref, ok, rows);
    ReplyKeeps(w.mail, c, ref, resp);
    var q := w.mail.pushes[w.mail.boxes[c].waiting[ref]];
    var hooks := if ok then q.okHooks else q.errorHooks;
    RunHooksKeepWaiting(w.(mail := Reply(w.mail, c, ref, resp)), c, hooks, resp.rows, c);
  }

  lemma ForgottenStopsWaiting(u: World, p: nat)
    requires WorldOk(u) && p < |u.mail.pushes| && u.mail.pushes[p].kind == Join && u.mail.pushes[p].ref.Some?
    ensures var r, q := JoinForgotten(u, p), u.mail.pushes[p];
      && q.channel < |r.mail.boxes| && q.ref.value !in r.mail.boxes[q.channel].waiting
      && r.mail.ref == u.mail.ref && |r.chans| == |u.chans|
  {
    ForgetJoinKeeps(u.mail, p);
  }

  /** So is the ref that a push holds when its timeout fires. */
  lemma TimedOutIsDead(w: World, p: nat, i: nat)
    requires WorldOk(w) && TimeoutPending(w, p, i) && w.mail.pushes[p].ref.Some?
    ensures Dead(TimeoutFires(w, p, i), w.mail.pushes[p].channel, w.mail.pushes[p].ref.value)
  {
    var q := w.mail.pushes[p];
    assert PushOk(w.mail, p);
    if q.kind == Join {
      var v := JoinExpired(w, p, i);
      RunHooksKeepWaiting(v, q.channel, q.timeoutHooks, [], q.channel);
      ForgottenStopsWaiting(RunHooks(v, q.channel, q.timeoutHooks, []), p);
    } else {
      TimeoutKeeps(w.mail, p, i);
    }
  }
}
