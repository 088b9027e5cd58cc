/** What ends the leaving of a registered channel: nothing wakes one whose leave is not answered. */
module LeavingRuns {
  import opened PyDict
  import opened Timers
  import opened Pushes
  import opened PushesProofs
  import opened Protocol
  import opened ProtocolLife
  import Bindings

  ghost predicate Departing(w: World, c: nat) {
    WorldOk(w) && c < |w.chans| && w.chans[c].state == Leaving && Registered(w, c)
  }

  /** The reply ends channel c's leaving: it answers one of its leaves, or accepts one of its joins. */
  predicate AnswersDeparture(w: World, c: nat, ref: Option<string>, ok: bool)
    requires c < |w.mail.boxes|
  {
    && ref.Some? && ref.value in w.mail.boxes[c].waiting
    && var p := w.mail.boxes[c].waiting[ref.value];
       p < |w.mail.pushes| && (w.mail.pushes[p].kind == Leave || (w.mail.pushes[p].kind == Join && ok))
  }

  /** The event ends it: such a reply, a close by the server, or a new channel that takes over the topic. */
  predicate EndsLeaving(w: World, e: Event, c: nat)
    requires c < |w.mail.boxes|
  {
    || (e.Creates? && "realtime:" + e.name == Topic(w, c))
    || (e.Receives? && e.topic == Topic(w, c)
        && (e.msg.PhxClose? || (e.msg.ReplyTo? && AnswersDeparture(w, c, e.msg.ref, e.msg.ok))))
  }

  // ---------- Handlers ----------

  lemma UnsubKeepsTopic(w: World, d: nat, c: nat)
    requires WorldOk(w) && d < |w.chans| && c < |w.chans|
    ensures Topic(Unsub(w, d), c) == Topic(w, c)
  {
  }

  lemma UnsubDeparting(w: World, d: nat, c: nat)
    requires Departing(w, c) && d < |w.chans|
    ensures Departing(Unsub(w, d), c)
  {
    if d != c {
      UnsubFrame(w, d, c);
    }
    UnsubKeepsTopic(w, d, c);
  }

  lemma RejoinedDeparting(w: World, d: nat, c: nat)
    requires Departing(w, c) && d < |w.chans| && d != c
    ensures Departing(Rejoined(w, d), c)
  {
    assert TouchesOnly(w.mail, Rejoined(w, d).mail, JoinOf(w, d));
  }

  lemma RejoinDeparting(w: World, d: nat, c: nat)
    requires Departing(w, c) && d < |w.chans|
    ensures Departing(Rejoin(w, d), c)
  {
    var t := Topic(w, d);
    if d != c {
      if t in w.registry.vals {
        UnsubDeparting(w, w.registry.vals[t], c);
      }
      RejoinedDeparting(LeaveOpenTopic(w, t), d, c);
    }
  }

  lemma {:induction false} RejoinAllDeparting(w: World, topics: seq<string>, c: nat)
    requires Departing(w, c) && forall t :: t in topics ==> t in w.registry.vals
    ensures Departing(RejoinAll(w, topics), c)
    decreases |topics|
  {
    if topics != [] {
      RejoinDeparting(w, w.registry.vals[topics[0]], c);
      RejoinAllDeparting(Rejoin(w, w.registry.vals[topics[0]]), topics[1..], c);
    }
  }

  lemma RunHookDeparting(w: World, d: nat, h: Hook, rows: seq<Bindings.Row>, c: nat)
    requires Departing(w, c) && d < |w.chans|
    requires (h == Close ==> Topic(w, d) != Topic(w, c)) && (h == JoinOk ==> d != c)
    ensures var r := RunHook(w, d, h, rows); Departing(r, c) && Topic(r, d) == Topic(w, d) && Topic(r, c) == Topic(w, c)
  {
  }

  lemma {:induction false} RunHooksDeparting(w: World, d: nat, hooks: seq<Hook>, rows: seq<Bindings.Row>, c: nat)
    requires Departing(w, c) && d < |w.chans|
    requires (Close in hooks ==> Topic(w, d) != Topic(w, c)) && (JoinOk in hooks ==> d != c)
    ensures Departing(RunHooks(w, d, hooks, rows), c)
    decreases |hooks|
  {
    if hooks != [] {
      assert hooks[0] in hooks;
      RunHookDeparting(w, d, hooks[0], rows, c);
      RunHooksDeparting(RunHook(w, d, hooks[0], rows), d, hooks[1..], rows, c);
    }
  }

  // ---------- Replies ----------

  lemma OtherReplyDeparting(w: World, d: nat, ref: string, ok: bool, rows: seq<Bindings.Row>, c: nat)
    requires Departing(w, c) && d < |w.chans| && d != c && Registered(w, d) && ref in w.mail.boxes[d].waiting
    ensures Departing(HandleReply(w, d, ref, ok, rows), c)
  {
    var resp := if ok then Response(Pushes.Ok, rows) else Response(Error, []);
    ReplyKeeps(w.mail, d, ref, resp);
    var q := w.mail.pushes[w.mail.boxes[d].waiting[ref]];
    RunHooksDeparting(w.(mail := Reply(w.mail, d, ref, resp)), d, if ok then q.okHooks else q.errorHooks, resp.rows, c);
  }

  /** The library's callbacks on a push that waits on channel c, by its kind. */
  lemma WaitingHooks(w: World, c: nat, ref: string)
    requires LifeOk(w) && c < |w.chans| && ref in w.mail.boxes[c].waiting
    ensures w.mail.boxes[c].waiting[ref] < |w.mail.pushes|
    ensures var q := w.mail.pushes[w.mail.boxes[c].waiting[ref]];
      && (q.kind == Leave ==> q.okHooks == [Close] && q.errorHooks == [Close])
      && (q.kind == User ==> q.okHooks == [] && q.errorHooks == [])
      && (q.kind == Join ==> q.okHooks == [JoinOk] || q.okHooks == [JoinOk, SubscribeOk])
      && (q.kind == Join ==> q.errorHooks == [] || q.errorHooks == [SubscribeError])
  {
    assert BoxOk(w.mail, c) && EntryOk(w.mail, c, ref) && PushOk(w.mail, w.mail.boxes[c].waiting[ref]) && ChanOk(w, c);
  }

  /** A reply to the leaving channel's user push, or one that refuses its join, runs no callback that matters. */
  lemma OwnReplyDeparting(w: World, c: nat, ref: string, ok: bool, rows: seq<Bindings.Row>)
    requires LifeOk(w) && Departing(w, c) && ref in w.mail.boxes[c].waiting && !AnswersDeparture(w, c, Some(ref), ok)
    ensures Departing(HandleReply(w, c, ref, ok, rows), c)
  {
    var resp := if ok then Response(Pushes.Ok, rows) else Response(Error, []);
    ReplyKeeps(w.mail, c, ref, resp);
    WaitingHooks(w, c, ref);
    var q := w.mail.pushes[w.mail.boxes[c].waiting[ref]];
    RunHooksDeparting(w.(mail := Reply(w.mail, c, ref, resp)), c, if ok then q.okHooks else q.errorHooks, resp.rows, c);
  }

  lemma CloseEndsLeaving(v: World, c: nat, rows: seq<Bindings.Row>)
    requires WorldOk(v) && c < |v.chans|
    ensures !Departing(RunHooks(v, c, [Close], rows), c)
  {
    assert [Close][1..] == [];
    assert RunHooks(v, c, [Close], rows) == RunHooks(OnClose(v, c), c, [], rows);
  }

  lemma JoinEndsLeaving(v: World, c: nat, hooks: seq<Hook>, rows: seq<Bindings.Row>)
    requires WorldOk(v) && c < |v.chans| && (hooks == [JoinOk] || hooks == [JoinOk, SubscribeOk])
    ensures RunHooks(v, c, hooks, rows).chans[c].state == Joined
  {
    var u := RunHook(v, c, JoinOk, rows);
    assert RunHooks(v, c, hooks, rows) == RunHooks(u, c, hooks[1..], rows);
    if |hooks| == 2 {
      assert hooks[1..][0] == SubscribeOk && hooks[1..][1..] == [];
      assert RunHooks(u, c, hooks[1..], rows) == RunHooks(RunHook(u, c, SubscribeOk, rows), c, [], rows);
    }
  }

  lemma LeaveAnswered(w: World, c: nat, ref: string, ok: bool, rows: seq<Bindings.Row>)
    requires LifeOk(w) && Departing(w, c) && AnswersDeparture(w, c, Some(ref), ok)
    ensures !Departing(HandleReply(w, c, ref, ok, rows), c)
  {
    var resp := if ok then Response(Pushes.Ok, rows) else Response(Error, []);
    ReplyKeeps(w.mail, c, ref, resp);
    WaitingHooks(w, c, ref);
    var v, q := w.(mail := Reply(w.mail, c, ref, resp)), w.mail.pushes[w.mail.boxes[c].waiting[ref]];
    if q.kind == Leave {
      CloseEndsLeaving(v, c, resp.rows);
    } else {
      JoinEndsLeaving(v, c, q.okHooks, resp.rows);
    }
  }

  lemma ReplyDepartingIff(w: World, d: nat, ref: string, ok: bool, rows: seq<Bindings.Row>, c: nat)
    requires LifeOk(w) && Departing(w, c) && d < |w.chans| && Registered(w, d) && ref in w.mail.boxes[d].waiting
    ensures Departing(HandleReply(w, d, ref, ok, rows), c) <==> !(d == c && AnswersDeparture(w, c, Some(ref), ok))
  {
    if d != c {
      OtherReplyDeparting(w, d, ref, ok, rows, c);
    } else if AnswersDeparture(w, c, Some(ref), ok) {
      LeaveAnswered(w, c, ref, ok, rows);
    } else {
      OwnReplyDeparting(w, c, ref, ok, rows);
    }
  }

  lemma OtherMessageDepartingIff(w: World, topic: string, msg: ServerMessage, c: nat)
    requires Departing(w, c) && !msg.ReplyTo?
    ensures Departing(Deliver(w, topic, msg), c) <==> !EndsLeaving(w, Receives(topic, msg), c)
  {
  }

  lemma ReplyMessageDepartingIff(w: World, topic: string, msg: ServerMessage, c: nat)
    requires LifeOk(w) && Departing(w, c) && msg.ReplyTo?
    ensures Departing(Deliver(w, topic, msg), c) <==> !EndsLeaving(w, Receives(topic, msg), c)
  {
    if topic in w.registry.vals {
      var d := w.registry.vals[topic];
      if msg.ref.Some? && msg.ref.value in w.mail.boxes[d].waiting {
        ReplyIsHandled(w, d, msg.ref.value, msg.ok, msg.rows);
        ReplyDepartingIff(w, d, msg.ref.value, msg.ok, msg.rows, c);
      }
    }
  }

  lemma MessageDepartingIff(w: World, topic: string, msg: ServerMessage, c: nat)
    requires LifeOk(w) && Departing(w, c)
    ensures Departing(Deliver(w, topic, msg), c) <==> !EndsLeaving(w, Receives(topic, msg), c)
  {
    if msg.ReplyTo? {
      ReplyMessageDepartingIff(w, topic, msg, c);
    } else {
      OtherMessageDepartingIff(w, topic, msg, c);
    }
  }

  // ---------- Events ----------

  lemma ReceiveDeparting(w: World, d: nat, status: Ack, h: Hook, c: nat)
    requires Departing(w, c) && d < |w.chans| && h in {SubscribeOk, SubscribeError, SubscribeTimeout}
    ensures Departing(Receive(w, d, status, h), c)
  {
  }

  lemma CallbacksDeparting(w: World, d: nat, c: nat)
    requires Departing(w, c) && d < |w.chans|
    ensures Departing(RegisterCallbacks(w, d), c)
  {
    var w1 := w.(chans := w.chans[d := w.chans[d].(joinedOnce := true)]);
    ReceiveDeparting(w1, d, Pushes.Ok, SubscribeOk, c);
    var w2 := Receive(w1, d, Pushes.Ok, SubscribeOk);
    ReceiveDeparting(w2, d, Error, SubscribeError, c);
    ReceiveDeparting(Receive(w2, d, Error, SubscribeError), d, Timeout, SubscribeTimeout, c);
  }

  lemma SubscribeDeparting(w: World, d: nat, succeeds: bool, c: nat)
    requires Departing(w, c) && d < |w.chans|
    ensures Departing(Subscribe(w, d, succeeds), c)
  {
    var v := Connect(w, succeeds);
    if v.mail.connected && !v.chans[d].joinedOnce {
      CallbacksDeparting(v, d, c);
      RejoinDeparting(RegisterCallbacks(v, d), d, c);
    }
  }

  lemma RemoveDeparting(w: World, d: nat, c: nat)
    requires Departing(w, c) && d < |w.chans|
    ensures Departing(RemoveChannel(w, d), c)
  {
    if Topic(w, d) in w.registry.vals {
      UnsubDeparting(w, w.registry.vals[Topic(w, d)], c);
    }
  }

  lemma PushDeparting(w: World, d: nat, c: nat)
    requires Departing(w, c) && d < |w.chans|
    ensures Departing(PushEvent(w, d), c)
  {
    PostTouches(w.mail, d, User);
  }

  lemma CreateDepartingIff(w: World, name: string, c: nat)
    requires Departing(w, c)
    ensures Departing(CreateChannel(w, name), c) <==> "realtime:" + name != Topic(w, c)
  {
  }

  lemma UserStepDepartingIff(w: World, e: Event, c: nat)
    requires Departing(w, c) && ByUser(e)
    ensures Departing(Step(w, e), c) <==> !EndsLeaving(w, e, c)
  {
    match e {
      case Creates(name) => CreateDepartingIff(w, name, c);
      case Subscribes(d, succeeds) => if d < |w.chans| { SubscribeDeparting(w, d, succeeds, c); }
      case Unsubscribes(d) => if d < |w.chans| { UnsubDeparting(w, d, c); }
      case Removes(d) => if d < |w.chans| { RemoveDeparting(w, d, c); }
      case UserPushes(d) => if d < |w.chans| { PushDeparting(w, d, c); }
      case Registers(d, b) =>
    }
  }

  lemma ForgottenDeparting(w: World, p: nat, c: nat)
    requires Departing(w, c) && p < |w.mail.pushes| && w.mail.pushes[p].kind == Join
    ensures Departing(JoinForgotten(w, p), c)
  {
    ForgetJoinKeeps(w.mail, p);
  }

  lemma OtherTimeoutDeparting(w: World, p: nat, i: nat, c: nat)
    requires Departing(w, c) && TimeoutPending(w, p, i) && w.mail.pushes[p].kind != Join
    ensures Departing(TimeoutFires(w, p, i), c)
  {
    TimeoutKeeps(w.mail, p, i);
  }

  lemma JoinHooks(w: World, p: nat)
    requires LifeOk(w) && p < |w.mail.pushes| && w.mail.pushes[p].kind == Join
    ensures Close !in w.mail.pushes[p].timeoutHooks && JoinOk !in w.mail.pushes[p].timeoutHooks
  {
    assert PushOk(w.mail, p) && ChanOk(w, w.mail.pushes[p].channel);
  }

  lemma TimeoutDeparting(w: World, p: nat, i: nat, c: nat)
    requires LifeOk(w) && Departing(w, c) && TimeoutPending(w, p, i)
    ensures Departing(TimeoutFires(w, p, i), c)
  {
    var q := w.mail.pushes[p];
    if q.kind == Join {
      JoinHooks(w, p);
      RunHooksDeparting(JoinExpired(w, p, i), q.channel, q.timeoutHooks, [], c);
      ForgottenDeparting(RunHooks(JoinExpired(w, p, i), q.channel, q.timeoutHooks, []), p, c);
    } else {
      OtherTimeoutDeparting(w, p, i, c);
    }
  }

  lemma TimerDeparting(w: World, d: nat, i: nat, c: nat)
    requires Departing(w, c) && TimerPending(w, d, i)
    ensures Departing(TimerFires(w, d, i), c)
  {
    var ch := w.chans[d];
    var v := w.(chans := w.chans[d := ch.(timer := Fire(ch.timer, i))]);
    RejoinDeparting(v.(chans := v.chans[d := v.chans[d].(timer := Schedule(v.chans[d].timer))]), d, c);
  }

  lemma RunReadyDeparting(w: World, c: nat)
    requires Departing(w, c) && w.mail.ready != []
    ensures Departing(RunReady(w), c)
  {
    assert TaskOk(w.mail, w.mail.ready[0]);
    match w.mail.ready[0] {
      case SendPush(p) =>
        RunSendKeeps(w.mail);
        assert PushOk(w.mail, p);
        assert TouchesOnly(w.mail, RunSend(w.mail), p);
      case Unsubscribe(d) =>
        PopTaskKeeps(w.mail);
        UnsubDeparting(w.(mail := PopTask(w.mail)), d, c);
    }
  }

  lemma SocketDeparting(w: World, succeeds: bool, c: nat)
    requires Departing(w, c)
    ensures Departing(Connect(w, succeeds), c) && Departing(CloseSocket(w), c)
  {
  }

  lemma ReconnectDeparting(w: World, succeeds: bool, c: nat)
    requires Departing(w, c)
    ensures Departing(Reconnect(w, succeeds), c)
  {
    SocketDeparting(w, succeeds, c);
    SocketDeparting(CloseSocket(w), succeeds, c);
    RejoinAllDeparting(Connect(CloseSocket(w), succeeds), w.registry.keys, c);
  }

  /** Tasks that wake or start, and what happens to the connection, do not end it. */
  lemma OtherStepDeparting(w: World, e: Event, c: nat)
    requires LifeOk(w) && Departing(w, c) && !ByUser(e) && !e.Receives?
    ensures Departing(Step(w, e), c)
  {
    match e {
      case PushTimesOut(p, i) => if TimeoutPending(w, p, i) { TimeoutDeparting(w, p, i, c); }
      case TimerWakes(d, i) => if TimerPending(w, d, i) { TimerDeparting(w, d, i, c); }
      case TaskStarts => if w.mail.ready != [] { RunReadyDeparting(w, c); }
      case Connects(succeeds) => SocketDeparting(w, succeeds, c);
      case Closes => SocketDeparting(w, false, c);
      case Reconnects(succeeds) => ReconnectDeparting(w, succeeds, c);
    }
  }

  /** A registered leaving channel stays so through an event exactly when the event does not end its leaving. */
  lemma StepDepartingIff(w: World, e: Event, c: nat)
    requires LifeOk(w) && Departing(w, c)
    ensures Departing(Step(w, e), c) <==> !EndsLeaving(w, e, c)
  {
    match e {
      case Receives(topic, msg) => MessageDepartingIff(w, topic, msg, c);
      case _ =>
        if ByUser(e) {
          UserStepDepartingIff(w, e, c);
        } else {
          OtherStepDeparting(w, e, c);
        }
    }
  }

  /** No event of the run ends the leaving of channel c. */
  ghost predicate Unanswered(w: World, events: seq<Event>, c: nat)
    requires WorldOk(w)
    decreases |events|
  {
    events == []
    || (var v := RunFrom(w, events[..|events| - 1]);
        && Unanswered(w, events[..|events| - 1], c)
        && (c < |v.mail.boxes| ==> !EndsLeaving(v, events[|events| - 1], c)))
  }

  /**
   * Without such an event the channel stays registered and leaving for good, with no rejoin timer: nothing else
   * wakes it.
   */
  lemma {:induction false} LeavingUntilAnswered(w: World, events: seq<Event>, c: nat)
    requires LifeOk(w) && Departing(w, c) && Unanswered(w, events, c)
    ensures var r := RunFrom(w, events); Departing(r, c) && !r.chans[c].timer.slot.IsPending()
    decreases |events|
  {
    RunFromLife(w, events);
    if events != [] {
      LeavingUntilAnswered(w, events[..|events| - 1], c);
      RunFromLife(w, events[..|events| - 1]);
      StepDepartingIff(RunFrom(w, events[..|events| - 1]), events[|events| - 1], c);
    }
    assert ChanOk(RunFrom(w, events), c);
  }
}
