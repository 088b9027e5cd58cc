/** Closed and removed stays closed. */
module ChannelRuns {
  import opened Timers
  import opened Pushes
  import opened PushesProofs
  import opened Protocol
  import opened ProtocolLife
  import opened Recovery
  import Bindings

  ghost predicate Gone(w: World, c: nat) {
    WorldOk(w) && c < |w.chans| && w.chans[c].state == Closed && !Registered(w, c)
  }

  /** A close, from the server or from the reply to a leave, removes the channel and stops its timer. */
  lemma ClosingRemoves(w: World, c: nat)
    requires LifeOk(w) && c < |w.chans|
    ensures Gone(OnClose(w, c), c) && !OnClose(w, c).chans[c].timer.slot.IsPending()
  {
    assert ChanOk(w, c);
  }

  lemma HolderIsOther(w: World, c: nat, t: string)
    requires Gone(w, c) && t in w.registry.vals
    ensures w.registry.vals[t] != c
  {
  }

  lemma UnsubGone(w: World, d: nat, c: nat)
    requires Gone(w, c) && d < |w.chans| && d != c
    ensures Gone(Unsub(w, d), c)
  {
    UnsubFrame(w, d, c);
  }

  lemma LeaveOpenTopicGone(w: World, topic: string, c: nat)
    requires Gone(w, c)
    ensures Gone(LeaveOpenTopic(w, topic), c) && |LeaveOpenTopic(w, topic).chans| == |w.chans|
  {
    if topic in w.registry.vals {
      HolderIsOther(w, c, topic);
      UnsubGone(w, w.registry.vals[topic], c);
    }
  }

  lemma RejoinedGone(w: World, d: nat, c: nat)
    requires Gone(w, c) && d < |w.chans| && d != c
    ensures Gone(Rejoined(w, d), c)
  {
    RejoinedFrame(w, d, c);
  }

  lemma RejoinGone(w: World, d: nat, c: nat)
    requires Gone(w, c) && d < |w.chans| && d != c
    ensures Gone(Rejoin(w, d), c)
  {
    if w.chans[d].state != Leaving {
      LeaveOpenTopicGone(w, Topic(w, d), c);
      RejoinedGone(LeaveOpenTopic(w, Topic(w, d)), d, c);
    }
  }

  lemma {:induction false} RejoinAllGone(w: World, topics: seq<string>, c: nat)
    requires Gone(w, c) && forall t :: t in topics ==> t in w.registry.vals
    ensures Gone(RejoinAll(w, topics), c)
    decreases |topics|
  {
    if topics != [] {
      HolderIsOther(w, c, topics[0]);
      RejoinGone(w, w.registry.vals[topics[0]], c);
      RejoinAllGone(Rejoin(w, w.registry.vals[topics[0]]), topics[1..], c);
    }
  }

  predicate OnlyTimeouts(hooks: seq<Hook>) {
    forall i :: 0 <= i < |hooks| ==> hooks[i] == JoinTimeout || hooks[i] == SubscribeTimeout
  }

  lemma RunHookGone(w: World, d: nat, h: Hook, rows: seq<Bindings.Row>, c: nat)
    requires Gone(w, c) && d < |w.chans| && (d != c || h == JoinTimeout || h == SubscribeTimeout)
    ensures Gone(RunHook(w, d, h, rows), c)
  {
  }

  lemma {:induction false} RunHooksGone(w: World, d: nat, hooks: seq<Hook>, rows: seq<Bindings.Row>, c: nat)
    requires Gone(w, c) && d < |w.chans| && (d != c || OnlyTimeouts(hooks))
    ensures Gone(RunHooks(w, d, hooks, rows), c)
    decreases |hooks|
  {
    if hooks != [] {
      RunHookGone(w, d, hooks[0], rows, c);
      RunHooksGone(RunHook(w, d, hooks[0], rows), d, hooks[1..], rows, c);
    }
  }

  lemma DeliverGone(w: World, topic: string, msg: ServerMessage, c: nat)
    requires Gone(w, c)
    ensures Gone(Deliver(w, topic, msg), c)
  {
    if topic in w.registry.vals {
      HolderIsOther(w, c, topic);
      var d := w.registry.vals[topic];
      if msg.ReplyTo? && msg.ref.Some? && msg.ref.value != "" && msg.ref.value in w.mail.boxes[d].waiting {
        var resp := if msg.ok then Response(Pushes.Ok, msg.rows) else Response(Error, []);
        ReplyKeeps(w.mail, d, msg.ref.value, resp);
        var q := w.mail.pushes[w.mail.boxes[d].waiting[msg.ref.value]];
        var hooks := if msg.ok then q.okHooks else q.errorHooks;
        RunHooksGone(w.(mail := Reply(w.mail, d, msg.ref.value, resp)), d, hooks, resp.rows, c);
      }
    }
  }

  lemma ReceiveGone(w: World, d: nat, status: Ack, h: Hook, c: nat)
    requires Gone(w, c) && d < |w.chans| && d != c && h != Close
    ensures Gone(Receive(w, d, status, h), c)
  {
  }

  lemma CallbacksGone(w: World, d: nat, c: nat)
    requires Gone(w, c) && d < |w.chans| && d != c
    ensures Gone(RegisterCallbacks(w, d), c)
  {
    var w1 := w.(chans := w.chans[d := w.chans[d].(joinedOnce := true)]);
    ReceiveGone(w1, d, Pushes.Ok, SubscribeOk, c);
    var w2 := Receive(w1, d, Pushes.Ok, SubscribeOk);
    ReceiveGone(w2, d, Error, SubscribeError, c);
    ReceiveGone(Receive(w2, d, Error, SubscribeError), d, Timeout, SubscribeTimeout, c);
  }

  lemma SubscribeGone(w: World, d: nat, succeeds: bool, c: nat)
    requires Gone(w, c) && d < |w.chans|
    requires d != c || w.chans[c].joinedOnce || !(w.mail.connected || succeeds)
    ensures Gone(Subscribe(w, d, succeeds), c)
  {
    var v := Connect(w, succeeds);
    if v.mail.connected && !v.chans[d].joinedOnce {
      CallbacksGone(v, d, c);
      RejoinGone(RegisterCallbacks(v, d), d, c);
    }
  }

  /** A first `subscribe` of a closed channel that does not raise makes it join. */
  lemma SubscribeRevives(w: World, succeeds: bool, c: nat)
    requires Gone(w, c) && !w.chans[c].joinedOnce && (w.mail.connected || succeeds)
    ensures !Gone(Subscribe(w, c, succeeds), c)
  {
    var v := Connect(w, succeeds);
    CallbacksOnlyTell(v, c);
    RejoinSends(RegisterCallbacks(v, c), c);
  }

  lemma UnsubRevives(w: World, c: nat)
    requires WorldOk(w) && c < |w.chans|
    ensures !Gone(Unsub(w, c), c)
  {
  }

  lemma RunReadyRevives(w: World, c: nat)
    requires WorldOk(w) && c < |w.chans| && w.mail.ready != [] && w.mail.ready[0] == Unsubscribe(c)
    ensures !Gone(RunReady(w), c)
  {
    PopTaskKeeps(w.mail);
    UnsubRevives(w.(mail := PopTask(w.mail)), c);
  }

  lemma TimeoutGone(w: World, p: nat, i: nat, c: nat)
    requires LifeOk(w) && Gone(w, c) && TimeoutPending(w, p, i)
    ensures Gone(TimeoutFires(w, p, i), c)
  {
    var q := w.mail.pushes[p];
    assert PushOk(w.mail, p);
    if q.kind == Join {
      assert ChanOk(w, q.channel);
      RunHooksGone(JoinExpired(w, p, i), q.channel, q.timeoutHooks, [], c);
    }
  }

  /** The event moves the closed channel c: an unsubscribe, asked for or scheduled earlier, or its first subscribe. */
  predicate ActsOn(w: World, e: Event, c: nat)
    requires c < |w.chans|
  {
    || e == Unsubscribes(c)
    || (e.Subscribes? && e.channel == c && !w.chans[c].joinedOnce && (w.mail.connected || e.succeeds))
    || (e.TaskStarts? && w.mail.ready != [] && w.mail.ready[0] == Unsubscribe(c))
  }

  lemma RemoveGone(w: World, d: nat, c: nat)
    requires Gone(w, c) && d < |w.chans|
    ensures Gone(RemoveChannel(w, d), c)
  {
    if Topic(w, d) in w.registry.vals {
      HolderIsOther(w, c, Topic(w, d));
      UnsubGone(w, w.registry.vals[Topic(w, d)], c);
    }
  }

  lemma PushGone(w: World, d: nat, c: nat)
    requires Gone(w, c) && d < |w.chans|
    ensures Gone(PushEvent(w, d), c)
  {
    PostTouches(w.mail, d, User);
  }

  lemma UserStepGone(w: World, e: Event, c: nat)
    requires Gone(w, c) && ByUser(e) && !ActsOn(w, e, c)
    ensures Gone(Step(w, e), c)
  {
    match e {
      case Creates(name) =>
      case Subscribes(d, succeeds) => if d < |w.chans| { SubscribeGone(w, d, succeeds, c); }
      case Unsubscribes(d) => if d < |w.chans| { UnsubGone(w, d, c); }
      case Removes(d) => if d < |w.chans| { RemoveGone(w, d, c); }
      case UserPushes(d) => if d < |w.chans| { PushGone(w, d, c); }
      case Registers(d, b) =>
    }
  }

  lemma TimerGone(w: World, d: nat, i: nat, c: nat)
    requires LifeOk(w) && Gone(w, c)
    ensures Gone(Step(w, TimerWakes(d, i)), c)
  {
    assert ChanOk(w, c);
    if TimerPending(w, d, i) {
      var ch := w.chans[d];
      var v := w.(chans := w.chans[d := ch.(timer := Fire(ch.timer, i))]);
      RejoinGone(v.(chans := v.chans[d := v.chans[d].(timer := Schedule(v.chans[d].timer))]), d, c);
    }
  }

  lemma RunReadyGone(w: World, c: nat)
    requires Gone(w, c) && w.mail.ready != [] && w.mail.ready[0] != Unsubscribe(c)
    ensures Gone(RunReady(w), c)
  {
    assert TaskOk(w.mail, w.mail.ready[0]);
    match w.mail.ready[0] {
      case SendPush(p) =>
        RunSendKeeps(w.mail);
        assert PushOk(w.mail, p);
        assert TouchesOnly(w.mail, RunSend(w.mail), p);
      case Unsubscribe(d) =>
        PopTaskKeeps(w.mail);
        UnsubGone(w.(mail := PopTask(w.mail)), d, c);
    }
  }

  lemma SocketGone(w: World, succeeds: bool, c: nat)
    requires Gone(w, c)
    ensures Gone(Connect(w, succeeds), c) && Gone(CloseSocket(w), c)
  {
  }

  lemma ReconnectGone(w: World, succeeds: bool, c: nat)
    requires Gone(w, c)
    ensures Gone(Reconnect(w, succeeds), c)
  {
    SocketGone(w, succeeds, c);
    SocketGone(CloseSocket(w), succeeds, c);
    RejoinAllGone(Connect(CloseSocket(w), succeeds), w.registry.keys, c);
  }

  lemma StepGone(w: World, e: Event, c: nat)
    requires LifeOk(w) && Gone(w, c) && !ActsOn(w, e, c)
    ensures Gone(Step(w, e), c)
  {
    match e {
      case Receives(topic, msg) => DeliverGone(w, topic, msg, c);
      case PushTimesOut(p, i) => if TimeoutPending(w, p, i) { TimeoutGone(w, p, i, c); }
      case TimerWakes(d, i) => TimerGone(w, d, i, c);
      case TaskStarts => if w.mail.ready != [] { RunReadyGone(w, c); }
      case Connects(succeeds) => SocketGone(w, succeeds, c);
      case Closes => SocketGone(w, false, c);
      case Reconnects(succeeds) => ReconnectGone(w, succeeds, c);
      case _ => UserStepGone(w, e, c);
    }
  }

  lemma ActRevives(w: World, e: Event, c: nat)
    requires Gone(w, c) && ActsOn(w, e, c)
    ensures !Gone(Step(w, e), c)
  {
    match e {
      case Unsubscribes(d) => UnsubRevives(w, c);
      case Subscribes(d, succeeds) => SubscribeRevives(w, succeeds, c);
      case TaskStarts => RunReadyRevives(w, c);
    }
  }

  /** A closed and removed channel stays so through an event exactly unless the event acts on it. */
  lemma StepGoneIff(w: World, e: Event, c: nat)
    requires LifeOk(w) && Gone(w, c)
    ensures Gone(Step(w, e), c) <==> !ActsOn(w, e, c)
  {
    if ActsOn(w, e, c) {
      ActRevives(w, e, c);
    } else {
      StepGone(w, e, c);
    }
  }

  /** No event of the run acts on channel c. */
  ghost predicate LeftAlone(w: World, events: seq<Event>, c: nat)
    requires WorldOk(w)
    decreases |events|
  {
    events == []
    || (var v := RunFrom(w, events[..|events| - 1]);
        && LeftAlone(w, events[..|events| - 1], c)
        && (c < |v.chans| ==> !ActsOn(v, events[|events| - 1], c)))
  }

  /**
   * Whatever the server, timers, reconnects and other channels do, a closed and removed channel stays so, with no
   * timer running.
   */
  lemma {:induction false} ClosedStaysClosed(w: World, events: seq<Event>, c: nat)
    requires LifeOk(w) && Gone(w, c) && LeftAlone(w, events, c)
    ensures var r := RunFrom(w, events); Gone(r, c) && !r.chans[c].timer.slot.IsPending()
    decreases |events|
  {
    RunFromLife(w, events);
    if events != [] {
      ClosedStaysClosed(w, events[..|events| - 1], c);
      RunFromLife(w, events[..|events| - 1]);
      StepGone(RunFrom(w, events[..|events| - 1]), events[|events| - 1], c);
    }
    assert ChanOk(RunFrom(w, events), c);
  }

  /**
   * A push that closes its channel is answered only while that channel is the registered one: removing it finds
   * its topic.
   */
  lemma CloseFindsTopic(w: World, topic: string, ref: string)
    requires WorldOk(w) && topic in w.registry.vals && ref in w.mail.boxes[w.registry.vals[topic]].waiting
    ensures var c := w.registry.vals[topic]; var p := w.mail.boxes[c].waiting[ref];
      && Registered(w, c) && p < |w.mail.pushes| && w.mail.pushes[p].channel == c
      && (w.mail.pushes[p].kind == Leave ==>
            w.mail.pushes[p].okHooks == [Close] && w.mail.pushes[p].errorHooks == [Close])
      && (w.mail.pushes[p].kind == Join ==> NeverCloses(w.mail.pushes[p]))
      && (w.mail.pushes[p].kind == User ==> w.mail.pushes[p].okHooks == [] && w.mail.pushes[p].errorHooks == [])
  {
    var c := w.registry.vals[topic];
    assert BoxOk(w.mail, c) && EntryOk(w.mail, c, ref) && PushOk(w.mail, w.mail.boxes[c].waiting[ref]);
  }
}
