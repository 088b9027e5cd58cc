/** Which accepted joins `subscribe`'s callback is told about. */
module HeardRuns {
  import opened PyDict
  import opened Refs
  import opened Pushes
  import opened PushesProofs
  import opened Protocol
  import opened ProtocolLife
  import opened BindingRuns
  import opened Recovery
  import opened RemovedChannel
  import opened SteadyRuns
  import Bindings

  /** The push has been given the status. */
  predicate Gave(q: Push, status: Ack) {
    q.resp.Some? && q.resp.value.status == status
  }

  function Added(q: Push, status: Ack, h: Hook): seq<Hook> {
    if Gave(q, status) then [] else [h]
  }

  lemma ReceiveAdds(w: World, c: nat, status: Ack, h: Hook)
    requires WorldOk(w) && c < |w.chans| && h in {SubscribeOk, SubscribeError, SubscribeTimeout}
    ensures var r := Receive(w, c, status, h); var q, q' := JoinPush(w, c), JoinPush(r, c);
      && JoinOf(r, c) == JoinOf(w, c) && q'.resp == q.resp && r.chans[c].joinedOnce == w.chans[c].joinedOnce
      && q'.okHooks == q.okHooks + (if status == Pushes.Ok then Added(q, status, h) else [])
      && q'.errorHooks == q.errorHooks + (if status == Error then Added(q, status, h) else [])
      && q'.timeoutHooks == q.timeoutHooks + (if status == Timeout then Added(q, status, h) else [])
  {
    ReceiveKeepsJoin(w, c, status, h);
  }

  /** `subscribe` registers a callback for exactly those statuses that its join has not been given before. */
  lemma CallbacksAdded(w: World, c: nat)
    requires WorldOk(w) && c < |w.chans|
    ensures var r := RegisterCallbacks(w, c); var q, q' := JoinPush(w, c), JoinPush(r, c);
      && JoinOf(r, c) == JoinOf(w, c) && r.chans[c].joinedOnce
      && q'.okHooks == q.okHooks + Added(q, Pushes.Ok, SubscribeOk)
      && q'.errorHooks == q.errorHooks + Added(q, Error, SubscribeError)
      && q'.timeoutHooks == q.timeoutHooks + Added(q, Timeout, SubscribeTimeout)
  {
    var w1 := w.(chans := w.chans[c := w.chans[c].(joinedOnce := true)]);
    var w2 := Receive(w1, c, Pushes.Ok, SubscribeOk);
    var w3 := Receive(w2, c, Error, SubscribeError);
    assert JoinPush(w1, c) == JoinPush(w, c);
    ReceiveAdds(w1, c, Pushes.Ok, SubscribeOk);
    ReceiveAdds(w2, c, Error, SubscribeError);
    ReceiveAdds(w3, c, Timeout, SubscribeTimeout);
  }

  /** A first `subscribe` that does not raise, and the world in which it registers its callbacks. */
  ghost predicate FirstSubscribe(w: World, c: nat, succeeds: bool) {
    LifeOk(w) && c < |w.chans| && (w.mail.connected || succeeds) && !w.chans[c].joinedOnce
  }

  lemma BareJoin(w: World, c: nat, succeeds: bool)
    requires FirstSubscribe(w, c, succeeds)
    ensures var u, q := Connect(w, succeeds), JoinPush(w, c);
      && q.okHooks == [JoinOk] && q.errorHooks == [] && q.timeoutHooks == [JoinTimeout]
      && JoinPush(u, c) == q && JoinOf(u, c) == JoinOf(w, c)
      && Subscribe(w, c, succeeds) == Rejoin(RegisterCallbacks(u, c), c)
  {
    assert ChanOk(w, c);
  }

  /** After a first `subscribe` the join push has the channel's callbacks and those that `subscribe` registered. */
  lemma SubscribedHooks(w: World, c: nat, succeeds: bool)
    requires FirstSubscribe(w, c, succeeds)
    ensures var v, q := Subscribe(w, c, succeeds), JoinPush(w, c);
      && LifeOk(v) && c < |v.chans| && JoinOf(v, c) == JoinOf(w, c) && v.chans[c].joinedOnce
      && JoinPush(v, c).okHooks == [JoinOk] + Added(q, Pushes.Ok, SubscribeOk)
      && JoinPush(v, c).errorHooks == Added(q, Error, SubscribeError)
      && JoinPush(v, c).timeoutHooks == [JoinTimeout] + Added(q, Timeout, SubscribeTimeout)
  {
    var u := Connect(w, succeeds);
    BareJoin(w, c, succeeds);
    CallbacksAdded(u, c);
    RejoinSteady(RegisterCallbacks(u, c), c, c);
    SubscribeLife(w, c, succeeds);
  }

  /** And through any later run the callbacks are still these. */
  lemma SubscribedHooksStay(w: World, c: nat, succeeds: bool, more: seq<Event>)
    requires FirstSubscribe(w, c, succeeds)
    ensures var v, q := RunFrom(Subscribe(w, c, succeeds), more), JoinPush(w, c);
      && LifeOk(v) && c < |v.chans| && JoinOf(v, c) == JoinOf(w, c)
      && JoinPush(v, c).okHooks == [JoinOk] + Added(q, Pushes.Ok, SubscribeOk)
      && JoinPush(v, c).errorHooks == Added(q, Error, SubscribeError)
      && JoinPush(v, c).timeoutHooks == [JoinTimeout] + Added(q, Timeout, SubscribeTimeout)
  {
    SubscribedHooks(w, c, succeeds);
    HooksStay(Subscribe(w, c, succeeds), more, c);
    RunFromLife(Subscribe(w, c, succeeds), more);
  }

  /** Channel c's join waits under the ref. */
  ghost predicate JoinWaits(w: World, c: nat, ref: string) {
    && WorldOk(w) && c < |w.chans| && Registered(w, c)
    && ref in w.mail.boxes[c].waiting && w.mail.boxes[c].waiting[ref] == JoinOf(w, c)
  }

  /** The subscribe callback of channel c was told one thing, SUBSCRIBED or CHANNEL_ERROR. */
  ghost predicate OneMoreReport(v: World, r: World, c: nat) {
    && c < |v.chans| == |r.chans|
    && (r.chans[c].reports == v.chans[c].reports + [Subscribed]
        || r.chans[c].reports == v.chans[c].reports + [ChannelError])
  }

  /** It was told nothing, and the registrations were not matched. */
  ghost predicate NoReport(v: World, r: World, c: nat) {
    c < |v.chans| == |r.chans| && r.chans[c].reports == v.chans[c].reports && r.chans[c].bindings == v.chans[c].bindings
  }

  lemma AnswerReportedIff(v: World, c: nat, ref: string, rows: seq<Bindings.Row>)
    requires LifeOk(v) && JoinWaits(v, c, ref)
    ensures var r := Step(v, JoinAnswer(v, c, ref, rows));
      if SubscribeOk in JoinPush(v, c).okHooks then OneMoreReport(v, r, c) else NoReport(v, r, c)
  {
    if SubscribeOk in JoinPush(v, c).okHooks {
      assert ChanOk(v, c);
      ReplyIsHandled(v, c, ref, true, rows);
      JoinReplyRuns(v, c, ref, rows);
    } else {
      UnheardJoinReply(v, c, ref, rows);
    }
  }

  lemma HeardIff(w: World, c: nat, succeeds: bool, more: seq<Event>, v: World)
    requires FirstSubscribe(w, c, succeeds) && v == RunFrom(Subscribe(w, c, succeeds), more)
    ensures LifeOk(v) && c < |v.chans|
    ensures SubscribeOk in JoinPush(v, c).okHooks <==> !Gave(JoinPush(w, c), Pushes.Ok)
  {
    SubscribedHooksStay(w, c, succeeds, more);
  }

  /**
   * An accepted join, at any time after a first `subscribe`, is reported to its callback exactly when the response
   * recorded on the join push at that call was not an acceptance; else registrations and reports stay as they are.
   */
  lemma JoinReportedIff(w: World, c: nat, succeeds: bool, more: seq<Event>, v: World,
                        ref: string, rows: seq<Bindings.Row>)
    requires FirstSubscribe(w, c, succeeds) && v == RunFrom(Subscribe(w, c, succeeds), more) && JoinWaits(v, c, ref)
    ensures var r := Step(v, JoinAnswer(v, c, ref, rows));
      if Gave(JoinPush(w, c), Pushes.Ok) then NoReport(v, r, c) else OneMoreReport(v, r, c)
  {
    HeardIff(w, c, succeeds, more, v);
    AnswerReportedIff(v, c, ref, rows);
  }

  // ---------- A run in which an accepted join is not reported ----------

  lemma AcceptedBeforeSubscribe(w: World, c: nat, ref: string, rows: seq<Bindings.Row>)
    requires LifeOk(w) && JoinWaits(w, c, ref) && !w.chans[c].joinedOnce
    ensures var r := Step(w, JoinAnswer(w, c, ref, rows));
      && |r.chans| == |w.chans| && r.chans[c].state == Joined && !r.chans[c].joinedOnce && Registered(r, c)
      && r.mail.connected == w.mail.connected && Gave(JoinPush(r, c), Pushes.Ok)
  {
    var resp := Response(Pushes.Ok, rows);
    ReplyIsHandled(w, c, ref, true, rows);
    ReplyKeeps(w.mail, c, ref, resp);
    assert ChanOk(w, c);
    OneHook(w.(mail := Reply(w.mail, c, ref, resp)), c, rows);
  }

  lemma RejoinWaits(w: World, c: nat)
    requires WorldOk(w) && c < |w.chans| && Registered(w, c) && w.chans[c].state != Leaving
    ensures JoinWaits(Rejoin(w, c), c, Decimal(Rejoin(w, c).mail.ref))
  {
    RejoinSends(w, c);
    RejoinKeepsPlace(w, c);
  }

  /** A reconnect sends the join of the channel that was never subscribed. */
  lemma RejoinedWaits(w: World) returns (ref: string)
    requires OneChannel(w, Closed, Dict([ROOM], map[ROOM := 0])) && w.mail.pushes == [NewPush(0, Join)]
    ensures var r := Step(w, Reconnects(true));
      JoinWaits(r, 0, ref) && !r.chans[0].joinedOnce && r.mail.connected && Topic(r, 0) == ROOM
  {
    var v := Connect(CloseSocket(w), true);
    SocketKeepsChannel(w);
    RejoinsUnsubscribed(w);
    ReconnectStep(w, Reconnects(true));
    ReconnectRejoinsAll(w);
    OnlyTopic(v);
    RejoinWaits(v, 0);
    ref := Decimal(Rejoin(v, 0).mail.ref);
  }

  lemma SubscribedWaits(w: World, c: nat) returns (ref: string)
    requires LifeOk(w) && c < |w.chans| && Registered(w, c) && w.chans[c].state == Joined && !w.chans[c].joinedOnce
    requires w.mail.connected
    ensures JoinWaits(Subscribe(w, c, true), c, ref)
  {
    SubscribeSendsJoin(w, c, true);
    ref := Decimal(Subscribe(w, c, true).mail.ref);
  }

  /** With an accepted join before `subscribe` and one after it: the second changes no report. */
  lemma SecondIsUnheard(w: World, c: nat, rows: seq<Bindings.Row>) returns (ref: string)
    requires LifeOk(w) && c < |w.chans| && Registered(w, c) && w.chans[c].state == Joined && !w.chans[c].joinedOnce
    requires w.mail.connected && Gave(JoinPush(w, c), Pushes.Ok)
    ensures var v := Subscribe(w, c, true);
      && JoinWaits(v, c, ref)
      && NoReport(v, Step(v, JoinAnswer(v, c, ref, rows)), c)
  {
    ref := SubscribedWaits(w, c);
    assert RunFrom(Subscribe(w, c, true), []) == Subscribe(w, c, true);
    JoinReportedIff(w, c, true, [], Subscribe(w, c, true), ref, rows);
  }

  lemma RejoinedRunWaits() returns (ref: string)
    ensures var w := Run([Connects(true), Creates("room")] + [Reconnects(true)]);
      JoinWaits(w, 0, ref) && !w.chans[0].joinedOnce && w.mail.connected && Topic(w, 0) == ROOM
  {
    NewClientOk();
    ARunThatCreates();
    ref := RejoinedWaits(Run([Connects(true), Creates("room")]));
    ThenStep(NEW_CLIENT, [Connects(true), Creates("room")], Reconnects(true));
  }

  lemma AcceptedRun(events: seq<Event>, ref: string, rows: seq<Bindings.Row>)
    requires var w := Run(events);
      JoinWaits(w, 0, ref) && !w.chans[0].joinedOnce && w.mail.connected && Topic(w, 0) == ROOM
    ensures var r := Run(events + [Receives(ROOM, ReplyTo(Some(ref), true, rows))]);
      && LifeOk(r) && 0 < |r.chans| && Registered(r, 0) && r.chans[0].state == Joined && !r.chans[0].joinedOnce
      && r.mail.connected && Gave(JoinPush(r, 0), Pushes.Ok)
  {
    NewClientOk();
    RunLife(events);
    AcceptedBeforeSubscribe(Run(events), 0, ref, rows);
    ThenStep(NEW_CLIENT, events, Receives(ROOM, ReplyTo(Some(ref), true, rows)));
    RunLife(events + [Receives(ROOM, ReplyTo(Some(ref), true, rows))]);
  }

  lemma SubscribedRun(events: seq<Event>, rows: seq<Bindings.Row>) returns (ref: string)
    requires var w := Run(events);
      && LifeOk(w) && 0 < |w.chans| && Registered(w, 0) && w.chans[0].state == Joined && !w.chans[0].joinedOnce
      && w.mail.connected && Gave(JoinPush(w, 0), Pushes.Ok)
    ensures var v := Run(events + [Subscribes(0, true)]);
      && JoinWaits(v, 0, ref)
      && NoReport(v, Step(v, JoinAnswer(v, 0, ref, rows)), 0)
  {
    NewClientOk();
    ref := SecondIsUnheard(Run(events), 0, rows);
    ThenStep(NEW_CLIENT, events, Subscribes(0, true));
  }

  /** Connect, create, reconnect, an accepted join, subscribe: the next accepted join is not reported. */
  lemma SomeJoinIsUnheard(rows: seq<Bindings.Row>) returns (first: string, second: string)
    ensures var v := Run([Connects(true), Creates("room")] + [Reconnects(true)]
                         + [Receives(ROOM, ReplyTo(Some(first), true, rows))] + [Subscribes(0, true)]);
      && JoinWaits(v, 0, second)
      && NoReport(v, Step(v, JoinAnswer(v, 0, second, rows)), 0)
  {
    var events := [Connects(true), Creates("room")] + [Reconnects(true)];
    first := RejoinedRunWaits();
    AcceptedRun(events, first, rows);
    second := SubscribedRun(events + [Receives(ROOM, ReplyTo(Some(first), true, rows))], rows);
  }
}
