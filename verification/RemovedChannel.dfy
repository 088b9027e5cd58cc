/** When a rejoin leaves its channel with nothing to wake it: the fate of a channel that is no longer registered. */
module RemovedChannel {
  import opened PyDict
  import opened Timers
  import opened Pushes
  import opened PushesProofs
  import opened Protocol
  import opened ProtocolLife
  import opened Recovery

  // ---------- When a rejoin is watched ----------

  /** Something will wake channel c. */
  ghost predicate WillWake(w: World, c: nat)
    requires WorldOk(w) && c < |w.chans|
  {
    w.chans[c].timer.slot.IsPending() || JoinPush(w, c).slot.IsPending()
  }

  lemma RejoinedWakesIff(v: World, c: nat)
    requires WorldOk(v) && c < |v.chans|
    ensures WillWake(Rejoined(v, c), c)
      <==> v.chans[c].timer.slot.IsPending() || JoinPush(v, c).slot.current.None? || JoinPush(v, c).slot.IsPending()
  {
    RejoinedSelf(v, c);
  }

  /**
   * A rejoin leaves its channel with something to wake it exactly when the channel is made to leave first, its
   * rejoin timer runs, or its join push holds no task or a pending one: a task that has ended is not replaced.
   */
  lemma RejoinWakesIff(w: World, c: nat)
    requires LifeOk(w) && c < |w.chans| && w.chans[c].state != Leaving
    ensures WillWake(Rejoin(w, c), c)
      <==> || (Registered(w, c) && w.chans[c].state in {Joined, Joining})
           || w.chans[c].timer.slot.IsPending() || JoinPush(w, c).slot.current.None? || JoinPush(w, c).slot.IsPending()
  {
    var t := Topic(w, c);
    assert ChanOk(w, c);
    LeavingKeepsJoin(w, t, c);
    RejoinedWakesIff(LeaveOpenTopic(w, t), c);
    if t in w.registry.vals && w.chans[w.registry.vals[t]].state in {Joined, Joining} {
      var h := w.registry.vals[t];
      if h == c {
        UnsubSelf(w, c);
      } else {
        UnsubFrame(w, h, c);
      }
    }
  }

  /** So the user can tell before a first `subscribe` whether something will wake its join: always, if registered. */
  lemma SubscribeWakesIff(w: World, c: nat, succeeds: bool)
    requires LifeOk(w) && c < |w.chans| && w.mail.connected && !w.chans[c].joinedOnce && w.chans[c].state != Leaving
    ensures WillWake(Subscribe(w, c, succeeds), c)
      <==> || (Registered(w, c) && w.chans[c].state in {Joined, Joining})
           || w.chans[c].timer.slot.IsPending() || JoinPush(w, c).slot.current.None? || JoinPush(w, c).slot.IsPending()
    ensures Registered(w, c) ==> WillWake(Subscribe(w, c, succeeds), c)
  {
    var v := RegisterCallbacks(w, c);
    CallbacksOnlyTell(w, c);
    CallbacksLife(w, c);
    RejoinWakesIff(v, c);
    assert ChanOk(w, c);
  }

  // ---------- A run in which nothing will ----------

  const ROOM := "realtime:room"

  /** The client's only channel has never been subscribed; its state and the registry are given. */
  ghost predicate OneChannel(w: World, state: ChannelState, registry: Dict<nat>) {
    && WorldOk(w) && |w.chans| == 1
    && w.chans[0].state == state && w.chans[0].timer == NEW_TIMER && !w.chans[0].joinedOnce
    && w.mail.boxes[0].topic == ROOM && JoinOf(w, 0) == 0 && w.registry == registry
    && JoinPush(w, 0).timeoutHooks == [JoinTimeout]
  }

  lemma RoomCreated(v: World)
    requires WorldOk(v) && v.chans == [] && v.mail.pushes == [] && v.mail.boxes == [] && v.registry == Dict([], map[])
    ensures var w := Step(v, Creates("room"));
      && OneChannel(w, Closed, Dict([ROOM], map[ROOM := 0]))
      && w.mail.pushes == [NewPush(0, Join)] && w.mail.connected == v.mail.connected
  {
    assert "realtime:" + "room" == ROOM;
    assert Step(v, Creates("room")).registry == Put(Dict([], map[]), ROOM, 0);
  }

  lemma SocketKeepsChannel(w: World)
    requires OneChannel(w, Closed, Dict([ROOM], map[ROOM := 0]))
    ensures var v := Connect(CloseSocket(w), true);
      v.mail.connected && OneChannel(v, Closed, w.registry) && v.mail.pushes == w.mail.pushes
  {
  }

  lemma JoinedFromClosed(v: World)
    requires OneChannel(v, Closed, Dict([ROOM], map[ROOM := 0])) && v.mail.pushes == [NewPush(0, Join)]
    ensures var r := Rejoin(v, 0);
      && OneChannel(r, Joining, v.registry) && r.mail.connected == v.mail.connected
      && JoinPush(r, 0).slot == Slot(Some(0), [Pending])
  {
    assert Rejoin(v, 0) == Rejoined(v, 0);
    assert EMPTY.Create() == Slot(Some(0), [Pending]);
  }

  lemma OnlyTopic(v: World)
    requires WorldOk(v) && v.registry == Dict([ROOM], map[ROOM := 0])
    ensures RejoinAll(v, [ROOM]) == Rejoin(v, 0)
  {
    assert [ROOM][1..] == [];
    assert RejoinAll(v, [ROOM]) == RejoinAll(Rejoin(v, 0), []);
  }

  /** `_reconnect` also rejoins a channel that was never joined. */
  lemma RejoinsUnsubscribed(w: World)
    requires OneChannel(w, Closed, Dict([ROOM], map[ROOM := 0])) && w.mail.pushes == [NewPush(0, Join)]
    ensures var r := Step(w, Reconnects(true));
      && OneChannel(r, Joining, w.registry) && r.mail.connected && JoinPush(r, 0).slot == Slot(Some(0), [Pending])
  {
    var v := Connect(CloseSocket(w), true);
    SocketKeepsChannel(w);
    ReconnectStep(w, Reconnects(true));
    ReconnectRejoinsAll(w);
    OnlyTopic(v);
    JoinedFromClosed(v);
  }

  lemma ClosedByServer(w: World)
    requires OneChannel(w, Joining, Dict([ROOM], map[ROOM := 0]))
    ensures var r := Step(w, Receives(ROOM, PhxClose));
      && OneChannel(r, Closed, Remove(w.registry, ROOM)) && r.mail == w.mail
  {
  }

  lemma JoinTimesOutClosed(w: World)
    requires OneChannel(w, Closed, w.registry) && JoinPush(w, 0).slot == Slot(Some(0), [Pending])
    ensures var r := Step(w, PushTimesOut(0, 0));
      && OneChannel(r, Closed, w.registry) && r.mail.connected == w.mail.connected
      && JoinPush(r, 0).slot == Slot(Some(0), [Finished])
  {
    ExpireJoinKeeps(w.mail, 0, 0);
    var v := w.(mail := Expire(w.mail, 0, 0));
    assert [Pending][0 := Finished] == [Finished];
    assert [JoinTimeout][1..] == [];
    assert RunHook(v, 0, JoinTimeout, []) == v;
    assert RunHooks(v, 0, [JoinTimeout], []) == RunHooks(v, 0, [], []);
  }

  /** A join that is sent again after its timeout task ended gets no new one. */
  lemma NotRestarted(w: World)
    requires WorldOk(w) && |w.chans| == 1 && w.chans[0].state == Closed && w.chans[0].timer == NEW_TIMER
    requires w.registry.vals == map[] && JoinPush(w, 0).slot == Slot(Some(0), [Finished])
    ensures var r := Rejoin(w, 0);
      r.chans[0].state == Joining && !Registered(r, 0) && !WillWake(r, 0)
  {
    assert Rejoin(w, 0) == Rejoined(w, 0);
  }

  lemma SubscribesRemoved(w: World)
    requires OneChannel(w, Closed, w.registry) && w.registry.vals == map[] && w.mail.connected
    requires JoinPush(w, 0).slot == Slot(Some(0), [Finished])
    ensures var r := Step(w, Subscribes(0, true));
      |r.chans| == 1 && r.chans[0].state == Joining && !Registered(r, 0) && !WillWake(r, 0)
  {
    CallbacksOnlyTell(w, 0);
    NotRestarted(RegisterCallbacks(w, 0));
  }

  lemma ARunThatCreates()
    ensures var w := Run([Connects(true), Creates("room")]);
      && OneChannel(w, Closed, Dict([ROOM], map[ROOM := 0]))
      && w.mail.pushes == [NewPush(0, Join)] && w.mail.connected
  {
    NewClientOk();
    ConnectedClient();
    RoomCreated(Run([Connects(true)]));
    LastStep(NEW_CLIENT, [Connects(true), Creates("room")], [Connects(true)], Creates("room"));
  }

  lemma RejoinedRun(events: seq<Event>)
    requires OneChannel(Run(events), Closed, Dict([ROOM], map[ROOM := 0]))
    requires Run(events).mail.pushes == [NewPush(0, Join)]
    ensures var r := Run(events + [Reconnects(true)]);
      && OneChannel(r, Joining, Dict([ROOM], map[ROOM := 0])) && r.mail.connected
      && JoinPush(r, 0).slot == Slot(Some(0), [Pending])
  {
    NewClientOk();
    RejoinsUnsubscribed(Run(events));
    ThenStep(NEW_CLIENT, events, Reconnects(true));
  }

  lemma ClosedRun(events: seq<Event>)
    requires OneChannel(Run(events), Joining, Dict([ROOM], map[ROOM := 0]))
    ensures var r := Run(events + [Receives(ROOM, PhxClose)]);
      OneChannel(r, Closed, r.registry) && r.registry.vals == map[] && r.mail == Run(events).mail
  {
    NewClientOk();
    ClosedByServer(Run(events));
    ThenStep(NEW_CLIENT, events, Receives(ROOM, PhxClose));
  }

  lemma TimedOutRun(events: seq<Event>)
    requires OneChannel(Run(events), Closed, Run(events).registry)
    requires JoinPush(Run(events), 0).slot == Slot(Some(0), [Pending])
    ensures var r := Run(events + [PushTimesOut(0, 0)]);
      && OneChannel(r, Closed, Run(events).registry) && r.mail.connected == Run(events).mail.connected
      && JoinPush(r, 0).slot == Slot(Some(0), [Finished])
  {
    NewClientOk();
    JoinTimesOutClosed(Run(events));
    ThenStep(NEW_CLIENT, events, PushTimesOut(0, 0));
  }

  lemma HangingRun(events: seq<Event>)
    requires OneChannel(Run(events), Closed, Run(events).registry) && Run(events).registry.vals == map[]
    requires Run(events).mail.connected && JoinPush(Run(events), 0).slot == Slot(Some(0), [Finished])
    ensures var r := Run(events + [Subscribes(0, true)]);
      |r.chans| == 1 && r.chans[0].state == Joining && !Registered(r, 0) && !WillWake(r, 0)
  {
    NewClientOk();
    SubscribesRemoved(Run(events));
    ThenStep(NEW_CLIENT, events, Subscribes(0, true));
  }

  /**
   * Being registered matters: a channel that the server closed before its first subscription is left joining
   * with nothing to wake it.
   */
  lemma RemovedChannelCanHang()
    ensures var r := Run([Connects(true), Creates("room")] + [Reconnects(true)] + [Receives(ROOM, PhxClose)]
                         + [PushTimesOut(0, 0)] + [Subscribes(0, true)]);
      |r.chans| == 1 && r.chans[0].state == Joining && !Registered(r, 0) && !WillWake(r, 0)
  {
    var events := [Connects(true), Creates("room")];
    ARunThatCreates();
    RejoinedRun(events);
    ClosedRun(events + [Reconnects(true)]);
    TimedOutRun(events + [Reconnects(true)] + [Receives(ROOM, PhxClose)]);
    HangingRun(events + [Reconnects(true)] + [Receives(ROOM, PhxClose)] + [PushTimesOut(0, 0)]);
  }
}
