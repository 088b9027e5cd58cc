/** What a join that got no answer leads to: a new join within two wakes. */
module Recovery {
  import opened PyDict
  import opened Refs
  import opened Timers
  import opened Pushes
  import opened PushesProofs
  import opened Protocol
  import opened ProtocolLife

  // ---------- The next join ----------

  /** From w to r a join message of channel c, with a ref not used before, was sent last and waits for its reply. */
  ghost predicate JoinSent(w: World, r: World, c: nat)
    requires WorldOk(w) && WorldOk(r) && c < |w.chans|
  {
    && c < |r.chans| && JoinOf(r, c) == JoinOf(w, c) && r.mail.ref > w.mail.ref && r.mail.ref == |r.mail.requested|
    && r.mail.requested[r.mail.ref - 1] == Message(Topic(w, c), Join, Decimal(r.mail.ref), JoinOf(w, c))
    && WaitsUnder(r.mail, Decimal(r.mail.ref), JoinOf(r, c))
  }

  lemma RejoinedSends(w: World, c: nat)
    requires WorldOk(w) && c < |w.chans|
    ensures var r := Rejoined(w, c); |r.chans| == |w.chans| && r.chans[c].state == Joining && JoinSent(w, r, c)
  {
  }

  lemma LeavingKeepsJoin(w: World, topic: string, c: nat)
    requires WorldOk(w) && c < |w.chans|
    ensures var v := LeaveOpenTopic(w, topic);
      && |v.chans| == |w.chans| && v.mail.ref >= w.mail.ref
      && Topic(v, c) == Topic(w, c) && JoinOf(v, c) == JoinOf(w, c)
  {
  }

  /** `_rejoin` sends a join unless the channel is leaving. */
  lemma RejoinSends(w: World, c: nat)
    requires WorldOk(w) && c < |w.chans| && w.chans[c].state != Leaving
    ensures var r := Rejoin(w, c); r.chans[c].state == Joining && JoinSent(w, r, c)
  {
    LeavingKeepsJoin(w, Topic(w, c), c);
    RejoinedSends(LeaveOpenTopic(w, Topic(w, c)), c);
  }

  // ---------- The first join ----------

  /** Nothing that decides how and when channel c joins has changed. */
  ghost predicate SameWaking(w: World, r: World, c: nat) {
    && WorldOk(w) && WorldOk(r) && c < |w.chans| == |r.chans|
    && r.chans[c].state == w.chans[c].state && r.chans[c].timer == w.chans[c].timer && r.registry == w.registry
    && r.mail.connected == w.mail.connected && r.mail.ref == w.mail.ref && JoinOf(r, c) == JoinOf(w, c)
    && Topic(r, c) == Topic(w, c) && JoinPush(r, c).slot == JoinPush(w, c).slot
  }

  lemma ReceiveOnlyTells(w: World, c: nat, status: Ack, h: Hook)
    requires WorldOk(w) && c < |w.chans| && h in {SubscribeOk, SubscribeError, SubscribeTimeout}
    ensures SameWaking(w, Receive(w, c, status, h), c)
  {
    ReceiveKeepsJoin(w, c, status, h);
  }

  lemma CallbacksOnlyTell(w: World, c: nat)
    requires WorldOk(w) && c < |w.chans|
    ensures SameWaking(w, RegisterCallbacks(w, c), c)
  {
    var w1 := w.(chans := w.chans[c := w.chans[c].(joinedOnce := true)]);
    var w2 := Receive(w1, c, Pushes.Ok, SubscribeOk);
    var w3 := Receive(w2, c, Error, SubscribeError);
    ReceiveOnlyTells(w1, c, Pushes.Ok, SubscribeOk);
    ReceiveOnlyTells(w2, c, Error, SubscribeError);
    ReceiveOnlyTells(w3, c, Timeout, SubscribeTimeout);
  }

  lemma RejoinKeepsPlace(w: World, c: nat)
    requires WorldOk(w) && c < |w.chans|
    ensures var r := Rejoin(w, c); r.mail.connected == w.mail.connected && Topic(r, c) == Topic(w, c)
  {
    LeavingKeepsJoin(w, Topic(w, c), c);
  }

  /** A first `subscribe` while connected sends a join, unless the channel is leaving. */
  lemma SubscribeSendsJoin(w: World, c: nat, succeeds: bool)
    requires WorldOk(w) && c < |w.chans| && w.mail.connected && !w.chans[c].joinedOnce && w.chans[c].state != Leaving
    ensures var r := Subscribe(w, c, succeeds);
      && c < |r.chans| && r.chans[c].state == Joining && JoinSent(w, r, c)
      && r.registry == w.registry && r.mail.connected && Topic(r, c) == Topic(w, c)
  {
    var v := RegisterCallbacks(w, c);
    CallbacksOnlyTell(w, c);
    RejoinSends(v, c);
    RejoinKeepsPlace(v, c);
  }

  // ---------- Wakes ----------

  function TimerWake(w: World, c: nat): Event
    requires c < |w.chans| && w.chans[c].timer.slot.IsPending()
  {
    TimerWakes(c, w.chans[c].timer.slot.current.value)
  }

  /** A rejoin timer that wakes while connected sends the join again. */
  lemma TimerResends(w: World, c: nat)
    requires LifeOk(w) && c < |w.chans| && w.chans[c].timer.slot.IsPending() && w.mail.connected
    ensures var r := Step(w, TimerWake(w, c)); c < |r.chans| && r.chans[c].state == Joining && JoinSent(w, r, c)
  {
    assert ChanOk(w, c);
    var ch, i := w.chans[c], w.chans[c].timer.slot.current.value;
    var u := w.(chans := w.chans[c := ch.(timer := Fire(ch.timer, i))]);
    assert Step(w, TimerWake(w, c)) == RejoinUntilConnected(u, c);
    RejoinSends(u.(chans := u.chans[c := u.chans[c].(timer := Schedule(u.chans[c].timer))]), c);
  }

  /** While disconnected a rejoin timer only reschedules itself, with a longer delay: nothing else changes. */
  lemma TimerRetriesOffline(w: World, c: nat)
    requires LifeOk(w) && c < |w.chans| && w.chans[c].timer.slot.IsPending() && !w.mail.connected
    ensures var r := Step(w, TimerWake(w, c));
      && |r.chans| == |w.chans| && r == w.(chans := w.chans[c := w.chans[c].(timer := r.chans[c].timer)])
      && r.chans[c].timer.slot.IsPending() && r.chans[c].timer.tries == w.chans[c].timer.tries + 1
  {
    var i := w.chans[c].timer.slot.current.value;
    assert ChanOk(w, c);
    FireOk(w.chans[c].timer, i);
    ScheduleOk(Fire(w.chans[c].timer, i));
  }

  function TimeoutWake(w: World, c: nat): Event
    requires WorldOk(w) && c < |w.chans| && JoinPush(w, c).slot.IsPending()
  {
    PushTimesOut(JoinOf(w, c), JoinPush(w, c).slot.current.value)
  }

  lemma TimeoutHooksFail(v: World, c: nat, hooks: seq<Hook>)
    requires WorldOk(v) && c < |v.chans| && v.chans[c].state == Joining
    requires hooks == [JoinTimeout] || hooks == [JoinTimeout, SubscribeTimeout]
    ensures var r := RunHooks(v, c, hooks, []);
      && |r.chans| == |v.chans| && r.chans[c].state == Errored && r.chans[c].timer.slot.IsPending() && r.mail == v.mail
  {
    var u := RunHook(v, c, JoinTimeout, []);
    assert RunHooks(v, c, hooks, []) == RunHooks(u, c, hooks[1..], []);
    if |hooks| == 2 {
      assert hooks[1..][0] == SubscribeTimeout && hooks[1..][1..] == [];
      assert RunHooks(u, c, hooks[1..], []) == RunHooks(RunHook(u, c, SubscribeTimeout, []), c, [], []);
    }
  }

  /** A join timeout puts a joining channel in error, to be rejoined. */
  lemma TimeoutSchedulesRejoin(w: World, c: nat)
    requires LifeOk(w) && c < |w.chans| && w.chans[c].state == Joining && JoinPush(w, c).slot.IsPending()
    ensures var r := Step(w, TimeoutWake(w, c));
      && c < |r.chans| && r.chans[c].state == Errored && r.chans[c].timer.slot.IsPending()
      && r.mail.connected == w.mail.connected && r.mail.ref == w.mail.ref
      && Topic(r, c) == Topic(w, c) && JoinOf(r, c) == JoinOf(w, c)
  {
    var p, i := JoinOf(w, c), JoinPush(w, c).slot.current.value;
    var q := JoinPush(w, c);
    assert ChanOk(w, c);
    ExpireJoinKeeps(w.mail, p, i);
    var v := w.(mail := Expire(w.mail, p, i));
    TimeoutHooksFail(v, c, q.timeoutHooks);
    ForgetJoinKeeps(RunHooks(v, c, q.timeoutHooks, []).mail, p);
  }

  predicate IsWake(e: Event) {
    e.TimerWakes? || e.PushTimesOut?
  }

  /** At most two wakes lead from w to a state in which channel c has just joined again. */
  ghost predicate JoinsAgain(w: World, wakes: seq<Event>, c: nat)
    requires WorldOk(w) && c < |w.chans|
  {
    && |wakes| <= 2 && (forall i :: 0 <= i < |wakes| ==> IsWake(wakes[i]))
    && c < |RunFrom(w, wakes).chans| && RunFrom(w, wakes).chans[c].state == Joining && JoinSent(w, RunFrom(w, wakes), c)
  }

  lemma OneStep(w: World, e: Event)
    requires WorldOk(w)
    ensures RunFrom(w, [e]) == Step(w, e)
  {
    assert [e][..0] == [];
  }

  lemma TwoSteps(w: World, e: Event, f: Event)
    requires WorldOk(w)
    ensures RunFrom(w, [e, f]) == Step(Step(w, e), f)
  {
    assert [e, f][..1] == [e];
    OneStep(w, e);
  }

  lemma SentSinceEarlier(w: World, v: World, r: World, c: nat)
    requires WorldOk(w) && WorldOk(v) && WorldOk(r) && c < |w.chans| && c < |v.chans| && JoinSent(v, r, c)
    requires v.mail.ref == w.mail.ref && Topic(v, c) == Topic(w, c) && JoinOf(v, c) == JoinOf(w, c)
    ensures JoinSent(w, r, c)
  {
  }

  lemma TwoWakesJoin(w: World, c: nat) returns (wakes: seq<Event>)
    requires LifeOk(w) && c < |w.chans| && w.mail.connected
    requires w.chans[c].state == Joining && JoinPush(w, c).slot.IsPending()
    ensures JoinsAgain(w, wakes, c)
  {
    TimeoutSchedulesRejoin(w, c);
    var e := TimeoutWake(w, c);
    var v := Step(w, e);
    StepLife(w, e);
    TimerResends(v, c);
    TwoSteps(w, e, TimerWake(v, c));
    SentSinceEarlier(w, v, Step(v, TimerWake(v, c)), c);
    wakes := [e, TimerWake(v, c)];
  }

  /**
   * From every reachable connected state, a channel that is errored, or registered and joining, joins
   * again after at most two timer wakes, even if the server never answers anything.
   */
  lemma Recovers(events: seq<Event>, c: nat)
    requires c < |Run(events).chans| && Run(events).mail.connected
    requires var w := Run(events);
      w.chans[c].state == Errored || (w.chans[c].state == Joining && Registered(w, c))
    ensures exists wakes :: JoinsAgain(Run(events), wakes, c)
  {
    var w := Run(events);
    RunLife(events);
    assert ChanOk(w, c);
    if w.chans[c].timer.slot.IsPending() {
      TimerResends(w, c);
      OneStep(w, TimerWake(w, c));
      assert JoinsAgain(w, [TimerWake(w, c)], c);
    } else {
      var wakes := TwoWakesJoin(w, c);
    }
  }

  lemma ThenStep(w: World, events: seq<Event>, e: Event)
    requires WorldOk(w)
    ensures RunFrom(w, events + [e]) == Step(RunFrom(w, events), e)
  {
    assert (events + [e])[..|events|] == events;
  }

  lemma LastStep(w: World, events: seq<Event>, before: seq<Event>, e: Event)
    requires WorldOk(w) && events == before + [e]
    ensures RunFrom(w, events) == Step(RunFrom(w, before), e)
  {
    ThenStep(w, before, e);
  }

  lemma ReconnectStep(w: World, e: Event)
    requires WorldOk(w) && e.Reconnects?
    ensures Step(w, e) == Reconnect(w, e.succeeds)
  {
    match e {
      case Reconnects(succeeds) =>
    }
  }

  lemma KeysRegistered(w: World)
    requires WorldOk(w)
    ensures Distinct(w.registry.keys) && forall t :: t in w.registry.keys ==> t in w.registry.vals
  {
  }

  lemma ReconnectRejoinsAll(w: World)
    requires WorldOk(w)
    ensures var v := Connect(CloseSocket(w), true);
      && Distinct(v.registry.keys) && (forall t :: t in v.registry.keys ==> t in v.registry.vals)
      && Reconnect(w, true) == RejoinAll(v, v.registry.keys)
  {
    KeysRegistered(w);
  }

  /** The start of the runs that show what can happen: the client connects first. */
  lemma ConnectedClient()
    ensures var w := Run([Connects(true)]);
      w.mail.connected && w.chans == [] && w.mail.pushes == [] && w.mail.boxes == [] && w.registry == Dict([], map[])
  {
    NewClientOk();
    LastStep(NEW_CLIENT, [Connects(true)], [], Connects(true));
  }
}
