/** The life of a channel's Postgres bindings, from the join reply to the dispatch of changes. */
module BindingRuns {
  import opened PyDict
  import opened Timers
  import opened Pushes
  import opened PushesProofs
  import opened Protocol
  import opened ProtocolLife
  import Bindings

  /** Channel c's registrations are kept, in order and with their ids; new ones may follow. */
  ghost predicate Keeps(w: World, r: World, c: nat) {
    c < |w.chans| <= |r.chans| && w.chans[c].bindings <= r.chans[c].bindings
  }

  lemma UnsubKeeps(w: World, d: nat, c: nat)
    requires WorldOk(w) && d < |w.chans| && c < |w.chans|
    ensures Keeps(w, Unsub(w, d), c)
  {
  }

  lemma RejoinKeeps(w: World, d: nat, c: nat)
    requires WorldOk(w) && d < |w.chans| && c < |w.chans|
    ensures Keeps(w, Rejoin(w, d), c)
  {
    var t := Topic(w, d);
    if t in w.registry.vals {
      UnsubKeeps(w, w.registry.vals[t], c);
    }
  }

  lemma {:induction false} RejoinAllKeeps(w: World, topics: seq<string>, c: nat)
    requires WorldOk(w) && c < |w.chans| && forall t :: t in topics ==> t in w.registry.vals
    ensures Keeps(w, RejoinAll(w, topics), c)
    decreases |topics|
  {
    if topics != [] {
      RejoinKeeps(w, w.registry.vals[topics[0]], c);
      RejoinAllKeeps(Rejoin(w, w.registry.vals[topics[0]]), topics[1..], c);
    }
  }

  lemma {:induction false} RunHooksKeep(w: World, d: nat, hooks: seq<Hook>, rows: seq<Bindings.Row>, c: nat)
    requires WorldOk(w) && c < |w.chans| && d < |w.chans| && (d != c || SubscribeOk !in hooks)
    ensures Keeps(w, RunHooks(w, d, hooks, rows), c)
    decreases |hooks|
  {
    if hooks != [] {
      assert hooks[0] in hooks;
      assert Keeps(w, RunHook(w, d, hooks[0], rows), c);
      RunHooksKeep(RunHook(w, d, hooks[0], rows), d, hooks[1..], rows, c);
    }
  }

  /**
   * The event can report a successful join to channel c: a reply to its join, or its one `subscribe` that does not
   * raise.
   */
  predicate Joins(w: World, e: Event, c: nat)
    requires c < |w.chans| && |w.chans| == |w.mail.boxes|
  {
    || (e.Subscribes? && e.channel == c && !w.chans[c].joinedOnce && (w.mail.connected || e.succeeds))
    || AcceptsJoin(w, e, c)
  }

  /** The event is a successful reply to a waiting join of channel c. */
  predicate AcceptsJoin(w: World, e: Event, c: nat)
    requires c < |w.mail.boxes|
  {
    && e.Receives? && e.msg.ReplyTo? && e.msg.ok && e.msg.ref.Some?
    && e.topic in w.registry.vals && w.registry.vals[e.topic] == c
    && e.msg.ref.value in w.mail.boxes[c].waiting
    && w.mail.boxes[c].waiting[e.msg.ref.value] == w.mail.boxes[c].join
  }

  lemma AnswersKeep(w: World, d: nat, ref: string, ok: bool, c: nat)
    requires LifeOk(w) && c < |w.chans| && d < |w.chans| && ref in w.mail.boxes[d].waiting
    requires d == c && ok ==> w.mail.boxes[c].waiting[ref] != w.mail.boxes[c].join
    ensures w.mail.boxes[d].waiting[ref] < |w.mail.pushes|
    ensures var q := w.mail.pushes[w.mail.boxes[d].waiting[ref]];
      d != c || SubscribeOk !in (if ok then q.okHooks else q.errorHooks)
  {
    var p := w.mail.boxes[d].waiting[ref];
    assert BoxOk(w.mail, d) && EntryOk(w.mail, d, ref) && PushOk(w.mail, p) && ChanOk(w, d);
  }

  lemma DeliverKeeps(w: World, topic: string, msg: ServerMessage, c: nat)
    requires LifeOk(w) && c < |w.chans| && !Joins(w, Receives(topic, msg), c)
    ensures Keeps(w, Deliver(w, topic, msg), c)
  {
    if topic in w.registry.vals {
      var d := w.registry.vals[topic];
      if msg.ReplyTo? && msg.ref.Some? && msg.ref.value != "" && msg.ref.value in w.mail.boxes[d].waiting {
        var resp := if msg.ok then Response(Pushes.Ok, msg.rows) else Response(Error, []);
        ReplyKeeps(w.mail, d, msg.ref.value, resp);
        AnswersKeep(w, d, msg.ref.value, msg.ok, c);
        var q := w.mail.pushes[w.mail.boxes[d].waiting[msg.ref.value]];
        var hooks := if msg.ok then q.okHooks else q.errorHooks;
        RunHooksKeep(w.(mail := Reply(w.mail, d, msg.ref.value, resp)), d, hooks, resp.rows, c);
      }
    }
  }

  lemma ReceiveKeeps(w: World, d: nat, status: Ack, h: Hook, c: nat)
    requires WorldOk(w) && c < |w.chans| && d < |w.chans| && d != c && h != Close
    ensures Keeps(w, Receive(w, d, status, h), c)
  {
  }

  lemma CallbacksKeeps(w: World, d: nat, c: nat)
    requires WorldOk(w) && c < |w.chans| && d < |w.chans| && d != c
    ensures Keeps(w, RegisterCallbacks(w, d), c)
  {
    var w1 := w.(chans := w.chans[d := w.chans[d].(joinedOnce := true)]);
    ReceiveKeeps(w1, d, Pushes.Ok, SubscribeOk, c);
    var w2 := Receive(w1, d, Pushes.Ok, SubscribeOk);
    ReceiveKeeps(w2, d, Error, SubscribeError, c);
    ReceiveKeeps(Receive(w2, d, Error, SubscribeError), d, Timeout, SubscribeTimeout, c);
  }

  lemma OtherSubscribeKeeps(w: World, d: nat, succeeds: bool, c: nat)
    requires WorldOk(w) && c < |w.chans| && d < |w.chans| && d != c
    ensures Keeps(w, Subscribe(w, d, succeeds), c)
  {
    var v := Connect(w, succeeds);
    if v.mail.connected && !v.chans[d].joinedOnce {
      CallbacksKeeps(v, d, c);
      RejoinKeeps(RegisterCallbacks(v, d), d, c);
    }
  }

  lemma SubscribeKeeps(w: World, d: nat, succeeds: bool, c: nat)
    requires WorldOk(w) && c < |w.chans| && d < |w.chans|
    requires d != c || w.chans[c].joinedOnce || !(w.mail.connected || succeeds)
    ensures Keeps(w, Subscribe(w, d, succeeds), c)
  {
    if d != c {
      OtherSubscribeKeeps(w, d, succeeds, c);
    }
  }

  lemma TimeoutKeepsBindings(w: World, p: nat, i: nat, c: nat)
    requires LifeOk(w) && c < |w.chans| && TimeoutPending(w, p, i)
    ensures Keeps(w, TimeoutFires(w, p, i), c)
  {
    var q := w.mail.pushes[p];
    assert PushOk(w.mail, p);
    if q.kind == Join {
      assert ChanOk(w, q.channel);
      RunHooksKeep(JoinExpired(w, p, i), q.channel, q.timeoutHooks, [], c);
    }
  }

  lemma TimerKeeps(w: World, d: nat, i: nat, c: nat)
    requires WorldOk(w) && c < |w.chans|
    ensures Keeps(w, Step(w, TimerWakes(d, i)), c)
  {
    if TimerPending(w, d, i) {
      var ch := w.chans[d];
      var v := w.(chans := w.chans[d := ch.(timer := Fire(ch.timer, i))]);
      RejoinKeeps(v.(chans := v.chans[d := v.chans[d].(timer := Schedule(v.chans[d].timer))]), d, c);
    }
  }

  lemma RunReadyKeeps(w: World, c: nat)
    requires WorldOk(w) && c < |w.chans| && w.mail.ready != []
    ensures Keeps(w, RunReady(w), c)
  {
    assert TaskOk(w.mail, w.mail.ready[0]);
    if w.mail.ready[0].Unsubscribe? {
      PopTaskKeeps(w.mail);
      UnsubKeeps(w.(mail := PopTask(w.mail)), w.mail.ready[0].channel, c);
    }
  }

  lemma UserStepKeeps(w: World, e: Event, c: nat)
    requires LifeOk(w) && c < |w.chans| && ByUser(e) && !Joins(w, e, c)
    ensures Keeps(w, Step(w, e), c)
  {
    match e {
      case Creates(name) =>
      case Subscribes(d, succeeds) => if d < |w.chans| { SubscribeKeeps(w, d, succeeds, c); }
      case Unsubscribes(d) => if d < |w.chans| { UnsubKeeps(w, d, c); }
      case Removes(d) =>
        if d < |w.chans| && Topic(w, d) in w.registry.vals { UnsubKeeps(w, w.registry.vals[Topic(w, d)], c); }
      case UserPushes(d) =>
      case Registers(d, b) =>
    }
  }

  lemma StepKeeps(w: World, e: Event, c: nat)
    requires LifeOk(w) && c < |w.chans| && !Joins(w, e, c)
    ensures Keeps(w, Step(w, e), c)
  {
    match e {
      case Receives(topic, msg) => DeliverKeeps(w, topic, msg, c);
      case PushTimesOut(p, i) => if TimeoutPending(w, p, i) { TimeoutKeepsBindings(w, p, i, c); }
      case TimerWakes(d, i) => TimerKeeps(w, d, i, c);
      case TaskStarts => if w.mail.ready != [] { RunReadyKeeps(w, c); }
      case Connects(succeeds) =>
      case Closes =>
      case Reconnects(succeeds) => RejoinAllKeeps(Connect(CloseSocket(w), succeeds), w.registry.keys, c);
      case _ => UserStepKeeps(w, e, c);
    }
  }

  /** No event of the run reports a join to channel c. */
  ghost predicate NoJoin(w: World, events: seq<Event>, c: nat)
    requires WorldOk(w) && c < |w.chans|
    decreases |events|
  {
    events == []
    || (var v := RunFrom(w, events[..|events| - 1]);
        && NoJoin(w, events[..|events| - 1], c)
        && c < |v.chans| && !Joins(v, events[|events| - 1], c))
  }

  lemma {:induction false} RunKeeps(w: World, events: seq<Event>, c: nat)
    requires LifeOk(w) && c < |w.chans| && NoJoin(w, events, c)
    ensures Keeps(w, RunFrom(w, events), c)
    decreases |events|
  {
    if events != [] {
      RunKeeps(w, events[..|events| - 1], c);
      RunFromLife(w, events[..|events| - 1]);
      StepKeeps(RunFrom(w, events[..|events| - 1]), events[|events| - 1], c);
    }
  }

  /** A registration without id, or with id zero, is never called until a join of the channel is answered. */
  lemma UnboundNeverFires(w: World, more: seq<Event>, c: nat, i: nat, kind: string, ids: seq<int>)
    requires LifeOk(w) && c < |w.chans| && NoJoin(w, more, c) && i < |w.chans[c].bindings|
    requires w.chans[c].bindings[i].id.None? || w.chans[c].bindings[i].id == Some(0)
    ensures var v := RunFrom(w, more);
      c < |v.chans| && i < |v.chans[c].bindings|
      && Bindings.Call(i, kind, ids) !in Bindings.Dispatch(v.chans[c].bindings, kind, ids, |v.chans[c].bindings|)
  {
    RunKeeps(w, more, c);
    var bs := RunFrom(w, more).chans[c].bindings;
    Bindings.DispatchIff(bs, kind, ids, |bs|);
    assert !Bindings.Fires(bs[i], kind, ids);
  }

  /** The message that answers ref with a successful join reply. */
  function JoinAnswer(w: World, c: nat, ref: string, rows: seq<Bindings.Row>): Event
    requires WorldOk(w) && c < |w.chans|
  {
    Receives(Topic(w, c), ReplyTo(Some(ref), true, rows))
  }

  lemma TwoHooks(w: World, c: nat, rows: seq<Bindings.Row>)
    requires WorldOk(w) && c < |w.chans|
    ensures RunHooks(w, c, [JoinOk, SubscribeOk], rows) == RunHook(RunHook(w, c, JoinOk, rows), c, SubscribeOk, rows)
  {
    var v := RunHook(w, c, JoinOk, rows);
    assert [JoinOk, SubscribeOk][1..] == [SubscribeOk];
    assert [SubscribeOk][1..] == [];
    assert RunHooks(v, c, [SubscribeOk], rows) == RunHooks(RunHook(v, c, SubscribeOk, rows), c, [], rows);
  }

  lemma SubscribeOkEffect(w: World, c: nat, rows: seq<Bindings.Row>)
    requires WorldOk(w) && c < |w.chans|
    ensures var r, o := RunHook(w, c, SubscribeOk, rows), Bindings.Match(w.chans[c].bindings, rows);
      && |r.chans| == |w.chans| && r.chans[c].state == w.chans[c].state && r.chans[c].bindings == o.bindings
      && r.chans[c].reports == w.chans[c].reports + [if o.matched then Subscribed else ChannelError]
      && r.mail.ready == (if o.matched then w.mail.ready else w.mail.ready + [Unsubscribe(c)])
  {
  }

  /** A join reply runs the channel's callback and then that of `subscribe`. */
  lemma JoinReplyRuns(w: World, c: nat, ref: string, rows: seq<Bindings.Row>)
    requires WorldOk(w) && c < |w.chans|
    requires ref in w.mail.boxes[c].waiting && w.mail.boxes[c].waiting[ref] == JoinOf(w, c)
    requires JoinPush(w, c).okHooks == [JoinOk, SubscribeOk]
    ensures var r, o := HandleReply(w, c, ref, true, rows), Bindings.Match(w.chans[c].bindings, rows);
      && |r.chans| == |w.chans| && r.chans[c].state == Joined && r.chans[c].bindings == o.bindings
      && r.chans[c].reports == w.chans[c].reports + [if o.matched then Subscribed else ChannelError]
      && (!o.matched ==> r.mail.ready != [] && r.mail.ready[|r.mail.ready| - 1] == Unsubscribe(c))
  {
    var resp := Response(Pushes.Ok, rows);
    ReplyKeeps(w.mail, c, ref, resp);
    var w1 := w.(mail := Reply(w.mail, c, ref, resp));
    TwoHooks(w1, c, rows);
    SubscribeOkEffect(RunHook(w1, c, JoinOk, rows), c, rows);
  }

  /** A subscribed channel's join is answered: what its callback is told, its list, and whether it will leave again. */
  lemma JoinReply(w: World, c: nat, ref: string, rows: seq<Bindings.Row>)
    requires LifeOk(w) && c < |w.chans| && rows != []
    requires ref in w.mail.boxes[c].waiting && w.mail.boxes[c].waiting[ref] == JoinOf(w, c)
    requires JoinPush(w, c).okHooks == [JoinOk, SubscribeOk]
    ensures var r := HandleReply(w, c, ref, true, rows);
      && |r.chans| == |w.chans| && r.chans[c].state == Joined
      && Bindings.SameList(w.chans[c].bindings, r.chans[c].bindings)
      && Answer(w.chans[c], r.chans[c], r.mail.ready, c, rows)
  {
    JoinReplyRuns(w, c, ref, rows);
    Bindings.MatchIff(w.chans[c].bindings, rows);
  }

  /** A join reply without bindings empties the list and still reports success. */
  lemma EmptyJoinReply(w: World, c: nat, ref: string)
    requires LifeOk(w) && c < |w.chans| && Registered(w, c)
    requires ref in w.mail.boxes[c].waiting && w.mail.boxes[c].waiting[ref] == JoinOf(w, c)
    requires JoinPush(w, c).okHooks == [JoinOk, SubscribeOk]
    ensures var r := Step(w, JoinAnswer(w, c, ref, []));
      && |r.chans| == |w.chans| && r.chans[c].state == Joined && r.chans[c].bindings == []
      && r.chans[c].reports == w.chans[c].reports + [Subscribed]
  {
    ReplyIsHandled(w, c, ref, true, []);
    JoinReplyRuns(w, c, ref, []);
  }

  /** So does a recorded reply without bindings when `subscribe` registers its callback. */
  lemma EmptyEarlyReply(w: World, c: nat)
    requires LifeOk(w) && c < |w.chans| && JoinPush(w, c).resp == Some(Response(Pushes.Ok, []))
    ensures var r := Receive(w, c, Pushes.Ok, SubscribeOk);
      && |r.chans| == |w.chans| && r.chans[c].bindings == []
      && r.chans[c].reports == w.chans[c].reports + [Subscribed] && r.mail == w.mail
  {
  }

  lemma OneHook(w: World, c: nat, rows: seq<Bindings.Row>)
    requires WorldOk(w) && c < |w.chans|
    ensures RunHooks(w, c, [JoinOk], rows) == RunHook(w, c, JoinOk, rows)
  {
    assert [JoinOk][1..] == [];
    assert RunHooks(w, c, [JoinOk], rows) == RunHooks(RunHook(w, c, JoinOk, rows), c, [], rows);
  }

  /** A `subscribe` that found its join answered has registered no callback: later replies match and report nothing. */
  lemma UnheardJoinReply(w: World, c: nat, ref: string, rows: seq<Bindings.Row>)
    requires LifeOk(w) && c < |w.chans| && Registered(w, c)
    requires ref in w.mail.boxes[c].waiting && w.mail.boxes[c].waiting[ref] == JoinOf(w, c)
    requires SubscribeOk !in JoinPush(w, c).okHooks
    ensures var r := Step(w, JoinAnswer(w, c, ref, rows));
      && |r.chans| == |w.chans| && r.chans[c].state == Joined
      && r.chans[c].bindings == w.chans[c].bindings && r.chans[c].reports == w.chans[c].reports
  {
    var resp := Response(Pushes.Ok, rows);
    ReplyIsHandled(w, c, ref, true, rows);
    ReplyKeeps(w.mail, c, ref, resp);
    var w1 := w.(mail := Reply(w.mail, c, ref, resp));
    assert ChanOk(w, c);
    OneHook(w1, c, rows);
  }

  /** A join that was answered before `subscribe` registers its callback is answered in the same way at once. */
  lemma EarlyJoinReply(w: World, c: nat, rows: seq<Bindings.Row>)
    requires LifeOk(w) && c < |w.chans| && rows != [] && JoinPush(w, c).resp == Some(Response(Pushes.Ok, rows))
    ensures var r := Receive(w, c, Pushes.Ok, SubscribeOk);
      && |r.chans| == |w.chans| && r.chans[c].state == w.chans[c].state && r.mail.pushes == w.mail.pushes
      && Bindings.SameList(w.chans[c].bindings, r.chans[c].bindings)
      && Answer(w.chans[c], r.chans[c], r.mail.ready, c, rows)
  {
    SubscribeOkEffect(w, c, rows);
    Bindings.MatchIff(w.chans[c].bindings, rows);
  }

  /** Subscribed, with the server's ids in place, when all registrations agree; else an error and a scheduled leave. */
  ghost predicate Answer(was: Chan, now: Chan, ready: seq<Task>, c: nat, rows: seq<Bindings.Row>) {
    if Bindings.AllAgree(was.bindings, rows) then
      && now.reports == was.reports + [Subscribed] && |now.bindings| == |was.bindings|
      && forall i :: 0 <= i < |was.bindings| ==>
           Bindings.AgreesAt(was.bindings, rows, i) && now.bindings[i].id == Some(rows[i].id)
    else
      && now.reports == was.reports + [ChannelError]
      && ready != [] && ready[|ready| - 1] == Unsubscribe(c)
  }

  /** The first registrations are bs, and each has the id that the server's list gives at its position. */
  ghost predicate Bound(list: seq<Bindings.Binding>, bs: seq<Bindings.Binding>, rows: seq<Bindings.Row>) {
    && |bs| <= |list| && |bs| <= |rows|
    && forall i :: 0 <= i < |bs| ==> list[i].id == Some(rows[i].id) && list[i].event == bs[i].event
  }

  lemma AnswerBinds(was: Chan, now: Chan, ready: seq<Task>, c: nat, rows: seq<Bindings.Row>)
    requires Bindings.SameList(was.bindings, now.bindings) && Answer(was, now, ready, c, rows)
    requires Bindings.AllAgree(was.bindings, rows)
    ensures Bound(now.bindings, was.bindings, rows)
  {
    var bs := was.bindings;
    if bs != [] {
      assert Bindings.AgreesAt(bs, rows, |bs| - 1);
    }
    forall i | 0 <= i < |bs| ensures now.bindings[i].event == bs[i].event {
      assert bs[i].(id := None) == now.bindings[i].(id := None);
    }
  }

  /** Callback i is called exactly when its id is non-zero and listed and its event matches. */
  ghost predicate FiresExactly(calls: seq<Bindings.Call>, bs: seq<Bindings.Binding>, rows: seq<Bindings.Row>,
                               kind: string, ids: seq<int>) {
    forall i :: 0 <= i < |bs| && i < |rows| ==>
      (Bindings.Call(i, kind, ids) in calls
       <==> rows[i].id != 0 && rows[i].id in ids && (bs[i].event == kind || bs[i].event == "*"))
  }

  lemma BoundFires(list: seq<Bindings.Binding>, bs: seq<Bindings.Binding>, rows: seq<Bindings.Row>,
                   kind: string, ids: seq<int>)
    requires Bound(list, bs, rows)
    ensures FiresExactly(Bindings.Dispatch(list, kind, ids, |list|), bs, rows, kind, ids)
  {
    Bindings.DispatchIff(list, kind, ids, |list|);
  }

  /** A change received for channel c makes exactly the calls that bs and rows ask for. */
  ghost predicate ChangeFires(w: World, c: nat, bs: seq<Bindings.Binding>, rows: seq<Bindings.Row>,
                              kind: string, ids: seq<int>)
    requires WorldOk(w) && c < |w.chans|
  {
    var r := Deliver(w, Topic(w, c), Change(kind, ids));
    && c < |r.chans| && w.chans[c].fired <= r.chans[c].fired
    && FiresExactly(r.chans[c].fired[|w.chans[c].fired|..], bs, rows, kind, ids)
  }

  lemma BoundChangeFires(w: World, c: nat, bs: seq<Bindings.Binding>, rows: seq<Bindings.Row>,
                         kind: string, ids: seq<int>)
    requires WorldOk(w) && c < |w.chans| && Registered(w, c) && Bound(w.chans[c].bindings, bs, rows)
    ensures ChangeFires(w, c, bs, rows, kind, ids)
  {
    var list, fired := w.chans[c].bindings, w.chans[c].fired;
    BoundFires(list, bs, rows, kind, ids);
    var calls := Bindings.Dispatch(list, kind, ids, |list|);
    assert (fired + calls)[|fired|..] == calls;
  }

  lemma StaysBound(list: seq<Bindings.Binding>, longer: seq<Bindings.Binding>,
                   bs: seq<Bindings.Binding>, rows: seq<Bindings.Row>)
    requires Bound(list, bs, rows) && list <= longer
    ensures Bound(longer, bs, rows)
  {
  }

  /**
   * From a matching join reply until the next answered join, every change fires exactly the bindings the server
   * listed.
   */
  lemma BindingsEndToEnd(w: World, more: seq<Event>, c: nat, bs: seq<Bindings.Binding>, rows: seq<Bindings.Row>,
                         kind: string, ids: seq<int>)
    requires LifeOk(w) && c < |w.chans| && NoJoin(w, more, c) && Bound(w.chans[c].bindings, bs, rows)
    ensures c < |RunFrom(w, more).chans|
    ensures Registered(RunFrom(w, more), c) ==> ChangeFires(RunFrom(w, more), c, bs, rows, kind, ids)
  {
    RunKeeps(w, more, c);
    StaysBound(w.chans[c].bindings, RunFrom(w, more).chans[c].bindings, bs, rows);
    if Registered(RunFrom(w, more), c) {
      BoundChangeFires(RunFrom(w, more), c, bs, rows, kind, ids);
    }
  }

  lemma JoinBinds(w: World, c: nat, ref: string, rows: seq<Bindings.Row>)
    requires LifeOk(w) && c < |w.chans| && rows != [] && Registered(w, c)
    requires ref in w.mail.boxes[c].waiting && w.mail.boxes[c].waiting[ref] == JoinOf(w, c)
    requires JoinPush(w, c).okHooks == [JoinOk, SubscribeOk] && Bindings.AllAgree(w.chans[c].bindings, rows)
    ensures var r := Step(w, JoinAnswer(w, c, ref, rows));
      LifeOk(r) && c < |r.chans| && Bound(r.chans[c].bindings, w.chans[c].bindings, rows)
  {
    var r := HandleReply(w, c, ref, true, rows);
    ReplyIsHandled(w, c, ref, true, rows);
    JoinReply(w, c, ref, rows);
    AnswerBinds(w.chans[c], r.chans[c], r.mail.ready, c, rows);
    HandleReplyLife(w, c, ref, true, rows);
  }

  /**
   * End to end: a join answered with a non-empty list that agrees, then any run without another answered join,
   * then a change.
   */
  lemma JoinedBindings(w: World, c: nat, ref: string, rows: seq<Bindings.Row>, more: seq<Event>,
                       kind: string, ids: seq<int>)
    requires LifeOk(w) && c < |w.chans| && rows != [] && Registered(w, c)
    requires ref in w.mail.boxes[c].waiting && w.mail.boxes[c].waiting[ref] == JoinOf(w, c)
    requires JoinPush(w, c).okHooks == [JoinOk, SubscribeOk] && Bindings.AllAgree(w.chans[c].bindings, rows)
    requires var r := Step(w, JoinAnswer(w, c, ref, rows)); c < |r.chans| && NoJoin(r, more, c)
    ensures var v := RunFrom(Step(w, JoinAnswer(w, c, ref, rows)), more);
      c < |v.chans| && (Registered(v, c) ==> ChangeFires(v, c, w.chans[c].bindings, rows, kind, ids))
  {
    var r := Step(w, JoinAnswer(w, c, ref, rows));
    JoinBinds(w, c, ref, rows);
    BindingsEndToEnd(r, more, c, w.chans[c].bindings, rows, kind, ids);
  }
}
