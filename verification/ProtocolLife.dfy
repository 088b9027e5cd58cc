/** Channel states, rejoin timers and join timeouts: no channel gets stuck. */
module ProtocolLife {
  import opened PyDict
  import opened Timers
  import opened Pushes
  import opened PushesProofs
  import opened Protocol
  import Bindings

  function JoinPush(w: World, c: nat): Push
    requires WorldOk(w) && c < |w.chans|
  {
    w.mail.pushes[JoinOf(w, c)]
  }

  /** The library's callbacks on a join push; `subscribe` adds its own, once. */
  predicate HooksOk(q: Push, joinedOnce: bool) {
    && (q.okHooks == [JoinOk] || (joinedOnce && q.okHooks == [JoinOk, SubscribeOk]))
    && (q.errorHooks == [] || (joinedOnce && q.errorHooks == [SubscribeError]))
    && (q.timeoutHooks == [JoinTimeout] || (joinedOnce && q.timeoutHooks == [JoinTimeout, SubscribeTimeout]))
  }

  /** All but the clause on joining. */
  ghost predicate Settled(w: World, c: nat)
    requires WorldOk(w) && c < |w.chans|
  {
    var ch, q := w.chans[c], JoinPush(w, c);
    && ch.timer.slot.Ok()
    && HooksOk(q, ch.joinedOnce)
    && (ch.state in {Joined, Leaving, Closed} ==> !ch.timer.slot.IsPending())
    && (ch.state == Errored ==> ch.timer.slot.IsPending())
    && (ch.state == Closed && Registered(w, c) ==> q.ref.None? && q.slot == EMPTY)
  }

  /** A registered channel that is joining will be woken by its join timeout or its rejoin timer. */
  ghost predicate Watched(w: World, c: nat)
    requires WorldOk(w) && c < |w.chans|
  {
    w.chans[c].state == Joining && Registered(w, c) ==>
      w.chans[c].timer.slot.IsPending() || JoinPush(w, c).slot.IsPending()
  }

  ghost predicate ChanOk(w: World, c: nat)
    requires WorldOk(w) && c < |w.chans|
  {
    Settled(w, c) && Watched(w, c)
  }

  ghost predicate LifeOk(w: World) {
    WorldOk(w) && forall c :: 0 <= c < |w.chans| ==> ChanOk(w, c)
  }

  // ---------- Frames ----------

  /** Nothing that ChanOk reads of channel d has changed, except that d may have lost its registration. */
  ghost predicate SameChan(w: World, r: World, d: nat)
    requires WorldOk(w) && WorldOk(r) && d < |w.chans|
  {
    && d < |r.chans| && r.chans[d].state == w.chans[d].state && r.chans[d].timer == w.chans[d].timer
    && r.chans[d].joinedOnce == w.chans[d].joinedOnce
    && SameJoin(JoinPush(w, d), JoinPush(r, d))
    && (Registered(r, d) ==> Registered(w, d))
  }

  ghost predicate SameJoin(q: Push, q': Push) {
    && q'.slot == q.slot && q'.ref == q.ref
    && q'.okHooks == q.okHooks && q'.errorHooks == q.errorHooks && q'.timeoutHooks == q.timeoutHooks
  }

  lemma FrameOk(w: World, r: World, d: nat)
    requires WorldOk(w) && WorldOk(r) && d < |w.chans| && ChanOk(w, d) && SameChan(w, r, d)
    ensures ChanOk(r, d)
  {
  }

  /** A mail operation touched at most push p, and no channel's topic or join. */
  ghost predicate TouchesOnly(m: Mail, n: Mail, p: int) {
    && |m.pushes| <= |n.pushes| && |m.boxes| == |n.boxes|
    && (forall i :: 0 <= i < |m.pushes| && i != p ==> n.pushes[i] == m.pushes[i])
    && (forall c :: 0 <= c < |m.boxes| ==> n.boxes[c].join == m.boxes[c].join && n.boxes[c].topic == m.boxes[c].topic)
  }

  lemma PostTouches(m: Mail, c: nat, kind: Kind)
    requires c < |m.boxes|
    ensures TouchesOnly(m, Post(m, c, kind), -1)
  {
  }

  lemma TouchesJoin(w: World, r: World, p: int, d: nat)
    requires WorldOk(w) && WorldOk(r) && TouchesOnly(w.mail, r.mail, p) && d < |w.chans| && p != JoinOf(w, d)
    ensures JoinPush(r, d) == JoinPush(w, d) && Topic(r, d) == Topic(w, d)
  {
  }

  // ---------- Handlers that send ----------

  lemma UnsubFrame(w: World, c: nat, d: nat)
    requires WorldOk(w) && c < |w.chans| && d < |w.chans| && d != c
    ensures SameChan(w, Unsub(w, c), d) && Unsub(w, c).chans[d] == w.chans[d]
  {
    var r, j := Unsub(w, c), JoinOf(w, c);
    PostTouches(Destroy(w.mail, j), c, Leave);
    assert TouchesOnly(w.mail, r.mail, j);
    TouchesJoin(w, r, j, d);
  }

  lemma UnsubSelf(w: World, c: nat)
    requires WorldOk(w) && c < |w.chans| && w.chans[c].timer.slot.Ok() && HooksOk(JoinPush(w, c), w.chans[c].joinedOnce)
    ensures var r := Unsub(w, c);
      && |r.chans| == |w.chans| && r.registry == w.registry && r.chans[c].state == Leaving
      && JoinPush(r, c).slot.current.None? && ChanOk(r, c)
      && forall d :: 0 <= d < |w.chans| ==> Topic(r, d) == Topic(w, d)
  {
    var r, j := Unsub(w, c), JoinOf(w, c);
    PostTouches(Destroy(w.mail, j), c, Leave);
    assert TouchesOnly(Destroy(w.mail, j), r.mail, -1);
    assert JoinPush(r, c) == Destroy(w.mail, j).pushes[j];
  }

  lemma UnsubLife(w: World, c: nat)
    requires LifeOk(w) && c < |w.chans|
    ensures LifeOk(Unsub(w, c))
  {
    var r := Unsub(w, c);
    assert ChanOk(w, c);
    UnsubSelf(w, c);
    forall d | 0 <= d < |r.chans| && d != c ensures ChanOk(r, d) {
      UnsubFrame(w, c, d);
      FrameOk(w, r, d);
    }
  }

  lemma LeaveOpenTopicLife(w: World, topic: string)
    requires LifeOk(w)
    ensures LifeOk(LeaveOpenTopic(w, topic))
  {
    if topic in w.registry.vals {
      UnsubLife(w, w.registry.vals[topic]);
    }
  }

  lemma RejoinedFrame(w: World, c: nat, d: nat)
    requires WorldOk(w) && c < |w.chans| && d < |w.chans| && d != c
    ensures SameChan(w, Rejoined(w, c), d) && Rejoined(w, c).chans[d] == w.chans[d]
  {
    var r := Rejoined(w, c);
    assert TouchesOnly(w.mail, r.mail, JoinOf(w, c));
    TouchesJoin(w, r, JoinOf(w, c), d);
  }

  lemma RejoinedSelf(w: World, c: nat)
    requires WorldOk(w) && c < |w.chans|
    ensures var r, q := Rejoined(w, c), JoinPush(w, c); var q' := JoinPush(r, c);
      && q'.slot == StartTimeout(q).slot && q'.okHooks == q.okHooks && q'.errorHooks == q.errorHooks
      && q'.timeoutHooks == q.timeoutHooks && (Registered(r, c) <==> Registered(w, c))
  {
    assert TouchesOnly(w.mail, Rejoined(w, c).mail, JoinOf(w, c));
  }

  /** What `_rejoin` needs when it reaches the resend. */
  ghost predicate MayRejoin(w: World, c: nat)
    requires WorldOk(w) && c < |w.chans|
  {
    Registered(w, c) ==> w.chans[c].timer.slot.IsPending() || JoinPush(w, c).slot.current.None?
  }

  lemma RejoinedSelfLife(w: World, c: nat)
    requires LifeOk(w) && c < |w.chans| && MayRejoin(w, c)
    ensures |Rejoined(w, c).chans| == |w.chans| && ChanOk(Rejoined(w, c), c)
  {
    assert ChanOk(w, c);
    assert PushOk(w.mail, JoinOf(w, c));
    RejoinedSelf(w, c);
  }

  lemma RejoinedLife(w: World, c: nat)
    requires LifeOk(w) && c < |w.chans| && MayRejoin(w, c)
    ensures LifeOk(Rejoined(w, c))
  {
    var r := Rejoined(w, c);
    RejoinedSelfLife(w, c);
    forall d | 0 <= d < |r.chans| && d != c ensures ChanOk(r, d) {
      RejoinedFrame(w, c, d);
      FrameOk(w, r, d);
    }
  }

  /** Leaving the open topic prepares the rejoin of any channel that is not leaving. */
  lemma LeavingPrepares(w: World, c: nat)
    requires LifeOk(w) && c < |w.chans| && w.chans[c].state != Leaving
    ensures MayRejoin(LeaveOpenTopic(w, Topic(w, c)), c) && |LeaveOpenTopic(w, Topic(w, c)).chans| == |w.chans|
  {
    assert ChanOk(w, c);
    var t := Topic(w, c);
    if t in w.registry.vals {
      var h := w.registry.vals[t];
      assert ChanOk(w, h);
      UnsubSelf(w, h);
    }
  }

  lemma RejoinLife(w: World, c: nat)
    requires LifeOk(w) && c < |w.chans|
    ensures LifeOk(Rejoin(w, c))
  {
    if w.chans[c].state != Leaving {
      LeaveOpenTopicLife(w, Topic(w, c));
      LeavingPrepares(w, c);
      RejoinedLife(LeaveOpenTopic(w, Topic(w, c)), c);
    }
  }

  // ---------- Handlers of one channel ----------

  lemma OnCloseLife(w: World, c: nat)
    requires LifeOk(w) && c < |w.chans|
    ensures LifeOk(OnClose(w, c))
  {
    var r := OnClose(w, c);
    assert ChanOk(w, c);
    forall d | 0 <= d < |r.chans| && d != c ensures ChanOk(r, d) {
      assert SameChan(w, r, d);
      FrameOk(w, r, d);
    }
    assert JoinPush(r, c) == JoinPush(w, c);
  }

  /** Only channel c's own fields have changed. */
  ghost predicate ChanEdit(w: World, r: World, c: nat)
    requires c < |w.chans|
  {
    |r.chans| == |w.chans| && r.chans == w.chans[c := r.chans[c]] && r.registry == w.registry
  }

  lemma ChanEditLife(w: World, r: World, c: nat, p: int)
    requires WorldOk(w) && WorldOk(r) && c < |w.chans| && ChanEdit(w, r, c) && TouchesOnly(w.mail, r.mail, p)
    requires forall d :: 0 <= d < |w.chans| ==>
      p != JoinOf(w, d) || (p < |w.mail.pushes| && SameJoin(w.mail.pushes[p], r.mail.pushes[p]))
    requires forall d :: 0 <= d < |w.chans| && d != c ==> ChanOk(w, d)
    requires ChanOk(r, c)
    ensures LifeOk(r)
  {
    forall d | 0 <= d < |r.chans| && d != c ensures ChanOk(r, d) {
      assert ChanOk(w, d);
      assert SameChan(w, r, d);
      FrameOk(w, r, d);
    }
  }

  lemma FailLife(w: World, c: nat)
    requires WorldOk(w) && c < |w.chans| && Settled(w, c)
    requires forall d :: 0 <= d < |w.chans| && d != c ==> ChanOk(w, d)
    ensures LifeOk(w.(chans := w.chans[c := Fail(w.chans[c])]))
  {
    var r := w.(chans := w.chans[c := Fail(w.chans[c])]);
    assert JoinPush(r, c) == JoinPush(w, c);
    ScheduleOk(w.chans[c].timer);
    ChanEditLife(w, r, c, -1);
  }

  lemma OnErrorLife(w: World, c: nat)
    requires LifeOk(w) && c < |w.chans|
    ensures LifeOk(OnError(w, c))
  {
    assert ChanOk(w, c);
    FailLife(w, c);
  }

  lemma ReportLife(w: World, c: nat, report: Report)
    requires LifeOk(w) && c < |w.chans|
    ensures LifeOk(ReportTo(w, c, report))
  {
    var r := ReportTo(w, c, report);
    assert ChanOk(w, c) && JoinPush(r, c) == JoinPush(w, c);
    ChanEditLife(w, r, c, -1);
  }

  lemma JoinOkLife(w: World, c: nat)
    requires LifeOk(w) && c < |w.chans|
    ensures LifeOk(RunHook(w, c, JoinOk, []))
  {
    var r := RunHook(w, c, JoinOk, []);
    assert ChanOk(w, c);
    ResetOk(w.chans[c].timer);
    assert JoinPush(r, c) == JoinPush(w, c);
    ChanEditLife(w, r, c, -1);
  }

  lemma SubscribeOkLife(w: World, c: nat, rows: seq<Bindings.Row>)
    requires LifeOk(w) && c < |w.chans|
    ensures LifeOk(RunHook(w, c, SubscribeOk, rows))
  {
    var r := RunHook(w, c, SubscribeOk, rows);
    assert ChanOk(w, c) && JoinPush(r, c) == JoinPush(w, c);
    ChanEditLife(w, r, c, -1);
  }

  lemma RunHookLife(w: World, c: nat, h: Hook, rows: seq<Bindings.Row>)
    requires LifeOk(w) && c < |w.chans|
    ensures LifeOk(RunHook(w, c, h, rows))
  {
    match h {
      case JoinOk => JoinOkLife(w, c); assert RunHook(w, c, JoinOk, rows) == RunHook(w, c, JoinOk, []);
      case JoinTimeout => assert ChanOk(w, c); FailLife(w, c);
      case SubscribeOk => SubscribeOkLife(w, c, rows);
      case SubscribeError => ReportLife(w, c, ChannelError);
      case SubscribeTimeout => ReportLife(w, c, Report.TimedOut);
      case Close => OnCloseLife(w, c);
    }
  }

  lemma {:induction false} RunHooksLife(w: World, c: nat, hooks: seq<Hook>, rows: seq<Bindings.Row>)
    requires LifeOk(w) && c < |w.chans|
    ensures LifeOk(RunHooks(w, c, hooks, rows))
    decreases |hooks|
  {
    if hooks != [] {
      RunHookLife(w, c, hooks[0], rows);
      RunHooksLife(RunHook(w, c, hooks[0], rows), c, hooks[1..], rows);
    }
  }

  /** A mail operation that leaves every join push's slot, ref and callbacks alone. */
  lemma MailLife(w: World, n: Mail, p: int)
    requires LifeOk(w) && Inv(n) && TouchesOnly(w.mail, n, p)
    requires forall d :: 0 <= d < |w.chans| ==>
      p != JoinOf(w, d) || (p < |w.mail.pushes| && SameJoin(w.mail.pushes[p], n.pushes[p]))
    ensures LifeOk(w.(mail := n))
  {
    var r := w.(mail := n);
    forall d | 0 <= d < |r.chans| ensures ChanOk(r, d) {
      assert ChanOk(w, d);
      assert SameChan(w, r, d);
      FrameOk(w, r, d);
    }
  }

  lemma HandleReplyLife(w: World, c: nat, ref: string, ok: bool, rows: seq<Bindings.Row>)
    requires LifeOk(w) && c < |w.chans| && ref in w.mail.boxes[c].waiting
    ensures LifeOk(HandleReply(w, c, ref, ok, rows))
  {
    var resp := if ok then Response(Pushes.Ok, rows) else Response(Error, []);
    ReplyKeeps(w.mail, c, ref, resp);
    var p := w.mail.boxes[c].waiting[ref];
    var q := w.mail.pushes[p];
    MailLife(w, Reply(w.mail, c, ref, resp), p);
    RunHooksLife(w.(mail := Reply(w.mail, c, ref, resp)), c, if ok then q.okHooks else q.errorHooks, resp.rows);
  }

  /** A reply to a waiting ref of the registered channel reaches it. */
  lemma ReplyIsHandled(w: World, c: nat, ref: string, ok: bool, rows: seq<Bindings.Row>)
    requires WorldOk(w) && c < |w.chans| && Registered(w, c) && ref in w.mail.boxes[c].waiting
    ensures Deliver(w, Topic(w, c), ReplyTo(Some(ref), ok, rows)) == HandleReply(w, c, ref, ok, rows)
  {
    WaitingRefIsText(w.mail, c, ref);
    var msg := ReplyTo(Some(ref), ok, rows);
    assert Deliver(w, Topic(w, c), msg) == HandleMessage(w, c, msg);
  }

  lemma ChangeLife(w: World, c: nat, fired: seq<Bindings.Call>, bs: seq<Bindings.Binding>)
    requires LifeOk(w) && c < |w.chans|
    ensures LifeOk(w.(chans := w.chans[c := w.chans[c].(fired := fired, bindings := bs)]))
  {
    var r := w.(chans := w.chans[c := w.chans[c].(fired := fired, bindings := bs)]);
    assert ChanOk(w, c) && JoinPush(r, c) == JoinPush(w, c);
    ChanEditLife(w, r, c, -1);
  }

  lemma HandleMessageLife(w: World, c: nat, msg: ServerMessage)
    requires LifeOk(w) && c < |w.chans|
    ensures LifeOk(HandleMessage(w, c, msg))
  {
    match msg {
      case ReplyTo(ref, ok, rows) =>
        if ref.Some? && ref.value != "" && ref.value in w.mail.boxes[c].waiting {
          HandleReplyLife(w, c, ref.value, ok, rows);
        }
      case SystemError => OnErrorLife(w, c);
      case PhxError => OnErrorLife(w, c);
      case PhxClose => OnCloseLife(w, c);
      case Change(kind, ids) =>
        var ch := w.chans[c];
        ChangeLife(w, c, ch.fired + Bindings.Dispatch(ch.bindings, kind, ids, |ch.bindings|), ch.bindings);
      case Unrelated =>
    }
  }

  // ---------- Events ----------

  lemma ConnectionLife(w: World, n: Mail)
    requires LifeOk(w) && Inv(n) && (n == Open(w.mail) || n == Disconnect(w.mail))
    ensures LifeOk(w.(mail := n))
  {
    MailLife(w, n, -1);
  }

  lemma ConnectLife(w: World, succeeds: bool)
    requires LifeOk(w)
    ensures LifeOk(Connect(w, succeeds)) && LifeOk(CloseSocket(w))
  {
    ConnectionKeeps(w.mail, Open(w.mail));
    ConnectionKeeps(w.mail, Disconnect(w.mail));
    ConnectionLife(w, Open(w.mail));
    ConnectionLife(w, Disconnect(w.mail));
  }

  lemma TimerFiresLife(w: World, c: nat, i: nat)
    requires LifeOk(w) && TimerPending(w, c, i)
    ensures LifeOk(TimerFires(w, c, i))
  {
    var ch := w.chans[c];
    assert ChanOk(w, c);
    FireOk(ch.timer, i);
    ScheduleOk(Fire(ch.timer, i));
    var r := w.(chans := w.chans[c := ch.(timer := Schedule(Fire(ch.timer, i)))]);
    assert JoinPush(r, c) == JoinPush(w, c);
    ChanEditLife(w, r, c, -1);
    var fired := w.(chans := w.chans[c := ch.(timer := Fire(ch.timer, i))]);
    assert fired.chans[c := fired.chans[c].(timer := Schedule(fired.chans[c].timer))] == r.chans;
    if r.mail.connected {
      RejoinLife(r, c);
    }
  }

  /** The state of a subscribing channel between its three registrations. */
  ghost predicate Subscribing(w: World, c: nat) {
    LifeOk(w) && c < |w.chans| && w.chans[c].joinedOnce
  }

  lemma AddHookLife(w: World, c: nat, status: Ack, h: Hook)
    requires Subscribing(w, c) && h != Close
    requires HooksOk(AddHook(w.mail, JoinOf(w, c), status, h).pushes[JoinOf(w, c)], true)
    ensures Inv(AddHook(w.mail, JoinOf(w, c), status, h))
    ensures Subscribing(w.(mail := AddHook(w.mail, JoinOf(w, c), status, h)), c)
  {
    var j := JoinOf(w, c);
    AddHookKeeps(w.mail, j, status, h);
    var r := w.(mail := AddHook(w.mail, j, status, h));
    assert ChanOk(w, c) && TouchesOnly(w.mail, r.mail, j);
    assert JoinPush(r, c) == r.mail.pushes[j];
    assert Registered(r, c) == Registered(w, c);
    forall d | 0 <= d < |w.chans| && d != c ensures ChanOk(r, d) {
      assert ChanOk(w, d);
      TouchesJoin(w, r, j, d);
      FrameOk(w, r, d);
    }
  }

  lemma RunHookJoinedOnce(w: World, c: nat, h: Hook, rows: seq<Bindings.Row>)
    requires WorldOk(w) && c < |w.chans|
    ensures RunHook(w, c, h, rows).chans[c].joinedOnce == w.chans[c].joinedOnce
  {
  }

  lemma ReceiveLife(w: World, c: nat, status: Ack, h: Hook)
    requires Subscribing(w, c) && h != Close
    requires HooksOk(AddHook(w.mail, JoinOf(w, c), status, h).pushes[JoinOf(w, c)], true)
    ensures Subscribing(Receive(w, c, status, h), c)
    ensures var q, q' := JoinPush(w, c), Receive(w, c, status, h).mail.pushes[JoinOf(w, c)];
      q' == q || q' == AddHook(w.mail, JoinOf(w, c), status, h).pushes[JoinOf(w, c)]
  {
    var resp := JoinPush(w, c).resp;
    AddHookLife(w, c, status, h);
    if resp.Some? && resp.value.status == status {
      RunHookLife(w, c, h, resp.value.rows);
      RunHookJoinedOnce(w, c, h, resp.value.rows);
    }
  }

  lemma ReceiveKeepsJoin(w: World, c: nat, status: Ack, h: Hook)
    requires WorldOk(w) && c < |w.chans| && h != Close
    ensures JoinOf(Receive(w, c, status, h), c) == JoinOf(w, c)
  {
  }

  /** `subscribe`'s three registrations, on a join push that has only the channel's own callbacks. */
  lemma ThreeReceives(w: World, c: nat)
    requires Subscribing(w, c) && HooksOk(JoinPush(w, c), false)
    ensures var v := Receive(w, c, Pushes.Ok, SubscribeOk);
      var v := Receive(v, c, Error, SubscribeError);
      LifeOk(Receive(v, c, Timeout, SubscribeTimeout))
  {
    ReceiveLife(w, c, Pushes.Ok, SubscribeOk);
    ReceiveKeepsJoin(w, c, Pushes.Ok, SubscribeOk);
    var v := Receive(w, c, Pushes.Ok, SubscribeOk);
    ReceiveLife(v, c, Error, SubscribeError);
    ReceiveKeepsJoin(v, c, Error, SubscribeError);
    ReceiveLife(Receive(v, c, Error, SubscribeError), c, Timeout, SubscribeTimeout);
  }

  lemma CallbacksLife(w: World, c: nat)
    requires LifeOk(w) && c < |w.chans| && !w.chans[c].joinedOnce
    ensures LifeOk(RegisterCallbacks(w, c))
  {
    var w1 := w.(chans := w.chans[c := w.chans[c].(joinedOnce := true)]);
    assert ChanOk(w, c) && JoinPush(w1, c) == JoinPush(w, c);
    ChanEditLife(w, w1, c, -1);
    ThreeReceives(w1, c);
  }

  lemma SubscribeLife(w: World, c: nat, succeeds: bool)
    requires LifeOk(w) && c < |w.chans|
    ensures LifeOk(Subscribe(w, c, succeeds))
  {
    ConnectLife(w, succeeds);
    var v := Connect(w, succeeds);
    if v.mail.connected && !v.chans[c].joinedOnce {
      CallbacksLife(v, c);
      RejoinLife(RegisterCallbacks(v, c), c);
    }
  }

  lemma PushEventLife(w: World, c: nat)
    requires LifeOk(w) && c < |w.chans|
    ensures LifeOk(PushEvent(w, c))
  {
    PostKeeps(w.mail, c, User);
    HoldKeeps(w.mail, c);
    PostTouches(w.mail, c, User);
    MailLife(w, Post(w.mail, c, User), -1);
    MailLife(w, Hold(w.mail, c), -1);
  }

  lemma CreateChannelLife(w: World, name: string)
    requires LifeOk(w)
    ensures LifeOk(CreateChannel(w, name))
  {
    var r := CreateChannel(w, name);
    forall d | 0 <= d < |r.chans| ensures ChanOk(r, d) {
      if d < |w.chans| {
        assert ChanOk(w, d);
        assert BoxOk(w.mail, d);
        assert SameChan(w, r, d);
        FrameOk(w, r, d);
      } else {
        assert JoinPush(r, d) == NewPush(d, Join);
      }
    }
  }

  lemma RunReadyLife(w: World)
    requires LifeOk(w) && w.mail.ready != []
    ensures LifeOk(RunReady(w))
  {
    assert TaskOk(w.mail, w.mail.ready[0]);
    match w.mail.ready[0] {
      case SendPush(p) =>
        RunSendKeeps(w.mail);
        assert PushOk(w.mail, p);
        assert TouchesOnly(w.mail, RunSend(w.mail), p);
        MailLife(w, RunSend(w.mail), p);
      case Unsubscribe(c) =>
        PopTaskKeeps(w.mail);
        MailLife(w, PopTask(w.mail), -1);
        UnsubLife(w.(mail := PopTask(w.mail)), c);
    }
  }

  /** The library's own timeout callback restores what the expired join timeout watched over. */
  lemma JoinTimeoutLife(w: World, c: nat)
    requires WorldOk(w) && c < |w.chans| && Settled(w, c)
    requires forall d :: 0 <= d < |w.chans| && d != c ==> ChanOk(w, d)
    ensures LifeOk(RunHook(w, c, JoinTimeout, []))
  {
    FailLife(w, c);
  }

  lemma TimeoutOfJoinLife(w: World, p: nat, i: nat)
    requires LifeOk(w) && TimeoutPending(w, p, i) && w.mail.pushes[p].kind == Join
    ensures LifeOk(RunHooks(JoinExpired(w, p, i), w.mail.pushes[p].channel, w.mail.pushes[p].timeoutHooks, []))
  {
    var q := w.mail.pushes[p];
    assert PushOk(w.mail, p);
    var c := q.channel;
    var w1 := JoinExpired(w, p, i);
    assert ChanOk(w, c) && JoinPush(w, c) == q && TouchesOnly(w.mail, w1.mail, p);
    assert JoinPush(w1, c) == w1.mail.pushes[p] && Registered(w1, c) == Registered(w, c);
    forall d | 0 <= d < |w1.chans| && d != c ensures ChanOk(w1, d) {
      assert ChanOk(w, d);
      TouchesJoin(w, w1, p, d);
      FrameOk(w, w1, d);
    }
    JoinTimeoutLife(w1, c);
    RunHooksLife(RunHook(w1, c, JoinTimeout, []), c, q.timeoutHooks[1..], []);
  }

  lemma JoinForgottenLife(w: World, p: nat)
    requires LifeOk(w) && p < |w.mail.pushes| && w.mail.pushes[p].kind == Join
    ensures LifeOk(JoinForgotten(w, p))
  {
    ForgetJoinKeeps(w.mail, p);
    MailLife(w, Forget(w.mail, p), -1);
  }

  lemma OtherTimeoutLife(w: World, p: nat, i: nat)
    requires LifeOk(w) && TimeoutPending(w, p, i) && w.mail.pushes[p].kind != Join
    ensures LifeOk(TimeoutFires(w, p, i))
  {
    assert PushOk(w.mail, p);
    TimeoutKeeps(w.mail, p, i);
    assert TouchesOnly(w.mail, Forget(Expire(w.mail, p, i), p), p);
    MailLife(w, Forget(Expire(w.mail, p, i), p), p);
  }

  lemma TimeoutFiresLife(w: World, p: nat, i: nat)
    requires LifeOk(w) && TimeoutPending(w, p, i)
    ensures LifeOk(TimeoutFires(w, p, i))
  {
    var q := w.mail.pushes[p];
    if q.kind == Join {
      TimeoutOfJoinLife(w, p, i);
      JoinForgottenLife(RunHooks(JoinExpired(w, p, i), q.channel, q.timeoutHooks, []), p);
    } else {
      OtherTimeoutLife(w, p, i);
    }
  }

  lemma {:induction false} RejoinAllLife(w: World, topics: seq<string>)
    requires LifeOk(w) && forall t :: t in topics ==> t in w.registry.vals
    ensures LifeOk(RejoinAll(w, topics))
    decreases |topics|
  {
    if topics != [] {
      RejoinLife(w, w.registry.vals[topics[0]]);
      RejoinAllLife(Rejoin(w, w.registry.vals[topics[0]]), topics[1..]);
    }
  }

  lemma ReconnectLife(w: World, succeeds: bool)
    requires LifeOk(w)
    ensures LifeOk(Reconnect(w, succeeds))
  {
    ConnectLife(w, succeeds);
    ConnectLife(CloseSocket(w), succeeds);
    RejoinAllLife(Connect(CloseSocket(w), succeeds), w.registry.keys);
  }

  lemma RemoveChannelLife(w: World, c: nat)
    requires LifeOk(w) && c < |w.chans|
    ensures LifeOk(RemoveChannel(w, c))
  {
    var t := Topic(w, c);
    if t in w.registry.vals {
      UnsubLife(w, w.registry.vals[t]);
    }
    var r := if t in w.registry.vals then Unsub(w, w.registry.vals[t]) else w;
    ConnectLife(r, false);
  }

  lemma UserStepLife(w: World, e: Event)
    requires LifeOk(w) && ByUser(e)
    ensures LifeOk(Step(w, e))
  {
    match e {
      case Creates(name) => CreateChannelLife(w, name);
      case Subscribes(c, succeeds) => if c < |w.chans| { SubscribeLife(w, c, succeeds); }
      case Unsubscribes(c) => if c < |w.chans| { UnsubLife(w, c); }
      case Removes(c) => if c < |w.chans| { RemoveChannelLife(w, c); }
      case UserPushes(c) => if c < |w.chans| { PushEventLife(w, c); }
      case Registers(c, b) =>
        if c < |w.chans| { ChangeLife(w, c, w.chans[c].fired, w.chans[c].bindings + [b.(id := None)]); }
    }
  }

  lemma StepLife(w: World, e: Event)
    requires LifeOk(w)
    ensures LifeOk(Step(w, e))
  {
    match e {
      case Receives(topic, msg) =>
        if topic in w.registry.vals { HandleMessageLife(w, w.registry.vals[topic], msg); }
      case PushTimesOut(p, i) => if TimeoutPending(w, p, i) { TimeoutFiresLife(w, p, i); }
      case TimerWakes(c, i) => if TimerPending(w, c, i) { TimerFiresLife(w, c, i); }
      case TaskStarts => if w.mail.ready != [] { RunReadyLife(w); }
      case Connects(succeeds) => ConnectLife(w, succeeds);
      case Closes => ConnectLife(w, false);
      case Reconnects(succeeds) => ReconnectLife(w, succeeds);
      case _ => UserStepLife(w, e);
    }
  }

  lemma {:induction false} RunFromLife(w: World, events: seq<Event>)
    requires LifeOk(w)
    ensures LifeOk(RunFrom(w, events))
    decreases |events|
  {
    if events != [] {
      RunFromLife(w, events[..|events| - 1]);
      StepLife(RunFrom(w, events[..|events| - 1]), events[|events| - 1]);
    }
  }

  lemma RunLife(events: seq<Event>)
    ensures LifeOk(Run(events))
  {
    NewClientOk();
    RunFromLife(NEW_CLIENT, events);
  }

  /**
   * No registered channel gets stuck while joining, and none in error, in any run: one that is
   * joining waits for its join timeout or its rejoin timer, an errored one for its rejoin timer; a
   * joined, leaving or closed one has no rejoin timer running; a registered closed one has never
   * sent a join. What a leaving channel waits for is the subject of module LeavingRuns.
   */
  lemma NeverStuck(events: seq<Event>, c: nat)
    requires c < |Run(events).chans|
    ensures var w := Run(events); var ch, q := w.chans[c], JoinPush(w, c);
      && (ch.state == Joining && Registered(w, c) ==> q.slot.IsPending() || ch.timer.slot.IsPending())
      && (ch.state == Errored ==> ch.timer.slot.IsPending())
      && (ch.state in {Joined, Leaving, Closed} ==> !ch.timer.slot.IsPending())
      && (ch.state == Closed && Registered(w, c) ==> q.ref.None? && q.slot.tasks == [])
      && (forall i :: 0 <= i < |ch.timer.slot.tasks| && ch.timer.slot.tasks[i].Pending? ==>
            ch.timer.slot.current == Some(i))
  {
    RunLife(events);
    assert ChanOk(Run(events), c);
  }
}
