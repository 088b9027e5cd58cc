/**
 * The client object: its methods run the handlers of the client, its channels
 * and their pushes with the source's loops and assignments, and are proved to
 * do to the state exactly what the functions of module Protocol do. A channel
 * or a push is the row of a table, named by its order of creation.
 */
module RealtimeClient {
  import opened PyDict
  import opened Refs
  import opened Timers
  import opened Pushes
  import opened PushesProofs
  import opened Protocol
  import opened Backoff
  import Bindings

  /** How a call of `connect` that found no connection went. */
  ghost predicate AttemptsMade(outcomes: seq<bool>, maxRetries: int, auto: bool, attempts: nat, sleeps: nat, ok: bool) {
    && (attempts == 0 <==> maxRetries <= 0)
    && (attempts == 0 ==> sleeps == 0 && !ok)
    && (attempts > 0 ==> sleeps == attempts - 1 && attempts <= maxRetries && (auto || attempts == 1))
    && (attempts > 0 ==> (ok <==> Succeeds(outcomes, attempts - 1)))
    && (forall i :: 0 <= i < attempts - 1 ==> !Succeeds(outcomes, i))
    && (attempts > 0 && !ok ==> attempts == maxRetries || !auto)
  }

  /** If every attempt fails with auto-reconnect on, `connect` raises after exactly n attempts and n - 1 sleeps. */
  lemma AllFail(outcomes: seq<bool>, n: nat, attempts: nat, sleeps: nat, ok: bool)
    requires n >= 1 && AttemptsMade(outcomes, n, true, attempts, sleeps, ok)
    requires forall i :: 0 <= i < n ==> !Succeeds(outcomes, i)
    ensures !ok && attempts == n && sleeps == n - 1
  {
    assert attempts > 0 ==> !Succeeds(outcomes, attempts - 1);
  }

  /** Without auto-reconnect there is one attempt and no sleep; with no attempt allowed there is none. */
  lemma OneAttempt(outcomes: seq<bool>, maxRetries: int, auto: bool, attempts: nat, sleeps: nat, ok: bool)
    requires AttemptsMade(outcomes, maxRetries, auto, attempts, sleeps, ok)
    ensures maxRetries <= 0 ==> attempts == 0 && sleeps == 0 && !ok
    ensures maxRetries >= 1 && !auto ==> attempts == 1 && sleeps == 0 && (ok <==> Succeeds(outcomes, 0))
  {
  }

  lemma StopsAtSuccess(outcomes: seq<bool>, n: nat, attempts: nat, sleeps: nat, ok: bool)
    requires n >= 1 && AttemptsMade(outcomes, n, true, attempts, sleeps, ok)
    ensures attempts > 0 && (attempts < n ==> Succeeds(outcomes, attempts - 1))
    ensures ok <==> Succeeds(outcomes, attempts - 1)
    ensures forall i :: 0 <= i < attempts - 1 ==> !Succeeds(outcomes, i)
  {
  }

  /** With auto-reconnect the first success, if among the allowed attempts, is the last attempt made. */
  lemma FirstSuccess(outcomes: seq<bool>, n: nat, k: nat, attempts: nat, sleeps: nat, ok: bool)
    requires AttemptsMade(outcomes, n, true, attempts, sleeps, ok)
    requires k < n && Succeeds(outcomes, k) && forall i :: 0 <= i < k ==> !Succeeds(outcomes, i)
    ensures ok && attempts == k + 1 && sleeps == k
  {
    StopsAtSuccess(outcomes, n, attempts, sleeps, ok);
  }

  class AsyncRealtimeClient {
    const autoReconnect: bool
    const maxRetries: int
    const initialBackoff: real
    var connected: bool
    var ref: nat
    var channels: Dict<nat>
    var sendBuffer: seq<Message>
    var wire: seq<Message>        // what the websocket has been given, oldest first
    var requested: seq<Message>   // what `send` has been asked for, oldest first
    var ready: seq<Task>          // the event loop's queue of tasks not yet started
    var pushes: seq<Push>
    var boxes: seq<Box>
    var chans: seq<Chan>

    ghost function View(): World
      reads this
    {
      World(Mail(connected, ref, pushes, boxes, ready, requested, wire, sendBuffer), chans, channels)
    }

    ghost predicate Valid()
      reads this
    {
      WorldOk(View())
    }

    /** Some allowed attempt to connect succeeds. */
    ghost predicate WillConnect(outcomes: seq<bool>) {
      SomeAttemptSucceeds(outcomes, maxRetries, autoReconnect)
    }

    constructor (autoReconnect: bool, maxRetries: int, initialBackoff: real)
      ensures Valid() && View() == NEW_CLIENT
    {
      this.autoReconnect, this.maxRetries, this.initialBackoff := autoReconnect, maxRetries, initialBackoff;
      connected, ref, channels := false, 0, Dict([], map[]);
      sendBuffer, wire, requested, ready := [], [], [], [];
      pushes, boxes, chans := [], [], [];
      new;
      NewClientOk();
    }

    // ---------- Sending ----------

    method MakeRef() returns (r: string)
      modifies this`ref
      ensures ref == old(ref) + 1 && r == Decimal(ref)
    {
      ref := ref + 1;
      r := Decimal(ref);
    }

    /** `send`: transmits while connected, else buffers. */
    method SendMessage(msg: Message)
      modifies this`requested, this`wire, this`sendBuffer
      ensures View() == old(View()).(mail := SocketSend(old(View().mail), msg))
    {
      requested := requested + [msg];
      if connected {
        wire := wire + [msg];
      } else {
        sendBuffer := sendBuffer + [msg];
      }
    }

    /** A no-op once a task has been created, until `Destroy`. */
    method StartTimeout(p: nat)
      requires p < |pushes|
      modifies this`pushes
      ensures pushes == old(pushes)[p := Pushes.StartTimeout(old(pushes[p]))]
    {
      if pushes[p].slot.current.None? {
        pushes := pushes[p := pushes[p].(slot := pushes[p].slot.Create())];
      }
    }

    /** `AsyncPush.send` */
    method Send(p: nat)
      requires p < |pushes| && pushes[p].channel < |boxes|
      modifies this
      ensures View() == old(View()).(mail := Pushes.Send(old(View().mail), p))
    {
      if pushes[p].TimedOut() {
        return;
      }
      var c := pushes[p].channel;
      var r := MakeRef();
      pushes := pushes[p := pushes[p].(ref := Some(r))];
      boxes := boxes[c := boxes[c].(waiting := boxes[c].waiting[r := p])];
      StartTimeout(p);
      pushes := pushes[p := pushes[p].(sent := true)];
      assert pushes == old(pushes)[p := Pushes.StartTimeout(old(pushes[p]).(ref := Some(r))).(sent := true)];
      SendMessage(Message(boxes[c].topic, pushes[p].kind, r, p));
    }

    /** `AsyncPush.resend` */
    method Resend(p: nat)
      requires p < |pushes| && pushes[p].channel < |boxes|
      modifies this
      ensures View() == old(View()).(mail := Pushes.Resend(old(View().mail), p))
    {
      pushes := pushes[p := pushes[p].(ref := None)];
      pushes := pushes[p := pushes[p].(resp := None)];
      pushes := pushes[p := pushes[p].(sent := false)];
      assert pushes == old(pushes)[p := old(pushes[p]).(ref := None, resp := None, sent := false)];
      Send(p);
    }

    method Destroy(p: nat)
      requires p < |pushes|
      modifies this`pushes
      ensures View() == old(View()).(mail := Pushes.Destroy(old(View().mail), p))
    {
      var slot := pushes[p].slot.Cancel();
      pushes := pushes[p := pushes[p].(slot := slot.Clear())];
    }

    // ---------- Leaving and joining ----------

    method Unsubscribe(c: nat)
      requires Valid() && c < |chans|
      modifies this
      ensures Valid() && View() == Unsub(old(View()), c)
    {
      ghost var w, j := View(), JoinOf(View(), c);
      chans := chans[c := chans[c].(state := Leaving)];
      chans := chans[c := chans[c].(timer := Reset(chans[c].timer))];
      assert chans == w.chans[c := w.chans[c].(state := Leaving, timer := Reset(w.chans[c].timer))];
      Destroy(boxes[c].join);
      pushes := pushes + [NewPush(c, Leave)];
      Send(|pushes| - 1);
      assert View().mail == Post(Pushes.Destroy(w.mail, j), c, Leave);
      assert View() == Unsub(w, c);
    }

    method LeaveOpenTopic(topic: string)
      requires Valid()
      modifies this
      ensures Valid() && View() == Protocol.LeaveOpenTopic(old(View()), topic)
    {
      if topic in channels.vals {
        var ch := channels.vals[topic];
        if chans[ch].state == Joined || chans[ch].state == Joining {
          Unsubscribe(ch);
        }
      }
    }

    method Rejoin(c: nat)
      requires Valid() && c < |chans|
      modifies this
      ensures Valid() && View() == Protocol.Rejoin(old(View()), c)
    {
      if chans[c].state == Leaving {
        return;
      }
      ghost var w := View();
      LeaveOpenTopic(boxes[c].topic);
      ghost var v := View();
      ghost var j := JoinOf(v, c);
      chans := chans[c := chans[c].(state := Joining)];
      Resend(boxes[c].join);
      assert View() == Rejoined(v, c);
    }

    method RejoinUntilConnected(c: nat)
      requires Valid() && c < |chans|
      modifies this
      ensures Valid() && View() == Protocol.RejoinUntilConnected(old(View()), c)
    {
      chans := chans[c := chans[c].(timer := Schedule(chans[c].timer))];
      if connected {
        Rejoin(c);
      }
    }

    /** The rejoin timer's i-th task wakes and runs its callback. */
    method TimerWakes(c: nat, i: nat)
      requires Valid() && c < |chans|
      requires i < |chans[c].timer.slot.tasks| && chans[c].timer.slot.tasks[i].Pending?
      modifies this
      ensures Valid() && View() == TimerFires(old(View()), c, i)
    {
      chans := chans[c := chans[c].(timer := Fire(chans[c].timer, i))];
      RejoinUntilConnected(c);
    }

    /** `on_close`; false when it raises because no channel is registered for the topic: the rest is done by then. */
    method OnClose(c: nat) returns (ok: bool)
      requires Valid() && c < |chans|
      modifies this
      ensures Valid() && View() == Protocol.OnClose(old(View()), c)
      ensures ok <==> old(boxes[c]).topic in old(channels).vals
    {
      ghost var w := View();
      chans := chans[c := chans[c].(timer := Reset(chans[c].timer))];
      chans := chans[c := chans[c].(state := Closed)];
      assert chans == w.chans[c := w.chans[c].(timer := Reset(w.chans[c].timer), state := Closed)];
      ok := RemoveTopic(boxes[c].topic);
      assert View() == Protocol.OnClose(w, c);
    }

    /** `_remove_channel`; false when `del` raises. */
    method RemoveTopic(topic: string) returns (ok: bool)
      requires channels.Wf()
      modifies this`channels
      ensures channels == Remove(old(channels), topic)
      ensures ok <==> topic in old(channels).vals
    {
      ok := topic in channels.vals;
      if ok {
        channels := Remove(channels, topic);
      } else {
        RemoveAbsent(channels, topic);
      }
    }

    method FailChannel(c: nat)
      requires c < |chans|
      modifies this`chans
      ensures chans == old(chans)[c := Fail(old(chans[c]))]
    {
      chans := chans[c := chans[c].(state := Errored)];
      chans := chans[c := chans[c].(timer := Schedule(chans[c].timer))];
    }

    method OnError(c: nat)
      requires Valid() && c < |chans|
      modifies this
      ensures Valid() && View() == Protocol.OnError(old(View()), c)
    {
      if chans[c].state == Leaving || chans[c].state == Closed {
        return;
      }
      FailChannel(c);
      assert View() == Protocol.OnError(old(View()), c);
    }

    // ---------- Callbacks of pushes ----------

    /** The channel's own callback for a successful join: the buffer turns into tasks. */
    method OnJoinOk(c: nat)
      requires Valid() && c < |chans|
      modifies this
      ensures Valid() && View() == RunHook(old(View()), c, JoinOk, [])
    {
      ghost var w := View();
      chans := chans[c := chans[c].(state := Joined)];
      chans := chans[c := chans[c].(timer := Reset(chans[c].timer))];
      var buffer := boxes[c].buffer;
      for i := 0 to |buffer|
        invariant View() == w.(chans := chans, mail := w.mail.(ready := w.mail.ready + SendTasks(buffer[..i])))
        invariant chans == w.chans[c := w.chans[c].(state := Joined, timer := Reset(w.chans[c].timer))]
      {
        ready := ready + [SendPush(buffer[i])];
        assert SendTasks(buffer[..i + 1]) == SendTasks(buffer[..i]) + [SendPush(buffer[i])];
      }
      assert buffer[..|buffer|] == buffer;
      boxes := boxes[c := boxes[c].(buffer := [])];
      assert View() == RunHook(w, c, JoinOk, []);
    }

    method Tell(c: nat, report: Report)
      requires Valid() && c < |chans|
      modifies this`chans
      ensures Valid() && View() == ReportTo(old(View()), c, report)
    {
      chans := chans[c := chans[c].(reports := chans[c].reports + [report])];
      assert View() == ReportTo(old(View()), c, report);
    }

    method SetBindings(c: nat, bs: seq<Bindings.Binding>)
      requires c < |chans|
      modifies this`chans
      ensures chans == old(chans)[c := old(chans[c]).(bindings := bs)]
    {
      chans := chans[c := chans[c].(bindings := bs)];
    }

    /** The loop that matches the registrations with the server's list, writing ids in place. */
    method MatchBindings(c: nat, rows: seq<Bindings.Row>) returns (matched: bool)
      requires c < |chans|
      modifies this`chans
      ensures var o := Bindings.Match(old(chans[c]).bindings, rows);
        chans == old(chans)[c := old(chans[c]).(bindings := o.bindings)] && matched == o.matched
    {
      var newBindings := [];
      ghost var start := chans[c].bindings;
      if rows != [] {
        var i := 0;
        while i < |chans[c].bindings|
          invariant |chans| == |old(chans)| && i <= |chans[c].bindings|
          invariant chans == old(chans)[c := old(chans[c]).(bindings := chans[c].bindings)]
          invariant newBindings == chans[c].bindings[..i]
          invariant Bindings.MatchFrom(chans[c].bindings, rows, i) == Bindings.MatchFrom(start, rows, 0)
          decreases |chans[c].bindings| - i
        {
          var bs := chans[c].bindings;
          if !Bindings.AgreesAt(bs, rows, i) {
            return false;
          }
          SetBindings(c, bs[i := bs[i].(id := Some(rows[i].id))]);
          newBindings := newBindings + [chans[c].bindings[i]];
          i := i + 1;
        }
        assert newBindings == chans[c].bindings;
      }
      SetBindings(c, newBindings);
      matched := true;
    }

    /** `subscribe`'s callback for a successful join. */
    method OnSubscribeOk(c: nat, rows: seq<Bindings.Row>)
      requires Valid() && c < |chans|
      modifies this
      ensures Valid() && View() == RunHook(old(View()), c, SubscribeOk, rows)
    {
      ghost var w := View();
      var matched := MatchBindings(c, rows);
      QueueUnsubscribeKeeps(View().mail, c);
      if matched {
        Tell(c, Subscribed);
      } else {
        ready := ready + [Task.Unsubscribe(c)];
        Tell(c, ChannelError);
      }
      assert View() == RunHook(w, c, SubscribeOk, rows);
    }

    method RunCallback(c: nat, h: Hook, rows: seq<Bindings.Row>)
      requires Valid() && c < |chans| && (h == Close ==> boxes[c].topic in channels.vals)
      modifies this
      ensures Valid() && View() == RunHook(old(View()), c, h, rows)
    {
      ghost var w := View();
      match h {
        case JoinOk =>
          OnJoinOk(c);
          assert RunHook(w, c, JoinOk, rows) == RunHook(w, c, JoinOk, []);
        case JoinTimeout =>
          if chans[c].state == Joining {
            FailChannel(c);
          }
          assert View() == RunHook(w, c, h, rows);
        case SubscribeOk => OnSubscribeOk(c, rows);
        case SubscribeError => Tell(c, ChannelError);
        case SubscribeTimeout => Tell(c, Report.TimedOut);
        case Close =>
          var _ := OnClose(c);
      }
    }

    /** The loop of `trigger`. A closing callback is its push's only one. */
    method RunCallbacks(c: nat, hooks: seq<Hook>, rows: seq<Bindings.Row>)
      requires Valid() && c < |chans|
      requires Close in hooks ==> hooks == [Close] && boxes[c].topic in channels.vals
      modifies this
      ensures Valid() && View() == RunHooks(old(View()), c, hooks, rows)
    {
      for i := 0 to |hooks|
        invariant Valid() && c < |chans| && (Close in hooks && i == 0 ==> boxes[c].topic in channels.vals)
        invariant RunHooks(View(), c, hooks[i..], rows) == RunHooks(old(View()), c, hooks, rows)
      {
        assert hooks[i] in hooks;
        assert hooks[i..][1..] == hooks[i + 1..];
        ghost var w := View();
        RunCallback(c, hooks[i], rows);
        assert RunHooks(View(), c, hooks[i + 1..], rows) == RunHooks(w, c, hooks[i..], rows);
      }
    }

    // ---------- Server messages ----------

    method HandleReply(c: nat, ref: string, ok: bool, rows: seq<Bindings.Row>)
      requires Valid() && c < |chans| && ref in boxes[c].waiting && boxes[c].topic in channels.vals
      modifies this
      ensures Valid() && View() == Protocol.HandleReply(old(View()), c, ref, ok, rows)
    {
      ghost var w := View();
      var resp := if ok then Response(Pushes.Ok, rows) else Response(Error, []);
      ReplyKeeps(w.mail, c, ref, resp);
      var p := boxes[c].waiting[ref];
      assert PushOk(w.mail, p);
      boxes := boxes[c := boxes[c].(waiting := boxes[c].waiting - {ref})];
      pushes := pushes[p := Respond(pushes[p], resp)];
      assert View() == w.(mail := Reply(w.mail, c, ref, resp));
      RunCallbacks(c, if ok then pushes[p].okHooks else pushes[p].errorHooks, resp.rows);
    }

    /** The loop that offers a change to every registered callback. */
    method DispatchChange(c: nat, kind: string, ids: seq<int>)
      requires c < |chans|
      modifies this`chans
      ensures var ch := old(chans[c]);
        chans == old(chans)[c := ch.(fired := ch.fired + Bindings.Dispatch(ch.bindings, kind, ids, |ch.bindings|))]
    {
      var bs := chans[c].bindings;
      assert chans[c].(fired := chans[c].fired + []) == chans[c];
      for i := 0 to |bs|
        invariant |chans| == |old(chans)|
        invariant var ch := old(chans[c]);
          chans == old(chans)[c := ch.(fired := ch.fired + Bindings.Dispatch(bs, kind, ids, i))]
      {
        if Bindings.Fires(bs[i], kind, ids) {
          chans := chans[c := chans[c].(fired := chans[c].fired + [Bindings.Call(i, kind, ids)])];
        }
        assert chans[c].fired == old(chans[c]).fired + Bindings.Dispatch(bs, kind, ids, i + 1);
      }
    }

    /** `_handle_message`; false when an unknown ref makes it raise. */
    method HandleMessage(c: nat, msg: ServerMessage) returns (ok: bool)
      requires Valid() && c < |chans| && boxes[c].topic in channels.vals
      modifies this
      ensures Valid() && View() == Protocol.HandleMessage(old(View()), c, msg)
      ensures ok <==> (msg.ReplyTo? && msg.ref.Some? && msg.ref.value != "" ==> msg.ref.value in old(boxes[c]).waiting)
    {
      ghost var w := View();
      ok := true;
      match msg {
        case ReplyTo(ref, success, rows) =>
          if ref.Some? && ref.value != "" {
            if ref.value in boxes[c].waiting {
              HandleReply(c, ref.value, success, rows);
            } else {
              ok := false;
            }
          }
        case SystemError => OnError(c);
        case PhxError => OnError(c);
        case PhxClose => ok := OnClose(c);
        case Change(kind, ids) =>
          DispatchChange(c, kind, ids);
          assert View() == Protocol.HandleMessage(w, c, msg);
        case Unrelated =>
      }
    }

    /** One message of `_listen`: only the channel registered for its topic sees it. False when handling it raises. */
    method Listen(topic: string, msg: ServerMessage) returns (ok: bool)
      requires Valid()
      modifies this
      ensures Valid() && View() == Deliver(old(View()), topic, msg)
      ensures ok <==> (topic in old(channels).vals && msg.ReplyTo? && msg.ref.Some? && msg.ref.value != ""
                       ==> msg.ref.value in old(boxes[channels.vals[topic]]).waiting)
    {
      ok := true;
      if topic in channels.vals {
        ok := HandleMessage(channels.vals[topic], msg);
      }
    }

    /** A push's timeout task wakes: `trigger`, then the ref stops waiting. */
    method TimeoutWakes(p: nat, i: nat)
      requires Valid() && p < |pushes| && i < |pushes[p].slot.tasks| && pushes[p].slot.tasks[i].Pending?
      modifies this
      ensures Valid() && View() == TimeoutFires(old(View()), p, i)
    {
      ghost var w := View();
      assert PushOk(w.mail, p);
      var c := pushes[p].channel;
      pushes := pushes[p := pushes[p].(slot := pushes[p].slot.Finish(i))];
      pushes := pushes[p := Respond(pushes[p], Response(Timeout, []))];
      assert View() == w.(mail := Expire(w.mail, p, i));
      if pushes[p].kind == Join {
        assert View() == JoinExpired(w, p, i);
        RunCallbacks(c, pushes[p].timeoutHooks, []);
        ForgetJoinKeeps(View().mail, p);
      } else {
        TimeoutKeeps(w.mail, p, i);
      }
      StopAwaiting(p);
      assert View() == TimeoutFires(w, p, i);
    }

    method StopAwaiting(p: nat)
      requires p < |pushes| && pushes[p].channel < |boxes|
      modifies this`boxes
      ensures View() == old(View()).(mail := Forget(old(View().mail), p))
    {
      var c := pushes[p].channel;
      if pushes[p].ref.Some? {
        if pushes[p].ref.value in boxes[c].waiting {
          boxes := boxes[c := boxes[c].(waiting := boxes[c].waiting - {pushes[p].ref.value})];
        } else {
          assert boxes[c].waiting - {pushes[p].ref.value} == boxes[c].waiting;
          assert boxes[c := boxes[c]] == boxes;
        }
      }
    }

    // ---------- User calls ----------

    /** `receive` on the join push. */
    method ReceiveOnJoin(c: nat, status: Ack, h: Hook)
      requires Valid() && c < |chans| && h != Close
      modifies this
      ensures Valid() && View() == Protocol.Receive(old(View()), c, status, h)
    {
      ghost var w := View();
      var j := boxes[c].join;
      assert j == JoinOf(w, c);
      var resp := pushes[j].resp;
      if resp.Some? && resp.value.status == status {
        RunCallback(c, h, resp.value.rows);
      } else {
        match status {
          case Ok => pushes := pushes[j := pushes[j].(okHooks := pushes[j].okHooks + [h])];
          case Error => pushes := pushes[j := pushes[j].(errorHooks := pushes[j].errorHooks + [h])];
          case Timeout => pushes := pushes[j := pushes[j].(timeoutHooks := pushes[j].timeoutHooks + [h])];
        }
        assert View() == Protocol.Receive(w, c, status, h);
      }
    }

    /** `subscribe`; false when it raises. */
    method Subscribe(c: nat, outcomes: seq<bool>) returns (ok: bool)
      requires Valid() && c < |chans|
      modifies this
      ensures Valid() && View() == Protocol.Subscribe(old(View()), c, WillConnect(outcomes))
      ensures ok <==> (old(connected) || WillConnect(outcomes)) && !old(chans[c]).joinedOnce
    {
      if !connected {
        var done, _, _ := Connect(outcomes);
        if !done {
          return false;
        }
      }
      if chans[c].joinedOnce {
        return false;
      }
      chans := chans[c := chans[c].(joinedOnce := true)];
      ReceiveOnJoin(c, Pushes.Ok, SubscribeOk);
      ReceiveOnJoin(c, Error, SubscribeError);
      ReceiveOnJoin(c, Timeout, SubscribeTimeout);
      Rejoin(c);
      ok := true;
    }

    /** `push`; false when it raises. */
    method Push(c: nat) returns (ok: bool)
      requires Valid() && c < |chans|
      modifies this
      ensures Valid() && View() == PushEvent(old(View()), c) && ok == old(chans[c]).joinedOnce
    {
      ghost var w := View();
      if !chans[c].joinedOnce {
        return false;
      }
      var p := |pushes|;
      pushes := pushes + [NewPush(c, User)];
      if connected {
        Send(p);
        assert View() == PushEvent(w, c);
      } else {
        StartTimeout(p);
        pushes := pushes[p := pushes[p].(buffered := true)];
        boxes := boxes[c := boxes[c].(buffer := boxes[c].buffer + [p])];
        assert pushes == w.mail.pushes + [Pushes.StartTimeout(NewPush(c, User)).(buffered := true)];
        assert View() == PushEvent(w, c);
      }
      ok := true;
    }

    /** `channel`: a new channel object, which takes over its topic. */
    method Channel(name: string) returns (c: nat)
      requires Valid()
      modifies this
      ensures Valid() && View() == CreateChannel(old(View()), name) && c == |old(chans)|
    {
      ghost var w := View();
      var topic := "realtime:" + name;
      c := |chans|;
      pushes := pushes + [NewPush(c, Join)];
      boxes := boxes + [Box(topic, |pushes| - 1, map[], [])];
      chans := chans + [NEW_CHAN];
      channels := Put(channels, topic, c);
      assert View() == CreateChannel(w, name);
    }

    method OnPostgresChanges(c: nat, b: Bindings.Binding)
      requires Valid() && c < |chans|
      modifies this
      ensures Valid() && View() == Protocol.OnPostgresChanges(old(View()), c, b)
    {
      ghost var w := View();
      SetBindings(c, chans[c].bindings + [b.(id := None)]);
      assert View() == Protocol.OnPostgresChanges(w, c, b);
    }

    /** `remove_channel` */
    method RemoveChannel(c: nat)
      requires Valid() && c < |chans|
      modifies this
      ensures Valid() && View() == Protocol.RemoveChannel(old(View()), c)
    {
      if boxes[c].topic in channels.vals {
        Unsubscribe(channels.vals[boxes[c].topic]);
      }
      if |channels.keys| == 0 {
        CloseConnection();
      }
    }

    // ---------- The event loop and the connection ----------

    /** The loop starts its oldest created task. */
    method StartTask()
      requires Valid() && ready != []
      modifies this
      ensures Valid() && View() == RunReady(old(View()))
    {
      ghost var w := View();
      assert TaskOk(w.mail, ready[0]);
      var t := ready[0];
      ready := ready[1..];
      match t {
        case SendPush(p) =>
          RunSendKeeps(w.mail);
          Send(p);
        case Unsubscribe(c) =>
          PopTaskKeeps(w.mail);
          Unsubscribe(c);
      }
    }

    /**
     * `connect`, given the outcome of each attempt to open the websocket: which attempts are made,
     * how long it sleeps between them, and whether it ends connected or raises.
     */
    method Connect(outcomes: seq<bool>) returns (ok: bool, attempts: nat, sleeps: seq<real>)
      requires Valid()
      modifies this
      ensures Valid() && View() == Protocol.Connect(old(View()), WillConnect(outcomes))
      ensures ok == connected
      ensures sleeps == Sleeps(initialBackoff, |sleeps|)
      ensures !old(connected) ==> AttemptsMade(outcomes, maxRetries, autoReconnect, attempts, |sleeps|, ok)
    {
      ConnectionKeeps(View().mail, Open(View().mail));
      ok, attempts, sleeps := true, 0, [];
      if connected {
        return;
      }
      var retries := 0;
      var backoff := initialBackoff;
      while retries < maxRetries
        invariant View() == old(View()) && 0 <= retries && attempts == retries && |sleeps| == retries
        invariant retries > 0 ==> autoReconnect && retries < maxRetries
        invariant forall j :: 0 <= j < retries ==> !Succeeds(outcomes, j)
        invariant backoff == BackoffAt(initialBackoff, retries + 1)
        invariant sleeps == Sleeps(initialBackoff, retries)
        decreases maxRetries - retries
      {
        attempts := attempts + 1;
        if Succeeds(outcomes, retries) {
          Flush();
          return;
        }
        retries := retries + 1;
        if retries >= maxRetries || !autoReconnect {
          ok := false;
          assert !WillConnect(outcomes);
          return;
        }
        sleeps := sleeps + [Doubled(backoff, retries - 1)];
        backoff := Min(2.0 * backoff, 60.0);
      }
      ok := false;
    }

    /** The new connection is stored and `_flush_send_buffer` sends what was buffered. */
    method Flush()
      requires !connected
      modifies this`connected, this`wire, this`sendBuffer
      ensures View() == old(View()).(mail := Open(old(View().mail)))
    {
      connected := true;
      for i := 0 to |sendBuffer|
        invariant connected && sendBuffer == old(sendBuffer) && i <= |sendBuffer|
        invariant wire == old(wire) + sendBuffer[..i]
      {
        wire := wire + [sendBuffer[i]];
      }
      assert sendBuffer[..|sendBuffer|] == sendBuffer;
      sendBuffer := [];
    }

    /** `close` */
    method CloseConnection()
      requires Valid()
      modifies this
      ensures Valid() && View() == CloseSocket(old(View()))
    {
      ConnectionKeeps(View().mail, Disconnect(View().mail));
      connected := false;
    }

    /** `_reconnect`; false when `connect` raises. */
    method Reconnect(outcomes: seq<bool>) returns (ok: bool)
      requires Valid()
      modifies this
      ensures Valid() && View() == Protocol.Reconnect(old(View()), WillConnect(outcomes))
      ensures ok <==> WillConnect(outcomes)
    {
      CloseConnection();
      ghost var w := View();
      var attempts, sleeps;
      ok, attempts, sleeps := Connect(outcomes);
      if ok {
        ghost var v := View();
        var topics := channels.keys;
        for n := 0 to |topics|
          invariant Valid() && channels == v.registry
          invariant RejoinAll(View(), topics[n..]) == RejoinAll(v, topics)
        {
          assert topics[n] in topics;
          assert topics[n..][1..] == topics[n + 1..];
          Rejoin(channels.vals[topics[n]]);
        }
      }
    }
  }
}
