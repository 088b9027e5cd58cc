/** When a buffered push leaves its buffer. */
module HeldRuns {
  import opened PyDict
  import opened Pushes
  import opened PushesProofs
  import opened Protocol
  import opened ProtocolLife
  import opened BindingRuns
  import opened SteadyRuns
  import Bindings
  import PushRuns

  lemma QueuedByDrain(m: Mail, c: nat, p: nat)
    requires c < |m.boxes| && p in m.boxes[c].buffer
    ensures Queued(Drain(m, c), p)
  {
    var i :| 0 <= i < |m.boxes[c].buffer| && m.boxes[c].buffer[i] == p;
    assert Drain(m, c).ready[|m.ready| + i] == SendPush(p);
  }

  lemma SubscribeOkQueue(v: World, c: nat, rows: seq<Bindings.Row>, p: nat)
    requires WorldOk(v) && c < |v.chans| && Queued(v.mail, p)
    ensures var r := RunHook(v, c, SubscribeOk, rows).mail; r.boxes == v.mail.boxes && Queued(r, p)
  {
  }

  lemma JoinHookDrains(w: World, c: nat, hooks: seq<Hook>, rows: seq<Bindings.Row>, p: nat)
    requires WorldOk(w) && c < |w.chans| && (hooks == [JoinOk] || hooks == [JoinOk, SubscribeOk])
    requires p in w.mail.boxes[c].buffer
    ensures var r := RunHooks(w, c, hooks, rows).mail; c < |r.boxes| && r.boxes[c].buffer == [] && Queued(r, p)
  {
    var v := RunHook(w, c, JoinOk, rows);
    QueuedByDrain(w.mail, c, p);
    if |hooks| == 1 {
      OneHook(w, c, rows);
    } else {
      TwoHooks(w, c, rows);
      SubscribeOkQueue(v, c, rows, p);
    }
  }

  lemma AcceptedIsRegistered(w: World, e: Event, c: nat)
    requires WorldOk(w) && c < |w.chans| && AcceptsJoin(w, e, c)
    ensures Registered(w, c) && e.topic == Topic(w, c)
    ensures e == Receives(Topic(w, c), ReplyTo(Some(e.msg.ref.value), true, e.msg.rows))
  {
  }

  lemma AcceptedDrains(w: World, e: Event, c: nat, p: nat)
    requires LifeOk(w) && c < |w.chans| && AcceptsJoin(w, e, c) && p in w.mail.boxes[c].buffer
    ensures var r := Step(w, e).mail; c < |r.boxes| && r.boxes[c].buffer == [] && Queued(r, p)
  {
    var ref, resp := e.msg.ref.value, Response(Pushes.Ok, e.msg.rows);
    AcceptedIsRegistered(w, e, c);
    ReplyIsHandled(w, c, ref, true, e.msg.rows);
    ReplyKeeps(w.mail, c, ref, resp);
    assert ChanOk(w, c);
    JoinHookDrains(w.(mail := Reply(w.mail, c, ref, resp)), c, JoinPush(w, c).okHooks, e.msg.rows, p);
  }

  /** A buffered push stays so through an event exactly unless its channel's join is accepted: then it is scheduled. */
  lemma HeldUntilJoinIff(w: World, e: Event, p: nat)
    requires LifeOk(w) && p < |w.mail.pushes| && Held(w.mail, p)
    ensures var c, r := w.mail.pushes[p].channel, Step(w, e).mail;
      && p < |r.pushes|
      && (Held(r, p) <==> !AcceptsJoin(w, e, c))
      && (AcceptsJoin(w, e, c) ==> Queued(r, p))
  {
    var c, r := w.mail.pushes[p].channel, Step(w, e).mail;
    PushRuns.StepEvolves(w, e);
    assert PushRuns.Evolves(w.mail.pushes[p], r.pushes[p]);
    if AcceptsJoin(w, e, c) {
      AcceptedDrains(w, e, c, p);
    } else {
      StepBuffered(w, e, c);
    }
  }

  lemma PushPosts(w: World, c: nat)
    requires WorldOk(w) && c < |w.chans| && w.mail.connected && w.chans[c].joinedOnce
    ensures var r := Step(w, UserPushes(c)).mail; var q := |w.mail.pushes|;
      && r == Post(w.mail, c, User) && Step(w, UserPushes(c)) == PushEvent(w, c)
      && |r.pushes| == q + 1 && r.pushes[q].sent && r.pushes[q].channel == c && r.pushes[q].kind == User
  {
  }

  lemma HeldIsUnsent(m: Mail, c: nat, p: nat)
    requires Inv(m) && c < |m.boxes| && p in m.boxes[c].buffer
    ensures p < |m.pushes| && m.pushes[p].channel == c && !m.pushes[p].sent
  {
    assert BoxOk(m, c);
    var i :| 0 <= i < |m.boxes[c].buffer| && m.boxes[c].buffer[i] == p;
    assert StoredOk(m, c, m.boxes[c].buffer[i]) && PushOk(m, p) && Held(m, p);
  }

  /** No event of the run accepts a join of channel c. */
  ghost predicate NoneAccepted(w: World, events: seq<Event>, c: nat)
    requires WorldOk(w)
    decreases |events|
  {
    events == []
    || (var v := RunFrom(w, events[..|events| - 1]);
        && NoneAccepted(w, events[..|events| - 1], c)
        && (c < |v.mail.boxes| ==> !AcceptsJoin(v, events[|events| - 1], c)))
  }

  /** Through any run without an accepted join a buffered push stays buffered. */
  lemma {:induction false} HeldUntilJoined(w: World, events: seq<Event>, p: nat)
    requires LifeOk(w) && p < |w.mail.pushes| && Held(w.mail, p) && NoneAccepted(w, events, w.mail.pushes[p].channel)
    ensures var r := RunFrom(w, events).mail;
      p < |r.pushes| && r.pushes[p].channel == w.mail.pushes[p].channel && Held(r, p)
    decreases |events|
  {
    if events != [] {
      var v := RunFrom(w, events[..|events| - 1]);
      HeldUntilJoined(w, events[..|events| - 1], p);
      RunFromLife(w, events[..|events| - 1]);
      HeldUntilJoinIff(v, events[|events| - 1], p);
      PushRuns.StepEvolves(v, events[|events| - 1]);
      assert PushRuns.Evolves(v.mail.pushes[p], Step(v, events[|events| - 1]).mail.pushes[p]);
    }
  }

  /** A push made while connected is sent at once, also past older pushes of its channel that are still buffered. */
  lemma LaterPushOvertakes(w: World, c: nat, p: nat)
    requires LifeOk(w) && c < |w.chans| && w.mail.connected && w.chans[c].joinedOnce
    requires p in w.mail.boxes[c].buffer
    ensures var r := Step(w, UserPushes(c)).mail; var q := |w.mail.pushes|;
      && |r.pushes| == q + 1 && r.pushes[q].sent && r.pushes[q].channel == c && r.pushes[q].kind == User
      && p < q && Held(r, p) && !r.pushes[p].sent
  {
    PushPosts(w, c);
    PostTouches(w.mail, c, User);
    HeldIsUnsent(w.mail, c, p);
    PushSteady(w, c, c);
  }
}
