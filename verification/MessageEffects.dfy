/** What each server message does to the whole client: what changes, and that nothing else does. */
module MessageEffects {
  import opened PyDict
  import opened Timers
  import opened Pushes
  import opened PushesProofs
  import opened Protocol
  import opened ProtocolLife
  import opened BindingRuns
  import Bindings

  /** Only channel c's own fields have changed, to ch. */
  predicate OnlyChan(w: World, r: World, c: nat, ch: Chan)
    requires c < |w.chans|
  {
    r == w.(chans := w.chans[c := ch])
  }

  // ---------- Errors and closes ----------

  predicate IsError(msg: ServerMessage) {
    msg.PhxError? || msg.SystemError?
  }

  /** A timer that was scheduled once more: pending, with one more try. */
  ghost predicate Rescheduled(t: Timer, t': Timer) {
    t'.slot.IsPending() && t'.tries == t.tries + 1
  }

  /** A server error is ignored by a leaving or closed channel; any other one is in error, to be rejoined. */
  lemma ErrorEffect(w: World, c: nat, msg: ServerMessage)
    requires LifeOk(w) && c < |w.chans| && Registered(w, c) && IsError(msg)
    ensures var ch, r := w.chans[c], Step(w, Receives(Topic(w, c), msg));
      if ch.state == Leaving || ch.state == Closed then r == w
      else
        && |r.chans| == |w.chans| && OnlyChan(w, r, c, ch.(state := Errored, timer := r.chans[c].timer))
        && Rescheduled(ch.timer, r.chans[c].timer)
  {
    assert ChanOk(w, c);
    ScheduleOk(w.chans[c].timer);
  }

  /** A close by the server closes and unregisters the channel, whatever its state, and stops its timer. */
  lemma CloseEffect(w: World, c: nat)
    requires LifeOk(w) && c < |w.chans| && Registered(w, c)
    ensures var ch, r := w.chans[c], Step(w, Receives(Topic(w, c), PhxClose));
      && |r.chans| == |w.chans| && !r.chans[c].timer.slot.IsPending() && r.chans[c].timer.tries == 0
      && r.chans == w.chans[c := ch.(state := Closed, timer := r.chans[c].timer)]
      && r.mail == w.mail && r.registry.vals == w.registry.vals - {Topic(w, c)}
  {
    assert ChanOk(w, c);
    ResetOk(w.chans[c].timer);
  }

  // ---------- Messages that change nothing, and changes ----------

  /** A message for no registered topic, one of no concern, and a reply to a ref that does not wait there. */
  predicate Ignored(w: World, topic: string, msg: ServerMessage)
    requires forall t :: t in w.registry.vals ==> w.registry.vals[t] < |w.mail.boxes|
  {
    || topic !in w.registry.vals || msg.Unrelated?
    || (msg.ReplyTo? && (msg.ref.None? || msg.ref.value !in w.mail.boxes[w.registry.vals[topic]].waiting))
  }

  lemma IgnoredEffect(w: World, topic: string, msg: ServerMessage)
    requires WorldOk(w) && Ignored(w, topic, msg)
    ensures Step(w, Receives(topic, msg)) == w
  {
  }

  /**
   * A change makes one call for each registration that has a non-zero id which is listed and whose event matches,
   * in list order, and does nothing else.
   */
  lemma ChangeEffect(w: World, c: nat, kind: string, ids: seq<int>)
    requires WorldOk(w) && c < |w.chans| && Registered(w, c)
    ensures var ch, r := w.chans[c], Step(w, Receives(Topic(w, c), Change(kind, ids)));
      && |r.chans| == |w.chans| && ch.fired <= r.chans[c].fired
      && OnlyChan(w, r, c, ch.(fired := r.chans[c].fired))
      && CallsExactly(r.chans[c].fired[|ch.fired|..], ch.bindings, kind, ids)
  {
    var ch := w.chans[c];
    var calls := Bindings.Dispatch(ch.bindings, kind, ids, |ch.bindings|);
    Bindings.DispatchIff(ch.bindings, kind, ids, |ch.bindings|);
    assert (ch.fired + calls)[|ch.fired|..] == calls;
  }

  ghost predicate CallsExactly(calls: seq<Bindings.Call>, bs: seq<Bindings.Binding>, kind: string, ids: seq<int>) {
    && (forall i :: 0 <= i < |bs| ==>
          (Bindings.Call(i, kind, ids) in calls
           <==> bs[i].id.Some? && bs[i].id.value != 0 && bs[i].id.value in ids
                && (bs[i].event == kind || bs[i].event == "*")))
    && (forall k :: k in calls ==> k.position < |bs| && k == Bindings.Call(k.position, kind, ids))
    && (forall j, j' :: 0 <= j < j' < |calls| ==> calls[j].position < calls[j'].position)
  }

  // ---------- Replies ----------

  function Recorded(q: Push, resp: Response): Push {
    q.(resp := Some(resp), delivered := q.delivered + [resp.status])
  }

  /** Push p of channel c was given the response and the ref stopped waiting; nothing else of the mail changed. */
  predicate TakesReply(m: Mail, n: Mail, c: nat, ref: string, p: nat, resp: Response)
    requires c < |m.boxes| && p < |m.pushes|
  {
    && n.pushes == m.pushes[p := Recorded(m.pushes[p], resp)]
    && n.boxes == m.boxes[c := m.boxes[c].(waiting := m.boxes[c].waiting - {ref})]
    && n == m.(pushes := n.pushes, boxes := n.boxes)
  }

  function ReplyResponse(ok: bool, rows: seq<Bindings.Row>): Response {
    if ok then Response(Pushes.Ok, rows) else Response(Error, [])
  }

  /** A reply to a user's push is recorded on it, and does nothing else. */
  lemma UserReplyEffect(w: World, c: nat, ref: string, ok: bool, rows: seq<Bindings.Row>)
    requires WorldOk(w) && c < |w.chans| && Registered(w, c) && ref in w.mail.boxes[c].waiting
    requires w.mail.boxes[c].waiting[ref] < |w.mail.pushes| && w.mail.pushes[w.mail.boxes[c].waiting[ref]].kind == User
    ensures var r := Step(w, Receives(Topic(w, c), ReplyTo(Some(ref), ok, rows)));
      && r == w.(mail := r.mail)
      && TakesReply(w.mail, r.mail, c, ref, w.mail.boxes[c].waiting[ref], ReplyResponse(ok, rows))
  {
    assert PushOk(w.mail, w.mail.boxes[c].waiting[ref]);
    ReplyIsHandled(w, c, ref, ok, rows);
  }

  lemma ClosingHooks(v: World, c: nat, rows: seq<Bindings.Row>)
    requires WorldOk(v) && c < |v.chans|
    ensures RunHooks(v, c, [Close], rows) == OnClose(v, c)
  {
    assert [Close][1..] == [];
    assert RunHooks(v, c, [Close], rows) == RunHooks(OnClose(v, c), c, [], rows);
  }

  lemma LeaveReplyCloses(w: World, c: nat, ref: string, ok: bool, rows: seq<Bindings.Row>)
    requires WorldOk(w) && c < |w.chans| && Registered(w, c) && ref in w.mail.boxes[c].waiting
    requires w.mail.boxes[c].waiting[ref] < |w.mail.pushes| && w.mail.pushes[w.mail.boxes[c].waiting[ref]].kind == Leave
    ensures Inv(Reply(w.mail, c, ref, ReplyResponse(ok, rows)))
    ensures HandleReply(w, c, ref, ok, rows)
      == OnClose(w.(mail := Reply(w.mail, c, ref, ReplyResponse(ok, rows))), c)
  {
    var p, resp := w.mail.boxes[c].waiting[ref], ReplyResponse(ok, rows);
    assert PushOk(w.mail, p);
    ReplyKeeps(w.mail, c, ref, resp);
    ClosingHooks(w.(mail := Reply(w.mail, c, ref, resp)), c, resp.rows);
  }

  lemma ClosedChan(w: World, c: nat)
    requires LifeOk(w) && c < |w.chans|
    ensures !Reset(w.chans[c].timer).slot.IsPending() && Reset(w.chans[c].timer).tries == 0
  {
    assert ChanOk(w, c);
    ResetOk(w.chans[c].timer);
  }

  /** A reply to a leave, whatever its status, closes and unregisters the channel, and does nothing else. */
  lemma LeaveReplyEffect(w: World, c: nat, ref: string, ok: bool, rows: seq<Bindings.Row>)
    requires LifeOk(w) && c < |w.chans| && Registered(w, c) && ref in w.mail.boxes[c].waiting
    requires w.mail.boxes[c].waiting[ref] < |w.mail.pushes| && w.mail.pushes[w.mail.boxes[c].waiting[ref]].kind == Leave
    ensures var ch, r := w.chans[c], Step(w, Receives(Topic(w, c), ReplyTo(Some(ref), ok, rows)));
      && |r.chans| == |w.chans| && !r.chans[c].timer.slot.IsPending() && r.chans[c].timer.tries == 0
      && r.chans == w.chans[c := ch.(state := Closed, timer := r.chans[c].timer)]
      && r.registry.vals == w.registry.vals - {Topic(w, c)}
      && TakesReply(w.mail, r.mail, c, ref, w.mail.boxes[c].waiting[ref], ReplyResponse(ok, rows))
  {
    ReplyIsHandled(w, c, ref, ok, rows);
    LeaveReplyCloses(w, c, ref, ok, rows);
    ClosedChan(w, c);
  }

  function Told(ch: Chan, news: seq<Report>): Chan {
    ch.(reports := ch.reports + news)
  }

  lemma ToldNothing(w: World, c: nat)
    requires c < |w.chans|
    ensures w.chans[c := Told(w.chans[c], [])] == w.chans
  {
    assert Told(w.chans[c], []) == w.chans[c];
  }

  lemma ErrorHooks(v: World, c: nat, hooks: seq<Hook>)
    requires WorldOk(v) && c < |v.chans| && (hooks == [] || hooks == [SubscribeError])
    ensures RunHooks(v, c, hooks, []) == if hooks == [] then v else ReportTo(v, c, ChannelError)
  {
    if hooks != [] {
      assert hooks[1..] == [];
      assert RunHooks(v, c, hooks, []) == RunHooks(RunHook(v, c, SubscribeError, []), c, [], []);
    }
  }

  /** A refused join is recorded, and reported if `subscribe` registered its callback for errors; that is all. */
  lemma RefusedJoinEffect(w: World, c: nat, ref: string, rows: seq<Bindings.Row>)
    requires LifeOk(w) && c < |w.chans| && Registered(w, c)
    requires ref in w.mail.boxes[c].waiting && w.mail.boxes[c].waiting[ref] == JoinOf(w, c)
    ensures var ch, q, r := w.chans[c], JoinPush(w, c), Step(w, Receives(Topic(w, c), ReplyTo(Some(ref), false, rows)));
      && TakesReply(w.mail, r.mail, c, ref, JoinOf(w, c), Response(Error, [])) && r.registry == w.registry
      && r.chans == w.chans[c := Told(ch, if SubscribeError in q.errorHooks then [ChannelError] else [])]
  {
    var resp := Response(Error, []);
    assert ChanOk(w, c);
    ReplyKeeps(w.mail, c, ref, resp);
    ErrorHooks(w.(mail := Reply(w.mail, c, ref, resp)), c, JoinPush(w, c).errorHooks);
    ReplyIsHandled(w, c, ref, false, rows);
    ToldNothing(w, c);
  }

  /** What an accepted join does to its channel; heard says whether `subscribe`'s callback for it is registered. */
  function AcceptedChan(ch: Chan, heard: bool, rows: seq<Bindings.Row>): Chan {
    var joined := ch.(state := Joined, timer := Reset(ch.timer));
    if !heard then joined
    else
      var o := Bindings.Match(ch.bindings, rows);
      joined.(bindings := o.bindings, reports := ch.reports + [if o.matched then Subscribed else ChannelError])
  }

  /** What it schedules: one send per buffered push in order, and a leave when the bindings do not match. */
  function AcceptedTasks(w: World, c: nat, heard: bool, rows: seq<Bindings.Row>): seq<Task>
    requires c < |w.chans| && c < |w.mail.boxes|
  {
    SendTasks(w.mail.boxes[c].buffer)
    + if heard && !Bindings.Match(w.chans[c].bindings, rows).matched then [Unsubscribe(c)] else []
  }

  lemma AcceptingHooks(v: World, c: nat, hooks: seq<Hook>, rows: seq<Bindings.Row>)
    requires WorldOk(v) && c < |v.chans| && (hooks == [JoinOk] || hooks == [JoinOk, SubscribeOk])
    ensures var heard, b := SubscribeOk in hooks, v.mail.boxes[c];
      RunHooks(v, c, hooks, rows) == v.(
        chans := v.chans[c := AcceptedChan(v.chans[c], heard, rows)],
        mail := v.mail.(boxes := v.mail.boxes[c := b.(buffer := [])],
                        ready := v.mail.ready + AcceptedTasks(v, c, heard, rows)))
  {
    if |hooks| == 1 {
      OneHook(v, c, rows);
    } else {
      TwoHooks(v, c, rows);
    }
  }

  /** Recorded, the ref answered, the buffer emptied into tasks, the channel joined: and nothing else. */
  lemma AcceptedJoinEffect(w: World, c: nat, ref: string, rows: seq<Bindings.Row>)
    requires LifeOk(w) && c < |w.chans| && Registered(w, c)
    requires ref in w.mail.boxes[c].waiting && w.mail.boxes[c].waiting[ref] == JoinOf(w, c)
    ensures var r, heard := Step(w, JoinAnswer(w, c, ref, rows)), SubscribeOk in JoinPush(w, c).okHooks;
      var b, q := w.mail.boxes[c], JoinPush(w, c);
      && r.registry == w.registry && r.chans == w.chans[c := AcceptedChan(w.chans[c], heard, rows)]
      && r.mail == w.mail.(
           boxes := w.mail.boxes[c := b.(waiting := b.waiting - {ref}, buffer := [])],
           pushes := w.mail.pushes[JoinOf(w, c) := Recorded(q, Response(Pushes.Ok, rows))],
           ready := w.mail.ready + AcceptedTasks(w, c, heard, rows))
  {
    var resp := Response(Pushes.Ok, rows);
    assert ChanOk(w, c);
    ReplyKeeps(w.mail, c, ref, resp);
    ReplyIsHandled(w, c, ref, true, rows);
    AcceptingHooks(w.(mail := Reply(w.mail, c, ref, resp)), c, JoinPush(w, c).okHooks, rows);
  }
}
