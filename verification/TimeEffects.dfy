/** What the wake of a timeout or timer and the start of a task do to the whole client. */
module TimeEffects {
  import opened PyDict
  import opened Refs
  import opened Timers
  import opened Pushes
  import opened PushesProofs
  import opened Protocol
  import opened ProtocolLife
  import opened Recovery
  import opened MessageEffects
  import opened CallEffects
  import opened StaleRuns
  import Bindings

  // ---------- Timeouts of pushes ----------

  /** Push p, once its i-th timeout task has fired. */
  function Expired(q: Push, i: nat): Push
    requires i < |q.slot.tasks|
  {
    Recorded(q, Response(Timeout, [])).(slot := q.slot.(tasks := q.slot.tasks[i := Finished]))
  }

  /** The ref that the push holds stops waiting; every other entry stays. */
  function Waiting(b: Box, ref: Option<string>): Box {
    if ref.Some? then b.(waiting := b.waiting - {ref.value}) else b
  }

  /** A push that is not a join: the timeout is recorded, its ref stops waiting, and nothing else changes. */
  lemma PushTimeoutEffect(w: World, p: nat, i: nat)
    requires WorldOk(w) && TimeoutPending(w, p, i) && w.mail.pushes[p].kind != Join
    ensures w.mail.pushes[p].channel < |w.mail.boxes|
    ensures var q, m := w.mail.pushes[p], w.mail;
      Step(w, PushTimesOut(p, i)) == w.(mail := m.(
        pushes := m.pushes[p := Expired(q, i)],
        boxes := m.boxes[q.channel := Waiting(m.boxes[q.channel], q.ref)]))
  {
    assert PushOk(w.mail, p);
    TimeoutKeeps(w.mail, p, i);
    var c := w.mail.pushes[p].channel;
    assert w.mail.boxes[c := w.mail.boxes[c]] == w.mail.boxes;
  }

  /** What a join timeout does to its channel: in error if it was joining, and the report that `subscribe` asked for. */
  ghost predicate ChanTimedOut(ch: Chan, r: Chan, told: bool) {
    && r == ch.(state := r.state, timer := r.timer, reports := ch.reports + if told then [Report.TimedOut] else [])
    && if ch.state == Joining then r.state == Errored && Rescheduled(ch.timer, r.timer)
       else r.state == ch.state && r.timer == ch.timer
  }

  lemma TimeoutHooks(v: World, c: nat, hooks: seq<Hook>)
    requires WorldOk(v) && c < |v.chans| && v.chans[c].timer.slot.Ok()
    requires hooks == [JoinTimeout] || hooks == [JoinTimeout, SubscribeTimeout]
    ensures var r := RunHooks(v, c, hooks, []);
      && |r.chans| == |v.chans| && r == v.(chans := v.chans[c := r.chans[c]])
      && ChanTimedOut(v.chans[c], r.chans[c], SubscribeTimeout in hooks)
  {
    var u := RunHook(v, c, JoinTimeout, []);
    ScheduleOk(v.chans[c].timer);
    assert v.chans[c].reports + [] == v.chans[c].reports;
    assert RunHooks(v, c, hooks, []) == RunHooks(u, c, hooks[1..], []);
    if |hooks| == 2 {
      assert hooks[1..][0] == SubscribeTimeout && hooks[1..][1..] == [];
      assert RunHooks(u, c, hooks[1..], []) == RunHooks(RunHook(u, c, SubscribeTimeout, []), c, [], []);
    }
  }

  lemma ForgottenEffect(u: World, p: nat)
    requires WorldOk(u) && p < |u.mail.pushes| && u.mail.pushes[p].kind == Join
    ensures u.mail.pushes[p].channel < |u.mail.boxes|
    ensures var q, m := u.mail.pushes[p], u.mail;
      JoinForgotten(u, p) == u.(mail := m.(boxes := m.boxes[q.channel := Waiting(m.boxes[q.channel], q.ref)]))
  {
    ForgetJoinKeeps(u.mail, p);
    var c := u.mail.pushes[p].channel;
    assert u.mail.boxes[c := u.mail.boxes[c]] == u.mail.boxes;
  }

  /** A join: besides, a joining channel is in error and will be rejoined, and the timeout is reported if asked for. */
  lemma JoinTimeoutEffect(w: World, c: nat, i: nat)
    requires LifeOk(w) && c < |w.chans| && TimeoutPending(w, JoinOf(w, c), i)
    ensures var j, q, m, r := JoinOf(w, c), JoinPush(w, c), w.mail, Step(w, PushTimesOut(JoinOf(w, c), i));
      && r.registry == w.registry && |r.chans| == |w.chans| && r.chans == w.chans[c := r.chans[c]]
      && ChanTimedOut(w.chans[c], r.chans[c], SubscribeTimeout in q.timeoutHooks)
      && r.mail == m.(pushes := m.pushes[j := Expired(q, i)], boxes := m.boxes[c := Waiting(m.boxes[c], q.ref)])
  {
    var j := JoinOf(w, c);
    assert ChanOk(w, c);
    var v := JoinExpired(w, j, i);
    TimeoutHooks(v, c, JoinPush(w, c).timeoutHooks);
    ForgottenEffect(RunHooks(v, c, JoinPush(w, c).timeoutHooks, []), j);
  }

  /** Hence a reply to a join that comes after its timeout changes nothing, at any later time. */
  lemma LateJoinReplyIgnored(w: World, c: nat, i: nat, more: seq<Event>, ok: bool, rows: seq<Bindings.Row>)
    requires LifeOk(w) && c < |w.chans| && TimeoutPending(w, JoinOf(w, c), i) && JoinPush(w, c).ref.Some?
    ensures var v := RunFrom(Step(w, PushTimesOut(JoinOf(w, c), i)), more);
      && c < |v.chans| && JoinPush(w, c).ref.value !in v.mail.boxes[c].waiting
      && (Registered(v, c) ==> Step(v, Receives(Topic(v, c), ReplyTo(JoinPush(w, c).ref, ok, rows))) == v)
  {
    var j := JoinOf(w, c);
    TimedOutIsDead(w, j, i);
    DeadStaysDead(TimeoutFires(w, j, i), more, c, JoinPush(w, c).ref.value, ok, rows);
  }

  // ---------- The rejoin timer ----------

  /** From w, with timer t on channel c, to r: by a rejoin while connected, else as it is. */
  ghost predicate WakesInto(w: World, r: World, c: nat, t: Timer)
    requires WorldOk(w) && c < |w.chans|
  {
    var v := w.(chans := w.chans[c := w.chans[c].(timer := t)]);
    r == if w.mail.connected then Rejoin(v, c) else v
  }

  /** A timer that wakes is scheduled again, with one more try, and while connected the channel rejoins. */
  lemma TimerWakeEffect(w: World, c: nat)
    requires LifeOk(w) && c < |w.chans| && w.chans[c].timer.slot.IsPending()
    ensures exists t :: Rescheduled(w.chans[c].timer, t) && WakesInto(w, Step(w, TimerWake(w, c)), c, t)
  {
    assert ChanOk(w, c);
    var ch, i := w.chans[c], w.chans[c].timer.slot.current.value;
    FireOk(ch.timer, i);
    ScheduleOk(Fire(ch.timer, i));
    var u := w.(chans := w.chans[c := ch.(timer := Fire(ch.timer, i))]);
    var v := w.(chans := w.chans[c := ch.(timer := Schedule(Fire(ch.timer, i)))]);
    assert u.chans[c := u.chans[c].(timer := Schedule(u.chans[c].timer))] == v.chans;
    assert Step(w, TimerWake(w, c)) == RejoinUntilConnected(u, c);
    var t := Schedule(Fire(ch.timer, i));
    assert Rescheduled(ch.timer, t) && WakesInto(w, Step(w, TimerWake(w, c)), c, t);
  }

  // ---------- Tasks ----------

  /** A scheduled send: dropped after a timeout, else sent under the next ref; it leaves the queue, and that is all. */
  lemma SendTaskEffect(w: World, p: nat)
    requires WorldOk(w) && w.mail.ready != [] && w.mail.ready[0] == SendPush(p)
    ensures p < |w.mail.pushes| && w.mail.pushes[p].channel < |w.mail.boxes|
    ensures var m, q, r := w.mail, w.mail.pushes[p], Step(w, TaskStarts);
      var b, ref := m.boxes[q.channel], Decimal(m.ref + 1);
      && r == w.(mail := r.mail) && r.mail.ready == m.ready[1..]
      && if q.TimedOut() then r.mail == m.(ready := m.ready[1..])
         else
           && Asks(m, r.mail, Message(b.topic, User, ref, p))
           && r.mail.pushes == m.pushes[p := q.(ref := Some(ref), sent := true)]
           && r.mail.boxes == m.boxes[q.channel := b.(waiting := b.waiting[ref := p])]
  {
    assert TaskOk(w.mail, w.mail.ready[0]) && PushOk(w.mail, p);
    RunSendKeeps(w.mail);
  }

  /** A scheduled leave is the channel's `unsubscribe`. */
  lemma LeaveTaskEffect(w: World, c: nat)
    requires LifeOk(w) && w.mail.ready != [] && w.mail.ready[0] == Unsubscribe(c)
    ensures c < |w.chans| && Inv(PopTask(w.mail))
    ensures LeavesNow(w.(mail := w.mail.(ready := w.mail.ready[1..])), Step(w, TaskStarts), c)
  {
    assert TaskOk(w.mail, w.mail.ready[0]);
    PopTaskKeeps(w.mail);
    MailLife(w, PopTask(w.mail), -1);
    UnsubEffect(w.(mail := PopTask(w.mail)), c);
  }
}
