/**
 * The client and its channels as one state machine. Each function is one
 * handler of the source run to completion; a step is one handler.
 */
module Protocol {
  import opened PyDict
  import opened Timers
  import opened Pushes
  import opened PushesProofs
  import Bindings

  datatype ChannelState = Closed | Joining | Joined | Errored | Leaving

  /** What the user's `subscribe` callback is told. */
  datatype Report = Subscribed | ChannelError | TimedOut

  /** The fields of a channel that are not about messages; those are in its Box. */
  datatype Chan = Chan(
    state: ChannelState, timer: Timer, joinedOnce: bool,
    bindings: seq<Bindings.Binding>,
    reports: seq<Report>,         // calls of the subscribe callback, oldest first
    fired: seq<Bindings.Call>)    // calls of Postgres change callbacks, oldest first

  datatype World = World(mail: Mail, chans: seq<Chan>, registry: Dict<nat>)

  ghost predicate WorldOk(w: World) {
    && Inv(w.mail) && |w.chans| == |w.mail.boxes| && w.registry.Wf()
    && forall t :: t in w.registry.vals ==>
         w.registry.vals[t] < |w.chans| && w.mail.boxes[w.registry.vals[t]].topic == t
  }

  function Topic(w: World, c: nat): string
    requires c < |w.mail.boxes|
  {
    w.mail.boxes[c].topic
  }

  predicate Registered(w: World, c: nat)
    requires c < |w.mail.boxes|
  {
    Topic(w, c) in w.registry.vals && w.registry.vals[Topic(w, c)] == c
  }

  /** The index of a channel's join push. */
  function JoinOf(w: World, c: nat): (p: nat)
    requires WorldOk(w) && c < |w.chans|
    ensures p < |w.mail.pushes| && w.mail.pushes[p].channel == c && w.mail.pushes[p].kind == Join
    ensures PushOk(w.mail, p)
  {
    assert BoxOk(w.mail, c);
    w.mail.boxes[c].join
  }

  // ---------- Handlers ----------

  function OnClose(w: World, c: nat): (r: World)
    requires WorldOk(w) && c < |w.chans|
    ensures WorldOk(r)
  {
    var ch := w.chans[c];
    w.(chans := w.chans[c := ch.(timer := Reset(ch.timer), state := Closed)],
       registry := Remove(w.registry, Topic(w, c)))
  }

  function Fail(ch: Chan): Chan {
    ch.(state := Errored, timer := Schedule(ch.timer))
  }

  function OnError(w: World, c: nat): (r: World)
    requires WorldOk(w) && c < |w.chans|
    ensures WorldOk(r)
  {
    var ch := w.chans[c];
    if ch.state == Leaving || ch.state == Closed then w else w.(chans := w.chans[c := Fail(ch)])
  }

  function Unsub(w: World, c: nat): (r: World)
    requires WorldOk(w) && c < |w.chans|
    ensures WorldOk(r)
  {
    var ch, j := w.chans[c], JoinOf(w, c);
    DestroyKeeps(w.mail, j);
    PostKeeps(Destroy(w.mail, j), c, Leave);
    w.(chans := w.chans[c := ch.(state := Leaving, timer := Reset(ch.timer))],
       mail := Post(Destroy(w.mail, j), c, Leave))
  }

  /** Any joined or joining channel registered for the topic is made to leave. */
  function LeaveOpenTopic(w: World, topic: string): (r: World)
    requires WorldOk(w)
    ensures WorldOk(r)
  {
    if topic in w.registry.vals && w.chans[w.registry.vals[topic]].state in {Joined, Joining}
    then Unsub(w, w.registry.vals[topic])
    else w
  }

  /** The second half of `_rejoin`: the join push is sent again. */
  function Rejoined(w: World, c: nat): (r: World)
    requires WorldOk(w) && c < |w.chans|
    ensures WorldOk(r)
  {
    ResendKeeps(w.mail, JoinOf(w, c));
    w.(chans := w.chans[c := w.chans[c].(state := Joining)], mail := Resend(w.mail, JoinOf(w, c)))
  }

  function Rejoin(w: World, c: nat): (r: World)
    requires WorldOk(w) && c < |w.chans|
    ensures WorldOk(r) && |r.chans| == |w.chans| && r.registry == w.registry
  {
    if w.chans[c].state == Leaving then w
    else Rejoined(LeaveOpenTopic(w, Topic(w, c)), c)
  }

  function RejoinUntilConnected(w: World, c: nat): (r: World)
    requires WorldOk(w) && c < |w.chans|
    ensures WorldOk(r)
  {
    var ch := w.chans[c];
    var w := w.(chans := w.chans[c := ch.(timer := Schedule(ch.timer))]);
    if w.mail.connected then Rejoin(w, c) else w
  }

  function ReportTo(w: World, c: nat, report: Report): (r: World)
    requires WorldOk(w) && c < |w.chans|
    ensures WorldOk(r)
  {
    var ch := w.chans[c];
    w.(chans := w.chans[c := ch.(reports := ch.reports + [report])])
  }

  /** One library callback of a push of channel c. */
  function RunHook(w: World, c: nat, h: Hook, rows: seq<Bindings.Row>): (r: World)
    requires WorldOk(w) && c < |w.chans|
    ensures WorldOk(r) && |r.chans| == |w.chans| && r.mail.pushes == w.mail.pushes
  {
    var ch := w.chans[c];
    match h
    case JoinOk =>
      DrainKeeps(w.mail, c);
      w.(chans := w.chans[c := ch.(state := Joined, timer := Reset(ch.timer))], mail := Drain(w.mail, c))
    case JoinTimeout =>
      if ch.state == Joining then w.(chans := w.chans[c := Fail(ch)]) else w
    case SubscribeOk =>
      var o := Bindings.Match(ch.bindings, rows);
      var w := w.(chans := w.chans[c := ch.(bindings := o.bindings)]);
      QueueUnsubscribeKeeps(w.mail, c);
      if o.matched then ReportTo(w, c, Subscribed)
      else ReportTo(w.(mail := QueueUnsubscribe(w.mail, c)), c, ChannelError)
    case SubscribeError => ReportTo(w, c, ChannelError)
    case SubscribeTimeout => ReportTo(w, c, TimedOut)
    case Close => OnClose(w, c)
  }

  function RunHooks(w: World, c: nat, hooks: seq<Hook>, rows: seq<Bindings.Row>): (r: World)
    requires WorldOk(w) && c < |w.chans|
    ensures WorldOk(r) && |r.chans| == |w.chans| && r.mail.pushes == w.mail.pushes
    decreases |hooks|
  {
    if hooks == [] then w else RunHooks(RunHook(w, c, hooks[0], rows), c, hooks[1..], rows)
  }

  datatype ServerMessage =
    | ReplyTo(ref: Option<string>, ok: bool, rows: seq<Bindings.Row>)
    | SystemError
    | PhxError
    | PhxClose
    | Change(kind: string, ids: seq<int>)
    | Unrelated    // heartbeats, broadcasts, presence, successful system messages

  function HandleReply(w: World, c: nat, ref: string, ok: bool, rows: seq<Bindings.Row>): (r: World)
    requires WorldOk(w) && c < |w.chans| && ref in w.mail.boxes[c].waiting
    ensures WorldOk(r)
  {
    var resp := if ok then Response(Pushes.Ok, rows) else Response(Error, []);
    ReplyKeeps(w.mail, c, ref, resp);
    var q := w.mail.pushes[w.mail.boxes[c].waiting[ref]];
    RunHooks(w.(mail := Reply(w.mail, c, ref, resp)), c, if ok then q.okHooks else q.errorHooks, resp.rows)
  }

  /** `_handle_message`; a reply to a ref that is not waiting raises before changing anything. */
  function HandleMessage(w: World, c: nat, msg: ServerMessage): (r: World)
    requires WorldOk(w) && c < |w.chans|
    ensures WorldOk(r)
  {
    match msg
    case ReplyTo(ref, ok, rows) =>
      if ref.Some? && ref.value != "" && ref.value in w.mail.boxes[c].waiting
      then HandleReply(w, c, ref.value, ok, rows) else w
    case SystemError => OnError(w, c)
    case PhxError => OnError(w, c)
    case PhxClose => OnClose(w, c)
    case Change(kind, ids) =>
      var ch := w.chans[c];
      w.(chans := w.chans[c := ch.(fired := ch.fired + Bindings.Dispatch(ch.bindings, kind, ids, |ch.bindings|))])
    case Unrelated => w
  }

  /** The listener's dispatch by topic. */
  function Deliver(w: World, topic: string, msg: ServerMessage): (r: World)
    requires WorldOk(w)
    ensures WorldOk(r)
  {
    if topic in w.registry.vals then HandleMessage(w, w.registry.vals[topic], msg) else w
  }

  /** `receive` on a join push: a status already given calls back at once. */
  function Receive(w: World, c: nat, status: Ack, h: Hook): (r: World)
    requires WorldOk(w) && c < |w.chans| && h != Close
    ensures WorldOk(r) && |r.chans| == |w.chans|
  {
    var j := JoinOf(w, c);
    var resp := w.mail.pushes[j].resp;
    AddHookKeeps(w.mail, j, status, h);
    if resp.Some? && resp.value.status == status then RunHook(w, c, h, resp.value.rows)
    else w.(mail := AddHook(w.mail, j, status, h))
  }

  /** `connect`, told whether some allowed attempt succeeds. */
  function Connect(w: World, succeeds: bool): (r: World)
    requires WorldOk(w)
    ensures WorldOk(r) && r.chans == w.chans && r.registry == w.registry
  {
    ConnectionKeeps(w.mail, Open(w.mail));
    if !w.mail.connected && succeeds then w.(mail := Open(w.mail)) else w
  }

  function CloseSocket(w: World): (r: World)
    requires WorldOk(w)
    ensures WorldOk(r) && r.chans == w.chans && r.registry == w.registry
  {
    ConnectionKeeps(w.mail, Disconnect(w.mail));
    w.(mail := Disconnect(w.mail))
  }

  /** `subscribe` marks the channel and registers its three callbacks on the join push. */
  function RegisterCallbacks(w: World, c: nat): (r: World)
    requires WorldOk(w) && c < |w.chans|
    ensures WorldOk(r) && |r.chans| == |w.chans|
  {
    var w := w.(chans := w.chans[c := w.chans[c].(joinedOnce := true)]);
    var w := Receive(w, c, Pushes.Ok, SubscribeOk);
    var w := Receive(w, c, Error, SubscribeError);
    Receive(w, c, Timeout, SubscribeTimeout)
  }

  /** `subscribe`: raises when the connection fails or when called a second time. */
  function Subscribe(w: World, c: nat, succeeds: bool): (r: World)
    requires WorldOk(w) && c < |w.chans|
    ensures WorldOk(r)
  {
    var w := Connect(w, succeeds);
    if !w.mail.connected || w.chans[c].joinedOnce then w
    else Rejoin(RegisterCallbacks(w, c), c)
  }

  /** `push`: raises before the first `subscribe`. */
  function PushEvent(w: World, c: nat): (r: World)
    requires WorldOk(w) && c < |w.chans|
    ensures WorldOk(r)
  {
    PostKeeps(w.mail, c, User);
    HoldKeeps(w.mail, c);
    if !w.chans[c].joinedOnce then w
    else w.(mail := if w.mail.connected then Post(w.mail, c, User) else Hold(w.mail, c))
  }

  const NEW_CHAN := Chan(Closed, NEW_TIMER, false, [], [], [])

  /** The client's `channel`: a new object takes over the topic. */
  function CreateChannel(w: World, name: string): (r: World)
    requires WorldOk(w)
    ensures WorldOk(r)
  {
    var topic := "realtime:" + name;
    AddBoxKeeps(w.mail, topic);
    World(AddBox(w.mail, topic), w.chans + [NEW_CHAN], Put(w.registry, topic, |w.chans|))
  }

  function OnPostgresChanges(w: World, c: nat, b: Bindings.Binding): (r: World)
    requires WorldOk(w) && c < |w.chans|
    ensures WorldOk(r)
  {
    var ch := w.chans[c];
    w.(chans := w.chans[c := ch.(bindings := ch.bindings + [b.(id := None)])])
  }

  /** The loop starts the oldest created task. */
  function RunReady(w: World): (r: World)
    requires WorldOk(w) && w.mail.ready != []
    ensures WorldOk(r)
  {
    var t := w.mail.ready[0];
    assert TaskOk(w.mail, t);
    match t
    case SendPush(p) =>
      RunSendKeeps(w.mail);
      w.(mail := RunSend(w.mail))
    case Unsubscribe(c) =>
      PopTaskKeeps(w.mail);
      Unsub(w.(mail := PopTask(w.mail)), c)
  }

  predicate TimeoutPending(w: World, p: nat, i: nat) {
    p < |w.mail.pushes| && i < |w.mail.pushes[p].slot.tasks| && w.mail.pushes[p].slot.tasks[i].Pending?
  }

  predicate TimerPending(w: World, c: nat, i: nat) {
    c < |w.chans| && i < |w.chans[c].timer.slot.tasks| && w.chans[c].timer.slot.tasks[i].Pending?
  }

  /** The state in which a join's timeout callbacks run. */
  function JoinExpired(w: World, p: nat, i: nat): (r: World)
    requires WorldOk(w) && TimeoutPending(w, p, i) && w.mail.pushes[p].kind == Join
    ensures WorldOk(r) && w.mail.pushes[p].channel < |r.chans|
  {
    assert PushOk(w.mail, p);
    ExpireJoinKeeps(w.mail, p, i);
    w.(mail := Expire(w.mail, p, i))
  }

  function JoinForgotten(w: World, p: nat): (r: World)
    requires WorldOk(w) && p < |w.mail.pushes| && w.mail.pushes[p].kind == Join
    ensures WorldOk(r)
  {
    ForgetJoinKeeps(w.mail, p);
    w.(mail := Forget(w.mail, p))
  }

  /** A timeout task wakes. Only join pushes carry timeout callbacks. */
  function TimeoutFires(w: World, p: nat, i: nat): (r: World)
    requires WorldOk(w) && TimeoutPending(w, p, i)
    ensures WorldOk(r)
  {
    var q := w.mail.pushes[p];
    if q.kind == Join then
      JoinForgotten(RunHooks(JoinExpired(w, p, i), q.channel, q.timeoutHooks, []), p)
    else
      TimeoutKeeps(w.mail, p, i);
      w.(mail := Forget(Expire(w.mail, p, i), p))
  }

  function TimerFires(w: World, c: nat, i: nat): (r: World)
    requires WorldOk(w) && TimerPending(w, c, i)
    ensures WorldOk(r)
  {
    var ch := w.chans[c];
    RejoinUntilConnected(w.(chans := w.chans[c := ch.(timer := Fire(ch.timer, i))]), c)
  }

  /** The loop of `_reconnect` over the registered topics that are left. */
  function RejoinAll(w: World, topics: seq<string>): (r: World)
    requires WorldOk(w) && forall t :: t in topics ==> t in w.registry.vals
    ensures WorldOk(r)
    decreases |topics|
  {
    if topics == [] then w else RejoinAll(Rejoin(w, w.registry.vals[topics[0]]), topics[1..])
  }

  function Reconnect(w: World, succeeds: bool): (r: World)
    requires WorldOk(w)
    ensures WorldOk(r)
  {
    var w := Connect(CloseSocket(w), succeeds);
    if w.mail.connected then RejoinAll(w, w.registry.keys) else w
  }

  /** `remove_channel`: the channel now registered for the topic leaves. */
  function RemoveChannel(w: World, c: nat): (r: World)
    requires WorldOk(w) && c < |w.chans|
    ensures WorldOk(r)
  {
    var t := Topic(w, c);
    var w := if t in w.registry.vals then Unsub(w, w.registry.vals[t]) else w;
    if w.registry.keys == [] then CloseSocket(w) else w
  }

  // ---------- Runs ----------

  datatype Event =
    | Creates(name: string)
    | Subscribes(channel: nat, succeeds: bool)
    | Unsubscribes(channel: nat)
    | Removes(channel: nat)
    | UserPushes(channel: nat)
    | Registers(channel: nat, binding: Bindings.Binding)
    | Receives(topic: string, msg: ServerMessage)
    | PushTimesOut(push: nat, task: nat)
    | TimerWakes(channel: nat, task: nat)
    | TaskStarts
    | Connects(succeeds: bool)
    | Closes
    | Reconnects(succeeds: bool)

  /** A call that the user makes on the client or a channel, except on the connection. */
  predicate ByUser(e: Event) {
    e.Creates? || e.Subscribes? || e.Unsubscribes? || e.Removes? || e.UserPushes? || e.Registers?
  }

  /** The handler an event runs; an event that cannot happen in w changes nothing. */
  function Step(w: World, e: Event): (r: World)
    requires WorldOk(w)
    ensures WorldOk(r)
  {
    match e
    case Creates(name) => CreateChannel(w, name)
    case Subscribes(c, succeeds) => if c < |w.chans| then Subscribe(w, c, succeeds) else w
    case Unsubscribes(c) => if c < |w.chans| then Unsub(w, c) else w
    case Removes(c) => if c < |w.chans| then RemoveChannel(w, c) else w
    case UserPushes(c) => if c < |w.chans| then PushEvent(w, c) else w
    case Registers(c, b) => if c < |w.chans| then OnPostgresChanges(w, c, b) else w
    case Receives(topic, msg) => Deliver(w, topic, msg)
    case PushTimesOut(p, i) => if TimeoutPending(w, p, i) then TimeoutFires(w, p, i) else w
    case TimerWakes(c, i) => if TimerPending(w, c, i) then TimerFires(w, c, i) else w
    case TaskStarts => if w.mail.ready != [] then RunReady(w) else w
    case Connects(succeeds) => Connect(w, succeeds)
    case Closes => CloseSocket(w)
    case Reconnects(succeeds) => Reconnect(w, succeeds)
  }

  const NEW_CLIENT := World(NO_MAIL, [], Dict([], map[]))

  lemma NewClientOk()
    ensures WorldOk(NEW_CLIENT)
  {
    NoMailOk();
  }

  /** The state after a sequence of events. */
  function RunFrom(w: World, events: seq<Event>): (r: World)
    requires WorldOk(w)
    ensures WorldOk(r)
  {
    if events == [] then w else Step(RunFrom(w, events[..|events| - 1]), events[|events| - 1])
  }

  /** Any run of events from a new client. */
  function Run(events: seq<Event>): (r: World)
    ensures WorldOk(r)
  {
    NewClientOk();
    RunFrom(NEW_CLIENT, events)
  }
}
