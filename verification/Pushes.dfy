/**
 * Pushes, refs, waiting maps, push buffers, the loop's ready queue and the
 * socket's send path: everything a message passes through, for all channels of
 * one client. Pushes and channels are named by their position of creation.
 */
module Pushes {
  import opened PyDict
  import opened Refs
  import opened Timers
  import Bindings

  datatype Ack = Ok | Error | Timeout

  /** What `received_resp` holds; `rows` is the server's list of Postgres bindings, empty when absent. */
  datatype Response = Response(status: Ack, rows: seq<Bindings.Row>)

  /** Whose callbacks a push carries: the channel's join, a leave, or a user's event. */
  datatype Kind = Join | Leave | User

  /** The callbacks that the library itself registers on pushes. */
  datatype Hook = JoinOk | JoinTimeout | SubscribeOk | SubscribeError | SubscribeTimeout | Close

  datatype Push = Push(
    channel: nat, kind: Kind,
    ref: Option<string>, resp: Option<Response>, sent: bool, slot: Slot,
    okHooks: seq<Hook>, errorHooks: seq<Hook>, timeoutHooks: seq<Hook>,
    delivered: seq<Ack>,  // every status triggered on this push, oldest first
    buffered: bool)       // accepted while it could not be sent at once
  {
    predicate TimedOut() {
      resp.Some? && resp.value.status == Timeout
    }
  }

  /** The message fields of one channel. */
  datatype Box = Box(topic: string, join: nat, waiting: map<string, nat>, buffer: seq<nat>)

  /** A task created with `asyncio.create_task` that has not started. */
  datatype Task = SendPush(push: nat) | Unsubscribe(channel: nat)

  datatype Message = Message(topic: string, kind: Kind, ref: string, push: nat)

  datatype Mail = Mail(
    connected: bool, ref: nat,
    pushes: seq<Push>, boxes: seq<Box>, ready: seq<Task>,
    requested: seq<Message>,                     // every call of the client's `send`, oldest first
    wire: seq<Message>, sendBuffer: seq<Message>)

  // ---------- What the code does ----------

  function StartTimeout(q: Push): Push {
    if q.slot.current.Some? then q else q.(slot := q.slot.Create())
  }

  /** The client's `send`, with no send failing. */
  function SocketSend(m: Mail, msg: Message): Mail {
    var m := m.(requested := m.requested + [msg]);
    if m.connected then m.(wire := m.wire + [msg]) else m.(sendBuffer := m.sendBuffer + [msg])
  }

  /** `AsyncPush.send` past its early return. */
  function Transmit(m: Mail, p: nat): Mail
    requires p < |m.pushes| && m.pushes[p].channel < |m.boxes|
  {
    var q := m.pushes[p];
    var b := m.boxes[q.channel];
    var r := Decimal(m.ref + 1);
    var m := m.(ref := m.ref + 1,
                pushes := m.pushes[p := StartTimeout(q.(ref := Some(r))).(sent := true)],
                boxes := m.boxes[q.channel := b.(waiting := b.waiting[r := p])]);
    SocketSend(m, Message(b.topic, q.kind, r, p))
  }

  function Send(m: Mail, p: nat): Mail
    requires p < |m.pushes| && m.pushes[p].channel < |m.boxes|
  {
    if m.pushes[p].TimedOut() then m else Transmit(m, p)
  }

  function Resend(m: Mail, p: nat): Mail
    requires p < |m.pushes| && m.pushes[p].channel < |m.boxes|
  {
    Send(m.(pushes := m.pushes[p := m.pushes[p].(ref := None, resp := None, sent := false)]), p)
  }

  function NewPush(c: nat, kind: Kind): Push {
    var ok := match kind case Join => [JoinOk] case Leave => [Close] case User => [];
    var error := if kind == Leave then [Close] else [];
    var timeout := if kind == Join then [JoinTimeout] else [];
    Push(c, kind, None, None, false, EMPTY, ok, error, timeout, [], false)
  }

  /** A new push that is sent at once. */
  function Post(m: Mail, c: nat, kind: Kind): Mail
    requires c < |m.boxes|
  {
    Send(m.(pushes := m.pushes + [NewPush(c, kind)]), |m.pushes|)
  }

  /** A new user push that has to wait for a join. */
  function Hold(m: Mail, c: nat): Mail
    requires c < |m.boxes|
  {
    var b := m.boxes[c];
    m.(pushes := m.pushes + [StartTimeout(NewPush(c, User)).(buffered := true)],
       boxes := m.boxes[c := b.(buffer := b.buffer + [|m.pushes|])])
  }

  /** A new channel with its join push. */
  function AddBox(m: Mail, topic: string): Mail {
    m.(pushes := m.pushes + [NewPush(|m.boxes|, Join)],
       boxes := m.boxes + [Box(topic, |m.pushes|, map[], [])])
  }

  function SendTasks(buffer: seq<nat>): (r: seq<Task>)
    ensures |r| == |buffer| && forall i :: 0 <= i < |r| ==> r[i] == SendPush(buffer[i])
  {
    seq(|buffer|, i requires 0 <= i < |buffer| => SendPush(buffer[i]))
  }

  /** A task is created for each buffered push, and the buffer emptied. */
  function Drain(m: Mail, c: nat): Mail
    requires c < |m.boxes|
  {
    var b := m.boxes[c];
    m.(ready := m.ready + SendTasks(b.buffer), boxes := m.boxes[c := b.(buffer := [])])
  }

  function Respond(q: Push, resp: Response): Push {
    q.(resp := Some(resp), delivered := q.delivered + [resp.status])
  }

  /** A reply takes its push out of the waiting map and is recorded on it. */
  function Reply(m: Mail, c: nat, r: string, resp: Response): Mail
    requires c < |m.boxes| && r in m.boxes[c].waiting && m.boxes[c].waiting[r] < |m.pushes|
  {
    var b := m.boxes[c];
    var p := b.waiting[r];
    m.(boxes := m.boxes[c := b.(waiting := b.waiting - {r})],
       pushes := m.pushes[p := Respond(m.pushes[p], resp)])
  }

  /** The i-th timeout task of a push ends its sleep. */
  function Expire(m: Mail, p: nat, i: nat): Mail
    requires p < |m.pushes| && i < |m.pushes[p].slot.tasks|
  {
    var q := m.pushes[p];
    m.(pushes := m.pushes[p := Respond(q.(slot := q.slot.Finish(i)), Response(Timeout, []))])
  }

  /** The end of the timeout task: the push's current ref stops waiting. */
  function Forget(m: Mail, p: nat): Mail
    requires p < |m.pushes| && m.pushes[p].channel < |m.boxes|
  {
    var q := m.pushes[p];
    var b := m.boxes[q.channel];
    if q.ref.Some? then m.(boxes := m.boxes[q.channel := b.(waiting := b.waiting - {q.ref.value})]) else m
  }

  /** `destroy` on a push: its timeout task is cancelled and forgotten. */
  function Destroy(m: Mail, p: nat): Mail
    requires p < |m.pushes|
  {
    var q := m.pushes[p];
    m.(pushes := m.pushes[p := q.(slot := q.slot.Cancel().Clear())])
  }

  /** `receive` for a status the push has not been given. */
  function AddHook(m: Mail, p: nat, status: Ack, h: Hook): Mail
    requires p < |m.pushes|
  {
    var q := m.pushes[p];
    var q' := match status
      case Ok => q.(okHooks := q.okHooks + [h])
      case Error => q.(errorHooks := q.errorHooks + [h])
      case Timeout => q.(timeoutHooks := q.timeoutHooks + [h]);
    m.(pushes := m.pushes[p := q'])
  }

  function QueueUnsubscribe(m: Mail, c: nat): Mail {
    m.(ready := m.ready + [Unsubscribe(c)])
  }

  /** The oldest created task is a send and runs. */
  function RunSend(m: Mail): Mail
    requires m.ready != [] && m.ready[0].SendPush?
    requires m.ready[0].push < |m.pushes| && m.pushes[m.ready[0].push].channel < |m.boxes|
  {
    Send(m.(ready := m.ready[1..]), m.ready[0].push)
  }

  function PopTask(m: Mail): Mail
    requires m.ready != []
  {
    m.(ready := m.ready[1..])
  }

  /** The connection opens: `_flush_send_buffer` transmits what was buffered. */
  function Open(m: Mail): Mail {
    m.(connected := true, wire := m.wire + m.sendBuffer, sendBuffer := [])
  }

  function Disconnect(m: Mail): Mail {
    m.(connected := false)
  }

  // ---------- What always holds ----------

  /** Every send request carries the next ref, and requests are transmitted in order or still buffered. */
  ghost predicate RequestsOk(m: Mail) {
    && |m.requested| == m.ref
    && (forall i :: 0 <= i < m.ref ==> m.requested[i].ref == Decimal(i + 1))
    && m.wire + m.sendBuffer == m.requested
    && (m.connected ==> m.sendBuffer == [])
  }

  /** Ref r was issued to push p. */
  ghost predicate Issued(m: Mail, r: string, p: nat) {
    1 <= Number(r) <= |m.requested| && m.requested[Number(r) - 1].ref == r && m.requested[Number(r) - 1].push == p
  }

  predicate Held(m: Mail, p: nat)
    requires p < |m.pushes|
  {
    m.pushes[p].channel < |m.boxes| && p in m.boxes[m.pushes[p].channel].buffer
  }

  predicate Queued(m: Mail, p: nat) {
    SendPush(p) in m.ready
  }

  predicate WaitsUnder(m: Mail, r: string, p: nat)
    requires p < |m.pushes|
  {
    && m.pushes[p].channel < |m.boxes|
    && r in m.boxes[m.pushes[p].channel].waiting
    && m.boxes[m.pushes[p].channel].waiting[r] == p
  }

  /**
   * A push that is not a join has one timeout task, and its deliveries are at most one reply and then at most one
   * timeout.
   */
  ghost predicate DeliveriesOk(q: Push) {
    && q.slot.current == Some(0) && |q.slot.tasks| == 1 && !q.slot.tasks[0].Cancelled?
    && |q.delivered| <= 2
    && (|q.delivered| == 2 ==> q.delivered[0] != Timeout && q.delivered[1] == Timeout)
    && (q.resp.None? <==> q.delivered == [])
    && (q.resp.Some? ==> q.resp.value.status == q.delivered[|q.delivered| - 1])
    && (q.slot.tasks[0].Finished? <==> q.TimedOut())
  }

  /** A push that is not a join: one place at a time, waiting exactly from its send to its first response. */
  ghost predicate OnceOk(m: Mail, p: nat)
    requires p < |m.pushes|
  {
    var q := m.pushes[p];
    && DeliveriesOk(q)
    && (q.sent <==> q.ref.Some?)
    && (q.sent && q.resp.None? ==> WaitsUnder(m, q.ref.value, p))
    && (Held(m, p) ==> !q.sent && !Queued(m, p))
    && (Queued(m, p) ==> !q.sent)
    && (!q.sent && !Held(m, p) && !Queued(m, p) ==> q.TimedOut())
    && (!q.sent ==> q.buffered)
    && (q.delivered != [] && q.delivered[0] != Timeout ==> q.sent)
  }

  predicate NeverCloses(q: Push) {
    Close !in q.okHooks && Close !in q.errorHooks && Close !in q.timeoutHooks
  }

  ghost predicate PushOk(m: Mail, p: nat)
    requires p < |m.pushes|
  {
    var q := m.pushes[p];
    && q.channel < |m.boxes|
    && q.slot.Ok()
    && (q.ref.Some? ==> Issued(m, q.ref.value, p))
    && (q.kind == Join <==> m.boxes[q.channel].join == p)
    && (q.kind == Join ==> !q.buffered && NeverCloses(q))
    && (q.kind == Leave ==> q.okHooks == [Close] && q.errorHooks == [Close] && q.timeoutHooks == [] && !q.buffered)
    && (q.kind == User ==> q.okHooks == [] && q.errorHooks == [] && q.timeoutHooks == [])
    && (q.kind != Join ==> OnceOk(m, p))
  }

  /**
   * A waiting entry: its push belongs to the channel, and unless it is a join it has no other entry and no
   * response.
   */
  ghost predicate EntryOk(m: Mail, c: nat, r: string)
    requires c < |m.boxes| && r in m.boxes[c].waiting
  {
    var p := m.boxes[c].waiting[r];
    && p < |m.pushes| && m.pushes[p].channel == c && Issued(m, r, p)
    && (m.pushes[p].kind != Join ==> m.pushes[p].ref == Some(r) && m.pushes[p].resp.None?)
  }

  /** A push stored in a buffer or queue is a buffered user push of the channel. */
  ghost predicate StoredOk(m: Mail, c: nat, p: nat) {
    p < |m.pushes| && m.pushes[p].channel == c && m.pushes[p].kind == User && m.pushes[p].buffered
  }

  ghost predicate BoxOk(m: Mail, c: nat)
    requires c < |m.boxes|
  {
    var b := m.boxes[c];
    && b.join < |m.pushes| && m.pushes[b.join].channel == c && m.pushes[b.join].kind == Join
    && (forall r :: r in b.waiting ==> EntryOk(m, c, r))
    && (forall i :: 0 <= i < |b.buffer| ==> StoredOk(m, c, b.buffer[i]))
    && (forall i, j :: 0 <= i < j < |b.buffer| ==> b.buffer[i] < b.buffer[j])
  }

  ghost predicate TaskOk(m: Mail, t: Task) {
    match t
    case SendPush(p) => p < |m.pushes| && StoredOk(m, m.pushes[p].channel, p)
    case Unsubscribe(c) => c < |m.boxes|
  }

  ghost predicate QueueOk(m: Mail) {
    && (forall i :: 0 <= i < |m.ready| ==> TaskOk(m, m.ready[i]))
    && (forall i, j :: 0 <= i < j < |m.ready| ==> Ascending(m, m.ready[i], m.ready[j]))
  }

  /** Of two queued sends of one channel the older push comes first. */
  ghost predicate Ascending(m: Mail, s: Task, t: Task) {
    s.SendPush? && t.SendPush? && s.push < |m.pushes| && t.push < |m.pushes| ==>
      m.pushes[s.push].channel == m.pushes[t.push].channel ==> s.push < t.push
  }

  /** Of two buffered pushes of one channel the older leaves first at every stage, and gets the smaller ref. */
  ghost predicate InOrder(m: Mail, p: nat, q: nat)
    requires p < |m.pushes| && q < |m.pushes|
  {
    (m.pushes[p].buffered && m.pushes[q].buffered && m.pushes[p].channel == m.pushes[q].channel) ==>
      && (Held(m, p) ==> Held(m, q))
      && (Queued(m, p) ==> Held(m, q) || Queued(m, q))
      && (m.pushes[p].ref.Some? && m.pushes[q].ref.Some?
          ==> Number(m.pushes[p].ref.value) < Number(m.pushes[q].ref.value))
  }

  ghost predicate PushesOk(m: Mail) {
    forall p :: 0 <= p < |m.pushes| ==> PushOk(m, p)
  }

  ghost predicate BoxesOk(m: Mail) {
    forall c :: 0 <= c < |m.boxes| ==> BoxOk(m, c)
  }

  ghost predicate OrderOk(m: Mail) {
    forall p, q :: 0 <= p < q < |m.pushes| ==> InOrder(m, p, q)
  }

  /** A requested message names its push's channel and kind, and a push that is not a join has no other message. */
  ghost predicate MessageOk(m: Mail, i: nat)
    requires i < |m.requested|
  {
    var x := m.requested[i];
    && x.push < |m.pushes| && m.pushes[x.push].channel < |m.boxes|
    && x.kind == m.pushes[x.push].kind && x.topic == m.boxes[m.pushes[x.push].channel].topic
    && (x.kind != Join ==> m.pushes[x.push].ref == Some(x.ref))
  }

  ghost predicate MessagesOk(m: Mail) {
    forall i :: 0 <= i < |m.requested| ==> MessageOk(m, i)
  }

  ghost predicate Inv(m: Mail) {
    RequestsOk(m) && MessagesOk(m) && PushesOk(m) && BoxesOk(m) && QueueOk(m) && OrderOk(m)
  }

  const NO_MAIL := Mail(false, 0, [], [], [], [], [], [])

  lemma NoMailOk()
    ensures Inv(NO_MAIL)
  {
  }
}
