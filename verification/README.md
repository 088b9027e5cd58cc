# Channels, pushes and presence of a realtime client

A Dafny model of the asynchronous client of realtime-py. It has two cores.

**The channel protocol.** A client keeps channels, which move between closed, joining, joined, errored and
leaving. Server messages, push timeouts, a rejoin timer with growing delays, reconnects, scheduled tasks and
user calls drive them. A push gets a fresh ref when it is sent, waits for its reply in its channel's waiting
map, or is buffered until a join succeeds. One step of the model is one handler run to completion
(`Protocol.Step`); a run is any sequence of events from a new client (`Protocol.Run`). An asyncio task is an
entry that is pending, cancelled or finished, and tasks made with `create_task` wait in a first-in first-out
queue. The details that make the invariants hard are kept: a reply does not cancel the push's timeout;
`start_timeout` does nothing once a task was created until `destroy`; `resend` leaves the old ref waiting;
`_rejoin` can make the same channel leave first.

**Presence.** A client keeps, per key, a list of presences. Full snapshots are turned into joins and leaves,
which the same in-place routine applies as it applies diffs. That routine stops at the first leave whose key
has no presences.

Around them: the rejoin timer, the retry loop of `connect`, the send buffer, the matching of Postgres bindings
with the server's list and their later dispatch, and the decoding of raw presence payloads.

## How it is organised

| file | content |
|---|---|
| `PyDict`, `Refs` | insertion-ordered dictionaries; decimal refs |
| `Timers` | tasks held in a variable, the rejoin timer and its class |
| `Backoff`, `Bindings` | arithmetic of the retry loop; Postgres bindings |
| `Pushes`, `PushesProofs` | pushes, waiting maps, buffers, queue and socket with their invariant; every operation keeps it |
| `Protocol`, `ProtocolLife` | handlers, events and runs; the life of channels and timers |
| `PushRuns`, `ChannelRuns`, `BindingRuns`, `LeavingRuns` | main results about runs: pushes, closed channels, bindings, leaving channels |
| `SteadyRuns`, `HeardRuns`, `HeldRuns`, `StaleRuns` | what events leave alone; which joins are reported; when buffered pushes leave; refs that are done with |
| `MessageEffects`, `CallEffects`, `TimeEffects` | what each event changes in the whole client, and that it changes nothing else |
| `Recovery`, `SelfLeave`, `RemovedChannel` | how a channel joins again, and the two ways in which that goes wrong |
| `Client` | the client object: methods with the source's loops and assignments, proved to do what `Protocol` says |
| `PresenceSpec`, `PresenceDiff`, `PresenceSnapshot`, `PresenceLog`, `PresenceRuns` | synchronisation as functions and the results about it |
| `PresenceTransform`, `PresenceSync` | decoding; the presence object, proved to do what `PresenceSpec` says |

Each method of `AsyncRealtimeClient`, `AsyncRealtimePresence` and `AsyncTimer` states its whole new state as a
function of the old one (`View() == Protocol.Rejoin(old(View()), c)`), so what is proved of runs of these
functions holds of the objects. The table below lists of the client's methods those with a loop or a dispatch; the
others run a handler's assignments in the source's order.

## Where the code and its promises part

- The documentation of `connect` limits the backoff to 60 seconds. The loop multiplies the limited value by
  `2 ** (retries - 1)` once more (`realtime/_async/client.py:166-171`): the k-th sleep is within 60 seconds exactly while
  b * 4^(k-1) is (`Backoff.SleepWithinMinuteIff`); with the defaults the fourth lasts 64 (`Backoff.DefaultSleepExceedsMinute`).
- A leave of a key that holds no presences after the joins, untracked or with an empty list, makes `_sync_diff` skip all
  later leaves (`realtime/_async/presence.py:109-112`). On any state and payload, every key ends with the intended refs exactly
  when each leave after such a one has nothing to remove (`PresenceDiff.DiffMeetsSpecIff`), and with the intended
  keys too exactly when besides no empty list is stored after the joins (`PresenceDiff.DiffMeetsMapIff`).
  `PresenceDiff.EarlyExitMissesLeave` and `PresenceDiff.EmptyListHidesLeave` are cases in which a leave is lost.
- On any state, a snapshot is a plain replacement exactly when it has no empty list for a key that holds presences and
  lacks no key that is stored with an empty list (`PresenceSnapshot.SnapshotReplacesIff`). Its leaves are skipped
  exactly when it lacks such a key (`PresenceSnapshot.SnapshotLeavesReachedIff`). An earlier snapshot can store one: a
  new client given an empty list for one key keeps another key's presence through any number of empty snapshots
  (`PresenceSnapshot.EmptyListBlocksSnapshots`).
- A meta that already has a `presence_ref` field overrides the renamed ref (`PresenceTransform.RefKeptIff`).
- A rejoin makes its own channel leave exactly when that channel is registered and joined or still joining
  (`SelfLeave.RejoinLeavesItselfIff`), and the reply to that leave closes the channel although it is joining again
  (`SelfLeave.OwnLeaveClosesRejoining`). So every reconnect does this to every open channel
  and to no other (`SelfLeave.ReconnectLeavesItselfIff`, `SelfLeave.ReconnectCloses`); connecting, subscribing and reconnecting once
  is a run in which it happens (`SelfLeave.SubscribedChannelIsClosed`).
- `start_timeout` does not replace a task that has ended (`realtime/_async/push.py:105`). A rejoin has something to wake it
  exactly when its channel leaves first, its rejoin timer runs, or its join push holds no task or a pending one
  (`RemovedChannel.RejoinWakesIff`, and `RemovedChannel.SubscribeWakesIff` for a first `subscribe`). Registered channels
  always meet this (`ProtocolLife.NeverStuck`); `RemovedChannel.RemovedChannelCanHang` is a run from a connected
  client in which an unregistered one does not.
- A registered leaving channel is woken by nothing: it stays leaving exactly until a leave of it is answered, a join
  of it is accepted, the server closes it, or a new channel takes over its topic (`LeavingRuns.StepDepartingIff`).
- A join reply without bindings empties the list of registrations and reports SUBSCRIBED (`BindingRuns.EmptyJoinReply`).
- A `subscribe` registers a callback only for statuses its join has not been given (`realtime/_async/push.py:91`). So, at any
  later time, an accepted join is reported exactly when the response recorded on the join push at that call was
  not an acceptance (`HeardRuns.JoinReportedIff`); `HeardRuns.SomeJoinIsUnheard` is a run in which one is not.
- A push that was buffered while disconnected leaves its buffer only when a join of its channel is accepted
  (`HeldRuns.HeldUntilJoinIff`); until then pushes made after a reconnection overtake it (`HeldRuns.LaterPushOvertakes`).
- `remove_channel` asks whether channels are left before the reply to its leave has removed this one, so removing the last
  channel keeps the connection (`CallEffects.RemoveEffect`).
- `on_postgres_changes` documents the defaults "*" and "public" for table and schema; the code passes on `None`. The
  server names a table in every entry, so a list with a registration that names none never matches
  (`Bindings.TablelessNeverMatches`).

## Model

| member | source | states |
|---|---|---|
| ProtocolLife.NeverStuck | realtime/_async/channel.py:109-146 | in every run: a registered joining channel has a pending join timeout or rejoin timer; an errored one a pending rejoin timer; a joined, leaving or closed one none; a registered closed one has never sent a join; at most the held timer task is pending |
| LeavingRuns.StepDepartingIff | realtime/_async/channel.py:271-289 | a registered leaving channel stays so through an event exactly unless the event answers one of its leaves, accepts a join of it, is a close by the server, or creates a channel for its topic |
| LeavingRuns.LeavingUntilAnswered | realtime/_async/channel.py:475-477 | through any run without such an event it stays registered and leaving, with no rejoin timer |
| ProtocolLife.StepLife | realtime/_async/channel.py:475-531 | every event, from any state with these invariants, keeps them for all channels |
| ProtocolLife.RejoinLife | realtime/_async/channel.py:475-480 | `_rejoin` keeps them, also when it makes this or another channel of the topic leave first |
| Recovery.Recovers | realtime/_async/channel.py:122-146 | from every reachable connected state, an errored channel, or a registered joining one, has a new join with a fresh waiting ref sent after at most two timer wakes, with no help from the server |
| Recovery.RejoinSends | realtime/_async/channel.py:475-480 | unless leaving, a rejoined channel is joining and its join message is the last one requested, under a new ref that waits |
| Recovery.TimerResends | realtime/_async/channel.py:528-531 | a rejoin timer waking while connected sends the join again |
| Recovery.TimerRetriesOffline | realtime/_async/channel.py:528-531 | while disconnected a wake changes nothing at all but that the channel's timer is pending again, with one more try |
| Recovery.SubscribeSendsJoin | realtime/_async/channel.py:185-267 | a first `subscribe` while connected leaves the channel joining with its join message requested last, under a new ref that waits, unless the channel is leaving |
| Recovery.TimeoutSchedulesRejoin | realtime/_async/channel.py:122-128 | the join timeout of a joining channel leaves it errored with a pending rejoin timer, also with `subscribe`'s callbacks registered |
| TimeEffects.JoinTimeoutEffect | realtime/_async/push.py:108-114 | a join timeout, in any channel state: recorded, the ref the push holds stops waiting and every other entry stays, a joining channel is in error with one more try pending, reported if `subscribe` asked for it; nothing else changes |
| TimeEffects.LateJoinReplyIgnored | realtime/_async/push.py:110-112 | a reply to that ref that comes at any later time changes nothing |
| TimeEffects.TimerWakeEffect | realtime/_async/channel.py:528-531 | a timer that wakes is pending again with one more try, and while connected the channel rejoins from there |
| CallEffects.RejoinTrace | realtime/_async/channel.py:475-480 | a rejoin asks for the leave of its topic's joined or joining holder, if any, and then for the join, whose earlier response is forgotten; a leaving channel's changes nothing |
| CallEffects.RejoinChannels | realtime/_async/client.py:365-373 | it moves that holder to leaving and its channel to joining, and touches no other channel's fields |
| SelfLeave.RejoinLeavesItselfIff | realtime/_async/client.py:365-373 | a rejoin makes a leave of its own channel exactly when that channel is registered and joined or joining |
| SelfLeave.RejoinLeavesItself | realtime/_async/client.py:365-373 | then the channel is joining and that leave waits under the ref before the join's |
| SelfLeave.LeaveReplyCloses | realtime/_async/channel.py:281-289 | any reply to a waiting leave closes and removes its registered channel |
| MessageEffects.LeaveReplyEffect | realtime/_async/channel.py:281-289 | such a reply closes and unregisters the channel, stops its timer, is recorded, and changes nothing else |
| CallEffects.UnsubscribeEffect | realtime/_async/channel.py:271-289 | leaving, both timers stopped, one leave push sent under the next ref and waiting; nothing else changes |
| TimeEffects.LeaveTaskEffect | realtime/_async/channel.py:237-238 | a scheduled leave does exactly this when it starts |
| CallEffects.RemoveEffect | realtime/_async/client.py:279-289 | so does `remove_channel` to the channel now registered for the topic, and the connection stays; it disconnects exactly when no channel at all is registered |
| SelfLeave.OwnLeaveClosesRejoining | realtime/_async/channel.py:475-480 | hence the reply to the leave that a rejoin sent closes the channel that is joining again; when a rejoin sends one is settled by `RejoinLeavesItselfIff` |
| SelfLeave.ReconnectLeavesItself | realtime/_async/client.py:114-121 | after a reconnect every registered channel that was joined or joining is joining with a new leave of its own waiting |
| SelfLeave.ReconnectLeavesItselfIff | realtime/_async/client.py:114-121 | a reconnect makes exactly one leave of a registered channel when that is joined or joining, and none otherwise |
| SelfLeave.ReconnectCloses | realtime/_async/client.py:114-121 | in any later state in which that leave still waits on the registered channel, its reply closes the channel |
| CallEffects.ReconnectFails | realtime/_async/client.py:114-121 | a reconnect that fails leaves the client disconnected and changes nothing else |
| CallEffects.ReconnectJoins | realtime/_async/client.py:114-121 | one that succeeds makes every registered channel but a leaving one, errored and closed ones included, joining with its join waiting under a new ref |
| SelfLeave.SubscribedChannelIsClosed | realtime/_async/client.py:114-121 | connect, create, subscribe, reconnect: a run that ends so, the channel closed by the next reply |
| RemovedChannel.RejoinWakesIff | realtime/_async/push.py:104-106 | a rejoin is followed by a pending join timeout or rejoin timer exactly when its channel leaves first, its rejoin timer runs, or its join push holds no task or a pending one |
| RemovedChannel.SubscribeWakesIff | realtime/_async/channel.py:185-267 | the same condition for a first `subscribe` while connected; registered channels always meet it |
| RemovedChannel.RemovedChannelCanHang | realtime/_async/push.py:104-106 | a run from a connected client that leaves an unregistered channel joining with neither pending |
| ChannelRuns.ClosingRemoves | realtime/_async/channel.py:134-138 | `on_close` leaves the channel closed, unregistered and without pending timer |
| ChannelRuns.StepGoneIff | realtime/_async/channel.py:122-146 | a closed and removed channel stays so through an event exactly unless the event is an unsubscribe of it, asked for or scheduled, or its first `subscribe`, not raising |
| ChannelRuns.ClosedStaysClosed | realtime/_async/channel.py:122-146 | through any run without such an event it stays closed and unregistered, with no rejoin timer |
| MessageEffects.ErrorEffect | realtime/_async/channel.py:140-146 | a server error changes nothing on a leaving or closed channel; else the channel is in error with one more try pending, and nothing else changes |
| MessageEffects.CloseEffect | realtime/_async/channel.py:519-522 | a close by the server closes and unregisters the channel in any state and stops its timer; nothing else changes |
| MessageEffects.IgnoredEffect | realtime/_async/client.py:109-110 | messages for no registered topic, of no concern, or answering a ref that does not wait change nothing |
| ChannelRuns.CloseFindsTopic | realtime/_async/client.py:276-277 | a waiting ref is answered only on the registered channel; only leaves carry a closing callback, joins and user pushes none, so removing the channel finds its topic |
| BindingRuns.JoinReply | realtime/_async/channel.py:214-250 | a successful join reply with bindings: joined; if every registration equals the server's entry at its position, SUBSCRIBED and its ids are stored; else CHANNEL_ERROR, the list kept and a leave scheduled |
| MessageEffects.AcceptedJoinEffect | realtime/_async/channel.py:115-120 | an accepted join: recorded, its ref answered, joined with zero tries, one send task per buffered push in order and the buffer emptied, and what `subscribe`'s callback does if registered; nothing else changes |
| MessageEffects.RefusedJoinEffect | realtime/_async/channel.py:252-256 | a refused join is recorded, and reported if `subscribe` registered its callback for errors; nothing else changes |
| BindingRuns.EmptyJoinReply | realtime/_async/channel.py:217-250 | a join reply without bindings: joined, SUBSCRIBED, no registration left |
| BindingRuns.UnheardJoinReply | realtime/_async/push.py:135-147 | without `subscribe`'s callback on the join push a join reply changes neither registrations nor reports; when that is so, `HeardRuns` says |
| HeardRuns.CallbacksAdded | realtime/_async/push.py:90-102 | `subscribe` registers a callback for exactly those statuses that the join push has not been given before |
| HeardRuns.SubscribedHooksStay | realtime/_async/channel.py:261-265 | after a first `subscribe` and through any later run the callbacks on the join push are the channel's own and exactly these |
| HeardRuns.JoinReportedIff | realtime/_async/push.py:90-92 | at any time after a first `subscribe`, an accepted join is reported exactly when the response recorded on the join push at that call was not an acceptance; else registrations and reports stay |
| HeardRuns.SomeJoinIsUnheard | realtime/_async/push.py:90-92 | connect, create, reconnect, accepted join, subscribe: a run whose next accepted join is not reported |
| CallEffects.SubscribeTells | realtime/_async/push.py:90-92 | a first `subscribe` reports at once exactly what the response recorded on the join push amounts to |
| CallEffects.SubscribeRaises | realtime/_async/channel.py:182-190 | a `subscribe` that cannot connect changes nothing; a second one only connects |
| BindingRuns.EmptyEarlyReply | realtime/_async/push.py:90-92 | a recorded reply without bindings empties the list when the callback is registered, reports SUBSCRIBED and registers nothing |
| BindingRuns.EarlyJoinReply | realtime/_async/push.py:90-92 | a join answered before `subscribe` registers its callback is reported in the same way at once, and no callback is registered |
| BindingRuns.BindingsEndToEnd | realtime/_async/channel.py:515-518 | through any run in which no join of the channel is answered, calls of `subscribe` that raise included, a change calls callback i exactly when the id given at position i is non-zero and listed and the event matches |
| BindingRuns.JoinedBindings | realtime/_async/channel.py:214-250 | the same from the join reply itself to the dispatch |
| Bindings.MatchIff | realtime/_async/channel.py:219-249 | the list keeps its registrations and order; it matches exactly when each equals the server's entry at its position, and then each has that entry's id |
| Bindings.MatchesEqualFields | realtime/_async/channel.py:230-236 | a non-empty list matches exactly when event, schema, table and filter are equal at every position |
| Bindings.MatchAt | realtime/_async/channel.py:219-247 | an entry gets the server's id exactly when it and all before it agree, also when the list as a whole does not match; all others stay |
| Bindings.TablelessNeverMatches | realtime/_async/channel.py:224-236 | a non-empty server list never matches when a registration names no table |
| Bindings.DispatchIff | realtime/types.py:134-140 | a change calls callback i exactly when its guard holds, at most once, in list order |
| MessageEffects.ChangeEffect | realtime/_async/channel.py:515-518 | a change calls callback i exactly when its id is non-zero and listed and its event matches or is "*", in list order, and does nothing else |
| BindingRuns.UnboundNeverFires | realtime/types.py:134-140 | a registration without id is not called through any run in which no join is answered |
| PushRuns.RefsUnshared | realtime/_async/client.py:320-322 | in every run no ref belongs to two pushes or waits on two channels |
| Refs.DecimalInjective | realtime/_async/client.py:320-322 | two counter values render alike only if equal |
| PushRuns.AckCorrespondence | realtime/_async/push.py:47-57 | in every run a push that is not a join waits on its channel, under its own ref and no other, exactly when sent and unanswered |
| PushRuns.PushConservation | realtime/_async/channel.py:308-318 | every accepted push is in exactly one place: buffered, scheduled, sent, or dropped after its timeout |
| CallEffects.PushDisconnected | realtime/_async/channel.py:314-316 | on a subscribed channel while disconnected a push is held last in the buffer: unsent, without ref, timeout pending; no message is asked for and nothing else changes |
| CallEffects.PushConnected | realtime/_async/channel.py:311-313 | while connected it is sent at once under the next ref, whatever the buffer holds |
| CallEffects.PushBeforeSubscribe | realtime/_async/channel.py:303-306 | before the first `subscribe` it changes nothing |
| TimeEffects.SendTaskEffect | realtime/_async/push.py:47-65 | a scheduled send is dropped after a timeout, else sent under the next ref; it leaves the queue and nothing else changes |
| MessageEffects.UserReplyEffect | realtime/_async/channel.py:496-506 | a reply to a user's push is recorded on it and its ref stops waiting; nothing else changes |
| PushRuns.SentOnce | realtime/_async/push.py:47-65 | the message requests of a push that is not a join are exactly the one with its ref, none if unsent |
| PushRuns.DrainedInOrder | realtime/_async/channel.py:115-120 | pushes buffered on a channel leave in buffering order and get increasing refs |
| HeldRuns.HeldUntilJoinIff | realtime/_async/channel.py:115-120 | a buffered push stays buffered through an event exactly unless a join of its channel is accepted; then it is scheduled |
| HeldRuns.HeldUntilJoined | realtime/_async/channel.py:308-318 | through any run without an accepted join it stays buffered |
| HeldRuns.LaterPushOvertakes | realtime/_async/channel.py:308-316 | a push made while connected is sent at once, past older pushes still buffered |
| PushRuns.TimeoutIsFinal | realtime/_async/push.py:104-114 | a push that is not a join gets at most one reply and at most one timeout, the timeout last; nothing after a timeout; timed out unsent means never a ref nor a message |
| TimeEffects.PushTimeoutEffect | realtime/_async/push.py:108-114 | the timeout of a push that is not a join is recorded and its ref stops waiting; nothing else changes |
| StaleRuns.DeadStaysDead | realtime/_async/channel.py:498-506 | an issued ref that does not wait never waits again in any run, and any reply to it changes nothing |
| StaleRuns.AnsweredIsDead | realtime/_async/channel.py:498-506 | that holds of a ref once it is answered |
| StaleRuns.TimedOutIsDead | realtime/_async/push.py:110-112 | and of the ref a push holds when its timeout fires |
| PushRuns.SocketRefines | realtime/_async/client.py:324-363 | over any sequence of sends of any messages, connects and closes: transmitted then buffered messages are all requested ones in order, what was transmitted stays, nothing is buffered while connected |
| CallEffects.ConnectEffect | realtime/_async/client.py:141-155 | a `connect` that succeeds transmits what was buffered in order; one that fails or is not needed changes nothing |
| CallEffects.DisconnectEffect | realtime/_async/client.py:213-235 | `close` only disconnects |
| CallEffects.CreateEffect | realtime/_async/client.py:257-271 | a new closed channel with its unsent join takes over its topic, in the place of the old one; nothing else changes |
| CallEffects.RegisterEffect | realtime/_async/channel.py:365-387 | a registration is added last, without id; nothing else changes |
| PushRuns.SendBufferRefines | realtime/_async/client.py:349-363 | the same in every run of the client, whose i-th message has the i-th ref: transmitted then buffered messages are all requests in order, the i-th with the i-th ref; nothing is buffered while connected |
| PushesProofs.ReplyKeeps | realtime/_async/channel.py:496-506 | answering a waiting ref keeps the invariant of pushes, refs, buffers and queue |
| PushesProofs.DrainKeeps | realtime/_async/channel.py:115-120 | turning the buffer into tasks keeps it, order included |
| PushesProofs.ResendKeeps | realtime/_async/push.py:41-45 | resending a join, with its old ref still waiting, keeps it |
| PushesProofs.RunSendKeeps | realtime/_async/push.py:47-65 | running a scheduled send, or dropping it after a timeout, keeps it |
| PushesProofs.TimeoutKeeps | realtime/_async/push.py:108-114 | a timeout of a push that is not a join keeps it, sent or not |
| PushesProofs.ConnectionKeeps | realtime/_async/client.py:207-231 | flushing the send buffer and disconnecting keep it |
| Timers.TimerDiscipline | realtime/_async/timer.py:15-31 | in every run of schedules, resets and wakes only the held task can be pending and `tries` counts the schedules since the last reset |
| Timers.SupersededNeverFires | realtime/_async/timer.py:15-31 | a task that has ended or was cancelled never runs in any later run |
| Timers.SchedulingSupersedes | realtime/_async/timer.py:24-31 | a schedule and a reset leave no earlier task pending |
| Timers.BackoffTotal | realtime/_async/channel.py:109-111 | n schedules after a reset wait 2^(n+2) - 4 seconds in all, whatever fires in between |
| Backoff.BackoffClosedForm | realtime/_async/client.py:139-172 | the loop's backoff is the k-fold doubling capped at 60 |
| Backoff.TotalBound | realtime/_async/client.py:145-172 | n sleeps take at most 60 * 2^n - 60 seconds |
| Backoff.TotalExact | realtime/_async/client.py:145-172 | below the cap n sleeps take (b * 4^n - b) / 3 seconds |
| Backoff.TotalExactProduct | realtime/_async/client.py:145-172 | the same as a product of powers of two |
| Backoff.SleepWithinMinuteIff | realtime/_async/client.py:137-138 | the documented limit holds for the k-th sleep exactly while b * 4^(k-1) <= 60 |
| Backoff.DefaultSleepExceedsMinute | realtime/_async/client.py:137-138 | with the default b = 1 the fourth sleep is 64 seconds |
| RealtimeClient.AllFail | realtime/_async/client.py:148-164 | with auto-reconnect and n >= 1 failing attempts `connect` raises after n attempts and n - 1 sleeps |
| RealtimeClient.FirstSuccess | realtime/_async/client.py:148-155 | with auto-reconnect the first success among the allowed attempts is the last attempt made |
| RealtimeClient.OneAttempt | realtime/_async/client.py:161-164 | without auto-reconnect one attempt and no sleep; none when none is allowed |
| RealtimeClient.AsyncRealtimeClient.Connect | realtime/_async/client.py:141-175 | stops at the first success, the limit, or the first failure without auto-reconnect; the sleeps are those of the closed form; connected if and only if it does not raise |
| RealtimeClient.AsyncRealtimeClient.Flush | realtime/_async/client.py:207-211 | the buffered messages follow on the wire in order and the buffer is empty |
| RealtimeClient.AsyncRealtimeClient.Reconnect | realtime/_async/client.py:114-121 | the loop over registered channels rejoins each, in order, after a successful connect |
| RealtimeClient.AsyncRealtimeClient.OnJoinOk | realtime/_async/channel.py:115-120 | joined, timer reset, one send task per buffered push in order, buffer emptied |
| RealtimeClient.AsyncRealtimeClient.MatchBindings | realtime/_async/channel.py:219-249 | the in-place loop computes `Bindings.Match`, ids written before a mismatch included |
| RealtimeClient.AsyncRealtimeClient.RunCallbacks | realtime/_async/push.py:135-147 | the callbacks of a status run in registration order |
| RealtimeClient.AsyncRealtimeClient.DispatchChange | realtime/_async/channel.py:515-518 | the calls made are those of `Bindings.Dispatch`, in list order |
| RealtimeClient.AsyncRealtimeClient.HandleMessage | realtime/_async/channel.py:488-526 | equals `Protocol.HandleMessage`; raises exactly for a reply to a ref that is not waiting |
| RealtimeClient.AsyncRealtimeClient.Listen | realtime/_async/client.py:99-110 | only the channel registered for the topic sees a message |
| RealtimeClient.AsyncRealtimeClient.TimeoutWakes | realtime/_async/push.py:108-114 | the timeout is triggered, then the push's ref at that moment stops waiting |
| PresenceRuns.Converges | realtime/_async/presence.py:39-51 | after every message of any history of a server, a client that started in step or has had a snapshot holds exactly the server's refs per key |
| PresenceRuns.LogIsChangeLog | realtime/_async/presence.py:87-130 | for any history at all, replaying the join and leave calls turns the initial ref map into the final one, and every call's current list agrees with the replayed state |
| PresenceLog.DiffCalls | realtime/_async/presence.py:87-130 | any diff on any state makes exactly: per joined key in payload order a join call with the list stored before the diff; per left key up to the early exit a leave call with what it is left with |
| PresenceLog.EventCalls | realtime/_async/presence.py:39-51 | every message makes these calls and then exactly one sync call, the last |
| PresenceLog.SyncsOncePerMessage | realtime/_async/presence.py:43-51 | over any history the sync callback is called once per message |
| PresenceLog.DiffKeyOrder | realtime/_async/presence.py:90-128 | surviving stored keys keep their order, surviving new ones follow in payload order |
| PresenceRuns.SnapshotReportsJoinsOnce | realtime/_async/presence.py:53-106 | any snapshot on any state reports each newly present ref in exactly one join call and no other |
| PresenceRuns.SnapshotReportsLeavesOnce | realtime/_async/presence.py:53-130 | a snapshot that lacks no key stored with an empty list reports each vanished ref in exactly one leave call and no other |
| PresenceDiff.DiffSemantics | realtime/_async/presence.py:87-130 | non-empty joins and tracked leaves: per key old survivors in order, then the joined that stay; refs are (old + joined) - left; emptied keys are dropped; refs stay unique |
| PresenceDiff.DiffMeetsSpecIff | realtime/_async/presence.py:108-112 | any diff on any state: every key ends with (old + joined) - left refs exactly when each leave after one of a key without presences has nothing to remove |
| PresenceDiff.DiffMeetsMapIff | realtime/_async/presence.py:108-128 | the keys are the intended ones too exactly when besides no tracked key holds an empty list after the joins |
| PresenceDiff.EarlyExitMissesLeave | realtime/_async/presence.py:111-112 | a leave of an untracked key before a tracked one leaves everything as it was |
| PresenceDiff.EmptyListHidesLeave | realtime/_async/presence.py:109-112 | so does a leave of a tracked key with an empty list |
| PresenceDiff.AnyDiffAt | realtime/_async/presence.py:87-130 | any diff on any state: a key loses its left refs, and is dropped when emptied, exactly when the leave loop reaches it |
| PresenceDiff.ExitsAtVacant | realtime/_async/presence.py:108-112 | the leave loop stops at its first key without presences after the joins, and runs to its end exactly when there is none |
| PresenceDiff.DiffLists | realtime/_async/presence.py:87-130 | with such leaves absent, on any state: the exact list of every key, and refs stay unique |
| PresenceDiff.AllTracked | realtime/_async/presence.py:108-112 | with non-empty stored and joined lists and tracked leaves the early exit is never taken |
| PresenceSnapshot.SnapshotRefinesReplacement | realtime/_async/presence.py:53-85 | a snapshot leaves exactly its keys and refs; computed joins and leaves share no ref per key; the early exit is never taken |
| PresenceSnapshot.SnapshotDiffAt | realtime/_async/presence.py:58-83 | joins are the presences with unknown refs, leaves the stored ones whose refs are gone; keys without any do not occur |
| PresenceSnapshot.SyncStateAt | realtime/_async/presence.py:53-85 | a key's list after a snapshot: confirmed stored presences in their order, then the new ones |
| PresenceSnapshot.SnapshotReplacesIff | realtime/_async/presence.py:53-85 | any snapshot on any state: the result is the snapshot exactly when it has no empty list for a key with presences and lacks no key stored with an empty list |
| PresenceSnapshot.SnapshotLeavesReachedIff | realtime/_async/presence.py:108-112 | the early exit is not taken exactly when the snapshot lacks no key stored with an empty list |
| PresenceSnapshot.EmptyListBlocksSnapshots | realtime/_async/presence.py:79-83 | a new client whose first snapshot has an empty list for one key keeps the other key's presence through any number of empty snapshots |
| PresenceSnapshot.SnapshotIdempotent | realtime/_async/presence.py:53-85 | the same non-empty snapshot again changes no list and calls nothing, on any state of which it lacks no key with an empty list |
| PresenceSnapshot.SameSnapshotIsSilent | realtime/_async/presence.py:53-85 | so does any snapshot with the stored refs |
| PresenceSnapshot.JoinsIdempotent | realtime/_async/presence.py:87-106 | the same joins again give the same lists |
| PresenceTransform.RoundTrip | realtime/_async/presence.py:174-179 | renaming back recovers a meta without `phx_ref_prev`, if it had no `presence_ref` |
| PresenceTransform.RefKeptIff | realtime/_async/presence.py:177-178 | the decoded ref is `phx_ref` exactly when no other `presence_ref` is present |
| PresenceTransform.StateRoundTrip | realtime/_async/presence.py:169-180 | keys, list lengths and order are preserved and every such meta comes back |
| PresenceSync.TransformState | realtime/_async/presence.py:169-180 | decodes the payload, or raises when a meta lacks `phx_ref`; on success every meta in the payload is left without exactly the two ref fields |
| PresenceSync.TransformMetas | realtime/_async/presence.py:174-179 | the same for one key's list |
| PresenceSync.StrippedExactly | realtime/_async/presence.py:175-177 | a stripped meta has exactly the fields it had but `phx_ref` and `phx_ref_prev`, with their values |
| PresenceSync.AsyncRealtimePresence.SyncDiff | realtime/_async/presence.py:87-130 | the in-place loops compute `PresenceSpec.SyncDiff`, calls included |
| PresenceSync.AsyncRealtimePresence.AddJoins | realtime/_async/presence.py:90-106 | the join loop |
| PresenceSync.AsyncRealtimePresence.DropLeaves | realtime/_async/presence.py:108-128 | the leave loop with its early exit |
| PresenceSync.AsyncRealtimePresence.SyncState | realtime/_async/presence.py:53-85 | the loop that fills joins and leaves, then the diff, compute `PresenceSpec.SyncState` |
| PresenceSync.AsyncRealtimePresence.OnStateEvent | realtime/_async/presence.py:39-44 | decode, synchronise, report; nothing stored changes when decoding raises |
| PresenceSync.AsyncRealtimePresence.OnDiffEvent | realtime/_async/presence.py:46-51 | the same for a diff |

## Left out

- Channels and pushes as objects of their own: the client object holds them as rows of tables, named by their order of creation, and all methods of channels and pushes are methods of that one class; object identity is equality of positions, and aliasing between such objects is not modelled.
- Postgres callback objects: an entry of the list is updated in place by position; the user's callback is its position.
- The timer as a field of a channel is a value there; `AsyncTimer` is proved separately against the same functions.
- Interleavings inside one handler, failures inside a socket send and the reconnect they start, and a timer task that cancels itself from its own callback: a handler is one step and runs to completion.
- RealtimeClient.AsyncRealtimeClient.HandleMessage: an unknown ref raises `KeyError`, which ends the listening task; the model says that it raises and that nothing changes, not that listening stops.
- RealtimeClient.AsyncRealtimeClient.Listen: messages may arrive in any state, also while disconnected; this allows more runs than there are.
- `Reconnects` as an event of any state: the source reconnects only after an open connection broke; this allows more runs than there are, and the runs given as examples connect first.
- RealtimeClient.AsyncRealtimeClient.Connect: the outcome of each attempt is a parameter, and sleeping is recorded, not timed; a flush that fails is not modelled.
- PushRuns.SendBufferRefines: messages that the user gives to `send` directly and heartbeats, which have no ref, are no events of a run; `PushRuns.SocketRefines` covers messages of any kind at the socket.
- `AsyncRealtimeClient.CloseConnection`: the websocket's own closing handshake, and the listening and heartbeat tasks, are not part of this model.
- ProtocolLife.NeverStuck: for channels that are no longer registered the clause on joining fails, as `RemovedChannel.RemovedChannelCanHang` shows and `RemovedChannel.RejoinWakesIff` delimits; a leaving channel waits for an answer only, see `LeavingRuns`.
- PresenceRuns.Converges: about servers whose snapshots and joins have no empty lists and whose leaves are of tracked keys; what one diff or snapshot does on any other lists is said by `PresenceDiff.DiffMeetsMapIff` and `PresenceSnapshot.SnapshotReplacesIff`.
- PresenceSync.TransformState: expects that the metas of one payload are distinct objects, as parsing JSON yields; it does not say which metas are already stripped when decoding raises.
- PresenceSync.AsyncRealtimePresence.OnDiffEvent: expects in addition that the two parts of the payload share no meta object.
- PresenceSync.AsyncRealtimePresence.SyncDiff: the join, leave and sync callbacks are taken to be registered, and are recorded in a log.
- User callbacks that raise or call back into the client; `receive`, `send` and `resend` called by the user on a returned push; the direct `join`.
- Presence messages in the client's runs: the presence object is a machine of its own, and in `Protocol` such messages change nothing.
- Payloads of messages, access tokens, `set_auth`, heartbeats, `track`, `untrack`, broadcasts, `remove_all_channels`, the synchronous stubs, URL handling, logging, JSON and validation.
- How long a push timeout lasts; the numeric delays of the rejoin timer matter only in `Timers`.
