/** A rejoin that makes its own channel leave, and what the reply to that leave does. */
module SelfLeave {
  import opened PyDict
  import opened Refs
  import opened Pushes
  import opened PushesProofs
  import opened Protocol
  import opened ProtocolLife
  import opened ChannelRuns
  import opened Recovery
  import Bindings

  lemma ClosingHook(v: World, c: nat, rows: seq<Bindings.Row>)
    requires WorldOk(v) && c < |v.chans|
    ensures RunHooks(v, c, [Close], rows) == OnClose(v, c)
  {
    assert [Close][1..] == [];
    assert RunHooks(v, c, [Close], rows) == RunHooks(OnClose(v, c), c, [], rows);
  }

  /** The reply to a leave, whatever its status, closes and removes the channel. */
  lemma LeaveReplyCloses(w: World, c: nat, ref: string, ok: bool, rows: seq<Bindings.Row>)
    requires WorldOk(w) && c < |w.chans| && Registered(w, c) && LeaveWaits(w, c, ref) && ref != ""
    ensures Gone(Deliver(w, Topic(w, c), ReplyTo(Some(ref), ok, rows)), c)
  {
    var p := w.mail.boxes[c].waiting[ref];
    var resp := if ok then Response(Pushes.Ok, rows) else Response(Error, []);
    assert PushOk(w.mail, p);
    ReplyKeeps(w.mail, c, ref, resp);
    var v := w.(mail := Reply(w.mail, c, ref, resp));
    ClosingHook(v, c, resp.rows);
    ReplyIsHandled(w, c, ref, ok, rows);
  }

  /** A leave push of channel c waits for its reply under the ref. */
  ghost predicate LeaveWaits(w: World, c: nat, ref: string)
    requires WorldOk(w) && c < |w.chans|
  {
    ref in w.mail.boxes[c].waiting
    && var p := w.mail.boxes[c].waiting[ref]; p < |w.mail.pushes| && w.mail.pushes[p].kind == Leave
  }

  lemma UnsubLeaves(w: World, c: nat)
    requires WorldOk(w) && c < |w.chans|
    ensures var r := Unsub(w, c);
      r.mail.ref == w.mail.ref + 1 && LeaveWaits(r, c, Decimal(r.mail.ref)) && r.registry == w.registry
  {
  }

  lemma RejoinedBox(w: World, c: nat)
    requires WorldOk(w) && c < |w.chans|
    ensures var r := Rejoined(w, c);
      r.registry == w.registry
      && r.mail.boxes[c].waiting == w.mail.boxes[c].waiting[Decimal(w.mail.ref + 1) := JoinOf(w, c)]
  {
  }

  lemma RejoinedPushes(w: World, c: nat)
    requires WorldOk(w) && c < |w.chans|
    ensures |Rejoined(w, c).mail.pushes| == |w.mail.pushes|
    ensures forall p :: 0 <= p < |w.mail.pushes| ==>
      && Rejoined(w, c).mail.pushes[p].kind == w.mail.pushes[p].kind
      && Rejoined(w, c).mail.pushes[p].channel == w.mail.pushes[p].channel
  {
  }

  lemma RejoinedKeepsLeave(w: World, c: nat, n: nat)
    requires WorldOk(w) && c < |w.chans| && LeaveWaits(w, c, Decimal(n)) && n <= w.mail.ref
    ensures var r := Rejoined(w, c); LeaveWaits(r, c, Decimal(n)) && r.registry == w.registry
  {
    DecimalInjective(n, w.mail.ref + 1);
    RejoinedBox(w, c);
    RejoinedPushes(w, c);
  }

  /** The pushes of w are those of r, in kind and channel, and more may follow. */
  ghost predicate SamePushes(w: World, r: World) {
    && |w.mail.pushes| <= |r.mail.pushes|
    && forall p :: 0 <= p < |w.mail.pushes| ==>
         r.mail.pushes[p].kind == w.mail.pushes[p].kind && r.mail.pushes[p].channel == w.mail.pushes[p].channel
  }

  /** From w to r the p-th push was made, a leave of channel c. */
  predicate LeaveMade(w: World, r: World, c: nat, p: nat) {
    |w.mail.pushes| <= p < |r.mail.pushes| && r.mail.pushes[p].kind == Leave && r.mail.pushes[p].channel == c
  }

  /** Making the open topic leave makes at most one push, a leave of the joined or joining holder. */
  lemma LeaveOpenTopicPushes(w: World, topic: string)
    requires WorldOk(w)
    ensures var v := LeaveOpenTopic(w, topic);
      if topic in w.registry.vals && w.chans[w.registry.vals[topic]].state in {Joined, Joining} then
        && |v.mail.pushes| == |w.mail.pushes| + 1 && v.mail.pushes[|w.mail.pushes|].kind == Leave
        && v.mail.pushes[|w.mail.pushes|].channel == w.registry.vals[topic]
      else v == w
  {
  }

  /** The pushes that a rejoin makes: at most one, the leave of its topic's joined or joining holder. */
  lemma RejoinPushes(w: World, c: nat)
    requires WorldOk(w) && c < |w.chans| && w.chans[c].state != Leaving
    ensures var t, n, r := Topic(w, c), |w.mail.pushes|, Rejoin(w, c);
      if t in w.registry.vals && w.chans[w.registry.vals[t]].state in {Joined, Joining} then
        |r.mail.pushes| == n + 1 && r.mail.pushes[n].kind == Leave && r.mail.pushes[n].channel == w.registry.vals[t]
      else |r.mail.pushes| == n
  {
    var v := LeaveOpenTopic(w, Topic(w, c));
    LeaveOpenTopicPushes(w, Topic(w, c));
    LeavingKeepsJoin(w, Topic(w, c), c);
    RejoinedPushes(v, c);
  }

  lemma RegisteredHolds(w: World, c: nat)
    requires WorldOk(w) && c < |w.chans|
    ensures Registered(w, c) <==> Topic(w, c) in w.registry.vals && w.registry.vals[Topic(w, c)] == c
  {
  }

  /** `_rejoin` makes its own channel leave exactly when that channel is registered and joined or still joining. */
  lemma RejoinLeavesItselfIff(w: World, c: nat)
    requires WorldOk(w) && c < |w.chans| && w.chans[c].state != Leaving
    ensures (exists p :: LeaveMade(w, Rejoin(w, c), c, p))
      <==> Registered(w, c) && w.chans[c].state in {Joined, Joining}
  {
    RejoinPushes(w, c);
    RegisteredHolds(w, c);
    var n := |w.mail.pushes|;
    if Registered(w, c) && w.chans[c].state in {Joined, Joining} {
      assert LeaveMade(w, Rejoin(w, c), c, n);
    } else {
      forall p: nat ensures !LeaveMade(w, Rejoin(w, c), c, p) {
        assert n <= p < |Rejoin(w, c).mail.pushes| ==> p == n;
      }
    }
  }

  /** `_rejoin` on a registered channel that is joined or still joining leaves its own topic first. */
  lemma RejoinLeavesItself(w: World, c: nat)
    requires WorldOk(w) && c < |w.chans| && Registered(w, c) && w.chans[c].state in {Joined, Joining}
    ensures var r := Rejoin(w, c);
      r.chans[c].state == Joining && Registered(r, c) && LeaveWaits(r, c, Decimal(w.mail.ref + 1))
  {
    LeavingKeepsJoin(w, Topic(w, c), c);
    UnsubLeaves(w, c);
    RejoinedKeepsLeave(Unsub(w, c), c, w.mail.ref + 1);
    RejoinSends(w, c);
  }

  /** So the server's reply to that leave closes the channel although it is joining again. */
  lemma OwnLeaveClosesRejoining(w: World, c: nat, ok: bool)
    requires WorldOk(w) && c < |w.chans| && Registered(w, c) && w.chans[c].state in {Joined, Joining}
    ensures Rejoin(w, c).chans[c].state == Joining
    ensures Gone(Deliver(Rejoin(w, c), Topic(w, c), ReplyTo(Some(Decimal(w.mail.ref + 1)), ok, [])), c)
  {
    RejoinLeavesItself(w, c);
    LeavingKeepsJoin(w, Topic(w, c), c);
    LeaveReplyCloses(Rejoin(w, c), c, Decimal(w.mail.ref + 1), ok, []);
  }

  // ---------- Reconnecting ----------

  /** Channel c is registered and joining, and one of its own leaves waits under the ref. */
  ghost predicate JoinsWhileLeaving(w: World, c: nat, ref: string) {
    WorldOk(w) && c < |w.chans| && w.chans[c].state == Joining && Registered(w, c) && LeaveWaits(w, c, ref)
  }

  lemma UnsubKeepsBox(w: World, d: nat, c: nat)
    requires WorldOk(w) && d < |w.chans| && c < |w.chans| && d != c
    ensures var r := Unsub(w, d);
      r.mail.boxes[c] == w.mail.boxes[c] && r.registry == w.registry && SamePushes(w, r)
  {
  }

  lemma UnsubOfOther(w: World, d: nat, c: nat, ref: string)
    requires JoinsWhileLeaving(w, c, ref) && d < |w.chans| && d != c
    ensures JoinsWhileLeaving(Unsub(w, d), c, ref)
  {
    UnsubFrame(w, d, c);
    UnsubKeepsBox(w, d, c);
  }

  lemma RejoinedOther(w: World, d: nat, c: nat, ref: string)
    requires JoinsWhileLeaving(w, c, ref) && d < |w.chans| && d != c
    ensures JoinsWhileLeaving(Rejoined(w, d), c, ref)
  {
    RejoinedPushes(w, d);
  }

  lemma RejoinOther(w: World, d: nat, c: nat, ref: string)
    requires JoinsWhileLeaving(w, c, ref) && d < |w.chans| && Topic(w, d) != Topic(w, c)
    ensures JoinsWhileLeaving(Rejoin(w, d), c, ref)
  {
    var t := Topic(w, d);
    if w.chans[d].state != Leaving {
      if t in w.registry.vals {
        UnsubOfOther(w, w.registry.vals[t], c, ref);
      }
      RejoinedOther(LeaveOpenTopic(w, t), d, c, ref);
    }
  }

  lemma RejoinedKeepsTopic(v: World, d: nat, c: nat)
    requires WorldOk(v) && d < |v.chans| && c < |v.chans|
    ensures Topic(Rejoined(v, d), c) == Topic(v, c)
  {
  }

  lemma RejoinKeepsTopic(w: World, d: nat, c: nat)
    requires WorldOk(w) && d < |w.chans| && c < |w.chans|
    ensures Topic(Rejoin(w, d), c) == Topic(w, c)
  {
    LeavingKeepsJoin(w, Topic(w, d), c);
    if w.chans[d].state != Leaving {
      RejoinedKeepsTopic(LeaveOpenTopic(w, Topic(w, d)), d, c);
    }
  }

  lemma {:induction false} RejoinAllOthers(w: World, topics: seq<string>, c: nat, ref: string)
    requires JoinsWhileLeaving(w, c, ref) && Topic(w, c) !in topics && forall t :: t in topics ==> t in w.registry.vals
    ensures JoinsWhileLeaving(RejoinAll(w, topics), c, ref)
    decreases |topics|
  {
    if topics != [] {
      assert topics[0] in topics;
      var v := Rejoin(w, w.registry.vals[topics[0]]);
      RejoinOther(w, w.registry.vals[topics[0]], c, ref);
      RejoinKeepsTopic(w, w.registry.vals[topics[0]], c);
      RejoinAllOthers(v, topics[1..], c, ref);
    }
  }

  /** A registered channel that is joined or joining, before its turn in the loop. */
  ghost predicate IsOpen(w: World, c: nat) {
    WorldOk(w) && c < |w.chans| && Registered(w, c) && w.chans[c].state in {Joined, Joining}
  }

  lemma RejoinBeforeTurn(w: World, d: nat, c: nat)
    requires IsOpen(w, c) && d < |w.chans| && Topic(w, d) != Topic(w, c)
    ensures var r := Rejoin(w, d); IsOpen(r, c) && r.mail.ref >= w.mail.ref && Topic(r, c) == Topic(w, c)
  {
    var t := Topic(w, d);
    RejoinKeepsTopic(w, d, c);
    if w.chans[d].state != Leaving {
      LeavingKeepsJoin(w, t, c);
      if t in w.registry.vals {
        UnsubFrame(w, w.registry.vals[t], c);
      }
      RejoinedFrame(LeaveOpenTopic(w, t), d, c);
      RejoinSends(w, d);
    }
  }

  lemma OwnTurn(w: World, rest: seq<string>, c: nat)
    requires IsOpen(w, c) && Topic(w, c) !in rest && forall t :: t in rest ==> t in w.registry.vals
    ensures JoinsWhileLeaving(RejoinAll(Rejoin(w, c), rest), c, Decimal(w.mail.ref + 1))
  {
    RejoinLeavesItself(w, c);
    RejoinKeepsTopic(w, c, c);
    RejoinAllOthers(Rejoin(w, c), rest, c, Decimal(w.mail.ref + 1));
  }

  /** The loop over the registered topics makes each open channel join again with its own leave waiting. */
  lemma {:induction false} RejoinAllLeaves(w: World, topics: seq<string>, c: nat) returns (n: nat)
    requires IsOpen(w, c) && Topic(w, c) in topics && Distinct(topics)
    requires forall t :: t in topics ==> t in w.registry.vals
    ensures n > w.mail.ref && JoinsWhileLeaving(RejoinAll(w, topics), c, Decimal(n))
    decreases |topics|
  {
    var d, rest := w.registry.vals[topics[0]], topics[1..];
    var v := Rejoin(w, d);
    assert topics == [topics[0]] + rest && topics[0] !in rest;
    if topics[0] == Topic(w, c) {
      n := w.mail.ref + 1;
      OwnTurn(w, rest, c);
    } else {
      RejoinBeforeTurn(w, d, c);
      n := RejoinAllLeaves(v, rest, c);
    }
  }

  lemma SocketKeepsOpen(w: World, c: nat)
    requires IsOpen(w, c)
    ensures var v := Connect(CloseSocket(w), true);
      && IsOpen(v, c) && Topic(v, c) == Topic(w, c) && v.mail.ref == w.mail.ref && v.mail.connected
      && Topic(v, c) in v.registry.keys
  {
  }

  /**
   * A reconnect makes every registered channel that was joined or joining join again with a new leave of
   * its own waiting.
   */
  lemma ReconnectLeavesItself(w: World, c: nat) returns (n: nat)
    requires IsOpen(w, c)
    ensures n > w.mail.ref && JoinsWhileLeaving(Step(w, Reconnects(true)), c, Decimal(n))
  {
    var v := Connect(CloseSocket(w), true);
    SocketKeepsOpen(w, c);
    ReconnectStep(w, Reconnects(true));
    ReconnectRejoinsAll(w);
    n := RejoinAllLeaves(v, v.registry.keys, c);
  }

  /** And in whatever later state that leave still waits, its reply closes the channel. */
  lemma ReconnectCloses(w: World, c: nat, more: seq<Event>, ok: bool) returns (n: nat)
    requires IsOpen(w, c)
    ensures n > w.mail.ref && JoinsWhileLeaving(Step(w, Reconnects(true)), c, Decimal(n))
    ensures var v := RunFrom(Step(w, Reconnects(true)), more);
      c < |v.chans| && Registered(v, c) && LeaveWaits(v, c, Decimal(n)) ==>
      Gone(Step(v, Receives(Topic(v, c), ReplyTo(Some(Decimal(n)), ok, []))), c)
  {
    n := ReconnectLeavesItself(w, c);
    var v := RunFrom(Step(w, Reconnects(true)), more);
    if c < |v.chans| && Registered(v, c) && LeaveWaits(v, c, Decimal(n)) {
      LeaveReplyCloses(v, c, Decimal(n), ok, []);
    }
  }

  // ---------- A reconnect makes one leave of each open channel, and no other ----------

  /** The leaves ever made of channel c. */
  function LeavesOf(w: World, c: nat): set<nat> {
    set p: nat | p < |w.mail.pushes| && w.mail.pushes[p].kind == Leave && w.mail.pushes[p].channel == c
  }

  /** From w to r exactly one leave of channel c was made. */
  ghost predicate OneLeaveMade(w: World, r: World, c: nat) {
    exists p :: LeaveMade(w, r, c, p) && LeavesOf(r, c) == LeavesOf(w, c) + {p}
  }

  lemma LeaveOpenTopicKeeps(w: World, topic: string)
    requires WorldOk(w)
    ensures SamePushes(w, LeaveOpenTopic(w, topic))
  {
  }

  lemma RejoinKeepsPushes(w: World, d: nat)
    requires WorldOk(w) && d < |w.chans|
    ensures SamePushes(w, Rejoin(w, d))
  {
    if w.chans[d].state != Leaving {
      LeaveOpenTopicKeeps(w, Topic(w, d));
      LeavingKeepsJoin(w, Topic(w, d), d);
      RejoinedPushes(LeaveOpenTopic(w, Topic(w, d)), d);
    }
  }

  lemma NoNewLeaves(w: World, r: World, c: nat)
    requires SamePushes(w, r) && forall p :: |w.mail.pushes| <= p < |r.mail.pushes| ==> r.mail.pushes[p].channel != c
    ensures LeavesOf(r, c) == LeavesOf(w, c)
  {
  }

  lemma NewLeave(w: World, r: World, c: nat)
    requires SamePushes(w, r) && |r.mail.pushes| == |w.mail.pushes| + 1 && LeaveMade(w, r, c, |w.mail.pushes|)
    ensures OneLeaveMade(w, r, c)
  {
    assert LeavesOf(r, c) == LeavesOf(w, c) + {|w.mail.pushes|};
  }

  lemma RejoinSparesOthers(w: World, d: nat, c: nat)
    requires WorldOk(w) && c < |w.chans| && d < |w.chans| && Topic(w, d) != Topic(w, c)
    ensures Rejoin(w, d).chans[c] == w.chans[c]
  {
    var t := Topic(w, d);
    if w.chans[d].state != Leaving {
      LeavingKeepsJoin(w, t, c);
      if t in w.registry.vals {
        UnsubFrame(w, w.registry.vals[t], c);
      }
      RejoinedFrame(LeaveOpenTopic(w, t), d, c);
    }
  }

  lemma HolderElsewhere(w: World, topic: string, c: nat)
    requires WorldOk(w) && c < |w.chans| && topic != Topic(w, c)
    ensures topic in w.registry.vals ==> w.registry.vals[topic] != c
  {
  }

  lemma NewPushesElsewhere(w: World, d: nat, c: nat)
    requires WorldOk(w) && c < |w.chans| && d < |w.chans| && Topic(w, d) != Topic(w, c) && w.chans[d].state != Leaving
    ensures forall p :: |w.mail.pushes| <= p < |Rejoin(w, d).mail.pushes| ==> Rejoin(w, d).mail.pushes[p].channel != c
  {
    var n, r := |w.mail.pushes|, Rejoin(w, d);
    RejoinPushes(w, d);
    HolderElsewhere(w, Topic(w, d), c);
    forall p | n <= p < |r.mail.pushes| ensures r.mail.pushes[p].channel != c {
      assert p == n;
    }
  }

  /** A rejoin for another topic makes no leave of channel c and does not touch it. */
  lemma RejoinElsewhere(w: World, d: nat, c: nat)
    requires WorldOk(w) && c < |w.chans| && d < |w.chans| && Topic(w, d) != Topic(w, c)
    ensures var r := Rejoin(w, d); LeavesOf(r, c) == LeavesOf(w, c) && r.chans[c] == w.chans[c] && SamePushes(w, r)
  {
    RejoinKeepsPushes(w, d);
    RejoinSparesOthers(w, d, c);
    if w.chans[d].state != Leaving {
      NewPushesElsewhere(w, d, c);
      NoNewLeaves(w, Rejoin(w, d), c);
    }
  }

  lemma RejoinOwn(w: World, c: nat)
    requires WorldOk(w) && c < |w.chans| && Registered(w, c)
    ensures var r := Rejoin(w, c);
      && SamePushes(w, r)
      && if IsOpen(w, c) then OneLeaveMade(w, r, c) else LeavesOf(r, c) == LeavesOf(w, c)
  {
    RejoinKeepsPushes(w, c);
    RegisteredHolds(w, c);
    if w.chans[c].state != Leaving {
      RejoinPushes(w, c);
      if IsOpen(w, c) {
        NewLeave(w, Rejoin(w, c), c);
      } else {
        NoNewLeaves(w, Rejoin(w, c), c);
      }
    }
  }

  lemma {:induction false} RejoinAllElsewhere(w: World, topics: seq<string>, c: nat)
    requires WorldOk(w) && c < |w.chans| && Topic(w, c) !in topics && forall t :: t in topics ==> t in w.registry.vals
    ensures LeavesOf(RejoinAll(w, topics), c) == LeavesOf(w, c)
    decreases |topics|
  {
    if topics != [] {
      assert topics[0] in topics;
      var d := w.registry.vals[topics[0]];
      RejoinElsewhere(w, d, c);
      RejoinKeepsTopic(w, d, c);
      RejoinAllElsewhere(Rejoin(w, d), topics[1..], c);
    }
  }

  lemma OneLeaveLater(w: World, v: World, r: World, c: nat)
    requires SamePushes(w, v) && LeavesOf(v, c) == LeavesOf(w, c) && OneLeaveMade(v, r, c)
    ensures OneLeaveMade(w, r, c)
  {
    var p :| LeaveMade(v, r, c, p) && LeavesOf(r, c) == LeavesOf(v, c) + {p};
    assert LeaveMade(w, r, c, p);
  }

  lemma OneLeaveEarlier(w: World, v: World, r: World, c: nat)
    requires OneLeaveMade(w, v, c) && LeavesOf(r, c) == LeavesOf(v, c)
    ensures OneLeaveMade(w, r, c)
  {
    var p :| LeaveMade(w, v, c, p) && LeavesOf(v, c) == LeavesOf(w, c) + {p};
    assert p in LeavesOf(r, c);
    assert LeaveMade(w, r, c, p);
  }

  /** The leaves of channel c that the loop makes: one when it is open, else none. */
  ghost predicate LeavesIfOpen(w: World, r: World, c: nat) {
    if IsOpen(w, c) then OneLeaveMade(w, r, c) else LeavesOf(r, c) == LeavesOf(w, c)
  }

  lemma LeavesAtTurn(w: World, rest: seq<string>, c: nat)
    requires WorldOk(w) && c < |w.chans| && Registered(w, c) && Topic(w, c) !in rest
    requires forall t :: t in rest ==> t in w.registry.vals
    ensures LeavesIfOpen(w, RejoinAll(Rejoin(w, c), rest), c)
  {
    var v := Rejoin(w, c);
    RejoinOwn(w, c);
    RejoinKeepsTopic(w, c, c);
    RejoinAllElsewhere(v, rest, c);
    if IsOpen(w, c) {
      OneLeaveEarlier(w, v, RejoinAll(v, rest), c);
    }
  }

  lemma LeavesBeforeTurn(w: World, d: nat, r: World, c: nat)
    requires WorldOk(w) && c < |w.chans| && d < |w.chans| && Registered(w, c) && Topic(w, d) != Topic(w, c)
    requires LeavesIfOpen(Rejoin(w, d), r, c)
    ensures LeavesIfOpen(w, r, c)
  {
    RejoinElsewhere(w, d, c);
    RejoinKeepsTopic(w, d, c);
    if IsOpen(w, c) {
      OneLeaveLater(w, Rejoin(w, d), r, c);
    }
  }

  lemma {:induction false} RejoinAllLeavesIf(w: World, topics: seq<string>, c: nat)
    requires WorldOk(w) && c < |w.chans| && Registered(w, c) && Topic(w, c) in topics && Distinct(topics)
    requires forall t :: t in topics ==> t in w.registry.vals
    ensures LeavesIfOpen(w, RejoinAll(w, topics), c)
    decreases |topics|
  {
    var d, rest := w.registry.vals[topics[0]], topics[1..];
    assert topics == [topics[0]] + rest && topics[0] !in rest;
    if topics[0] == Topic(w, c) {
      LeavesAtTurn(w, rest, c);
    } else {
      RejoinKeepsTopic(w, d, c);
      RejoinAllLeavesIf(Rejoin(w, d), rest, c);
      LeavesBeforeTurn(w, d, RejoinAll(w, topics), c);
    }
  }

  lemma SocketKeepsRegistered(w: World, c: nat)
    requires WorldOk(w) && c < |w.chans| && Registered(w, c)
    ensures var v := Connect(CloseSocket(w), true);
      && v.mail.pushes == w.mail.pushes && v.chans == w.chans && Registered(v, c) && Topic(v, c) in v.registry.keys
  {
  }

  lemma EitherWay(w: World, r: World, c: nat)
    requires LeavesIfOpen(w, r, c)
    ensures OneLeaveMade(w, r, c) <==> IsOpen(w, c)
    ensures LeavesOf(r, c) == LeavesOf(w, c) <==> !IsOpen(w, c)
  {
    if OneLeaveMade(w, r, c) {
      var p :| LeaveMade(w, r, c, p) && LeavesOf(r, c) == LeavesOf(w, c) + {p};
      assert p !in LeavesOf(w, c) && p in LeavesOf(r, c);
    }
  }

  /** A reconnect makes exactly one leave of a registered channel that is joined or joining, and none of any other. */
  lemma ReconnectLeavesItselfIff(w: World, c: nat)
    requires WorldOk(w) && c < |w.chans| && Registered(w, c)
    ensures var r := Step(w, Reconnects(true));
      && (OneLeaveMade(w, r, c) <==> IsOpen(w, c))
      && (LeavesOf(r, c) == LeavesOf(w, c) <==> !IsOpen(w, c))
  {
    var v := Connect(CloseSocket(w), true);
    ReconnectStep(w, Reconnects(true));
    ReconnectRejoinsAll(w);
    SocketKeepsRegistered(w, c);
    RejoinAllLeavesIf(v, v.registry.keys, c);
    EitherWay(w, Step(w, Reconnects(true)), c);
  }

  // ---------- A run in which it happens ----------

  lemma CreatedOpens(w: World, name: string)
    requires WorldOk(w)
    ensures var r, c := CreateChannel(w, name), |w.chans|;
      && |r.chans| == c + 1 && Registered(r, c) && r.chans[c] == NEW_CHAN && r.mail.connected == w.mail.connected
  {
  }

  lemma RoomOpens()
    ensures var w := Run([Connects(true), Creates("room")]);
      |w.chans| == 1 && Registered(w, 0) && w.chans[0] == NEW_CHAN && w.mail.connected
  {
    NewClientOk();
    ConnectedClient();
    CreatedOpens(Run([Connects(true)]), "room");
    LastStep(NEW_CLIENT, [Connects(true), Creates("room")], [Connects(true)], Creates("room"));
  }

  lemma SubscribeOpens(w: World, c: nat)
    requires WorldOk(w) && c < |w.chans| && Registered(w, c) && w.chans[c] == NEW_CHAN && w.mail.connected
    ensures var r := Step(w, Subscribes(c, true)); IsOpen(r, c) && r.mail.connected
  {
    SubscribeSendsJoin(w, c, true);
  }

  lemma SubscribedRun(events: seq<Event>, c: nat)
    requires c < |Run(events).chans| && Registered(Run(events), c) && Run(events).chans[c] == NEW_CHAN
    requires Run(events).mail.connected
    ensures IsOpen(Run(events + [Subscribes(c, true)]), c)
  {
    NewClientOk();
    SubscribeOpens(Run(events), c);
    ThenStep(NEW_CLIENT, events, Subscribes(c, true));
  }

  lemma OpenIsClosedAfterReconnect(w: World, c: nat) returns (n: nat)
    requires IsOpen(w, c)
    ensures var r := Step(w, Reconnects(true));
      JoinsWhileLeaving(r, c, Decimal(n))
      && Gone(Step(r, Receives(Topic(r, c), ReplyTo(Some(Decimal(n)), true, []))), c)
  {
    n := ReconnectLeavesItself(w, c);
    LeaveReplyCloses(Step(w, Reconnects(true)), c, Decimal(n), true, []);
  }

  lemma ReconnectedRun(events: seq<Event>, c: nat) returns (n: nat)
    requires IsOpen(Run(events), c)
    ensures var w := Run(events + [Reconnects(true)]);
      && JoinsWhileLeaving(w, c, Decimal(n))
      && Gone(Step(w, Receives(Topic(w, c), ReplyTo(Some(Decimal(n)), true, []))), c)
  {
    NewClientOk();
    n := OpenIsClosedAfterReconnect(Run(events), c);
    ThenStep(NEW_CLIENT, events, Reconnects(true));
  }

  /** Connected and subscribed, then one reconnect: the reply to its leave closes the channel that is joining again. */
  lemma SubscribedChannelIsClosed() returns (n: nat)
    ensures var w := Run([Connects(true), Creates("room")] + [Subscribes(0, true)] + [Reconnects(true)]);
      && JoinsWhileLeaving(w, 0, Decimal(n))
      && Gone(Step(w, Receives(Topic(w, 0), ReplyTo(Some(Decimal(n)), true, []))), 0)
  {
    RoomOpens();
    SubscribedRun([Connects(true), Creates("room")], 0);
    n := ReconnectedRun([Connects(true), Creates("room")] + [Subscribes(0, true)], 0);
  }
}
