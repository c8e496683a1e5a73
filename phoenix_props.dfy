/**
 * Properties of the Phoenix Channels client, stated and proved on the
 * specification functions of PhoenixState (which the `Socket` methods of
 * PhoenixSocket are proved to implement).
 */
module PhoenixProps {
  import opened Wrappers
  import opened Json
  import opened Decimal
  import opened Serializer
  import opened Seqs
  import opened PhoenixState

  // ================================================================ frames

  lemma ExtendsTrans(a: World, b: World, c: World)
    requires Extends(a, b) && Extends(b, c)
    ensures Extends(a, c)
  {
    assert c.wire[..|a.wire|] == c.wire[..|b.wire|][..|a.wire|];
    assert c.calls[..|a.calls|] == c.calls[..|b.calls|][..|a.calls|];
  }

  /** Calling one binding keeps the socket, the pushes and the frames sent. */
  lemma RunBindingExtends(w: World, c: ChanId, b: Binding, payload: Json, ref: Json, joinRef: Json)
    ensures var r := RunBinding(w, c, b, payload, ref, joinRef);
      Extends(w, r) && r.pushes == w.pushes && r.wire == w.wire && r.sendBuffer == w.sendBuffer
  {
  }

  lemma {:induction false} RunBindingsExtends(w: World, c: ChanId, bs: seq<Binding>, payload: Json, ref: Json, joinRef: Json)
    ensures var r := RunBindings(w, c, bs, payload, ref, joinRef);
      Extends(w, r) && r.pushes == w.pushes && r.wire == w.wire && r.sendBuffer == w.sendBuffer
    decreases |bs|
  {
    if bs != [] {
      var mid := RunBindings(w, c, bs[..|bs| - 1], payload, ref, joinRef);
      RunBindingsExtends(w, c, bs[..|bs| - 1], payload, ref, joinRef);
      RunBindingExtends(mid, c, bs[|bs| - 1], payload, ref, joinRef);
      ExtendsTrans(w, mid, RunBindings(w, c, bs, payload, ref, joinRef));
    }
  }

  lemma DispatchExtends(w: World, c: ChanId, event: Json, payload: Json, ref: Json, joinRef: Json)
    ensures var r := Dispatch(w, c, event, payload, ref, joinRef);
      Extends(w, r) && r.pushes == w.pushes && r.wire == w.wire && r.sendBuffer == w.sendBuffer
  {
    if c in w.chans {
      RunBindingsExtends(w, c, MatchingBindings(w.chans[c].bindings, event), payload, ref, joinRef);
    }
  }

  lemma RunHookExtends(w: World, pid: PushId, c: ChanId, cb: Callback, response: Json)
    ensures Extends(w, RunHook(w, pid, c, cb, response))
  {
    match cb
    case JoinOk =>
      if c in w.chans {
        var w1 := SetState(w, c, Joined);
        var w2 := SendAll(w1, w.chans[c].pushBuffer);
        ExtendsTrans(w, w1, w2);
      }
    case CloseOnLeave => DispatchExtends(w, c, JStr(CloseEvent), JStr("leave"), JNull, JNull);
    case _ =>
  }

  lemma {:induction false} RunHooksExtends(w: World, pid: PushId, c: ChanId, hs: seq<Hook>, response: Json)
    ensures Extends(w, RunHooks(w, pid, c, hs, response))
    decreases |hs|
  {
    if hs != [] {
      var mid := RunHooks(w, pid, c, hs[..|hs| - 1], response);
      RunHooksExtends(w, pid, c, hs[..|hs| - 1], response);
      RunHookExtends(mid, pid, c, hs[|hs| - 1].callback, response);
      ExtendsTrans(w, mid, RunHooks(w, pid, c, hs, response));
    }
  }

  lemma PushTriggerExtends(w: World, pid: PushId, status: Json, response: Json)
    ensures Extends(w, PushTrigger(w, pid, status, response))
  {
    if pid in w.pushes {
      var p := w.pushes[pid];
      var w1 := w.(pushes := w.pushes[pid := p.(receivedResp := Some(Resp(status, response)))]);
      RunHooksExtends(w1, pid, p.chan, MatchingHooks(p.recHooks, status), response);
      ExtendsTrans(w, w1, PushTrigger(w, pid, status, response));
    }
  }

  lemma ChannelTriggerExtends(w: World, c: ChanId, event: Json, payload: Json, ref: Json, joinRef: Json)
    ensures Extends(w, ChannelTrigger(w, c, event, payload, ref, joinRef))
  {
    if IsJoinReply(w, c, event, ref) {
      var jp := w.chans[c].joinPush;
      var w1 := w.(pushes := w.pushes[jp := CancelTimeout(w.pushes[jp])]);
      PushTriggerExtends(w1, jp, Field(payload, "status"), OrElse(Field(payload, "response"), EmptyObject));
      ExtendsTrans(w, w1, ChannelTrigger(w, c, event, payload, ref, joinRef));
    } else {
      DispatchExtends(w, c, event, payload, ref, joinRef);
    }
  }

  lemma {:induction false} ErrorChannelsExtends(w: World, cs: seq<ChanId>)
    ensures Extends(w, ErrorChannels(w, cs))
    decreases |cs|
  {
    if cs != [] {
      var mid := ErrorChannels(w, cs[..|cs| - 1]);
      ErrorChannelsExtends(w, cs[..|cs| - 1]);
      ChannelTriggerExtends(mid, cs[|cs| - 1], JStr(ErrorEvent), JNull, JNull, JNull);
      ExtendsTrans(w, mid, ErrorChannels(w, cs));
    }
  }

  lemma {:induction false} TriggerAllExtends(w: World, cs: seq<ChanId>, m: Message)
    ensures Extends(w, TriggerAll(w, cs, m))
    decreases |cs|
  {
    if cs != [] {
      var mid := TriggerAll(w, cs[..|cs| - 1], m);
      TriggerAllExtends(w, cs[..|cs| - 1], m);
      ChannelTriggerExtends(mid, cs[|cs| - 1], m.event, m.payload, m.ref, m.joinRef);
      ExtendsTrans(w, mid, TriggerAll(w, cs, m));
    }
  }

  // ================================================================ refs

  /** `makeRef()` applied `k` times. */
  function MakeRefs(w: World, k: nat): World
    decreases k
  {
    if k == 0 then w else MakeRef(MakeRefs(w, k - 1))
  }

  /**
   * Below 2^53 every `makeRef()` returns one more than the last, so the
   * references handed out by successive calls are pairwise distinct strings.
   */
  lemma MakeRefIncreasing(w: World, i: nat, j: nat)
    requires i < j && w.ref + j <= MaxSafeRef
    ensures MakeRefs(w, j).ref == w.ref + j && MakeRefs(w, i).ref == w.ref + i
    ensures RefString(MakeRefs(w, i).ref) != RefString(MakeRefs(w, j).ref)
  {
    MakeRefsCount(w, i);
    MakeRefsCount(w, j);
    NatToStringInjective(w.ref + i, w.ref + j);
  }

  lemma {:induction false} MakeRefsCount(w: World, k: nat)
    requires w.ref + k <= MaxSafeRef
    ensures MakeRefs(w, k).ref == w.ref + k
    decreases k
  {
    if k > 0 {
      MakeRefsCount(w, k - 1);
    }
  }

  /** At 2^53 the counter can no longer grow and restarts from 0. */
  lemma MakeRefWraps(w: World)
    requires w.ref >= MaxSafeRef
    ensures MakeRef(w).ref == 0 && RefString(MakeRef(w).ref) == JStr("0")
  {
  }

  // ================================================================ pushes

  /** The frame `Push.send` hands to the socket for push `pid` under reference `r`. */
  function SendMessage(w: World, pid: PushId, r: Json): Message
    requires pid in w.pushes
  {
    var p := w.pushes[pid];
    Message(JoinRefOf(w, p.chan), r, JStr(TopicOf(w, p.chan)), JStr(p.event), p.payload)
  }

  /** Push.send keeps the identity, payload and outcome of every push. */
  predicate SameRequests(w: World, r: World) {
    w.pushes.Keys == r.pushes.Keys &&
    forall q :: q in w.pushes ==>
      r.pushes[q].chan == w.pushes[q].chan && r.pushes[q].event == w.pushes[q].event &&
      r.pushes[q].payload == w.pushes[q].payload && r.pushes[q].receivedResp == w.pushes[q].receivedResp
  }

  /**
   * `Push.send`: after a "timeout" result nothing happens; otherwise the push is
   * marked sent, takes the next reference, and its frame goes to the wire when
   * the socket is connected or to the end of the deferred buffer when it is not.
   */
  lemma PushSendEffect(w: World, pid: PushId)
    requires pid in w.pushes
    ensures var r := PushSend(w, pid);
      SameRequests(w, r) &&
      (HasReceived(w.pushes[pid], "timeout") ==> r == w) &&
      (!HasReceived(w.pushes[pid], "timeout") ==>
        var ref := RefString(NextRef(w.ref));
        r.ref == NextRef(w.ref) && r.pushes[pid].sent && r.pushes[pid].ref == ref &&
        r.pushes[pid].timer != Unset &&
        (IsConnected(w) ==> r.wire == w.wire + [Encode(SendMessage(r, pid, ref))] && r.sendBuffer == w.sendBuffer) &&
        (!IsConnected(w) ==> r.sendBuffer == w.sendBuffer + [SendMessage(r, pid, ref)] && r.wire == w.wire))
  {
    PushSendSameRequests(w, pid);
    if !HasReceived(w.pushes[pid], "timeout") {
      var p := w.pushes[pid];
      var w1 := MakeRef(w);
      var ref := RefString(w1.ref);
      var w2 := w1.(pushes := w1.pushes[pid := StartTimeout(p).(sent := true, ref := ref)]);
      var m := Message(JoinRefOf(w2, p.chan), ref, JStr(TopicOf(w2, p.chan)), JStr(p.event), p.payload);
      var r := SocketPush(w2, m);
      assert PushSend(w, pid) == r;
      assert r.pushes == w2.pushes && r.chans == w2.chans;
      assert SendMessage(r, pid, ref) == m;
    }
  }

  lemma PushSendSameRequests(w: World, pid: PushId)
    ensures SameRequests(w, PushSend(w, pid))
  {
    if pid in w.pushes && !HasReceived(w.pushes[pid], "timeout") {
      var p := w.pushes[pid];
      var w1 := MakeRef(w);
      var ref := RefString(w1.ref);
      var w2 := w1.(pushes := w1.pushes[pid := StartTimeout(p).(sent := true, ref := ref)]);
      var m := Message(JoinRefOf(w2, p.chan), ref, JStr(TopicOf(w2, p.chan)), JStr(p.event), p.payload);
      assert PushSend(w, pid).pushes == w2.pushes;
    }
  }

  lemma SameRequestsTrans(a: World, b: World, c: World)
    requires SameRequests(a, b) && SameRequests(b, c)
    ensures SameRequests(a, c)
  {
  }

  /** A frame that decodes to a message with the push's event and payload. */
  predicate Carries(frame: Json, p: Push) {
    Decode(frame).Some? && Decode(frame).value.event == JStr(p.event) && Decode(frame).value.payload == p.payload
  }

  /** The i-th new frame carries the event and payload of the i-th push. */
  predicate FramesFor(w: World, r: World, ps: seq<PushId>)
    requires forall i :: 0 <= i < |ps| ==> ps[i] in w.pushes
  {
    |r.wire| == |w.wire| + |ps| && r.wire[..|w.wire|] == w.wire &&
    forall i :: 0 <= i < |ps| ==> Carries(r.wire[|w.wire| + i], w.pushes[ps[i]])
  }

  lemma FramesForSnoc(w: World, mid: World, r: World, init: seq<PushId>, last: PushId, m: Message)
    requires forall i :: 0 <= i < |init| ==> init[i] in w.pushes
    requires last in w.pushes && FramesFor(w, mid, init)
    requires r.wire == mid.wire + [Encode(m)]
    requires m.event == JStr(w.pushes[last].event) && m.payload == w.pushes[last].payload
    ensures FramesFor(w, r, init + [last])
  {
    var ps := init + [last];
    forall i | 0 <= i < |ps| ensures Carries(r.wire[|w.wire| + i], w.pushes[ps[i]]) {
      if i < |init| {
        assert ps[i] == init[i] && r.wire[|w.wire| + i] == mid.wire[|w.wire| + i];
      } else {
        assert ps[i] == last && r.wire[|w.wire| + i] == Encode(m);
      }
    }
    assert r.wire[..|w.wire|] == mid.wire[..|w.wire|];
    assert FramesFor(w, r, ps);
  }

  /** Sending one more push after a run of sends extends the frame relation by that push. */
  lemma SendOneMore(w: World, mid: World, init: seq<PushId>, last: PushId)
    requires forall i :: 0 <= i < |init| ==> init[i] in w.pushes
    requires last in w.pushes && !HasReceived(w.pushes[last], "timeout")
    requires IsConnected(mid) && SameRequests(w, mid) && FramesFor(w, mid, init)
    ensures SameRequests(w, PushSend(mid, last)) && FramesFor(w, PushSend(mid, last), init + [last])
  {
    var r := PushSend(mid, last);
    PushSendEffect(mid, last);
    SameRequestsTrans(w, mid, r);
    FramesForSnoc(w, mid, r, init, last, SendMessage(r, last, RefString(NextRef(mid.ref))));
  }

  lemma SendAllSnoc(w: World, init: seq<PushId>, last: PushId)
    requires IsConnected(w)
    requires forall i :: 0 <= i < |init| ==> init[i] in w.pushes
    requires last in w.pushes && !HasReceived(w.pushes[last], "timeout")
    requires SameRequests(w, SendAll(w, init)) && FramesFor(w, SendAll(w, init), init)
    ensures SameRequests(w, SendAll(w, init + [last])) && FramesFor(w, SendAll(w, init + [last]), init + [last])
  {
    var mid := SendAll(w, init);
    assert (init + [last])[..|init|] == init;
    assert SendAll(w, init + [last]) == PushSend(mid, last);
    SendOneMore(w, mid, init, last);
  }

  /**
   * `pushBuffer.forEach(push => push.send())` on a connected socket: one frame
   * per push, in buffer order, when none of them has already timed out.
   */
  lemma {:induction false} SendAllInOrder(w: World, ps: seq<PushId>)
    requires IsConnected(w)
    requires forall i :: 0 <= i < |ps| ==> ps[i] in w.pushes && !HasReceived(w.pushes[ps[i]], "timeout")
    ensures SameRequests(w, SendAll(w, ps)) && FramesFor(w, SendAll(w, ps), ps)
    decreases |ps|
  {
    if ps != [] {
      var init, last := ps[..|ps| - 1], ps[|ps| - 1];
      assert init + [last] == ps;
      SendAllInOrder(w, init);
      SendAllSnoc(w, init, last);
    }
  }


  /** Every hook holds user code. */
  predicate AllExternal(hs: seq<Hook>) {
    forall h :: h in hs ==> h.callback.External?
  }

  /** The invocations of user hooks `hs` with `response`, in order. */
  function HookCalls(pid: PushId, hs: seq<Hook>, response: Json): (r: seq<Call>)
    requires AllExternal(hs)
    ensures |r| == |hs|
  {
    seq(|hs|, i requires 0 <= i < |hs| => HookCall(pid, hs[i].callback.id, response))
  }

  lemma {:induction false} RunExternalHooks(w: World, pid: PushId, c: ChanId, hs: seq<Hook>, response: Json)
    requires AllExternal(hs)
    ensures RunHooks(w, pid, c, hs, response) == w.(calls := w.calls + HookCalls(pid, hs, response))
    decreases |hs|
  {
    if hs != [] {
      var init := hs[..|hs| - 1];
      assert AllExternal(init) by {
        forall h | h in init ensures h.callback.External? { assert h in hs; }
      }
      RunExternalHooks(w, pid, c, init, response);
      assert HookCalls(pid, hs, response) == HookCalls(pid, init, response) + [HookCall(pid, hs[|hs| - 1].callback.id, response)];
    }
  }

  lemma MatchingHooksExternal(hs: seq<Hook>, status: Json)
    requires AllExternal(hs)
    ensures AllExternal(MatchingHooks(hs, status))
    ensures forall h :: h in MatchingHooks(hs, status) <==> h in hs && JStr(h.status) == status
  {
    forall h ensures h in MatchingHooks(hs, status) <==> h in hs && JStr(h.status) == status {
      FilterMembers(hs, (h: Hook) => JStr(h.status) == status, h);
    }
  }

  /**
   * `Push.trigger(status, response)` on a push whose hooks are user code: the
   * result is recorded and exactly the hooks registered for `status` run, in
   * registration order; channels and frames are untouched.
   */
  lemma PushTriggerRunsMatching(w: World, pid: PushId, status: Json, response: Json)
    requires pid in w.pushes && AllExternal(w.pushes[pid].recHooks)
    ensures var r := PushTrigger(w, pid, status, response);
      var hs := MatchingHooks(w.pushes[pid].recHooks, status);
      AllExternal(hs) &&
      (forall h :: h in hs ==> h in w.pushes[pid].recHooks && JStr(h.status) == status) &&
      r.pushes == w.pushes[pid := w.pushes[pid].(receivedResp := Some(Resp(status, response)))] &&
      r.calls == w.calls + HookCalls(pid, hs, response) &&
      r.chans == w.chans && r.wire == w.wire
  {
    var p := w.pushes[pid];
    MatchingHooksExternal(p.recHooks, status);
    var w1 := w.(pushes := w.pushes[pid := p.(receivedResp := Some(Resp(status, response)))]);
    RunExternalHooks(w1, pid, p.chan, MatchingHooks(p.recHooks, status), response);
  }

  /**
   * `receive` after the outcome is known: the new callback runs at once with
   * the recorded response, and it is still appended to the hooks.
   */
  lemma ReceiveAfterTrigger(w: World, pid: PushId, status: string, response: Json, id: nat)
    requires pid in w.pushes && AllExternal(w.pushes[pid].recHooks)
    ensures var w1 := PushTrigger(w, pid, JStr(status), response);
      var w2 := PushReceive(w1, pid, status, id);
      w2.calls == w1.calls + [HookCall(pid, id, response)] &&
      w2.pushes[pid].recHooks == w.pushes[pid].recHooks + [Hook(status, External(id))]
  {
    PushTriggerRunsMatching(w, pid, JStr(status), response);
  }

  /** `receive` before any outcome only registers the callback. */
  lemma ReceiveBeforeTrigger(w: World, pid: PushId, status: string, id: nat)
    requires pid in w.pushes && w.pushes[pid].receivedResp.None?
    ensures var r := PushReceive(w, pid, status, id);
      r.calls == w.calls && r.pushes[pid].recHooks == w.pushes[pid].recHooks + [Hook(status, External(id))]
  {
  }

  // ================================================================ channel shape

  /** Every binding holds user code. */
  predicate AllUser(bs: seq<Binding>) {
    forall b :: b in bs ==> b.handler.UserHandler?
  }

  /** The bindings the constructor installs, then user bindings only (no `off` of the first two). */
  predicate BindingsShape(bs: seq<Binding>) {
    |bs| >= 2 && bs[..2] == StandardBindings && AllUser(bs[2..])
  }

  /** The hooks the constructor installs on the join push, then user hooks only. */
  predicate JoinHooksShape(hs: seq<Hook>) {
    |hs| >= 3 && hs[..3] == StandardJoinHooks && AllExternal(hs[3..])
  }

  /** A channel as `Socket.channel` builds it, after any number of `on` and `receive` calls. */
  predicate WellFormedChannel(w: World, c: ChanId) {
    c in w.chans && w.chans[c].joinPush in w.pushes &&
    w.pushes[w.chans[c].joinPush].chan == c &&
    JoinHooksShape(w.pushes[w.chans[c].joinPush].recHooks) &&
    BindingsShape(w.chans[c].bindings)
  }

  /**
   * `Socket.channel(topic, params)` registers a closed, never-joined channel
   * last in `channels`, with its join push holding no reference yet.
   */
  lemma NewChannelShape(w: World, topic: string, params: Json)
    ensures var r := NewChannel(w, topic, params); var c := w.nextId;
      WellFormedChannel(r, c) && r.channels == w.channels + [c] &&
      r.chans[c].topic == topic && r.chans[c].state == Closed && !r.chans[c].joinedOnce &&
      r.chans[c].pushBuffer == [] && JoinRefOf(r, c) == JNull && r.nextId == w.nextId + 2
  {
    var r := NewChannel(w, topic, params);
    assert r.pushes[w.nextId + 1].recHooks[3..] == [];
    assert r.chans[w.nextId].bindings[2..] == [];
  }

  /** `channel.on(event, callback)` keeps the shape and returns fresh binding refs. */
  lemma ChannelOnShape(w: World, c: ChanId, event: string, id: nat)
    requires WellFormedChannel(w, c)
    ensures var r := ChannelOn(w, c, event, id);
      WellFormedChannel(r, c) && r.chans[c].bindingRef == w.chans[c].bindingRef + 1 &&
      r.chans[c].bindings == w.chans[c].bindings + [Binding(event, w.chans[c].bindingRef, UserHandler(id))]
  {
    var bs := w.chans[c].bindings;
    var b := Binding(event, w.chans[c].bindingRef, UserHandler(id));
    assert (bs + [b])[..2] == bs[..2];
    assert (bs + [b])[2..] == bs[2..] + [b];
  }

  /**
   * `channel.off(event, ref)` changes only that channel's bindings: a binding
   * stays exactly when it is not for `event` or, given a ref, has another ref.
   */
  lemma ChannelOffEffect(w: World, c: ChanId, event: string, ref: Option<nat>, b: Binding)
    ensures c !in w.chans ==> ChannelOff(w, c, event, ref) == w
    ensures c in w.chans ==> var r := ChannelOff(w, c, event, ref);
      r == w.(chans := w.chans[c := w.chans[c].(bindings := r.chans[c].bindings)]) &&
      (b in r.chans[c].bindings <==> b in w.chans[c].bindings && !OffMatches(b, event, ref))
  {
    if c in w.chans {
      FilterMembers(w.chans[c].bindings, OffKeep(event, ref), b);
    }
  }

  /**
   * The bindings `off` keeps stay in their order: removal from a list split in
   * two is removal from each part, and a part with nothing to remove is kept whole.
   */
  lemma ChannelOffKeepsOrder(w: World, c: ChanId, event: string, ref: Option<nat>, xs: seq<Binding>, ys: seq<Binding>)
    requires c in w.chans && w.chans[c].bindings == xs + ys
    requires forall i :: 0 <= i < |ys| ==> !OffMatches(ys[i], event, ref)
    ensures ChannelOff(w, c, event, ref).chans[c].bindings == Filter(xs, OffKeep(event, ref)) + ys
  {
    FilterAppend(xs, ys, OffKeep(event, ref));
    FilterAll(ys, OffKeep(event, ref));
  }

  // ================================================================ folds

  lemma {:induction false} RunBindingsAppend(w: World, c: ChanId, xs: seq<Binding>, ys: seq<Binding>, payload: Json, ref: Json, joinRef: Json)
    ensures RunBindings(w, c, xs + ys, payload, ref, joinRef)
         == RunBindings(RunBindings(w, c, xs, payload, ref, joinRef), c, ys, payload, ref, joinRef)
    decreases |ys|
  {
    if ys == [] {
      assert xs + ys == xs;
    } else {
      var init := ys[..|ys| - 1];
      assert (xs + ys)[..|xs + ys| - 1] == xs + init;
      RunBindingsAppend(w, c, xs, init, payload, ref, joinRef);
    }
  }

  /** User bindings only append to the log of user code. */
  lemma {:induction false} RunUserBindings(w: World, c: ChanId, bs: seq<Binding>, payload: Json, ref: Json, joinRef: Json)
    requires AllUser(bs)
    ensures var r := RunBindings(w, c, bs, payload, ref, joinRef);
      r == w.(calls := r.calls) && |w.calls| <= |r.calls|
    decreases |bs|
  {
    if bs != [] {
      var init := bs[..|bs| - 1];
      assert AllUser(init) by {
        forall b | b in init ensures b.handler.UserHandler? { assert b in bs; }
      }
      RunUserBindings(w, c, init, payload, ref, joinRef);
      assert bs[|bs| - 1] in bs;
    }
  }

  lemma FilterUser(bs: seq<Binding>, event: Json)
    requires AllUser(bs)
    ensures AllUser(MatchingBindings(bs, event))
  {
    forall b | b in MatchingBindings(bs, event) ensures b.handler.UserHandler? {
      FilterMembers(bs, (b: Binding) => JStr(b.event) == event, b);
    }
  }

  /** The bindings of a well-formed channel that answer `event`: the matching standard one first, then user code. */
  lemma MatchingStandard(bs: seq<Binding>, event: Json)
    requires BindingsShape(bs)
    ensures var std := StandardBindings;
      MatchingBindings(bs, event)
      == MatchingBindings([std[0]], event) + MatchingBindings([std[1]], event) + MatchingBindings(bs[2..], event)
  {
    var keep := (b: Binding) => JStr(b.event) == event;
    assert bs == [bs[0]] + [bs[1]] + bs[2..];
    FilterAppend([bs[0]] + [bs[1]], bs[2..], keep);
    FilterAppend([bs[0]], [bs[1]], keep);
  }
  lemma MatchingBindingsOne(b: Binding, event: Json)
    ensures MatchingBindings([b], event) == if JStr(b.event) == event then [b] else []
  {
    assert [b][..0] == [];
  }

  /** On a well-formed channel, the bindings for a standard event: its standard binding, then user code. */
  lemma StandardBindingFor(bs: seq<Binding>, event: string, k: nat)
    requires BindingsShape(bs) && k < 2 && StandardBindings[k].event == event
    ensures MatchingBindings(bs, JStr(event)) == [StandardBindings[k]] + MatchingBindings(bs[2..], JStr(event))
    ensures AllUser(MatchingBindings(bs[2..], JStr(event)))
  {
    var std := StandardBindings;
    var ev := JStr(event);
    MatchingStandard(bs, ev);
    MatchingBindingsOne(std[0], ev);
    MatchingBindingsOne(std[1], ev);
    FilterUser(bs[2..], ev);
    var m0, m1 := MatchingBindings([std[0]], ev), MatchingBindings([std[1]], ev);
    if k == 0 {
      assert m0 == [std[0]] && m1 == [];
    } else {
      assert m0 == [] && m1 == [std[1]];
    }
  }


  lemma {:induction false} RunHooksAppend(w: World, pid: PushId, c: ChanId, xs: seq<Hook>, ys: seq<Hook>, response: Json)
    ensures RunHooks(w, pid, c, xs + ys, response) == RunHooks(RunHooks(w, pid, c, xs, response), pid, c, ys, response)
    decreases |ys|
  {
    if ys == [] {
      assert xs + ys == xs;
    } else {
      var init := ys[..|ys| - 1];
      assert (xs + ys)[..|xs + ys| - 1] == xs + init;
      RunHooksAppend(w, pid, c, xs, init, response);
    }
  }

  /** The join-push hooks that answer `status`: the matching standard one first, then user code. */
  lemma MatchingJoinHooks(hs: seq<Hook>, status: Json)
    requires JoinHooksShape(hs)
    ensures var std := StandardJoinHooks;
      MatchingHooks(hs, status)
      == MatchingHooks([std[0]], status) + MatchingHooks([std[1]], status) + MatchingHooks([std[2]], status)
         + MatchingHooks(hs[3..], status)
    ensures AllExternal(MatchingHooks(hs[3..], status))
  {
    var keep := (h: Hook) => JStr(h.status) == status;
    assert hs == [hs[0]] + [hs[1]] + [hs[2]] + hs[3..];
    FilterAppend([hs[0]] + [hs[1]] + [hs[2]], hs[3..], keep);
    FilterAppend([hs[0]] + [hs[1]], [hs[2]], keep);
    FilterAppend([hs[0]], [hs[1]], keep);
    MatchingHooksExternal(hs[3..], status);
  }

  lemma FilterOne<T>(x: T, keep: T -> bool)
    ensures Filter([x], keep) == if keep(x) then [x] else []
  {
    assert [x][..0] == [];
  }

  /** The join hooks registered for a status: its one standard hook, then user code. */
  lemma JoinHooksFor(hs: seq<Hook>, status: string)
    requires JoinHooksShape(hs) && status in {"ok", "error", "timeout"}
    ensures var cb := if status == "ok" then JoinOk else if status == "error" then JoinError else JoinTimeout;
      MatchingHooks(hs, JStr(status)) == [Hook(status, cb)] + MatchingHooks(hs[3..], JStr(status)) &&
      AllExternal(MatchingHooks(hs[3..], JStr(status)))
  {
    MatchingJoinHooks(hs, JStr(status));
    if status == "ok" {
      StandardHookFor(0, "ok");
    } else if status == "error" {
      StandardHookFor(1, "error");
    } else {
      StandardHookFor(2, "timeout");
    }
  }

  /** Of the three standard join hooks, the one at index `k` alone answers its own status. */
  lemma StandardHookFor(k: nat, status: string)
    requires k < 3 && StandardJoinHooks[k].status == status
    ensures var std := StandardJoinHooks; var st := JStr(status);
      MatchingHooks([std[0]], st) + MatchingHooks([std[1]], st) + MatchingHooks([std[2]], st) == [std[k]]
  {
    var std := StandardJoinHooks;
    var st := JStr(status);
    MatchingHooksOne(std[0], st);
    MatchingHooksOne(std[1], st);
    MatchingHooksOne(std[2], st);
  }

  lemma MatchingHooksOne(h: Hook, status: Json)
    ensures MatchingHooks([h], status) == if JStr(h.status) == status then [h] else []
  {
    assert [h][..0] == [];
  }

  /** The result of a join push: its one standard hook, then only user code. */
  lemma JoinPushTrigger(w: World, c: ChanId, status: string, response: Json)
    requires WellFormedChannel(w, c) && status in {"ok", "error", "timeout"}
    ensures var jp := w.chans[c].joinPush;
      var w1 := w.(pushes := w.pushes[jp := w.pushes[jp].(receivedResp := Some(Resp(JStr(status), response)))]);
      var cb := if status == "ok" then JoinOk else if status == "error" then JoinError else JoinTimeout;
      var mid := RunHook(w1, jp, c, cb, response);
      var r := PushTrigger(w, jp, JStr(status), response);
      r.chans == mid.chans && r.channels == mid.channels && r.wire == mid.wire && r.sendBuffer == mid.sendBuffer
  {
    var jp := w.chans[c].joinPush;
    var hs := w.pushes[jp].recHooks;
    var w1 := w.(pushes := w.pushes[jp := w.pushes[jp].(receivedResp := Some(Resp(JStr(status), response)))]);
    var cb := if status == "ok" then JoinOk else if status == "error" then JoinError else JoinTimeout;
    var ext := MatchingHooks(hs[3..], JStr(status));
    JoinHooksFor(hs, status);
    RunHooksAppend(w1, jp, c, [Hook(status, cb)], ext, response);
    assert [Hook(status, cb)][..0] == [];
    RunExternalHooks(RunHook(w1, jp, c, cb, response), jp, c, ext, response);
  }

  // ================================================================ join

  /**
   * `join` succeeds once: it returns the join push and sets `joinedOnce`; a
   * second call fails with "tried to join multiple times" and changes nothing.
   */
  lemma JoinOnlyOnce(w: World, c: ChanId, t1: nat, t2: nat)
    requires c in w.chans && !w.chans[c].joinedOnce
    ensures JoinResult(w, c) == Ok(w.chans[c].joinPush)
    ensures var w1 := Join(w, c, t1);
      c in w1.chans && w1.chans[c].joinedOnce &&
      JoinResult(w1, c) == Err("tried to join multiple times") && Join(w1, c, t2) == w1
  {
  }

  /**
   * `rejoin` does nothing while leaving; otherwise the channel is joining and
   * the join push is sent again under a fresh reference, which becomes the
   * channel's join ref, with any earlier result forgotten.
   */
  lemma RejoinEffect(w: World, c: ChanId, t: nat)
    requires c in w.chans && w.chans[c].joinPush in w.pushes
    ensures var r := Rejoin(w, c, t); var jp := w.chans[c].joinPush;
      (w.chans[c].state == Leaving ==> r == w) &&
      (w.chans[c].state != Leaving ==>
        r.chans[c].state == Joining && r.pushes[jp].sent && r.pushes[jp].receivedResp.None? &&
        r.pushes[jp].ref == RefString(NextRef(w.ref)) && JoinRefOf(r, c) == RefString(NextRef(w.ref)))
  {
    if w.chans[c].state != Leaving {
      var jp := w.chans[c].joinPush;
      var w1 := SetState(w, c, Joining);
      var w2 := w1.(pushes := w1.pushes[jp := PushReset(w1.pushes[jp]).(timeout := t)]);
      PushSendEffect(w2, jp);
    }
  }

  /** A join "error" reply leaves the channel errored. */
  lemma JoinErrorErrors(w: World, c: ChanId, response: Json)
    requires WellFormedChannel(w, c)
    ensures StateOf(PushTrigger(w, w.chans[c].joinPush, JStr("error"), response), c) == Errored
  {
    JoinPushTrigger(w, c, "error", response);
  }

  /** A join timeout errors the channel only if it is still joining. */
  lemma JoinTimeoutErrorsOnlyWhileJoining(w: World, c: ChanId)
    requires WellFormedChannel(w, c) && w.pushes[w.chans[c].joinPush].timer == Armed
    ensures var r := PushTimerFired(w, w.chans[c].joinPush);
      StateOf(r, c) == if StateOf(w, c) == Joining then Errored else StateOf(w, c)
  {
    var jp := w.chans[c].joinPush;
    var w0 := w.(pushes := w.pushes[jp := w.pushes[jp].(timer := Spent)]);
    assert WellFormedChannel(w0, c);
    JoinPushTrigger(w0, c, "timeout", EmptyObject);
  }

  /**
   * A join "ok" reply: the channel is joined, and on a connected socket every
   * buffered push goes out in the order it was made, after which the buffer is
   * empty.
   */
  lemma JoinOkFlushesBuffer(w: World, c: ChanId, response: Json)
    requires WellFormedChannel(w, c) && IsConnected(w)
    requires var buf := w.chans[c].pushBuffer;
      forall i :: 0 <= i < |buf| ==> buf[i] in w.pushes && buf[i] != w.chans[c].joinPush &&
                                      !HasReceived(w.pushes[buf[i]], "timeout")
    ensures var r := PushTrigger(w, w.chans[c].joinPush, JStr("ok"), response);
      c in r.chans && r.chans[c].state == Joined && r.chans[c].pushBuffer == [] &&
      FramesFor(w, r, w.chans[c].pushBuffer)
  {
    var jp := w.chans[c].joinPush;
    var buf := w.chans[c].pushBuffer;
    JoinPushTrigger(w, c, "ok", response);
    var w1 := w.(pushes := w.pushes[jp := w.pushes[jp].(receivedResp := Some(Resp(JStr("ok"), response)))]);
    forall i | 0 <= i < |buf| ensures w1.pushes[buf[i]] == w.pushes[buf[i]] { }
    JoinOkEffectFacts(w1, c);
    var mid := RunHook(w1, jp, c, JoinOk, response);
    FramesForTransfer(w1, mid, w, PushTrigger(w, jp, JStr("ok"), response), buf);
  }

  lemma FramesForTransfer(w: World, r: World, w': World, r': World, ps: seq<PushId>)
    requires forall i :: 0 <= i < |ps| ==> ps[i] in w.pushes && ps[i] in w'.pushes && w'.pushes[ps[i]] == w.pushes[ps[i]]
    requires w'.wire == w.wire && r'.wire == r.wire && FramesFor(w, r, ps)
    ensures FramesFor(w', r', ps)
  {
    forall i | 0 <= i < |ps| ensures Carries(r'.wire[|w'.wire| + i], w'.pushes[ps[i]]) {
      assert w'.pushes[ps[i]] == w.pushes[ps[i]];
    }
  }


  /** The join "ok" hook itself: joined, buffer sent in order and emptied. */
  lemma JoinOkEffectFacts(w: World, c: ChanId)
    requires c in w.chans && IsConnected(w)
    requires var buf := w.chans[c].pushBuffer;
      forall i :: 0 <= i < |buf| ==> buf[i] in w.pushes && !HasReceived(w.pushes[buf[i]], "timeout")
    ensures var r := JoinOkEffect(w, c);
      c in r.chans && r.chans[c].state == Joined && r.chans[c].pushBuffer == [] &&
      FramesFor(w, r, w.chans[c].pushBuffer)
  {
    var buf := w.chans[c].pushBuffer;
    var w2 := SetState(w, c, Joined);
    SendAllInOrder(w2, buf);
  }

  // ================================================================ channel push

  /** `channel.push` before any `join` throws and changes nothing. */
  lemma PushBeforeJoinFails(w: World, c: ChanId, event: string, payload: Json, t: nat)
    requires c in w.chans && !w.chans[c].joinedOnce
    ensures ChannelPushResult(w, c, event).Err? && ChannelPush(w, c, event, payload, t) == w
  {
  }

  /**
   * `channel.push` after `join`: the new push is sent at once exactly when the
   * socket is connected and the channel joined; otherwise it waits, timer
   * running, at the end of the channel's buffer and nothing is sent.
   */
  lemma ChannelPushEffect(w: World, c: ChanId, event: string, payload: Json, t: nat)
    requires c in w.chans && w.chans[c].joinedOnce
    ensures var r := ChannelPush(w, c, event, payload, t); var pid := w.nextId;
      ChannelPushResult(w, c, event) == Ok(pid) &&
      r.nextId == w.nextId + 1 && pid in r.pushes &&
      r.pushes[pid].event == event && r.pushes[pid].payload == OrElse(payload, EmptyObject) &&
      (CanPush(w, c) ==>
        r.chans == w.chans && FramesFor(AddPush(w, r.pushes[pid]), r, [pid])) &&
      (!CanPush(w, c) ==>
        r.chans == w.chans[c := w.chans[c].(pushBuffer := w.chans[c].pushBuffer + [pid])] &&
        r.pushes == w.pushes[pid := r.pushes[pid]] && r.pushes[pid].receivedResp.None? &&
        r.wire == w.wire && r.conn == w.conn && r.pushes[pid].timer == Armed)
  {
    var p := Push(c, event, OrElse(payload, EmptyObject), t, None, Unset, [], false, JNull);
    var w1 := AddPush(w, p);
    if CanPush(w1, c) {
      PushSendEffect(w1, w.nextId);
      var r := PushSend(w1, w.nextId);
      assert AddPush(w, r.pushes[w.nextId]).wire == w.wire;
      assert AddPush(w, r.pushes[w.nextId]).pushes[w.nextId] == r.pushes[w.nextId];
    }
  }

  /** Identifiers below `nextId` are taken, those from it on are free. */
  predicate FreshIds(w: World) {
    forall q :: q in w.pushes ==> q < w.nextId
  }

  /** Two pushes made while the join is in flight both wait in the channel's buffer, in order. */
  lemma TwoPushesBuffered(w: World, c: ChanId, e1: string, d1: Json, e2: string, d2: Json, t: nat)
    requires WellFormedChannel(w, c) && FreshIds(w)
    requires w.chans[c].joinedOnce && w.chans[c].state == Joining && w.chans[c].pushBuffer == []
    ensures var w2 := ChannelPush(ChannelPush(w, c, e1, d1, t), c, e2, d2, t); var n := w.nextId;
      WellFormedChannel(w2, c) && w2.chans[c].joinPush == w.chans[c].joinPush &&
      w2.chans[c].pushBuffer == [n, n + 1] && w2.wire == w.wire && w2.conn == w.conn &&
      n in w2.pushes && n + 1 in w2.pushes && n != w.chans[c].joinPush && n + 1 != w.chans[c].joinPush &&
      w2.pushes[n].event == e1 && w2.pushes[n].payload == OrElse(d1, EmptyObject) && w2.pushes[n].receivedResp.None? &&
      w2.pushes[n + 1].event == e2 && w2.pushes[n + 1].payload == OrElse(d2, EmptyObject) && w2.pushes[n + 1].receivedResp.None?
  {
    var n := w.nextId;
    ChannelPushEffect(w, c, e1, d1, t);
    var w1 := ChannelPush(w, c, e1, d1, t);
    ChannelPushEffect(w1, c, e2, d2, t);
  }

  /**
   * Pushes made while the join is in flight go out, after the join is
   * acknowledged, in the order they were made.
   */
  lemma BufferedPushesKeepOrder(w: World, c: ChanId, e1: string, d1: Json, e2: string, d2: Json, t: nat, response: Json)
    requires WellFormedChannel(w, c) && FreshIds(w) && IsConnected(w)
    requires w.chans[c].joinedOnce && w.chans[c].state == Joining && w.chans[c].pushBuffer == []
    ensures var w2 := ChannelPush(ChannelPush(w, c, e1, d1, t), c, e2, d2, t);
      var r := PushTrigger(w2, w.chans[c].joinPush, JStr("ok"), response);
      w2.wire == w.wire && |r.wire| == |w.wire| + 2 && r.wire[..|w.wire|] == w.wire &&
      Decode(r.wire[|w.wire|]).Some? && Decode(r.wire[|w.wire|]).value.event == JStr(e1) &&
      Decode(r.wire[|w.wire|]).value.payload == OrElse(d1, EmptyObject) &&
      Decode(r.wire[|w.wire| + 1]).Some? && Decode(r.wire[|w.wire| + 1]).value.event == JStr(e2) &&
      Decode(r.wire[|w.wire| + 1]).value.payload == OrElse(d2, EmptyObject)
  {
    TwoPushesBuffered(w, c, e1, d1, e2, d2, t);
    var w2 := ChannelPush(ChannelPush(w, c, e1, d1, t), c, e2, d2, t);
    FlushTwo(w2, c, w.nextId, response);
  }

  /** A join "ok" with exactly two unanswered pushes in the buffer sends them in buffer order. */
  lemma FlushTwo(w: World, c: ChanId, n: PushId, response: Json)
    requires WellFormedChannel(w, c) && IsConnected(w) && w.chans[c].pushBuffer == [n, n + 1]
    requires n in w.pushes && n + 1 in w.pushes && n != w.chans[c].joinPush && n + 1 != w.chans[c].joinPush
    requires w.pushes[n].receivedResp.None? && w.pushes[n + 1].receivedResp.None?
    ensures var r := PushTrigger(w, w.chans[c].joinPush, JStr("ok"), response);
      |r.wire| == |w.wire| + 2 && r.wire[..|w.wire|] == w.wire &&
      Carries(r.wire[|w.wire|], w.pushes[n]) && Carries(r.wire[|w.wire| + 1], w.pushes[n + 1])
  {
    JoinOkFlushesBuffer(w, c, response);
    var r := PushTrigger(w, w.chans[c].joinPush, JStr("ok"), response);
    FramesForPair(w, r, n, n + 1);
  }

  lemma FramesForPair(w: World, r: World, a: PushId, b: PushId)
    requires a in w.pushes && b in w.pushes && FramesFor(w, r, [a, b])
    ensures |r.wire| == |w.wire| + 2 && r.wire[..|w.wire|] == w.wire
    ensures Carries(r.wire[|w.wire|], w.pushes[a]) && Carries(r.wire[|w.wire| + 1], w.pushes[b])
  {
    assert [a, b][0] == a && [a, b][1] == b;
  }

  // ================================================================ leave

  /** The leave push, sent while the channel is leaving, is answered locally with "ok". */
  lemma LeaveResolvesLocally(w: World, c: ChanId, t: nat)
    ensures var lp := w.nextId;
      var w2 := PushSend(AddPush(SetState(w, c, Leaving), LeavePush(c, t)), lp);
      ChannelLeave(w, c, t) == PushTrigger(w2, lp, JStr("ok"), EmptyObject) &&
      w2.chans == SetState(w, c, Leaving).chans && w2.channels == w.channels &&
      lp in w2.pushes && w2.pushes[lp].chan == c && w2.pushes[lp].recHooks == LeavePush(c, t).recHooks
  {
  }

  /** The leave push's "ok" hook runs the channel's close bindings: closed, and dropped from `channels`. */
  lemma CloseOnLeaveEffect(w: World, pid: PushId, c: ChanId)
    requires c in w.chans && BindingsShape(w.chans[c].bindings)
    ensures var r := RunHook(w, pid, c, CloseOnLeave, EmptyObject);
      r.chans == w.chans[c := w.chans[c].(state := Closed)] &&
      r.channels == RemoveChannel(w.channels, c) && r.pushes == w.pushes
  {
    var bs := w.chans[c].bindings;
    var std := StandardBindings;
    StandardBindingFor(bs, CloseEvent, 0);
    var users := MatchingBindings(bs[2..], JStr(CloseEvent));
    RunBindingsAppend(w, c, [std[0]], users, JStr("leave"), JNull, JNull);
    assert [std[0]][..0] == [];
    RunUserBindings(RunBinding(w, c, std[0], JStr("leave"), JNull, JNull), c, users, JStr("leave"), JNull, JNull);
  }

  /**
   * `leave`: the channel can no longer push once it is leaving, so the leave
   * push resolves "ok" locally, the channel's close binding runs, the channel
   * ends closed and is dropped from `socket.channels`, and no other channel
   * record changes.
   */
  lemma LeaveClosesLocally(w: World, c: ChanId, t: nat)
    requires c in w.chans && BindingsShape(w.chans[c].bindings)
    ensures var r := ChannelLeave(w, c, t);
      r.chans == w.chans[c := w.chans[c].(state := Closed)] &&
      r.channels == RemoveChannel(w.channels, c) &&
      w.nextId in r.pushes && r.pushes[w.nextId].receivedResp == Some(Resp(JStr("ok"), EmptyObject))
  {
    var lp := w.nextId;
    var w2 := PushSend(AddPush(SetState(w, c, Leaving), LeavePush(c, t)), lp);
    LeaveResolvesLocally(w, c, t);
    LeaveOkHooks(c, t);
    TriggerOneHook(w2, lp, JStr("ok"), EmptyObject, Hook("ok", CloseOnLeave));
    var w3 := w2.(pushes := w2.pushes[lp := w2.pushes[lp].(receivedResp := Some(Resp(JStr("ok"), EmptyObject)))]);
    assert w3.chans == w.chans[c := w.chans[c].(state := Leaving)];
    CloseOnLeaveEffect(w3, lp, c);
    assert w3.chans[c := w3.chans[c].(state := Closed)] == w.chans[c := w.chans[c].(state := Closed)];
  }

  /** Of the leave push's two hooks, only the close hook answers "ok". */
  lemma LeaveOkHooks(c: ChanId, t: nat)
    ensures MatchingHooks(LeavePush(c, t).recHooks, JStr("ok")) == [Hook("ok", CloseOnLeave)]
  {
    var hs := LeavePush(c, t).recHooks;
    var keep := (h: Hook) => JStr(h.status) == JStr("ok");
    assert hs == [hs[0]] + [hs[1]];
    FilterAppend([hs[0]], [hs[1]], keep);
    FilterOne(hs[0], keep);
    FilterOne(hs[1], keep);
  }

  /** A trigger that matches a single hook records the result and runs that hook. */
  lemma TriggerOneHook(w: World, pid: PushId, status: Json, response: Json, h: Hook)
    requires pid in w.pushes && MatchingHooks(w.pushes[pid].recHooks, status) == [h]
    ensures PushTrigger(w, pid, status, response)
      == RunHook(w.(pushes := w.pushes[pid := w.pushes[pid].(receivedResp := Some(Resp(status, response)))]),
                 pid, w.pushes[pid].chan, h.callback, response)
  {
    var p := w.pushes[pid];
    var w1 := w.(pushes := w.pushes[pid := p.(receivedResp := Some(Resp(status, response)))]);
    assert [h][..0] == [];
    assert RunHooks(w1, pid, p.chan, [h], response) == RunHook(RunHooks(w1, pid, p.chan, [], response), pid, p.chan, h.callback, response);
  }


  // ================================================================ inbound routing

  /** The channels a message reaches: registered ones, same topic, and a matching join ref when the message has one. */
  lemma MembersExactly(w: World, topic: Json, joinRef: Json, c: ChanId)
    ensures c in Members(w, topic, joinRef) <==>
      c in w.channels && c in w.chans && topic == JStr(w.chans[c].topic) &&
      (Truthy(joinRef) ==> StrictEq(joinRef, JoinRefOf(w, c)))
  {
    FilterMembers(w.channels, (d: ChanId) => IsMember(w, d, topic, joinRef), c);
  }

  /**
   * A message carrying the join ref of an earlier join attempt (any reference
   * other than the channel's current one) reaches no incarnation of the channel.
   */
  lemma StaleJoinRefDropped(w: World, c: ChanId, topic: Json, current: nat, stale: nat)
    requires JoinRefOf(w, c) == RefString(current) && stale != current
    ensures c !in Members(w, topic, RefString(stale))
  {
    MembersExactly(w, topic, RefString(stale), c);
    NatToStringInjective(stale, current);
  }

  /** The new entries of the user-code log are all invocations of push `pid`'s hooks. */
  predicate OnlyHookCalls(w: World, r: World, pid: PushId) {
    Extends(w, r) &&
    forall k :: |w.calls| <= k < |r.calls| ==> r.calls[k].HookCall? && r.calls[k].push == pid
  }

  lemma {:induction false} RunJoinHooksCalls(w: World, pid: PushId, c: ChanId, hs: seq<Hook>, response: Json)
    requires forall h :: h in hs ==> h.callback != CloseOnLeave
    ensures OnlyHookCalls(w, RunHooks(w, pid, c, hs, response), pid)
    decreases |hs|
  {
    if hs != [] {
      var init := hs[..|hs| - 1];
      forall h | h in init ensures h.callback != CloseOnLeave { assert h in hs; }
      RunJoinHooksCalls(w, pid, c, init, response);
      var mid := RunHooks(w, pid, c, init, response);
      var r := RunHooks(w, pid, c, hs, response);
      RunHookExtends(mid, pid, c, hs[|hs| - 1].callback, response);
      ExtendsTrans(w, mid, r);
      assert hs[|hs| - 1] in hs;
      forall k | |w.calls| <= k < |r.calls| ensures r.calls[k].HookCall? && r.calls[k].push == pid {
        if k < |mid.calls| {
          assert r.calls[k] == r.calls[..|mid.calls|][k];
        }
      }
    }
  }

  /**
   * A `phx_reply` whose ref is the join push's goes to the join push alone: no
   * binding of the channel runs, and the only user code invoked is the join
   * push's own hooks.
   */
  lemma JoinReplyOnlyToJoinPush(w: World, c: ChanId, payload: Json, ref: Json, joinRef: Json)
    requires WellFormedChannel(w, c) && IsJoinReply(w, c, JStr(ReplyEvent), ref)
    ensures OnlyHookCalls(w, ChannelTrigger(w, c, JStr(ReplyEvent), payload, ref, joinRef), w.chans[c].joinPush)
  {
    var jp := w.chans[c].joinPush;
    var w1 := w.(pushes := w.pushes[jp := CancelTimeout(w.pushes[jp])]);
    var status := Field(payload, "status");
    var response := OrElse(Field(payload, "response"), EmptyObject);
    var p := w1.pushes[jp];
    var w2 := w1.(pushes := w1.pushes[jp := p.(receivedResp := Some(Resp(status, response)))]);
    var hs := MatchingHooks(p.recHooks, status);
    forall h | h in hs ensures h.callback != CloseOnLeave {
      FilterMembers(p.recHooks, (h: Hook) => JStr(h.status) == status, h);
      var i :| 0 <= i < |p.recHooks| && p.recHooks[i] == h;
      if i >= 3 {
        assert h in p.recHooks[3..];
      } else {
        assert h in StandardJoinHooks by { assert p.recHooks[..3][i] == h; }
      }
    }
    RunJoinHooksCalls(w2, jp, p.chan, hs, response);
  }

  // ================================================================ socket

  /** `Socket.push` while not connected defers the frame and sends nothing. */
  lemma SocketPushDefers(w: World, m: Message)
    requires !IsConnected(w)
    ensures SocketPush(w, m).sendBuffer == w.sendBuffer + [m] && SocketPush(w, m).wire == w.wire
  {
  }

  lemma EncodeAllAppend(xs: seq<Message>, ys: seq<Message>)
    ensures EncodeAll(xs + ys) == EncodeAll(xs) + EncodeAll(ys)
  {
  }

  /**
   * `onopen`: the retry counter is reset, the deferred sends go out once in the
   * order they were made, the buffer is emptied, and the heartbeat starts; a
   * second flush sends nothing more.
   */
  lemma OpenReplaysDeferredOnce(w: World)
    requires w.conn == Link(Connecting)
    ensures var r := WsOpen(w);
      IsConnected(r) && r.reconnectTries == 0 && r.heartbeatTimer &&
      r.wire == w.wire + EncodeAll(w.sendBuffer) && r.sendBuffer == [] &&
      FlushSendBuffer(r) == r
  {
    var r := WsOpen(w);
    assert EncodeAll([]) == [];
    assert r.wire + EncodeAll([]) == r.wire;
  }

  /** A frame pushed while the link is still connecting is sent last when it opens. */
  lemma DeferredSentOnOpen(w: World, m: Message)
    requires w.conn == Link(Connecting)
    ensures WsOpen(SocketPush(w, m)).wire == w.wire + EncodeAll(w.sendBuffer) + [Encode(m)]
  {
    EncodeAllAppend(w.sendBuffer, [m]);
  }

  /** A heartbeat tick with no probe outstanding sends one and remembers its ref. */
  lemma HeartbeatProbes(w: World)
    requires w.heartbeatTimer && IsConnected(w) && !Truthy(w.pendingHeartbeatRef)
    ensures var r := HeartbeatTick(w);
      r.pendingHeartbeatRef == RefString(NextRef(w.ref)) && Truthy(r.pendingHeartbeatRef) &&
      r.wire == w.wire + [Encode(Message(JNull, r.pendingHeartbeatRef, JStr("phoenix"), JStr("heartbeat"), EmptyObject))]
  {
  }

  /** A heartbeat tick with a probe still outstanding clears it and closes the link instead of sending. */
  lemma HeartbeatTimeoutCloses(w: World)
    requires w.heartbeatTimer && IsConnected(w) && Truthy(w.pendingHeartbeatRef)
    ensures var r := HeartbeatTick(w);
      r.conn == Link(Closing) && r.pendingHeartbeatRef == JNull && r.wire == w.wire && r.sendBuffer == w.sendBuffer
  {
  }

  /** An inbound frame whose ref equals the outstanding probe's clears it. */
  lemma ReplyClearsHeartbeat(w: World, raw: Json)
    requires IsConnected(w) && Decode(raw).Some? && StrictEq(Decode(raw).value.ref, w.pendingHeartbeatRef)
    ensures WsMessage(w, raw).pendingHeartbeatRef == JNull
  {
    var m := Decode(raw).value;
    var w1 := w.(pendingHeartbeatRef := JNull);
    TriggerAllExtends(w1, Members(w1, m.topic, m.joinRef), m);
  }

  /** The reply to a probe settles it, so the next tick probes again instead of closing. */
  lemma ProbeAnswered(w: World, raw: Json)
    requires w.heartbeatTimer && IsConnected(w) && !Truthy(w.pendingHeartbeatRef)
    requires Decode(raw).Some? && Decode(raw).value.ref == HeartbeatTick(w).pendingHeartbeatRef
    ensures WsMessage(HeartbeatTick(w), raw).pendingHeartbeatRef == JNull
  {
    HeartbeatProbes(w);
    ReplyClearsHeartbeat(HeartbeatTick(w), raw);
  }

  /** Consecutive attempts never wait less, and never more than 10 s. */
  lemma BackoffMonotone(a: nat, b: nat)
    requires 1 <= a <= b
    ensures ReconnectAfterMs(a) <= ReconnectAfterMs(b) <= 10000
  {
  }

  /**
   * How `triggerChanError` leaves the channels it visits: each one not closed
   * is errored, closed ones stay closed, and nothing else changes.
   */
  lemma ErrorChannelEffect(w: World, c: ChanId)
    requires c in w.chans && BindingsShape(w.chans[c].bindings)
    ensures var r := ErrorChannel(w, c);
      r.channels == w.channels && r.wire == w.wire &&
      r.chans == if w.chans[c].state != Closed then w.chans[c := w.chans[c].(state := Errored)] else w.chans
  {
    if w.chans[c].state != Closed {
      var bs := w.chans[c].bindings;
      var std := StandardBindings;
      StandardBindingFor(bs, ErrorEvent, 1);
      var users := MatchingBindings(bs[2..], JStr(ErrorEvent));
      RunBindingsAppend(w, c, [std[1]], users, JNull, JNull, JNull);
      assert [std[1]][..0] == [];
      RunUserBindings(RunBinding(w, c, std[1], JNull, JNull, JNull), c, users, JNull, JNull, JNull);
    }
  }

  lemma {:induction false} ErrorChannelsEffect(w: World, cs: seq<ChanId>)
    requires forall c :: c in cs ==> c in w.chans && BindingsShape(w.chans[c].bindings)
    ensures var r := ErrorChannels(w, cs);
      r.channels == w.channels && r.wire == w.wire && r.chans.Keys == w.chans.Keys &&
      forall d :: d in w.chans ==>
        r.chans[d] == if d in cs && w.chans[d].state != Closed then w.chans[d].(state := Errored) else w.chans[d]
    decreases |cs|
  {
    if cs != [] {
      var init, c := cs[..|cs| - 1], cs[|cs| - 1];
      forall d | d in init ensures d in w.chans && BindingsShape(w.chans[d].bindings) { assert d in cs; }
      ErrorChannelsEffect(w, init);
      var mid := ErrorChannels(w, init);
      assert c in cs;
      assert mid.chans[c].bindings == w.chans[c].bindings;
      ErrorChannelEffect(mid, c);
      var r := ErrorChannels(w, cs);
      assert r == ErrorChannel(mid, c);
      forall d | d in w.chans
        ensures r.chans[d]
             == if d in cs && w.chans[d].state != Closed then w.chans[d].(state := Errored) else w.chans[d]
      {
        assert d in cs <==> d in init || d == c;
      }
    }
  }

  /**
   * The link closes (for instance after a heartbeat timeout): every channel not
   * already closed becomes errored, the heartbeat stops, and a reconnect is
   * scheduled as attempt `tries + 1` with its capped delay.
   */
  lemma CloseErrorsChannelsAndSchedulesReconnect(w: World)
    requires w.conn.Link? && w.conn.readyState != Shut
    requires forall c :: c in w.channels ==> c in w.chans && BindingsShape(w.chans[c].bindings)
    ensures var r := WsClose(w);
      r.conn == Link(Shut) && !r.heartbeatTimer && r.reconnectTimer &&
      r.reconnectTries == w.reconnectTries + 1 &&
      r.reconnectDelay == ReconnectAfterMs(w.reconnectTries + 1) && r.reconnectDelay <= 10000 &&
      r.channels == w.channels && r.wire == w.wire && r.chans.Keys == w.chans.Keys &&
      forall d :: d in w.chans ==>
        r.chans[d] == if d in w.channels && w.chans[d].state != Closed then w.chans[d].(state := Errored) else w.chans[d]
  {
    var w0 := w.(conn := Link(Shut));
    ErrorChannelsEffect(w0, w0.channels);
    ErrorChannelsExtends(w0, w0.channels);
  }

  /** Heartbeat timeout, then the close it causes: a reconnect attempt with a larger (capped) delay. */
  lemma HeartbeatTimeoutReconnects(w: World)
    requires w.heartbeatTimer && IsConnected(w) && Truthy(w.pendingHeartbeatRef)
    requires forall c :: c in w.channels ==> c in w.chans && BindingsShape(w.chans[c].bindings)
    ensures var r := WsClose(HeartbeatTick(w));
      r.reconnectTimer && r.reconnectTries == w.reconnectTries + 1 &&
      (w.reconnectTries >= 1 ==> ReconnectAfterMs(w.reconnectTries) <= r.reconnectDelay) &&
      r.reconnectDelay <= 10000
  {
    CloseErrorsChannelsAndSchedulesReconnect(HeartbeatTick(w));
    if w.reconnectTries >= 1 {
      BackoffMonotone(w.reconnectTries, w.reconnectTries + 1);
    }
  }

  // ================================================================ connect

  /**
   * `connect()` does nothing while a connection exists. Otherwise the new link
   * is connecting or, when the WebSocket cannot be created, every error
   * callback is called once, in registration order, and there is no link.
   */
  lemma ConnectEffect(w: World, created: bool)
    ensures w.conn != NoConn ==> Connect(w, created) == w
    ensures w.conn == NoConn && created ==> Connect(w, created) == w.(conn := Link(Connecting))
    ensures w.conn == NoConn && !created ==>
      var r := Connect(w, created); var ids := w.stateCallbacks.error;
      r == w.(calls := r.calls) && |r.calls| == |w.calls| + |ids| && r.calls[..|w.calls|] == w.calls &&
      forall i :: 0 <= i < |ids| ==> r.calls[|w.calls| + i] == StateCall(OnError, ids[i])
  {
  }

  // ================================================================ disconnect

  /**
   * As written, `disconnect` drops the link and calls the callback but leaves
   * the reconnect timer as it was; during a reconnect backoff the pending
   * timer still fires and reconnects.
   */
  lemma DisconnectAsWrittenReconnects(w: World, callback: Option<nat>)
    ensures var r := Disconnect(w, callback);
      r.conn == NoConn && r.reconnectTimer == w.reconnectTimer &&
      r.calls == w.calls + (if callback.Some? then [DisconnectCall(callback.value)] else [])
    ensures w.reconnectTimer ==> ReconnectTimerFired(Disconnect(w, callback), true).conn == Link(Connecting)
  {
  }

  /** With the reconnect timer cleared as well, a disconnected socket stays disconnected. */
  lemma DisconnectStaysDown(w: World, callback: Option<nat>, created: bool)
    ensures DisconnectCorrected(w, callback).conn == NoConn
    ensures ReconnectTimerFired(DisconnectCorrected(w, callback), created) == DisconnectCorrected(w, callback)
  {
  }
}
