/**
 * The Phoenix Channels client as an object: one `Socket` owns its channels and
 * their pushes (kept in maps addressed by ids) and updates them in place. Every
 * method states its effect as the matching function of PhoenixState applied to
 * the state before the call; the `forEach` loops of the client are `while`
 * loops whose invariant is the corresponding left fold.
 */
module PhoenixSocket {
  import opened Wrappers
  import opened Json
  import opened Decimal
  import opened Serializer
  import opened Seqs
  import S = PhoenixState

  class Socket {
    const endPoint: string
    const params: seq<(string, string)>
    const timeout: nat
    const heartbeatIntervalMs: nat

    var channels: seq<S.ChanId>
    var sendBuffer: seq<Message>
    var ref: nat
    var conn: S.Conn
    var heartbeatTimer: bool
    var pendingHeartbeatRef: Json
    var reconnectTimer: bool
    var reconnectTries: nat
    var reconnectDelay: nat
    var stateCallbacks: S.Callbacks
    var chans: map<S.ChanId, S.Channel>
    var pushes: map<S.PushId, S.Push>
    var nextId: nat
    /** The frames handed to the WebSocket, oldest first. */
    var wire: seq<Json>
    /** The user code invoked, oldest first. */
    var calls: seq<S.Call>

    function View(): S.World
      reads this
    {
      S.World(timeout, channels, sendBuffer, ref, conn, heartbeatTimer, pendingHeartbeatRef,
              reconnectTimer, reconnectTries, reconnectDelay, stateCallbacks, chans, pushes,
              nextId, wire, calls)
    }

    /** `new Socket(endPoint, opts)`; a zero option stands for an absent one. */
    constructor (endPoint: string, params: seq<(string, string)>, timeoutOpt: nat, heartbeatOpt: nat)
      ensures this.endPoint == endPoint && this.params == params
      ensures timeout == (if timeoutOpt == 0 then S.DefaultTimeout else timeoutOpt)
      ensures heartbeatIntervalMs == (if heartbeatOpt == 0 then S.DefaultHeartbeatIntervalMs else heartbeatOpt)
      ensures View() == S.InitialWorld(timeout)
    {
      this.endPoint := endPoint;
      this.params := params;
      timeout := if timeoutOpt == 0 then S.DefaultTimeout else timeoutOpt;
      heartbeatIntervalMs := if heartbeatOpt == 0 then S.DefaultHeartbeatIntervalMs else heartbeatOpt;
      channels := [];
      sendBuffer := [];
      ref := 0;
      conn := S.NoConn;
      heartbeatTimer := false;
      pendingHeartbeatRef := JNull;
      reconnectTimer := false;
      reconnectTries := 0;
      reconnectDelay := 0;
      stateCallbacks := S.Callbacks([], [], [], []);
      chans := map[];
      pushes := map[];
      nextId := 0;
      wire := [];
      calls := [];
    }

    /** `endPointURL()` with the given `encodeURIComponent`. */
    function EndPointUrl(encode: string -> string): (url: string)
      reads this
      ensures |url| > |endPoint| && url[..|endPoint|] == endPoint
    {
      Serializer.EndPointUrl(endPoint, params, encode)
    }

    // -------------------------------------------------------------- socket basics

    method MakeRef() returns (r: Json)
      modifies this
      ensures View() == S.MakeRef(old(View()))
      ensures r == S.RefString(ref)
    {
      ref := S.NextRef(ref);
      r := JStr(NatToString(ref));
    }

    method SocketPush(m: Message)
      modifies this
      ensures View() == S.SocketPush(old(View()), m)
    {
      if S.IsConnected(View()) {
        wire := wire + [Encode(m)];
      } else {
        sendBuffer := sendBuffer + [m];
      }
    }

    method FlushSendBuffer()
      modifies this
      ensures View() == S.FlushSendBuffer(old(View()))
    {
      if S.IsConnected(View()) {
        var i := 0;
        while i < |sendBuffer|
          invariant 0 <= i <= |sendBuffer|
          invariant View() == old(View()).(wire := old(wire) + S.EncodeAll(sendBuffer[..i]))
        {
          assert S.EncodeAll(sendBuffer[..i + 1]) == S.EncodeAll(sendBuffer[..i]) + [Encode(sendBuffer[i])];
          wire := wire + [Encode(sendBuffer[i])];
          i := i + 1;
        }
        assert sendBuffer[..i] == sendBuffer;
        sendBuffer := [];
      }
    }

    /** `stateChangeCallbacks[kind].forEach(cb => cb(..))`. */
    method NotifyState(kind: S.StateKind, ids: seq<nat>)
      modifies this
      ensures View() == old(View()).(calls := old(calls) + S.StateCalls(kind, ids))
    {
      var i := 0;
      while i < |ids|
        invariant 0 <= i <= |ids|
        invariant View() == old(View()).(calls := old(calls) + S.StateCalls(kind, ids[..i]))
      {
        assert S.StateCalls(kind, ids[..i + 1]) == S.StateCalls(kind, ids[..i]) + [S.StateCall(kind, ids[i])];
        calls := calls + [S.StateCall(kind, ids[i])];
        i := i + 1;
      }
      assert ids[..i] == ids;
    }

    method OnOpen(id: nat)
      modifies this
      ensures View() == S.AddStateCallback(old(View()), S.OnOpen, id)
    {
      stateCallbacks := stateCallbacks.(open := stateCallbacks.open + [id]);
    }

    method OnClose(id: nat)
      modifies this
      ensures View() == S.AddStateCallback(old(View()), S.OnClose, id)
    {
      stateCallbacks := stateCallbacks.(close := stateCallbacks.close + [id]);
    }

    method OnError(id: nat)
      modifies this
      ensures View() == S.AddStateCallback(old(View()), S.OnError, id)
    {
      stateCallbacks := stateCallbacks.(error := stateCallbacks.error + [id]);
    }

    method OnMessage(id: nat)
      modifies this
      ensures View() == S.AddMessageCallback(old(View()), id)
    {
      stateCallbacks := stateCallbacks.(message := stateCallbacks.message + [id]);
    }

    // -------------------------------------------------------------- channel state

    method SetState(c: S.ChanId, s: S.ChanState)
      modifies this
      ensures View() == S.SetState(old(View()), c, s)
    {
      if c in chans {
        chans := chans[c := chans[c].(state := s)];
      }
    }

    /** `socket.remove(channel)`. */
    method Remove(c: S.ChanId)
      modifies this
      ensures View() == old(View()).(channels := S.RemoveChannel(old(channels), c))
    {
      channels := Filter(channels, (d: S.ChanId) => d != c);
    }

    // -------------------------------------------------------------- pushes

    /** Stores a new push record; its id. */
    method AddPush(p: S.Push) returns (pid: S.PushId)
      modifies this
      ensures View() == S.AddPush(old(View()), p)
      ensures pid == old(nextId)
    {
      pid := nextId;
      pushes := pushes[pid := p];
      nextId := nextId + 1;
    }

    method BufferPush(c: S.ChanId, pid: S.PushId)
      modifies this
      ensures View() == S.BufferPush(old(View()), c, pid)
    {
      if c in chans && pid in pushes {
        pushes := pushes[pid := S.StartTimeout(pushes[pid])];
        chans := chans[c := chans[c].(pushBuffer := chans[c].pushBuffer + [pid])];
      }
    }

    method PushSend(pid: S.PushId)
      modifies this
      ensures View() == S.PushSend(old(View()), pid)
    {
      if pid !in pushes || S.HasReceived(pushes[pid], "timeout") {
        return;
      }
      var p := pushes[pid];
      var r := MakeRef();
      pushes := pushes[pid := S.StartTimeout(p).(sent := true, ref := r)];
      var joinRef := S.JoinRefOf(View(), p.chan);
      SocketPush(Message(joinRef, r, JStr(S.TopicOf(View(), p.chan)), JStr(p.event), p.payload));
    }

    method PushResend(pid: S.PushId, timeout: nat)
      modifies this
      ensures View() == S.PushResend(old(View()), pid, timeout)
    {
      if pid in pushes {
        pushes := pushes[pid := S.PushReset(pushes[pid]).(timeout := timeout)];
        PushSend(pid);
      }
    }

    method PushReceive(pid: S.PushId, status: string, id: nat)
      modifies this
      ensures View() == S.PushReceive(old(View()), pid, status, id)
    {
      if pid in pushes {
        var p := pushes[pid];
        if S.HasReceived(p, status) {
          calls := calls + [S.HookCall(pid, id, p.receivedResp.value.response)];
        }
        pushes := pushes[pid := p.(recHooks := p.recHooks + [S.Hook(status, S.External(id))])];
      }
    }

    /** `pushBuffer.forEach(push => push.send())`. */
    method SendAll(ps: seq<S.PushId>)
      modifies this
      ensures View() == S.SendAll(old(View()), ps)
    {
      var i := 0;
      while i < |ps|
        invariant 0 <= i <= |ps|
        invariant View() == S.SendAll(old(View()), ps[..i])
      {
        assert ps[..i + 1][..i] == ps[..i];
        PushSend(ps[i]);
        i := i + 1;
      }
      assert ps[..i] == ps;
    }

    /** The join push's "ok" hook. */
    method JoinOk(c: S.ChanId)
      modifies this
      ensures View() == S.JoinOkEffect(old(View()), c)
    {
      if c in chans {
        var buffered := chans[c].pushBuffer;
        SetState(c, S.Joined);
        SendAll(buffered);
        chans := chans[c := chans[c].(pushBuffer := [])];
      }
    }

    method RunHook(pid: S.PushId, c: S.ChanId, cb: S.Callback, response: Json)
      modifies this
      ensures View() == S.RunHook(old(View()), pid, c, cb, response)
    {
      match cb
      case JoinOk => JoinOk(c);
      case JoinError => SetState(c, S.Errored);
      case JoinTimeout =>
        if S.StateOf(View(), c) == S.Joining {
          SetState(c, S.Errored);
        }
      case CloseOnLeave => Dispatch(c, JStr(S.CloseEvent), JStr("leave"), JNull, JNull);
      case External(id) => calls := calls + [S.HookCall(pid, id, response)];
    }

    /** `matchReceive`: the hooks registered for the status, in registration order. */
    method MatchReceive(pid: S.PushId, c: S.ChanId, hooks: seq<S.Hook>, response: Json)
      modifies this
      ensures View() == S.RunHooks(old(View()), pid, c, hooks, response)
    {
      var i := 0;
      while i < |hooks|
        invariant 0 <= i <= |hooks|
        invariant View() == S.RunHooks(old(View()), pid, c, hooks[..i], response)
      {
        assert hooks[..i + 1][..i] == hooks[..i];
        RunHook(pid, c, hooks[i].callback, response);
        i := i + 1;
      }
      assert hooks[..i] == hooks;
    }

    method PushTrigger(pid: S.PushId, status: Json, response: Json)
      modifies this
      ensures View() == S.PushTrigger(old(View()), pid, status, response)
    {
      if pid in pushes {
        var p := pushes[pid];
        pushes := pushes[pid := p.(receivedResp := Some(S.Resp(status, response)))];
        MatchReceive(pid, p.chan, S.MatchingHooks(p.recHooks, status), response);
      }
    }

    /** The callback of the timer `startTimeout` armed. */
    method PushTimerFired(pid: S.PushId)
      modifies this
      ensures View() == S.PushTimerFired(old(View()), pid)
    {
      if pid in pushes && pushes[pid].timer == S.Armed {
        pushes := pushes[pid := pushes[pid].(timer := S.Spent)];
        PushTrigger(pid, JStr("timeout"), EmptyObject);
      }
    }

    // -------------------------------------------------------------- channels

    method RunBinding(c: S.ChanId, b: S.Binding, payload: Json, ref: Json, joinRef: Json)
      modifies this
      ensures View() == S.RunBinding(old(View()), c, b, payload, ref, joinRef)
    {
      match b.handler
      case OnCloseHandler =>
        SetState(c, S.Closed);
        Remove(c);
      case OnErrorHandler => SetState(c, S.Errored);
      case UserHandler(id) =>
        calls := calls + [S.BindingCall(c, id, payload, ref, OrElse(joinRef, S.JoinRefOf(View(), c)))];
    }

    /** `forEach(bind => bind.callback(..))` over the matching bindings. */
    method RunBindings(c: S.ChanId, bs: seq<S.Binding>, payload: Json, ref: Json, joinRef: Json)
      modifies this
      ensures View() == S.RunBindings(old(View()), c, bs, payload, ref, joinRef)
    {
      ghost var start := View();
      var i := 0;
      while i < |bs|
        invariant 0 <= i <= |bs|
        invariant View() == S.RunBindings(start, c, bs[..i], payload, ref, joinRef)
      {
        S.RunBindingsSnoc(start, c, bs, i, payload, ref, joinRef);
        RunBinding(c, bs[i], payload, ref, joinRef);
        i := i + 1;
      }
      assert bs[..i] == bs;
    }

    /** `bindings.filter(bind => bind.event === event).forEach(...)`. */
    method Dispatch(c: S.ChanId, event: Json, payload: Json, ref: Json, joinRef: Json)
      modifies this
      ensures View() == S.Dispatch(old(View()), c, event, payload, ref, joinRef)
    {
      if c in chans {
        RunBindings(c, S.MatchingBindings(chans[c].bindings, event), payload, ref, joinRef);
      }
    }

    /** `Channel.trigger(event, payload, ref, joinRef)`. */
    method ChannelTrigger(c: S.ChanId, event: Json, payload: Json, ref: Json, joinRef: Json)
      modifies this
      ensures View() == S.ChannelTrigger(old(View()), c, event, payload, ref, joinRef)
    {
      if S.IsJoinReply(View(), c, event, ref) {
        var jp := chans[c].joinPush;
        pushes := pushes[jp := S.CancelTimeout(pushes[jp])];
        PushTrigger(jp, Field(payload, "status"), OrElse(Field(payload, "response"), EmptyObject));
        return;
      }
      Dispatch(c, event, payload, ref, joinRef);
    }

    /** `channel(topic, params)`: the new channel's id. */
    method NewChannel(topic: string, params: Json) returns (c: S.ChanId)
      modifies this
      ensures View() == S.NewChannel(old(View()), topic, params)
      ensures c == old(nextId) && c in chans && chans[c].topic == topic
    {
      c := nextId;
      var jp := nextId + 1;
      var prm := OrElse(params, EmptyObject);
      var joinPush := S.Push(c, S.JoinEvent, OrElse(prm, EmptyObject), timeout, None, S.Unset,
                             S.StandardJoinHooks, false, JNull);
      chans := chans[c := S.Channel(topic, prm, S.Closed, S.StandardBindings, 2, false, jp, [])];
      pushes := pushes[jp := joinPush];
      nextId := nextId + 2;
      channels := channels + [c];
    }

    /** `channel.on(event, callback)`: the binding's ref. */
    method ChannelOn(c: S.ChanId, event: string, id: nat) returns (r: nat)
      requires c in chans
      modifies this
      ensures View() == S.ChannelOn(old(View()), c, event, id)
      ensures r == old(chans[c].bindingRef)
    {
      var ch := chans[c];
      r := ch.bindingRef;
      chans := chans[c := ch.(bindings := ch.bindings + [S.Binding(event, r, S.UserHandler(id))], bindingRef := r + 1)];
    }

    method ChannelOff(c: S.ChanId, event: string, ref: Option<nat>)
      modifies this
      ensures View() == S.ChannelOff(old(View()), c, event, ref)
    {
      if c in chans {
        var ch := chans[c];
        chans := chans[c := ch.(bindings := Filter(ch.bindings, S.OffKeep(event, ref)))];
      }
    }

    method Rejoin(c: S.ChanId, timeout: nat)
      modifies this
      ensures View() == S.Rejoin(old(View()), c, timeout)
    {
      if c in chans && chans[c].state != S.Leaving {
        var jp := chans[c].joinPush;
        SetState(c, S.Joining);
        PushResend(jp, timeout);
      }
    }

    /** `channel.join(timeout)`: the join push, or the error the client throws. */
    method Join(c: S.ChanId, timeout: nat) returns (r: Result<S.PushId>)
      requires c in chans
      modifies this
      ensures View() == S.Join(old(View()), c, timeout)
      ensures r == S.JoinResult(old(View()), c)
    {
      if chans[c].joinedOnce {
        return Err("tried to join multiple times");
      }
      chans := chans[c := chans[c].(joinedOnce := true)];
      Rejoin(c, timeout);
      r := Ok(chans[c].joinPush);
    }

    /** `channel.push(event, payload, timeout)`: the new push, or the error the client throws. */
    method ChannelPush(c: S.ChanId, event: string, payload: Json, timeout: nat) returns (r: Result<S.PushId>)
      requires c in chans
      modifies this
      ensures View() == S.ChannelPush(old(View()), c, event, payload, timeout)
      ensures r == S.ChannelPushResult(old(View()), c, event)
    {
      if !chans[c].joinedOnce {
        return Err("tried to push '" + event + "' to '" + chans[c].topic + "' before joining");
      }
      var pid := AddPush(S.Push(c, event, OrElse(payload, EmptyObject), timeout, None, S.Unset, [], false, JNull));
      if S.CanPush(View(), c) {
        PushSend(pid);
      } else {
        BufferPush(c, pid);
      }
      r := Ok(pid);
    }

    /** `channel.leave(timeout)`: the leave push. */
    method ChannelLeave(c: S.ChanId, timeout: nat) returns (lp: S.PushId)
      modifies this
      ensures View() == S.ChannelLeave(old(View()), c, timeout)
      ensures lp == old(nextId)
    {
      SetState(c, S.Leaving);
      lp := AddPush(S.LeavePush(c, timeout));
      PushSend(lp);
      if !S.CanPush(View(), c) {
        PushTrigger(lp, JStr("ok"), EmptyObject);
      }
    }

    // -------------------------------------------------------------- socket events

    /** `triggerChanError()`. */
    method TriggerChanError()
      modifies this
      ensures View() == S.TriggerChanError(old(View()))
    {
      var cs := channels;
      var i := 0;
      while i < |cs|
        invariant 0 <= i <= |cs|
        invariant View() == S.ErrorChannels(old(View()), cs[..i])
      {
        assert cs[..i + 1][..i] == cs[..i];
        if S.StateOf(View(), cs[i]) != S.Closed {
          ChannelTrigger(cs[i], JStr(S.ErrorEvent), JNull, JNull, JNull);
        }
        i := i + 1;
      }
      assert cs[..i] == cs;
    }

    /** `matchingChannels.forEach(ch => ch.trigger(...))`. */
    method TriggerAll(cs: seq<S.ChanId>, m: Message)
      modifies this
      ensures View() == S.TriggerAll(old(View()), cs, m)
    {
      var i := 0;
      while i < |cs|
        invariant 0 <= i <= |cs|
        invariant View() == S.TriggerAll(old(View()), cs[..i], m)
      {
        assert cs[..i + 1][..i] == cs[..i];
        ChannelTrigger(cs[i], m.event, m.payload, m.ref, m.joinRef);
        i := i + 1;
      }
      assert cs[..i] == cs;
    }

    /** `stateChangeCallbacks.message.forEach(cb => cb(msg))`. */
    method NotifyMessage(ids: seq<nat>, m: Message)
      modifies this
      ensures View() == old(View()).(calls := old(calls) + S.MessageCalls(ids, m))
    {
      var i := 0;
      while i < |ids|
        invariant 0 <= i <= |ids|
        invariant View() == old(View()).(calls := old(calls) + S.MessageCalls(ids[..i], m))
      {
        assert S.MessageCalls(ids[..i + 1], m) == S.MessageCalls(ids[..i], m) + [S.MessageCall(ids[i], m)];
        calls := calls + [S.MessageCall(ids[i], m)];
        i := i + 1;
      }
      assert ids[..i] == ids;
    }

    /** `conn.onmessage` for a frame already parsed as JSON. */
    method Inbound(raw: Json)
      modifies this
      ensures View() == S.Inbound(old(View()), raw)
    {
      var decoded := Decode(raw);
      if decoded.None? {
        return;
      }
      var m := decoded.value;
      if StrictEq(m.ref, pendingHeartbeatRef) {
        pendingHeartbeatRef := JNull;
      }
      var w1 := View();
      TriggerAll(Filter(channels, (c: S.ChanId) => S.IsMember(w1, c, m.topic, m.joinRef)), m);
      NotifyMessage(stateCallbacks.message, m);
    }

    /** A frame arrives on the WebSocket. */
    method WsMessage(raw: Json)
      modifies this
      ensures View() == S.WsMessage(old(View()), raw)
    {
      if S.IsConnected(View()) {
        Inbound(raw);
      }
    }

    /** `connect()`; `created` says whether `new WebSocket(EndPointUrl(..))` succeeded. */
    method Connect(created: bool)
      modifies this
      ensures View() == S.Connect(old(View()), created)
    {
      if conn != S.NoConn {
        return;
      }
      if !created {
        NotifyState(S.OnError, stateCallbacks.error);
        return;
      }
      conn := S.Link(S.Connecting);
    }

    /** `conn.onopen`. */
    method WsOpen()
      modifies this
      ensures View() == S.WsOpen(old(View()))
    {
      if conn == S.Link(S.Connecting) {
        conn := S.Link(S.Open);
        reconnectTries := 0;
        FlushSendBuffer();
        heartbeatTimer := true;
        NotifyState(S.OnOpen, stateCallbacks.open);
      }
    }

    /** `scheduleReconnect()`. */
    method ScheduleReconnect()
      modifies this
      ensures View() == S.ScheduleReconnect(old(View()))
    {
      reconnectTries := reconnectTries + 1;
      reconnectDelay := S.ReconnectAfterMs(reconnectTries);
      reconnectTimer := true;
    }

    /** `conn.onclose`. */
    method WsClose()
      modifies this
      ensures View() == S.WsClose(old(View()))
    {
      if conn.Link? && conn.readyState != S.Shut {
        conn := S.Link(S.Shut);
        TriggerChanError();
        heartbeatTimer := false;
        ScheduleReconnect();
        NotifyState(S.OnClose, stateCallbacks.close);
      }
    }

    /** `conn.onerror`. */
    method WsError()
      modifies this
      ensures View() == S.WsError(old(View()))
    {
      if conn.Link? {
        TriggerChanError();
        NotifyState(S.OnError, stateCallbacks.error);
      }
    }

    /** The heartbeat interval fires: `sendHeartbeat()`. */
    method HeartbeatTick()
      modifies this
      ensures View() == S.HeartbeatTick(old(View()))
    {
      if !heartbeatTimer || !S.IsConnected(View()) {
        return;
      }
      if Truthy(pendingHeartbeatRef) {
        pendingHeartbeatRef := JNull;
        conn := S.Link(S.Closing);
        return;
      }
      var r := MakeRef();
      pendingHeartbeatRef := r;
      SocketPush(Message(JNull, r, JStr("phoenix"), JStr("heartbeat"), EmptyObject));
    }

    /** The reconnect timer fires. */
    method ReconnectTimerFired(created: bool)
      modifies this
      ensures View() == S.ReconnectTimerFired(old(View()), created)
    {
      if reconnectTimer {
        reconnectTimer := false;
        conn := S.NoConn;
        Connect(created);
      }
    }

    /** `disconnect(callback)`; a scheduled reconnect stays armed. */
    method Disconnect(callback: Option<nat>)
      modifies this
      ensures View() == S.Disconnect(old(View()), callback)
    {
      if conn.Link? {
        conn := S.NoConn;
      }
      if callback.Some? {
        calls := calls + [S.DisconnectCall(callback.value)];
      }
    }
  }
}
