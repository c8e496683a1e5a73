/**
 * The state of the Phoenix Channels client (socket, channels and pushes) as one
 * value, and the effect of each client operation on it as a total function.
 *
 * The client's objects reference each other in a cycle (a push knows its
 * channel, a channel its socket, the socket its channels). Here they live in an
 * arena: channel and push records are kept in maps addressed by ids, next to the
 * socket's own fields. Callbacks are data: the ones the client registers itself
 * have their effect on the state, the ones registered by users are appended to
 * `calls`, the log of user code invoked, in invocation order. Frames handed to
 * the WebSocket are appended to `wire`. Timers and WebSocket events are explicit
 * operations (`PushTimerFired`, `HeartbeatTick`, `WsOpen`, `WsClose`, ...).
 *
 * Every function here is the specification of one method of the `Socket` class
 * in module PhoenixSocket.
 */
module PhoenixState {
  import opened Wrappers
  import opened Json
  import opened Decimal
  import opened Serializer
  import opened Seqs

  type ChanId = nat
  type PushId = nat

  const CloseEvent: string := "phx_close"
  const ErrorEvent: string := "phx_error"
  const JoinEvent: string := "phx_join"
  const ReplyEvent: string := "phx_reply"
  const LeaveEvent: string := "phx_leave"

  /** `opts.timeout || 10000` and `opts.heartbeatIntervalMs || 30000`. */
  const DefaultTimeout: nat := 10000
  const DefaultHeartbeatIntervalMs: nat := 30000

  /** 2^53: the first integer at which `ref + 1 === ref` holds for a JavaScript number. */
  const MaxSafeRef: nat := 0x20_0000_0000_0000

  datatype ChanState = Closed | Errored | Joined | Joining | Leaving

  /** The WebSocket's `readyState`: CONNECTING, OPEN, CLOSING, CLOSED. */
  datatype ReadyState = Connecting | Open | Closing | Shut

  /** `this.conn`: no link, or a WebSocket in some ready state. */
  datatype Conn = NoConn | Link(readyState: ReadyState)

  /** A push's `timeoutTimer`: none, scheduled, or fired (the handle stays set after firing). */
  datatype Timer = Unset | Armed | Spent

  datatype Resp = Resp(status: Json, response: Json)

  /** The continuations a push can hold: the four the client installs, and user code. */
  datatype Callback = JoinOk | JoinError | JoinTimeout | CloseOnLeave | External(id: nat)

  datatype Hook = Hook(status: string, callback: Callback)

  datatype Push = Push(
    chan: ChanId,
    event: string,
    payload: Json,
    timeout: nat,
    receivedResp: Option<Resp>,
    timer: Timer,
    recHooks: seq<Hook>,
    sent: bool,
    ref: Json)

  /** Binding callbacks: the two the channel constructor installs, and user code. */
  datatype Handler = OnCloseHandler | OnErrorHandler | UserHandler(id: nat)

  datatype Binding = Binding(event: string, ref: nat, handler: Handler)

  datatype Channel = Channel(
    topic: string,
    params: Json,
    state: ChanState,
    bindings: seq<Binding>,
    bindingRef: nat,
    joinedOnce: bool,
    joinPush: PushId,
    pushBuffer: seq<PushId>)

  datatype StateKind = OnOpen | OnClose | OnError

  /** One invocation of user code. */
  datatype Call =
    | HookCall(push: PushId, id: nat, response: Json)
    | BindingCall(chan: ChanId, id: nat, payload: Json, ref: Json, joinRef: Json)
    | StateCall(kind: StateKind, id: nat)
    | MessageCall(id: nat, msg: Message)
    | DisconnectCall(id: nat)

  /** `stateChangeCallbacks`. */
  datatype Callbacks = Callbacks(open: seq<nat>, close: seq<nat>, error: seq<nat>, message: seq<nat>)

  datatype World = World(
    timeout: nat,
    channels: seq<ChanId>,
    sendBuffer: seq<Message>,
    ref: nat,
    conn: Conn,
    heartbeatTimer: bool,
    pendingHeartbeatRef: Json,
    reconnectTimer: bool,
    reconnectTries: nat,
    reconnectDelay: nat,
    stateCallbacks: Callbacks,
    chans: map<ChanId, Channel>,
    pushes: map<PushId, Push>,
    nextId: nat,
    wire: seq<Json>,
    calls: seq<Call>)

  /** The hooks the channel constructor registers on its join push, in order. */
  const StandardJoinHooks: seq<Hook> :=
    [Hook("ok", JoinOk), Hook("error", JoinError), Hook("timeout", JoinTimeout)]

  /** The bindings the channel constructor registers (`onClose`, `onError`), refs 0 and 1. */
  const StandardBindings: seq<Binding> :=
    [Binding(CloseEvent, 0, OnCloseHandler), Binding(ErrorEvent, 1, OnErrorHandler)]

  /** The socket as its constructor leaves it. */
  function InitialWorld(timeout: nat): World {
    World(timeout, [], [], 0, NoConn, false, JNull, false, 0, 0,
          Callbacks([], [], [], []), map[], map[], 0, [], [])
  }

  /**
   * What a channel-level step keeps: every socket-level field, the set of
   * channel and push ids, and the two logs, which only grow at the end.
   */
  predicate Extends(w: World, r: World) {
    r.timeout == w.timeout && r.conn == w.conn &&
    r.heartbeatTimer == w.heartbeatTimer && r.pendingHeartbeatRef == w.pendingHeartbeatRef &&
    r.reconnectTimer == w.reconnectTimer && r.reconnectTries == w.reconnectTries &&
    r.reconnectDelay == w.reconnectDelay && r.stateCallbacks == w.stateCallbacks &&
    r.nextId == w.nextId && r.chans.Keys == w.chans.Keys && r.pushes.Keys == w.pushes.Keys &&
    |w.wire| <= |r.wire| && r.wire[..|w.wire|] == w.wire &&
    |w.calls| <= |r.calls| && r.calls[..|w.calls|] == w.calls
  }

  // ---------------------------------------------------------------- socket basics

  /** The default `reconnectAfterMs`: `[1000, 2000, 5000, 10000][tries - 1] || 10000`. */
  function ReconnectAfterMs(tries: nat): (delay: nat)
    ensures 1000 <= delay <= 10000
    ensures tries == 0 || tries >= 4 ==> delay == 10000
  {
    if 1 <= tries <= 4 then [1000, 2000, 5000, 10000][tries - 1] else 10000
  }

  /** The counter step of `makeRef`: `ref + 1`, or 0 when that addition no longer changes the number. */
  function NextRef(n: nat): nat {
    if n >= MaxSafeRef then 0 else n + 1
  }

  /** `ref.toString()`. */
  function RefString(n: nat): Json {
    JStr(NatToString(n))
  }

  /** `makeRef()` on the state; the returned reference is `RefString(MakeRef(w).ref)`. */
  function MakeRef(w: World): World {
    w.(ref := NextRef(w.ref))
  }

  predicate IsConnected(w: World) {
    w.conn == Link(Open)
  }

  /** `Socket.push(data)`: send the encoded frame now, or defer it until the next open. */
  function SocketPush(w: World, m: Message): World {
    if IsConnected(w) then w.(wire := w.wire + [Encode(m)]) else w.(sendBuffer := w.sendBuffer + [m])
  }

  function EncodeAll(ms: seq<Message>): (frames: seq<Json>)
    ensures |frames| == |ms|
  {
    seq(|ms|, i requires 0 <= i < |ms| => Encode(ms[i]))
  }

  /** `flushSendBuffer()`: run every deferred send in order, then empty the buffer. */
  function FlushSendBuffer(w: World): World {
    if IsConnected(w) then w.(wire := w.wire + EncodeAll(w.sendBuffer), sendBuffer := []) else w
  }

  function StateCalls(kind: StateKind, ids: seq<nat>): (r: seq<Call>)
    ensures |r| == |ids|
  {
    seq(|ids|, i requires 0 <= i < |ids| => StateCall(kind, ids[i]))
  }

  function MessageCalls(ids: seq<nat>, m: Message): (r: seq<Call>)
    ensures |r| == |ids|
  {
    seq(|ids|, i requires 0 <= i < |ids| => MessageCall(ids[i], m))
  }

  /** `onOpen`, `onClose`, `onError`: register user code `id` for a state change. */
  function AddStateCallback(w: World, kind: StateKind, id: nat): World {
    var cb := w.stateCallbacks;
    w.(stateCallbacks := match kind
         case OnOpen => cb.(open := cb.open + [id])
         case OnClose => cb.(close := cb.close + [id])
         case OnError => cb.(error := cb.error + [id]))
  }

  /** `onMessage`: register user code `id` for every decoded inbound message. */
  function AddMessageCallback(w: World, id: nat): World {
    w.(stateCallbacks := w.stateCallbacks.(message := w.stateCallbacks.message + [id]))
  }

  // ---------------------------------------------------------------- channel accessors

  function TopicOf(w: World, c: ChanId): string {
    if c in w.chans then w.chans[c].topic else ""
  }

  function StateOf(w: World, c: ChanId): ChanState {
    if c in w.chans then w.chans[c].state else Closed
  }

  /** `channel.joinRef()`: the reference of the channel's join push, null before its first send. */
  function JoinRefOf(w: World, c: ChanId): Json {
    if c in w.chans && w.chans[c].joinPush in w.pushes then w.pushes[w.chans[c].joinPush].ref else JNull
  }

  function SetState(w: World, c: ChanId, s: ChanState): (r: World)
    ensures Extends(w, r) && r.channels == w.channels && r.pushes == w.pushes && r.wire == w.wire && r.calls == w.calls
    ensures c in w.chans ==> r.chans == w.chans[c := w.chans[c].(state := s)]
  {
    if c in w.chans then w.(chans := w.chans[c := w.chans[c].(state := s)]) else w
  }

  /** `canPush()`: the socket is connected and the channel is joined. */
  predicate CanPush(w: World, c: ChanId) {
    IsConnected(w) && c in w.chans && w.chans[c].state == Joined
  }

  /** `socket.remove(channel)`: every other channel, in order. */
  function RemoveChannel(cs: seq<ChanId>, c: ChanId): seq<ChanId> {
    Filter(cs, (d: ChanId) => d != c)
  }

  // ---------------------------------------------------------------- pushes

  /** `hasReceived(status)`. */
  predicate HasReceived(p: Push, status: string) {
    p.receivedResp.Some? && p.receivedResp.value.status == JStr(status)
  }

  /** `startTimeout()`: arms the timer unless a handle is already set. */
  function StartTimeout(p: Push): Push {
    if p.timer == Unset then p.(timer := Armed) else p
  }

  /** `cancelTimeout()`. */
  function CancelTimeout(p: Push): Push {
    p.(timer := Unset)
  }

  /** `reset()`. */
  function PushReset(p: Push): Push {
    CancelTimeout(p).(receivedResp := None, sent := false)
  }

  /** `Push.send()`. */
  function PushSend(w: World, pid: PushId): (r: World)
    ensures Extends(w, r) && r.chans == w.chans && r.channels == w.channels && r.calls == w.calls
  {
    if pid !in w.pushes || HasReceived(w.pushes[pid], "timeout") then w
    else
      var p := w.pushes[pid];
      var w1 := MakeRef(w);
      var r := RefString(w1.ref);
      var w2 := w1.(pushes := w1.pushes[pid := StartTimeout(p).(sent := true, ref := r)]);
      SocketPush(w2, Message(JoinRefOf(w2, p.chan), r, JStr(TopicOf(w2, p.chan)), JStr(p.event), p.payload))
  }

  /** `Push.resend(timeout)`. */
  function PushResend(w: World, pid: PushId, timeout: nat): World {
    if pid in w.pushes then
      PushSend(w.(pushes := w.pushes[pid := PushReset(w.pushes[pid]).(timeout := timeout)]), pid)
    else w
  }

  /** `Push.receive(status, callback)` with user code `id`: replay a matching result, then register. */
  function PushReceive(w: World, pid: PushId, status: string, id: nat): World {
    if pid in w.pushes then
      var p := w.pushes[pid];
      var w1 := if HasReceived(p, status) then w.(calls := w.calls + [HookCall(pid, id, p.receivedResp.value.response)]) else w;
      w1.(pushes := w1.pushes[pid := p.(recHooks := p.recHooks + [Hook(status, External(id))])])
    else w
  }

  /** `this.recHooks.filter(h => h.status === status)`. */
  function MatchingHooks(hs: seq<Hook>, status: Json): seq<Hook> {
    Filter(hs, (h: Hook) => JStr(h.status) == status)
  }

  /** `this.bindings.filter(bind => bind.event === event)`. */
  function MatchingBindings(bs: seq<Binding>, event: Json): seq<Binding> {
    Filter(bs, (b: Binding) => JStr(b.event) == event)
  }

  /** The pushes of a buffer sent one after the other (`pushBuffer.forEach(push => push.send())`). */
  function SendAll(w: World, ps: seq<PushId>): (r: World)
    ensures Extends(w, r) && r.chans == w.chans && r.channels == w.channels && r.calls == w.calls
    decreases |ps|
  {
    if ps == [] then w else PushSend(SendAll(w, ps[..|ps| - 1]), ps[|ps| - 1])
  }

  /** The join push's "ok" hook: joined, then flush the channel's push buffer in order and empty it. */
  function JoinOkEffect(w: World, c: ChanId): (r: World)
  {
    if c in w.chans then
      var w1 := SetState(w, c, Joined);
      var w2 := SendAll(w1, w.chans[c].pushBuffer);
      w2.(chans := w2.chans[c := w2.chans[c].(pushBuffer := [])])
    else w
  }

  /** One binding callback invoked by `Channel.trigger`. */
  function RunBinding(w: World, c: ChanId, b: Binding, payload: Json, ref: Json, joinRef: Json): (r: World)
  {
    match b.handler
    case OnCloseHandler => SetState(w, c, Closed).(channels := RemoveChannel(w.channels, c))
    case OnErrorHandler => SetState(w, c, Errored)
    case UserHandler(id) =>
      w.(calls := w.calls + [BindingCall(c, id, payload, ref, OrElse(joinRef, JoinRefOf(w, c)))])
  }

  function RunBindings(w: World, c: ChanId, bs: seq<Binding>, payload: Json, ref: Json, joinRef: Json): (r: World)
    decreases |bs|
  {
    if bs == [] then w
    else RunBinding(RunBindings(w, c, bs[..|bs| - 1], payload, ref, joinRef), c, bs[|bs| - 1], payload, ref, joinRef)
  }

  lemma RunBindingsSnoc(w: World, c: ChanId, bs: seq<Binding>, i: nat, payload: Json, ref: Json, joinRef: Json)
    requires i < |bs|
    ensures RunBindings(w, c, bs[..i + 1], payload, ref, joinRef)
         == RunBinding(RunBindings(w, c, bs[..i], payload, ref, joinRef), c, bs[i], payload, ref, joinRef)
  {
    assert bs[..i + 1][..i] == bs[..i];
  }

  /** The part of `Channel.trigger` that calls the bindings of `event`. */
  function Dispatch(w: World, c: ChanId, event: Json, payload: Json, ref: Json, joinRef: Json): (r: World)
  {
    if c in w.chans then RunBindings(w, c, MatchingBindings(w.chans[c].bindings, event), payload, ref, joinRef)
    else w
  }

  /** One push hook invoked by `Push.trigger`; `c` is the push's channel. */
  function RunHook(w: World, pid: PushId, c: ChanId, cb: Callback, response: Json): (r: World)
  {
    match cb
    case JoinOk => JoinOkEffect(w, c)
    case JoinError => SetState(w, c, Errored)
    case JoinTimeout => if StateOf(w, c) == Joining then SetState(w, c, Errored) else w
    case CloseOnLeave => Dispatch(w, c, JStr(CloseEvent), JStr("leave"), JNull, JNull)
    case External(id) => w.(calls := w.calls + [HookCall(pid, id, response)])
  }

  function RunHooks(w: World, pid: PushId, c: ChanId, hs: seq<Hook>, response: Json): (r: World)
    decreases |hs|
  {
    if hs == [] then w
    else RunHook(RunHooks(w, pid, c, hs[..|hs| - 1], response), pid, c, hs[|hs| - 1].callback, response)
  }

  /** `Push.trigger(status, response)`: record the result, then run the hooks registered for `status`. */
  function PushTrigger(w: World, pid: PushId, status: Json, response: Json): (r: World)
  {
    if pid in w.pushes then
      var p := w.pushes[pid];
      var w1 := w.(pushes := w.pushes[pid := p.(receivedResp := Some(Resp(status, response)))]);
      RunHooks(w1, pid, p.chan, MatchingHooks(p.recHooks, status), response)
    else w
  }

  /** The push's timeout timer fires: `trigger("timeout", {})`. */
  function PushTimerFired(w: World, pid: PushId): World {
    if pid in w.pushes && w.pushes[pid].timer == Armed then
      PushTrigger(w.(pushes := w.pushes[pid := w.pushes[pid].(timer := Spent)]), pid, JStr("timeout"), EmptyObject)
    else w
  }

  // ---------------------------------------------------------------- channels

  /** A `phx_reply` whose truthy ref is strictly equal to the channel's join ref. */
  predicate IsJoinReply(w: World, c: ChanId, event: Json, ref: Json) {
    c in w.chans && event == JStr(ReplyEvent) && Truthy(ref) && StrictEq(ref, JoinRefOf(w, c))
  }

  /** `Channel.trigger(event, payload, ref, joinRef)`: a reply to the join push goes to it alone. */
  function ChannelTrigger(w: World, c: ChanId, event: Json, payload: Json, ref: Json, joinRef: Json): (r: World)
  {
    if IsJoinReply(w, c, event, ref) then
      var jp := w.chans[c].joinPush;
      PushTrigger(w.(pushes := w.pushes[jp := CancelTimeout(w.pushes[jp])]), jp,
                  Field(payload, "status"), OrElse(Field(payload, "response"), EmptyObject))
    else Dispatch(w, c, event, payload, ref, joinRef)
  }

  /** `Socket.channel(topic, params)`: a new closed channel with its join push, registered last. */
  function NewChannel(w: World, topic: string, params: Json): World {
    var c := w.nextId;
    var jp := w.nextId + 1;
    var prm := OrElse(params, EmptyObject);
    var joinPush := Push(c, JoinEvent, OrElse(prm, EmptyObject), w.timeout, None, Unset, StandardJoinHooks, false, JNull);
    var ch := Channel(topic, prm, Closed, StandardBindings, 2, false, jp, []);
    w.(chans := w.chans[c := ch], pushes := w.pushes[jp := joinPush], nextId := w.nextId + 2,
       channels := w.channels + [c])
  }

  /** `Channel.on(event, callback)` with user code `id`; the new binding's ref is the old `bindingRef`. */
  function ChannelOn(w: World, c: ChanId, event: string, id: nat): World {
    if c in w.chans then
      var ch := w.chans[c];
      w.(chans := w.chans[c := ch.(bindings := ch.bindings + [Binding(event, ch.bindingRef, UserHandler(id))],
                                    bindingRef := ch.bindingRef + 1)])
    else w
  }

  /** The bindings `off(event, ref)` removes: those of `event`, and with `ref` when one is given. */
  predicate OffMatches(b: Binding, event: string, ref: Option<nat>) {
    b.event == event && (ref.None? || ref.value == b.ref)
  }

  function OffKeep(event: string, ref: Option<nat>): Binding -> bool {
    (b: Binding) => !OffMatches(b, event, ref)
  }

  /** `Channel.off(event, ref)`: drop the bindings of `event` (only the one with `ref` when given). */
  function ChannelOff(w: World, c: ChanId, event: string, ref: Option<nat>): World {
    if c in w.chans then
      var ch := w.chans[c];
      w.(chans := w.chans[c := ch.(bindings := Filter(ch.bindings, OffKeep(event, ref)))])
    else w
  }

  /** `Channel.rejoin(timeout)`. */
  function Rejoin(w: World, c: ChanId, timeout: nat): World {
    if c in w.chans && w.chans[c].state != Leaving then
      PushResend(SetState(w, c, Joining), w.chans[c].joinPush, timeout)
    else w
  }

  /** `Channel.join(timeout)`: the first call marks the channel and rejoins; a second call throws. */
  function Join(w: World, c: ChanId, timeout: nat): World {
    if c in w.chans && !w.chans[c].joinedOnce then
      Rejoin(w.(chans := w.chans[c := w.chans[c].(joinedOnce := true)]), c, timeout)
    else w
  }

  function JoinResult(w: World, c: ChanId): Result<PushId>
    requires c in w.chans
  {
    if w.chans[c].joinedOnce then Err("tried to join multiple times") else Ok(w.chans[c].joinPush)
  }

  /** A new push record under the next free id. */
  function AddPush(w: World, p: Push): World {
    w.(pushes := w.pushes[w.nextId := p], nextId := w.nextId + 1)
  }

  /** A push that cannot go out yet: its timer starts and it waits at the end of the channel's buffer. */
  function BufferPush(w: World, c: ChanId, pid: PushId): World {
    if c in w.chans && pid in w.pushes then
      w.(pushes := w.pushes[pid := StartTimeout(w.pushes[pid])],
         chans := w.chans[c := w.chans[c].(pushBuffer := w.chans[c].pushBuffer + [pid])])
    else w
  }

  /** `Channel.push(event, payload, timeout)`: send now if possible, else buffer with the timer running. */
  function ChannelPush(w: World, c: ChanId, event: string, payload: Json, timeout: nat): World {
    if c in w.chans && w.chans[c].joinedOnce then
      var pid := w.nextId;
      var w1 := AddPush(w, Push(c, event, OrElse(payload, EmptyObject), timeout, None, Unset, [], false, JNull));
      if CanPush(w1, c) then PushSend(w1, pid) else BufferPush(w1, c, pid)
    else w
  }

  function ChannelPushResult(w: World, c: ChanId, event: string): Result<PushId>
    requires c in w.chans
  {
    if w.chans[c].joinedOnce then Ok(w.nextId)
    else Err("tried to push '" + event + "' to '" + w.chans[c].topic + "' before joining")
  }

  /** The leave push the channel creates: "ok" and "timeout" both close the channel. */
  function LeavePush(c: ChanId, timeout: nat): Push {
    Push(c, LeaveEvent, EmptyObject, timeout, None, Unset,
         [Hook("ok", CloseOnLeave), Hook("timeout", CloseOnLeave)], false, JNull)
  }

  /** `Channel.leave(timeout)`; the leave push is the one with id `w.nextId`. */
  function ChannelLeave(w: World, c: ChanId, timeout: nat): World {
    var lp := w.nextId;
    var w1 := SetState(w, c, Leaving);
    var w2 := PushSend(AddPush(w1, LeavePush(c, timeout)), lp);
    if !CanPush(w2, c) then PushTrigger(w2, lp, JStr("ok"), EmptyObject) else w2
  }

  /** `isMember(topic, event, payload, joinRef)`. */
  predicate IsMember(w: World, c: ChanId, topic: Json, joinRef: Json) {
    c in w.chans && topic == JStr(w.chans[c].topic) && !(Truthy(joinRef) && !StrictEq(joinRef, JoinRefOf(w, c)))
  }

  // ---------------------------------------------------------------- socket events

  /** `triggerChanError()` on one channel: every channel not closed gets `phx_error`. */
  function ErrorChannel(w: World, c: ChanId): (r: World)
  {
    if StateOf(w, c) != Closed then ChannelTrigger(w, c, JStr(ErrorEvent), JNull, JNull, JNull) else w
  }

  function ErrorChannels(w: World, cs: seq<ChanId>): (r: World)
    decreases |cs|
  {
    if cs == [] then w else ErrorChannel(ErrorChannels(w, cs[..|cs| - 1]), cs[|cs| - 1])
  }

  /** `triggerChanError()`. */
  function TriggerChanError(w: World): World {
    ErrorChannels(w, w.channels)
  }

  /** The channels an inbound message is delivered to, in registration order. */
  function Members(w: World, topic: Json, joinRef: Json): seq<ChanId> {
    Filter(w.channels, (c: ChanId) => IsMember(w, c, topic, joinRef))
  }

  /** `matchingChannels.forEach(ch => ch.trigger(...))`. */
  function TriggerAll(w: World, cs: seq<ChanId>, m: Message): (r: World)
    decreases |cs|
  {
    if cs == [] then w
    else ChannelTrigger(TriggerAll(w, cs[..|cs| - 1], m), cs[|cs| - 1], m.event, m.payload, m.ref, m.joinRef)
  }

  /** `conn.onmessage`: decode, settle the heartbeat, route to the member channels, then to the message callbacks. */
  function Inbound(w: World, raw: Json): World {
    match Decode(raw)
    case None => w
    case Some(m) =>
      var w1 := if StrictEq(m.ref, w.pendingHeartbeatRef) then w.(pendingHeartbeatRef := JNull) else w;
      var w2 := TriggerAll(w1, Members(w1, m.topic, m.joinRef), m);
      w2.(calls := w2.calls + MessageCalls(w2.stateCallbacks.message, m))
  }

  /** A frame arrives on the link; only an open WebSocket delivers messages. */
  function WsMessage(w: World, raw: Json): World {
    if IsConnected(w) then Inbound(w, raw) else w
  }

  /** `connect()`; `created` says whether `new WebSocket(url)` succeeded. */
  function Connect(w: World, created: bool): World {
    if w.conn != NoConn then w
    else if !created then w.(calls := w.calls + StateCalls(OnError, w.stateCallbacks.error))
    else w.(conn := Link(Connecting))
  }

  /** `conn.onopen`. */
  function WsOpen(w: World): World {
    if w.conn == Link(Connecting) then
      var w1 := FlushSendBuffer(w.(conn := Link(Open), reconnectTries := 0));
      var w2 := w1.(heartbeatTimer := true);
      w2.(calls := w2.calls + StateCalls(OnOpen, w2.stateCallbacks.open))
    else w
  }

  /** `scheduleReconnect()`. */
  function ScheduleReconnect(w: World): World {
    w.(reconnectTries := w.reconnectTries + 1, reconnectDelay := ReconnectAfterMs(w.reconnectTries + 1),
       reconnectTimer := true)
  }

  /** `conn.onclose`: error the channels, stop the heartbeat, schedule a reconnect, notify. */
  function WsClose(w: World): World {
    if w.conn.Link? && w.conn.readyState != Shut then
      var w1 := TriggerChanError(w.(conn := Link(Shut)));
      var w2 := ScheduleReconnect(w1.(heartbeatTimer := false));
      w2.(calls := w2.calls + StateCalls(OnClose, w2.stateCallbacks.close))
    else w
  }

  /** `conn.onerror`. */
  function WsError(w: World): World {
    if w.conn.Link? then
      var w1 := TriggerChanError(w);
      w1.(calls := w1.calls + StateCalls(OnError, w1.stateCallbacks.error))
    else w
  }

  /** The heartbeat interval fires: `sendHeartbeat()`. */
  function HeartbeatTick(w: World): World {
    if !w.heartbeatTimer || !IsConnected(w) then w
    else if Truthy(w.pendingHeartbeatRef) then w.(pendingHeartbeatRef := JNull, conn := Link(Closing))
    else
      var w1 := MakeRef(w);
      var r := RefString(w1.ref);
      SocketPush(w1.(pendingHeartbeatRef := r), Message(JNull, r, JStr("phoenix"), JStr("heartbeat"), EmptyObject))
  }

  /** The reconnect timer fires: drop the link and `connect()` again. */
  function ReconnectTimerFired(w: World, created: bool): World {
    if w.reconnectTimer then Connect(w.(reconnectTimer := false, conn := NoConn), created) else w
  }

  /** `disconnect(callback)` as the client has it: the link is dropped, a scheduled reconnect stays armed. */
  function Disconnect(w: World, callback: Option<nat>): World {
    var w1 := if w.conn.Link? then w.(conn := NoConn) else w;
    if callback.Some? then w1.(calls := w1.calls + [DisconnectCall(callback.value)]) else w1
  }

  /** `disconnect(callback)` with the scheduled reconnect cancelled as well. */
  function DisconnectCorrected(w: World, callback: Option<nat>): World {
    Disconnect(w, callback).(reconnectTimer := false)
  }
}
