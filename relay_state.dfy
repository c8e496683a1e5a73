// The background service worker: its module-level session variables, the
// `chrome.storage.local` record it keeps, and every handler as a total
// function from state to state. The browser, the popup and the Phoenix client
// are outside: what the worker asks of them is appended to an effect log, and
// what they answer is an argument of the handler (an "outcome").

module RelayState {
  import opened Wrappers
  import opened Json
  import opened TextOps

  // ---------------------------------------------------------------- user ids

  /** One value of the `Uint8Array` filled by `crypto.getRandomValues`. */
  type Byte = x: int | 0 <= x < 256

  predicate IsHexDigit(c: char) {
    '0' <= c <= '9' || 'a' <= c <= 'f'
  }

  /** The digit `n.toString(16)` writes for `n < 16`: lower-case. */
  function HexDigit(n: int): (c: char)
    requires 0 <= n < 16
    ensures IsHexDigit(c)
  {
    if n < 10 then (48 + n) as char else (87 + n) as char
  }

  /** `byte.toString(16)`: one digit below 16, two from 16 on. */
  function ToHex(b: Byte): (r: string)
    ensures |r| == (if b < 16 then 1 else 2)
  {
    if b < 16 then [HexDigit(b)] else [HexDigit(b / 16), HexDigit(b % 16)]
  }

  /** `s.padStart(n, fill)`. */
  function PadStart(s: string, n: nat, fill: char): (r: string)
    ensures |r| == if |s| >= n then |s| else n
    ensures r[|r| - |s|..] == s
  {
    if |s| >= n then s else seq(n - |s|, _ => fill) + s
  }

  function HexByte(b: Byte): string {
    PadStart(ToHex(b), 2, '0')
  }

  function HexParts(bytes: seq<Byte>): (r: seq<string>)
    ensures |r| == |bytes|
  {
    seq(|bytes|, i requires 0 <= i < |bytes| => HexByte(bytes[i]))
  }

  /** `generateUserId()` over the eight random bytes: each byte as two hex digits, concatenated. */
  function GenerateUserId(bytes: seq<Byte>): string {
    Join(HexParts(bytes), "")
  }

  /** The value of a lower-case hex digit. */
  function DigitValue(c: char): int {
    if c <= '9' then c as int - 48 else c as int - 87
  }

  /** Reads a string of hex digit pairs back into bytes. */
  function ParseUserId(s: string): (r: seq<int>)
    decreases |s|
  {
    if |s| < 2 then [] else [DigitValue(s[0]) * 16 + DigitValue(s[1])] + ParseUserId(s[2..])
  }

  // ---------------------------------------------------------------- the worker's state

  /** What `chrome.storage.local` holds under the three keys the worker uses. */
  datatype Stored = Stored(isSharing: Json, roomCode: Json, serverUrl: Json)

  /** The Phoenix socket the worker created, by its constructor arguments. */
  datatype SocketInfo = SocketInfo(endPoint: string, timeout: nat, heartbeatIntervalMs: nat)

  /** The channel the worker created, by `socket.channel(topic, params)`. */
  datatype ChannelInfo = ChannelInfo(topic: string, params: Json)

  /** What the worker asks of the browser, the popup and the Phoenix client, in order. */
  datatype Effect =
    | TabMessage(tabId: int, kind: string)           // chrome.tabs.sendMessage(tabId, { type: kind })
    | Inject(tabId: int)                             // chrome.scripting.executeScript(content.js)
    | Notify(kind: string, status: string, message: Option<string>)  // notifyPopup(kind, { status, message })
    | Connect(endPoint: string)                      // socket.connect()
    | JoinRoom(topic: string)                        // channel.join()
    | ChannelPush(event: string, payload: Json)      // channel.push(event, payload)
    | ChannelLeave                                   // channel.leave()
    | SocketDisconnect                               // socket.disconnect()

  datatype Relay = Relay(
    socket: Option<SocketInfo>,
    channel: Option<ChannelInfo>,
    isSharing: bool,
    currentRoomCode: Option<string>,
    currentServerUrl: Option<string>,
    activeTabId: Option<int>,
    storage: Stored,
    effects: seq<Effect>)

  const Initial: Relay := Relay(None, None, false, None, None, None, Stored(JNull, JNull, JNull), [])

  const StartCaptureKind := "START_CAPTURE"
  const StopCaptureKind := "STOP_CAPTURE"
  const StatusKind := "CONNECTION_STATUS"

  const NoTabError := "No active tab found"
  const ConnectError := "Failed to connect to server"
  const JoinError := "Failed to join room"
  const TimeoutError := "Connection timeout"
  const InjectError := "Cannot share this page. Try a regular website."

  const Connected := Notify(StatusKind, "connected", None)
  const Disconnected := Notify(StatusKind, "disconnected", None)

  // ---------------------------------------------------------------- connecting

  /** `serverUrl.replace(/^http/, 'ws') + '/socket/websocket'`. */
  function WsUrl(serverUrl: string): string {
    (if StartsWith(serverUrl, "http") then "ws" + serverUrl[4..] else serverUrl) + "/socket/websocket"
  }

  /** The topic of a room's channel. */
  function RoomTopic(roomCode: string): string {
    "room:" + roomCode
  }

  /** The join parameters: the extension always joins as the leader. */
  function LeaderParams(userId: string): Json {
    JObj(map["role" := JStr("leader"), "user_id" := JStr(userId)])
  }

  /** How the join push settles. */
  datatype JoinReply = JoinedOk | JoinedError | JoinedTimeout

  /** How the connection attempt settles: the socket errs before opening, or it opens and the join is answered. */
  datatype ConnectOutcome = OpenFailed | Opened(userBytes: seq<Byte>, reply: JoinReply)

  /**
   * `connectToServer` up to the settling of its promise: the socket is created
   * and connected; once open, the room channel is created and joined.
   */
  function ConnectToServer(r: Relay, serverUrl: string, roomCode: string, outcome: ConnectOutcome): (Relay, Result<()>) {
    var url := WsUrl(serverUrl);
    var r1 := r.(socket := Some(SocketInfo(url, 10000, 30000)), effects := r.effects + [Connect(url)]);
    match outcome
    case OpenFailed =>
      (r1.(effects := r1.effects + [Notify(StatusKind, "error", Some("Connection error"))]), Err(ConnectError))
    case Opened(bytes, reply) =>
      var topic := RoomTopic(roomCode);
      var r2 := r1.(channel := Some(ChannelInfo(topic, LeaderParams(GenerateUserId(bytes)))),
                    effects := r1.effects + [JoinRoom(topic)]);
      match reply
      case JoinedOk => (r2.(effects := r2.effects + [Connected]), Ok(()))
      case JoinedError => (r2.(effects := r2.effects + [Notify(StatusKind, "error", Some(JoinError))]), Err(JoinError))
      case JoinedTimeout => (r2.(effects := r2.effects + [Notify(StatusKind, "error", Some(TimeoutError))]), Err(TimeoutError))
  }

  /** How the tab answers: the first START_CAPTURE, the injection, and the START_CAPTURE after it. */
  datatype TabOutcome = TabOutcome(firstAnswered: bool, injected: bool, retryAnswered: bool)

  /** Ask the tab to start capturing; if it does not answer, inject the content script and ask once more. */
  function StartCapture(r: Relay, tabId: int, t: TabOutcome): (Relay, Result<()>) {
    var r1 := r.(effects := r.effects + [TabMessage(tabId, StartCaptureKind)]);
    if t.firstAnswered then (r1, Ok(()))
    else
      var r2 := r1.(effects := r1.effects + [Inject(tabId)]);
      if !t.injected then (r2, Err(InjectError))
      else
        var r3 := r2.(effects := r2.effects + [TabMessage(tabId, StartCaptureKind)]);
        if t.retryAnswered then (r3, Ok(())) else (r3, Err(InjectError))
  }

  /** Everything `startSharing` waits on. */
  datatype StartOutcome = StartOutcome(activeTab: Option<int>, connect: ConnectOutcome, tab: TabOutcome)

  /** `startSharing(roomCode, serverUrl)`, from its call to the settling of its promise. */
  function StartSharing(r: Relay, roomCode: string, serverUrl: string, o: StartOutcome): (Relay, Result<()>) {
    var r1 := r.(currentRoomCode := Some(roomCode), currentServerUrl := Some(serverUrl));
    if o.activeTab.None? then (r1, Err(NoTabError))
    else
      var tabId := o.activeTab.value;
      var (r2, connected) := ConnectToServer(r1.(activeTabId := Some(tabId)), serverUrl, roomCode, o.connect);
      if connected.Err? then (r2, connected)
      else
        var (r3, started) := StartCapture(r2.(isSharing := true), tabId, o.tab);
        if started.Err? then (r3, started)
        else
          (r3.(storage := Stored(JBool(true), JStr(roomCode), JStr(serverUrl)),
               effects := r3.effects + [Connected]), Ok(()))
  }

  // ---------------------------------------------------------------- stopping

  /** `if (activeTabId)`: a tab id is truthy when set and not 0. */
  predicate HasActiveTab(r: Relay) {
    r.activeTabId.Some? && r.activeTabId.value != 0
  }

  /** `stopSharing()`: stop the capture, leave, disconnect, forget the session. */
  function StopSharing(r: Relay): Relay {
    var stop := if HasActiveTab(r) then [TabMessage(r.activeTabId.value, StopCaptureKind)] else [];
    var leave := if r.channel.Some? then [ChannelLeave] else [];
    var disconnect := if r.socket.Some? then [SocketDisconnect] else [];
    r.(isSharing := false, channel := None, socket := None,
       currentRoomCode := None, currentServerUrl := None, activeTabId := None,
       storage := r.storage.(isSharing := JBool(false)),
       effects := r.effects + stop + leave + disconnect + [Disconnected])
  }

  // ---------------------------------------------------------------- the message router

  /** A runtime message, by its `type`, with the members the router reads. */
  datatype Message =
    | StartSharingMsg(roomCode: string, serverUrl: string)
    | StopSharingMsg
    | DomUpdateMsg(html: Json, viewportWidth: Json, viewportHeight: Json, isFullPage: Json)
    | CursorMoveMsg(position: Json)
    | ScrollMsg(position: Json)
    | ClickMsg(position: Json)
    | NavigationMsg(url: Json)
    | GetStatusMsg
    | OtherMsg(kind: string)

  /** What `sendResponse` receives. */
  datatype Response =
    | Done(success: bool, error: Option<string>)
    | Status(isSharing: bool, roomCode: Option<string>, serverUrl: Option<string>)

  /** `channel && isSharing`: the guard of every forwarded event. */
  predicate CanForward(r: Relay) {
    r.channel.Some? && r.isSharing
  }

  /** Push one event to the room channel, or drop it when not sharing. */
  function Forward(r: Relay, event: string, payload: Json): Relay {
    if CanForward(r) then r.(effects := r.effects + [ChannelPush(event, payload)]) else r
  }

  /** The `dom_full` payload: `is_full_page` is true unless the update says exactly `false`. */
  function DomPayload(html: Json, width: Json, height: Json, isFullPage: Json): Json {
    JObj(map["html" := html, "viewport_width" := width, "viewport_height" := height,
             "is_full_page" := JBool(!StrictEq(isFullPage, JBool(false)))])
  }

  /** The listener of `chrome.runtime.onMessage`: the new state and the response, if one is sent. */
  function OnMessage(r: Relay, m: Message, o: StartOutcome): (Relay, Option<Response>) {
    match m
    case StartSharingMsg(code, url) =>
      var (r1, res) := StartSharing(r, code, url, o);
      (r1, Some(if res.Ok? then Done(true, None) else Done(false, Some(res.message))))
    case StopSharingMsg => (StopSharing(r), Some(Done(true, None)))
    case DomUpdateMsg(html, w, h, full) => (Forward(r, "dom_full", DomPayload(html, w, h, full)), None)
    case CursorMoveMsg(p) => (Forward(r, "cursor_move", p), None)
    case ScrollMsg(p) => (Forward(r, "scroll", p), None)
    case ClickMsg(p) => (Forward(r, "click", p), None)
    case NavigationMsg(url) => (Forward(r, "navigation", JObj(map["url" := url])), None)
    case GetStatusMsg => (r, Some(Status(r.isSharing, r.currentRoomCode, r.currentServerUrl)))
    case OtherMsg(_) => (r, None)
  }

  // ---------------------------------------------------------------- tab events and start-up

  /** `chrome.tabs.onUpdated`: the shared tab finished loading, so capture is restarted; failures are swallowed. */
  function OnTabUpdated(r: Relay, tabId: int, status: string, t: TabOutcome): Relay {
    if r.isSharing && r.activeTabId == Some(tabId) && status == "complete" then StartCapture(r, tabId, t).0
    else r
  }

  /** `chrome.tabs.onRemoved`: closing the shared tab stops sharing. */
  function OnTabRemoved(r: Relay, tabId: int): Relay {
    if r.isSharing && r.activeTabId == Some(tabId) then StopSharing(r) else r
  }

  /** Start-up: a stored session cannot be resumed, so it is marked as not sharing. */
  function Restore(r: Relay): Relay {
    var s := r.storage;
    if Truthy(s.isSharing) && Truthy(s.roomCode) && Truthy(s.serverUrl) then r.(storage := s.(isSharing := JBool(false)))
    else r
  }
}
