// The background worker's module-level variables as one object whose handlers
// update them in place; each handler is proved to move the state exactly as
// its function in RelayState does.

module BackgroundWorker {
  import opened Wrappers
  import opened Json
  import R = RelayState

  class Worker {
    var socket: Option<R.SocketInfo>
    var channel: Option<R.ChannelInfo>
    var isSharing: bool
    var currentRoomCode: Option<string>
    var currentServerUrl: Option<string>
    var activeTabId: Option<int>
    var storage: R.Stored
    var effects: seq<R.Effect>

    function View(): R.Relay
      reads this
    {
      R.Relay(socket, channel, isSharing, currentRoomCode, currentServerUrl, activeTabId, storage, effects)
    }

    /** The worker as loaded: no session, empty storage. */
    constructor()
      ensures View() == R.Initial
    {
      socket, channel, isSharing := None, None, false;
      currentRoomCode, currentServerUrl, activeTabId := None, None, None;
      storage := R.Stored(JNull, JNull, JNull);
      effects := [];
    }

    method ConnectToServer(serverUrl: string, roomCode: string, outcome: R.ConnectOutcome) returns (res: Result<()>)
      modifies this
      ensures (View(), res) == R.ConnectToServer(old(View()), serverUrl, roomCode, outcome)
    {
      var url := R.WsUrl(serverUrl);
      socket := Some(R.SocketInfo(url, 10000, 30000));
      effects := effects + [R.Connect(url)];
      match outcome
      case OpenFailed =>
        effects := effects + [R.Notify(R.StatusKind, "error", Some("Connection error"))];
        res := Err(R.ConnectError);
      case Opened(bytes, reply) =>
        var topic := R.RoomTopic(roomCode);
        channel := Some(R.ChannelInfo(topic, R.LeaderParams(R.GenerateUserId(bytes))));
        effects := effects + [R.JoinRoom(topic)];
        match reply
        case JoinedOk =>
          effects := effects + [R.Connected];
          res := Ok(());
        case JoinedError =>
          effects := effects + [R.Notify(R.StatusKind, "error", Some(R.JoinError))];
          res := Err(R.JoinError);
        case JoinedTimeout =>
          effects := effects + [R.Notify(R.StatusKind, "error", Some(R.TimeoutError))];
          res := Err(R.TimeoutError);
    }

    method StartCapture(tabId: int, t: R.TabOutcome) returns (res: Result<()>)
      modifies this
      ensures (View(), res) == R.StartCapture(old(View()), tabId, t)
    {
      effects := effects + [R.TabMessage(tabId, R.StartCaptureKind)];
      if t.firstAnswered {
        return Ok(());
      }
      effects := effects + [R.Inject(tabId)];
      if !t.injected {
        return Err(R.InjectError);
      }
      effects := effects + [R.TabMessage(tabId, R.StartCaptureKind)];
      res := if t.retryAnswered then Ok(()) else Err(R.InjectError);
    }

    method StartSharing(roomCode: string, serverUrl: string, o: R.StartOutcome) returns (res: Result<()>)
      modifies this
      ensures (View(), res) == R.StartSharing(old(View()), roomCode, serverUrl, o)
    {
      currentRoomCode := Some(roomCode);
      currentServerUrl := Some(serverUrl);
      if o.activeTab.None? {
        return Err(R.NoTabError);
      }
      activeTabId := o.activeTab;
      res := ConnectToServer(serverUrl, roomCode, o.connect);
      if res.Err? {
        return;
      }
      isSharing := true;
      res := StartCapture(o.activeTab.value, o.tab);
      if res.Err? {
        return;
      }
      storage := R.Stored(JBool(true), JStr(roomCode), JStr(serverUrl));
      effects := effects + [R.Connected];
    }

    method StopSharing()
      modifies this
      ensures View() == R.StopSharing(old(View()))
    {
      ghost var r := View();
      isSharing := false;
      if activeTabId.Some? && activeTabId.value != 0 {
        effects := effects + [R.TabMessage(activeTabId.value, R.StopCaptureKind)];
      }
      ghost var stop := if R.HasActiveTab(r) then [R.TabMessage(r.activeTabId.value, R.StopCaptureKind)] else [];
      assert effects == r.effects + stop;
      if channel.Some? {
        effects := effects + [R.ChannelLeave];
        channel := None;
      }
      ghost var leave := if r.channel.Some? then [R.ChannelLeave] else [];
      assert effects == r.effects + stop + leave;
      if socket.Some? {
        effects := effects + [R.SocketDisconnect];
        socket := None;
      }
      currentRoomCode := None;
      currentServerUrl := None;
      activeTabId := None;
      storage := storage.(isSharing := JBool(false));
      effects := effects + [R.Disconnected];
    }

    method Forward(event: string, payload: Json)
      modifies this
      ensures View() == R.Forward(old(View()), event, payload)
    {
      if channel.Some? && isSharing {
        effects := effects + [R.ChannelPush(event, payload)];
      }
    }

    /** The listener of `chrome.runtime.onMessage`. */
    method OnMessage(m: R.Message, o: R.StartOutcome) returns (response: Option<R.Response>)
      modifies this
      ensures (View(), response) == R.OnMessage(old(View()), m, o)
    {
      match m
      case StartSharingMsg(code, url) =>
        var res := StartSharing(code, url, o);
        response := Some(if res.Ok? then R.Done(true, None) else R.Done(false, Some(res.message)));
      case StopSharingMsg =>
        StopSharing();
        response := Some(R.Done(true, None));
      case DomUpdateMsg(html, w, h, full) =>
        Forward("dom_full", R.DomPayload(html, w, h, full));
        response := None;
      case CursorMoveMsg(p) =>
        Forward("cursor_move", p);
        response := None;
      case ScrollMsg(p) =>
        Forward("scroll", p);
        response := None;
      case ClickMsg(p) =>
        Forward("click", p);
        response := None;
      case NavigationMsg(url) =>
        Forward("navigation", JObj(map["url" := url]));
        response := None;
      case GetStatusMsg =>
        response := Some(R.Status(isSharing, currentRoomCode, currentServerUrl));
      case OtherMsg(_) =>
        response := None;
    }

    method OnTabUpdated(tabId: int, status: string, t: R.TabOutcome)
      modifies this
      ensures View() == R.OnTabUpdated(old(View()), tabId, status, t)
    {
      if isSharing && activeTabId == Some(tabId) && status == "complete" {
        var _ := StartCapture(tabId, t);
      }
    }

    method OnTabRemoved(tabId: int)
      modifies this
      ensures View() == R.OnTabRemoved(old(View()), tabId)
    {
      if isSharing && activeTabId == Some(tabId) {
        StopSharing();
      }
    }

    method Restore()
      modifies this
      ensures View() == R.Restore(old(View()))
    {
      if Truthy(storage.isSharing) && Truthy(storage.roomCode) && Truthy(storage.serverUrl) {
        storage := storage.(isSharing := JBool(false));
      }
    }
  }
}
