// What the background worker promises, proved of the handlers in RelayState.

module RelayProps {
  import opened Wrappers
  import opened Json
  import opened TextOps
  import opened RelayState

  // ---------------------------------------------------------------- user ids

  /** Padding to two places makes every byte exactly its two hex digits. */
  lemma HexByteDigits(b: Byte)
    ensures HexByte(b) == [HexDigit(b / 16), HexDigit(b % 16)]
  {
    if b < 16 {
      assert seq(1, _ => '0') + [HexDigit(b)] == ['0', HexDigit(b)];
    }
  }

  lemma JoinNoSeparator(parts: seq<string>)
    requires parts != []
    ensures Join(parts, "") == parts[0] + Join(parts[1..], "")
  {
    if |parts| == 1 {
      assert parts[0] + "" == parts[0];
    }
  }

  /**
   * A user id is two lower-case hex digits per byte, and reading the pairs back
   * gives the bytes: distinct random arrays give distinct ids.
   */
  /** The id of a non-empty array is the first byte's two digits, then the id of the rest. */
  lemma UserIdCons(bytes: seq<Byte>)
    requires bytes != []
    ensures GenerateUserId(bytes) == [HexDigit(bytes[0] / 16), HexDigit(bytes[0] % 16)] + GenerateUserId(bytes[1..])
  {
    var parts := HexParts(bytes);
    assert parts[1..] == HexParts(bytes[1..]);
    JoinNoSeparator(parts);
    HexByteDigits(bytes[0]);
  }

  /** Reading a byte's two digits in front of a string gives that byte in front of the string's reading. */
  lemma ParsePair(b: Byte, tail: string)
    ensures ParseUserId([HexDigit(b / 16), HexDigit(b % 16)] + tail) == [b] + ParseUserId(tail)
  {
    var s := [HexDigit(b / 16), HexDigit(b % 16)] + tail;
    assert s[2..] == tail;
  }

  lemma {:induction false} UserIdRoundTrip(bytes: seq<Byte>)
    ensures var id := GenerateUserId(bytes);
      |id| == 2 * |bytes| &&
      (forall i :: 0 <= i < |id| ==> IsHexDigit(id[i])) &&
      ParseUserId(id) == bytes
    decreases |bytes|
  {
    if bytes != [] {
      var rest := bytes[1..];
      UserIdRoundTrip(rest);
      UserIdCons(bytes);
      ParsePair(bytes[0], GenerateUserId(rest));
      var id := GenerateUserId(bytes);
      var tail := GenerateUserId(rest);
      forall i | 0 <= i < |id| ensures IsHexDigit(id[i]) {
        if i >= 2 { assert id[i] == tail[i - 2]; }
      }
      assert [bytes[0]] + rest == bytes;
    }
  }


  /** `generateUserId()` gives sixteen lower-case hex digits. */
  lemma UserIdShape(bytes: seq<Byte>)
    requires |bytes| == 8
    ensures |GenerateUserId(bytes)| == 16
    ensures forall i :: 0 <= i < 16 ==> IsHexDigit(GenerateUserId(bytes)[i])
  {
    UserIdRoundTrip(bytes);
  }

  lemma UserIdInjective(a: seq<Byte>, b: seq<Byte>)
    requires GenerateUserId(a) == GenerateUserId(b)
    ensures a == b
  {
    UserIdRoundTrip(a);
    UserIdRoundTrip(b);
  }

  // ---------------------------------------------------------------- the socket URL

  /** `http` becomes `ws` and `https` becomes `wss`; any other URL only gets the socket path. */
  lemma WsUrlSchemes(host: string, other: string)
    requires !StartsWith(other, "http")
    ensures WsUrl("http://" + host) == "ws://" + host + "/socket/websocket"
    ensures WsUrl("https://" + host) == "wss://" + host + "/socket/websocket"
    ensures WsUrl(other) == other + "/socket/websocket"
  {
    assert ("http://" + host)[..4] == "http" && ("http://" + host)[4..] == "://" + host;
    assert ("https://" + host)[..4] == "http" && ("https://" + host)[4..] == "s://" + host;
  }

  // ---------------------------------------------------------------- forwarding

  predicate Forwarded(m: Message) {
    m.DomUpdateMsg? || m.CursorMoveMsg? || m.ScrollMsg? || m.ClickMsg? || m.NavigationMsg?
  }

  /**
   * Content-script events are pushed to the channel, one push each with no
   * response, exactly while a channel exists and sharing is on; otherwise
   * they are dropped and nothing changes.
   */
  lemma ForwardOnlyWhileSharing(r: Relay, m: Message, o: StartOutcome)
    requires Forwarded(m)
    ensures var (r1, resp) := OnMessage(r, m, o);
      resp.None? &&
      (!CanForward(r) ==> r1 == r) &&
      (CanForward(r) ==> r1 == r.(effects := r1.effects) && |r1.effects| == |r.effects| + 1 &&
                         r1.effects[..|r.effects|] == r.effects && r1.effects[|r.effects|].ChannelPush?)
  {
  }

  /** Which event each message becomes, and the payload it carries. */
  lemma ForwardedEvents(r: Relay, o: StartOutcome, html: Json, w: Json, h: Json, full: Json, p: Json, url: Json)
    requires CanForward(r)
    ensures OnMessage(r, DomUpdateMsg(html, w, h, full), o).0.effects == r.effects + [ChannelPush("dom_full", DomPayload(html, w, h, full))]
    ensures OnMessage(r, CursorMoveMsg(p), o).0.effects == r.effects + [ChannelPush("cursor_move", p)]
    ensures OnMessage(r, ScrollMsg(p), o).0.effects == r.effects + [ChannelPush("scroll", p)]
    ensures OnMessage(r, ClickMsg(p), o).0.effects == r.effects + [ChannelPush("click", p)]
    ensures OnMessage(r, NavigationMsg(url), o).0.effects == r.effects + [ChannelPush("navigation", JObj(map["url" := url]))]
  {
  }

  /** A DOM update is a full page unless it says exactly `false`; one that does not say is full. */
  lemma FullPageByDefault(html: Json, w: Json, h: Json, full: Json)
    ensures var p := DomPayload(html, w, h, full);
      p.JObj? && p.fields.Keys == {"html", "viewport_width", "viewport_height", "is_full_page"} &&
      (p.fields["is_full_page"] == JBool(false) <==> full == JBool(false)) &&
      (full == JNull ==> p.fields["is_full_page"] == JBool(true))
  {
  }

  /** GET_STATUS answers the session as it stands and changes nothing. */
  lemma StatusReflectsState(r: Relay, o: StartOutcome)
    ensures OnMessage(r, GetStatusMsg, o) == (r, Some(Status(r.isSharing, r.currentRoomCode, r.currentServerUrl)))
  {
  }

  // ---------------------------------------------------------------- starting

  /** Without an active tab nothing is connected: only the room and server are remembered. */
  lemma NoTabNoConnection(r: Relay, code: string, url: string, o: StartOutcome)
    requires o.activeTab.None?
    ensures var (r1, res) := StartSharing(r, code, url, o);
      res == Err(NoTabError) && r1.effects == r.effects && r1.isSharing == r.isSharing &&
      r1 == r.(currentRoomCode := Some(code), currentServerUrl := Some(url))
  {
  }

  /**
   * A connection that fails (socket error, join refused, join timed out)
   * rejects with its own message; sharing is not switched on, the tab is not
   * asked to capture and storage is untouched.
   */
  lemma FailedConnectionNotSharing(r: Relay, code: string, url: string, o: StartOutcome)
    requires o.activeTab.Some? && !(o.connect.Opened? && o.connect.reply.JoinedOk?)
    ensures var (r1, res) := StartSharing(r, code, url, o);
      res.Err? && r1.isSharing == r.isSharing && r1.storage == r.storage &&
      (o.connect.OpenFailed? ==> res.message == ConnectError) &&
      (o.connect.Opened? && o.connect.reply.JoinedError? ==> res.message == JoinError) &&
      (o.connect.Opened? && o.connect.reply.JoinedTimeout? ==> res.message == TimeoutError) &&
      r1.effects[..|r.effects|] == r.effects &&
      (forall i :: |r.effects| <= i < |r1.effects| ==> !r1.effects[i].TabMessage?)
  {
  }

  /** Asking the tab: one message if it answers, else one injection and at most one more message. */
  lemma StartCaptureRetriesOnce(r: Relay, tabId: int, t: TabOutcome)
    ensures var (r1, res) := StartCapture(r, tabId, t);
      var added := r1.effects[|r.effects|..];
      r1.effects[..|r.effects|] == r.effects && r1 == r.(effects := r1.effects) &&
      (t.firstAnswered ==> added == [TabMessage(tabId, StartCaptureKind)]) &&
      (!t.firstAnswered ==> 2 <= |added| <= 3 && added[..2] == [TabMessage(tabId, StartCaptureKind), Inject(tabId)]) &&
      (res.Ok? <==> t.firstAnswered || (t.injected && t.retryAnswered)) &&
      (res.Err? ==> res.message == InjectError)
  {
  }

  /**
   * Once the room is joined, sharing is on whatever the tab does; the socket
   * and channel are the room's, and storage records the session only when
   * capture started.
   */
  lemma JoinedIsSharing(r: Relay, code: string, url: string, o: StartOutcome)
    requires o.activeTab.Some? && o.connect.Opened? && o.connect.reply.JoinedOk?
    ensures var (r1, res) := StartSharing(r, code, url, o);
      var t := o.tab;
      r1.isSharing && CanForward(r1) && r1.activeTabId == o.activeTab &&
      r1.socket == Some(SocketInfo(WsUrl(url), 10000, 30000)) &&
      r1.channel == Some(ChannelInfo(RoomTopic(code), LeaderParams(GenerateUserId(o.connect.userBytes)))) &&
      r1.currentRoomCode == Some(code) && r1.currentServerUrl == Some(url) &&
      (res.Ok? <==> t.firstAnswered || (t.injected && t.retryAnswered)) &&
      (res.Ok? ==> r1.storage == Stored(JBool(true), JStr(code), JStr(url)) && r1.effects[|r1.effects| - 1] == Connected) &&
      (res.Err? ==> res.message == InjectError && r1.storage == r.storage)
  {
    var tabId := o.activeTab.value;
    var r1 := r.(currentRoomCode := Some(code), currentServerUrl := Some(url));
    var (r2, c) := ConnectToServer(r1.(activeTabId := Some(tabId)), url, code, o.connect);
    StartCaptureRetriesOnce(r2.(isSharing := true), tabId, o.tab);
  }

  /** The popup hears back: success, or the failure's message. */
  lemma StartSharingResponds(r: Relay, code: string, url: string, o: StartOutcome)
    ensures var res := StartSharing(r, code, url, o).1;
      OnMessage(r, StartSharingMsg(code, url), o).1 ==
        Some(if res.Ok? then Done(true, None) else Done(false, Some(res.message)))
    ensures KnownOutcome(StartSharing(r, code, url, o).1)
  {
  }

  predicate KnownOutcome(res: Result<()>) {
    res.Ok? || res.message in {NoTabError, ConnectError, JoinError, TimeoutError, InjectError}
  }

  // ---------------------------------------------------------------- stopping

  /**
   * Stopping ends the session: nothing is forwarded any more, the channel is
   * left and the socket disconnected exactly when they exist, the tab is told
   * to stop, and storage no longer says sharing.
   */
  lemma StopEndsSession(r: Relay, o: StartOutcome)
    ensures var r1 := StopSharing(r);
      !r1.isSharing && !CanForward(r1) && r1.socket.None? && r1.channel.None? &&
      r1.currentRoomCode.None? && r1.currentServerUrl.None? && r1.activeTabId.None? &&
      r1.storage == r.storage.(isSharing := JBool(false)) &&
      r1.effects[..|r.effects|] == r.effects && r1.effects[|r1.effects| - 1] == Disconnected &&
      (ChannelLeave in r1.effects[|r.effects|..] <==> r.channel.Some?) &&
      (SocketDisconnect in r1.effects[|r.effects|..] <==> r.socket.Some?) &&
      (HasActiveTab(r) ==> TabMessage(r.activeTabId.value, StopCaptureKind) in r1.effects[|r.effects|..])
    ensures OnMessage(r, StopSharingMsg, o) == (StopSharing(r), Some(Done(true, None)))
  {
    var r1 := StopSharing(r);
    var added := r1.effects[|r.effects|..];
    if r.channel.Some? {
      assert ChannelLeave == added[if HasActiveTab(r) then 1 else 0];
    }
    if r.socket.Some? {
      var k := (if HasActiveTab(r) then 1 else 0) + (if r.channel.Some? then 1 else 0);
      assert SocketDisconnect == added[k];
    }
    if HasActiveTab(r) {
      assert added[0] == TabMessage(r.activeTabId.value, StopCaptureKind);
    }
  }

  /** Stopping a stopped worker only notifies the popup again. */
  lemma StopTwice(r: Relay)
    ensures var r1 := StopSharing(r);
      StopSharing(r1) == r1.(effects := r1.effects + [Disconnected])
  {
  }

  // ---------------------------------------------------------------- tab events and start-up

  /** Closing the shared tab while sharing stops the session; closing any other tab changes nothing. */
  lemma TabClosedStops(r: Relay, tabId: int)
    ensures r.isSharing && r.activeTabId == Some(tabId) ==> OnTabRemoved(r, tabId) == StopSharing(r)
    ensures !(r.isSharing && r.activeTabId == Some(tabId)) ==> OnTabRemoved(r, tabId) == r
    ensures !OnTabRemoved(r, tabId).isSharing || r.activeTabId != Some(tabId)
  {
  }

  /** A reload of the shared tab asks it to capture again; failures never end the session. */
  lemma TabReloadRecaptures(r: Relay, tabId: int, status: string, t: TabOutcome)
    ensures var r1 := OnTabUpdated(r, tabId, status, t);
      r1 == r.(effects := r1.effects) && r1.effects[..|r.effects|] == r.effects &&
      (r.isSharing && r.activeTabId == Some(tabId) && status == "complete" <==> |r1.effects| > |r.effects|) &&
      (|r1.effects| > |r.effects| ==> r1.effects[|r.effects|] == TabMessage(tabId, StartCaptureKind))
  {
    if r.isSharing && r.activeTabId == Some(tabId) && status == "complete" {
      StartCaptureRetriesOnce(r, tabId, t);
    }
  }

  /**
   * Start-up never resumes a session: the worker's variables are untouched and
   * storage never again describes a complete session in progress.
   */
  lemma RestoreNeverResumes(r: Relay)
    ensures var r1 := Restore(r);
      r1 == r.(storage := r1.storage) &&
      !(Truthy(r1.storage.isSharing) && Truthy(r1.storage.roomCode) && Truthy(r1.storage.serverUrl)) &&
      r1.storage.roomCode == r.storage.roomCode && r1.storage.serverUrl == r.storage.serverUrl
    ensures Restore(Restore(r)) == Restore(r)
  {
  }

  // ---------------------------------------------------------------- a session end to end

  /**
   * From the freshly loaded worker: a successful start makes every event
   * reach the channel; after stopping, every event is dropped.
   */
  lemma SessionLifecycle(code: string, url: string, o: StartOutcome, m: Message, o2: StartOutcome)
    requires StartSharing(Initial, code, url, o).1.Ok? && Forwarded(m)
    ensures var r1 := StartSharing(Initial, code, url, o).0;
      |OnMessage(r1, m, o2).0.effects| == |r1.effects| + 1 &&
      OnMessage(StopSharing(r1), m, o2).0 == StopSharing(r1)
  {
    var r1 := StartSharing(Initial, code, url, o).0;
    assert o.activeTab.Some?;
    if !(o.connect.Opened? && o.connect.reply.JoinedOk?) {
      FailedConnectionNotSharing(Initial, code, url, o);
    }
    JoinedIsSharing(Initial, code, url, o);
    ForwardOnlyWhileSharing(r1, m, o2);
    StopEndsSession(r1, o2);
    ForwardOnlyWhileSharing(StopSharing(r1), m, o2);
  }

  /**
   * A tab that cannot be captured still leaves sharing on: the popup is told
   * of the failure, but the channel stays joined and open for events.
   */
  lemma UncapturableTabStaysShared(r: Relay, code: string, url: string, o: StartOutcome)
    requires o.activeTab.Some? && o.connect.Opened? && o.connect.reply.JoinedOk? && !o.tab.firstAnswered && !o.tab.injected
    ensures var (r1, res) := StartSharing(r, code, url, o);
      res == Err(InjectError) && r1.isSharing && CanForward(r1) &&
      OnMessage(r1, GetStatusMsg, o).1 == Some(Status(true, Some(code), Some(url)))
  {
    JoinedIsSharing(r, code, url, o);
  }
}
