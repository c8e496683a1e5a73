# CoView screen sharing: a verified model of the client side

CoView lets a leader share a live view of a browser tab with followers. A
browser extension does the capturing, and a Phoenix web application does the
viewing. This project models four parts of that system in Dafny and proves
what each part promises:

- **The Phoenix Channels client** (`extension/phoenix.js`). It covers:
  - the five-field frame serializer;
  - `Push`, with its hooks, timeout and reference;
  - `Channel`, with its join, leave, push buffer, bindings and routing;
  - `Socket`, with its deferred send buffer, heartbeat, reconnect backoff and channel errors.

  All the client's objects live in one arena. The arena is a `World` of
  channel and push records, keyed by id. A channel refers to its pushes by id,
  as the JavaScript objects refer to each other. User callbacks are data, and
  invoking one appends to a log of calls. Frames handed to the WebSocket are
  appended to a log of sent frames. The `Socket` class (module
  `PhoenixSocket`) updates this state in place. Each of its methods is proved
  to move the state exactly as the matching function of `PhoenixState` does,
  and the properties are lemmas about those functions, in `PhoenixProps`.
- **The capture pipeline** (`extension/content.js`). It covers:
  - the sanitizer over an abstract element tree (module `Sanitizer`);
  - the module-level capture state, with its throttles, debounces, mutation classifier and navigation hooks (`CaptureState`);
  - the class that holds that state and runs the handlers in place (`ContentScript`).

  Time is explicit. A throttle window is the instant it ends. A pending
  debounce or navigation timer is its deadline. A timer callback is an event
  that does nothing before its deadline.
- **The relay** (`extension/background.js`). It covers the session variables,
  `chrome.storage.local`, the message router, `startSharing`, `stopSharing`,
  the connection and join steps, `generateUserId` and the tab and start-up
  handlers. The functions are in `RelayState`, the in-place class is in
  `BackgroundWorker`, and the properties are in `RelayProps`. Each
  asynchronous handler is one atomic step. What it awaits is an argument
  (an "outcome"). What it asks of the browser, the popup or the Phoenix client
  is appended to an effect log.
- **The renderer gate** (`assets/js/app.js`, `Hooks.ViewFrame`). It covers:
  - the `iframeReady` and `pendingUpdate` fields;
  - full and incremental updates;
  - the flush on `load`;
  - `scroll_to`;
  - the two morphdom patches with their `onBeforeElUpdated` guards.

  morphdom itself is a positional tree patch (`Morphing`) that keeps exactly
  what the guard decides. The functions are in `FrameState`, the class is in
  `ViewFrameHook`, and the properties are in `RendererProps`.

Shared modules:

- `Wrappers`: `Option` and `Result`.
- `Json`: JavaScript values, truthiness and `===`.
- `Seqs`: `filter`.
- `Decimal`: `Number.prototype.toString` on references.
- `TextOps`: `startsWith`, `trim`, `split` and `join`.
- `Serializer`: the frame format and `endPointURL`.

## Model

| member | source | states |
|---|---|---|
| Serializer.Encode | extension/phoenix.js:14-17 | the encoded frame is the five-element array join_ref, ref, topic, event, payload in that order, and decoding it gives the message back |
| Serializer.Decode | extension/phoenix.js:18-21 | an array (or a string) decodes to the fields at positions 0..4, undefined where missing; any other parsed value fails |
| Serializer.EncodeDecode | extension/phoenix.js:13-22 | decoding a five-element frame and re-encoding it gives the same frame back |
| Serializer.DecodeIgnoresExtra | extension/phoenix.js:18-21 | elements after the fifth do not affect decoding |
| Serializer.DecodeShortFrame | extension/phoenix.js:18-21 | a frame shorter than five decodes with the missing fields undefined |
| Serializer.WithVsnShape | extension/phoenix.js:278 | `{...params, vsn}` keeps every other key and value, has distinct keys, and `vsn` always maps to 2.0.0 |
| Serializer.EndPointUrl | extension/phoenix.js:275-284 | the URL is the endpoint, then `&` when it already has `?` and `?` otherwise, then the query string of the encoded parameters with `vsn` set (their keys are stated by Serializer.WithVsnShape) |
| Serializer.EndPointUrlDefault | extension/phoenix.js:275-284 | with no socket params the query string is exactly `vsn=2.0.0` |
| Decimal.DigitChar | extension/phoenix.js:409 | each decimal digit is rendered as a character in '0'..'9' |
| Decimal.NatToString | extension/phoenix.js:409 | `toString()` gives at least one character, all of them digits, and at least two from 10 on |
| Decimal.DigitRoundTrip | extension/phoenix.js:409 | reading a rendered digit gives the digit back |
| Decimal.ParseNatToString | extension/phoenix.js:409 | reading the rendering of n gives n back |
| Decimal.NatToStringInjective | extension/phoenix.js:406-410 | distinct counter values render to distinct reference strings |
| Seqs.Filter | extension/phoenix.js:389 | `filter` never returns more elements than it is given |
| Seqs.FilterMembers | extension/phoenix.js:389 | an element is in the filtered list exactly when it is in the input and passes the test |
| Seqs.FilterAll | extension/phoenix.js:341 | filtering with a test every element passes returns the list unchanged |
| Seqs.FilterAppend | extension/phoenix.js:76 | filtering a concatenation is the concatenation of the filtered parts |
| Json.StrictEqIsEqualityOnPrimitives | extension/phoenix.js:92 | `===` holds exactly when both values are the same primitive; an array or object is never strictly equal to anything |
| PhoenixState.ReconnectAfterMs | extension/phoenix.js:258-260 | the delay is always between 1000 and 10000 ms, and is 10000 for attempt 0 and from attempt 4 on |
| PhoenixState.EncodeAll | extension/phoenix.js:398-402 | flushing the deferred sends produces one frame per deferred message |
| PhoenixState.StateCalls | extension/phoenix.js:309 | `forEach(cb => cb())` makes one invocation per registered callback |
| PhoenixState.MessageCalls | extension/phoenix.js:348 | the message callbacks are invoked once each |
| PhoenixState.SetState | extension/phoenix.js:118 | changing a channel's state touches that one channel record and nothing else |
| PhoenixState.PushSend | extension/phoenix.js:46-59 | `Push.send` changes no channel record, no channel list and no user-code log |
| PhoenixState.SendAll | extension/phoenix.js:119 | `forEach(push => push.send())` changes only pushes and frames |
| PhoenixState.RunBindingsSnoc | extension/phoenix.js:232-234 | running the first i+1 matching bindings is running the first i, then binding i |
| PhoenixProps.ExtendsTrans | extension/phoenix.js:212-235 | the frame property of channel-level steps composes |
| PhoenixProps.RunBindingExtends | extension/phoenix.js:233 | one binding callback keeps the socket fields, push ids and logs, which only grow |
| PhoenixProps.RunBindingsExtends | extension/phoenix.js:232-234 | the same holds for any run of bindings |
| PhoenixProps.DispatchExtends | extension/phoenix.js:232-234 | the same holds for dispatching an event to its bindings |
| PhoenixProps.RunHookExtends | extension/phoenix.js:76 | one push hook keeps the socket-level fields and only appends to the logs |
| PhoenixProps.RunHooksExtends | extension/phoenix.js:76 | the same holds for any run of hooks |
| PhoenixProps.PushTriggerExtends | extension/phoenix.js:95-98 | `Push.trigger` keeps the socket-level fields and the push ids |
| PhoenixProps.ChannelTriggerExtends | extension/phoenix.js:212-235 | `Channel.trigger` keeps the socket-level fields and the push ids |
| PhoenixProps.ErrorChannelsExtends | extension/phoenix.js:423-429 | erroring channels keeps the socket-level fields and the push ids |
| PhoenixProps.TriggerAllExtends | extension/phoenix.js:344-346 | routing one message to its channels keeps the socket-level fields |
| PhoenixProps.MakeRefIncreasing | extension/phoenix.js:406-410 | below 2^53 successive `makeRef` calls return n+1, n+2, ..., which are pairwise distinct strings |
| PhoenixProps.MakeRefWraps | extension/phoenix.js:407-408 | at 2^53, where `ref + 1 === ref` in doubles, the counter restarts from 0 |
| PhoenixProps.PushSendEffect | extension/phoenix.js:46-59 | after a "timeout" result, send does nothing. Otherwise the push is marked sent, takes the next ref and arms its timer. Its frame goes to the wire when connected, or to the end of the send buffer when not |
| PhoenixProps.SameRequestsTrans | extension/phoenix.js:119 | the buffer-flush frame relation composes |
| PhoenixProps.SendAllInOrder | extension/phoenix.js:119 | on a connected socket, flushing a buffer emits one frame per push, in buffer order |
| PhoenixProps.HookCalls | extension/phoenix.js:76 | a user hook appends exactly its own invocation with the response |
| PhoenixProps.RunExternalHooks | extension/phoenix.js:76 | running user hooks logs their invocations in registration order |
| PhoenixProps.MatchingHooksExternal | extension/phoenix.js:76 | filtering user hooks by status keeps only user hooks |
| PhoenixProps.PushTriggerRunsMatching | extension/phoenix.js:75-98 | trigger records the result, then exactly the hooks registered for that status run, in registration order. Channels and frames are untouched |
| PhoenixProps.ReceiveAfterTrigger | extension/phoenix.js:61-67 | `receive` on a status already received calls the callback at once with the recorded response and still appends the hook |
| PhoenixProps.ReceiveBeforeTrigger | extension/phoenix.js:61-67 | `receive` before any result only appends the hook |
| PhoenixProps.NewChannelShape | extension/phoenix.js:105-141 | a new channel is closed and never joined, registered last, with the standard bindings and join hooks and a join push with no ref |
| PhoenixProps.ChannelOnShape | extension/phoenix.js:178-182 | `on` appends a binding and returns the next binding ref |
| PhoenixProps.ChannelOffEffect | extension/phoenix.js:184-188 | `off` changes only that channel's bindings, and a binding stays exactly when it is not for the event or, given a ref, has another ref |
| PhoenixProps.ChannelOffKeepsOrder | extension/phoenix.js:184-188 | the bindings `off` keeps stay in order: removal splits over the list, and a part with nothing to remove is kept whole |
| PhoenixProps.RunBindingsAppend | extension/phoenix.js:232-234 | running two lists of bindings is running one, then the other |
| PhoenixProps.RunUserBindings | extension/phoenix.js:233 | user bindings only append invocations to the user-code log |
| PhoenixProps.FilterUser | extension/phoenix.js:232 | filtering user bindings keeps only user bindings |
| PhoenixProps.MatchingStandard | extension/phoenix.js:133-140 | on a well-formed channel, the bindings run for an event are the matching standard close and error bindings first, then the matching user bindings |
| PhoenixProps.RunHooksAppend | extension/phoenix.js:76 | running two lists of hooks is running one, then the other |
| PhoenixProps.MatchingJoinHooks | extension/phoenix.js:117-131 | the join hooks for a status are the matching standard hook first, then user code |
| PhoenixProps.FilterOne | extension/phoenix.js:76 | filtering a one-element list keeps it exactly when it passes |
| PhoenixProps.JoinPushTrigger | extension/phoenix.js:95-131 | a join result leaves the channels, the wire and the send buffer exactly as its one standard hook does, since the hooks after it are user code |
| PhoenixProps.JoinOnlyOnce | extension/phoenix.js:143-150 | the first `join` returns the join push and sets joinedOnce. A second call fails with "tried to join multiple times" and changes nothing |
| PhoenixProps.RejoinEffect | extension/phoenix.js:152-156 | `rejoin` does nothing while leaving. Otherwise the channel is joining and the join push is re-sent under a fresh ref, which becomes the join ref, with any earlier result forgotten |
| PhoenixProps.JoinErrorErrors | extension/phoenix.js:123-125 | a join "error" leaves the channel errored |
| PhoenixProps.JoinTimeoutErrorsOnlyWhileJoining | extension/phoenix.js:127-131 | a join timeout errors the channel only if it is still joining, and otherwise keeps its state |
| PhoenixProps.JoinOkFlushesBuffer | extension/phoenix.js:117-121 | join "ok" makes the channel joined. On a connected socket every buffered push goes out in order, and the buffer ends empty |
| PhoenixProps.FramesForTransfer | extension/phoenix.js:119 | the frames of a flush depend only on the pushes and the wire |
| PhoenixProps.JoinOkEffectFacts | extension/phoenix.js:117-121 | the "ok" hook itself: joined, buffer sent in order, and buffer emptied |
| PhoenixProps.PushBeforeJoinFails | extension/phoenix.js:190-193 | `push` before any join fails and changes nothing |
| PhoenixProps.ChannelPushEffect | extension/phoenix.js:190-206 | after a join, a push is sent at once exactly when the socket is connected and the channel joined. Otherwise it waits at the end of the buffer with its timer armed, and nothing is sent |
| PhoenixProps.TwoPushesBuffered | extension/phoenix.js:194-200 | two pushes made during the join wait in the buffer in order |
| PhoenixProps.BufferedPushesKeepOrder | extension/phoenix.js:117-121 | pushes made during the join go out, once it is acknowledged, in the order they were made |
| PhoenixProps.LeaveResolvesLocally | extension/phoenix.js:158-166 | `leave` sets leaving and, since a leaving channel cannot push, the leave push resolves "ok" locally |
| PhoenixProps.CloseOnLeaveEffect | extension/phoenix.js:133-161 | the leave push's "ok" hook closes the channel and removes it from `socket.channels` |
| PhoenixProps.LeaveClosesLocally | extension/phoenix.js:158-168 | after `leave` the channel is closed and removed from `channels`, no other channel record changes, and the leave push holds "ok" |
| PhoenixProps.MembersExactly | extension/phoenix.js:241-247 | a message reaches exactly the registered channels with its topic and, when it has a join_ref, the same join ref |
| PhoenixProps.StaleJoinRefDropped | extension/phoenix.js:243-245 | a message carrying any join ref other than the channel's current one reaches no channel |
| PhoenixProps.RunJoinHooksCalls | extension/phoenix.js:76 | user code invoked by a push's hooks is only that push's hooks |
| PhoenixProps.JoinReplyOnlyToJoinPush | extension/phoenix.js:220-229 | a `phx_reply` whose ref is the join push's goes to the join push alone. No binding runs, and the only user code invoked is the join push's hooks |
| PhoenixProps.SocketPushDefers | extension/phoenix.js:392-404 | `Socket.push` while not connected defers the frame and sends nothing |
| PhoenixProps.EncodeAllAppend | extension/phoenix.js:418 | encoding two buffers is encoding one, then the other |
| PhoenixProps.OpenReplaysDeferredOnce | extension/phoenix.js:304-310 | `onopen` resets the retry counter, sends the deferred frames once in order, empties the buffer and starts the heartbeat. A second flush sends nothing |
| PhoenixProps.DeferredSentOnOpen | extension/phoenix.js:392-421 | a frame pushed while connecting goes out when the link opens, after the frames deferred before it |
| PhoenixProps.HeartbeatProbes | extension/phoenix.js:436-446 | a tick with no probe outstanding sends a heartbeat and remembers its ref |
| PhoenixProps.HeartbeatTimeoutCloses | extension/phoenix.js:438-443 | a tick with a probe outstanding clears it and closes the link instead of sending |
| PhoenixProps.ReplyClearsHeartbeat | extension/phoenix.js:332-334 | an inbound frame whose ref equals the outstanding probe clears it |
| PhoenixProps.ProbeAnswered | extension/phoenix.js:436-446 | once the probe is answered, the next tick probes again instead of closing |
| PhoenixProps.BackoffMonotone | extension/phoenix.js:258-260 | later attempts never wait less, and never more than 10000 ms |
| PhoenixProps.ErrorChannelEffect | extension/phoenix.js:423-429 | each visited channel that is not closed becomes errored, closed ones stay closed, and nothing else changes |
| PhoenixProps.ErrorChannelsEffect | extension/phoenix.js:423-429 | the same for every channel in the list |
| PhoenixProps.CloseErrorsChannelsAndSchedulesReconnect | extension/phoenix.js:312-318 | on close, every channel not already closed becomes errored, the heartbeat stops, and a reconnect is scheduled as attempt tries+1 with its capped delay |
| PhoenixProps.HeartbeatTimeoutReconnects | extension/phoenix.js:438-457 | a heartbeat timeout followed by its close schedules the next reconnect attempt, waiting no less than the previous one and at most 10000 ms |
| PhoenixProps.ConnectEffect | extension/phoenix.js:286-302 | `connect` does nothing while a connection exists; otherwise the link is connecting, or every error callback is called once, in order, and there is no link |
| PhoenixProps.DisconnectAsWrittenReconnects | extension/phoenix.js:353-364 | `disconnect` drops the link and calls the callback but leaves the reconnect timer as it was, so a timer armed by an earlier close still fires and reconnects |
| PhoenixProps.DisconnectStaysDown | extension/phoenix.js:353-364 | corrected (`DisconnectCorrected` also cancels the reconnect timer): a disconnected socket stays disconnected |
| PhoenixSocket.Socket.constructor | extension/phoenix.js:254-273 | the new socket is the initial world: no channels, no buffer, ref 0, no link, and options defaulting to 10000/30000 |
| PhoenixSocket.Socket.EndPointUrl | extension/phoenix.js:275-284 | the socket's URL, as Serializer.EndPointUrl states it |
| PhoenixSocket.Socket.MakeRef | extension/phoenix.js:406-410 | returns the string of the incremented counter and moves the state as `PhoenixState.MakeRef` |
| PhoenixSocket.Socket.SocketPush | extension/phoenix.js:392-404 | the state afterwards is `PhoenixState.SocketPush`: sent now or deferred |
| PhoenixSocket.Socket.FlushSendBuffer | extension/phoenix.js:416-421 | the loop sends the deferred frames in order and empties the buffer, as `PhoenixState.FlushSendBuffer` |
| PhoenixSocket.Socket.NotifyState | extension/phoenix.js:309-323 | the loop invokes each registered state callback once, in order |
| PhoenixSocket.Socket.OnOpen | extension/phoenix.js:366-368 | registers an open callback |
| PhoenixSocket.Socket.OnClose | extension/phoenix.js:370-372 | registers a close callback |
| PhoenixSocket.Socket.OnError | extension/phoenix.js:374-376 | registers an error callback |
| PhoenixSocket.Socket.OnMessage | extension/phoenix.js:378-380 | registers a message callback |
| PhoenixSocket.Socket.SetState | extension/phoenix.js:118 | sets one channel's state |
| PhoenixSocket.Socket.Remove | extension/phoenix.js:388-390 | `channels` loses exactly that channel, and the others keep their order |
| PhoenixSocket.Socket.AddPush | extension/phoenix.js:28-38 | stores a new push record under a fresh id |
| PhoenixSocket.Socket.BufferPush | extension/phoenix.js:198-199 | arms the push's timer and appends it to the channel's buffer |
| PhoenixSocket.Socket.PushSend | extension/phoenix.js:46-59 | the state afterwards is `PhoenixState.PushSend` (see PushSendEffect) |
| PhoenixSocket.Socket.PushResend | extension/phoenix.js:40-73 | sets the timeout, resets the push, then sends it |
| PhoenixSocket.Socket.PushReceive | extension/phoenix.js:61-67 | replays a recorded matching result, then registers the hook |
| PhoenixSocket.Socket.SendAll | extension/phoenix.js:119 | the loop sends each buffered push in order |
| PhoenixSocket.Socket.JoinOk | extension/phoenix.js:117-121 | joined, buffer sent, buffer emptied |
| PhoenixSocket.Socket.RunHook | extension/phoenix.js:117-131 | runs one hook: a standard hook's effect, or a logged user invocation |
| PhoenixSocket.Socket.MatchReceive | extension/phoenix.js:75-77 | the loop runs the hooks registered for the status, in order |
| PhoenixSocket.Socket.PushTrigger | extension/phoenix.js:95-98 | records the result, then runs the matching hooks |
| PhoenixSocket.Socket.PushTimerFired | extension/phoenix.js:84-89 | the armed timer triggers "timeout" with `{}` |
| PhoenixSocket.Socket.RunBinding | extension/phoenix.js:233 | runs one binding: a standard close or error effect, or a logged user invocation |
| PhoenixSocket.Socket.RunBindings | extension/phoenix.js:232-234 | the loop runs the bindings in order |
| PhoenixSocket.Socket.Dispatch | extension/phoenix.js:232-234 | runs the bindings registered for the event |
| PhoenixSocket.Socket.ChannelTrigger | extension/phoenix.js:212-235 | a join reply goes to the join push, after its timer is cancelled. Anything else goes to the bindings |
| PhoenixSocket.Socket.NewChannel | extension/phoenix.js:105-141 | creates and registers the channel with its join push and standard hooks and bindings |
| PhoenixSocket.Socket.ChannelOn | extension/phoenix.js:178-182 | appends a binding and returns the old binding ref |
| PhoenixSocket.Socket.ChannelOff | extension/phoenix.js:184-188 | drops the event's bindings, or only the one with the given ref |
| PhoenixSocket.Socket.Rejoin | extension/phoenix.js:152-156 | see RejoinEffect |
| PhoenixSocket.Socket.Join | extension/phoenix.js:143-150 | returns the join push, or the error of a second call (see JoinOnlyOnce) |
| PhoenixSocket.Socket.ChannelPush | extension/phoenix.js:190-202 | returns the new push or the before-join error (see ChannelPushEffect) |
| PhoenixSocket.Socket.ChannelLeave | extension/phoenix.js:158-168 | returns the leave push (see LeaveClosesLocally) |
| PhoenixSocket.Socket.TriggerChanError | extension/phoenix.js:423-429 | the loop errors every channel that is not closed |
| PhoenixSocket.Socket.TriggerAll | extension/phoenix.js:344-346 | the loop triggers the message on each member channel in order |
| PhoenixSocket.Socket.NotifyMessage | extension/phoenix.js:348 | the loop passes the message to each message callback |
| PhoenixSocket.Socket.Inbound | extension/phoenix.js:326-350 | decodes, settles the heartbeat, routes to the member channels, then to the message callbacks |
| PhoenixSocket.Socket.WsMessage | extension/phoenix.js:326-350 | only an open link delivers frames |
| PhoenixSocket.Socket.Connect | extension/phoenix.js:286-302 | no-op with a link. Otherwise a link in the connecting state, or the error callbacks when creation fails |
| PhoenixSocket.Socket.WsOpen | extension/phoenix.js:304-310 | see OpenReplaysDeferredOnce |
| PhoenixSocket.Socket.ScheduleReconnect | extension/phoenix.js:448-457 | increments tries and arms the timer with the capped delay |
| PhoenixSocket.Socket.WsClose | extension/phoenix.js:312-318 | see CloseErrorsChannelsAndSchedulesReconnect |
| PhoenixSocket.Socket.WsError | extension/phoenix.js:320-324 | errors the channels, then runs the error callbacks |
| PhoenixSocket.Socket.HeartbeatTick | extension/phoenix.js:436-446 | see HeartbeatProbes and HeartbeatTimeoutCloses |
| PhoenixSocket.Socket.ReconnectTimerFired | extension/phoenix.js:453-456 | drops the link and connects again |
| PhoenixSocket.Socket.Disconnect | extension/phoenix.js:353-364 | drops the link without the close handler, then calls the callback; a scheduled reconnect stays armed |
| TextOps.TrimStart | extension/content.js:153 | the result is a suffix of the input, everything cut is white space, and it does not start with white space |
| TextOps.TrimEnd | extension/content.js:153 | the result is a prefix of the input, everything cut is white space, and it does not end with white space |
| TextOps.Split | extension/content.js:152 | `split(',')` always gives at least one part |
| TextOps.SplitSpaces | extension/content.js:153 | `split(/\s+/)` always gives at least one part |
| TextOps.JoinSplit | extension/content.js:152-160 | joining the parts of a split with the same separator gives the string back |
| TextOps.SplitJoinOne | extension/content.js:152 | a separator-free part followed by the separator splits off as the first part |
| TextOps.SplitNoSeparator | extension/content.js:152 | a string without the separator splits into itself |
| TextOps.SplitJoin | extension/content.js:152-160 | splitting parts joined by a separator none contains gives the parts back |
| TextOps.TrimStartPadded | extension/content.js:153 | leading white space is exactly what is removed |
| TextOps.TrimEndPadded | extension/content.js:153 | trailing white space is exactly what is removed |
| TextOps.TrimPadded | extension/content.js:153 | `trim` of white space, word, white space is the word |
| TextOps.SplitSpacesAfterWord | extension/content.js:153 | a word glues onto the first part of what follows it |
| TextOps.SplitSpacesAfterSpaces | extension/content.js:153 | leading white space gives an empty first part |
| TextOps.SplitSpacesPair | extension/content.js:153 | `url descriptor` splits into exactly those two words |
| TextOps.SplitSpacesWord | extension/content.js:153 | a single word splits into itself |
| Sanitizer.EveryAnything | extension/content.js:67-92 | every tree satisfies the trivial test |
| Sanitizer.MapAttrsIn | extension/content.js:125-163 | an attribute pass keeps the number of children |
| Sanitizer.MapAttrsEvery | extension/content.js:97-163 | an attribute pass establishes a property wherever the rewrite guarantees it |
| Sanitizer.MapAttrsEveryIn | extension/content.js:97-163 | the same over a list of children |
| Sanitizer.PruneEvery | extension/content.js:75-111 | after `querySelectorAll(sel).forEach(el => el.remove())` every element left below the root has the guarantees that held before, together with not matching the selector |
| Sanitizer.PruneEveryIn | extension/content.js:75-111 | the same over a list of children |
| Sanitizer.PruneNothing | extension/content.js:75-111 | a removal pass over a tree with nothing to remove changes nothing |
| Sanitizer.PruneNothingIn | extension/content.js:75-111 | the same over a list of children |
| Sanitizer.RewriteAttr | extension/content.js:125-163 | rewriting one attribute keeps the attribute names and every other value |
| Sanitizer.RewriteKeepsSafe | extension/content.js:121-163 | rewriting a URL attribute keeps a safe element safe |
| Sanitizer.SrcsetPartKeepsDescriptor | extension/content.js:152-159 | a padded `url descriptor` candidate whose URL resolves becomes the resolved URL, one space and the same descriptor |
| Sanitizer.SrcsetPartAlone | extension/content.js:152-159 | a candidate with no descriptor becomes just the resolved URL |
| Sanitizer.SrcsetByCandidate | extension/content.js:149-163 | a comma-free list of candidates is rewritten candidate by candidate, in order, joined by ", " |
| Sanitizer.FirstHead | extension/content.js:86 | the first head found is a `head` element |
| Sanitizer.InsertBaseFirstInHead | extension/content.js:84-89 | the base element ends first in the first head, and without a head nothing changes |
| Sanitizer.InsertBaseEvery | extension/content.js:84-89 | inserting an element that passes a test keeps every element passing it |
| Sanitizer.CaptureDom | extension/content.js:91 | the captured html starts with `<!DOCTYPE html>` |
| Sanitizer.SanitizedIsSafe | extension/content.js:67-118 | below the document element there is no script, no noscript and no element marked `data-sensitive` or `data-coview-hide`, and every password, email or card input has an empty value |
| Sanitizer.RemovalIsSafe | extension/content.js:72-111 | clearing, then the three removal passes, give a safe tree |
| Sanitizer.HrefPassRule | extension/content.js:125-134 | the href pass changes only `href`: an empty, `data:`, `javascript:` or `#` value stays, any other becomes its absolute URL, or stays when it does not resolve |
| Sanitizer.SrcPassRule | extension/content.js:137-146 | the src pass changes only `src`: an empty or `data:` value stays, any other becomes its absolute URL, or stays when it does not resolve |
| Sanitizer.UrlPassesKeepSafe | extension/content.js:121-163 | the href, src and srcset passes keep a safe tree safe |
| Sanitizer.MapAttrsIdentity | extension/content.js:97-106 | an attribute pass that changes no attribute of the elements present changes nothing |
| Sanitizer.RemovalKeepsPlainPage | extension/content.js:72-118 | on a page with nothing to hide, stripping and the removals change nothing |
| CaptureState.SendDomUpdate | extension/content.js:184-203 | only the snapshot and the outbox change, and the outbox grows by at most one message at its end |
| CaptureProps.ValidStartStop | extension/content.js:33-64 | starting (as written and corrected) and stopping keep the listeners and the observer attached exactly while capturing |
| CaptureProps.ValidInput | extension/content.js:206-263 | time and input events keep that invariant |
| CaptureProps.ValidObserver | extension/content.js:283-324 | mutation batches and debounce timers keep it |
| CaptureProps.ValidNavigation | extension/content.js:336-363 | navigation timers stay in deadline order, each at most 100 ms away |
| CaptureProps.InitialValid | extension/content.js:7-8 | the loaded script is not capturing, has posted nothing and satisfies the invariant |
| CaptureProps.StartStopIdempotent | extension/content.js:33-51 | starting while capturing and stopping while stopped are no-ops, for `startCapturing` as written and corrected |
| CaptureProps.StartPostsSnapshot | extension/content.js:33-47 | start sets capturing, attaches listeners and observer and records the page's snapshot; it posts one full snapshot exactly when that differs from the last one posted, which is always so for the freshly loaded script |
| CaptureProps.StopDetaches | extension/content.js:50-64 | stop clears the flag, detaches listeners and observer, and posts nothing |
| CaptureProps.RestartAsWrittenIsSilent | extension/content.js:33-64 | as written, a session restarted on an unchanged page posts no snapshot |
| CaptureProps.RestartPostsSnapshot | extension/content.js:33-47 | corrected (`StartCorrected` resets the snapshot): a restarted session opens with the full snapshot |
| CaptureProps.SendPostsOnlyChanges | extension/content.js:184-203 | posts exactly when capturing and the snapshot differs from the last one posted, and then records it |
| CaptureProps.SendTwiceOnce | extension/content.js:190-191 | two updates of an unchanged page post once |
| CaptureProps.StoppedIsSilent | extension/content.js:184-186 | once stopped, no event or timer posts anything: every handler and timer callback returns early when not capturing (also lines 228, 242, 254, 294 and 339) |
| CaptureProps.MouseMovePosts | extension/content.js:206-239 | a move outside any window posts its position and opens a 33 ms window |
| CaptureProps.MouseThrottleWindow | extension/content.js:206-239 | moves within 33 ms of a posted one are dropped, and the first one after is posted |
| CaptureProps.ScrollThrottleWindow | extension/content.js:206-251 | the same for scrolls with 100 ms |
| CaptureProps.ClicksAllPost | extension/content.js:253-263 | clicks are never throttled |
| CaptureProps.StructuralWins | extension/content.js:296-323 | a structural change restarts only the 250 ms debounce, a visibility change alone only the 100 ms one, and a batch with neither changes nothing |
| CaptureProps.DebounceWaits | extension/content.js:218-224 | a debounce timer does nothing before its deadline |
| CaptureProps.BurstPostsOnce | extension/content.js:218-224 | a burst of structural batches posts one incremental update, 250 ms after the last batch |
| CaptureProps.NavigationForcesFullSnapshot | extension/content.js:336-363 | navigation posts NAVIGATION at once and a full snapshot 100 ms later, even for an unchanged page |
| CaptureProps.RequestsAnswered | extension/content.js:11-30 | START_CAPTURE and STOP_CAPTURE answer success. GET_DOM answers the snapshot and changes nothing. Other requests get no answer |
| ContentScript.Classify | extension/content.js:296-316 | the loop's two flags are true exactly when some record is structural, or some record is a visibility change |
| ContentScript.ContentScript.constructor | extension/content.js:7-8 | the initial capture state |
| ContentScript.ContentScript.SendDomUpdate | extension/content.js:184-203 | moves the state as `CaptureState.SendDomUpdate` |
| ContentScript.ContentScript.Start | extension/content.js:33-47 | moves the state as `CaptureState.Start`, the source's `startCapturing`, which keeps the previous session's snapshot |
| ContentScript.ContentScript.Stop | extension/content.js:50-64 | moves the state as `CaptureState.Stop` |
| ContentScript.ContentScript.Elapse | extension/content.js:212-222 | the clock advances and nothing else changes |
| ContentScript.ContentScript.MouseMove | extension/content.js:206-239 | moves the state as `CaptureState.MouseMove` |
| ContentScript.ContentScript.Scroll | extension/content.js:206-251 | moves the state as `CaptureState.Scroll` |
| ContentScript.ContentScript.Click | extension/content.js:253-263 | moves the state as `CaptureState.Click` |
| ContentScript.ContentScript.OnMutations | extension/content.js:293-324 | moves the state as `CaptureState.Observe` |
| ContentScript.ContentScript.FireVisibility | extension/content.js:283-285 | moves the state as `CaptureState.FireVisibility` |
| ContentScript.ContentScript.FireStructural | extension/content.js:288-290 | moves the state as `CaptureState.FireStructural` |
| ContentScript.ContentScript.Navigate | extension/content.js:336-363 | moves the state as `CaptureState.Navigate` |
| ContentScript.ContentScript.FireNavigation | extension/content.js:343 | moves the state as `CaptureState.FireNavigation` |
| ContentScript.ContentScript.OnRequest | extension/content.js:11-30 | moves the state as `CaptureState.OnRequest` and answers `CaptureState.ReplyTo` |
| RelayState.HexDigit | extension/background.js:255 | `toString(16)` writes lower-case hex digits |
| RelayState.ToHex | extension/background.js:255 | a byte's `toString(16)` has one digit below 16 and two from 16 on |
| RelayState.PadStart | extension/background.js:255 | `padStart` gives at least the width and ends with the original string |
| RelayState.HexParts | extension/background.js:255 | one part per byte |
| RelayProps.HexByteDigits | extension/background.js:255 | after padding, every byte is exactly its two hex digits |
| RelayProps.JoinNoSeparator | extension/background.js:255 | `join('')` is concatenation |
| RelayProps.UserIdRoundTrip | extension/background.js:252-256 | a user id has two lower-case hex digits per byte, and reading the pairs back gives the bytes |
| RelayProps.UserIdShape | extension/background.js:252-256 | eight random bytes give sixteen lower-case hex digits |
| RelayProps.UserIdInjective | extension/background.js:252-256 | distinct byte arrays give distinct user ids |
| RelayProps.WsUrlSchemes | extension/background.js:172 | `http` becomes `ws`, `https` becomes `wss`, and any other URL only gets `/socket/websocket` appended |
| RelayProps.ForwardOnlyWhileSharing | extension/background.js:35-74 | content events are pushed to the channel, one push each and no response, exactly while a channel exists and sharing is on. Otherwise nothing changes |
| RelayProps.ForwardedEvents | extension/background.js:38-74 | DOM_UPDATE, CURSOR_MOVE, SCROLL, CLICK and NAVIGATION become dom_full, cursor_move, scroll, click and navigation, with their payloads |
| RelayProps.FullPageByDefault | extension/background.js:38-43 | the dom_full payload has its four keys, and is_full_page is false exactly when the update says false, so it is true when the update does not say |
| RelayProps.StatusReflectsState | extension/background.js:76-82 | GET_STATUS answers isSharing, the room code and the server URL, and changes nothing |
| RelayProps.NoTabNoConnection | extension/background.js:87-97 | without an active tab the start fails with "No active tab found", and only the room and server are remembered |
| RelayProps.FailedConnectionNotSharing | extension/background.js:169-237 | a socket error, a refused join or a join timeout rejects with its own message. Sharing is not switched on, the tab is not asked to capture, and storage is untouched |
| RelayProps.StartCaptureRetriesOnce | extension/background.js:106-127 | one START_CAPTURE if the tab answers, otherwise one injection and at most one more START_CAPTURE. Failure gives "Cannot share this page. Try a regular website." |
| RelayProps.JoinedIsSharing | extension/background.js:101-133 | once joined, sharing is on whatever the tab does. The socket is the room's URL with 10000/30000, and the channel is `room:<code>` joined as leader with the generated user id. Storage records the session only when capture started |
| RelayProps.StartSharingResponds | extension/background.js:21-28 | the popup gets `{success: true}` or `{success: false, error}` with one of the five messages |
| RelayProps.StopEndsSession | extension/background.js:137-166 | stop clears every session variable and marks storage not sharing. It leaves the channel and disconnects the socket exactly when they exist, tells the shared tab (if any) to stop, and ends by notifying the popup. The popup gets `{success: true}` |
| RelayProps.StopTwice | extension/background.js:137-166 | stopping a stopped worker only notifies the popup again |
| RelayProps.TabClosedStops | extension/background.js:295-300 | closing the shared tab while sharing stops the session, and closing any other tab changes nothing |
| RelayProps.TabReloadRecaptures | extension/background.js:272-292 | a completed load of the shared tab asks it to capture again, and its failures never change the session |
| RelayProps.RestoreNeverResumes | extension/background.js:303-310 | start-up leaves the worker's variables alone, and storage never again describes a complete session in progress |
| RelayProps.SessionLifecycle | extension/background.js:87-166 | after a successful start every event reaches the channel, and after stop every event is dropped |
| RelayProps.UncapturableTabStaysShared | extension/background.js:103-126 | a tab that cannot be captured reports the error, yet sharing stays on and GET_STATUS says so |
| BackgroundWorker.Worker.constructor | extension/background.js:9-14 | no session and empty storage |
| BackgroundWorker.Worker.ConnectToServer | extension/background.js:169-237 | moves the state and settles as `RelayState.ConnectToServer` |
| BackgroundWorker.Worker.StartCapture | extension/background.js:106-127 | moves the state and settles as `RelayState.StartCapture` |
| BackgroundWorker.Worker.StartSharing | extension/background.js:87-134 | moves the state and settles as `RelayState.StartSharing` |
| BackgroundWorker.Worker.StopSharing | extension/background.js:137-166 | moves the state as `RelayState.StopSharing` |
| BackgroundWorker.Worker.Forward | extension/background.js:36-54 | pushes only while a channel exists and sharing is on |
| BackgroundWorker.Worker.OnMessage | extension/background.js:17-84 | moves the state and responds as `RelayState.OnMessage` |
| BackgroundWorker.Worker.OnTabUpdated | extension/background.js:272-292 | moves the state as `RelayState.OnTabUpdated` |
| BackgroundWorker.Worker.OnTabRemoved | extension/background.js:295-300 | moves the state as `RelayState.OnTabRemoved` |
| BackgroundWorker.Worker.Restore | extension/background.js:303-310 | moves the state as `RelayState.Restore` |
| Morphing.TagName | assets/js/app.js:107 | `tagName` has the tag's length, no lower-case ASCII letter, and every other character unchanged |
| Morphing.MorphChildren | assets/js/app.js:104-124 | the patched element has as many children as the new one |
| RendererProps.MorphKeepsRefused | assets/js/app.js:105-121 | an element the guard refuses, reached along matching elements, comes out of the patch unchanged |
| RendererProps.MorphUnguarded | assets/js/app.js:104-124 | with a guard that refuses nothing, the patched tree is the new tree |
| RendererProps.HeadKeepsScripts | assets/js/app.js:103-111 | the head patch never updates an existing SCRIPT element |
| RendererProps.BodyKeepsFocusAsWritten | assets/js/app.js:114-124 | the body patch as written never updates the active element it reaches, and leaves the whole body when nothing is focused |
| RendererProps.BodyKeepsFocus | assets/js/app.js:114-124 | the corrected body patch (`KeepFocusedChild`, under Findings) never updates the focused element, and updates everything when nothing is focused |
| RendererProps.MountedNotReady | assets/js/app.js:34-36 | after mount, the frame is not ready and nothing is pending |
| RendererProps.FullUpdateReplaces | assets/js/app.js:67-73 | a full update marks the frame not ready, drops any pending update and replaces `srcdoc`, and nothing is patched |
| RendererProps.EarlyUpdatesKeepLatest | assets/js/app.js:76-82 | any number of incremental updates before the frame is ready leave only the latest pending, and patch nothing |
| RendererProps.ReadyPatchesAtOnce | assets/js/app.js:84 | once ready, an incremental update is patched at once and nothing is stored |
| RendererProps.LoadFlushesOnce | assets/js/app.js:39-48 | `load` sets ready, applies a pending update exactly once and clears it. A second load applies nothing |
| RendererProps.PatchNeverReloads | assets/js/app.js:88-133 | a patch never touches the gate, `srcdoc` or the scroll position. An inaccessible document or a failure at the head changes nothing, and a failure at the body leaves the body |
| RendererProps.ScrollOnlyThroughWindow | assets/js/app.js:52-61 | `scroll_to` moves the view only through an existing window that does not throw |
| RendererProps.IncrementalDroppedAsWritten | assets/js/app.js:114-124 | as written, with nothing focused the body patch leaves the body exactly as it was |
| RendererProps.IncrementalAppliedCorrected | assets/js/app.js:114-124 | corrected (`ApplyMorphdomCorrected`), the same patch makes the body the update's body |
| ViewFrameHook.ViewFrame.constructor | assets/js/app.js:34-36 | the mounted frame |
| ViewFrameHook.ViewFrame.ApplyMorphdom | assets/js/app.js:88-133 | moves the frame as `FrameState.ApplyMorphdom`, whose body patch refuses the active element, the body included |
| ViewFrameHook.ViewFrame.OnLoad | assets/js/app.js:39-49 | moves the frame as `FrameState.OnLoad`, which flushes through the as-written `FrameState.ApplyMorphdom` |
| ViewFrameHook.ViewFrame.DomUpdate | assets/js/app.js:64-85 | moves the frame as `FrameState.DomUpdate`, which patches through the as-written `FrameState.ApplyMorphdom` |
| ViewFrameHook.ViewFrame.ScrollTo | assets/js/app.js:52-61 | moves the frame as `FrameState.ScrollTo` |

## Left out

- The WebSocket object, `readyState` transitions and `conn.send` are not modelled. The link state is a small datatype, and sent frames go to a log.
- `JSON.stringify` and `JSON.parse` are not modelled. A frame is a JSON array value, and parsing is an argument.
- `encodeURIComponent` and `new URL(...)` resolution are parameters, and throwing resolution is `None`.
- Real timers are not modelled. `setTimeout` and `setInterval` callbacks are explicit events. In the content script a deadline is a number on an explicit clock.
- Floating-point arithmetic is not modelled. `makeRef`'s `ref + 1 === ref` test is modelled as the 2^53 limit of doubles.
- `console` logging is not modelled.
- The callbacks a channel or socket user registers are not modelled. They are opaque ids whose invocations are logged. Only the client's own standard callbacks have effects.
- Channel.trigger: the "onMessage callbacks must return payload" check cannot fail here, because `onMessage` returns its payload.
- The style `url()` regular-expression rewrite is left out.
- DOM APIs are not modelled: `cloneNode`, `querySelectorAll`, `outerHTML` (a parameter), `DOMParser` (a parameter), `MutationObserver` (a batch of mutation records) and `document.activeElement` (a path).
- The sanitizer rewrites an immutable tree instead of mutating a clone in place, so aliasing between the clone and the page is not modelled.
- Sanitizer selectors use exact, case-sensitive values. HTML's case-insensitive attribute values are not modelled.
- morphdom's diff is modelled without keyed matching, moves or the `onBeforeNode*` hooks. Only the `onBeforeElUpdated` guard is kept exactly.
- `chrome.runtime`, `chrome.tabs`, `chrome.scripting` and `chrome.storage` are effects in a log, or outcomes given as arguments.
- `crypto.getRandomValues` is not modelled. The eight bytes are an argument.
- Interleavings of the worker's asynchronous handlers are not modelled. Each handler is one atomic step.
- BackgroundWorker.Worker.ConnectToServer: a connection that never settles is not modelled. Neither are socket close and error callbacks that fire after the attempt has settled: "Connection lost", later errors, and the Phoenix client's own reconnects.
- The presence handlers and `updateViewerCount` are left out.
- The relay's socket and channel are descriptions of what was created. They are not composed with the `Socket` class of the Phoenix model.
- `extension/popup.js` is not part of this model.
- The `ScaledView`, `ClickRipple` and `CopyLink` hooks, the LiveSocket and topbar setup, and the live-reload block of `assets/js/app.js` are left out.
- CaptureState.SendDomUpdate: `chrome.runtime.sendMessage` errors are not modelled. A posted message is appended to the outbox.

## Findings

The classes and the state functions they follow run the code as written. Each corrected definition (`CaptureState.StartCorrected`, `PhoenixState.DisconnectCorrected`, `FrameState.ApplyMorphdomCorrected`) is used only by the lemma in the last column.

| source | as written | input that shows it | evidently intended | confidence | as-written member | corrected member |
|---|---|---|---|---|---|---|
| extension/content.js:50-64 | `stopCapturing` keeps `lastDomSnapshot`, so the initial `sendDOMUpdate` of the next `startCapturing` compares against the previous session's last snapshot | capture, stop, start again on an unchanged page: no DOM_UPDATE is posted for the new session | every session opens with a full snapshot, as the comment "Capture initial DOM" at line 39 says | medium, not executed | CaptureProps.RestartAsWrittenIsSilent | CaptureProps.RestartPostsSnapshot |
| extension/phoenix.js:353-364 | `disconnect` drops the link but leaves a scheduled reconnect timer armed | a close schedules a reconnect, then `disconnect()` is called before the delay ends: the timer fires and `connect()` opens a new WebSocket | a disconnected socket stays disconnected | medium, not executed | PhoenixProps.DisconnectAsWrittenReconnects | PhoenixProps.DisconnectStaysDown |
| assets/js/app.js:114-124 | the body morph runs with `childrenOnly: false` and refuses `fromEl === activeElement`. When nothing in the iframe is focused, `activeElement` is the body, so the refusal hits the patch's root | any incremental update while the viewer has focused nothing inside the iframe: the body is left unchanged | only a focused element inside the body is preserved, and the rest of the body is patched | medium, not executed (rests on morphdom asking `onBeforeElUpdated` about the root when `childrenOnly` is false, and on `activeElement` being the body when nothing is focused) | RendererProps.IncrementalDroppedAsWritten | RendererProps.IncrementalAppliedCorrected |
