// The module-level state of the content script and the handlers that change
// it, as total functions from state to state. Time is explicit: `now` is the
// page clock in milliseconds, throttle windows are the instant they end,
// pending debounce and navigation timers are their deadlines, and a timer
// callback is an event that does nothing before its deadline.

module CaptureState {
  import opened Wrappers
  import opened Sanitizer

  /** What `chrome.runtime.sendMessage` posts to the relay. */
  datatype Outgoing =
    | DomUpdate(html: string, viewportWidth: int, viewportHeight: int, isFullPage: bool)
    | CursorMove(x: int, y: int, viewportWidth: int, viewportHeight: int)
    | ScrollMsg(x: int, y: int)
    | ClickMsg(x: int, y: int)
    | NavigationMsg(url: string)

  /** One `MutationRecord`: its type and, per type, what the classifier reads of it. */
  datatype Mutation =
    | ChildList(addedNodes: nat, removedNodes: nat)
    | Attributes(attributeName: string)
    | CharacterData

  /** How the page is captured: URL resolution and `outerHTML` serialization. */
  datatype Env = Env(resolve: Resolver, serialize: Node -> string)

  datatype Capture = Capture(
    now: nat,
    isCapturing: bool,
    lastDomSnapshot: Option<string>,
    observing: bool,              // mutationObserver !== null
    listening: bool,              // mousemove, scroll and click listeners attached
    mouseUntil: nat,              // handleMouseMove is in its throttle window while now < mouseUntil
    scrollUntil: nat,             // the same for handleScroll
    visibilityDue: Option<nat>,   // pending timer of debouncedDOMUpdate
    structuralDue: Option<nat>,   // pending timer of debouncedStructuralUpdate
    navDue: seq<nat>,             // pending setTimeout(() => sendDOMUpdate(true), 100), oldest first
    outbox: seq<Outgoing>)

  const MouseLimit: nat := 33
  const ScrollLimit: nat := 100
  const VisibilityWait: nat := 100
  const StructuralWait: nat := 250
  const NavigationDelay: nat := 100

  /** The attribute names whose change is a visibility change (the observer's `attributeFilter`). */
  const VisibilityAttributes: set<string> :=
    {"class", "style", "hidden", "aria-hidden", "aria-expanded", "open", "data-state", "data-open", "data-visible"}

  const Initial: Capture := Capture(0, false, None, false, false, 0, 0, None, None, [], [])

  /** Listeners and observer are attached exactly while capturing; navigation timers fire in order. */
  predicate Valid(s: Capture) {
    s.observing == s.isCapturing && s.listening == s.isCapturing &&
    (forall i, j :: 0 <= i < j < |s.navDue| ==> s.navDue[i] <= s.navDue[j]) &&
    (forall i :: 0 <= i < |s.navDue| ==> s.navDue[i] <= s.now + NavigationDelay)
  }

  // ---------------------------------------------------------------- sendDOMUpdate, start, stop

  /** `sendDOMUpdate(isFullPage)`: capture, and post only a snapshot that differs from the last one posted. */
  function SendDomUpdate(s: Capture, page: Page, env: Env, isFullPage: bool): (r: Capture)
    ensures r == s.(lastDomSnapshot := r.lastDomSnapshot, outbox := r.outbox)
    ensures |s.outbox| <= |r.outbox| <= |s.outbox| + 1 && r.outbox[..|s.outbox|] == s.outbox
  {
    if !s.isCapturing then s
    else
      var html := CaptureDom(page, env.resolve, env.serialize);
      if s.lastDomSnapshot == Some(html) then s
      else s.(lastDomSnapshot := Some(html),
              outbox := s.outbox + [DomUpdate(html, page.innerWidth, page.innerHeight, isFullPage)])
  }

  /**
   * `startCapturing()`: capture, attach listeners and observer. The snapshot
   * of the previous session is still the reference of its first update.
   */
  function Start(s: Capture, page: Page, env: Env): Capture {
    if s.isCapturing then s
    else SendDomUpdate(s.(isCapturing := true), page, env, true).(listening := true, observing := true)
  }

  /** `startCapturing()` with the fingerprint reset, so that every session opens with a full snapshot. */
  function StartCorrected(s: Capture, page: Page, env: Env): Capture {
    if s.isCapturing then s
    else SendDomUpdate(s.(isCapturing := true, lastDomSnapshot := None), page, env, true).(listening := true, observing := true)
  }

  /** `stopCapturing()`. */
  function Stop(s: Capture): Capture {
    if !s.isCapturing then s
    else s.(isCapturing := false, listening := false, observing := false)
  }

  /** Time passes. */
  function Elapse(s: Capture, dt: nat): Capture {
    s.(now := s.now + dt)
  }

  // ---------------------------------------------------------------- input events

  /** `handleMouseMove`: the first move of each 33 ms window runs, later ones are dropped. */
  function MouseMove(s: Capture, x: int, y: int, page: Page): Capture {
    if !s.listening || s.now < s.mouseUntil then s
    else
      var s1 := s.(mouseUntil := s.now + MouseLimit);
      if s.isCapturing then s1.(outbox := s1.outbox + [CursorMove(x, y, page.innerWidth, page.innerHeight)]) else s1
  }

  /** `handleScroll`: the first scroll of each 100 ms window runs. */
  function Scroll(s: Capture, page: Page): Capture {
    if !s.listening || s.now < s.scrollUntil then s
    else
      var s1 := s.(scrollUntil := s.now + ScrollLimit);
      if s.isCapturing then s1.(outbox := s1.outbox + [ScrollMsg(page.scrollX, page.scrollY)]) else s1
  }

  /** `handleClick`: never throttled. */
  function Click(s: Capture, x: int, y: int): Capture {
    if s.listening && s.isCapturing then s.(outbox := s.outbox + [ClickMsg(x, y)]) else s
  }

  // ---------------------------------------------------------------- mutation observer

  /** A record that adds or removes nodes, or any character-data record. */
  predicate IsStructural(m: Mutation) {
    match m
    case ChildList(added, removed) => added > 0 || removed > 0
    case Attributes(_) => false
    case CharacterData => true
  }

  /** A change to one of the nine watched attributes. */
  predicate IsVisibility(m: Mutation) {
    m.Attributes? && m.attributeName in VisibilityAttributes
  }

  predicate AnyStructural(ms: seq<Mutation>) {
    exists i :: 0 <= i < |ms| && IsStructural(ms[i])
  }

  predicate AnyVisibility(ms: seq<Mutation>) {
    exists i :: 0 <= i < |ms| && IsVisibility(ms[i])
  }

  /** The observer callback: structural changes restart the 250 ms debounce, else visibility changes the 100 ms one. */
  function Observe(s: Capture, ms: seq<Mutation>): Capture {
    if !s.observing || !s.isCapturing then s
    else if AnyStructural(ms) then s.(structuralDue := Some(s.now + StructuralWait))
    else if AnyVisibility(ms) then s.(visibilityDue := Some(s.now + VisibilityWait))
    else s
  }

  /** The timer of `debouncedDOMUpdate` fires. */
  function FireVisibility(s: Capture, page: Page, env: Env): Capture {
    if s.visibilityDue.Some? && s.visibilityDue.value <= s.now then
      SendDomUpdate(s.(visibilityDue := None), page, env, false)
    else s
  }

  /** The timer of `debouncedStructuralUpdate` fires. */
  function FireStructural(s: Capture, page: Page, env: Env): Capture {
    if s.structuralDue.Some? && s.structuralDue.value <= s.now then
      SendDomUpdate(s.(structuralDue := None), page, env, false)
    else s
  }

  // ---------------------------------------------------------------- navigation

  /** `history.pushState`, `history.replaceState` or `popstate`, once the page is at `url`. */
  function Navigate(s: Capture, url: string): Capture {
    if s.isCapturing then
      s.(lastDomSnapshot := None,
         outbox := s.outbox + [NavigationMsg(url)],
         navDue := s.navDue + [s.now + NavigationDelay])
    else s
  }

  /** The oldest pending navigation timer fires: a full-page update. */
  function FireNavigation(s: Capture, page: Page, env: Env): Capture {
    if s.navDue != [] && s.navDue[0] <= s.now then
      SendDomUpdate(s.(navDue := s.navDue[1..]), page, env, true)
    else s
  }

  // ---------------------------------------------------------------- runtime messages

  datatype Request = StartCapture | StopCapture | GetDom | OtherRequest(kind: string)

  datatype Reply = Success | DomReply(html: string)

  /** The `chrome.runtime.onMessage` listener: the new state. */
  function OnRequest(s: Capture, req: Request, page: Page, env: Env): Capture {
    match req
    case StartCapture => Start(s, page, env)
    case StopCapture => Stop(s)
    case _ => s
  }

  /** The `chrome.runtime.onMessage` listener: what `sendResponse` receives, if it is called. */
  function ReplyTo(req: Request, page: Page, env: Env): Option<Reply> {
    match req
    case StartCapture => Some(Success)
    case StopCapture => Some(Success)
    case GetDom => Some(DomReply(CaptureDom(page, env.resolve, env.serialize)))
    case OtherRequest(_) => None
  }
}
