// What the content script promises, proved of the handlers in CaptureState.

module CaptureProps {
  import opened Wrappers
  import opened Sanitizer
  import opened CaptureState

  function Snapshot(page: Page, env: Env): string {
    CaptureDom(page, env.resolve, env.serialize)
  }

  // ---------------------------------------------------------------- invariant

  /** Starting and stopping keep listeners and observer attached exactly while capturing. */
  lemma ValidStartStop(s: Capture, page: Page, env: Env, req: Request)
    requires Valid(s)
    ensures Valid(Start(s, page, env)) && Valid(StartCorrected(s, page, env)) && Valid(Stop(s))
    ensures Valid(OnRequest(s, req, page, env))
  {
  }

  /** Time and input events keep the invariant. */
  lemma ValidInput(s: Capture, page: Page, x: int, y: int, dt: nat)
    requires Valid(s)
    ensures Valid(Elapse(s, dt)) && Valid(MouseMove(s, x, y, page)) && Valid(Scroll(s, page)) && Valid(Click(s, x, y))
  {
  }

  /** Mutation batches and debounce timers keep the invariant. */
  lemma ValidObserver(s: Capture, page: Page, env: Env, ms: seq<Mutation>)
    requires Valid(s)
    ensures Valid(Observe(s, ms)) && Valid(FireVisibility(s, page, env)) && Valid(FireStructural(s, page, env))
  {
  }

  /** Navigation timers are queued in deadline order and fire oldest first. */
  lemma ValidNavigation(s: Capture, page: Page, env: Env, url: string)
    requires Valid(s)
    ensures Valid(Navigate(s, url)) && Valid(FireNavigation(s, page, env))
  {
    if s.isCapturing {
      var r := Navigate(s, url);
      forall i, j | 0 <= i < j < |r.navDue| ensures r.navDue[i] <= r.navDue[j] {
        if j == |s.navDue| { assert r.navDue[i] == s.navDue[i]; }
      }
    }
    if s.navDue != [] && s.navDue[0] <= s.now {
      var r := FireNavigation(s, page, env);
      forall i, j | 0 <= i < j < |r.navDue| ensures r.navDue[i] <= r.navDue[j] {
        assert r.navDue[i] == s.navDue[i + 1] && r.navDue[j] == s.navDue[j + 1];
      }
    }
  }

  lemma InitialValid()
    ensures Valid(Initial) && !Initial.isCapturing && Initial.outbox == []
  {
  }

  // ---------------------------------------------------------------- start and stop

  /** Starting twice is starting once (also with the fingerprint reset); stopping twice is stopping once. */
  lemma StartStopIdempotent(s: Capture, p1: Page, p2: Page, env: Env)
    ensures Start(Start(s, p1, env), p2, env) == Start(s, p1, env)
    ensures StartCorrected(StartCorrected(s, p1, env), p2, env) == StartCorrected(s, p1, env)
    ensures Stop(Stop(s)) == Stop(s)
  {
  }

  /**
   * Starting a stopped script: capturing, listeners and observer attached, the
   * page's snapshot recorded, and one full snapshot posted exactly when it
   * differs from the last one posted (always so on a freshly loaded script).
   */
  lemma StartPostsSnapshot(s: Capture, page: Page, env: Env)
    requires !s.isCapturing
    ensures var r := Start(s, page, env); var html := Snapshot(page, env);
      r.isCapturing && r.listening && r.observing && r.lastDomSnapshot == Some(html) &&
      (s.lastDomSnapshot != Some(html) ==>
        r.outbox == s.outbox + [DomUpdate(html, page.innerWidth, page.innerHeight, true)]) &&
      (s.lastDomSnapshot == Some(html) ==> r.outbox == s.outbox)
    ensures s == Initial ==>
      Start(s, page, env).outbox == [DomUpdate(Snapshot(page, env), page.innerWidth, page.innerHeight, true)]
  {
  }

  /** Stopping: nothing is posted and listeners and observer are detached. */
  lemma StopDetaches(s: Capture)
    requires Valid(s)
    ensures var r := Stop(s);
      !r.isCapturing && !r.listening && !r.observing && r.outbox == s.outbox
  {
  }

  /**
   * As written, a session started after a stop on an unchanged page posts no
   * snapshot at all: the last snapshot of the previous session still matches.
   */
  lemma RestartAsWrittenIsSilent(s: Capture, page: Page, env: Env)
    requires s.isCapturing && s.lastDomSnapshot == Some(Snapshot(page, env))
    ensures var r := Start(Stop(s), page, env);
      r.isCapturing && r.outbox == s.outbox
  {
  }

  /** With the fingerprint reset, the restarted session opens with the full snapshot. */
  lemma RestartPostsSnapshot(s: Capture, page: Page, env: Env)
    requires s.isCapturing
    ensures var r := StartCorrected(Stop(s), page, env);
      r.isCapturing && r.outbox == s.outbox + [DomUpdate(Snapshot(page, env), page.innerWidth, page.innerHeight, true)]
  {
    StartPostsSnapshot(Stop(s).(lastDomSnapshot := None), page, env);
  }

  // ---------------------------------------------------------------- deduplication

  /** `sendDOMUpdate` posts exactly when capturing and the snapshot differs from the last one posted, and records it. */
  lemma SendPostsOnlyChanges(s: Capture, page: Page, env: Env, full: bool)
    ensures var r := SendDomUpdate(s, page, env, full); var html := Snapshot(page, env);
      (s.isCapturing && s.lastDomSnapshot != Some(html) ==>
        r.outbox == s.outbox + [DomUpdate(html, page.innerWidth, page.innerHeight, full)]) &&
      (!(s.isCapturing && s.lastDomSnapshot != Some(html)) ==> r.outbox == s.outbox) &&
      (s.isCapturing ==> r.lastDomSnapshot == Some(html))
  {
  }

  /** Two updates of an unchanged page post once. */
  lemma SendTwiceOnce(s: Capture, page: Page, env: Env, f1: bool, f2: bool)
    ensures var s1 := SendDomUpdate(s, page, env, f1);
      SendDomUpdate(s1, page, env, f2) == s1
  {
  }

  // ---------------------------------------------------------------- stopped is silent

  /** Once stopped, no event or timer posts anything. */
  lemma StoppedIsSilent(s: Capture, page: Page, env: Env, x: int, y: int, ms: seq<Mutation>, url: string)
    requires Valid(s) && !s.isCapturing
    ensures MouseMove(s, x, y, page) == s && Scroll(s, page) == s && Click(s, x, y) == s
    ensures Observe(s, ms) == s && Navigate(s, url) == s
    ensures FireVisibility(s, page, env).outbox == s.outbox
    ensures FireStructural(s, page, env).outbox == s.outbox
    ensures FireNavigation(s, page, env).outbox == s.outbox
  {
  }

  // ---------------------------------------------------------------- throttle

  /** A mouse move out of any window posts its position and opens a 33 ms window. */
  lemma MouseMovePosts(s: Capture, x: int, y: int, page: Page)
    requires Valid(s) && s.isCapturing && s.mouseUntil <= s.now
    ensures var r := MouseMove(s, x, y, page);
      r.outbox == s.outbox + [CursorMove(x, y, page.innerWidth, page.innerHeight)] && r.mouseUntil == s.now + 33
  {
  }

  /** After a posted move, further moves are dropped for 33 ms; the first one after that is posted. */
  lemma MouseThrottleWindow(s: Capture, x1: int, y1: int, x2: int, y2: int, dt: nat, page: Page)
    requires Valid(s) && s.isCapturing && s.mouseUntil <= s.now
    ensures var s1 := MouseMove(s, x1, y1, page);
      var r := MouseMove(Elapse(s1, dt), x2, y2, page);
      (dt < 33 ==> r.outbox == s1.outbox) &&
      (dt >= 33 ==> r.outbox == s1.outbox + [CursorMove(x2, y2, page.innerWidth, page.innerHeight)])
  {
  }

  /** After a posted scroll, further scrolls are dropped for 100 ms; the first one after that is posted. */
  lemma ScrollThrottleWindow(s: Capture, dt: nat, p1: Page, p2: Page)
    requires Valid(s) && s.isCapturing && s.scrollUntil <= s.now
    ensures var s1 := Scroll(s, p1);
      var r := Scroll(Elapse(s1, dt), p2);
      s1.outbox == s.outbox + [ScrollMsg(p1.scrollX, p1.scrollY)] &&
      (dt < 100 ==> r.outbox == s1.outbox) &&
      (dt >= 100 ==> r.outbox == s1.outbox + [ScrollMsg(p2.scrollX, p2.scrollY)])
  {
  }

  /** Clicks are never throttled: two clicks at the same instant both post, with only their coordinates. */
  lemma ClicksAllPost(s: Capture, x1: int, y1: int, x2: int, y2: int)
    requires Valid(s) && s.isCapturing
    ensures Click(Click(s, x1, y1), x2, y2).outbox == s.outbox + [ClickMsg(x1, y1), ClickMsg(x2, y2)]
  {
  }

  // ---------------------------------------------------------------- debounce

  /** Structural changes take priority: a batch with both kinds restarts only the 250 ms debounce. */
  lemma StructuralWins(s: Capture, ms: seq<Mutation>)
    requires Valid(s) && s.isCapturing
    ensures var r := Observe(s, ms);
      r.outbox == s.outbox &&
      (AnyStructural(ms) ==> r.structuralDue == Some(s.now + 250) && r.visibilityDue == s.visibilityDue) &&
      (!AnyStructural(ms) && AnyVisibility(ms) ==> r.visibilityDue == Some(s.now + 100) && r.structuralDue == s.structuralDue) &&
      (!AnyStructural(ms) && !AnyVisibility(ms) ==> r == s)
  {
  }

  /** A debounce timer does nothing before its deadline. */
  lemma DebounceWaits(s: Capture, page: Page, env: Env)
    requires s.structuralDue.Some? && s.now < s.structuralDue.value
    requires s.visibilityDue.Some? && s.now < s.visibilityDue.value
    ensures FireStructural(s, page, env) == s && FireVisibility(s, page, env) == s
  {
  }

  /**
   * A burst of structural batches, each within 250 ms of the previous, posts
   * one incremental update, 250 ms after the last batch; its timer then is
   * spent.
   */
  lemma BurstPostsOnce(s: Capture, ms1: seq<Mutation>, ms2: seq<Mutation>, dt: nat, page: Page, env: Env)
    requires Valid(s) && s.isCapturing && AnyStructural(ms1) && AnyStructural(ms2) && dt < 250
    requires s.lastDomSnapshot != Some(Snapshot(page, env))
    ensures var s2 := Observe(Elapse(Observe(s, ms1), dt), ms2);
      FireStructural(Elapse(s2, 249), page, env) == Elapse(s2, 249) &&
      var r := FireStructural(Elapse(s2, 250), page, env);
      r.outbox == s.outbox + [DomUpdate(Snapshot(page, env), page.innerWidth, page.innerHeight, false)] &&
      FireStructural(r, page, env) == r
  {
  }

  // ---------------------------------------------------------------- navigation

  /**
   * A navigation while capturing posts NAVIGATION at once and, 100 ms later,
   * a full-page snapshot, even when the page looks the same as the last one
   * posted.
   */
  lemma NavigationForcesFullSnapshot(s: Capture, url: string, page: Page, env: Env)
    requires Valid(s) && s.isCapturing && s.navDue == []
    ensures var s1 := Navigate(s, url);
      FireNavigation(Elapse(s1, 99), page, env) == Elapse(s1, 99) &&
      FireNavigation(Elapse(s1, 100), page, env).outbox
        == s.outbox + [NavigationMsg(url), DomUpdate(Snapshot(page, env), page.innerWidth, page.innerHeight, true)]
  {
  }

  // ---------------------------------------------------------------- runtime messages

  /** START_CAPTURE and STOP_CAPTURE answer success; GET_DOM answers the snapshot without changing any state. */
  lemma RequestsAnswered(s: Capture, req: Request, page: Page, env: Env)
    ensures req.StartCapture? || req.StopCapture? ==> ReplyTo(req, page, env) == Some(Success)
    ensures req.GetDom? ==> ReplyTo(req, page, env) == Some(DomReply(Snapshot(page, env))) && OnRequest(s, req, page, env) == s
    ensures req.OtherRequest? ==> ReplyTo(req, page, env).None? && OnRequest(s, req, page, env) == s
  {
  }
}
