// The content script's module-level variables as one object whose handlers
// update them in place; each handler is proved to move the state exactly as
// its function in CaptureState does.

module ContentScript {
  import opened Wrappers
  import opened Sanitizer
  import S = CaptureState

  /** The observer callback's loop over one batch of records. */
  method Classify(ms: seq<S.Mutation>) returns (hasStructuralChanges: bool, hasVisibilityChanges: bool)
    ensures hasStructuralChanges <==> S.AnyStructural(ms)
    ensures hasVisibilityChanges <==> S.AnyVisibility(ms)
  {
    hasStructuralChanges := false;
    hasVisibilityChanges := false;
    for k := 0 to |ms|
      invariant hasStructuralChanges <==> exists i :: 0 <= i < k && S.IsStructural(ms[i])
      invariant hasVisibilityChanges <==> exists i :: 0 <= i < k && S.IsVisibility(ms[i])
    {
      match ms[k]
      case ChildList(added, removed) =>
        if added > 0 || removed > 0 {
          hasStructuralChanges := true;
        }
      case Attributes(attr) =>
        if attr in S.VisibilityAttributes {
          hasVisibilityChanges := true;
        }
      case CharacterData =>
        hasStructuralChanges := true;
    }
  }

  class ContentScript {
    const env: S.Env
    var now: nat
    var isCapturing: bool
    var lastDomSnapshot: Option<string>
    var observing: bool
    var listening: bool
    var mouseUntil: nat
    var scrollUntil: nat
    var visibilityDue: Option<nat>
    var structuralDue: Option<nat>
    var navDue: seq<nat>
    var outbox: seq<S.Outgoing>

    function View(): S.Capture
      reads this
    {
      S.Capture(now, isCapturing, lastDomSnapshot, observing, listening, mouseUntil, scrollUntil,
                visibilityDue, structuralDue, navDue, outbox)
    }

    /** The script as loaded: not capturing, nothing attached, nothing posted. */
    constructor(env: S.Env)
      ensures View() == S.Initial && this.env == env
    {
      this.env := env;
      now, isCapturing, lastDomSnapshot := 0, false, None;
      observing, listening := false, false;
      mouseUntil, scrollUntil := 0, 0;
      visibilityDue, structuralDue, navDue, outbox := None, None, [], [];
    }

    method SendDomUpdate(page: Page, isFullPage: bool)
      modifies this
      ensures View() == S.SendDomUpdate(old(View()), page, env, isFullPage)
    {
      if !isCapturing {
        return;
      }
      var html := CaptureDom(page, env.resolve, env.serialize);
      if lastDomSnapshot != Some(html) {
        lastDomSnapshot := Some(html);
        outbox := outbox + [S.DomUpdate(html, page.innerWidth, page.innerHeight, isFullPage)];
      }
    }

    /** `startCapturing()`; `lastDomSnapshot` is left as the previous session left it. */
    method Start(page: Page)
      modifies this
      ensures View() == S.Start(old(View()), page, env)
    {
      if isCapturing {
        return;
      }
      isCapturing := true;
      SendDomUpdate(page, true);
      listening := true;
      observing := true;
    }

    method Stop()
      modifies this
      ensures View() == S.Stop(old(View()))
    {
      if !isCapturing {
        return;
      }
      isCapturing := false;
      listening := false;
      observing := false;
    }

    method Elapse(dt: nat)
      modifies this
      ensures View() == S.Elapse(old(View()), dt)
    {
      now := now + dt;
    }

    method MouseMove(x: int, y: int, page: Page)
      modifies this
      ensures View() == S.MouseMove(old(View()), x, y, page)
    {
      if !listening || now < mouseUntil {
        return;
      }
      mouseUntil := now + S.MouseLimit;
      if isCapturing {
        outbox := outbox + [S.CursorMove(x, y, page.innerWidth, page.innerHeight)];
      }
    }

    method Scroll(page: Page)
      modifies this
      ensures View() == S.Scroll(old(View()), page)
    {
      if !listening || now < scrollUntil {
        return;
      }
      scrollUntil := now + S.ScrollLimit;
      if isCapturing {
        outbox := outbox + [S.ScrollMsg(page.scrollX, page.scrollY)];
      }
    }

    method Click(x: int, y: int)
      modifies this
      ensures View() == S.Click(old(View()), x, y)
    {
      if listening && isCapturing {
        outbox := outbox + [S.ClickMsg(x, y)];
      }
    }

    /** The mutation observer's callback. */
    method OnMutations(ms: seq<S.Mutation>)
      modifies this
      ensures View() == S.Observe(old(View()), ms)
    {
      if !observing || !isCapturing {
        return;
      }
      var structural, visibility := Classify(ms);
      if structural {
        structuralDue := Some(now + S.StructuralWait);
      } else if visibility {
        visibilityDue := Some(now + S.VisibilityWait);
      }
    }

    method FireVisibility(page: Page)
      modifies this
      ensures View() == S.FireVisibility(old(View()), page, env)
    {
      if visibilityDue.Some? && visibilityDue.value <= now {
        visibilityDue := None;
        SendDomUpdate(page, false);
      }
    }

    method FireStructural(page: Page)
      modifies this
      ensures View() == S.FireStructural(old(View()), page, env)
    {
      if structuralDue.Some? && structuralDue.value <= now {
        structuralDue := None;
        SendDomUpdate(page, false);
      }
    }

    /** The wrapped `pushState` and `replaceState`, and the `popstate` listener. */
    method Navigate(url: string)
      modifies this
      ensures View() == S.Navigate(old(View()), url)
    {
      if isCapturing {
        lastDomSnapshot := None;
        outbox := outbox + [S.NavigationMsg(url)];
        navDue := navDue + [now + S.NavigationDelay];
      }
    }

    method FireNavigation(page: Page)
      modifies this
      ensures View() == S.FireNavigation(old(View()), page, env)
    {
      if navDue != [] && navDue[0] <= now {
        navDue := navDue[1..];
        SendDomUpdate(page, true);
      }
    }

    /** The `chrome.runtime.onMessage` listener. */
    method OnRequest(req: S.Request, page: Page) returns (reply: Option<S.Reply>)
      modifies this
      ensures View() == S.OnRequest(old(View()), req, page, env)
      ensures reply == S.ReplyTo(req, page, env)
    {
      match req
      case StartCapture =>
        Start(page);
        reply := Some(S.Success);
      case StopCapture =>
        Stop();
        reply := Some(S.Success);
      case GetDom =>
        reply := Some(S.DomReply(CaptureDom(page, env.resolve, env.serialize)));
      case OtherRequest(_) =>
        reply := None;
    }
  }
}
