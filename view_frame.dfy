// The `Hooks.ViewFrame` object: `mounted()` sets its fields and its event
// handlers update them in place; each is proved to move the state exactly as
// its function in FrameState does.

module ViewFrameHook {
  import opened Wrappers
  import opened Json
  import opened Morphing
  import F = FrameState

  class ViewFrame {
    const parse: string -> F.Doc   // DOMParser.parseFromString(html, "text/html")
    var iframeReady: bool
    var pendingUpdate: Option<string>
    var srcdoc: string
    var content: Option<F.Doc>
    var scroll: (int, int)
    var patches: seq<string>

    function View(): F.Frame
      reads this
    {
      F.Frame(iframeReady, pendingUpdate, srcdoc, content, scroll, patches)
    }

    /** `mounted()`, on an iframe showing `srcdoc` with document `content`. */
    constructor(parse: string -> F.Doc, srcdoc: string, content: Option<F.Doc>, scroll: (int, int))
      ensures View() == F.Mounted(srcdoc, content, scroll) && this.parse == parse
    {
      this.parse := parse;
      this.srcdoc := srcdoc;
      this.content := content;
      this.scroll := scroll;
      iframeReady := false;
      pendingUpdate := None;
      patches := [];
    }

    method ApplyMorphdom(html: string, fault: F.Fault)
      modifies this
      ensures View() == F.ApplyMorphdom(old(View()), html, parse, fault)
    {
      patches := patches + [html];
      if content.None? || content.value.body.None? || fault.HeadFault? {
        return;
      }
      var d := content.value;
      var newDoc := parse(html);
      if d.head.Some? && newDoc.head.Some? {
        d := d.(head := Some(Morph(d.head.value, newDoc.head.value, [], KeepScripts)));
      }
      if fault.BodyFault? {
        content := Some(d);
        return;
      }
      if newDoc.body.Some? {
        d := d.(body := Some(Morph(d.body.value, newDoc.body.value, [], KeepFocused(d.focus))));
      }
      content := Some(d);
    }

    /** The iframe's `load` listener; `loaded` is the document the load produced. */
    method OnLoad(loaded: Option<F.Doc>, fault: F.Fault)
      modifies this
      ensures View() == F.OnLoad(old(View()), loaded, parse, fault)
    {
      iframeReady := true;
      content := loaded;
      if pendingUpdate.Some? && pendingUpdate.value != "" {
        ApplyMorphdom(pendingUpdate.value, fault);
        pendingUpdate := None;
      }
    }

    /** The `dom_update` handler. */
    method DomUpdate(html: string, isFullPage: Json, fault: F.Fault)
      modifies this
      ensures View() == F.DomUpdate(old(View()), html, isFullPage, parse, fault)
    {
      if Truthy(isFullPage) {
        iframeReady := false;
        pendingUpdate := None;
        srcdoc := html;
        return;
      }
      if !iframeReady {
        pendingUpdate := Some(html);
        return;
      }
      ApplyMorphdom(html, fault);
    }

    /** The `scroll_to` handler. */
    method ScrollTo(x: int, y: int, hasWindow: bool, throws: bool)
      modifies this
      ensures View() == F.ScrollTo(old(View()), x, y, hasWindow, throws)
    {
      if hasWindow && !throws {
        scroll := (x, y);
      }
    }
  }
}
