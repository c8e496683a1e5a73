// The viewer's `ViewFrame` hook: the iframe it renders into and the two fields
// that gate updates on the iframe having loaded, as total functions from state
// to state. The browser's parts are arguments: the document a load produced,
// DOMParser, and whether a step throws.

module FrameState {
  import opened Wrappers
  import opened Json
  import opened Sanitizer
  import opened Morphing

  /** The iframe's `contentDocument`: its head, its body and the path of the focused element below the body. */
  datatype Doc = Doc(head: Option<Node>, body: Option<Node>, focus: seq<nat>)

  datatype Frame = Frame(
    iframeReady: bool,
    pendingUpdate: Option<string>,  // null, or the html of the latest incremental update that arrived too early
    srcdoc: string,
    content: Option<Doc>,           // None while the document is not accessible
    scroll: (int, int),             // the iframe window's scroll position
    patches: seq<string>)           // every html handed to applyMorphdom, in order

  /** Where a patch throws, if it does: parsing or the head morph, or the body morph. */
  datatype Fault = NoFault | HeadFault | BodyFault

  /** `mounted()`: not ready and nothing pending, whatever the iframe already shows. */
  function Mounted(srcdoc: string, content: Option<Doc>, scroll: (int, int)): Frame {
    Frame(false, None, srcdoc, content, scroll, [])
  }

  /** The guard of the body patch: as written, or refusing only a focused element below the body. */
  function BodyGuard(focus: seq<nat>, asWritten: bool): Guard {
    if asWritten then KeepFocused(focus) else KeepFocusedChild(focus)
  }

  /** `applyMorphdom(html)`: check the document, patch the head, then the body; an exception is swallowed. */
  function Patch(f: Frame, html: string, parse: string -> Doc, fault: Fault, asWritten: bool): Frame {
    var f0 := f.(patches := f.patches + [html]);
    if f.content.None? || f.content.value.body.None? || fault.HeadFault? then f0
    else
      var d := f.content.value;
      var nd := parse(html);
      var d1 := if d.head.Some? && nd.head.Some? then d.(head := Some(Morph(d.head.value, nd.head.value, [], KeepScripts))) else d;
      if fault.BodyFault? then f0.(content := Some(d1))
      else
        var d2 := if nd.body.Some? then d1.(body := Some(Morph(d1.body.value, nd.body.value, [], BodyGuard(d1.focus, asWritten)))) else d1;
        f0.(content := Some(d2))
  }

  /** `applyMorphdom(html)` as the hook has it: the body patch refuses the active element, the body included. */
  function ApplyMorphdom(f: Frame, html: string, parse: string -> Doc, fault: Fault): Frame {
    Patch(f, html, parse, fault, true)
  }

  /** `applyMorphdom(html)` with the body patch refusing only a focused element below the body. */
  function ApplyMorphdomCorrected(f: Frame, html: string, parse: string -> Doc, fault: Fault): Frame {
    Patch(f, html, parse, fault, false)
  }

  /** The `load` listener: the loaded document is in place; a pending update (if truthy) is applied and cleared. */
  function OnLoad(f: Frame, loaded: Option<Doc>, parse: string -> Doc, fault: Fault): Frame {
    var f1 := f.(iframeReady := true, content := loaded);
    if f.pendingUpdate.Some? && f.pendingUpdate.value != "" then
      ApplyMorphdom(f1, f.pendingUpdate.value, parse, fault).(pendingUpdate := None)
    else f1
  }

  /** The `dom_update` handler. */
  function DomUpdate(f: Frame, html: string, isFullPage: Json, parse: string -> Doc, fault: Fault): Frame {
    if Truthy(isFullPage) then f.(iframeReady := false, pendingUpdate := None, srcdoc := html)
    else if !f.iframeReady then f.(pendingUpdate := Some(html))
    else ApplyMorphdom(f, html, parse, fault)
  }

  /** The `scroll_to` handler: scrolls only through an existing window, and an exception leaves the position. */
  function ScrollTo(f: Frame, x: int, y: int, hasWindow: bool, throws: bool): Frame {
    if hasWindow && !throws then f.(scroll := (x, y)) else f
  }

  /** Incremental updates arriving one after another. */
  function DeliverAll(f: Frame, updates: seq<string>, parse: string -> Doc): Frame
    decreases |updates|
  {
    if updates == [] then f
    else DeliverAll(DomUpdate(f, updates[0], JBool(false), parse, NoFault), updates[1..], parse)
  }
}
