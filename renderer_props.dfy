// What the viewer's iframe hook promises, proved of Morphing and FrameState.

module RendererProps {
  import opened Wrappers
  import opened Json
  import opened Sanitizer
  import opened Morphing
  import opened FrameState

  // ---------------------------------------------------------------- the patch

  /** An element the guard refuses, reached along matching elements, comes out of the patch unchanged. */
  lemma {:induction false} MorphKeepsRefused(from: Node, to: Node, base: seq<nat>, p: seq<nat>, g: Guard)
    requires Aligned(from, to, base, p, g) && At(from, p).Some?
    requires !MayUpdate(g, base + p, At(from, p).value)
    ensures At(Morph(from, to, base, g), p) == At(from, p)
    decreases |p|
  {
    if p == [] {
      assert base + p == base;
    } else {
      var i := p[0];
      var child := Morph(from.children[i], to.children[i], base + [i], g);
      assert Morph(from, to, base, g).children[i] == child;
      assert base + [i] + p[1..] == base + p;
      MorphKeepsRefused(from.children[i], to.children[i], base + [i], p[1..], g);
    }
  }

  /** With a guard that refuses nothing, the patched tree is the new tree. */
  lemma {:induction false} MorphUnguarded(from: Node, to: Node, base: seq<nat>, g: Guard)
    requires forall p, n :: MayUpdate(g, p, n)
    ensures Morph(from, to, base, g) == to
    decreases from
  {
    if from.Element? && to.Element? && from.tag == to.tag {
      var cs := MorphChildren(from.children, to.children, base, g);
      forall i | 0 <= i < |to.children| ensures cs[i] == to.children[i] {
        if i < |from.children| {
          MorphUnguarded(from.children[i], to.children[i], base + [i], g);
        }
      }
      assert cs == to.children;
    }
  }

  /** The head patch never updates an existing SCRIPT element it reaches. */
  lemma HeadKeepsScripts(head: Node, newHead: Node, p: seq<nat>)
    requires Aligned(head, newHead, [], p, KeepScripts)
    requires At(head, p).Some? && At(head, p).value.Element? && TagName(At(head, p).value.tag) == "SCRIPT"
    ensures At(Morph(head, newHead, [], KeepScripts), p) == At(head, p)
  {
    assert [] + p == p;
    MorphKeepsRefused(head, newHead, [], p, KeepScripts);
  }

  /**
   * The body patch as written never updates the active element it reaches;
   * when nothing is focused that element is the body, which then stays whole.
   */
  lemma BodyKeepsFocusAsWritten(body: Node, newBody: Node, focus: seq<nat>)
    requires Aligned(body, newBody, [], focus, KeepFocused(focus)) && At(body, focus).Some?
    ensures At(Morph(body, newBody, [], KeepFocused(focus)), focus) == At(body, focus)
    ensures focus == [] ==> Morph(body, newBody, [], KeepFocused(focus)) == body
  {
    assert [] + focus == focus;
    MorphKeepsRefused(body, newBody, [], focus, KeepFocused(focus));
  }

  /** The corrected body patch never updates the focused element, and updates everything when nothing is focused. */
  lemma BodyKeepsFocus(body: Node, newBody: Node, focus: seq<nat>)
    ensures focus != [] && Aligned(body, newBody, [], focus, KeepFocusedChild(focus)) && At(body, focus).Some? ==>
      At(Morph(body, newBody, [], KeepFocusedChild(focus)), focus) == At(body, focus)
    ensures focus == [] ==> Morph(body, newBody, [], KeepFocusedChild(focus)) == newBody
  {
    if focus != [] && Aligned(body, newBody, [], focus, KeepFocusedChild(focus)) && At(body, focus).Some? {
      assert [] + focus == focus;
      MorphKeepsRefused(body, newBody, [], focus, KeepFocusedChild(focus));
    }
    if focus == [] {
      MorphUnguarded(body, newBody, [], KeepFocusedChild(focus));
    }
  }

  // ---------------------------------------------------------------- the gate

  lemma MountedNotReady(srcdoc: string, content: Option<Doc>, scroll: (int, int))
    ensures var f := Mounted(srcdoc, content, scroll);
      !f.iframeReady && f.pendingUpdate.None? && f.patches == [] && f.srcdoc == srcdoc
  {
  }

  /** A full update marks the frame not ready, drops any pending update and replaces `srcdoc`; nothing is patched. */
  lemma FullUpdateReplaces(f: Frame, html: string, full: Json, parse: string -> Doc, fault: Fault)
    requires Truthy(full)
    ensures DomUpdate(f, html, full, parse, fault) == f.(iframeReady := false, pendingUpdate := None, srcdoc := html)
  {
  }

  /** Early incremental updates overwrite each other: only the latest is kept, and nothing is patched. */
  lemma {:induction false} EarlyUpdatesKeepLatest(f: Frame, updates: seq<string>, parse: string -> Doc)
    requires !f.iframeReady && updates != []
    ensures DeliverAll(f, updates, parse) == f.(pendingUpdate := Some(updates[|updates| - 1]))
    decreases |updates|
  {
    var f1 := DomUpdate(f, updates[0], JBool(false), parse, NoFault);
    if |updates| > 1 {
      EarlyUpdatesKeepLatest(f1, updates[1..], parse);
    }
  }

  /** Once ready, an incremental update is patched at once and nothing is stored. */
  lemma ReadyPatchesAtOnce(f: Frame, html: string, full: Json, parse: string -> Doc, fault: Fault)
    requires f.iframeReady && !Truthy(full)
    ensures var r := DomUpdate(f, html, full, parse, fault);
      r.patches == f.patches + [html] && r.pendingUpdate == f.pendingUpdate && r.iframeReady && r.srcdoc == f.srcdoc
  {
  }

  /** Loading applies the pending update once and clears it; a second load applies nothing. */
  lemma LoadFlushesOnce(f: Frame, d1: Option<Doc>, d2: Option<Doc>, parse: string -> Doc, fault1: Fault, fault2: Fault)
    ensures var r := OnLoad(f, d1, parse, fault1);
      r.iframeReady && r.srcdoc == f.srcdoc &&
      (f.pendingUpdate.Some? && f.pendingUpdate.value != "" ==>
        r.patches == f.patches + [f.pendingUpdate.value] && r.pendingUpdate.None?) &&
      (f.pendingUpdate.None? ==> r.patches == f.patches && r.pendingUpdate.None?)
    ensures f.pendingUpdate.Some? ==>
      var r := OnLoad(f, d1, parse, fault1);
      OnLoad(r, d2, parse, fault2).patches == r.patches
  {
  }

  /**
   * A patch never reloads the frame: the gate, `srcdoc` and the scroll position
   * stay; an inaccessible document or a failure at the head leaves the
   * document as it was, and a failure at the body leaves the body.
   */
  lemma PatchNeverReloads(f: Frame, html: string, parse: string -> Doc, fault: Fault, asWritten: bool)
    ensures var r := Patch(f, html, parse, fault, asWritten);
      r == f.(content := r.content, patches := f.patches + [html]) &&
      (f.content.None? || f.content.value.body.None? || fault.HeadFault? ==> r.content == f.content) &&
      (fault.BodyFault? && f.content.Some? ==> r.content.Some? && r.content.value.body == f.content.value.body)
  {
  }

  /** `scroll_to` moves the view only through an existing window that does not throw. */
  lemma ScrollOnlyThroughWindow(f: Frame, x: int, y: int, hasWindow: bool, throws: bool)
    ensures var r := ScrollTo(f, x, y, hasWindow, throws);
      r == f.(scroll := r.scroll) && (r.scroll == (x, y) || r.scroll == f.scroll) &&
      (hasWindow && !throws ==> r.scroll == (x, y)) && (!hasWindow || throws ==> r == f)
  {
  }

  // ---------------------------------------------------------------- the body patch when nothing is focused

  /**
   * As written, when nothing in the frame is focused (the active element is
   * the body), the body patch is refused at its root: the body stays exactly
   * as it was, whatever the update says.
   */
  lemma IncrementalDroppedAsWritten(f: Frame, html: string, parse: string -> Doc, a: map<string, string>, cs: seq<Node>)
    requires f.content.Some? && f.content.value.focus == []
    requires f.content.value.body == Some(Element("body", a, cs))
    requires parse(html).body.Some? && parse(html).body.value.Element? && parse(html).body.value.tag == "body"
    ensures ApplyMorphdom(f, html, parse, NoFault).content.value.body == f.content.value.body
  {
  }

  /** Corrected, the same patch makes the body the update's body. */
  lemma IncrementalAppliedCorrected(f: Frame, html: string, parse: string -> Doc)
    requires f.content.Some? && f.content.value.focus == [] && f.content.value.body.Some?
    requires parse(html).body.Some?
    ensures ApplyMorphdomCorrected(f, html, parse, NoFault).content.value.body == parse(html).body
  {
    var d := f.content.value;
    BodyKeepsFocus(d.body.value, parse(html).body.value, []);
  }
}
