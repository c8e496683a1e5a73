// The patch the viewer applies to its iframe: a positional model of morphdom
// that keeps the one thing the hook decides, the `onBeforeElUpdated` guard. An
// element the guard refuses is left exactly as it is, children included; every
// other element takes the attributes and children of its counterpart.

module Morphing {
  import opened Wrappers
  import opened Sanitizer

  /** `element.tagName` for an HTML element: the tag with ASCII letters upper-cased. */
  function TagName(tag: string): (r: string)
    ensures |r| == |tag|
    ensures forall i :: 0 <= i < |r| ==> !('a' <= r[i] <= 'z')
    ensures forall i :: 0 <= i < |r| && !('a' <= tag[i] <= 'z') ==> r[i] == tag[i]
  {
    seq(|tag|, i requires 0 <= i < |tag| => if 'a' <= tag[i] <= 'z' then (tag[i] as int - 32) as char else tag[i])
  }

  /**
   * The `onBeforeElUpdated` callbacks, by what they refuse. An element is
   * addressed by its path of child positions from the patched root; `focus`
   * is the path of `activeElement`, which is the body itself (`[]`) when
   * nothing inside is focused.
   */
  datatype Guard =
    | KeepScripts                       // the head patch: refuse SCRIPT elements
    | KeepFocused(focus: seq<nat>)      // the body patch as written: refuse the active element
    | KeepFocusedChild(focus: seq<nat>) // the body patch corrected: refuse the active element unless it is the body

  /** Whether the callback lets morphdom update `n`, found at `path`. */
  predicate MayUpdate(g: Guard, path: seq<nat>, n: Node) {
    match g
    case KeepScripts => !(n.Element? && TagName(n.tag) == "SCRIPT")
    case KeepFocused(f) => path != f
    case KeepFocusedChild(f) => path == [] || path != f
  }

  /** `morphdom(from, to, { onBeforeElUpdated })`, with children matched by position. */
  function Morph(from: Node, to: Node, path: seq<nat>, g: Guard): Node {
    if from.Text? || to.Text? || from.tag != to.tag then to
    else if !MayUpdate(g, path, from) then from
    else Element(from.tag, to.attrs, MorphChildren(from.children, to.children, path, g))
  }

  /** The new children: matched ones morphed, extra new ones added, extra old ones removed. */
  function MorphChildren(fs: seq<Node>, ts: seq<Node>, path: seq<nat>, g: Guard): (r: seq<Node>)
    ensures |r| == |ts|
  {
    seq(|ts|, i requires 0 <= i < |ts| => if i < |fs| then Morph(fs[i], ts[i], path + [i], g) else ts[i])
  }

  /** The node at a path of child positions. */
  function At(n: Node, p: seq<nat>): Option<Node>
    decreases |p|
  {
    if p == [] then Some(n)
    else if n.Element? && p[0] < |n.children| then At(n.children[p[0]], p[1..])
    else None
  }

  /**
   * Along `p` the old and the new tree have elements with the same tag, and
   * the guard lets every element strictly above the end of `p` be updated:
   * morphdom reaches the end of `p` and asks the guard about it.
   */
  predicate Aligned(from: Node, to: Node, base: seq<nat>, p: seq<nat>, g: Guard)
    decreases |p|
  {
    from.Element? && to.Element? && from.tag == to.tag &&
    (p != [] ==>
      MayUpdate(g, base, from) && p[0] < |from.children| && p[0] < |to.children| &&
      Aligned(from.children[p[0]], to.children[p[0]], base + [p[0]], p[1..], g))
  }
}
