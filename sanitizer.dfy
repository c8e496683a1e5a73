// `captureDOM` of the content script: a clone of the document passes through
// `stripSensitiveData`, script and noscript removal, `convertToAbsoluteUrls`
// and the insertion of a `<base>` element, then is serialized after a doctype.
// The clone is modelled as an immutable tree and every pass as a function
// from tree to tree.

module Sanitizer {
  import opened Wrappers
  import opened Seqs
  import opened TextOps

  /** A DOM node: an element (lower-case local name, attributes, children) or character data. */
  datatype Node = Element(tag: string, attrs: map<string, string>, children: seq<Node>) | Text(text: string)

  /** `new URL(url, base).href`, or None where the constructor throws. */
  type Resolver = (string, string) -> Option<string>

  /** A test on an element's name and attributes, as a CSS selector makes one. */
  type Test = (string, map<string, string>) -> bool

  predicate Anything(tag: string, attrs: map<string, string>) { true }

  /** Every element of the tree, this one included, passes `p`. */
  predicate Every(n: Node, p: Test) {
    match n
    case Text(_) => true
    case Element(t, a, cs) => p(t, a) && forall i :: 0 <= i < |cs| ==> Every(cs[i], p)
  }

  predicate EveryIn(ns: seq<Node>, p: Test) {
    forall i :: 0 <= i < |ns| ==> Every(ns[i], p)
  }

  lemma {:induction false} EveryAnything(n: Node)
    ensures Every(n, Anything)
  {
    if n.Element? {
      forall i | 0 <= i < |n.children| ensures Every(n.children[i], Anything) {
        EveryAnything(n.children[i]);
      }
    }
  }

  // ---------------------------------------------------------------- generic passes

  /** `querySelectorAll(sel).forEach(el => set attributes)`: every element's attributes rewritten by `f`. */
  function MapAttrs(n: Node, f: (string, map<string, string>) -> map<string, string>): Node {
    match n
    case Text(_) => n
    case Element(t, a, cs) => Element(t, f(t, a), seq(|cs|, i requires 0 <= i < |cs| => MapAttrs(cs[i], f)))
  }

  function MapAttrsIn(ns: seq<Node>, f: (string, map<string, string>) -> map<string, string>): (r: seq<Node>)
    ensures |r| == |ns|
  {
    seq(|ns|, i requires 0 <= i < |ns| => MapAttrs(ns[i], f))
  }

  predicate Dropped(n: Node, drop: Test) {
    n.Element? && drop(n.tag, n.attrs)
  }

  /** `querySelectorAll(sel).forEach(el => el.remove())`: every matching element goes, with its subtree. */
  function Prune(n: Node, drop: Test): Node {
    match n
    case Text(_) => n
    case Element(t, a, cs) => Element(t, a, PruneIn(cs, drop))
  }

  function PruneIn(ns: seq<Node>, drop: Test): seq<Node> {
    Filter(seq(|ns|, i requires 0 <= i < |ns| => Prune(ns[i], drop)), (m: Node) => !Dropped(m, drop))
  }

  /** An attribute pass establishes `q` wherever `p` held. */
  lemma {:induction false} MapAttrsEvery(n: Node, f: (string, map<string, string>) -> map<string, string>, p: Test, q: Test)
    requires forall t, a :: p(t, a) ==> q(t, f(t, a))
    requires Every(n, p)
    ensures Every(MapAttrs(n, f), q)
  {
    if n.Element? {
      forall i | 0 <= i < |n.children| ensures Every(MapAttrs(n.children[i], f), q) {
        MapAttrsEvery(n.children[i], f, p, q);
      }
    }
  }

  lemma MapAttrsEveryIn(ns: seq<Node>, f: (string, map<string, string>) -> map<string, string>, p: Test, q: Test)
    requires forall t, a :: p(t, a) ==> q(t, f(t, a))
    requires EveryIn(ns, p)
    ensures EveryIn(MapAttrsIn(ns, f), q)
  {
    forall i | 0 <= i < |ns| ensures Every(MapAttrsIn(ns, f)[i], q) {
      MapAttrsEvery(ns[i], f, p, q);
    }
  }

  /** After a removal pass no element below the root matches, and `p` still holds. */
  lemma {:induction false} PruneEvery(n: Node, drop: Test, p: Test, q: Test)
    requires forall t, a :: p(t, a) && !drop(t, a) ==> q(t, a)
    requires Every(n, p) && !Dropped(n, drop)
    ensures Every(Prune(n, drop), q)
  {
    if n.Element? {
      PruneEveryIn(n.children, drop, p, q);
    }
  }

  lemma {:induction false} PruneEveryIn(ns: seq<Node>, drop: Test, p: Test, q: Test)
    requires forall t, a :: p(t, a) && !drop(t, a) ==> q(t, a)
    requires EveryIn(ns, p)
    ensures EveryIn(PruneIn(ns, drop), q)
  {
    var mapped := seq(|ns|, i requires 0 <= i < |ns| => Prune(ns[i], drop));
    var keep := (m: Node) => !Dropped(m, drop);
    forall i | 0 <= i < |PruneIn(ns, drop)| ensures Every(PruneIn(ns, drop)[i], q) {
      var m := PruneIn(ns, drop)[i];
      FilterMembers(mapped, keep, m);
      var j :| 0 <= j < |mapped| && mapped[j] == m;
      PruneEvery(ns[j], drop, p, q);
    }
  }

  /** A removal pass leaves a forest with nothing to remove as it is. */
  lemma {:induction false} PruneNothing(n: Node, drop: Test, p: Test)
    requires forall t, a :: p(t, a) ==> !drop(t, a)
    requires Every(n, p)
    ensures Prune(n, drop) == n
  {
    if n.Element? {
      PruneNothingIn(n.children, drop, p);
    }
  }

  lemma {:induction false} PruneNothingIn(ns: seq<Node>, drop: Test, p: Test)
    requires forall t, a :: p(t, a) ==> !drop(t, a)
    requires EveryIn(ns, p)
    ensures PruneIn(ns, drop) == ns
  {
    var mapped := seq(|ns|, i requires 0 <= i < |ns| => Prune(ns[i], drop));
    forall i | 0 <= i < |ns| ensures mapped[i] == ns[i] {
      PruneNothing(ns[i], drop, p);
    }
    assert mapped == ns;
    FilterAll(mapped, (m: Node) => !Dropped(m, drop));
  }

  // ---------------------------------------------------------------- stripSensitiveData

  function Attr(a: map<string, string>, name: string): Option<string> {
    if name in a then Some(a[name]) else None
  }

  /** `input[type="password"]`, `input[type="email"]` and `input[autocomplete="cc-number" | "cc-csc" | "cc-exp"]`. */
  predicate SensitiveInput(tag: string, a: map<string, string>) {
    tag == "input" &&
    (Attr(a, "type") in {Some("password"), Some("email")} ||
     Attr(a, "autocomplete") in {Some("cc-number"), Some("cc-csc"), Some("cc-exp")})
  }

  /** `el.value = ''; el.setAttribute('value', '')` on sensitive inputs. */
  function ClearValue(tag: string, a: map<string, string>): map<string, string> {
    if SensitiveInput(tag, a) then a["value" := ""] else a
  }

  /** `[data-sensitive], [data-coview-hide]`. */
  predicate Hidden(tag: string, a: map<string, string>) {
    "data-sensitive" in a || "data-coview-hide" in a
  }

  predicate IsScript(tag: string, a: map<string, string>) { tag == "script" }

  predicate IsNoscript(tag: string, a: map<string, string>) { tag == "noscript" }

  predicate Cleared(tag: string, a: map<string, string>) {
    SensitiveInput(tag, a) ==> Attr(a, "value") == Some("")
  }

  predicate ClearedShown(tag: string, a: map<string, string>) {
    Cleared(tag, a) && !Hidden(tag, a)
  }

  predicate ClearedNoScript(tag: string, a: map<string, string>) {
    ClearedShown(tag, a) && !IsScript(tag, a)
  }

  /** What a shared snapshot guarantees of every element below the root. */
  predicate Safe(tag: string, a: map<string, string>) {
    ClearedNoScript(tag, a) && !IsNoscript(tag, a)
  }

  // ---------------------------------------------------------------- convertToAbsoluteUrls

  /** The `href` rule: empty values and `data:`, `javascript:` and `#` values stay; others resolve, or stay when resolution throws. */
  function RewriteHref(v: string, base: string, resolve: Resolver): string {
    if v != "" && !StartsWith(v, "data:") && !StartsWith(v, "javascript:") && !StartsWith(v, "#") then
      match resolve(v, base)
      case Some(abs) => abs
      case None => v
    else v
  }

  /** The `src` rule: empty and `data:` values stay. */
  function RewriteSrc(v: string, base: string, resolve: Resolver): string {
    if v != "" && !StartsWith(v, "data:") then
      match resolve(v, base)
      case Some(abs) => abs
      case None => v
    else v
  }

  /**
   * One comma-separated candidate of a `srcset`: its first word resolved,
   * then its second word (the descriptor) if any; the candidate untouched
   * when resolution throws.
   */
  function RewriteSrcsetPart(part: string, base: string, resolve: Resolver): string {
    var words := SplitSpaces(Trim(part));
    var descriptor := if |words| > 1 then words[1] else "";
    match resolve(words[0], base)
    case Some(abs) => if descriptor != "" then abs + " " + descriptor else abs
    case None => part
  }

  /** The `srcset` rule: split on commas, rewrite each candidate, rejoin with ", ". */
  function RewriteSrcset(v: string, base: string, resolve: Resolver): string {
    var parts := Split(v, ',');
    Join(seq(|parts|, i requires 0 <= i < |parts| => RewriteSrcsetPart(parts[i], base, resolve)), ", ")
  }

  function RewriteAttr(a: map<string, string>, name: string, rule: string -> string): (r: map<string, string>)
    ensures r.Keys == a.Keys && forall k :: k in a && k != name ==> r[k] == a[k]
  {
    if name in a then a[name := rule(a[name])] else a
  }

  function HrefPass(base: string, resolve: Resolver): (string, map<string, string>) -> map<string, string> {
    (t: string, a: map<string, string>) => RewriteAttr(a, "href", v => RewriteHref(v, base, resolve))
  }

  function SrcPass(base: string, resolve: Resolver): (string, map<string, string>) -> map<string, string> {
    (t: string, a: map<string, string>) => RewriteAttr(a, "src", v => RewriteSrc(v, base, resolve))
  }

  function SrcsetPass(base: string, resolve: Resolver): (string, map<string, string>) -> map<string, string> {
    (t: string, a: map<string, string>) =>
      RewriteAttr(a, "srcset", v => if v != "" then RewriteSrcset(v, base, resolve) else v)
  }

  /** The `href` values the pass leaves alone: empty, `data:`, `javascript:` and in-page `#` links. */
  predicate KeptHref(v: string) {
    v == "" || StartsWith(v, "data:") || StartsWith(v, "javascript:") || StartsWith(v, "#")
  }

  /**
   * The `href` pass on one element: only `href` changes; a kept value stays,
   * any other becomes its absolute URL, or stays when it does not resolve.
   */
  lemma HrefPassRule(t: string, a: map<string, string>, base: string, resolve: Resolver)
    ensures var r := HrefPass(base, resolve)(t, a);
      r.Keys == a.Keys && (forall k :: k in a && k != "href" ==> r[k] == a[k]) &&
      ("href" in a ==> var v := a["href"];
        (KeptHref(v) ==> r["href"] == v) &&
        (!KeptHref(v) && resolve(v, base).Some? ==> r["href"] == resolve(v, base).value) &&
        (!KeptHref(v) && resolve(v, base).None? ==> r["href"] == v))
  {
  }

  /**
   * The `src` pass on one element: only `src` changes; an empty or `data:`
   * value stays, any other becomes its absolute URL, or stays when it does not resolve.
   */
  lemma SrcPassRule(t: string, a: map<string, string>, base: string, resolve: Resolver)
    ensures var r := SrcPass(base, resolve)(t, a);
      r.Keys == a.Keys && (forall k :: k in a && k != "src" ==> r[k] == a[k]) &&
      ("src" in a ==> var v := a["src"];
        (v == "" || StartsWith(v, "data:") ==> r["src"] == v) &&
        (v != "" && !StartsWith(v, "data:") && resolve(v, base).Some? ==> r["src"] == resolve(v, base).value) &&
        (v != "" && !StartsWith(v, "data:") && resolve(v, base).None? ==> r["src"] == v))
  {
  }

  /** Rewriting one URL attribute keeps a safe element safe. */
  lemma RewriteKeepsSafe(t: string, a: map<string, string>, name: string, rule: string -> string)
    requires name in {"href", "src", "srcset"} && Safe(t, a)
    ensures Safe(t, RewriteAttr(a, name, rule))
  {
    var r := RewriteAttr(a, name, rule);
    assert Attr(r, "type") == Attr(a, "type") && Attr(r, "autocomplete") == Attr(a, "autocomplete");
    assert Attr(r, "value") == Attr(a, "value");
  }

  /**
   * A candidate `url descriptor`, padded with any white space, becomes the
   * resolved URL, one space, and the same descriptor.
   */
  lemma SrcsetPartKeepsDescriptor(lead: string, u: string, sp: string, d: string, trail: string, base: string, resolve: Resolver)
    requires AllSpace(lead) && AllSpace(sp) && sp != [] && AllSpace(trail)
    requires NoSpace(u) && u != [] && NoSpace(d) && d != []
    requires resolve(u, base).Some?
    ensures RewriteSrcsetPart(lead + u + sp + d + trail, base, resolve) == resolve(u, base).value + " " + d
  {
    var core := u + sp + d;
    assert lead + u + sp + d + trail == lead + core + trail;
    TrimPadded(lead, core, trail);
    SplitSpacesPair(u, sp, d);
  }

  /** A candidate with no descriptor becomes just the resolved URL. */
  lemma SrcsetPartAlone(lead: string, u: string, trail: string, base: string, resolve: Resolver)
    requires AllSpace(lead) && AllSpace(trail) && NoSpace(u) && u != []
    requires resolve(u, base).Some?
    ensures RewriteSrcsetPart(lead + u + trail, base, resolve) == resolve(u, base).value
  {
    TrimPadded(lead, u, trail);
    SplitSpacesWord(u);
  }

  /** A `srcset` of comma-free candidates is rewritten candidate by candidate, in order, joined by ", ". */
  lemma SrcsetByCandidate(parts: seq<string>, base: string, resolve: Resolver)
    requires |parts| >= 1 && forall i :: 0 <= i < |parts| ==> ',' !in parts[i]
    ensures RewriteSrcset(Join(parts, ","), base, resolve)
         == Join(seq(|parts|, i requires 0 <= i < |parts| => RewriteSrcsetPart(parts[i], base, resolve)), ", ")
  {
    SplitJoin(parts, ',');
  }

  // ---------------------------------------------------------------- base element

  /** `clone.querySelector('head')`: the first `head` below the root, in document order. */
  function FirstHead(ns: seq<Node>): (r: Option<Node>)
    ensures r.Some? ==> r.value.Element? && r.value.tag == "head"
  {
    if ns == [] then None
    else if ns[0].Element? && ns[0].tag == "head" then Some(ns[0])
    else if ns[0].Element? && FirstHead(ns[0].children).Some? then FirstHead(ns[0].children)
    else FirstHead(ns[1..])
  }

  /** `head.insertBefore(baseTag, head.firstChild)` on the first head, if there is one. */
  function InsertBase(ns: seq<Node>, base: Node): seq<Node> {
    if ns == [] then []
    else if ns[0].Element? && ns[0].tag == "head" then [ns[0].(children := [base] + ns[0].children)] + ns[1..]
    else if ns[0].Element? && FirstHead(ns[0].children).Some? then
      [ns[0].(children := InsertBase(ns[0].children, base))] + ns[1..]
    else [ns[0]] + InsertBase(ns[1..], base)
  }

  /** The base element ends first in the first head; without a head nothing changes. */
  lemma {:induction false} InsertBaseFirstInHead(ns: seq<Node>, base: Node)
    ensures FirstHead(ns).None? ==> InsertBase(ns, base) == ns
    ensures FirstHead(ns).Some? ==>
      var h := FirstHead(ns).value;
      FirstHead(InsertBase(ns, base)) == Some(h.(children := [base] + h.children))
  {
    if ns != [] {
      InsertBaseFirstInHead(ns[1..], base);
      if ns[0].Element? {
        InsertBaseFirstInHead(ns[0].children, base);
      }
      if !(ns[0].Element? && ns[0].tag == "head") && !(ns[0].Element? && FirstHead(ns[0].children).Some?) {
        assert ns == [ns[0]] + ns[1..];
        assert ([ns[0]] + InsertBase(ns[1..], base))[1..] == InsertBase(ns[1..], base);
      } else if !(ns[0].Element? && ns[0].tag == "head") {
        var r := InsertBase(ns, base);
        assert r[0].children == InsertBase(ns[0].children, base);
      }
    }
  }

  /** Inserting an element that passes `p` keeps every element passing `p`. */
  lemma {:induction false} InsertBaseEvery(ns: seq<Node>, base: Node, p: Test)
    requires EveryIn(ns, p) && Every(base, p)
    ensures EveryIn(InsertBase(ns, base), p)
  {
    if ns != [] {
      InsertBaseEvery(ns[1..], base, p);
      if ns[0].Element? {
        InsertBaseEvery(ns[0].children, base, p);
        var h := ns[0].(children := [base] + ns[0].children);
        assert Every(h, p) by {
          forall i | 0 <= i < |h.children| ensures Every(h.children[i], p) {
            if i > 0 { assert h.children[i] == ns[0].children[i - 1]; }
          }
        }
      }
      var r := InsertBase(ns, base);
      forall i | 0 <= i < |r| ensures Every(r[i], p) {
        if i > 0 {
          if (ns[0].Element? && ns[0].tag == "head") || (ns[0].Element? && FirstHead(ns[0].children).Some?) {
            assert r[i] == ns[i];
          } else {
            assert r[i] == InsertBase(ns[1..], base)[i - 1];
          }
        }
      }
    }
  }

  // ---------------------------------------------------------------- captureDOM

  /** The page as the content script sees it. */
  datatype Page = Page(root: Node, href: string, origin: string,
                       innerWidth: int, innerHeight: int, scrollX: int, scrollY: int)

  /** The passes of `captureDOM` over the children of the document element, in source order. */
  function SanitizeChildren(ns: seq<Node>, href: string, origin: string, resolve: Resolver): seq<Node> {
    var cleared := MapAttrsIn(ns, ClearValue);
    var shown := PruneIn(cleared, Hidden);
    var noScript := PruneIn(shown, IsScript);
    var noNoscript := PruneIn(noScript, IsNoscript);
    var hrefs := MapAttrsIn(noNoscript, HrefPass(href, resolve));
    var srcs := MapAttrsIn(hrefs, SrcPass(href, resolve));
    var srcsets := MapAttrsIn(srcs, SrcsetPass(href, resolve));
    InsertBase(srcsets, BaseElement(origin))
  }

  function BaseElement(origin: string): Node {
    Element("base", map["href" := origin], [])
  }

  /**
   * The clone with its children sanitized; the document element itself is not
   * matched by `querySelectorAll` and keeps its own attributes.
   */
  function SanitizedClone(page: Page, resolve: Resolver): Node {
    match page.root
    case Text(_) => page.root
    case Element(t, a, cs) => Element(t, a, SanitizeChildren(cs, page.href, page.origin, resolve))
  }

  /** `captureDOM()`: the doctype, then the serialized sanitized clone. */
  function CaptureDom(page: Page, resolve: Resolver, serialize: Node -> string): (html: string)
    ensures StartsWith(html, "<!DOCTYPE html>")
  {
    "<!DOCTYPE html>" + serialize(SanitizedClone(page, resolve))
  }

  /**
   * Below the document element, a snapshot holds no script, no noscript, no
   * element marked `data-sensitive` or `data-coview-hide`, and every
   * password, email or card input has an empty value.
   */
  lemma SanitizedIsSafe(ns: seq<Node>, href: string, origin: string, resolve: Resolver)
    ensures EveryIn(SanitizeChildren(ns, href, origin, resolve), Safe)
  {
    var noNoscript := PruneIn(PruneIn(PruneIn(MapAttrsIn(ns, ClearValue), Hidden), IsScript), IsNoscript);
    RemovalIsSafe(ns);
    UrlPassesKeepSafe(noNoscript, href, resolve);
    var srcsets := MapAttrsIn(MapAttrsIn(MapAttrsIn(noNoscript, HrefPass(href, resolve)), SrcPass(href, resolve)), SrcsetPass(href, resolve));
    InsertBaseEvery(srcsets, BaseElement(origin), Safe);
  }

  /** Clearing, then the three removal passes. */
  lemma RemovalIsSafe(ns: seq<Node>)
    ensures EveryIn(PruneIn(PruneIn(PruneIn(MapAttrsIn(ns, ClearValue), Hidden), IsScript), IsNoscript), Safe)
  {
    forall i | 0 <= i < |ns| ensures Every(ns[i], Anything) { EveryAnything(ns[i]); }
    MapAttrsEveryIn(ns, ClearValue, Anything, Cleared);
    var cleared := MapAttrsIn(ns, ClearValue);
    PruneEveryIn(cleared, Hidden, Cleared, ClearedShown);
    var shown := PruneIn(cleared, Hidden);
    PruneEveryIn(shown, IsScript, ClearedShown, ClearedNoScript);
    var noScript := PruneIn(shown, IsScript);
    PruneEveryIn(noScript, IsNoscript, ClearedNoScript, Safe);
  }

  /** The three URL passes keep every element safe. */
  lemma UrlPassesKeepSafe(ns: seq<Node>, href: string, resolve: Resolver)
    requires EveryIn(ns, Safe)
    ensures EveryIn(MapAttrsIn(MapAttrsIn(MapAttrsIn(ns, HrefPass(href, resolve)), SrcPass(href, resolve)), SrcsetPass(href, resolve)), Safe)
  {
    forall t, a | Safe(t, a) ensures Safe(t, HrefPass(href, resolve)(t, a)) {
      RewriteKeepsSafe(t, a, "href", v => RewriteHref(v, href, resolve));
    }
    MapAttrsEveryIn(ns, HrefPass(href, resolve), Safe, Safe);
    var hrefs := MapAttrsIn(ns, HrefPass(href, resolve));
    forall t, a | Safe(t, a) ensures Safe(t, SrcPass(href, resolve)(t, a)) {
      RewriteKeepsSafe(t, a, "src", v => RewriteSrc(v, href, resolve));
    }
    MapAttrsEveryIn(hrefs, SrcPass(href, resolve), Safe, Safe);
    var srcs := MapAttrsIn(hrefs, SrcPass(href, resolve));
    forall t, a | Safe(t, a) ensures Safe(t, SrcsetPass(href, resolve)(t, a)) {
      RewriteKeepsSafe(t, a, "srcset", v => if v != "" then RewriteSrcset(v, href, resolve) else v);
    }
    MapAttrsEveryIn(srcs, SrcsetPass(href, resolve), Safe, Safe);
  }

  /** An element nothing matches: no script, no noscript, no hiding marker, no sensitive input. */
  predicate Plain(tag: string, a: map<string, string>) {
    !Hidden(tag, a) && !IsScript(tag, a) && !IsNoscript(tag, a) && !SensitiveInput(tag, a)
  }

  /** An attribute pass that changes no attribute of the elements present changes nothing. */
  lemma {:induction false} MapAttrsIdentity(n: Node, f: (string, map<string, string>) -> map<string, string>, p: Test)
    requires forall t, a :: p(t, a) ==> f(t, a) == a
    requires Every(n, p)
    ensures MapAttrs(n, f) == n
  {
    if n.Element? {
      forall i | 0 <= i < |n.children| ensures MapAttrs(n.children[i], f) == n.children[i] {
        MapAttrsIdentity(n.children[i], f, p);
      }
      assert seq(|n.children|, i requires 0 <= i < |n.children| => MapAttrs(n.children[i], f)) == n.children;
    }
  }

  /** `stripSensitiveData` and the removals take nothing from, and change nothing in, a page with nothing to hide. */
  lemma RemovalKeepsPlainPage(ns: seq<Node>)
    requires EveryIn(ns, Plain)
    ensures PruneIn(PruneIn(PruneIn(MapAttrsIn(ns, ClearValue), Hidden), IsScript), IsNoscript) == ns
  {
    forall i | 0 <= i < |ns| ensures MapAttrs(ns[i], ClearValue) == ns[i] {
      MapAttrsIdentity(ns[i], ClearValue, Plain);
    }
    assert MapAttrsIn(ns, ClearValue) == ns;
    PruneNothingIn(ns, Hidden, Plain);
    PruneNothingIn(ns, IsScript, Plain);
    PruneNothingIn(ns, IsNoscript, Plain);
  }
}
