/**
 * A reduction of the browser DOM to what the controls use: nodes with a kind,
 * an ordered child list and one text slot (`innerText`, `innerHTML` or a
 * textarea's `value`), plus `appendChild`, `removeChild` and `lastElementChild`.
 */
module Dom {
  import opened Host

  /** Element nodes carry a tag; text (and comment) nodes are not elements. */
  datatype NodeKind = Element(tag: string) | Text

  class Node {
    const kind: NodeKind
    var children: seq<Node>
    /** The string last written to the node; `None` when `undefined` was written. */
    var text: Option<string>

    /** `document.createElement(tag)`: a fresh element with no children and empty text. */
    constructor CreateElement(tag: string)
      ensures kind == Element(tag) && children == [] && text == Some("")
    {
      kind := Element(tag);
      children := [];
      text := Some("");
    }

    /** `lastElementChild`: the last child that is an element, or null. */
    function LastElementChild(): (r: Node?)
      reads this
      ensures r == LastElement(children)
      ensures r == null <==> NonElements(children) == children
      ensures r != null ==> r in children && r.kind.Element?
    {
      LastElementOf(children);
      LastElement(children)
    }

    /** `appendChild(child)` for a node that has no parent yet. */
    method AppendChild(child: Node)
      modifies this
      ensures children == old(children) + [child]
      ensures text == old(text)
    {
      children := children + [child];
    }

    /** `removeChild(child)`: the child leaves this node's child list. */
    method RemoveChild(child: Node)
      requires child in children
      modifies this
      ensures children == Without(old(children), child)
      ensures |children| < |old(children)|
      ensures text == old(text)
    {
      WithoutShrinks(children, child);
      children := Without(children, child);
    }
  }

  /** The last element of `s`, scanning from the end, or null when `s` holds none. */
  function LastElement(s: seq<Node>): (r: Node?)
  {
    if s == [] then null
    else if s[|s| - 1].kind.Element? then s[|s| - 1]
    else LastElement(s[..|s| - 1])
  }

  /** The children that are not elements, in their order. */
  function NonElements(s: seq<Node>): (r: seq<Node>)
    ensures |r| <= |s|
    ensures forall n :: n in r ==> n in s && !n.kind.Element?
  {
    if s == [] then []
    else if s[|s| - 1].kind.Element? then NonElements(s[..|s| - 1])
    else NonElements(s[..|s| - 1]) + [s[|s| - 1]]
  }

  /** `s` with every occurrence of `x` taken out (a DOM child list holds a node once). */
  function Without(s: seq<Node>, x: Node): (r: seq<Node>)
    ensures forall n :: n in r ==> n in s && n != x
    ensures forall n :: n in s && n != x ==> n in r
  {
    if s == [] then []
    else if s[|s| - 1] == x then Without(s[..|s| - 1], x)
    else Without(s[..|s| - 1], x) + [s[|s| - 1]]
  }

  /** `LastElement` finds an element of `s` exactly when `s` is not all non-elements. */
  lemma {:induction false} LastElementOf(s: seq<Node>)
    ensures LastElement(s) == null <==> NonElements(s) == s
    ensures LastElement(s) != null ==> LastElement(s) in s && LastElement(s).kind.Element?
  {
    if s != [] {
      LastElementOf(s[..|s| - 1]);
      if s[|s| - 1].kind.Element? {
        assert |NonElements(s)| < |s| by { NonElementsShorter(s, |s| - 1); }
      } else {
        assert s == s[..|s| - 1] + [s[|s| - 1]];
      }
    }
  }

  /** An element in `s` makes `NonElements(s)` strictly shorter than `s`. */
  lemma {:induction false} NonElementsShorter(s: seq<Node>, k: nat)
    requires k < |s| && s[k].kind.Element?
    ensures |NonElements(s)| < |s|
  {
    if k < |s| - 1 {
      NonElementsShorter(s[..|s| - 1], k);
    }
  }

  /** Removing a child that is present shortens the list. */
  lemma {:induction false} WithoutShrinks(s: seq<Node>, x: Node)
    requires x in s
    ensures |Without(s, x)| < |s|
  {
    var t := s[..|s| - 1];
    if s[|s| - 1] != x {
      assert x in t;
      WithoutShrinks(t, x);
    } else {
      WithoutNoLonger(t, x);
    }
  }

  lemma {:induction false} WithoutNoLonger(s: seq<Node>, x: Node)
    ensures |Without(s, x)| <= |s|
  {
    if s != [] {
      WithoutNoLonger(s[..|s| - 1], x);
    }
  }

  /** Removing an element child leaves the non-element children, and their order, as they were. */
  lemma {:induction false} WithoutKeepsNonElements(s: seq<Node>, x: Node)
    requires x.kind.Element?
    ensures NonElements(Without(s, x)) == NonElements(s)
  {
    if s != [] {
      var t := s[..|s| - 1];
      var last := s[|s| - 1];
      WithoutKeepsNonElements(t, x);
      if last != x {
        var w := Without(t, x) + [last];
        assert w[..|w| - 1] == Without(t, x);
      }
    }
  }

  /** A child list made only of elements has no non-element children. */
  lemma {:induction false} AllElementsNoNonElements(s: seq<Node>)
    requires forall n :: n in s ==> n.kind.Element?
    ensures NonElements(s) == []
  {
    if s != [] {
      AllElementsNoNonElements(s[..|s| - 1]);
    }
  }
}
