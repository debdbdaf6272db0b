// A parsed XML document, as the ElementTree library hands it to both validators,
// and the handful of path queries the validators run against it.
//
// Query forms used by the validators and how they are modelled here:
// n.find("X") / n.findall("X")      -- FindChild / ChildrenNamed (direct children only)
// n.find("X/Y/Z")                   -- FindPath (children of children, first match)
// root.findall(".//X")              -- DescendantsNamed (every element below root, document order)
// root.find(".//X/Y")               -- First(ChildPathAll(DescendantsNamed(root, "X"), ["Y"]))
// root.find(".//X[k]/Y")            -- the same over PositionedDescendants(root, "X", k)
// root.findall(".//*[@key]")        -- WithAttr(Descendants(root), key)
// A `.//` query never yields the element it starts from.
module XmlTree {

  datatype Option<+T> = None | Some(value: T)

  /** One element: its tag, its attributes, its text (None for an element without text)
      and its child elements in document order. */
  datatype Node = Node(name: string, attrs: map<string, string>, text: Option<string>, children: seq<Node>)

  /** `n.get(key)` */
  function Attr(n: Node, key: string): Option<string>
  {
    if key in n.attrs then Some(n.attrs[key]) else None
  }

  /** The element's text, with "" standing in for an absent text. The validators only read
      this where their precondition guarantees that the text is present. */
  function TextOr(n: Node): string
  {
    match n.text
    case Some(t) => t
    case None => ""
  }

  function First(ns: seq<Node>): Option<Node>
  {
    if ns == [] then None else Some(ns[0])
  }

  /** The elements of `ns` whose tag is `name`, in order. */
  function Named(ns: seq<Node>, name: string): (r: seq<Node>)
    ensures |r| <= |ns|
  {
    if ns == [] then []
    else Named(ns[..|ns| - 1], name) + (if ns[|ns| - 1].name == name then [ns[|ns| - 1]] else [])
  }

  /** Named keeps exactly the elements with that tag. */
  lemma {:induction false} NamedMembers(ns: seq<Node>, name: string, x: Node)
    ensures x in Named(ns, name) <==> x in ns && x.name == name
  {
    if ns != [] {
      NamedMembers(ns[..|ns| - 1], name, x);
      assert ns == ns[..|ns| - 1] + [ns[|ns| - 1]];
    }
  }

  /** The elements of `ns` that carry attribute `key`, in order (the `[@key]` predicate). */
  function WithAttr(ns: seq<Node>, key: string): (r: seq<Node>)
    ensures |r| <= |ns|
  {
    if ns == [] then []
    else WithAttr(ns[..|ns| - 1], key) + (if key in ns[|ns| - 1].attrs then [ns[|ns| - 1]] else [])
  }

  /** WithAttr keeps exactly the elements that carry the attribute. */
  lemma {:induction false} WithAttrMembers(ns: seq<Node>, key: string, x: Node)
    ensures x in WithAttr(ns, key) <==> x in ns && key in x.attrs
  {
    if ns != [] {
      WithAttrMembers(ns[..|ns| - 1], key, x);
      assert ns == ns[..|ns| - 1] + [ns[|ns| - 1]];
    }
  }

  /** `n.findall(name)` */
  function ChildrenNamed(n: Node, name: string): seq<Node>
  {
    Named(n.children, name)
  }

  /** `n.find(name)` */
  function FindChild(n: Node, name: string): Option<Node>
  {
    First(ChildrenNamed(n, name))
  }

  /** `n.findall("s0/s1/...")`: every element reached from `n` through children tagged
      s0, then s1, ..., in the order ElementTree yields them. */
  function ChildPath(n: Node, steps: seq<string>): (r: seq<Node>)
    ensures steps == [] ==> r == [n]
    decreases |steps|, 0, 0
  {
    if steps == [] then [n] else ChildPathAll(ChildrenNamed(n, steps[0]), steps[1..])
  }

  /** ChildPath from each of `ns` in turn, concatenated. */
  function ChildPathAll(ns: seq<Node>, steps: seq<string>): (r: seq<Node>)
    ensures steps == [] ==> r == ns
    decreases |steps|, 1, |ns|
  {
    if ns == [] then [] else ChildPath(ns[0], steps) + ChildPathAll(ns[1..], steps)
  }

  /** `n.find("s0/s1/...")` */
  function FindPath(n: Node, steps: seq<string>): Option<Node>
  {
    First(ChildPath(n, steps))
  }

  /** Every element strictly below `n`, in document (pre-)order: what `n.iter()` yields
      after `n` itself. Each of them is a proper part of `n`, so `n` is never among them. */
  function Descendants(n: Node): (ds: seq<Node>)
    ensures forall d :: d in ds ==> d < n
  {
    DescendantsFrom(n, 0)
  }

  /** The subtrees of children i, i+1, ... of `n`, each child before its own descendants. */
  function DescendantsFrom(n: Node, i: nat): (ds: seq<Node>)
    requires i <= |n.children|
    ensures forall d :: d in ds ==> d < n
    decreases n, |n.children| - i
  {
    if i == |n.children| then []
    else [n.children[i]] + DescendantsFrom(n.children[i], 0) + DescendantsFrom(n, i + 1)
  }

  /** `root.findall(".//name")` */
  function DescendantsNamed(n: Node, name: string): seq<Node>
  {
    Named(Descendants(n), name)
  }

  /** `root.find(".//name")` */
  function FindDescendant(n: Node, name: string): Option<Node>
  {
    First(DescendantsNamed(n, name))
  }

  /** `root.findall(".//name[k]")`: the elements below `n`, in document order, that are the
      k-th (counting from 1) child tagged `name` of their own parent. */
  function PositionedDescendants(n: Node, name: string, k: nat): seq<Node>
  {
    PositionedFrom(n, name, k, 0)
  }

  function PositionedFrom(n: Node, name: string, k: nat, i: nat): (r: seq<Node>)
    requires i <= |n.children|
    ensures forall x :: x in r ==> x.name == name && x < n
    decreases n, |n.children| - i
  {
    if i == |n.children| then []
    else
      var c := n.children[i];
      (if c.name == name && |Named(n.children[..i + 1], name)| == k then [c] else [])
      + PositionedFrom(c, name, k, 0) + PositionedFrom(n, name, k, i + 1)
  }

  /** The descendants of an element depend on its children only: its own tag, attributes
      and text are never looked at by a `.//` query. */
  lemma {:induction false} DescendantsIgnoreSelf(n: Node, m: Node, i: nat)
    requires n.children == m.children && i <= |n.children|
    ensures DescendantsFrom(n, i) == DescendantsFrom(m, i)
    decreases |n.children| - i
  {
    if i < |n.children| {
      DescendantsIgnoreSelf(n, m, i + 1);
    }
  }

  /** An element lies below `n` exactly when it is one of `n`'s children or lies below one:
      `.//` reaches the whole subtree, and only the subtree, and never `n` itself. */
  lemma DescendantsMembers(n: Node, x: Node)
    ensures x in Descendants(n) <==> exists c :: c in n.children && (x == c || x in Descendants(c))
  {
    DescendantsFromMembers(n, 0, x);
    if x in Descendants(n) {
      var j :| 0 <= j < |n.children| && (x == n.children[j] || x in Descendants(n.children[j]));
      assert n.children[j] in n.children;
    }
    if exists c :: c in n.children && (x == c || x in Descendants(c)) {
      var c :| c in n.children && (x == c || x in Descendants(c));
      var j :| 0 <= j < |n.children| && n.children[j] == c;
    }
  }

  lemma {:induction false} DescendantsFromMembers(n: Node, i: nat, x: Node)
    requires i <= |n.children|
    ensures x in DescendantsFrom(n, i) <==>
      exists j :: i <= j < |n.children| && (x == n.children[j] || x in Descendants(n.children[j]))
    decreases |n.children| - i
  {
    if i < |n.children| {
      DescendantsFromMembers(n, i + 1, x);
    }
  }

  /** Closure: every child of `n`, and everything below that child, is below `n`. */
  lemma DescendantsClosed(n: Node, c: Node, x: Node)
    requires c in n.children
    ensures c in Descendants(n)
    ensures x in Descendants(c) ==> x in Descendants(n)
  {
    DescendantsMembers(n, c);
    DescendantsMembers(n, x);
  }

  /** The tag filter distributes over concatenation. */
  lemma {:induction false} NamedAppend(a: seq<Node>, b: seq<Node>, name: string)
    ensures Named(a + b, name) == Named(a, name) + Named(b, name)
    decreases |b|
  {
    if b == [] {
      assert a + b == a;
    } else {
      var init := b[..|b| - 1];
      NamedAppend(a, init, name);
      var ab := a + b;
      assert ab[..|ab| - 1] == a + init && ab[|ab| - 1] == b[|b| - 1];
    }
  }

  /** `x` is the k-th (counting from 1) child of `p` tagged `name`. */
  predicate KthNamedChild(p: Node, name: string, k: nat, x: Node)
  {
    1 <= k <= |Named(p.children, name)| && x == Named(p.children, name)[k - 1]
  }

  /** The child at index j is the k-th child tagged `name` exactly when the tag filter over
      the children up to and including j ends with it at length k. */
  lemma KthAtIndex(cs: seq<Node>, name: string, k: nat, j: nat)
    requires j < |cs| && cs[j].name == name && |Named(cs[..j + 1], name)| == k
    ensures 1 <= k <= |Named(cs, name)| && Named(cs, name)[k - 1] == cs[j]
  {
    assert cs[..j + 1][..j] == cs[..j];
    assert Named(cs[..j + 1], name) == Named(cs[..j], name) + [cs[j]];
    NamedAppend(cs[..j + 1], cs[j + 1..], name);
    assert cs[..j + 1] + cs[j + 1..] == cs;
  }

  /** Conversely, the k-th child tagged `name` sits at some index j where the filter over the
      children up to j has length k. */
  lemma {:induction false} IndexOfKth(cs: seq<Node>, name: string, m: nat) returns (j: nat)
    requires m < |Named(cs, name)|
    ensures j < |cs| && cs[j].name == name && |Named(cs[..j + 1], name)| == m + 1 && cs[j] == Named(cs, name)[m]
  {
    var init := cs[..|cs| - 1];
    var last := if cs[|cs| - 1].name == name then [cs[|cs| - 1]] else [];
    assert Named(cs, name) == Named(init, name) + last;
    if m < |Named(init, name)| {
      j := IndexOfKth(init, name, m);
      assert init[..j + 1] == cs[..j + 1] && init[j] == cs[j];
    } else {
      j := |cs| - 1;
      assert cs[..j + 1] == cs;
    }
  }

  /** What `.//name[k]` collects at the j-th child of `n`: the child itself when it is the
      k-th child tagged `name`, and what it collects below that child. */
  predicate PositionedAt(n: Node, name: string, k: nat, j: nat, x: Node)
    requires j < |n.children|
  {
    || (n.children[j].name == name && |Named(n.children[..j + 1], name)| == k && x == n.children[j])
    || x in PositionedDescendants(n.children[j], name, k)
  }

  /** One step of PositionedFrom: the i-th child's contribution, then the rest. */
  lemma PositionedFromStep(n: Node, name: string, k: nat, i: nat, x: Node)
    requires i < |n.children|
    ensures x in PositionedFrom(n, name, k, i) <==> PositionedAt(n, name, k, i, x) || x in PositionedFrom(n, name, k, i + 1)
  {
    var c := n.children[i];
    var own := if c.name == name && |Named(n.children[..i + 1], name)| == k then [c] else [];
    assert PositionedFrom(n, name, k, i) == own + PositionedFrom(c, name, k, 0) + PositionedFrom(n, name, k, i + 1);
  }

  /** What child i does not contribute is collected from child i + 1 on. */
  lemma PositionedFromRest(n: Node, name: string, k: nat, i: nat, x: Node)
    requires i <= |n.children| && x in PositionedFrom(n, name, k, i) && (i < |n.children| ==> !PositionedAt(n, name, k, i, x))
    ensures i < |n.children| && x in PositionedFrom(n, name, k, i + 1)
  {
    PositionedFromStep(n, name, k, i, x);
  }

  /** What PositionedFrom collects from child i on comes from some child j >= i. */
  lemma {:induction false} PositionedFromSound(n: Node, name: string, k: nat, i: nat, x: Node) returns (j: nat)
    requires i <= |n.children| && x in PositionedFrom(n, name, k, i)
    ensures i <= j < |n.children| && PositionedAt(n, name, k, j, x)
    decreases |n.children| - i
  {
    if PositionedAt(n, name, k, i, x) {
      j := i;
    } else {
      PositionedFromRest(n, name, k, i, x);
      j := PositionedFromSound(n, name, k, i + 1, x);
    }
  }

  /** Collecting from child i on takes in everything collected from child i + 1 on. */
  lemma PositionedFromTail(n: Node, name: string, k: nat, i: nat, x: Node)
    requires i < |n.children| && x in PositionedFrom(n, name, k, i + 1)
    ensures x in PositionedFrom(n, name, k, i)
  {
    var c := n.children[i];
    var own := if c.name == name && |Named(n.children[..i + 1], name)| == k then [c] else [];
    assert PositionedFrom(n, name, k, i) == own + PositionedFrom(c, name, k, 0) + PositionedFrom(n, name, k, i + 1);
  }

  /** What child j contributes is collected by PositionedFrom from any child i <= j on. */
  lemma {:induction false} PositionedFromComplete(n: Node, name: string, k: nat, i: nat, j: nat, x: Node)
    requires i <= j < |n.children| && PositionedAt(n, name, k, j, x)
    ensures x in PositionedFrom(n, name, k, i)
    decreases j - i
  {
    if i < j {
      PositionedFromComplete(n, name, k, i + 1, j, x);
      PositionedFromTail(n, name, k, i, x);
    } else {
      PositionedFromStep(n, name, k, i, x);
    }
  }

  /** Everything `.//name[k]` selects is the k-th child tagged `name` of the starting element
      or of an element below it. */
  lemma {:induction false} PositionedSound(n: Node, name: string, k: nat, x: Node)
    requires x in PositionedDescendants(n, name, k)
    ensures KthNamedChild(n, name, k, x) || exists p :: p in Descendants(n) && KthNamedChild(p, name, k, x)
    decreases n
  {
    var cs := n.children;
    var j := PositionedFromSound(n, name, k, 0, x);
    if cs[j].name == name && |Named(cs[..j + 1], name)| == k && x == cs[j] {
      KthAtIndex(cs, name, k, j);
    } else {
      PositionedSound(cs[j], name, k, x);
      assert cs[j] in cs;
      if KthNamedChild(cs[j], name, k, x) {
        DescendantsClosed(n, cs[j], cs[j]);
      } else {
        var p :| p in Descendants(cs[j]) && KthNamedChild(p, name, k, x);
        DescendantsClosed(n, cs[j], p);
      }
    }
  }

  /** The k-th child tagged `name` of the starting element, or of any element below it, is
      selected by `.//name[k]`. */
  lemma {:induction false} PositionedComplete(n: Node, name: string, k: nat, p: Node, x: Node)
    requires p == n || p in Descendants(n)
    requires KthNamedChild(p, name, k, x)
    ensures x in PositionedDescendants(n, name, k)
    decreases n
  {
    var cs := n.children;
    if p == n {
      var j := IndexOfKth(cs, name, k - 1);
      PositionedFromComplete(n, name, k, 0, j, x);
    } else {
      DescendantsMembers(n, p);
      var c :| c in cs && (p == c || p in Descendants(c));
      var j :| 0 <= j < |cs| && cs[j] == c;
      PositionedComplete(c, name, k, p, x);
      PositionedFromComplete(n, name, k, 0, j, x);
    }
  }

  /** `.//name[k]` selects, for the starting element and every element below it, that
      element's k-th child tagged `name`, by position among its siblings and whatever its
      attributes say. */
  lemma PositionedMembers(n: Node, name: string, k: nat, x: Node)
    ensures x in PositionedDescendants(n, name, k) <==>
      KthNamedChild(n, name, k, x) || exists p :: p in Descendants(n) && KthNamedChild(p, name, k, x)
  {
    if x in PositionedDescendants(n, name, k) {
      PositionedSound(n, name, k, x);
    }
    if KthNamedChild(n, name, k, x) {
      PositionedComplete(n, name, k, n, x);
    } else if exists p :: p in Descendants(n) && KthNamedChild(p, name, k, x) {
      var p :| p in Descendants(n) && KthNamedChild(p, name, k, x);
      PositionedComplete(n, name, k, p, x);
    }
  }
}
