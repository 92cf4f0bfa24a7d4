/**
 The order in which `subtree` lists a tree, and how deep `depth_of` says each member is
 (app/services/hierarchy_service.py). Parents come before children and siblings by age on any
 graph; on a forest the walk is plain recursive pre-order, without a visited set.
 */
module HierarchyOrder {
  import opened Wrappers
  import opened Hierarchy
  import opened HierarchyWalk

  // ------------------------------------------------------------------ parents first

  lemma {:induction false} ParentsFirst(t: Tree, todo: seq<nat>, seen: set<nat>, i: nat)
    requires WellFormed(t) && i < |Visit(t, todo, seen)|
    ensures var r := Visit(t, todo, seen);
            r[i] in todo || (Up(t.nodes, r[i]).Some? && Up(t.nodes, r[i]).value in r[..i])
    decreases t.nodes.Keys - seen, |todo|
  {
    var r := Visit(t, todo, seen);
    var c := todo[0];
    var head := Head(t, c, seen);
    VisitHead(t, todo, seen);
    HeadSeen(t, c, seen);
    if i >= |head| {
      ParentsFirst(t, todo[1..], seen + ToSet(head), i - |head|);
      var more := Visit(t, todo[1..], seen + ToSet(head));
      assert r[..i] == head + more[..i - |head|];
    } else if i > 0 {
      var below := Visit(t, Kids(t, c), seen + {c});
      ParentsFirst(t, Kids(t, c), seen + {c}, i - 1);
      assert r[..i] == [c] + below[..i - 1];
      assert AreKids(t.nodes, c, Kids(t, c));
    }
  }

  // ------------------------------------------------------------------ siblings by age

  /** Some of q's children, in sibling order. */
  ghost predicate SomeKids(t: Tree, q: nat, list: seq<nat>) {
    InSiblingOrder(t.nodes, list) && forall c :: c in list ==> IsChildOf(t.nodes, c, q)
  }

  /** The parent of a node in a walk over q's children is q itself or was walked over. */
  lemma ParentOfVisited(t: Tree, q: nat, todo: seq<nat>, seen: set<nat>, x: nat)
    requires WellFormed(t) && SomeKids(t, q, todo) && x in Visit(t, todo, seen)
    ensures Up(t.nodes, x).Some?
    ensures (Up(t.nodes, x) == Some(q) && x in todo) || Up(t.nodes, x).value in Visit(t, todo, seen)
  {
    var r := Visit(t, todo, seen);
    var i :| 0 <= i < |r| && r[i] == x;
    ParentsFirst(t, todo, seen, i);
  }

  /** In the walk of one child c of q, c alone is a child of q. */
  lemma HeadParents(t: Tree, q: nat, c: nat, seen: set<nat>, x: nat)
    requires WellFormed(t) && q in seen && IsChildOf(t.nodes, c, q) && x in Head(t, c, seen)
    ensures q !in Head(t, c, seen) && Up(t.nodes, x).Some?
    ensures if x == c then Up(t.nodes, x) == Some(q) else Up(t.nodes, x).value in Head(t, c, seen)
  {
    var below := Visit(t, Kids(t, c), seen + {c});
    VisitsOnce(t, Kids(t, c), seen + {c});
    assert q !in below by {
      assert q in below ==> q in ToSet(below);
    }
    if x != c {
      assert AreKids(t.nodes, c, Kids(t, c));
      ParentOfVisited(t, c, Kids(t, c), seen + {c}, x);
    }
  }

  lemma SomeKidsTail(t: Tree, q: nat, todo: seq<nat>)
    requires SomeKids(t, q, todo) && todo != []
    ensures SomeKids(t, q, todo[1..]) && IsChildOf(t.nodes, todo[0], q)
    ensures forall y :: y in todo[1..] ==> y in t.nodes && Before(t.nodes[todo[0]], t.nodes[y])
  {
    assert todo == [todo[0]] + todo[1..];
    assert todo[0] in todo;
    assert forall y :: y in todo[1..] ==> y in todo;
  }

  /** Nodes with the same parent are listed in sibling order. */
  ghost predicate ByAge(nodes: Nodes, r: seq<nat>) {
    forall i, j :: 0 <= i < j < |r| ==> InOrder(nodes, r[i], r[j])
  }

  ghost predicate InOrder(nodes: Nodes, x: nat, y: nat) {
    Up(nodes, x) == Up(nodes, y) ==> x in nodes && y in nodes && Before(nodes[x], nodes[y])
  }

  lemma ByAgeConcat(nodes: Nodes, a: seq<nat>, b: seq<nat>)
    requires ByAge(nodes, a) && ByAge(nodes, b)
    requires forall x, y :: x in a && y in b ==> InOrder(nodes, x, y)
    ensures ByAge(nodes, a + b)
  {
    forall i, j | 0 <= i < j < |a + b| ensures InOrder(nodes, (a + b)[i], (a + b)[j]) {
      if i < |a| <= j {
        assert a[i] in a && b[j - |a|] in b;
      }
    }
  }

  lemma {:induction false} SiblingsByAge(t: Tree, q: nat, todo: seq<nat>, seen: set<nat>)
    requires WellFormed(t) && SomeKids(t, q, todo) && q in seen
    ensures ByAge(t.nodes, Visit(t, todo, seen))
    decreases t.nodes.Keys - seen, |todo|
  {
    if todo != [] {
      var c := todo[0];
      var head := Head(t, c, seen);
      SomeKidsTail(t, q, todo);
      VisitHead(t, todo, seen);
      HeadSeen(t, c, seen);
      if c !in seen {
        assert AreKids(t.nodes, c, Kids(t, c));
        SiblingsByAge(t, c, Kids(t, c), seen + {c});
        forall y | y in Visit(t, Kids(t, c), seen + {c}) ensures InOrder(t.nodes, c, y) {
          NoSiblingBelow(t, q, c, seen, y);
        }
        ByAgeConcat(t.nodes, [c], Visit(t, Kids(t, c), seen + {c}));
      }
      SiblingsByAge(t, q, todo[1..], seen + ToSet(head));
      forall x, y | x in head && y in Visit(t, todo[1..], seen + ToSet(head)) ensures InOrder(t.nodes, x, y) {
        if Up(t.nodes, x) == Up(t.nodes, y) {
          LaterSibling(t, q, todo, seen, x, y);
        }
      }
      ByAgeConcat(t.nodes, head, Visit(t, todo[1..], seen + ToSet(head)));
    }
  }

  lemma NoSiblingBelow(t: Tree, q: nat, c: nat, seen: set<nat>, y: nat)
    requires WellFormed(t) && q in seen && IsChildOf(t.nodes, c, q) && c !in seen
    requires y in Visit(t, Kids(t, c), seen + {c})
    ensures Up(t.nodes, y) != Up(t.nodes, c)
  {
    HeadParents(t, q, c, seen, y);
    NotVisitedAgain(t, Kids(t, c), seen + {c}, c);
  }

  /** A sibling in a later walk than c's: both are children of q, and in its list. */
  lemma LaterSibling(t: Tree, q: nat, todo: seq<nat>, seen: set<nat>, x: nat, y: nat)
    requires WellFormed(t) && SomeKids(t, q, todo) && q in seen && todo != []
    requires x in Head(t, todo[0], seen)
    requires y in Visit(t, todo[1..], seen + ToSet(Head(t, todo[0], seen)))
    requires Up(t.nodes, x) == Up(t.nodes, y)
    ensures x in t.nodes && y in t.nodes && Before(t.nodes[x], t.nodes[y])
  {
    var head := Head(t, todo[0], seen);
    SomeKidsTail(t, q, todo);
    HeadParents(t, q, todo[0], seen, x);
    ParentOfVisited(t, q, todo[1..], seen + ToSet(head), y);
    NotVisitedAgain(t, todo[1..], seen + ToSet(head), Up(t.nodes, x).value);
    assert Up(t.nodes, x).value in seen + ToSet(head);
  }

  lemma NotVisitedAgain(t: Tree, todo: seq<nat>, seen: set<nat>, x: nat)
    ensures x in seen ==> x !in Visit(t, todo, seen)
  {
    VisitsOnce(t, todo, seen);
    assert x in Visit(t, todo, seen) ==> x in ToSet(Visit(t, todo, seen));
  }

  /** `subtree` lists every non-root after its parent. */
  lemma SubtreeParentsFirst(t: Tree, root: nat, i: nat)
    requires WellFormed(t) && 0 < i < |Visit(t, [root], {})|
    ensures var r := Visit(t, [root], {});
            Up(t.nodes, r[i]).Some? && Up(t.nodes, r[i]).value in r[..i]
  {
    VisitsOnce(t, [root], {});
    assert Visit(t, [root], {})[0] == root;
    ParentsFirst(t, [root], {}, i);
  }

  /** Non-roots with the same parent are listed oldest first. */
  lemma SubtreeSiblingsByAge(t: Tree, root: nat, i: nat, j: nat)
    requires WellFormed(t) && 0 < i < j < |Visit(t, [root], {})|
    requires Up(t.nodes, Visit(t, [root], {})[i]) == Up(t.nodes, Visit(t, [root], {})[j])
    ensures var r := Visit(t, [root], {});
            r[i] in t.nodes && r[j] in t.nodes && Before(t.nodes[r[i]], t.nodes[r[j]])
  {
    assert AreKids(t.nodes, root, Kids(t, root));
    VisitHead(t, [root], {});
    assert {} + {root} == {root};
    SiblingsByAge(t, root, Kids(t, root), {root});
    var below := Visit(t, Kids(t, root), {root});
    assert InOrder(t.nodes, below[i - 1], below[j - 1]);
  }

  // ------------------------------------------------------------------ depth

  /** d parents up from c, and not earlier, is the root. */
  ghost predicate IsDepth(nodes: Nodes, c: nat, root: nat, d: nat) {
    Climb(nodes, c, d) == Some(root) && forall k: nat :: k < d ==> Climb(nodes, c, k) != Some(root)
  }

  /** A chain that enters a set closed under parents never leaves it. */
  lemma {:induction false} ClimbStays(nodes: Nodes, s: set<nat>, c: nat, k: nat)
    requires c in s && forall x :: x in s && Up(nodes, x).Some? ==> Up(nodes, x).value in s
    ensures Climb(nodes, c, k).Some? ==> Climb(nodes, c, k).value in s
    decreases k
  {
    if k > 0 && Up(nodes, c).Some? {
      ClimbStays(nodes, s, Up(nodes, c).value, k - 1);
    }
  }

  /** `depth_of`: on a cycle that misses the root, or above a missing parent, it stops there. */
  method DepthOf(nodes: Nodes, c: nat, root: nat) returns (depth: nat)
    requires c in nodes || c == root
    ensures Reaches(nodes, c, root) ==> IsDepth(nodes, c, root, depth)
    ensures !Reaches(nodes, c, root) ==>
      && Climb(nodes, c, depth).Some?
      && (Climb(nodes, c, depth + 1).None? ||
          exists k: nat :: k < depth && Climb(nodes, c, k) == Climb(nodes, c, depth))
  {
    depth := 0;
    var current := c;
    var seen: set<nat> := {};
    while current != root && current !in seen
      invariant current in nodes || current == root
      invariant seen <= nodes.Keys
      invariant Climb(nodes, c, depth) == Some(current)
      invariant forall k: nat :: k < depth ==>
        Climb(nodes, c, k).Some? && Climb(nodes, c, k).value in seen && Climb(nodes, c, k).value != root
      invariant forall x :: x in seen ==> exists k: nat :: k < depth && Climb(nodes, c, k) == Some(x)
      invariant forall x :: x in seen ==> Up(nodes, x).Some? && (Up(nodes, x).value in seen || Up(nodes, x).value == current)
      decreases nodes.Keys - seen
    {
      ClimbOn(nodes, c, depth, current, 1);
      var parent := nodes[current].parent;
      if parent.None? || parent.value !in nodes {
        assert Climb(nodes, current, 1) == None;
        forall k: nat ensures Climb(nodes, c, k) != Some(root) {
          if k > depth {
            ClimbOn(nodes, c, depth, current, k - depth);
          }
        }
        return;
      }
      assert current in nodes.Keys - seen;
      assert Climb(nodes, current, 1) == Climb(nodes, parent.value, 0);
      seen := seen + {current};
      current, depth := parent.value, depth + 1;
    }
    if current != root {
      assert Climb(nodes, c, 0) == Some(c);
      forall k: nat ensures Climb(nodes, c, k) != Some(root) {
        ClimbStays(nodes, seen, c, k);
      }
    }
  }

  /** The depth of a listed non-root is its parent's plus one, and there is only one answer. */
  lemma DepthIsParentsPlusOne(t: Tree, root: nat, c: nat, d: nat, e: nat)
    requires WellFormed(t) && root in t.nodes && c in Visit(t, [root], {}) && c != root
    requires IsDepth(t.nodes, c, root, d)
    requires Up(t.nodes, c).Some? ==> IsDepth(t.nodes, Up(t.nodes, c).value, root, e)
    ensures Up(t.nodes, c).Some? && Up(t.nodes, c).value in Visit(t, [root], {})
    ensures d == e + 1
  {
    var order := Visit(t, [root], {});
    var i :| 0 <= i < |order| && order[i] == c;
    VisitHead(t, [root], {});
    SubtreeParentsFirst(t, root, i);
    var p := Up(t.nodes, c).value;
    assert Climb(t.nodes, c, 0) == Some(c);
    assert Climb(t.nodes, c, d) == Climb(t.nodes, p, d - 1);
    assert Climb(t.nodes, c, e + 1) == Climb(t.nodes, p, e);
  }

  // ------------------------------------------------------------------ recursive pre-order on a forest

  ghost predicate Acyclic(nodes: Nodes) {
    forall c, p :: Up(nodes, c) == Some(p) ==> !Reaches(nodes, p, c)
  }

  ghost function Under(t: Tree, c: nat): set<nat> {
    set x | x in t.nodes && Reaches(t.nodes, x, c)
  }

  lemma UnderChild(t: Tree, c: nat, k: nat)
    requires WellFormed(t) && Acyclic(t.nodes) && c in t.nodes && k in Kids(t, c)
    ensures k in t.nodes && Up(t.nodes, k) == Some(c)
    ensures Under(t, k) < Under(t, c) && c !in Under(t, k)
  {
    assert AreKids(t.nodes, c, Kids(t, c));
    assert Climb(t.nodes, c, 0) == Some(c);
    ReachesUp(t.nodes, k, c, c);
    forall x | x in Under(t, k) ensures x in Under(t, c) {
      ReachesTransitive(t.nodes, x, k, c);
    }
    assert c in Under(t, c);
  }

  /** Pre-order as one would define it on trees: a node, then its children's pre-orders. */
  ghost function PreOrder(t: Tree, c: nat): seq<nat>
    requires WellFormed(t) && Acyclic(t.nodes) && c in t.nodes
    decreases Under(t, c), |Kids(t, c)| + 1
  {
    [c] + PreOrderOfKids(t, c, 0)
  }

  ghost function PreOrderOfKids(t: Tree, c: nat, i: nat): seq<nat>
    requires WellFormed(t) && Acyclic(t.nodes) && c in t.nodes && i <= |Kids(t, c)|
    decreases Under(t, c), |Kids(t, c)| - i
  {
    if i == |Kids(t, c)| then []
    else
      UnderChild(t, c, Kids(t, c)[i]);
      PreOrder(t, Kids(t, c)[i]) + PreOrderOfKids(t, c, i + 1)
  }

  /** Different children of a node have nothing below them in common. */
  lemma ChildrenApart(t: Tree, c: nat, a: nat, b: nat, x: nat, i: nat, j: nat)
    requires WellFormed(t) && Acyclic(t.nodes) && c in t.nodes && a in Kids(t, c) && b in Kids(t, c) && a != b
    requires i <= j && Climb(t.nodes, x, i) == Some(a)
    ensures Climb(t.nodes, x, j) != Some(b)
  {
    UnderChild(t, c, a);
    UnderChild(t, c, b);
    ClimbOn(t.nodes, x, i, a, j - i);
    assert !Reaches(t.nodes, c, b);
    if i < j {
      assert Climb(t.nodes, c, j - i - 1) != Some(b);
    }
  }

  lemma UnderApart(t: Tree, c: nat, a: nat, b: nat)
    requires WellFormed(t) && Acyclic(t.nodes) && c in t.nodes && a in Kids(t, c) && b in Kids(t, c) && a != b
    ensures Under(t, a) !! Under(t, b)
  {
    forall x | x in Under(t, a) ensures x !in Under(t, b) {
      if x in Under(t, b) {
        var i: nat :| Climb(t.nodes, x, i) == Some(a);
        var j: nat :| Climb(t.nodes, x, j) == Some(b);
        if i <= j {
          ChildrenApart(t, c, a, b, x, i, j);
        } else {
          ChildrenApart(t, c, b, a, x, j, i);
        }
      }
    }
  }

  lemma {:induction false} VisitIsPreOrder(t: Tree, c: nat, seen: set<nat>)
    requires WellFormed(t) && Acyclic(t.nodes) && c in t.nodes && Under(t, c) !! seen
    ensures Visit(t, [c], seen) == PreOrder(t, c)
    ensures ToSet(PreOrder(t, c)) <= Under(t, c)
    decreases Under(t, c), |Kids(t, c)| + 1
  {
    assert Climb(t.nodes, c, 0) == Some(c);
    assert c in Under(t, c);
    forall i | 0 <= i < |Kids(t, c)| ensures Under(t, Kids(t, c)[i]) !! seen + {c} {
      UnderChild(t, c, Kids(t, c)[i]);
    }
    VisitIsPreOrderOfKids(t, c, 0, seen + {c});
    assert Kids(t, c)[0..] == Kids(t, c);
    VisitHead(t, [c], seen);
    ToSetConcat([c], PreOrderOfKids(t, c, 0));
  }

  lemma {:induction false} VisitIsPreOrderOfKids(t: Tree, c: nat, i: nat, seen: set<nat>)
    requires WellFormed(t) && Acyclic(t.nodes) && c in t.nodes && i <= |Kids(t, c)|
    requires forall j :: i <= j < |Kids(t, c)| ==> Under(t, Kids(t, c)[j]) !! seen
    ensures Visit(t, Kids(t, c)[i..], seen) == PreOrderOfKids(t, c, i)
    ensures ToSet(PreOrderOfKids(t, c, i)) <= Under(t, c)
    decreases Under(t, c), |Kids(t, c)| - i
  {
    var kids := Kids(t, c);
    if i < |kids| {
      var k := kids[i];
      UnderChild(t, c, k);
      VisitIsPreOrder(t, k, seen);
      var first := PreOrder(t, k);
      assert AreKids(t.nodes, c, kids);
      forall j | i + 1 <= j < |kids| ensures Under(t, kids[j]) !! seen + ToSet(first) {
        UnderApart(t, c, k, kids[j]);
      }
      VisitIsPreOrderOfKids(t, c, i + 1, seen + ToSet(first));
      assert kids[i..] == [k] + kids[i + 1..];
      VisitConcat(t, [k], kids[i + 1..], seen);
      ToSetConcat(first, PreOrderOfKids(t, c, i + 1));
    }
  }

  /** On a forest the walk with its visited set is plain recursive pre-order. */
  lemma SubtreeIsPreOrder(t: Tree, root: nat)
    requires WellFormed(t) && Acyclic(t.nodes) && root in t.nodes
    ensures Visit(t, [root], {}) == PreOrder(t, root)
  {
    VisitIsPreOrder(t, root, {});
  }
}
