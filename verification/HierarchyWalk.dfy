/**
 Building the tree of a catalog and walking it: `build_hierarchy`, `subtree` and `depth_of` of
 app/services/hierarchy_service.py.
 */
module HierarchyWalk {
  import opened Wrappers
  import opened Hierarchy
  import opened Sequences

  /** `children.get(p, [])` */
  function Kids(t: Tree, p: nat): seq<nat> {
    if p in t.children then t.children[p] else []
  }

  // ------------------------------------------------------------------ build_hierarchy

  predicate IsChildOf(nodes: Nodes, c: nat, p: nat) {
    c in nodes && c != p && p in nodes && nodes[c].parent == Some(p)
  }

  /** Strictly in sibling order, so each id is there once. */
  ghost predicate InSiblingOrder(nodes: Nodes, list: seq<nat>) {
    && (forall i :: 0 <= i < |list| ==> list[i] in nodes)
    && (forall i, j :: 0 <= i < j < |list| ==> Before(nodes[list[i]], nodes[list[j]]))
  }

  ghost predicate AreKids(nodes: Nodes, p: nat, list: seq<nat>) {
    InSiblingOrder(nodes, list) && forall c :: c in list <==> IsChildOf(nodes, c, p)
  }

  /** Nodes are keyed by their ids and the child lists fit the parent links. */
  ghost predicate WellFormed(t: Tree) {
    && (forall c :: c in t.nodes ==> t.nodes[c].id == c)
    && (forall p :: AreKids(t.nodes, p, Kids(t, p)))
  }

  ghost predicate UniqueIds(convs: seq<Conversation>) {
    forall i, j :: 0 <= i < j < |convs| ==> convs[i].id != convs[j].id
  }

  ghost predicate Sorted(convs: seq<Conversation>) {
    forall i, j :: 0 <= i < j < |convs| ==> Before(convs[i], convs[j])
  }

  /** `sorted(..., key=(created_at, id))`, by insertion. */
  method SortedByAge(convs: seq<Conversation>) returns (r: seq<Conversation>)
    requires UniqueIds(convs)
    ensures Sorted(r)
    ensures forall c :: c in r <==> c in convs
  {
    r := [];
    for n := 0 to |convs|
      invariant Sorted(r)
      invariant forall c :: c in r <==> c in convs[..n]
    {
      var k := 0;
      while k < |r| && Before(r[k], convs[n])
        invariant k <= |r|
        invariant forall i :: 0 <= i < k ==> Before(r[i], convs[n])
      {
        k := k + 1;
      }
      assert forall i :: 0 <= i < |r| ==> r[i] in convs[..n];
      assert convs[..n + 1] == convs[..n] + [convs[n]];
      r := r[..k] + [convs[n]] + r[k..];
    }
    assert convs[..|convs|] == convs;
  }

  method NodesOf(convs: seq<Conversation>) returns (nodes: Nodes)
    requires UniqueIds(convs)
    ensures forall c :: c in convs ==> c.id in nodes && nodes[c.id] == c
    ensures forall k :: k in nodes ==> nodes[k] in convs && nodes[k].id == k
  {
    nodes := map[];
    for n := 0 to |convs|
      invariant forall i :: 0 <= i < n ==> convs[i].id in nodes && nodes[convs[i].id] == convs[i]
      invariant forall k :: k in nodes ==> nodes[k] in convs && nodes[k].id == k
    {
      nodes := nodes[convs[n].id := convs[n]];
    }
  }

  /** The children of p among the first n conversations. */
  ghost predicate KidsSoFar(nodes: Nodes, age: seq<Conversation>, n: nat, p: nat, list: seq<nat>)
    requires n <= |age|
  {
    && InSiblingOrder(nodes, list)
    && (forall c :: c in list ==> IsChildOf(nodes, c, p) && nodes[c] in age[..n])
    && (forall i :: 0 <= i < n && IsChildOf(nodes, age[i].id, p) ==> age[i].id in list)
  }

  ghost predicate Catalog(nodes: Nodes, age: seq<Conversation>) {
    && Sorted(age)
    && (forall i :: 0 <= i < |age| ==> age[i].id in nodes && nodes[age[i].id] == age[i])
    && (forall k :: k in nodes ==> nodes[k] in age && nodes[k].id == k)
  }

  lemma KidsGrow(nodes: Nodes, age: seq<Conversation>, n: nat, p: nat, list: seq<nat>)
    requires Catalog(nodes, age) && n < |age| && KidsSoFar(nodes, age, n, p, list)
    ensures IsChildOf(nodes, age[n].id, p) ==> KidsSoFar(nodes, age, n + 1, p, list + [age[n].id])
    ensures !IsChildOf(nodes, age[n].id, p) ==> KidsSoFar(nodes, age, n + 1, p, list)
  {
    assert age[..n + 1] == age[..n] + [age[n]];
    forall i | 0 <= i < |list| ensures Before(nodes[list[i]], age[n]) {
      assert nodes[list[i]] in age[..n];
    }
  }

  lemma NoKidsYet(nodes: Nodes, age: seq<Conversation>)
    ensures forall p :: KidsSoFar(nodes, age, 0, p, [])
  {
  }

  lemma AllKids(nodes: Nodes, age: seq<Conversation>, p: nat, list: seq<nat>)
    requires Catalog(nodes, age) && KidsSoFar(nodes, age, |age|, p, list)
    ensures AreKids(nodes, p, list)
  {
    forall c | IsChildOf(nodes, c, p) ensures c in list {
      assert nodes[c] in age;
    }
  }

  /** The loop that appends every conversation to its parent's list, oldest first. */
  method ChildrenOf(nodes: Nodes, age: seq<Conversation>) returns (children: map<nat, seq<nat>>)
    requires Catalog(nodes, age)
    ensures WellFormed(Tree(nodes, children))
  {
    hide Sorted, InSiblingOrder;
    children := map[];
    NoKidsYet(nodes, age);
    for n := 0 to |age|
      invariant forall p :: KidsSoFar(nodes, age, n, p, Kids(Tree(nodes, children), p))
    {
      var c := age[n];
      ghost var t := Tree(nodes, children);
      if c.parent.Some? && c.parent.value in nodes && c.parent.value != c.id {
        var p := c.parent.value;
        children := children[p := (if p in children then children[p] else []) + [c.id]];
      }
      forall p ensures KidsSoFar(nodes, age, n + 1, p, Kids(Tree(nodes, children), p)) {
        KidsGrow(nodes, age, n, p, Kids(t, p));
      }
    }
    var t := Tree(nodes, children);
    forall p ensures AreKids(nodes, p, Kids(t, p)) {
      AllKids(nodes, age, p, Kids(t, p));
    }
  }

  method BuildHierarchy(convs: seq<Conversation>) returns (t: Tree)
    requires UniqueIds(convs)
    ensures WellFormed(t)
    ensures forall c :: c in convs ==> c.id in t.nodes && t.nodes[c.id] == c
    ensures forall k :: k in t.nodes ==> t.nodes[k] in convs
  {
    var nodes := NodesOf(convs);
    var age := SortedByAge(convs);
    var children := ChildrenOf(nodes, age);
    t := Tree(nodes, children);
  }

  // ------------------------------------------------------------------ subtree

  function ToSet(s: seq<nat>): set<nat> {
    set x | x in s
  }

  /**
   Recursive pre-order over a list of nodes: each node followed by its children's walks, nodes
   visited before (or not in the catalog) left out.
   */
  function Visit(t: Tree, todo: seq<nat>, seen: set<nat>): seq<nat>
    decreases t.nodes.Keys - seen, |todo|
  {
    if todo == [] then []
    else
      var c, rest := todo[0], todo[1..];
      if c in seen || c !in t.nodes then Visit(t, rest, seen)
      else
        assert c in t.nodes.Keys - seen;
        var below := Visit(t, Kids(t, c), seen + {c});
        [c] + below + Visit(t, rest, seen + {c} + ToSet(below))
  }

  lemma ToSetConcat(a: seq<nat>, b: seq<nat>)
    ensures ToSet(a + b) == ToSet(a) + ToSet(b)
  {
  }

  /** The head of a list: its own walk, and what is visited after it. */
  function Head(t: Tree, c: nat, seen: set<nat>): seq<nat> {
    if c in seen || c !in t.nodes then [] else [c] + Visit(t, Kids(t, c), seen + {c})
  }

  lemma VisitHead(t: Tree, todo: seq<nat>, seen: set<nat>)
    requires todo != []
    ensures var head := Head(t, todo[0], seen);
            Visit(t, todo, seen) == head + Visit(t, todo[1..], seen + ToSet(head))
  {
    var c := todo[0];
    if c in seen || c !in t.nodes {
      assert seen + ToSet([]) == seen;
    } else {
      var below := Visit(t, Kids(t, c), seen + {c});
      ToSetConcat([c], below);
      assert seen + ToSet([c] + below) == seen + {c} + ToSet(below);
    }
  }

  lemma HeadSeen(t: Tree, c: nat, seen: set<nat>)
    ensures var next := seen + ToSet(Head(t, c, seen));
            if c in seen || c !in t.nodes then next == seen else t.nodes.Keys - next < t.nodes.Keys - seen
  {
    if c !in seen && c in t.nodes {
      assert Head(t, c, seen)[0] == c;
      assert c in t.nodes.Keys - seen;
    }
  }

  lemma {:induction false} VisitConcat(t: Tree, a: seq<nat>, b: seq<nat>, seen: set<nat>)
    ensures Visit(t, a + b, seen) == Visit(t, a, seen) + Visit(t, b, seen + ToSet(Visit(t, a, seen)))
    decreases t.nodes.Keys - seen, |a|
  {
    if a == [] {
      assert a + b == b && seen + ToSet([]) == seen;
    } else {
      var head := Head(t, a[0], seen);
      var next := seen + ToSet(head);
      var more := Visit(t, a[1..], next);
      assert (a + b)[0] == a[0] && (a + b)[1..] == a[1..] + b;
      VisitHead(t, a + b, seen);
      VisitHead(t, a, seen);
      HeadSeen(t, a[0], seen);
      VisitConcat(t, a[1..], b, next);
      SeenAfter(seen, head, more);
      Regroup(head, more, Visit(t, b, next + ToSet(more)));
    }
  }

  lemma SeenAfter(seen: set<nat>, a: seq<nat>, b: seq<nat>)
    ensures seen + ToSet(a + b) == seen + ToSet(a) + ToSet(b)
  {
    ToSetConcat(a, b);
  }

  lemma Regroup(a: seq<nat>, b: seq<nat>, c: seq<nat>)
    ensures a + (b + c) == (a + b) + c
  {
  }

  /** One turn of the loop: the top of the stack is visited, or skipped. */
  lemma VisitTop(t: Tree, stack: seq<nat>, seen: set<nat>)
    requires stack != []
    ensures var c, rest := stack[|stack| - 1], stack[..|stack| - 1];
            Visit(t, Reversed(stack), seen) ==
              if c in seen || c !in t.nodes then Visit(t, Reversed(rest), seen)
              else [c] + Visit(t, Reversed(rest + Reversed(Kids(t, c))), seen + {c})
  {
    var c, rest := stack[|stack| - 1], stack[..|stack| - 1];
    assert Reversed(stack)[0] == c && Reversed(stack)[1..] == Reversed(rest);
    if c !in seen && c in t.nodes {
      assert Reversed(rest + Reversed(Kids(t, c))) == Kids(t, c) + Reversed(rest);
      VisitConcat(t, Kids(t, c), Reversed(rest), seen + {c});
    }
  }

  /** `subtree` with its explicit stack: it is the recursive pre-order walk, on any graph. */
  method Subtree(t: Tree, root: nat) returns (order: seq<nat>)
    ensures order == Visit(t, [root], {})
  {
    order := [];
    var seen: set<nat> := {};
    var stack := [root];
    assert Reversed(stack) == [root];
    while stack != []
      invariant order + Visit(t, Reversed(stack), seen) == Visit(t, [root], {})
      decreases t.nodes.Keys - seen, |stack|
    {
      var c := stack[|stack| - 1];
      VisitTop(t, stack, seen);
      stack := stack[..|stack| - 1];
      if c in seen || c !in t.nodes {
        continue;
      }
      assert c in t.nodes.Keys - seen;
      seen := seen + {c};
      order := order + [c];
      stack := stack + Reversed(Kids(t, c));
    }
    assert Reversed(stack) == [];
  }

  // ------------------------------------------------------------------ each id once

  ghost predicate NoRepeats(s: seq<nat>) {
    forall i, j :: 0 <= i < j < |s| ==> s[i] != s[j]
  }

  lemma NoRepeatsConcat(a: seq<nat>, b: seq<nat>)
    requires NoRepeats(a) && NoRepeats(b) && ToSet(a) !! ToSet(b)
    ensures NoRepeats(a + b)
  {
    forall i, j | 0 <= i < j < |a + b| ensures (a + b)[i] != (a + b)[j] {
      if i < |a| <= j {
        assert a[i] in ToSet(a) && b[j - |a|] in ToSet(b);
      }
    }
  }

  lemma {:induction false} VisitsOnce(t: Tree, todo: seq<nat>, seen: set<nat>)
    ensures var r := Visit(t, todo, seen);
            NoRepeats(r) && ToSet(r) !! seen && ToSet(r) <= t.nodes.Keys
    decreases t.nodes.Keys - seen, |todo|
  {
    if todo != [] {
      var c := todo[0];
      var head := Head(t, c, seen);
      VisitHead(t, todo, seen);
      HeadSeen(t, c, seen);
      if c !in seen && c in t.nodes {
        var below := Visit(t, Kids(t, c), seen + {c});
        VisitsOnce(t, Kids(t, c), seen + {c});
        ToSetConcat([c], below);
        NoRepeatsConcat([c], below);
      }
      var more := Visit(t, todo[1..], seen + ToSet(head));
      VisitsOnce(t, todo[1..], seen + ToSet(head));
      ToSetConcat(head, more);
      NoRepeatsConcat(head, more);
    }
  }

  // ------------------------------------------------------------------ exactly what reaches the root

  /** `s` contains the listed nodes. */
  ghost predicate Covers(t: Tree, s: set<nat>, list: seq<nat>) {
    forall c :: c in list && c in t.nodes ==> c in s
  }

  /** Everything listed is visited, and so are the children of everything visited. */
  lemma {:induction false} VisitsAll(t: Tree, todo: seq<nat>, seen: set<nat>)
    ensures var s := seen + ToSet(Visit(t, todo, seen));
            Covers(t, s, todo) && forall x :: x in Visit(t, todo, seen) ==> Covers(t, s, Kids(t, x))
    decreases t.nodes.Keys - seen, |todo|
  {
    if todo != [] {
      var c := todo[0];
      var head := Head(t, c, seen);
      VisitHead(t, todo, seen);
      HeadSeen(t, c, seen);
      if c !in seen && c in t.nodes {
        VisitsAll(t, Kids(t, c), seen + {c});
        ToSetConcat([c], Visit(t, Kids(t, c), seen + {c}));
        assert seen + {c} + ToSet(Visit(t, Kids(t, c), seen + {c})) == seen + ToSet(head);
      }
      VisitsAll(t, todo[1..], seen + ToSet(head));
      SeenAfter(seen, head, Visit(t, todo[1..], seen + ToSet(head)));
    }
  }

  lemma {:induction false} VisitedReach(t: Tree, todo: seq<nat>, seen: set<nat>, x: nat)
    requires WellFormed(t) && x in Visit(t, todo, seen)
    ensures exists q :: q in todo && Reaches(t.nodes, x, q)
    decreases t.nodes.Keys - seen, |todo|
  {
    var c := todo[0];
    var head := Head(t, c, seen);
    VisitHead(t, todo, seen);
    HeadSeen(t, c, seen);
    if x in head {
      assert Climb(t.nodes, c, 0) == Some(c);
      if x != c {
        VisitedReach(t, Kids(t, c), seen + {c}, x);
        var q :| q in Kids(t, c) && Reaches(t.nodes, x, q);
        assert AreKids(t.nodes, c, Kids(t, c));
        ReachesUp(t.nodes, q, c, c);
        ReachesTransitive(t.nodes, x, q, c);
      }
      assert c in todo;
    } else {
      VisitedReach(t, todo[1..], seen + ToSet(head), x);
    }
  }

  lemma ChildIsVisited(t: Tree, root: nat, x: nat, p: nat)
    requires WellFormed(t) && Up(t.nodes, x) == Some(p) && p in Visit(t, [root], {})
    ensures x in Visit(t, [root], {})
  {
    hide Visit;
    VisitsAll(t, [root], {});
    assert {} + ToSet(Visit(t, [root], {})) == ToSet(Visit(t, [root], {}));
    assert AreKids(t.nodes, p, Kids(t, p));
  }

  lemma RootIsVisited(t: Tree, root: nat)
    requires root in t.nodes
    ensures root in Visit(t, [root], {})
  {
    assert Visit(t, [root], {})[0] == root;
  }

  lemma {:induction false} ReachingIsVisited(t: Tree, root: nat, x: nat, k: nat)
    requires WellFormed(t) && root in t.nodes && x in t.nodes && Climb(t.nodes, x, k) == Some(root)
    ensures x in Visit(t, [root], {})
    decreases k
  {
    hide Visit, WellFormed;
    if k == 0 {
      RootIsVisited(t, root);
    } else {
      var p := Up(t.nodes, x).value;
      ReachingIsVisited(t, root, p, k - 1);
      ChildIsVisited(t, root, x, p);
    }
  }

  /** The subtree of a node is exactly the nodes whose chain of parents leads to it. */
  lemma SubtreeIsWhatReaches(t: Tree, root: nat, x: nat)
    requires WellFormed(t) && root in t.nodes && x in t.nodes
    ensures x in Visit(t, [root], {}) <==> Reaches(t.nodes, x, root)
  {
    if x in Visit(t, [root], {}) {
      VisitedReach(t, [root], {}, x);
    }
    if Reaches(t.nodes, x, root) {
      var k: nat :| Climb(t.nodes, x, k) == Some(root);
      ReachingIsVisited(t, root, x, k);
    }
  }

  /**
   The tree a conversation belongs to, `subtree(root_of(c))`, is exactly the set of conversations
   linked to it, whatever end of the chain `root_of` picked; so it contains c, and any member leads
   to the same set. This covers missing parents, self-parents, cycles and tails into cycles.
   */
  lemma TreesPartitionTheCatalog(t: Tree, c: nat, root: nat, x: nat)
    requires WellFormed(t) && c in t.nodes && x in t.nodes
    requires Reaches(t.nodes, c, root) && IsTop(t.nodes, root)
    ensures x in Visit(t, [root], {}) <==> Linked(t.nodes, c, x)
    ensures c in Visit(t, [root], {})
  {
    SubtreeIsWhatReaches(t, root, x);
    SubtreeIsWhatReaches(t, root, c);
    BelowTopIsComponent(t.nodes, c, root, x);
  }

  lemma MembersShareTheirTree(t: Tree, c: nat, root: nat, d: nat, other: nat)
    requires WellFormed(t) && c in t.nodes && d in Visit(t, [root], {})
    requires Reaches(t.nodes, c, root) && IsTop(t.nodes, root)
    requires d in t.nodes && Reaches(t.nodes, d, other) && IsTop(t.nodes, other)
    ensures ToSet(Visit(t, [root], {})) == ToSet(Visit(t, [other], {}))
  {
    VisitsOnce(t, [root], {});
    VisitsOnce(t, [other], {});
    SubtreeIsWhatReaches(t, root, d);
    forall x | x in t.nodes ensures x in Visit(t, [root], {}) <==> x in Visit(t, [other], {}) {
      TreesPartitionTheCatalog(t, d, root, x);
      TreesPartitionTheCatalog(t, d, other, x);
    }
  }
}
