/**
 Conversation trees (app/services/hierarchy_service.py), over arbitrary parent links: parents may
 be missing, a conversation may be its own parent, and links may run in cycles.
 */
module Hierarchy {
  import opened Wrappers

  datatype Conversation = Conversation(id: nat, parent: Option<nat>, created: int)

  type Nodes = map<nat, Conversation>

  datatype Tree = Tree(nodes: Nodes, children: map<nat, seq<nat>>)

  /** The parent, if it is among the nodes. */
  function Up(nodes: Nodes, c: nat): Option<nat> {
    if c in nodes && nodes[c].parent.Some? && nodes[c].parent.value in nodes then nodes[c].parent else None
  }

  /** The order of siblings: by (created_at, id). */
  predicate Before(a: Conversation, b: Conversation) {
    a.created < b.created || (a.created == b.created && a.id < b.id)
  }

  // ------------------------------------------------------------------ climbing

  function Climb(nodes: Nodes, c: nat, k: nat): Option<nat>
    decreases k
  {
    if k == 0 then Some(c)
    else
      var p := Up(nodes, c);
      if p.None? then None else Climb(nodes, p.value, k - 1)
  }

  ghost predicate Reaches(nodes: Nodes, c: nat, r: nat) {
    exists k: nat :: Climb(nodes, c, k) == Some(r)
  }

  lemma {:induction false} ClimbOn(nodes: Nodes, c: nat, a: nat, m: nat, b: nat)
    requires Climb(nodes, c, a) == Some(m)
    ensures Climb(nodes, c, a + b) == Climb(nodes, m, b)
    decreases a
  {
    if a > 0 {
      ClimbOn(nodes, Up(nodes, c).value, a - 1, m, b);
    }
  }

  lemma ReachesTransitive(nodes: Nodes, a: nat, b: nat, c: nat)
    requires Reaches(nodes, a, b) && Reaches(nodes, b, c)
    ensures Reaches(nodes, a, c)
  {
    var i: nat :| Climb(nodes, a, i) == Some(b);
    var j: nat :| Climb(nodes, b, j) == Some(c);
    ClimbOn(nodes, a, i, b, j);
  }

  lemma ReachesUp(nodes: Nodes, c: nat, p: nat, r: nat)
    requires Up(nodes, c) == Some(p)
    ensures Reaches(nodes, p, r) ==> Reaches(nodes, c, r)
    ensures Reaches(nodes, c, r) && c != r ==> Reaches(nodes, p, r)
  {
    if Reaches(nodes, p, r) {
      var k: nat :| Climb(nodes, p, k) == Some(r);
      assert Climb(nodes, c, k + 1) == Some(r);
    }
    if Reaches(nodes, c, r) && c != r {
      var k: nat :| Climb(nodes, c, k) == Some(r);
      assert Climb(nodes, p, k - 1) == Some(r);
    }
  }

  // ------------------------------------------------------------------ root_of

  /** Where a chain of parents ends: at a node without a parent among the nodes, or somewhere on a cycle. */
  ghost predicate IsTop(nodes: Nodes, r: nat) {
    r in nodes && (Up(nodes, r).Some? ==> Reaches(nodes, Up(nodes, r).value, r))
  }

  /** `root_of`: the top of the chain, and the parent that is missing or would close a cycle. */
  method RootOf(nodes: Nodes, c: nat) returns (root: nat, missing: Option<nat>)
    requires c in nodes
    ensures Reaches(nodes, c, root) && IsTop(nodes, root)
    ensures missing == nodes[root].parent
    ensures missing.Some? && missing.value in nodes ==> Reaches(nodes, missing.value, root)
  {
    var seen: set<nat> := {};
    var current := c;
    ghost var steps: nat := 0;
    while true
      invariant current in nodes && current !in seen && seen <= nodes.Keys
      invariant Climb(nodes, c, steps) == Some(current)
      invariant forall x :: x in seen ==> Reaches(nodes, x, current)
      decreases nodes.Keys - seen
    {
      seen := seen + {current};
      var parent := nodes[current].parent;
      if parent.None? {
        return current, None;
      }
      if parent.value !in nodes {
        return current, parent;
      }
      assert Climb(nodes, current, 0) == Some(current);
      if parent.value in seen {
        return current, parent;
      }
      forall x | x in seen ensures Reaches(nodes, x, parent.value) {
        assert Climb(nodes, parent.value, 0) == Some(parent.value);
        ReachesUp(nodes, current, parent.value, parent.value);
        if x != current {
          ReachesTransitive(nodes, x, current, parent.value);
        }
      }
      ClimbOn(nodes, c, steps, current, 1);
      assert Climb(nodes, current, 1) == Climb(nodes, parent.value, 0);
      current := parent.value;
      steps := steps + 1;
    }
  }

  // ------------------------------------------------------------------ the partition

  /** One of the two is the other's parent. */
  ghost predicate Link(nodes: Nodes, a: nat, b: nat) {
    Up(nodes, a) == Some(b) || Up(nodes, b) == Some(a)
  }

  ghost predicate IsPath(nodes: Nodes, p: seq<nat>) {
    && p != []
    && (forall i :: 0 <= i < |p| ==> p[i] in nodes)
    && (forall i :: 0 <= i < |p| - 1 ==> Link(nodes, p[i], p[i + 1]))
  }

  /** Connected through parent links inside `nodes`, followed in either direction. */
  ghost predicate Linked(nodes: Nodes, a: nat, b: nat) {
    exists p :: IsPath(nodes, p) && p[0] == a && p[|p| - 1] == b
  }

  lemma {:induction false} ChainIsPath(nodes: Nodes, c: nat, k: nat, r: nat) returns (p: seq<nat>)
    requires c in nodes && Climb(nodes, c, k) == Some(r)
    ensures IsPath(nodes, p) && p[0] == c && p[|p| - 1] == r
    decreases k
  {
    if k == 0 {
      p := [c];
    } else {
      var rest := ChainIsPath(nodes, Up(nodes, c).value, k - 1, r);
      p := [c] + rest;
      assert forall i :: 0 <= i < |rest| ==> p[i + 1] == rest[i];
      forall i | 0 <= i < |p| - 1 ensures Link(nodes, p[i], p[i + 1]) {
        if i > 0 {
          assert Link(nodes, rest[i - 1], rest[i]);
        }
      }
    }
  }

  lemma ReversedPath(nodes: Nodes, p: seq<nat>) returns (q: seq<nat>)
    requires IsPath(nodes, p)
    ensures IsPath(nodes, q) && q[0] == p[|p| - 1] && q[|q| - 1] == p[0]
  {
    q := seq(|p|, i requires 0 <= i < |p| => p[|p| - 1 - i]);
    forall i | 0 <= i < |q| - 1 ensures Link(nodes, q[i], q[i + 1]) {
      assert Link(nodes, p[|p| - 2 - i], p[|p| - 1 - i]);
    }
  }

  lemma JoinedPath(nodes: Nodes, p: seq<nat>, q: seq<nat>) returns (r: seq<nat>)
    requires IsPath(nodes, p) && IsPath(nodes, q) && p[|p| - 1] == q[0]
    ensures IsPath(nodes, r) && r[0] == p[0] && r[|r| - 1] == q[|q| - 1]
  {
    r := p + q[1..];
    forall i | 0 <= i < |r| - 1 ensures Link(nodes, r[i], r[i + 1]) {
      if i < |p| - 1 {
        assert Link(nodes, p[i], p[i + 1]);
      } else {
        assert Link(nodes, q[i - |p| + 1], q[i - |p| + 2]);
      }
    }
  }

  /** The nodes below a top are closed under links. */
  lemma LinkStaysBelow(nodes: Nodes, root: nat, x: nat, y: nat)
    requires IsTop(nodes, root) && Reaches(nodes, x, root) && Link(nodes, x, y)
    ensures Reaches(nodes, y, root)
  {
    if Up(nodes, x) == Some(y) {
      ReachesUp(nodes, x, y, root);
    } else {
      ReachesUp(nodes, y, x, root);
    }
  }

  lemma {:induction false} PathStaysBelow(nodes: Nodes, root: nat, p: seq<nat>, i: nat)
    requires IsTop(nodes, root) && IsPath(nodes, p) && Reaches(nodes, p[0], root) && i < |p|
    ensures Reaches(nodes, p[i], root)
  {
    if i > 0 {
      PathStaysBelow(nodes, root, p, i - 1);
      assert Link(nodes, p[i - 1], p[i]);
      LinkStaysBelow(nodes, root, p[i - 1], p[i]);
    }
  }

  /** What reaches the top of c's chain is exactly what is linked to c. */
  lemma BelowTopIsComponent(nodes: Nodes, c: nat, root: nat, x: nat)
    requires c in nodes && x in nodes && IsTop(nodes, root) && Reaches(nodes, c, root)
    ensures Reaches(nodes, x, root) <==> Linked(nodes, c, x)
  {
    if Reaches(nodes, x, root) {
      var i: nat :| Climb(nodes, c, i) == Some(root);
      var j: nat :| Climb(nodes, x, j) == Some(root);
      var p := ChainIsPath(nodes, c, i, root);
      var q := ChainIsPath(nodes, x, j, root);
      var q' := ReversedPath(nodes, q);
      var r := JoinedPath(nodes, p, q');
    }
    if Linked(nodes, c, x) {
      var p :| IsPath(nodes, p) && p[0] == c && p[|p| - 1] == x;
      PathStaysBelow(nodes, root, p, |p| - 1);
    }
  }
}
