/**
 Which ancestors a branch inherits from, and up to where: `lineage` of
 app/services/branch_context_service.py.
 */
module BranchLineage {
  import opened Sequences
  import opened Wrappers

  datatype Conversation = Conversation(
    id: nat,
    user: nat,
    deleted: bool,
    parent: Option<nat>,
    branchMessage: Option<nat>,
    created: int,
    title: string
  )

  /** What `conversations.get` returns. */
  type Catalog = map<nat, Conversation>

  const MAX_DEPTH := 25

  /** The part of an ancestor that is inherited: up to a message, or for old branches up to a time. */
  datatype Segment = Segment(conversation: nat, title: string, uptoMessage: Option<nat>, uptoTime: Option<int>)

  datatype Cut = MaxDepth | Cycle | Missing | Inaccessible | DeletedAncestor

  datatype Lineage = Lineage(segments: seq<Segment>, truncated: Option<Cut>)

  function SegmentFor(child: Conversation, parent: nat, title: string): Segment {
    Segment(parent, title, child.branchMessage, if child.branchMessage.Some? then None else Some(child.created))
  }

  // ------------------------------------------------------------------ what a lineage is

  /** The i-th conversation on the way up from conv; conv itself is the 0-th. */
  function Nth(db: Catalog, conv: Conversation, chain: seq<Segment>, i: nat): Conversation
    requires i <= |chain|
  {
    if i == 0 || chain[i - 1].conversation !in db then conv else db[chain[i - 1].conversation]
  }

  predicate Seen(conv: Conversation, chain: seq<Segment>, id: nat) {
    id == conv.id || exists j :: 0 <= j < |chain| && chain[j].conversation == id
  }

  /** The j-th segment is of the next ancestor, which is the user's own, not deleted and new to the chain. */
  predicate IsLink(db: Catalog, conv: Conversation, chain: seq<Segment>, j: nat) {
    && j < |chain|
    && var id := chain[j].conversation;
       var child := Nth(db, conv, chain, j);
       && id in db && db[id].user == conv.user && !db[id].deleted
       && !Seen(conv, chain[..j], id)
       && child.parent == Some(id)
       && chain[j] == SegmentFor(child, id, db[id].title)
  }

  /** The first ancestors, nearest first, with their boundaries. */
  ghost predicate IsChain(db: Catalog, conv: Conversation, chain: seq<Segment>) {
    |chain| <= MAX_DEPTH && forall j {:trigger IsLink(db, conv, chain, j)} :: 0 <= j < |chain| ==> IsLink(db, conv, chain, j)
  }

  /** Why the chain ends after `chain`; None at a conversation without a parent. */
  function End(db: Catalog, conv: Conversation, chain: seq<Segment>, last: Conversation): (r: Option<Option<Cut>>)
  {
    if last.parent.None? then Some(None)
    else
      var p := last.parent.value;
      if |chain| >= MAX_DEPTH then Some(Some(MaxDepth))
      else if Seen(conv, chain, p) then Some(Some(Cycle))
      else if p !in db then Some(Some(Missing))
      else if db[p].user != conv.user then Some(Some(Inaccessible))
      else if db[p].deleted then Some(Some(DeletedAncestor))
      else None
  }

  /** The chain cannot be longer, and `truncated` says why. */
  ghost predicate IsLineage(db: Catalog, conv: Conversation, chain: seq<Segment>, truncated: Option<Cut>) {
    && IsChain(db, conv, chain)
    && End(db, conv, chain, Nth(db, conv, chain, |chain|)) == Some(truncated)
  }

  lemma Longer(db: Catalog, conv: Conversation, chain: seq<Segment>, next: Segment)
    requires IsChain(db, conv, chain)
    requires End(db, conv, chain, Nth(db, conv, chain, |chain|)).None?
    requires var last := Nth(db, conv, chain, |chain|);
             next == SegmentFor(last, last.parent.value, db[last.parent.value].title)
    ensures IsChain(db, conv, chain + [next])
    ensures Nth(db, conv, chain + [next], |chain| + 1) == db[next.conversation]
  {
    var more := chain + [next];
    forall j | 0 <= j < |more| ensures IsLink(db, conv, more, j) {
      assert more[..j] == chain[..j];
      if j < |chain| {
        assert IsLink(db, conv, chain, j);
        assert Nth(db, conv, more, j) == Nth(db, conv, chain, j);
      } else {
        assert chain[..j] == chain;
      }
    }
  }

  lemma NoChain(db: Catalog, conv: Conversation)
    ensures IsChain(db, conv, []) && forall id :: Seen(conv, [], id) <==> id == conv.id
  {
  }

  lemma SeenMore(conv: Conversation, chain: seq<Segment>, next: Segment, id: nat)
    ensures Seen(conv, chain + [next], id) <==> Seen(conv, chain, id) || id == next.conversation
  {
    var more := chain + [next];
    assert more[|chain|] == next;
    if Seen(conv, chain, id) && id != conv.id {
      var j :| 0 <= j < |chain| && chain[j].conversation == id;
      assert more[j].conversation == id;
    }
  }

  lemma LineageFound(db: Catalog, conv: Conversation, chain: seq<Segment>, truncated: Option<Cut>)
    requires IsChain(db, conv, chain) && End(db, conv, chain, Nth(db, conv, chain, |chain|)) == Some(truncated)
    ensures IsLineage(db, conv, Reversed(Reversed(chain)), truncated)
  {
    ReversedTwice(chain);
  }

  /** A chain, written out: each segment is of the parent of the conversation below it, with its boundary. */
  lemma LinksAre(db: Catalog, conv: Conversation, chain: seq<Segment>, j: nat)
    requires IsChain(db, conv, chain) && j < |chain|
    ensures chain[j].conversation in db && (j > 0 ==> chain[j - 1].conversation in db)
    ensures var child := if j == 0 then conv else db[chain[j - 1].conversation];
            var parent := db[chain[j].conversation];
            && child.parent == Some(chain[j].conversation) && parent.user == conv.user && !parent.deleted
            && chain[j].title == parent.title && chain[j].uptoMessage == child.branchMessage
            && chain[j].uptoTime == if child.branchMessage == None then Some(child.created) else None
  {
    assert IsLink(db, conv, chain, j);
    if j > 0 {
      assert IsLink(db, conv, chain, j - 1);
    }
  }

  /** Why a lineage ends, written out. */
  lemma EndIs(db: Catalog, conv: Conversation, chain: seq<Segment>, truncated: Option<Cut>)
    requires IsLineage(db, conv, chain, truncated)
    ensures chain != [] ==> chain[|chain| - 1].conversation in db
    ensures var last := if chain == [] then conv else db[chain[|chain| - 1].conversation];
            match last.parent
            case None => truncated == None
            case Some(p) =>
              var seen := p == conv.id || exists j :: 0 <= j < |chain| && chain[j].conversation == p;
              truncated == Some(if |chain| >= MAX_DEPTH then MaxDepth
                                else if seen then Cycle
                                else if p !in db then Missing
                                else if db[p].user != conv.user then Inaccessible
                                else DeletedAncestor)
              && (truncated == Some(DeletedAncestor) ==> db[p].deleted)
  {
    if chain != [] {
      assert IsLink(db, conv, chain, |chain| - 1);
    }
  }

  /** `lineage`, root first. */
  method ResolveLineage(db: Catalog, conv: Conversation) returns (r: Lineage)
    ensures IsLineage(db, conv, Reversed(r.segments), r.truncated)
  {
    hide IsChain, Seen, Reversed, IsLineage;
    var chain: seq<Segment> := [];
    NoChain(db, conv);
    var seen := {conv.id};
    var cur := conv;
    var truncated := None;
    while cur.parent.Some?
      invariant IsChain(db, conv, chain) && cur == Nth(db, conv, chain, |chain|)
      invariant forall id :: id in seen <==> Seen(conv, chain, id)
      invariant truncated == None
      decreases MAX_DEPTH - |chain|
    {
      var pid := cur.parent.value;
      if |chain| >= MAX_DEPTH {
        truncated := Some(MaxDepth);
        break;
      }
      if pid in seen {
        truncated := Some(Cycle);
        break;
      }
      if pid !in db {
        truncated := Some(Missing);
        break;
      }
      var parent := db[pid];
      if parent.user != conv.user {
        truncated := Some(Inaccessible);
        break;
      }
      if parent.deleted {
        truncated := Some(DeletedAncestor);
        break;
      }
      seen := seen + {pid};
      var next := Segment(pid, parent.title, cur.branchMessage, if cur.branchMessage.Some? then None else Some(cur.created));
      Longer(db, conv, chain, next);
      forall id ensures id in seen <==> Seen(conv, chain + [next], id) {
        SeenMore(conv, chain, next, id);
      }
      chain := chain + [next];
      cur := parent;
    }
    LineageFound(db, conv, chain, truncated);
    r := Lineage(Reversed(chain), truncated);
  }

  // ------------------------------------------------------------------ there is only one, and it reads only ancestors

  predicate SameAt(db: Catalog, db': Catalog, id: nat) {
    (id in db <==> id in db') && (id in db ==> db[id] == db'[id])
  }

  /** Two catalogs give the same chain as far as they agree on the conversations the first one reads. */
  lemma {:induction false} ChainsAgree(db: Catalog, db': Catalog, conv: Conversation, a: seq<Segment>, b: seq<Segment>, i: nat)
    requires IsChain(db, conv, a) && IsChain(db', conv, b) && i <= |a| && i <= |b|
    requires forall j :: 0 <= j < |a| ==> SameAt(db, db', a[j].conversation)
    ensures a[..i] == b[..i] && Nth(db, conv, a, i) == Nth(db', conv, b, i)
  {
    if i > 0 {
      ChainsAgree(db, db', conv, a, b, i - 1);
      assert IsLink(db, conv, a, i - 1) && IsLink(db', conv, b, i - 1);
      assert SameAt(db, db', a[i - 1].conversation);
      assert a[i - 1] == b[i - 1];
      assert a[..i] == a[..i - 1] + [a[i - 1]];
      assert b[..i] == b[..i - 1] + [b[i - 1]];
    }
  }

  /** Where there is another link the chain does not end. */
  lemma LinkIsNoEnd(db: Catalog, conv: Conversation, chain: seq<Segment>, j: nat)
    requires IsChain(db, conv, chain) && j < |chain|
    ensures End(db, conv, chain[..j], Nth(db, conv, chain, j)).None?
  {
    assert IsLink(db, conv, chain, j);
  }

  /**
   The lineage is determined by the conversations on it and the one it stopped at: siblings,
   children and unrelated conversations may be anything.
   */
  lemma LineageIgnoresOthers(db: Catalog, db': Catalog, conv: Conversation, a: seq<Segment>, aCut: Option<Cut>,
                             b: seq<Segment>, bCut: Option<Cut>)
    requires IsLineage(db, conv, a, aCut) && IsLineage(db', conv, b, bCut)
    requires forall j :: 0 <= j < |a| ==> SameAt(db, db', a[j].conversation)
    requires var last := Nth(db, conv, a, |a|); last.parent.Some? ==> SameAt(db, db', last.parent.value)
    ensures a == b && aCut == bCut
  {
    var n := if |a| <= |b| then |a| else |b|;
    ChainsAgree(db, db', conv, a, b, n);
    hide IsChain, Seen;
    assert a[..|a|] == a && b[..|b|] == b;
    if |a| < |b| {
      LinkIsNoEnd(db', conv, b, n);
      assert false;
    } else if |b| < |a| {
      LinkIsNoEnd(db, conv, a, n);
      assert IsLink(db, conv, a, n) by { LinkAt(db, conv, a, n); }
      assert false;
    }
  }

  lemma LinkAt(db: Catalog, conv: Conversation, chain: seq<Segment>, j: nat)
    requires IsChain(db, conv, chain) && j < |chain|
    ensures IsLink(db, conv, chain, j)
  {
  }

  /** A conversation never inherits from itself, and from no ancestor twice. */
  lemma AncestorsAreDistinct(db: Catalog, conv: Conversation, a: seq<Segment>, aCut: Option<Cut>, i: nat, j: nat)
    requires IsLineage(db, conv, a, aCut) && i < j < |a|
    ensures a[i].conversation != a[j].conversation && a[j].conversation != conv.id && a[i].conversation != conv.id
  {
    assert IsLink(db, conv, a, i) && IsLink(db, conv, a, j);
    assert a[..j][i] == a[i];
  }
}
