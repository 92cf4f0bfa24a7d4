/**
 Where each conversation of an export goes in the archive: `plan_paths` of app/exports/archive.py.

 Child lists come from the bundle as they are: they may name conversations that are not in it, and
 may run in cycles.
 */
module ArchivePaths {
  import opened Wrappers
  import opened ArchiveNames

  datatype Conv = Conv(id: Id, title: string, parent: Option<Id>, children: seq<Id>)

  type Bundle = map<Id, Conv>

  ghost predicate UniqueIds(convs: seq<Conv>) {
    forall i, j :: 0 <= i < j < |convs| ==> convs[i].id != convs[j].id
  }

  predicate IsRoot(b: Bundle, c: Id)
    requires c in b
  {
    b[c].parent.None? || b[c].parent.value !in b
  }

  // ------------------------------------------------------------------ what a plan is

  /** `n` disambiguating letters. */
  function Xs(n: nat): string {
    seq(n, i => 'x')
  }

  function Base(dirs: map<Id, string>, under: Option<Id>): string {
    if under.None? then "conversations"
    else if under.value in dirs then dirs[under.value] + "/" + "branches" else ""
  }

  /** Under which conversation a directory is, if any, and how many letters its name got. */
  datatype Place = Place(under: Option<Id>, extra: nat)

  type Plan = map<Id, Place>

  function DirOf(b: Bundle, dirs: map<Id, string>, c: Id, place: Place): string
    requires c in b
  {
    Base(dirs, place.under) + "/" + (DirName(b[c].title, c) + Xs(place.extra))
  }

  /** Its directory without such letters. */
  function PlainDir(b: Bundle, dirs: map<Id, string>, c: Id, under: Option<Id>): string
    requires c in b
  {
    Base(dirs, under) + "/" + DirName(b[c].title, c)
  }

  ghost predicate Injective(dirs: map<Id, string>) {
    forall c, d {:trigger dirs[c], dirs[d]} :: c in dirs && d in dirs && c != d ==> dirs[c] != dirs[d]
  }

  /** No two conversations agree in slug and first eight digits of the id. */
  ghost predicate DistinctNames(b: Bundle) {
    forall c, d {:trigger DirName(b[c].title, c), DirName(b[d].title, d)} ::
      c in b && d in b && c != d ==> DirName(b[c].title, c) != DirName(b[d].title, d)
  }

  predicate Lists(b: Bundle, c: Id, d: Id) {
    c in b && d in b[c].children
  }

  /** With the roots, and with each conversation what it lists. */
  ghost predicate HoldsWhatIsReached(b: Bundle, s: set<Id>) {
    && (forall d :: d in b && IsRoot(b, d) ==> d in s)
    && (forall d, k :: d in s && Lists(b, d, k) && k in b ==> k in s)
  }

  /** Chains of child listings do not lead from a root to c. */
  ghost predicate OutOfReach(b: Bundle, c: Id) {
    exists s: set<Id> :: c !in s && HoldsWhatIsReached(b, s)
  }

  /** A directory is directly under `branches/` of a conversation that lists it, or under `conversations/`. */
  predicate MayBeUnder(b: Bundle, dirs: map<Id, string>, c: Id, under: Option<Id>) {
    under.Some? ==> under.value in dirs && under.value in b && c in b[under.value].children
  }

  /** The name with fewer than n letters more is always another's. */
  ghost predicate TakenBelow(base: string, used: set<string>, n: nat) {
    forall i :: 0 <= i < n ==> base + Xs(i) in used
  }

  /** Where c is, with no more letters than the names in use call for, and none if names are distinct. */
  ghost predicate IsPlaced(b: Bundle, dirs: map<Id, string>, plan: Plan, c: Id, distinct: bool) {
    && c in b && c in dirs && c in plan
    && dirs[c] == DirOf(b, dirs, c, plan[c])
    && MayBeUnder(b, dirs, c, plan[c].under)
    && plan[c].extra < |b|
    && (distinct ==> plan[c].extra == 0)
    && TakenBelow(PlainDir(b, dirs, c, plan[c].under), dirs.Values, plan[c].extra)
  }

  ghost predicate IsPartialPlan(b: Bundle, dirs: map<Id, string>, plan: Plan, distinct: bool) {
    && dirs.Keys <= b.Keys && plan.Keys == dirs.Keys
    && forall c {:trigger IsPlaced(b, dirs, plan, c, distinct)} :: c in dirs ==> IsPlaced(b, dirs, plan, c, distinct)
  }

  ghost predicate IsPlan(b: Bundle, dirs: map<Id, string>, plan: Plan) {
    && IsPartialPlan(b, dirs, plan, DistinctNames(b))
    && dirs.Keys == b.Keys
    && Injective(dirs)
    && forall c :: c in dirs && plan[c].under.None? ==> IsRoot(b, c) || OutOfReach(b, c)
  }

  // ------------------------------------------------------------------ the loop that stays unique

  /** Only as many names can be taken as are in use. */
  lemma {:induction false} TakenIsBounded(base: string, used: set<string>, n: nat)
    requires TakenBelow(base, used, n)
    ensures n <= |used|
  {
    if n > 0 {
      var last := base + Xs(n - 1);
      assert last in used;
      assert forall i :: 0 <= i < n - 1 ==> |base + Xs(i)| < |last|;
      TakenIsBounded(base, used - {last}, n - 1);
    }
  }

  lemma {:induction false} SubsetSize<T>(a: set<T>, b: set<T>)
    requires a <= b
    ensures |a| <= |b| && (a != b ==> |a| < |b|)
    decreases a
  {
    if a == {} {
      assert b != {} ==> |b| > 0;
    } else {
      var x :| x in a;
      SubsetSize(a - {x}, b - {x});
    }
  }

  /** Two names under directories that agree: the last components agree too. */
  lemma LastParts(a: string, x: string, b: string, y: string)
    requires '/' !in x && '/' !in y && a + "/" + x == b + "/" + y
    ensures x == y
  {
    SplitJoined(a, x);
    SplitJoined(b, y);
    SplitPlain(x);
    SplitPlain(y);
    assert (Split(a) + [x])[|Split(a)|] == x;
    assert (Split(b) + [y])[|Split(b)|] == y;
    assert |Split(a) + [x]| == |Split(b) + [y]|;
  }

  /** With distinct names the first candidate is free. */
  lemma DistinctIsFree(b: Bundle, dirs: map<Id, string>, plan: Plan, c: Id, d: Id, base: string)
    requires DistinctNames(b) && IsPlaced(b, dirs, plan, d, true) && c in b && c != d
    ensures dirs[d] != base + "/" + DirName(b[c].title, c)
  {
    var mine, other := DirName(b[c].title, c), DirName(b[d].title, d);
    assert other + Xs(0) == other;
    assert dirs[d] == Base(dirs, plan[d].under) + "/" + other;
    if dirs[d] == base + "/" + mine {
      LastParts(Base(dirs, plan[d].under), other, base, mine);
    }
  }

  /** Everything c lists is placed. */
  ghost predicate KidsPlaced(b: Bundle, dirs: map<Id, string>, c: Id) {
    c in b && forall k :: k in b[c].children && k in b ==> k in dirs
  }

  lemma PlacedKeeps(b: Bundle, dirs: map<Id, string>, plan: Plan, c: Id, path: string, place: Place, d: Id, distinct: bool)
    requires IsPlaced(b, dirs, plan, d, distinct) && c !in dirs
    ensures IsPlaced(b, dirs[c := path], plan[c := place], d, distinct)
  {
    var more := dirs[c := path];
    assert Base(more, plan[d].under) == Base(dirs, plan[d].under);
    ValuesGrow(dirs, c, path);
    TakenStays(PlainDir(b, dirs, d, plan[d].under), dirs.Values, more.Values, plan[d].extra);
    hide TakenBelow;
  }

  lemma TakenStays(base: string, used: set<string>, more: set<string>, n: nat)
    requires TakenBelow(base, used, n) && used <= more
    ensures TakenBelow(base, more, n)
  {
  }

  lemma NewIsPlaced(b: Bundle, dirs: map<Id, string>, plan: Plan, c: Id, path: string, place: Place, distinct: bool)
    requires c in b && c !in dirs && path == DirOf(b, dirs, c, place) && MayBeUnder(b, dirs, c, place.under)
    requires place.extra < |b| && (distinct ==> place.extra == 0)
    requires TakenBelow(PlainDir(b, dirs, c, place.under), dirs.Values, place.extra)
    ensures IsPlaced(b, dirs[c := path], plan[c := place], c, distinct)
  {
    assert Base(dirs[c := path], place.under) == Base(dirs, place.under);
    ValuesGrow(dirs, c, path);
    TakenStays(PlainDir(b, dirs, c, place.under), dirs.Values, dirs[c := path].Values, place.extra);
    hide TakenBelow;
  }

  lemma AllPlacedKeep(b: Bundle, dirs: map<Id, string>, plan: Plan, c: Id, path: string, place: Place, distinct: bool)
    requires c !in dirs
    requires forall d {:trigger IsPlaced(b, dirs, plan, d, distinct)} :: d in dirs ==> IsPlaced(b, dirs, plan, d, distinct)
    ensures forall d {:trigger IsPlaced(b, dirs[c := path], plan[c := place], d, distinct)} ::
      d in dirs ==> IsPlaced(b, dirs[c := path], plan[c := place], d, distinct)
  {
    forall d | d in dirs ensures IsPlaced(b, dirs[c := path], plan[c := place], d, distinct) {
      assert IsPlaced(b, dirs, plan, d, distinct);
      PlacedKeeps(b, dirs, plan, c, path, place, d, distinct);
    }
  }

  /** Adding one conversation at a free place. */
  lemma PlanGrows(b: Bundle, dirs: map<Id, string>, plan: Plan, c: Id, path: string, place: Place, distinct: bool)
    requires IsPartialPlan(b, dirs, plan, distinct)
    requires c in b && c !in dirs && path == DirOf(b, dirs, c, place) && MayBeUnder(b, dirs, c, place.under)
    requires place.extra < |b| && (distinct ==> place.extra == 0)
    requires TakenBelow(PlainDir(b, dirs, c, place.under), dirs.Values, place.extra)
    ensures IsPartialPlan(b, dirs[c := path], plan[c := place], distinct)
  {
    NewIsPlaced(b, dirs, plan, c, path, place, distinct);
    AllPlacedKeep(b, dirs, plan, c, path, place, distinct);
  }

  lemma ValuesGrow(dirs: map<Id, string>, c: Id, path: string)
    requires c !in dirs
    ensures dirs[c := path].Values == dirs.Values + {path}
  {
    var more := dirs[c := path];
    assert forall d :: d in dirs ==> d in more && more[d] == dirs[d];
    assert c in more && more[c] == path;
  }

  lemma {:induction false} FewerValues(dirs: map<Id, string>)
    ensures |dirs.Values| <= |dirs.Keys|
    decreases dirs.Keys
  {
    if dirs.Keys == {} {
      assert dirs.Values == {};
    } else {
      var c :| c in dirs.Keys;
      var rest := dirs - {c};
      FewerValues(rest);
      assert dirs == rest[c := dirs[c]];
      ValuesGrow(rest, c, dirs[c]);
      assert dirs.Keys == rest.Keys + {c};
    }
  }

  lemma SharedPath(dirs: map<Id, string>, c: Id, d: Id)
    requires c in dirs && d in dirs && c != d && dirs[c] == dirs[d]
    ensures |dirs.Values| < |dirs.Keys|
  {
    var rest := dirs - {c};
    FewerValues(rest);
    assert dirs.Keys == rest.Keys + {c};
    assert d in rest && rest[d] == dirs[c];
    assert forall k :: k in dirs && k != c ==> k in rest && rest[k] == dirs[k];
    assert rest.Values == dirs.Values;
  }

  /** As many paths as conversations: then no two share one. */
  lemma SameSizeIsInjective(dirs: map<Id, string>)
    requires |dirs.Values| == |dirs.Keys|
    ensures Injective(dirs)
  {
    forall c, d | c in dirs && d in dirs && c != d ensures dirs[c] != dirs[d] {
      if dirs[c] == dirs[d] {
        SharedPath(dirs, c, d);
      }
    }
  }

  /** How many names under one directory can be taken, and that none is with distinct names. */
  lemma TakenNames(b: Bundle, dirs: map<Id, string>, plan: Plan, c: Id, base: string, n: nat, distinct: bool)
    requires distinct ==> DistinctNames(b)
    requires IsPartialPlan(b, dirs, plan, distinct) && c in b && c !in dirs
    requires |dirs.Values| <= |dirs.Keys| && TakenBelow(base + "/" + DirName(b[c].title, c), dirs.Values, n)
    ensures n < |b| && (distinct ==> n == 0)
  {
    var first := base + "/" + DirName(b[c].title, c);
    TakenIsBounded(first, dirs.Values, n);
    SubsetSize(dirs.Keys, b.Keys);
    if distinct && n > 0 {
      assert first + Xs(0) == first;
      var d :| d in dirs && dirs[d] == first;
      assert IsPlaced(b, dirs, plan, d, distinct);
      DistinctIsFree(b, dirs, plan, c, d, base);
    }
  }

  ghost predicate Extends(dirs: map<Id, string>, dirs': map<Id, string>) {
    dirs.Keys <= dirs'.Keys && forall c {:trigger dirs[c]} {:trigger dirs'[c]} :: c in dirs ==> dirs'[c] == dirs[c]
  }

  lemma ExtendsTransitive(a: map<Id, string>, b: map<Id, string>, c: map<Id, string>)
    requires Extends(a, b) && Extends(b, c)
    ensures Extends(a, c)
  {
  }

  lemma UpdateExtends(dirs: map<Id, string>, c: Id, path: string)
    requires c !in dirs
    ensures Extends(dirs, dirs[c := path])
  {
  }

  /** What the listed conversations list is placed. */
  ghost predicate AreSettled(b: Bundle, ids: set<Id>, dirs: map<Id, string>) {
    forall c {:trigger KidsPlaced(b, dirs, c)} :: c in ids ==> KidsPlaced(b, dirs, c)
  }

  /**
   The planner's state: the paths in use are those handed out, whatever is not pending has its
   children placed, and the conversations directly under `conversations/` are the tops.
   */
  ghost predicate Consistent(b: Bundle, dirs: map<Id, string>, used: set<string>, plan: Plan, pending: set<Id>, tops: set<Id>,
                             distinct: bool)
  {
    && IsPartialPlan(b, dirs, plan, distinct)
    && AreInUse(dirs, used)
    && pending <= dirs.Keys
    && AreSettled(b, dirs.Keys - pending, dirs)
    && AreTops(plan, tops)
  }

  /** The paths in use are those handed out, each to one conversation. */
  ghost predicate AreInUse(dirs: map<Id, string>, used: set<string>) {
    used == dirs.Values && |used| == |dirs.Keys|
  }

  ghost predicate AreTops(plan: Plan, tops: set<Id>) {
    forall c {:trigger plan[c]} :: c in plan && plan[c].under.None? ==> c in tops
  }

  lemma SettledStay(b: Bundle, ids: set<Id>, dirs: map<Id, string>, c: Id, path: string)
    requires AreSettled(b, ids, dirs)
    ensures AreSettled(b, ids, dirs[c := path])
  {
    forall d | d in ids ensures KidsPlaced(b, dirs[c := path], d) {
      assert KidsPlaced(b, dirs, d);
    }
  }

  lemma SettledGrows(b: Bundle, dirs: map<Id, string>, pending: set<Id>, c: Id, path: string)
    requires AreSettled(b, dirs.Keys - pending, dirs) && pending <= dirs.Keys
    ensures AreSettled(b, dirs[c := path].Keys - (pending + {c}), dirs[c := path])
    ensures pending + {c} <= dirs[c := path].Keys
  {
    SettledStay(b, dirs.Keys - pending, dirs, c, path);
    assert dirs[c := path].Keys - (pending + {c}) <= dirs.Keys - pending;
  }

  lemma TopsGrow(plan: Plan, tops: set<Id>, c: Id, place: Place)
    requires AreTops(plan, tops)
    ensures AreTops(plan[c := place], if place.under.None? then tops + {c} else tops)
  {
  }

  lemma InUseGrows(dirs: map<Id, string>, used: set<string>, c: Id, path: string)
    requires c !in dirs && path !in used && AreInUse(dirs, used)
    ensures AreInUse(dirs[c := path], used + {path})
  {
    ValuesGrow(dirs, c, path);
    assert dirs[c := path].Keys == dirs.Keys + {c};
  }

  lemma ConsistentGrows(b: Bundle, dirs: map<Id, string>, used: set<string>, plan: Plan, pending: set<Id>, tops: set<Id>,
                        distinct: bool, c: Id, path: string, place: Place)
    requires Consistent(b, dirs, used, plan, pending, tops, distinct) && path !in used
    requires c in b && c !in dirs && path == DirOf(b, dirs, c, place) && MayBeUnder(b, dirs, c, place.under)
    requires place.extra < |b| && (distinct ==> place.extra == 0)
    requires TakenBelow(PlainDir(b, dirs, c, place.under), dirs.Values, place.extra)
    ensures var tops' := if place.under.None? then tops + {c} else tops;
            Consistent(b, dirs[c := path], used + {path}, plan[c := place], pending + {c}, tops', distinct)
  {
    PlanGrows(b, dirs, plan, c, path, place, distinct);
    InUseGrows(dirs, used, c, path);
    SettledGrows(b, dirs, pending, c, path);
    TopsGrow(plan, tops, c, place);
  }

  lemma PlannedAreListed(b: Bundle, dirs: map<Id, string>, used: set<string>, plan: Plan, pending: set<Id>, tops: set<Id>,
                         distinct: bool)
    requires Consistent(b, dirs, used, plan, pending, tops, distinct)
    ensures dirs.Keys <= b.Keys
  {
  }

  lemma ConsistentSettles(b: Bundle, dirs: map<Id, string>, used: set<string>, plan: Plan, pending: set<Id>, tops: set<Id>,
                          distinct: bool, c: Id)
    requires Consistent(b, dirs, used, plan, pending, tops, distinct) && KidsPlaced(b, dirs, c)
    ensures Consistent(b, dirs, used, plan, pending - {c}, tops, distinct)
  {
    forall d | d in dirs.Keys - (pending - {c}) ensures KidsPlaced(b, dirs, d) {
      if d != c {
        assert d in dirs.Keys - pending;
      }
    }
  }

  lemma FirstName(name: string, base: string)
    ensures name + Xs(0) == name && base + "/" + name + Xs(0) == base + "/" + name
  {
  }

  lemma OneMore(name: string, base: string, n: nat)
    ensures name + Xs(n) + "x" == name + Xs(n + 1)
    ensures base + "/" + (name + Xs(n + 1)) == base + "/" + name + Xs(n + 1)
  {
    assert Xs(n + 1) == Xs(n) + "x";
  }

  /** A conversation that was not placed below a root is out of reach of the roots. */
  lemma UnplacedIsOutOfReach(b: Bundle, dirs: map<Id, string>, c: Id)
    requires AreSettled(b, dirs.Keys, dirs) && c !in dirs
    requires forall d :: d in b && IsRoot(b, d) ==> d in dirs
    ensures OutOfReach(b, c)
  {
    forall d, k | d in dirs.Keys && d in b && k in b[d].children && k in b ensures k in dirs.Keys {
      assert KidsPlaced(b, dirs, d);
    }
  }

  ghost predicate RootsArePlaced(b: Bundle, dirs: map<Id, string>) {
    forall d :: d in b && IsRoot(b, d) ==> d in dirs
  }

  ghost predicate AreRoots(b: Bundle, ids: set<Id>) {
    forall c :: c in ids && c in b ==> IsRoot(b, c)
  }

  lemma NoRoots(b: Bundle)
    ensures AreRoots(b, {})
  {
  }

  lemma OneMoreRoot(b: Bundle, tops: set<Id>, r: Id)
    requires r in b && AreRoots(b, tops) && IsRoot(b, r)
    ensures AreRoots(b, tops + {r})
  {
  }

  lemma AllAreSettled(b: Bundle, dirs: map<Id, string>, used: set<string>, plan: Plan, tops: set<Id>, distinct: bool)
    requires Consistent(b, dirs, used, plan, {}, tops, distinct)
    ensures AreSettled(b, dirs.Keys, dirs)
  {
    assert dirs.Keys - {} == dirs.Keys;
  }

  lemma AllRootsArePlaced(b: Bundle, dirs: map<Id, string>, ids: seq<Id>)
    requires forall k :: k in ids <==> k in b
    requires forall j :: 0 <= j < |ids| && IsRoot(b, ids[j]) ==> ids[j] in dirs
    ensures RootsArePlaced(b, dirs)
  {
    forall d | d in b && IsRoot(b, d) ensures d in dirs {
      var j :| 0 <= j < |ids| && ids[j] == d;
    }
  }

  class Planner {
    const byId: Bundle
    var dirs: map<Id, string>
    var used: set<string>
    ghost const distinct: bool
    ghost var plan: Plan
    /** The conversations whose children are being placed. */
    ghost var pending: set<Id>
    /** The conversations directly under `conversations/`. */
    ghost var tops: set<Id>

    constructor (b: Bundle)
      ensures byId == b && distinct == DistinctNames(b) && Valid() && dirs == map[] && pending == {} && tops == {}
    {
      byId, dirs, used, plan, pending, tops := b, map[], {}, map[], {}, {};
      distinct := DistinctNames(b);
    }

    ghost predicate Valid()
      reads this
    {
      Consistent(byId, dirs, used, plan, pending, tops, distinct) && (distinct ==> DistinctNames(byId))
    }

    /** The first free name under a directory. */
    method FreePath(cid: Id, base: string, ghost under: Option<Id>) returns (path: string, ghost n: nat)
      requires Valid() && cid in byId && cid !in dirs && base == Base(dirs, under)
      ensures path == DirOf(byId, dirs, cid, Place(under, n)) && path !in used
      ensures n < |byId| && (distinct ==> n == 0)
      ensures TakenBelow(PlainDir(byId, dirs, cid, under), dirs.Values, n)
    {
      ghost var plain := DirName(byId[cid].title, cid);
      var name := DirName(byId[cid].title, cid);
      path := base + "/" + name;
      n := 0;
      FirstName(plain, base);
      while path in used
        invariant name == plain + Xs(n)
        invariant path == base + "/" + name == base + "/" + plain + Xs(n)
        invariant TakenBelow(base + "/" + plain, used, n)
        decreases |used| - n
      {
        TakenIsBounded(base + "/" + plain, used, n + 1);
        name := name + "x";
        path := base + "/" + name;
        OneMore(plain, base, n);
        n := n + 1;
      }
      TakenNames(byId, dirs, plan, cid, base, n, distinct);
    }

    /** The entry for one conversation, at the first free name. */
    method Enter(cid: Id, base: string, ghost under: Option<Id>) returns (path: string)
      requires Valid() && cid in byId && cid !in dirs
      requires base == Base(dirs, under) && MayBeUnder(byId, dirs, cid, under)
      modifies this
      ensures Valid() && dirs == old(dirs)[cid := path] && pending == old(pending) + {cid}
      ensures tops == if under.None? then old(tops) + {cid} else old(tops)
    {
      hide IsPartialPlan, AreSettled, AreInUse, AreTops, DistinctNames;
      ghost var n: nat;
      path, n := FreePath(cid, base, under);
      ConsistentGrows(byId, dirs, used, plan, pending, tops, distinct, cid, path, Place(under, n));
      used, dirs, plan := used + {path}, dirs[cid := path], plan[cid := Place(under, n)];
      pending, tops := pending + {cid}, if under.None? then tops + {cid} else tops;
    }

    /** `place`: a conversation, then those of its children that have no place yet. */
    method PlaceOne(cid: Id, base: string, ghost under: Option<Id>)
      requires Valid() && cid in byId && cid !in dirs
      requires base == Base(dirs, under) && MayBeUnder(byId, dirs, cid, under)
      modifies this
      ensures Valid() && cid in dirs && Extends(old(dirs), dirs) && pending == old(pending)
      ensures tops == if under.None? then old(tops) + {cid} else old(tops)
      decreases byId.Keys - dirs.Keys
    {
      hide AreInUse, AreTops;
      var path := Enter(cid, base, under);
      ghost var dirs0, pending0, tops0 := dirs, pending, tops;
      UpdateExtends(old(dirs), cid, path);
      var children := byId[cid].children;
      for i := 0 to |children|
        invariant Valid() && Extends(dirs0, dirs) && pending == pending0 && tops == tops0
        invariant forall j :: 0 <= j < i && children[j] in byId ==> children[j] in dirs
      {
        var child := children[i];
        if child in byId && child !in dirs {
          assert cid in dirs && cid in byId.Keys - old(dirs).Keys;
          PlaceOne(child, path + "/" + "branches", Some(cid));
        }
      }
      ExtendsTransitive(old(dirs), dirs0, dirs);
      ConsistentSettles(byId, dirs, used, plan, pending, tops, distinct, cid);
      pending := pending - {cid};
    }

    method PlaceRoots(ids: seq<Id>)
      requires Valid() && pending == {} && tops == {} && forall k :: k in ids <==> k in byId
      modifies this
      ensures Valid() && pending == {} && AreSettled(byId, dirs.Keys, dirs)
      ensures AreRoots(byId, tops) && RootsArePlaced(byId, dirs)
    {
      hide Consistent, AreSettled, AreRoots, IsRoot, RootsArePlaced, DistinctNames;
      NoRoots(byId);
      for i := 0 to |ids|
        invariant Valid() && pending == {}
        invariant AreRoots(byId, tops)
        invariant forall j :: 0 <= j < i && IsRoot(byId, ids[j]) ==> ids[j] in dirs
      {
        var r := ids[i];
        assert r in ids;
        var isRoot := IsRoot(byId, r);
        if isRoot && r !in dirs {
          OneMoreRoot(byId, tops, r);
          PlaceOne(r, "conversations", None);
        }
      }
      AllAreSettled(byId, dirs, used, plan, tops, distinct);
      AllRootsArePlaced(byId, dirs, ids);
    }

    method PlaceRest(ids: seq<Id>)
      requires Valid() && pending == {} && forall i :: 0 <= i < |ids| ==> ids[i] in byId
      modifies this
      ensures Valid() && pending == {} && forall i :: 0 <= i < |ids| ==> ids[i] in dirs
      ensures dirs.Keys <= byId.Keys
      ensures tops - old(tops) !! old(dirs).Keys
    {
      hide Consistent;
      ghost var reached, roots := dirs, tops;
      ghost var late: set<Id> := {};
      for i := 0 to |ids|
        invariant Valid() && pending == {} && Extends(reached, dirs)
        invariant tops == roots + late && late !! reached.Keys
        invariant forall j :: 0 <= j < i ==> ids[j] in dirs
      {
        var c := ids[i];
        if c !in dirs {
          PlaceOne(c, "conversations", None);
          late := late + {c};
        }
      }
      PlannedAreListed(byId, dirs, used, plan, pending, tops, distinct);
    }
  }

  // ------------------------------------------------------------------ a complete plan

  function ById(convs: seq<Conv>): Bundle
    requires UniqueIds(convs)
  {
    map c | c in convs :: c.id := c
  }

  lemma PlanIsComplete(b: Bundle, dirs: map<Id, string>, used: set<string>, plan: Plan, tops: set<Id>,
                       reached: map<Id, string>, roots: set<Id>)
    requires Consistent(b, dirs, used, plan, {}, tops, DistinctNames(b)) && dirs.Keys == b.Keys
    requires AreSettled(b, reached.Keys, reached) && RootsArePlaced(b, reached)
    requires tops - roots !! reached.Keys && AreRoots(b, roots)
    ensures IsPlan(b, dirs, plan)
  {
    SameSizeIsInjective(dirs);
    forall c | c in dirs && plan[c].under.None? && !IsRoot(b, c) ensures OutOfReach(b, c) {
      assert c in tops - roots;
      UnplacedIsOutOfReach(b, reached, c);
    }
  }

  function Files(dirs: map<Id, string>): map<Id, string> {
    map c | c in dirs :: dirs[c] + "/" + "conversation.md"
  }

  function Ids(convs: seq<Conv>): (r: seq<Id>)
    ensures |r| == |convs| && forall i :: 0 <= i < |convs| ==> r[i] == convs[i].id
  {
    seq(|convs|, i requires 0 <= i < |convs| => convs[i].id)
  }

  lemma IdsCover(convs: seq<Conv>)
    requires UniqueIds(convs)
    ensures forall k :: k in Ids(convs) <==> k in ById(convs)
  {
    forall k | k in ById(convs) ensures k in Ids(convs) {
      var i :| 0 <= i < |convs| && convs[i].id == k;
      assert Ids(convs)[i] == k;
    }
    forall k | k in Ids(convs) ensures k in ById(convs) {
      var i :| 0 <= i < |convs| && Ids(convs)[i] == k;
      assert convs[i] in convs;
    }
  }

  // ------------------------------------------------------------------ every path passes the second check

  lemma NameChars(name: string, n: nat)
    requires forall x :: x in name ==> IsSafe(x)
    ensures forall x :: x in name + Xs(n) ==> IsSafe(x)
  {
  }

  /** As `validate_archive_path` wants a component, and as long as a name with that many letters at most. */
  predicate GoodPart(part: string, extra: nat) {
    SafePart(part) && |part| <= 49 + extra
  }

  lemma SafeCharsAreGood(name: string, extra: nat)
    requires 3 <= |name| <= 49 + extra && forall x :: x in name ==> IsSafe(x)
    ensures Split(name) == [name] && GoodPart(name, extra)
  {
    SplitPlain(name);
  }

  lemma NameIsGood(b: Bundle, c: Id, n: nat, extra: nat)
    requires c in b && n <= extra
    ensures var name := DirName(b[c].title, c) + Xs(n);
            Split(name) == [name] && GoodPart(name, extra)
  {
    NameChars(DirName(b[c].title, c), n);
    SafeCharsAreGood(DirName(b[c].title, c) + Xs(n), extra);
  }

  ghost predicate GoodParts(path: string, extra: nat) {
    forall i {:trigger Split(path)[i]} :: 0 <= i < |Split(path)| ==> GoodPart(Split(path)[i], extra)
  }

  lemma GoodPartsJoined(a: string, x: string, extra: nat)
    requires GoodParts(a, extra) && Split(x) == [x] && GoodPart(x, extra)
    ensures GoodParts(a + "/" + x, extra)
  {
    SplitJoined(a, x);
  }

  lemma GoodPartsAlone(x: string, extra: nat)
    requires Split(x) == [x] && GoodPart(x, extra)
    ensures GoodParts(x, extra)
  {
  }

  lemma BaseIsGood(dirs: map<Id, string>, under: Option<Id>, extra: nat)
    requires under.Some? ==> under.value in dirs && GoodParts(dirs[under.value], extra)
    ensures GoodParts(Base(dirs, under), extra)
  {
    SafeCharsAreGood("branches", extra);
    SafeCharsAreGood("conversations", extra);
    if under.Some? {
      GoodPartsJoined(dirs[under.value], "branches", extra);
    } else {
      GoodPartsAlone("conversations", extra);
    }
  }

  lemma {:induction false} DirsAreGood(b: Bundle, dirs: map<Id, string>, plan: Plan, distinct: bool, extra: nat, c: Id)
    requires IsPartialPlan(b, dirs, plan, distinct) && c in dirs
    requires forall d {:trigger plan[d]} :: d in plan ==> plan[d].extra <= extra
    ensures GoodParts(dirs[c], extra)
    decreases |dirs[c]|
  {
    assert IsPlaced(b, dirs, plan, c, distinct);
    var place := plan[c];
    if place.under.Some? {
      DirsAreGood(b, dirs, plan, distinct, extra, place.under.value);
    }
    BaseIsGood(dirs, place.under, extra);
    NameIsGood(b, c, place.extra, extra);
    GoodPartsJoined(Base(dirs, place.under), DirName(b[c].title, c) + Xs(place.extra), extra);
  }

  lemma FilesAreGood(b: Bundle, dirs: map<Id, string>, plan: Plan, distinct: bool, extra: nat, c: Id)
    requires IsPartialPlan(b, dirs, plan, distinct) && c in dirs
    requires forall d {:trigger plan[d]} :: d in plan ==> plan[d].extra <= extra
    ensures GoodParts(Files(dirs)[c], extra)
  {
    DirsAreGood(b, dirs, plan, distinct, extra, c);
    SafeCharsAreGood("conversation.md", extra);
    GoodPartsJoined(dirs[c], "conversation.md", extra);
  }

  lemma GoodPathIsValid(path: string, extra: nat)
    requires GoodParts(path, extra)
    ensures ValidPath(path) <==> forall part :: part in Split(path) ==> |part| <= MAX_PART
    ensures extra <= 71 ==> ValidPath(path)
  {
    ValidByParts(path);
    forall part | part in Split(path) ensures SafePart(part) && |part| <= 49 + extra {
      var i :| 0 <= i < |Split(path)| && Split(path)[i] == part;
      assert GoodPart(Split(path)[i], extra);
    }
  }

  /** The largest number of letters any name got. */
  lemma ExtraIsBounded(b: Bundle, dirs: map<Id, string>, plan: Plan, c: Id)
    requires IsPlan(b, dirs, plan) && c in plan
    ensures plan[c].extra < |b| && (DistinctNames(b) ==> plan[c].extra == 0)
  {
    assert IsPlaced(b, dirs, plan, c, DistinctNames(b));
  }

  /** The name of c, and of every conversation it is below, is short enough with the letters it got. */
  ghost predicate NamesFit(b: Bundle, dirs: map<Id, string>, plan: Plan, distinct: bool, c: Id)
    requires IsPartialPlan(b, dirs, plan, distinct) && c in dirs
    decreases |dirs[c]|
  {
    assert IsPlaced(b, dirs, plan, c, distinct);
    && |DirName(b[c].title, c)| + plan[c].extra <= MAX_PART
    && (plan[c].under.Some? ==> NamesFit(b, dirs, plan, distinct, plan[c].under.value))
  }

  ghost predicate PartsFit(path: string) {
    forall part :: part in Split(path) ==> |part| <= MAX_PART
  }

  lemma PartsFitJoined(a: string, x: string)
    requires Split(x) == [x]
    ensures PartsFit(a + "/" + x) <==> PartsFit(a) && |x| <= MAX_PART
  {
    SplitJoined(a, x);
    assert Split(a + "/" + x)[|Split(a)|] == x;
    assert forall part :: part in Split(a) ==> part in Split(a + "/" + x);
  }

  lemma PartsFitAlone(x: string)
    requires Split(x) == [x] && |x| <= MAX_PART
    ensures PartsFit(x)
  {
  }

  lemma FixedPartsFit()
    ensures Split("branches") == ["branches"] && Split("conversation.md") == ["conversation.md"] && PartsFit("conversations")
  {
    SafeCharsAreGood("branches", 0);
    SafeCharsAreGood("conversation.md", 0);
    SafeCharsAreGood("conversations", 0);
    hide Split;
    PartsFitAlone("conversations");
  }

  lemma BaseFits(dirs: map<Id, string>, under: Option<Id>)
    requires under.Some? ==> under.value in dirs
    ensures PartsFit(Base(dirs, under)) <==> (under.Some? ==> PartsFit(dirs[under.value]))
  {
    hide Split, PartsFit;
    FixedPartsFit();
    if under.Some? {
      PartsFitJoined(dirs[under.value], "branches");
    }
  }

  lemma NamesFitStep(b: Bundle, dirs: map<Id, string>, plan: Plan, distinct: bool, c: Id)
    requires IsPartialPlan(b, dirs, plan, distinct) && c in dirs
    ensures IsPlaced(b, dirs, plan, c, distinct)
    ensures plan[c].under.Some? ==> |dirs[plan[c].under.value]| < |dirs[c]|
    ensures NamesFit(b, dirs, plan, distinct, c) <==>
              |DirName(b[c].title, c)| + plan[c].extra <= MAX_PART &&
              (plan[c].under.Some? ==> NamesFit(b, dirs, plan, distinct, plan[c].under.value))
  {
    assert IsPlaced(b, dirs, plan, c, distinct);
    hide TakenBelow, DirName;
  }

  lemma {:induction false} DirsFit(b: Bundle, dirs: map<Id, string>, plan: Plan, distinct: bool, c: Id)
    requires IsPartialPlan(b, dirs, plan, distinct) && c in dirs
    ensures PartsFit(dirs[c]) <==> NamesFit(b, dirs, plan, distinct, c)
    decreases |dirs[c]|
  {
    hide IsPartialPlan, NamesFit, PartsFit, TakenBelow, DirName, Split, Base, GoodPart;
    NamesFitStep(b, dirs, plan, distinct, c);
    var place := plan[c];
    NameIsGood(b, c, place.extra, place.extra);
    PartsFitJoined(Base(dirs, place.under), DirName(b[c].title, c) + Xs(place.extra));
    BaseFits(dirs, place.under);
    if place.under.Some? {
      DirsFit(b, dirs, plan, distinct, place.under.value);
    }
  }

  lemma GoodPathIsValidIfShort(path: string, extra: nat)
    requires GoodParts(path, extra)
    ensures ValidPath(path) <==> PartsFit(path)
  {
    GoodPathIsValid(path, extra);
  }

  /** A planned path is refused exactly when a name on it grew too long: that of its conversation, or of one above it. */
  lemma OnlyLengthIsRefused(b: Bundle, dirs: map<Id, string>, plan: Plan, c: Id)
    requires IsPlan(b, dirs, plan) && c in b
    ensures ValidPath(Files(dirs)[c]) <==> NamesFit(b, dirs, plan, DistinctNames(b), c)
  {
    hide DistinctNames, NamesFit, GoodParts, ValidPath, PartsFit, Split, IsPartialPlan, OutOfReach, Injective;
    forall d | d in plan ensures plan[d].extra <= |b| {
      ExtraIsBounded(b, dirs, plan, d);
    }
    FilesAreGood(b, dirs, plan, DistinctNames(b), |b|, c);
    GoodPathIsValidIfShort(Files(dirs)[c], |b|);
    DirsFit(b, dirs, plan, DistinctNames(b), c);
    FixedPartsFit();
    PartsFitJoined(dirs[c], "conversation.md");
  }

  /** Without repeated names, or with at most 72 conversations, every planned path is accepted. */
  lemma PlannedPathsAreValid(b: Bundle, dirs: map<Id, string>, plan: Plan, c: Id)
    requires IsPlan(b, dirs, plan) && c in b
    requires DistinctNames(b) || |b| <= 72
    ensures ValidPath(Files(dirs)[c])
  {
    forall d | d in plan ensures plan[d].extra <= 71 {
      ExtraIsBounded(b, dirs, plan, d);
    }
    FilesAreGood(b, dirs, plan, DistinctNames(b), 71, c);
    GoodPathIsValid(Files(dirs)[c], 71);
  }

  lemma TailsDiffer(a: string, b: string, tail: string)
    ensures a + tail == b + tail <==> a == b
  {
    if |a| == |b| {
      assert (a + tail)[..|a|] == a && (b + tail)[..|b|] == b;
    } else {
      assert |a + tail| != |b + tail|;
    }
  }

  /** Different conversations get different paths. */
  lemma PathsAreDistinct(b: Bundle, dirs: map<Id, string>, plan: Plan, c: Id, d: Id)
    requires IsPlan(b, dirs, plan) && c in b && d in b && c != d
    ensures Files(dirs).Keys == b.Keys
    ensures Files(dirs)[c] != Files(dirs)[d]
  {
    TailsDiffer(dirs[c], dirs[d], "/" + "conversation.md");
    assert forall s: string :: s + "/" + "conversation.md" == s + ("/" + "conversation.md");
    assert Files(dirs).Keys == dirs.Keys;
  }

  /** All of it for a whole plan. */
  lemma PlannedPaths(b: Bundle, dirs: map<Id, string>, plan: Plan)
    requires IsPlan(b, dirs, plan)
    ensures ArePlanned(b, Files(dirs)) && Files(dirs).Keys == b.Keys && Injective(Files(dirs))
    ensures DistinctNames(b) || |b| <= 72 ==> forall c :: c in Files(dirs) ==> ValidPath(Files(dirs)[c])
  {
    hide IsPlan, ValidPath, Files, DistinctNames;
    assert Files(dirs).Keys == b.Keys by {
      FilesOfPlan(b, dirs, plan);
    }
    forall c, d | c in b && d in b && c != d ensures Files(dirs)[c] != Files(dirs)[d] {
      PathsAreDistinct(b, dirs, plan, c, d);
    }
    if DistinctNames(b) || |b| <= 72 {
      forall c | c in b ensures ValidPath(Files(dirs)[c]) {
        PlannedPathsAreValid(b, dirs, plan, c);
      }
    }
  }

  lemma FilesOfPlan(b: Bundle, dirs: map<Id, string>, plan: Plan)
    requires IsPlan(b, dirs, plan)
    ensures Files(dirs).Keys == b.Keys
  {
    assert Files(dirs).Keys == dirs.Keys;
  }

  // ------------------------------------------------------------------ plan_paths

  /** The paths of some plan. */
  ghost predicate ArePlanned(b: Bundle, paths: map<Id, string>) {
    exists dirs, plan :: IsPlan(b, dirs, plan) && paths == Files(dirs)
  }

  /**
   `plan_paths`: every conversation gets exactly one path of its own. Roots come first, then what no
   chain of child listings reaches from a root.
   */
  method PlanPaths(convs: seq<Conv>) returns (paths: map<Id, string>)
    requires UniqueIds(convs)
    ensures ArePlanned(ById(convs), paths)
    ensures paths.Keys == ById(convs).Keys && Injective(paths)
    ensures DistinctNames(ById(convs)) || |convs| <= 72 ==> forall c :: c in paths ==> ValidPath(paths[c])
  {
    hide Consistent, AreSettled, RootsArePlaced, AreRoots, ById, Files, IsPlan, ValidPath, DistinctNames, Injective;
    var b := ById(convs);
    IdsCover(convs);
    var planner := new Planner(b);
    planner.PlaceRoots(Ids(convs));
    ghost var reached, roots := planner.dirs, planner.tops;
    planner.PlaceRest(Ids(convs));
    assert planner.dirs.Keys == b.Keys;
    PlanIsComplete(b, planner.dirs, planner.used, planner.plan, planner.tops, reached, roots);
    PlannedPaths(b, planner.dirs, planner.plan);
    FewConversations(convs);
    paths := Files(planner.dirs);
  }

  // ------------------------------------------------------------------ the tree of directories

  /** The child lists are those of the parent links, which do not run in cycles: `rank` grows along them. */
  ghost predicate IsForest(b: Bundle, rank: map<Id, nat>) {
    && (forall c, d :: c in b && d in b ==> (Lists(b, c, d) <==> b[d].parent == Some(c)))
    && (forall c :: c in b ==> c in rank)
    && (forall c :: c in b && b[c].parent.Some? && b[c].parent.value in b ==> rank[b[c].parent.value] < rank[c])
  }

  lemma {:induction false} ForestIsReached(b: Bundle, rank: map<Id, nat>, s: set<Id>, c: Id)
    requires IsForest(b, rank) && c in b
    requires HoldsWhatIsReached(b, s)
    ensures c in s
    decreases rank[c]
  {
    if !IsRoot(b, c) {
      var p := b[c].parent.value;
      ForestIsReached(b, rank, s, p);
      assert Lists(b, p, c);
    }
  }

  /** At the top, or under `branches/` of the parent's directory. */
  predicate StandsUnderParent(b: Bundle, dirs: map<Id, string>, c: Id)
    requires c in b
  {
    c in dirs &&
    if IsRoot(b, c) then dirs[c] == "conversations" + "/" + DirName(b[c].title, c)
    else
      b[c].parent.value in dirs && dirs[c] == dirs[b[c].parent.value] + "/branches" + "/" + DirName(b[c].title, c)
  }

  lemma PlacedUnderParent(b: Bundle, dirs: map<Id, string>, plan: Plan, rank: map<Id, nat>, c: Id)
    requires IsPlan(b, dirs, plan) && IsForest(b, rank) && DistinctNames(b) && c in b
    ensures StandsUnderParent(b, dirs, c)
  {
    assert IsPlaced(b, dirs, plan, c, true);
    hide DirName, DistinctNames, TakenBelow, Injective;
    assert DirName(b[c].title, c) + Xs(0) == DirName(b[c].title, c);
    if plan[c].under.None? && !IsRoot(b, c) {
      var s: set<Id> :| c !in s && HoldsWhatIsReached(b, s);
      ForestIsReached(b, rank, s, c);
      assert false;
    }
    if plan[c].under.Some? {
      assert Lists(b, plan[c].under.value, c);
      assert dirs[plan[c].under.value] + "/" + "branches" == dirs[plan[c].under.value] + "/branches";
    }
  }

  /** A directory of its own for each conversation, and its file in there. */
  ghost predicate MirrorsBranches(b: Bundle, paths: map<Id, string>, dirs: map<Id, string>) {
    && dirs.Keys == paths.Keys == b.Keys
    && (forall c :: c in b ==> paths[c] == dirs[c] + "/" + "conversation.md")
    && (forall c :: c in b ==> StandsUnderParent(b, dirs, c))
  }

  lemma PlanMirrorsBranches(b: Bundle, dirs: map<Id, string>, plan: Plan, rank: map<Id, nat>)
    requires IsPlan(b, dirs, plan) && IsForest(b, rank) && DistinctNames(b)
    ensures MirrorsBranches(b, Files(dirs), dirs)
  {
    assert dirs.Keys == b.Keys;
    hide IsPlan, StandsUnderParent, DistinctNames, IsForest;
    forall c | c in b ensures StandsUnderParent(b, dirs, c) {
      PlacedUnderParent(b, dirs, plan, rank, c);
    }
  }

  /**
   The archive mirrors the branches: with distinct names each conversation is in its own directory under
   `branches/` of its parent's, and one without a parent in the export under `conversations/`.
   */
  lemma ArchiveMirrorsBranches(b: Bundle, paths: map<Id, string>, rank: map<Id, nat>)
    requires ArePlanned(b, paths) && IsForest(b, rank) && DistinctNames(b)
    ensures exists dirs :: MirrorsBranches(b, paths, dirs)
  {
    hide IsPlan, MirrorsBranches, Files, DistinctNames, IsForest;
    var dirs, plan :| IsPlan(b, dirs, plan) && paths == Files(dirs);
    PlanMirrorsBranches(b, dirs, plan, rank);
  }

  lemma FewConversations(convs: seq<Conv>)
    requires UniqueIds(convs)
    ensures |ById(convs)| <= |convs|
  {
    var b := ById(convs);
    assert b.Keys == set i | 0 <= i < |convs| :: convs[i].id;
    IndexImage(convs, |convs|);
  }

  lemma {:induction false} IndexImage(convs: seq<Conv>, n: nat)
    requires n <= |convs|
    ensures |set i | 0 <= i < n :: convs[i].id| <= n
  {
    var ids := set i | 0 <= i < n :: convs[i].id;
    if n == 0 {
      assert ids == {};
    } else {
      IndexImage(convs, n - 1);
      assert ids == (set i | 0 <= i < n - 1 :: convs[i].id) + {convs[n - 1].id};
    }
  }
}
