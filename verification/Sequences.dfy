/** What loops over lists do in several services: reversing, filtering and dropping repeats. */
module Sequences {

  function Reversed<T>(s: seq<T>): (r: seq<T>)
    ensures |r| == |s|
    ensures forall i :: 0 <= i < |s| ==> r[i] == s[|s| - 1 - i]
  {
    seq(|s|, i requires 0 <= i < |s| => s[|s| - 1 - i])
  }

  lemma ReversedTwice<T>(s: seq<T>)
    ensures Reversed(Reversed(s)) == s
  {
  }

  function Filtered<T>(s: seq<T>, keep: T -> bool): seq<T> {
    if s == [] then []
    else Filtered(s[..|s| - 1], keep) + (if keep(s[|s| - 1]) then [s[|s| - 1]] else [])
  }

  lemma {:induction false} FilteredMembers<T>(s: seq<T>, keep: T -> bool, x: T)
    ensures x in Filtered(s, keep) <==> x in s && keep(x)
  {
    if s != [] {
      FilteredMembers(s[..|s| - 1], keep, x);
      assert s == s[..|s| - 1] + [s[|s| - 1]];
    }
  }

  lemma {:induction false} FilteredConcat<T>(a: seq<T>, b: seq<T>, keep: T -> bool)
    ensures Filtered(a + b, keep) == Filtered(a, keep) + Filtered(b, keep)
  {
    if b == [] {
      assert a + b == a;
    } else {
      var last := b[|b| - 1];
      FilteredConcat(a, b[..|b| - 1], keep);
      assert (a + b)[|a + b| - 1] == last && (a + b)[..|a + b| - 1] == a + b[..|b| - 1];
      var x := if keep(last) then [last] else [];
      assert Filtered(a, keep) + Filtered(b[..|b| - 1], keep) + x == Filtered(a, keep) + (Filtered(b[..|b| - 1], keep) + x);
    }
  }

  lemma {:induction false} FilteredNothing<T>(s: seq<T>, keep: T -> bool)
    requires forall x :: x in s ==> !keep(x)
    ensures Filtered(s, keep) == []
  {
    if s != [] {
      assert s[|s| - 1] in s;
      assert forall x :: x in s[..|s| - 1] ==> x in s;
      FilteredNothing(s[..|s| - 1], keep);
    }
  }

  function KeysOf<T>(s: seq<T>, key: T -> nat): set<nat> {
    set i | 0 <= i < |s| :: key(s[i])
  }

  lemma KeysOfAppended<T>(s: seq<T>, x: T, key: T -> nat)
    ensures KeysOf(s + [x], key) == KeysOf(s, key) + {key(x)}
  {
    var t := s + [x];
    forall k | k in KeysOf(s, key) + {key(x)} ensures k in KeysOf(t, key) {
      if k in KeysOf(s, key) {
        var i :| 0 <= i < |s| && key(s[i]) == k;
        assert t[i] == s[i];
      } else {
        assert key(t[|s|]) == k;
      }
    }
    forall k | k in KeysOf(t, key) ensures k in KeysOf(s, key) + {key(x)} {
      var i :| 0 <= i < |t| && key(t[i]) == k;
      assert i < |s| ==> t[i] == s[i];
    }
  }

  /** The first element with each key, in order. */
  function FirstOnes<T>(s: seq<T>, key: T -> nat): seq<T> {
    if s == [] then []
    else
      var r := FirstOnes(s[..|s| - 1], key);
      if key(s[|s| - 1]) in KeysOf(r, key) then r else r + [s[|s| - 1]]
  }

  lemma FirstOnesStep<T>(s: seq<T>, x: T, key: T -> nat)
    ensures var r := FirstOnes(s, key);
            FirstOnes(s + [x], key) == if key(x) in KeysOf(r, key) then r else r + [x]
  {
    assert (s + [x])[..|s|] == s;
  }

  lemma {:induction false} FirstOnesGrow<T>(a: seq<T>, b: seq<T>, key: T -> nat)
    ensures FirstOnes(a, key) <= FirstOnes(a + b, key)
    decreases |b|
  {
    if b == [] {
      assert a + b == a;
    } else {
      FirstOnesGrow(a, b[..|b| - 1], key);
      FirstOnesStep(a + b[..|b| - 1], b[|b| - 1], key);
      assert a + b[..|b| - 1] + [b[|b| - 1]] == a + b;
    }
  }

  /** No key twice, every key once, and elements of the list only. */
  lemma {:induction false} FirstOnesKeys<T>(s: seq<T>, key: T -> nat)
    ensures var r := FirstOnes(s, key);
            && KeysOf(r, key) == KeysOf(s, key)
            && (forall i, j :: 0 <= i < j < |r| ==> key(r[i]) != key(r[j]))
            && (forall x :: x in r ==> x in s)
  {
    if s != [] {
      var a, x := s[..|s| - 1], s[|s| - 1];
      FirstOnesKeys(a, key);
      assert s == a + [x];
      KeysOfAppended(a, x, key);
      KeysOfAppended(FirstOnes(a, key), x, key);
      var r := FirstOnes(s, key);
      forall i, j | 0 <= i < j < |r| ensures key(r[i]) != key(r[j]) {
        if j == |FirstOnes(a, key)| {
          assert key(FirstOnes(a, key)[i]) in KeysOf(FirstOnes(a, key), key);
        }
      }
    }
  }

  /** Without repeats nothing is dropped. */
  lemma {:induction false} FirstOnesAll<T>(s: seq<T>, key: T -> nat)
    requires forall i, j :: 0 <= i < j < |s| ==> key(s[i]) != key(s[j])
    ensures FirstOnes(s, key) == s
  {
    if s != [] {
      var a := s[..|s| - 1];
      FirstOnesAll(a, key);
      assert s == a + [s[|s| - 1]];
      assert forall i :: 0 <= i < |a| ==> a[i] == s[i];
    }
  }

  /** What follows is chosen alike after lists with the same first ones. */
  lemma {:induction false} SameFirstOnes<T>(a: seq<T>, b: seq<T>, more: seq<T>, key: T -> nat)
    requires FirstOnes(a, key) == FirstOnes(b, key)
    ensures FirstOnes(a + more, key) == FirstOnes(b + more, key)
    decreases |more|
  {
    hide FirstOnes;
    if more == [] {
      assert a + more == a && b + more == b;
    } else {
      var front, x := more[..|more| - 1], more[|more| - 1];
      SameFirstOnes(a, b, front, key);
      FirstOnesStep(a + front, x, key);
      FirstOnesStep(b + front, x, key);
      assert a + front + [x] == a + more && b + front + [x] == b + more;
    }
  }
}
