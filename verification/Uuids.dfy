/**
 Message ids (app/utils/helpers.py): UUID version 7 as in section 5.7 of RFC 9562, packed from a
 clock and ten random bytes. A partition is ordered by them, so a reply's id must be above its
 prompt's.
 */
module Uuids {
  import opened Mp4Boxes

  function Pow256(k: nat): nat {
    if k == 0 then 1 else 256 * Pow256(k - 1)
  }

  /** `n.to_bytes(k, "big")` */
  function ToBytes(n: nat, k: nat): (r: seq<Byte>)
    ensures |r| == k
  {
    if k == 0 then [] else ToBytes(n / 256, k - 1) + [n % 256]
  }

  /** The number a UUID stands for. */
  function Number(u: seq<Byte>): nat {
    BigEndian(u, 0, |u|)
  }

  const MAX_UUID := 0xFFFF_FFFF_FFFF_FFFF_FFFF_FFFF_FFFF_FFFF

  /** `rand` are ten random bytes: six are kept whole, four bits of one and six of another. */
  function UuidV7(ms: nat, rand: seq<Byte>): (u: seq<Byte>)
    requires |rand| == 10
    ensures |u| == 16
  {
    ToBytes(ms, 6) + [rand[0] % 16 + 0x70] + [rand[2]] + [rand[1] % 64 + 0x80] + rand[3..]
  }

  // ------------------------------------------------------------------ big-endian numbers

  lemma {:induction false} SameDigits(a: seq<Byte>, b: seq<Byte>, n: nat)
    requires n <= |a| && n <= |b| && a[..n] == b[..n]
    ensures BigEndian(a, 0, n) == BigEndian(b, 0, n)
  {
    if n > 0 {
      assert a[..n - 1] == a[..n][..n - 1] && b[..n - 1] == b[..n][..n - 1];
      assert a[n - 1] == a[..n][n - 1] && b[n - 1] == b[..n][n - 1];
      SameDigits(a, b, n - 1);
    }
  }

  lemma {:induction false} ToBytesRoundTrip(n: nat, k: nat)
    requires n < Pow256(k)
    ensures BigEndian(ToBytes(n, k), 0, k) == n
  {
    if k > 0 {
      ToBytesRoundTrip(n / 256, k - 1);
      SameDigits(ToBytes(n, k), ToBytes(n / 256, k - 1), k - 1);
    }
  }

  /** A smaller beginning makes a smaller number, whatever follows. */
  lemma {:induction false} SmallerStart(a: seq<Byte>, b: seq<Byte>, k: nat, n: nat)
    requires k <= n <= |a| && n <= |b|
    requires BigEndian(a, 0, k) < BigEndian(b, 0, k)
    ensures BigEndian(a, 0, n) < BigEndian(b, 0, n)
  {
    if k < n {
      SmallerStart(a, b, k, n - 1);
    }
  }

  lemma {:induction false} Bounded(a: seq<Byte>, n: nat)
    requires n <= |a|
    ensures BigEndian(a, 0, n) < Pow256(n)
  {
    if n > 0 {
      Bounded(a, n - 1);
    }
  }

  /** Different byte strings are different numbers. */
  lemma {:induction false} NumberIsInjective(a: seq<Byte>, b: seq<Byte>, n: nat)
    requires n <= |a| && n <= |b|
    requires BigEndian(a, 0, n) == BigEndian(b, 0, n)
    ensures a[..n] == b[..n]
  {
    if n > 0 {
      NumberIsInjective(a, b, n - 1);
      assert a[..n] == a[..n - 1] + [a[n - 1]] && b[..n] == b[..n - 1] + [b[n - 1]];
    }
  }

  // ------------------------------------------------------------------ version 7

  lemma Pow256Of6()
    ensures Pow256(6) == 0x1_0000_0000_0000
  {
    assert Pow256(2) == 0x1_0000;
    assert Pow256(4) == 0x1_0000_0000;
  }

  /** The first 48 bits are the time, which is what `uuid7_age_ms` reads back; version and variant are in place. */
  lemma TimestampIsKept(ms: nat, rand: seq<Byte>)
    requires |rand| == 10 && ms < 0x1_0000_0000_0000
    ensures var u := UuidV7(ms, rand);
            BigEndian(u, 0, 6) == ms && u[6] / 16 == 7 && u[8] / 64 == 2
  {
    Pow256Of6();
    ToBytesRoundTrip(ms, 6);
    SameDigits(UuidV7(ms, rand), ToBytes(ms, 6), 6);
  }

  /** Ids order by time: an earlier millisecond gives a smaller id for any random bits. */
  lemma EarlierIsSmaller(ms: nat, rand: seq<Byte>, ms': nat, rand': seq<Byte>)
    requires |rand| == 10 && |rand'| == 10 && ms < ms' < 0x1_0000_0000_0000
    ensures Number(UuidV7(ms, rand)) < Number(UuidV7(ms', rand'))
  {
    TimestampIsKept(ms, rand);
    TimestampIsKept(ms', rand');
    SmallerStart(UuidV7(ms, rand), UuidV7(ms', rand'), 6, 16);
  }

  /** Nothing but the six bits under version and variant is lost: two ids are equal just if everything else is. */
  lemma EqualIdsAreEqualInputs(ms: nat, rand: seq<Byte>, ms': nat, rand': seq<Byte>)
    requires |rand| == 10 && |rand'| == 10 && ms < 0x1_0000_0000_0000 && ms' < 0x1_0000_0000_0000
    ensures Number(UuidV7(ms, rand)) == Number(UuidV7(ms', rand')) <==>
              ms == ms' && rand[0] % 16 == rand'[0] % 16 && rand[1] % 64 == rand'[1] % 64 && rand[2..] == rand'[2..]
  {
    var u, u' := UuidV7(ms, rand), UuidV7(ms', rand');
    assert rand[2..] == [rand[2]] + rand[3..] && rand'[2..] == [rand'[2]] + rand'[3..];
    assert rand[2] == rand[2..][0] && rand'[2] == rand'[2..][0];
    assert rand[3..] == rand[2..][1..] && rand'[3..] == rand'[2..][1..];
    if Number(u) == Number(u') {
      TimestampIsKept(ms, rand);
      TimestampIsKept(ms', rand');
      NumberIsInjective(u, u', 16);
      assert u == u[..16] == u'[..16] == u';
      assert u[6] == u'[6] && u[7] == u'[7] && u[8] == u'[8];
      assert rand[3..] == u[9..] == u'[9..] == rand'[3..];
    }
  }

  const ATTEMPTS := 64

  /** What each attempt would mint. */
  function Candidate(clock: seq<nat>, rand: seq<seq<Byte>>, i: nat): nat
    requires |clock| == |rand| == ATTEMPTS && i < ATTEMPTS && |rand[i]| == 10
  {
    Number(UuidV7(clock[i], rand[i]))
  }

  predicate IsFirstAbove(floor: nat, clock: seq<nat>, rand: seq<seq<Byte>>, i: nat)
    requires |clock| == |rand| == ATTEMPTS && forall i :: 0 <= i < ATTEMPTS ==> |rand[i]| == 10
  {
    && i < ATTEMPTS && Candidate(clock, rand, i) > floor
    && forall j :: 0 <= j < i ==> Candidate(clock, rand, j) <= floor
  }

  /**
   `uuidv7_after`: the first of up to 64 fresh ids that is above the floor, else the floor plus one.
   Only the floor of all ones has nothing above it.
   */
  method UuidV7After(floor: nat, clock: seq<nat>, rand: seq<seq<Byte>>) returns (id: nat)
    requires floor <= MAX_UUID
    requires |clock| == |rand| == ATTEMPTS && forall i :: 0 <= i < ATTEMPTS ==> |rand[i]| == 10
    ensures id > floor <==> floor != MAX_UUID
    ensures id <= MAX_UUID
    ensures (forall i :: 0 <= i < ATTEMPTS ==> Candidate(clock, rand, i) <= floor) ==>
      id == floor + 1 || id == floor == MAX_UUID
    ensures forall i :: IsFirstAbove(floor, clock, rand, i) ==> id == Candidate(clock, rand, i)
  {
    for i := 0 to ATTEMPTS
      invariant forall j :: 0 <= j < i ==> Candidate(clock, rand, j) <= floor
    {
      var candidate := Number(UuidV7(clock[i], rand[i]));
      assert candidate == Candidate(clock, rand, i);
      Bounded(UuidV7(clock[i], rand[i]), 16);
      Pow256Of16();
      if candidate > floor {
        return candidate;
      }
    }
    id := if floor + 1 <= MAX_UUID then floor + 1 else MAX_UUID;
  }

  lemma Pow256Of16()
    ensures Pow256(16) == MAX_UUID + 1
  {
    Pow256Of6();
    assert Pow256(8) == 0x1_0000_0000_0000_0000;
    assert Pow256(10) == 0x1_0000_0000_0000_0000 * 0x1_0000;
    assert Pow256(12) == 0x1_0000_0000_0000_0000 * 0x1_0000_0000;
    assert Pow256(14) == 0x1_0000_0000_0000_0000 * 0x1_0000_0000_0000;
  }
}
