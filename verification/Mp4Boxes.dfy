/**
 The structural check of a rendered video (app/artifacts/media.py): the walk over the top-level
 boxes of section 4.2 of ISO/IEC 14496-12, and the validation built on it.

 The reference definition is `Tiling`: a list of cut points that splits the file into boxes.
 `WalkBoxes` follows the file's own loop and is proved to accept exactly the files that have one.
 */
module Mp4Boxes {
  import opened Wrappers

  type Byte = b: int | 0 <= b < 256

  const MIN_MP4_BYTES := 1024
  const CHUNK := 1024 * 1024

  const FTYP: seq<Byte> := [0x66, 0x74, 0x79, 0x70]
  const MOOV: seq<Byte> := [0x6d, 0x6f, 0x6f, 0x76]
  const MDAT: seq<Byte> := [0x6d, 0x64, 0x61, 0x74]

  /** The big-endian number in `d[p..p + n]`. */
  function BigEndian(d: seq<Byte>, p: nat, n: nat): nat
    requires p + n <= |d|
  {
    if n == 0 then 0 else BigEndian(d, p, n - 1) * 256 + d[p + n - 1]
  }

  /** `d[lo..hi]` is one box: a 32-bit size, a 64-bit size announced by 1, or 0 for "to the end of the file". */
  ghost predicate IsBox(d: seq<Byte>, lo: nat, hi: nat) {
    && lo + 8 <= hi <= |d|
    && var size := BigEndian(d, lo, 4);
       if size == 0 then hi == |d|
       else if size == 1 then lo + 16 <= hi && BigEndian(d, lo + 8, 8) == hi - lo
       else size == hi - lo
  }

  /** The four bytes at `p` as a number, first byte highest. */
  function Word(d: seq<Byte>, p: nat): nat
    requires p + 4 <= |d|
  {
    0x1000000 * (d[p] as int) + 0x10000 * (d[p + 1] as int) + 0x100 * (d[p + 2] as int) + d[p + 3]
  }

  lemma WordIsBigEndian(d: seq<Byte>, p: nat)
    requires p + 4 <= |d|
    ensures BigEndian(d, p, 4) == Word(d, p)
  {
    assert BigEndian(d, p, 1) == d[p];
    assert BigEndian(d, p, 2) == 256 * (d[p] as int) + d[p + 1];
    assert BigEndian(d, p, 3) == BigEndian(d, p, 2) * 256 + d[p + 2];
  }

  lemma LongIsBigEndian(d: seq<Byte>, p: nat)
    requires p + 8 <= |d|
    ensures BigEndian(d, p, 8) == Word(d, p) * 0x1_0000_0000 + Word(d, p + 4)
  {
    WordIsBigEndian(d, p);
    assert BigEndian(d, p, 5) == Word(d, p) * 256 + d[p + 4];
    assert BigEndian(d, p, 6) == BigEndian(d, p, 5) * 256 + d[p + 5];
    assert BigEndian(d, p, 7) == BigEndian(d, p, 6) * 256 + d[p + 6];
    assert BigEndian(d, p, 8) == BigEndian(d, p, 7) * 256 + d[p + 7];
  }

  /** Where a box that starts at `lo` ends, byte by byte of its header. */
  lemma BoxEnds(d: seq<Byte>, lo: nat, hi: nat)
    requires lo + 8 <= |d|
    ensures IsBox(d, lo, hi) <==>
              && hi <= |d|
              && if Word(d, lo) == 0 then hi == |d|
                 else if Word(d, lo) == 1 then
                   hi >= lo + 16 && hi == lo + (Word(d, lo + 8) * 0x1_0000_0000 + Word(d, lo + 12))
                 else hi >= lo + 8 && hi == lo + Word(d, lo)
  {
    WordIsBigEndian(d, lo);
    if lo + 16 <= |d| {
      LongIsBigEndian(d, lo + 8);
    }
    hide Word, BigEndian;
  }

  /** The cut points run from 0 to the end of the file and every piece between two of them is a box. */
  ghost predicate Tiling(d: seq<Byte>, cuts: seq<nat>) {
    && PartialTiling(d, cuts)
    && cuts[|cuts| - 1] == |d|
  }

  ghost predicate PartialTiling(d: seq<Byte>, cuts: seq<nat>) {
    && |cuts| > 0
    && cuts[0] == 0
    && forall i :: 0 <= i < |cuts| - 1 ==> IsBox(d, cuts[i], cuts[i + 1])
  }

  /** The header at `lo` states a size, rather than "to the end of the file". */
  ghost predicate SaysItsSize(d: seq<Byte>, lo: nat) {
    lo + 4 <= |d| && BigEndian(d, lo, 4) != 0
  }

  ghost function TypeAt(d: seq<Byte>, lo: nat): seq<Byte> {
    if lo + 8 <= |d| then d[lo + 4..lo + 8] else []
  }

  /** The types of the boxes between the cut points. */
  ghost function Types(d: seq<Byte>, cuts: seq<nat>): set<seq<Byte>> {
    set i: nat | i < |cuts| - 1 :: TypeAt(d, cuts[i])
  }

  /** What an acceptable file is: some tiling with at least one box, the first of type `ftyp`. */
  ghost predicate WellFormed(d: seq<Byte>) {
    exists cuts :: AcceptableTiling(d, cuts)
  }

  ghost predicate AcceptableTiling(d: seq<Byte>, cuts: seq<nat>) {
    Tiling(d, cuts) && |cuts| > 1 && TypeAt(d, 0) == FTYP
  }

  /** A box has only one possible end, so a partial tiling can only be extended in one way. */
  lemma {:induction false} PartialTilingIsPrefix(d: seq<Byte>, part: seq<nat>, full: seq<nat>)
    requires PartialTiling(d, part) && Tiling(d, full)
    ensures part <= full
  {
    if |part| > 1 {
      var shorter := part[..|part| - 1];
      PartialTilingIsPrefix(d, shorter, full);
      var k := |shorter| - 1;
      assert IsBox(d, part[k], part[k + 1]);
      assert full[k] == part[k] < |d|;
      assert IsBox(d, full[k], full[k + 1]);
      assert part == shorter + [part[k + 1]];
    }
  }

  /** A file is cut into boxes in at most one way, so the set of types seen does not depend on the tiling. */
  lemma TilingIsUnique(d: seq<Byte>, a: seq<nat>, b: seq<nat>)
    requires Tiling(d, a) && Tiling(d, b)
    ensures a == b
  {
    PartialTilingIsPrefix(d, a, b);
    PartialTilingIsPrefix(d, b, a);
  }

  /** The walk of `_walk_boxes`; None stands for InvalidMedia. */
  method WalkBoxes(d: seq<Byte>) returns (r: Option<set<seq<Byte>>>)
    ensures r.Some? <==> WellFormed(d)
    ensures r.Some? ==> forall cuts :: Tiling(d, cuts) ==> r.value == Types(d, cuts)
  {
    var seen: seq<seq<Byte>> := [];
    var pos := 0;
    ghost var cuts: seq<nat> := [0];
    while pos < |d|
      invariant 0 <= pos <= |d|
      invariant PartialTiling(d, cuts) && cuts[|cuts| - 1] == pos
      invariant |seen| == |cuts| - 1
      invariant forall i :: 0 <= i < |seen| ==> seen[i] == TypeAt(d, cuts[i])
    {
      if |d| - pos < 8 {
        NoBoxNoTiling(d, cuts);
        return None;
      }
      var boxSize, minSize := BigEndian(d, pos, 4), 8;
      if boxSize == 1 {
        if |d| - (pos + 8) < 8 {
          NoBoxNoTiling(d, cuts);
          return None;
        }
        boxSize, minSize := BigEndian(d, pos + 8, 8), 16;
      } else if boxSize == 0 {
        boxSize := |d| - pos;
      }
      if boxSize < minSize || pos + boxSize > |d| {
        NoBoxNoTiling(d, cuts);
        return None;
      }
      seen := seen + [d[pos + 4..pos + 8]];
      pos := pos + boxSize;
      assert IsBox(d, cuts[|cuts| - 1], pos);
      cuts := cuts + [pos];
    }
    assert Tiling(d, cuts);
    forall other | Tiling(d, other) ensures other == cuts {
      TilingIsUnique(d, other, cuts);
    }
    if |seen| == 0 || seen[0] != FTYP {
      return None;
    }
    assert AcceptableTiling(d, cuts);
    var types := set t | t in seen;
    assert types == Types(d, cuts) by {
      forall i: nat | i < |cuts| - 1 ensures TypeAt(d, cuts[i]) in types {
        assert seen[i] in seen;
      }
    }
    r := Some(types);
  }

  /** Some box starts at `lo`. */
  ghost predicate BoxStartsAt(d: seq<Byte>, lo: nat) {
    exists hi :: IsBox(d, lo, hi)
  }

  /** A tiling has a box at every cut point before its end. */
  lemma TilingGoesOn(d: seq<Byte>, part: seq<nat>, full: seq<nat>)
    requires PartialTiling(d, part) && part[|part| - 1] < |d| && Tiling(d, full)
    ensures BoxStartsAt(d, part[|part| - 1])
  {
    PartialTilingIsPrefix(d, part, full);
    assert IsBox(d, full[|part| - 1], full[|part|]);
  }

  /** If no box can start at the last cut point, the file has no tiling at all. */
  lemma NoBoxNoTiling(d: seq<Byte>, cuts: seq<nat>)
    requires PartialTiling(d, cuts) && cuts[|cuts| - 1] < |d|
    requires !BoxStartsAt(d, cuts[|cuts| - 1])
    ensures !WellFormed(d)
  {
    forall full ensures !Tiling(d, full) {
      if Tiling(d, full) {
        TilingGoesOn(d, cuts, full);
      }
    }
  }

  /** Cutting a file whose boxes all state their size anywhere inside a box makes it unacceptable. */
  lemma TruncatedFileIsRejected(d: seq<Byte>, cuts: seq<nat>, i: nat, n: nat)
    requires Tiling(d, cuts) && i + 1 < |cuts|
    requires forall k :: 0 <= k < |cuts| - 1 ==> SaysItsSize(d, cuts[k])
    requires cuts[i] < n < cuts[i + 1]
    ensures !WellFormed(d[..n])
  {
    CutsAreOrdered(d, cuts, i);
    var short := d[..n];
    assert PartialTiling(short, cuts[..i + 1]) by {
      forall k | 0 <= k < i ensures IsBox(short, cuts[k], cuts[k + 1]) {
        assert IsBox(d, cuts[k], cuts[k + 1]);
        CutsAreOrdered(d, cuts[..i + 1], k + 1);
        SameHeader(d, short, cuts[k]);
      }
    }
    assert IsBox(d, cuts[i], cuts[i + 1]);
    if cuts[i] + 8 <= n {
      SameHeader(d, short, cuts[i]);
    }
    NoBoxNoTiling(short, cuts[..i + 1]);
  }

  lemma {:induction false} CutsAreOrdered(d: seq<Byte>, cuts: seq<nat>, i: nat)
    requires PartialTiling(d, cuts) && i < |cuts|
    ensures cuts[i] <= cuts[|cuts| - 1] <= |d|
    decreases |cuts| - i
  {
    if i + 1 < |cuts| {
      assert IsBox(d, cuts[i], cuts[i + 1]);
      CutsAreOrdered(d, cuts, i + 1);
    } else if i > 0 {
      assert IsBox(d, cuts[i - 1], cuts[i]);
    }
  }

  lemma SameHeader(d: seq<Byte>, short: seq<Byte>, lo: nat)
    requires short <= d && lo + 8 <= |short|
    ensures BigEndian(short, lo, 4) == BigEndian(d, lo, 4)
    ensures lo + 16 <= |short| ==> BigEndian(short, lo + 8, 8) == BigEndian(d, lo + 8, 8)
  {
    SameNumber(d, short, lo, 4);
    if lo + 16 <= |short| {
      SameNumber(d, short, lo + 8, 8);
    }
  }

  lemma {:induction false} SameNumber(d: seq<Byte>, short: seq<Byte>, p: nat, n: nat)
    requires short <= d && p + n <= |short|
    ensures BigEndian(short, p, n) == BigEndian(d, p, n)
  {
    if n > 0 {
      SameNumber(d, short, p, n - 1);
    }
  }

  /** The digest of some content. sha256 is taken to be injective, so the digest is the content under a wrapper. */
  datatype Digest = Sha256(content: seq<Byte>)

  datatype MediaInfo = MediaInfo(size: nat, sha256: Digest)

  /** The bytes that `validate_mp4` lets through. */
  ghost predicate ValidMp4(d: seq<Byte>, maxBytes: nat) {
    && MIN_MP4_BYTES <= |d| <= maxBytes
    && WellFormed(d)
    && forall cuts :: Tiling(d, cuts) ==> MOOV in Types(d, cuts) && MDAT in Types(d, cuts)
  }

  lemma OnlyOneTiling(d: seq<Byte>)
    ensures forall a, b :: Tiling(d, a) && Tiling(d, b) ==> a == b
  {
    forall a, b | Tiling(d, a) && Tiling(d, b) ensures a == b {
      TilingIsUnique(d, a, b);
    }
  }

  /** Validation of a readable file; None stands for InvalidMedia. The digest is fed chunk by chunk. */
  method ValidateMp4(d: seq<Byte>, maxBytes: nat) returns (r: Option<MediaInfo>)
    ensures r.Some? <==> ValidMp4(d, maxBytes)
    ensures r.Some? <==>
      && 1024 <= |d| <= maxBytes
      && exists cuts :: AcceptableTiling(d, cuts) && MOOV in Types(d, cuts) && MDAT in Types(d, cuts)
    ensures r.Some? ==> r.value == MediaInfo(|d|, Sha256(d))
  {
    if |d| < MIN_MP4_BYTES || |d| > maxBytes {
      return None;
    }
    OnlyOneTiling(d);
    var boxes := WalkBoxes(d);
    if boxes.None? {
      return None;
    }
    if MOOV !in boxes.value || MDAT !in boxes.value {
      ghost var cuts :| AcceptableTiling(d, cuts);
      assert boxes.value == Types(d, cuts);
      return None;
    }
    var digested: seq<Byte> := [];
    while |digested| < |d|
      invariant digested <= d
    {
      var end := if |digested| + CHUNK < |d| then |digested| + CHUNK else |d|;
      digested := digested + d[|digested|..end];
    }
    r := Some(MediaInfo(|d|, Sha256(digested)));
  }
}
