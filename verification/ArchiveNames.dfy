/**
 File-system-safe names for export archives (app/exports/naming.py). Titles are taken in
 decomposed form (NFKD); dropping what is not ASCII and lower-casing are modelled here.
 */
module ArchiveNames {
  import opened Text

  // ------------------------------------------------------------------ slug

  predicate IsHex(c: char) {
    '0' <= c <= '9' || 'a' <= c <= 'f'
  }

  predicate IsAlnum(c: char) {
    '0' <= c <= '9' || 'a' <= c <= 'z'
  }

  /** `[a-z0-9._-]` */
  predicate IsSafe(c: char) {
    IsAlnum(c) || c == '.' || c == '_' || c == '-'
  }

  const RESERVED: set<string> := {
    "con", "prn", "aux", "nul",
    "com1", "com2", "com3", "com4", "com5", "com6", "com7", "com8", "com9",
    "lpt1", "lpt2", "lpt3", "lpt4", "lpt5", "lpt6", "lpt7", "lpt8", "lpt9"
  }

  /** Device names have three or four characters. */
  predicate IsReserved(s: string) {
    |s| <= 4 && s in RESERVED
  }

  const FALLBACK := "conversation"

  function Lower(c: char): char {
    if 'A' <= c <= 'Z' then (c as int + 32) as char else c
  }

  /** `encode("ascii", "ignore").decode("ascii").lower()` */
  function LowerAscii(s: string): (r: string)
    ensures forall c :: c in r ==> c < 128 as char && !('A' <= c <= 'Z')
  {
    if s == [] then []
    else (if s[0] < 128 as char then [Lower(s[0])] else []) + LowerAscii(s[1..])
  }

  /** Every run of unsafe characters becomes one dash. */
  function Dashed(s: string, inRun: bool): (r: string)
    ensures forall c :: c in r ==> IsSafe(c)
  {
    if s == [] then []
    else if IsSafe(s[0]) then [s[0]] + Dashed(s[1..], false)
    else (if inRun then [] else ['-']) + Dashed(s[1..], true)
  }

  lemma {:induction false} DashedKeepsSafe(s: string, inRun: bool)
    requires forall c :: c in s ==> IsSafe(c)
    ensures Dashed(s, inRun) == s
  {
    if s != [] {
      assert s[0] in s;
      assert forall c :: c in s[1..] ==> c in s;
      DashedKeepsSafe(s[1..], false);
    }
  }

  lemma {:induction false} LowerAsciiKeepsSafe(s: string)
    requires forall c :: c in s ==> IsSafe(c)
    ensures LowerAscii(s) == s
  {
    if s != [] {
      assert IsSafe(s[0]);
      assert forall c :: c in s[1..] ==> c in s;
      LowerAsciiKeepsSafe(s[1..]);
    }
  }

  predicate IsPunctuation(c: char) {
    c == '-' || c == '.' || c == '_'
  }

  /** `strip("-._")` */
  function Trim(s: string): (r: string)
    ensures r != [] ==> !IsPunctuation(r[0]) && !IsPunctuation(r[|r| - 1])
    ensures |r| <= |s| && forall c :: c in r ==> c in s
  {
    if s == [] then []
    else if IsPunctuation(s[0]) then Trim(s[1..])
    else if IsPunctuation(s[|s| - 1]) then Trim(s[..|s| - 1])
    else s
  }

  /** What a slug can be: never empty, never a device name, at most 40 safe characters between letters or digits. */
  predicate IsSlug(s: string) {
    && 0 < |s| <= 40
    && !IsReserved(s)
    && IsAlnum(s[0]) && IsAlnum(s[|s| - 1])
    && forall c :: c in s ==> IsSafe(c)
  }

  function Slug(text: string): (r: string)
    ensures IsSlug(r)
  {
    var trimmed := Trim(Dashed(LowerAscii(text), false));
    var cleaned := Trim(Clip(trimmed, 40));
    if cleaned == [] || IsReserved(cleaned) then
      assert FALLBACK[0] == 'c' && FALLBACK[|FALLBACK| - 1] == 'n' && |FALLBACK| == 12;
      FALLBACK
    else
      assert forall c :: c in cleaned ==> IsSafe(c);
      assert cleaned[0] in cleaned && cleaned[|cleaned| - 1] in cleaned;
      cleaned
  }

  /** A name that already is a slug is left alone; so slugging twice is slugging once. */
  lemma SlugKeepsSlugs(s: string)
    requires IsSlug(s)
    ensures Slug(s) == s
  {
    LowerAsciiKeepsSafe(s);
    DashedKeepsSafe(s, false);
  }

  // ------------------------------------------------------------------ what becomes of a title

  predicate IsWord(w: string) {
    w != [] && forall c :: c in w ==> '0' <= c <= '9' || 'a' <= c <= 'z' || 'A' <= c <= 'Z'
  }

  /** Blanks, and ASCII signs other than '.', '_' and '-'. */
  predicate IsGap(g: string) {
    forall c :: c in g ==>
      c < 128 as char && c != '.' && c != '_' && c != '-'
      && !('0' <= c <= '9') && !('a' <= c <= 'z') && !('A' <= c <= 'Z')
  }

  /** Words with a gap after each of them. */
  function Spread(words: seq<string>, gaps: seq<string>): string
    requires |gaps| == |words|
  {
    if words == [] then [] else words[0] + gaps[0] + Spread(words[1..], gaps[1..])
  }

  /** The words in lower case, with one dash between two of them. */
  function Joined(words: seq<string>): string {
    if words == [] then []
    else if |words| == 1 then LowerAscii(words[0])
    else LowerAscii(words[0]) + "-" + Joined(words[1..])
  }

  lemma {:induction false} LowerConcat(a: string, b: string)
    ensures LowerAscii(a + b) == LowerAscii(a) + LowerAscii(b)
  {
    if a == [] {
      assert a + b == b;
    } else {
      assert (a + b)[0] == a[0] && (a + b)[1..] == a[1..] + b;
      LowerConcat(a[1..], b);
    }
  }

  lemma {:induction false} LowerWord(w: string)
    requires forall c :: c in w ==> '0' <= c <= '9' || 'a' <= c <= 'z' || 'A' <= c <= 'Z'
    ensures |LowerAscii(w)| == |w| && forall c :: c in LowerAscii(w) ==> '0' <= c <= '9' || 'a' <= c <= 'z'
  {
    if w != [] {
      assert w[0] in w && forall c :: c in w[1..] ==> c in w;
      LowerWord(w[1..]);
    }
  }

  lemma {:induction false} LowerGap(g: string)
    requires IsGap(g)
    ensures LowerAscii(g) == g
  {
    if g != [] {
      assert g[0] in g && forall c :: c in g[1..] ==> c in g;
      LowerGap(g[1..]);
    }
  }

  /** A safe character ends a run, and an unsafe one is in it. */
  lemma {:induction false} DashedConcat(a: string, b: string, inRun: bool)
    ensures Dashed(a + b, inRun) == Dashed(a, inRun) + Dashed(b, if a == [] then inRun else !IsSafe(a[|a| - 1]))
  {
    if a == [] {
      assert a + b == b;
    } else {
      assert (a + b)[0] == a[0] && (a + b)[1..] == a[1..] + b;
      DashedConcat(a[1..], b, !IsSafe(a[0]));
    }
  }

  lemma {:induction false} DashedGap(g: string, inRun: bool)
    requires IsGap(g)
    ensures Dashed(g, inRun) == if g == [] || inRun then [] else "-"
  {
    if g != [] {
      assert g[0] in g && forall c :: c in g[1..] ==> c in g;
      DashedGap(g[1..], true);
    }
  }

  lemma DashedWordAndGap(w: string, g: string, rest: string)
    requires w != [] && IsGap(g) && (g == [] ==> rest == [])
    requires forall c :: c in w ==> '0' <= c <= '9' || 'a' <= c <= 'z'
    ensures Dashed(w + g + rest, false) == w + (if g == [] then [] else "-") + Dashed(rest, true)
    ensures Dashed(w + g + rest, true) == Dashed(w + g + rest, false)
  {
    DashedConcat(w + g, rest, false);
    DashedConcat(w, g, false);
    DashedKeepsSafe(w, false);
    DashedGap(g, false);
    assert w[|w| - 1] in w && IsSafe(w[|w| - 1]) && w[0] in w;
    if g != [] {
      assert g[|g| - 1] in g;
    } else {
      assert w + g + rest == w && w + g == w;
    }
  }

  ghost predicate AreWords(words: seq<string>, gaps: seq<string>) {
    && |gaps| == |words|
    && (forall i :: 0 <= i < |words| ==> IsWord(words[i]) && IsGap(gaps[i]))
    && (forall i :: 0 <= i < |words| - 1 ==> gaps[i] != [])
  }

  lemma {:induction false} DashedWords(words: seq<string>, gaps: seq<string>, inRun: bool)
    requires words != [] && AreWords(words, gaps)
    ensures Dashed(LowerAscii(Spread(words, gaps)), inRun) == Joined(words) + (if gaps[|gaps| - 1] == [] then [] else "-")
  {
    var w, g, rest := LowerAscii(words[0]), gaps[0], Spread(words[1..], gaps[1..]);
    assert IsWord(words[0]) && IsGap(gaps[0]);
    LowerConcat(words[0] + g, rest);
    LowerConcat(words[0], g);
    LowerWord(words[0]);
    LowerGap(g);
    DashedWordAndGap(w, g, LowerAscii(rest));
    if |words| > 1 {
      DashedWords(words[1..], gaps[1..], true);
      assert w + "-" + (Joined(words[1..]) + (if gaps[|gaps| - 1] == [] then [] else "-"))
          == w + "-" + Joined(words[1..]) + (if gaps[|gaps| - 1] == [] then [] else "-");
    } else {
      assert rest == [] && Dashed([], true) == [];
    }
  }

  lemma {:induction false} JoinedEnds(words: seq<string>)
    requires words != [] && forall i :: 0 <= i < |words| ==> IsWord(words[i])
    ensures var j := Joined(words); j != [] && !IsPunctuation(j[0]) && !IsPunctuation(j[|j| - 1])
  {
    assert IsWord(words[0]);
    LowerWord(words[0]);
    var w := LowerAscii(words[0]);
    assert w[0] in w && w[|w| - 1] in w;
    if |words| > 1 {
      JoinedEnds(words[1..]);
    }
  }

  lemma TrimmedAfter(j: string, b: string)
    requires b in {"", "-"} && j != [] && !IsPunctuation(j[0]) && !IsPunctuation(j[|j| - 1])
    ensures Trim(j + b) == j
  {
    if b == "-" {
      assert (j + b)[..|j|] == j;
      assert Trim(j) == j;
    } else {
      assert j + b == j;
    }
  }

  lemma TrimmedOnce(a: string, j: string, b: string)
    requires a in {"", "-"} && b in {"", "-"}
    requires j != [] && !IsPunctuation(j[0]) && !IsPunctuation(j[|j| - 1])
    ensures Trim(a + j + b) == j
  {
    TrimmedAfter(j, b);
    if a == "-" {
      assert (a + j + b)[0] == '-' && (a + j + b)[1..] == j + b;
    } else {
      assert a + j + b == j + b;
    }
  }

  /**
   The slug of a title that is words with gaps around and between them: the words in lower case with
   one dash between two, if that is no longer than 40 characters and not a device name.
   */
  lemma SlugOfWords(lead: string, words: seq<string>, gaps: seq<string>)
    requires words != [] && AreWords(words, gaps) && IsGap(lead)
    requires |Joined(words)| <= 40 && !IsReserved(Joined(words))
    ensures Slug(lead + Spread(words, gaps)) == Joined(words)
  {
    var t := Spread(words, gaps);
    LowerConcat(lead, t);
    LowerGap(lead);
    DashedConcat(lead, LowerAscii(t), false);
    DashedGap(lead, false);
    if lead != [] {
      assert lead[|lead| - 1] in lead;
    }
    DashedWords(words, gaps, lead != []);
    JoinedEnds(words);
    hide LowerAscii, Dashed, Spread, Joined;
    var a, b := if lead == [] then "" else "-", if gaps[|gaps| - 1] == [] then "" else "-";
    assert Dashed(LowerAscii(lead + t), false) == a + (Joined(words) + b) == a + Joined(words) + b;
    TrimmedOnce(a, Joined(words), b);
  }

  // ------------------------------------------------------------------ directory names

  predicate IsShort(s: string) {
    |s| == 8 && forall c :: c in s ==> IsHex(c)
  }

  type Short = s: string | IsShort(s) witness "00000000"

  /** A UUID: its first eight hexadecimal digits, and the other 96 bits. */
  datatype Id = Id(short: Short, rest: nat)

  /** `conversation_dir`: names differ when the first eight digits of the ids do. */
  function DirName(title: string, id: Id): (r: string)
    ensures 10 <= |r| <= 49 && r[|r| - 8..] == id.short
    ensures forall c :: c in r ==> IsSafe(c)
  {
    assert IsShort(id.short);
    Slug(title) + "-" + id.short
  }

  /** The directory of a conversation whose title is words: these, and the beginning of its id. */
  lemma DirOfWords(lead: string, words: seq<string>, gaps: seq<string>, id: Id)
    requires words != [] && AreWords(words, gaps) && IsGap(lead)
    requires |Joined(words)| <= 40 && !IsReserved(Joined(words))
    ensures DirName(lead + Spread(words, gaps), id) == Joined(words) + "-" + id.short
  {
    SlugOfWords(lead, words, gaps);
  }

  // ------------------------------------------------------------------ paths

  /** `path.split("/")` */
  function Split(path: string): (r: seq<string>)
    ensures r != []
  {
    if path == [] then [""]
    else
      var rest := Split(path[1..]);
      if path[0] == '/' then [""] + rest else [[path[0]] + rest[0]] + rest[1..]
  }

  /** The components hold the path's characters, apart from the separators. */
  lemma {:induction false} SplitKeeps(path: string, c: char)
    ensures (exists p :: p in Split(path) && c in p) <==> c in path && c != '/'
  {
    if path != [] {
      var rest := Split(path[1..]);
      SplitKeeps(path[1..], c);
      assert path == [path[0]] + path[1..];
      assert rest == [rest[0]] + rest[1..];
      if c in path && c != '/' {
        if c == path[0] {
          assert c in Split(path)[0];
        } else {
          var p :| p in rest && c in p;
          if p == rest[0] && path[0] != '/' {
            assert c in Split(path)[0];
          } else {
            assert p in Split(path);
          }
        }
      }
    }
  }

  lemma {:induction false} SplitJoined(a: string, b: string)
    ensures Split(a + "/" + b) == Split(a) + Split(b)
  {
    var s := a + "/" + b;
    if a == [] {
      assert s == "/" + b && s[1..] == b;
    } else {
      assert s[0] == a[0] && s[1..] == a[1..] + "/" + b;
      SplitJoined(a[1..], b);
    }
  }

  lemma {:induction false} SplitPlain(a: string)
    requires '/' !in a
    ensures Split(a) == [a]
  {
    if a != [] {
      assert a[0] in a && forall c :: c in a[1..] ==> c in a;
      SplitPlain(a[1..]);
      assert [a[0]] + a[1..] == a;
    }
  }

  const MAX_PART := 120

  /** `validate_archive_path` raises nothing. */
  predicate ValidPath(path: string) {
    && path != [] && path[0] != '/' && '\\' !in path && '\0' !in path && ':' !in path
    && forall part :: part in Split(path) ==>
      part != "" && part != "." && part != ".." && |part| <= MAX_PART && forall c :: c in part ==> c as int >= 32
  }

  /** The part of the rules that concerns one component, except for its length. */
  predicate SafePart(part: string) {
    && part != "" && part != "." && part != ".."
    && forall c :: c in part ==> c as int >= 32 && c != '\\' && c != ':'
  }

  /** A path is accepted exactly when each of its components is safe and not too long. */
  lemma ValidByParts(path: string)
    ensures ValidPath(path) <==> forall part :: part in Split(path) ==> SafePart(part) && |part| <= MAX_PART
  {
    var parts := Split(path);
    SplitKeeps(path, '\\');
    SplitKeeps(path, ':');
    SplitKeeps(path, '\0');
    if forall part :: part in parts ==> SafePart(part) && |part| <= MAX_PART {
      assert parts[0] in parts;
      assert path != [] && path[0] != '/';
    }
  }
}
