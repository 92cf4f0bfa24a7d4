/** The little of Python's `str` that the services rely on: `strip` and truncation. */
module Text {

  /** The characters `str.strip()` removes. */
  predicate IsSpace(c: char) {
    var u := c as int;
    || 9 <= u <= 13 || 28 <= u <= 32 || u == 0x85 || u == 0xA0 || u == 0x1680
    || 0x2000 <= u <= 0x200A || u == 0x2028 || u == 0x2029 || u == 0x202F || u == 0x205F || u == 0x3000
  }

  /** `s.strip()`: the longest piece of `s` that neither starts nor ends with white space. */
  function Strip(s: string): (r: string)
    ensures r == [] <==> forall c :: c in s ==> IsSpace(c)
    ensures r != [] ==> !IsSpace(r[0]) && !IsSpace(r[|r| - 1])
    ensures |r| <= |s|
  {
    if s == [] then []
    else if IsSpace(s[0]) then
      assert s == [s[0]] + s[1..];
      Strip(s[1..])
    else if IsSpace(s[|s| - 1]) then
      assert s == s[..|s| - 1] + [s[|s| - 1]];
      assert s[0] == s[..|s| - 1][0];
      Strip(s[..|s| - 1])
    else
      assert s[0] in s;
      s
  }

  /** `s[:n]` */
  function Clip<T>(s: seq<T>, n: nat): (r: seq<T>)
    ensures r <= s && |r| <= n
    ensures |r| < n ==> r == s
  {
    if |s| <= n then s else s[..n]
  }
}
