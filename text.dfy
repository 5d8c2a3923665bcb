/**
 * The Python string operations the transformer and the task generator use:
 * `in` on strings, `lower()`, `strip()`, slicing `s[:n]` and `s.split(c)[0]`.
 */
module Text {

  /** `c.isspace()`: the characters `str.strip()` removes. */
  predicate IsSpace(c: char) {
    var k := c as int;
    || 9 <= k <= 13 || 28 <= k <= 32 || k == 0x85 || k == 0xA0 || k == 0x1680
    || 0x2000 <= k <= 0x200A || k == 0x2028 || k == 0x2029 || k == 0x202F
    || k == 0x205F || k == 0x3000
  }

  /** Lower-casing of one character (ASCII letters only). */
  function LowerChar(c: char): char {
    if 'A' <= c <= 'Z' then (c as int + 32) as char else c
  }

  /** `s.lower()`. */
  function Lower(s: string): string {
    seq(|s|, i requires 0 <= i < |s| => LowerChar(s[i]))
  }

  /** `needle in hay` on strings: `needle` occurs in `hay` as a contiguous substring. */
  predicate Contains(hay: string, needle: string)
    decreases |hay|
  {
    needle <= hay || (hay != [] && Contains(hay[1..], needle))
  }

  /** `s[:n]` for a non-negative `n`. */
  function Prefix(s: string, n: nat): (r: string)
    ensures |r| <= n && |r| <= |s| && r <= s
  {
    if n <= |s| then s[..n] else s
  }

  function TrimStart(s: string): (r: string)
    ensures |r| <= |s| && r == s[|s| - |r|..]
    ensures r == [] || !IsSpace(r[0])
  {
    if s != [] && IsSpace(s[0]) then TrimStart(s[1..]) else s
  }

  function TrimEnd(s: string): (r: string)
    ensures |r| <= |s| && r == s[..|r|]
    ensures r == [] || !IsSpace(r[|r| - 1])
  {
    if s != [] && IsSpace(s[|s| - 1]) then TrimEnd(s[..|s| - 1]) else s
  }

  /** `s.strip()`: the result has no surrounding white space, and a string without any is unchanged. */
  function Strip(s: string): (r: string)
    ensures |r| <= |s|
    ensures r != [] ==> !IsSpace(r[0]) && !IsSpace(r[|r| - 1])
    ensures (s == [] || (!IsSpace(s[0]) && !IsSpace(s[|s| - 1]))) ==> r == s
  {
    TrimEnd(TrimStart(s))
  }

  /** `s.split(c)[0]`: the longest prefix of `s` in which `c` does not occur. */
  function BeforeFirst(s: string, c: char): (r: string)
    ensures r <= s && c !in r
    ensures |r| < |s| ==> s[|r|] == c
  {
    if s == [] || s[0] == c then [] else [s[0]] + BeforeFirst(s[1..], c)
  }

  /** For a one-character needle, `needle in hay` is membership of that character. */
  lemma {:induction false} ContainsChar(hay: string, c: char)
    ensures Contains(hay, [c]) <==> c in hay
    decreases |hay|
  {
    if hay != [] {
      ContainsChar(hay[1..], c);
      assert hay == [hay[0]] + hay[1..];
    }
  }

  /** Trimming the start of `a + b` never reaches into `b` when `b` starts with a non-space. */
  lemma {:induction false} TrimStartKeepsTail(a: string, b: string)
    requires b != [] && !IsSpace(b[0])
    ensures |TrimStart(a + b)| >= |b|
    decreases |a|
  {
    if a != [] {
      assert (a + b)[1..] == a[1..] + b;
      TrimStartKeepsTail(a[1..], b);
    } else {
      assert a + b == b;
    }
  }

  /** Trimming the end of `a + b` never reaches into `a` when `a` ends with a non-space. */
  lemma {:induction false} TrimEndKeepsHead(a: string, b: string)
    requires a != [] && !IsSpace(a[|a| - 1])
    ensures a <= TrimEnd(a + b)
    decreases |b|
  {
    if b != [] {
      assert (a + b)[..|a + b| - 1] == a + b[..|b| - 1];
      TrimEndKeepsHead(a, b[..|b| - 1]);
    } else {
      assert a + b == a;
    }
  }

  /** A head without surrounding white space survives `strip()` of a longer string. */
  lemma StripKeepsHead(a: string, b: string)
    requires a != [] && !IsSpace(a[0]) && !IsSpace(a[|a| - 1])
    ensures a <= Strip(a + b)
  {
    assert (a + b)[0] == a[0];
    assert TrimStart(a + b) == a + b;
    TrimEndKeepsHead(a, b);
  }

  /** A tail without surrounding white space survives `strip()` of a longer string. */
  lemma StripKeepsTail(a: string, b: string)
    requires b != [] && !IsSpace(b[0]) && !IsSpace(b[|b| - 1])
    ensures var r := Strip(a + b); |b| <= |r| && r[|r| - |b|..] == b
  {
    var s := a + b;
    TrimStartKeepsTail(a, b);
    var t := TrimStart(s);
    assert t == s[|s| - |t|..];
    assert t[|t| - 1] == b[|b| - 1];
    assert TrimEnd(t) == t;
    assert t[|t| - |b|..] == s[|a|..];
    assert s[|a|..] == b;
  }
}
