/** Byte-string helpers from Go's `strings` package and slicing. A `char` stands for
    one byte, so `|s|` is Go's `len(s)` and `s[..n]` is `s[:n]`. */
module Text {

  /** strings.Repeat for a single character. */
  function Repeat(c: char, n: nat): (s: string)
    ensures |s| == n
    ensures forall i | 0 <= i < n :: s[i] == c
  {
    seq(n, _ => c)
  }

  /** strings.HasSuffix(s, [c]). */
  predicate EndsWith(s: string, c: char) {
    |s| > 0 && s[|s| - 1] == c
  }

  /** Cuts `s` to at most `n` characters: `if len(s) > n { s = s[:n] }`. */
  function Truncate(s: string, n: nat): (r: string)
    ensures |r| == if |s| <= n then |s| else n
    ensures r == s[..|r|]
  {
    if |s| > n then s[..n] else s
  }

  /** Forces the width of `s` into [lo, hi]: shorter text is padded on the right with
      spaces up to `lo`, longer text is cut to `hi`, anything in between is kept. */
  function ClampWidth(s: string, lo: nat, hi: nat): (r: string)
    requires lo <= hi
    ensures lo <= |r| <= hi
    ensures |s| < lo ==> |r| == lo
    ensures |s| > hi ==> |r| == hi
    ensures lo <= |s| <= hi ==> r == s
    ensures |s| <= |r| ==> r[..|s|] == s
    ensures |r| <= |s| ==> r == s[..|r|]
    ensures forall i | |s| <= i < |r| :: r[i] == ' '
  {
    if |s| < lo then s + Repeat(' ', lo - |s|)
    else if |s| > hi then s[..hi]
    else s
  }
}
