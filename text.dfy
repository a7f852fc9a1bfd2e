/**
 * The few functions of Go's `strings` package that the scanner relies on,
 * over `string` (a sequence of characters). Case folding is ASCII only.
 */
module Text {

  /** ASCII lower-casing of one character. */
  function LowerChar(c: char): char
  {
    if 'A' <= c <= 'Z' then (c as int + 32) as char else c
  }

  /** `strings.ToLower`, restricted to ASCII letters. */
  function Lower(s: string): string
  {
    seq(|s|, i requires 0 <= i < |s| => LowerChar(s[i]))
  }

  /** `strings.EqualFold`, restricted to ASCII letters. */
  predicate EqualFold(a: string, b: string)
  {
    Lower(a) == Lower(b)
  }

  /** `strings.HasPrefix`. */
  predicate HasPrefix(s: string, prefix: string)
  {
    |prefix| <= |s| && s[..|prefix|] == prefix
  }

  /** `strings.Contains`: `sub` occurs somewhere in `s`. */
  predicate Contains(s: string, sub: string)
    decreases |s|
  {
    HasPrefix(s, sub) || (|s| > 0 && Contains(s[1..], sub))
  }

  /** `strings.TrimPrefix`: removes one leading `prefix`, if there is one. */
  function TrimPrefix(s: string, prefix: string): (r: string)
    ensures HasPrefix(s, prefix) ==> prefix + r == s
    ensures !HasPrefix(s, prefix) ==> r == s
  {
    if HasPrefix(s, prefix) then s[|prefix|..] else s
  }

  /**
   * `strings.ReplaceAll` for a non-empty pattern: scans left to right and
   * replaces each non-overlapping occurrence of `pat` by `rep`.
   */
  function ReplaceAll(s: string, pat: string, rep: string): string
    requires |pat| > 0
    decreases |s|
  {
    if |s| < |pat| then s
    else if s[..|pat|] == pat then rep + ReplaceAll(s[|pat|..], pat, rep)
    else [s[0]] + ReplaceAll(s[1..], pat, rep)
  }

  /** Lower-casing twice is lower-casing once. */
  lemma LowerIdempotent(s: string)
    ensures Lower(Lower(s)) == Lower(s)
  {
  }

  /** EqualFold with the empty string holds exactly for the empty string. */
  lemma EqualFoldEmpty(a: string)
    ensures EqualFold(a, "") <==> a == ""
  {
    if EqualFold(a, "") {
      assert |Lower(a)| == |a|;
    }
  }

  /** Replacing a character that does not occur changes nothing. */
  lemma {:induction false} ReplaceAbsentChar(s: string, c: char, rep: string)
    requires c !in s
    ensures ReplaceAll(s, [c], rep) == s
    decreases |s|
  {
    if |s| >= 1 {
      assert s[..1] == [s[0]];
      ReplaceAbsentChar(s[1..], c, rep);
      assert [s[0]] + s[1..] == s;
    }
  }

  /**
   * Rewriting every `pat` to a single character `c` that the input does not
   * contain loses nothing: rewriting every `c` back to `pat` restores the input.
   */
  lemma {:induction false} ReplaceAllRoundTrip(s: string, pat: string, c: char)
    requires |pat| > 0 && c !in s
    ensures ReplaceAll(ReplaceAll(s, pat, [c]), [c], pat) == s
    decreases |s|
  {
    var r := ReplaceAll(s, pat, [c]);
    if |s| < |pat| {
      ReplaceAbsentChar(s, c, pat);
    } else if s[..|pat|] == pat {
      var t := ReplaceAll(s[|pat|..], pat, [c]);
      assert r == [c] + t;
      assert r[..1] == [c];
      assert r[1..] == t;
      ReplaceAllRoundTrip(s[|pat|..], pat, c);
      assert s[..|pat|] + s[|pat|..] == s;
    } else {
      var t := ReplaceAll(s[1..], pat, [c]);
      assert r == [s[0]] + t;
      assert s[0] in s;
      assert r[..1] == [s[0]] != [c];
      assert r[1..] == t;
      ReplaceAllRoundTrip(s[1..], pat, c);
      assert [s[0]] + s[1..] == s;
    }
  }
}
