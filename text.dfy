/** The string tests the integration applies to UPnP class strings and media ids. */
module Text {

  /** Python's `s.startswith(prefix)`. */
  predicate StartsWith(s: string, prefix: string) {
    |prefix| <= |s| && s[..|prefix|] == prefix
  }

  /** Python's `part in s` for two strings. */
  predicate Contains(s: string, part: string)
    decreases |s|
  {
    StartsWith(s, part) || (|s| > 0 && Contains(s[1..], part))
  }

  function LowerChar(c: char): char {
    if 'A' <= c <= 'Z' then (c as int + 32) as char else c
  }

  /** Python's `s.lower()`, restricted to the ASCII letters. */
  function Lower(s: string): string {
    seq(|s|, i requires 0 <= i < |s| => LowerChar(s[i]))
  }

  /** An occurrence of `part` at position `i` makes `s` contain it. */
  lemma {:induction false} ContainsAt(s: string, part: string, i: nat)
    requires i + |part| <= |s| && s[i..i + |part|] == part
    ensures Contains(s, part)
  {
    if i > 0 {
      assert s[1..][i - 1..i - 1 + |part|] == part;
      ContainsAt(s[1..], part, i - 1);
    } else {
      assert s[..|part|] == part;
    }
  }

  /** A string built around `part` contains it. */
  lemma ContainsInfix(before: string, part: string, after: string)
    ensures Contains(before + part + after, part)
  {
    var s := before + part + after;
    assert s[|before|..|before| + |part|] == part;
    ContainsAt(s, part, |before|);
  }

  /**
   * A string put together as `a + x + b + (u + v)` contains its pieces `x`,
   * `u + v` and `v`.
   */
  lemma ContainsPieces(a: string, x: string, b: string, u: string, v: string)
    ensures Contains(a + x + b + (u + v), x)
    ensures Contains(a + x + b + (u + v), u + v)
    ensures Contains(a + x + b + (u + v), v)
  {
    var s := a + x + b + (u + v);
    assert s[|a|..|a| + |x|] == x;
    ContainsAt(s, x, |a|);
    assert s[|a + x + b|..|a + x + b| + |u + v|] == u + v;
    ContainsAt(s, u + v, |a + x + b|);
    assert s[|a + x + b| + |u|..|a + x + b| + |u| + |v|] == v;
    ContainsAt(s, v, |a + x + b| + |u|);
  }

  /** A string lacking one of the characters of `part` cannot contain `part`. */
  lemma {:induction false} MissingCharExcludes(s: string, part: string, c: char)
    requires c in part && c !in s
    ensures !Contains(s, part)
  {
    if |s| > 0 {
      assert forall x :: x in s[1..] ==> x in s;
      MissingCharExcludes(s[1..], part, c);
    }
  }

  /** A lower-case letter is missing from the lower-cased string when both its cases are missing. */
  lemma LowerLacks(s: string, c: char)
    requires 'a' <= c <= 'z' && c !in s && (c as int - 32) as char !in s
    ensures c !in Lower(s)
  {
    forall i | 0 <= i < |s| ensures Lower(s)[i] != c {
      assert s[i] != c && s[i] != (c as int - 32) as char;
    }
  }

  /** Lower-casing a lower-cased string changes nothing. */
  lemma LowerIdempotent(s: string)
    ensures Lower(Lower(s)) == Lower(s)
  {
    forall i | 0 <= i < |s| ensures Lower(Lower(s))[i] == Lower(s)[i] {
      assert Lower(s)[i] == LowerChar(s[i]);
    }
  }

  /** Lower-casing works piece by piece. */
  lemma LowerAppend(a: string, b: string)
    ensures Lower(a + b) == Lower(a) + Lower(b)
  {
  }

  /** A string that starts with `prefix` agrees with it at each position of the prefix. */
  lemma PrefixChar(s: string, prefix: string, i: nat)
    requires StartsWith(s, prefix) && i < |prefix|
    ensures s[i] == prefix[i]
  {
    assert s[..|prefix|][i] == s[i];
  }

  /** A string that differs from `prefix` at one of its positions does not start with it. */
  lemma DifferAt(s: string, prefix: string, i: nat)
    requires i < |prefix| && i < |s| && s[i] != prefix[i]
    ensures !StartsWith(s, prefix)
  {
    assert |prefix| <= |s| ==> s[..|prefix|][i] == s[i];
  }

  /** Every character of `s` is one of `letters`. */
  predicate DrawnFrom(s: string, letters: set<char>) {
    forall i :: 0 <= i < |s| ==> s[i] in letters
  }

  /** A string without upper-case ASCII letters is its own lower-case form. */
  lemma LowerOfLowercase(s: string)
    requires forall i :: 0 <= i < |s| ==> !('A' <= s[i] <= 'Z')
    ensures Lower(s) == s
  {
  }
}
