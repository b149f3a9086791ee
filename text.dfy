/** The string operations the source relies on: `str.lower`, the substring
    test `w in text`, `any(w in text for w in words)`, slicing `s[:n]` and
    `str.replace`. */
module Text {

  /** `str.lower` on one character; only the ASCII letters are mapped. */
  function LowerChar(c: char): char
  {
    if 'A' <= c <= 'Z' then (c as int - 'A' as int + 'a' as int) as char else c
  }

  function Lower(s: string): (r: string)
    ensures |r| == |s|
    ensures forall i :: 0 <= i < |s| ==> r[i] == LowerChar(s[i])
  {
    seq(|s|, i requires 0 <= i < |s| => LowerChar(s[i]))
  }

  lemma LowerIdempotent(s: string)
    ensures Lower(Lower(s)) == Lower(s)
  {
  }

  lemma LowerConcat(a: string, b: string)
    ensures Lower(a + b) == Lower(a) + Lower(b)
  {
  }

  /** `w` occurs in `text` starting at index `i`. */
  predicate OccursAt(text: string, w: string, i: int)
  {
    0 <= i && i + |w| <= |text| && text[i..i + |w|] == w
  }

  /** Python's `w in text`: a raw substring test, so "down" is in "download". */
  predicate Contains(text: string, w: string)
  {
    exists i | 0 <= i <= |text| :: OccursAt(text, w, i)
  }

  /** Python's `any(w in text for w in words)`. */
  predicate AnyOccurs(words: seq<string>, text: string)
  {
    exists k | 0 <= k < |words| :: Contains(text, words[k])
  }

  /** A substring of a substring is a substring. */
  lemma ContainsTransitive(a: string, b: string, c: string)
    requires Contains(a, b) && Contains(b, c)
    ensures Contains(a, c)
  {
    var i :| 0 <= i <= |a| && OccursAt(a, b, i);
    var j :| 0 <= j <= |b| && OccursAt(b, c, j);
    forall k | 0 <= k < |c|
      ensures a[i + j..i + j + |c|][k] == c[k]
    {
      assert c[k] == b[j..j + |c|][k] == b[j + k] == a[i..i + |b|][j + k];
    }
    assert OccursAt(a, c, i + j);
  }

  /** What occurs in a string still occurs once more text is appended to it,
      on either side. */
  lemma ContainsExtend(a: string, b: string, w: string)
    requires Contains(a, w)
    ensures Contains(a + b, w) && Contains(b + a, w)
  {
    var i :| 0 <= i <= |a| && OccursAt(a, w, i);
    assert (a + b)[i..i + |w|] == a[i..i + |w|];
    assert OccursAt(a + b, w, i);
    assert (b + a)[|b| + i..|b| + i + |w|] == a[i..i + |w|];
    assert OccursAt(b + a, w, |b| + i);
  }

  /** Python's `s[:n]`. */
  function Prefix(s: string, n: nat): (r: string)
    ensures |r| == if |s| < n then |s| else n
    ensures s == r + s[|r|..]
  {
    if |s| < n then s else s[..n]
  }

  /** Python's `s.replace(pat, rep)` for a non-empty `pat`: scans left to right
      and replaces every non-overlapping occurrence. */
  function ReplaceAll(s: string, pat: string, rep: string): string
    requires |pat| > 0
    decreases |s|
  {
    if |s| < |pat| then s
    else if s[..|pat|] == pat then rep + ReplaceAll(s[|pat|..], pat, rep)
    else [s[0]] + ReplaceAll(s[1..], pat, rep)
  }

  /** A string without the pattern comes back unchanged. */
  lemma {:induction false} ReplaceAllAbsent(s: string, pat: string, rep: string)
    requires |pat| > 0 && !Contains(s, pat)
    ensures ReplaceAll(s, pat, rep) == s
    decreases |s|
  {
    if |s| >= |pat| {
      assert !OccursAt(s, pat, 0);
      if Contains(s[1..], pat) {
        var i :| 0 <= i <= |s[1..]| && OccursAt(s[1..], pat, i);
        assert s[1 + i..1 + i + |pat|] == s[1..][i..i + |pat|];
        assert OccursAt(s, pat, 1 + i);
        assert false;
      }
      ReplaceAllAbsent(s[1..], pat, rep);
      assert s == [s[0]] + s[1..];
    }
  }

  /** When the first occurrence is at `i` and none starts at or after
      `i + |pat|`, only that occurrence is replaced. */
  lemma {:induction false} ReplaceAllOnce(s: string, pat: string, rep: string, i: nat)
    requires |pat| > 0 && OccursAt(s, pat, i)
    requires forall j | 0 <= j < i :: !OccursAt(s, pat, j)
    requires !Contains(s[i + |pat|..], pat)
    ensures ReplaceAll(s, pat, rep) == s[..i] + rep + s[i + |pat|..]
    decreases i
  {
    if i == 0 {
      assert s[..|pat|] == pat;
      ReplaceAllAbsent(s[|pat|..], pat, rep);
    } else {
      assert !OccursAt(s, pat, 0);
      var t := s[1..];
      assert OccursAt(t, pat, i - 1) by {
        assert t[i - 1..i - 1 + |pat|] == s[i..i + |pat|];
      }
      forall j | 0 <= j < i - 1
        ensures !OccursAt(t, pat, j)
      {
        assert t[j..j + |pat|] == s[j + 1..j + 1 + |pat|];
        assert !OccursAt(s, pat, j + 1);
      }
      assert t[i - 1 + |pat|..] == s[i + |pat|..];
      ReplaceAllOnce(t, pat, rep, i - 1);
      assert s[..i] == [s[0]] + t[..i - 1];
    }
  }
}
