/**
 * The three Foundation string operations the deep-link parsers and the
 * result screen rely on: `split(separator:)`, `joined(separator:)` and
 * `replacingOccurrences(of:with:)` with an empty replacement.
 */
module Strings {

  /** The delimiter every deep-link parser splits on. */
  const Pipe: char := '|'

  /** A piece that `split(separator:)` can produce: non-empty and free of the separator. */
  predicate IsSegment(w: string, sep: char) {
    |w| > 0 && sep !in w
  }

  predicate AllSegments(parts: seq<string>, sep: char) {
    forall i :: 0 <= i < |parts| ==> IsSegment(parts[i], sep)
  }

  /**
   * Swift's `s.split(separator: sep)` with its default arguments: the maximal
   * runs of characters between separators, in order, with empty runs omitted
   * (so `"a||b"` gives `["a", "b"]` and `""` gives `[]`).
   */
  function Split(s: string, sep: char): (r: seq<string>)
    ensures AllSegments(r, sep)
  {
    SplitFrom(s, sep, "")
  }

  /** Scans `s` left to right; `cur` is the run read since the last separator. */
  function SplitFrom(s: string, sep: char, cur: string): (r: seq<string>)
    requires sep !in cur
    ensures AllSegments(r, sep)
    decreases |s|
  {
    if |s| == 0 then
      (if cur == "" then [] else [cur])
    else if s[0] == sep then
      (if cur == "" then SplitFrom(s[1..], sep, "") else [cur] + SplitFrom(s[1..], sep, ""))
    else
      SplitFrom(s[1..], sep, cur + [s[0]])
  }

  /** Swift's `parts.joined(separator: sep)`: the first part comes first, unchanged. */
  function Join(parts: seq<string>, sep: string): (r: string)
    ensures |parts| > 0 ==> parts[0] <= r
  {
    if |parts| == 0 then ""
    else if |parts| == 1 then parts[0]
    else parts[0] + sep + Join(parts[1..], sep)
  }

  /** `s` with every occurrence of the character `c` removed. */
  function Without(s: string, c: char): string {
    if |s| == 0 then ""
    else if s[0] == c then Without(s[1..], c)
    else [s[0]] + Without(s[1..], c)
  }

  /** All pieces one after the other. */
  function Concat(parts: seq<string>): string {
    if |parts| == 0 then "" else parts[0] + Concat(parts[1..])
  }

  /** `pat` occurs in `s` starting at index `i`. */
  predicate OccursAt(s: string, pat: string, i: int) {
    0 <= i && i + |pat| <= |s| && s[i..i + |pat|] == pat
  }

  /**
   * Swift's `s.replacingOccurrences(of: pat, with: "")`: occurrences are found
   * left to right and do not overlap; each one found is dropped.
   */
  function RemoveAll(s: string, pat: string): (r: string)
    requires |pat| > 0
    ensures |r| <= |s|
    decreases |s|
  {
    if |s| == 0 then ""
    else if |pat| <= |s| && s[..|pat|] == pat then RemoveAll(s[|pat|..], pat)
    else [s[0]] + RemoveAll(s[1..], pat)
  }

  // ---------------------------------------------------------------------
  // Split and Join
  // ---------------------------------------------------------------------

  /** Reading a separator-free word only extends the current run. */
  lemma {:induction false} SplitFromWord(w: string, t: string, sep: char, cur: string)
    requires sep !in w && sep !in cur
    ensures SplitFrom(w + t, sep, cur) == SplitFrom(t, sep, cur + w)
    decreases |w|
  {
    if |w| == 0 {
      assert w + t == t;
      assert cur + w == cur;
    } else {
      assert (w + t)[0] == w[0];
      assert (w + t)[1..] == w[1..] + t;
      assert (cur + [w[0]]) + w[1..] == cur + w;
      SplitFromWord(w[1..], t, sep, cur + [w[0]]);
    }
  }

  /** A separator-free word is one segment, or none when it is empty. */
  lemma SplitWord(w: string, sep: char)
    requires sep !in w
    ensures Split(w, sep) == if w == "" then [] else [w]
  {
    SplitFromWord(w, "", sep, "");
    assert w + "" == w;
    assert "" + w == w;
  }

  /**
   * Splitting at the first separator: the run before it is a segment unless
   * it is empty, and splitting goes on after it. With `SplitWord` this fixes
   * `Split` on every input, by induction on the number of separators; empty
   * runs (`"a||b"`, a leading or trailing separator) give no segment.
   */
  lemma SplitAtFirst(x: string, y: string, sep: char)
    requires sep !in x
    ensures Split(x + [sep] + y, sep) == (if x == "" then [] else [x]) + Split(y, sep)
  {
    assert x + [sep] + y == x + ([sep] + y);
    SplitFromWord(x, [sep] + y, sep, "");
    assert "" + x == x;
    assert ([sep] + y)[0] == sep;
    assert ([sep] + y)[1..] == y;
  }

  /** Splitting joined segments gives the segments back. */
  lemma {:induction false} SplitJoin(parts: seq<string>, sep: char)
    requires AllSegments(parts, sep)
    ensures Split(Join(parts, [sep]), sep) == parts
    decreases |parts|
  {
    if |parts| == 0 {
    } else if |parts| == 1 {
      SplitFromWord(parts[0], "", sep, "");
      assert parts[0] + "" == parts[0];
      assert "" + parts[0] == parts[0];
    } else {
      var rest := Join(parts[1..], [sep]);
      assert Join(parts, [sep]) == parts[0] + ([sep] + rest);
      SplitFromWord(parts[0], [sep] + rest, sep, "");
      assert "" + parts[0] == parts[0];
      assert ([sep] + rest)[0] == sep;
      assert ([sep] + rest)[1..] == rest;
      SplitJoin(parts[1..], sep);
    }
  }

  lemma {:induction false} ConcatSplitFrom(s: string, sep: char, cur: string)
    requires sep !in cur
    ensures Concat(SplitFrom(s, sep, cur)) == cur + Without(s, sep)
    decreases |s|
  {
    if |s| == 0 {
      assert cur + "" == cur;
    } else if s[0] == sep {
      ConcatSplitFrom(s[1..], sep, "");
      assert "" + Without(s[1..], sep) == Without(s[1..], sep);
      if cur != "" {
        var rest := SplitFrom(s[1..], sep, "");
        assert ([cur] + rest)[1..] == rest;
      }
    } else {
      ConcatSplitFrom(s[1..], sep, cur + [s[0]]);
      assert (cur + [s[0]]) + Without(s[1..], sep) == cur + ([s[0]] + Without(s[1..], sep));
    }
  }

  /** `split` drops the separators and nothing else. */
  lemma SplitKeepsEverythingButSeparators(s: string, sep: char)
    ensures Concat(Split(s, sep)) == Without(s, sep)
  {
    ConcatSplitFrom(s, sep, "");
    assert "" + Without(s, sep) == Without(s, sep);
  }

  /** Appending one more part to a non-empty list adds one separator and the part. */
  lemma {:induction false} JoinAppend(parts: seq<string>, p: string, sep: string)
    requires |parts| > 0
    ensures Join(parts + [p], sep) == Join(parts, sep) + sep + p
    decreases |parts|
  {
    if |parts| == 1 {
      assert (parts + [p])[1..] == [p];
    } else {
      assert (parts + [p])[1..] == parts[1..] + [p];
      JoinAppend(parts[1..], p, sep);
    }
  }

  /** A character found in neither the parts nor the separator is not in the join. */
  lemma {:induction false} JoinAvoids(parts: seq<string>, sep: string, c: char)
    requires c !in sep
    requires forall i :: 0 <= i < |parts| ==> c !in parts[i]
    ensures c !in Join(parts, sep)
    decreases |parts|
  {
    if |parts| > 1 {
      JoinAvoids(parts[1..], sep, c);
    }
  }

  // ---------------------------------------------------------------------
  // RemoveAll
  // ---------------------------------------------------------------------

  /** A string in which the pattern never occurs is left as it is. */
  lemma {:induction false} RemoveAllAbsent(s: string, pat: string)
    requires |pat| > 0
    requires forall i :: 0 <= i < |s| ==> !OccursAt(s, pat, i)
    ensures RemoveAll(s, pat) == s
    decreases |s|
  {
    if |s| > 0 {
      assert !OccursAt(s, pat, 0);
      assert |pat| <= |s| ==> s[..|pat|] == s[0..|pat|];
      forall i | 0 <= i < |s[1..]|
        ensures !OccursAt(s[1..], pat, i)
      {
        assert !OccursAt(s, pat, i + 1);
        if i + |pat| <= |s[1..]| {
          assert s[1..][i..i + |pat|] == s[i + 1..i + 1 + |pat|];
        }
      }
      RemoveAllAbsent(s[1..], pat);
      assert s == [s[0]] + s[1..];
    }
  }

  /** A leading occurrence of the pattern is dropped. */
  lemma RemoveAllLeading(pat: string, s: string)
    requires |pat| > 0
    ensures RemoveAll(pat + s, pat) == RemoveAll(s, pat)
  {
    assert (pat + s)[..|pat|] == pat;
    assert (pat + s)[|pat|..] == s;
  }

  /**
   * The first occurrence of the pattern, wherever it is, is dropped and the
   * text before it is kept: with `RemoveAllAbsent` this fixes `RemoveAll` on
   * every input, by induction on the number of occurrences.
   */
  lemma {:induction false} RemoveAllFirst(x: string, pat: string, y: string)
    requires |pat| > 0
    requires forall i :: 0 <= i < |x| ==> !OccursAt(x + pat + y, pat, i)
    ensures RemoveAll(x + pat + y, pat) == x + RemoveAll(y, pat)
    decreases |x|
  {
    var s := x + pat + y;
    if |x| == 0 {
      assert s == pat + y;
      RemoveAllLeading(pat, y);
    } else {
      assert !OccursAt(s, pat, 0);
      assert s[..|pat|] == s[0..|pat|];
      assert RemoveAll(s, pat) == [s[0]] + RemoveAll(s[1..], pat);
      var x' := x[1..];
      assert s[1..] == x' + pat + y;
      forall i | 0 <= i < |x'|
        ensures !OccursAt(x' + pat + y, pat, i)
      {
        assert !OccursAt(s, pat, i + 1);
        if i + |pat| <= |s[1..]| {
          assert s[1..][i..i + |pat|] == s[i + 1..i + 1 + |pat|];
        }
      }
      RemoveAllFirst(x', pat, y);
      assert x == [s[0]] + x';
    }
  }

  /** A pattern holding a character that `s` lacks never occurs in `s`. */
  lemma AbsentCharMeansNoOccurrence(s: string, pat: string, k: nat)
    requires k < |pat| && pat[k] !in s
    ensures forall i :: 0 <= i < |s| ==> !OccursAt(s, pat, i)
  {
  }
}
