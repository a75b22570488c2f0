/**
 * The three pieces of Go's `strings` package that the control handler relies on:
 * `strings.Split` with a one-character separator, `strings.Index`, and
 * `strings.Replace` with a count of one. Each is given here with the edge cases
 * of the Go library (an empty input splits into one empty segment, an empty
 * pattern is found at index 0, replacing a string by itself changes nothing).
 */
module GoStrings {
  import opened Wrappers

  /** Number of occurrences of `c` in `s`, as `strings.Count` for a one-character pattern. */
  function Count(s: string, c: char): nat
    decreases |s|
  {
    if |s| == 0 then 0 else (if s[0] == c then 1 else 0) + Count(s[1..], c)
  }

  /** Segments of `s` between occurrences of `sep`, as `strings.Split(s, string(sep))`. */
  function Split(s: string, sep: char): (parts: seq<string>)
    ensures |parts| == Count(s, sep) + 1
    ensures forall i :: 0 <= i < |parts| ==> sep !in parts[i]
    decreases |s|
  {
    if |s| == 0 then [""]
    else
      var rest := Split(s[1..], sep);
      if s[0] == sep then [""] + rest
      else [[s[0]] + rest[0]] + rest[1..]
  }

  /** Segments glued back together with `sep` between consecutive ones, as `strings.Join`. */
  function Join(parts: seq<string>, sep: char): (s: string)
    ensures |parts| >= 1 ==> |s| >= |parts| - 1
    decreases |parts|
  {
    if |parts| == 0 then ""
    else if |parts| == 1 then parts[0]
    else parts[0] + [sep] + Join(parts[1..], sep)
  }

  /** Splitting and joining again gives back the original string. */
  lemma {:induction false} JoinSplit(s: string, sep: char)
    ensures Join(Split(s, sep), sep) == s
    decreases |s|
  {
    if |s| > 0 {
      JoinSplit(s[1..], sep);
      var rest := Split(s[1..], sep);
      if s[0] == sep {
        assert Split(s, sep) == [""] + rest;
        assert ([""] + rest)[1..] == rest;
        assert s == [s[0]] + s[1..];
      } else {
        var parts := Split(s, sep);
        assert parts == [[s[0]] + rest[0]] + rest[1..];
        if |rest| == 1 {
          assert parts == [[s[0]] + rest[0]];
          assert s == [s[0]] + s[1..];
        } else {
          assert parts[1..] == rest[1..];
          assert Join(rest, sep) == rest[0] + [sep] + Join(rest[1..], sep);
          assert s == [s[0]] + s[1..];
        }
      }
    }
  }

  /** Splitting a segment that holds no separator, followed by a separator and more text. */
  lemma {:induction false} SplitCons(head: string, sep: char, tail: string)
    requires sep !in head
    ensures Split(head + [sep] + tail, sep) == [head] + Split(tail, sep)
    decreases |head|
  {
    if |head| == 0 {
      assert head + [sep] + tail == [sep] + tail;
      assert ([sep] + tail)[1..] == tail;
    } else {
      var s := head + [sep] + tail;
      assert s[0] == head[0];
      assert s[1..] == head[1..] + [sep] + tail;
      SplitCons(head[1..], sep, tail);
      assert [head[0]] + head[1..] == head;
    }
  }

  /** A segment with no separator splits into itself. */
  lemma {:induction false} SplitAtom(s: string, sep: char)
    requires sep !in s
    ensures Split(s, sep) == [s]
    decreases |s|
  {
    if |s| > 0 {
      SplitAtom(s[1..], sep);
      assert [s[0]] + s[1..] == s;
    }
  }

  /** Joining separator-free segments and splitting again gives back the segments. */
  lemma {:induction false} SplitJoin(parts: seq<string>, sep: char)
    requires |parts| >= 1
    requires forall i :: 0 <= i < |parts| ==> sep !in parts[i]
    ensures Split(Join(parts, sep), sep) == parts
    decreases |parts|
  {
    if |parts| == 1 {
      SplitAtom(parts[0], sep);
    } else {
      SplitJoin(parts[1..], sep);
      SplitCons(parts[0], sep, Join(parts[1..], sep));
      assert [parts[0]] + parts[1..] == parts;
    }
  }

  /** Three segments joined: the form of an MQTT topic such as `ht/control/sonytv`. */
  lemma JoinThree(a: string, b: string, c: string, sep: char)
    ensures Join([a, b, c], sep) == a + [sep] + b + [sep] + c
  {
    assert [a, b, c][1..] == [b, c];
    assert [b, c][1..] == [c];
    assert Join([b, c], sep) == b + [sep] + c;
  }

  /** `pat` occurs in `s` starting at index `k`. */
  predicate OccursAt(s: string, pat: string, k: nat) {
    k + |pat| <= |s| && s[k..k + |pat|] == pat
  }

  /** The first index at which `pat` occurs in `s`, as `strings.Index` (None for Go's -1). */
  function Index(s: string, pat: string): (r: Option<nat>)
    ensures r.Some? ==> OccursAt(s, pat, r.value)
    ensures r.Some? ==> forall k: nat :: k < r.value ==> !OccursAt(s, pat, k)
    ensures r.None? ==> forall k: nat :: !OccursAt(s, pat, k)
    decreases |s|
  {
    if |pat| > |s| then None
    else if s[..|pat|] == pat then Some(0)
    else
      var r := Index(s[1..], pat);
      assert forall k: nat :: 1 <= k ==> (OccursAt(s, pat, k) <==> OccursAt(s[1..], pat, k - 1)) by {
        forall k: nat | 1 <= k
          ensures OccursAt(s, pat, k) <==> OccursAt(s[1..], pat, k - 1)
        {
          if k + |pat| <= |s| {
            assert s[1..][k - 1..k - 1 + |pat|] == s[k..k + |pat|];
          }
        }
      }
      match r
      case None => None
      case Some(i) => Some(i + 1)
  }

  /**
   * `strings.Replace(s, pat, rep, 1)`: the first occurrence of `pat` replaced by `rep`.
   * As in Go, nothing changes when `pat == rep` or `pat` does not occur, and an
   * empty `pat` matches at the very start.
   */
  function ReplaceFirst(s: string, pat: string, rep: string): (r: string)
    ensures (pat == rep || Index(s, pat).None?) ==> r == s
    ensures pat != rep && Index(s, pat).Some? ==>
              exists k: nat :: && OccursAt(s, pat, k)
                               && (forall j: nat :: j < k ==> !OccursAt(s, pat, j))
                               && r == s[..k] + rep + s[k + |pat|..]
  {
    if pat == rep then s
    else
      match Index(s, pat)
      case None => s
      case Some(k) => s[..k] + rep + s[k + |pat|..]
  }

  /** A pattern that starts the string is found at index 0. */
  lemma IndexAtStart(s: string, pat: string)
    requires |pat| <= |s| && s[..|pat|] == pat
    ensures Index(s, pat) == Some(0)
  {
  }

  /** Replacing a leading occurrence of the pattern swaps that prefix for the replacement. */
  lemma ReplaceLeading(pat: string, rep: string, tail: string)
    requires pat != rep
    ensures ReplaceFirst(pat + tail, pat, rep) == rep + tail
  {
    var s := pat + tail;
    assert s[..|pat|] == pat && s[|pat|..] == tail;
    IndexAtStart(s, pat);
    assert ReplaceFirst(s, pat, rep) == s[..0] + rep + s[|pat|..];
  }
}
