/**
 * The JavaScript string operations the gateway relies on, over sequences of
 * code units: `startsWith`, `indexOf` and `split` with a non-empty string
 * separator (the ECMAScript algorithm: cut at each non-overlapping occurrence,
 * scanning left to right), and `join`, the inverse of `split`.
 */
module JsString {
  import opened Wrappers

  /** `s.startsWith(p)`: an exact, case-sensitive comparison of the first |p| code units. */
  predicate StartsWith(s: string, p: string) {
    |p| <= |s| && s[..|p|] == p
  }

  /** `sep` occurs in `s` starting at index `i`. */
  predicate OccursAt(s: string, sep: string, i: nat) {
    i + |sep| <= |s| && s[i..i + |sep|] == sep
  }

  /** `s.includes(sep)`. */
  predicate Contains(s: string, sep: string) {
    exists i: nat | i <= |s| :: OccursAt(s, sep, i)
  }

  /** `s.indexOf(sep, from)`: the first occurrence of `sep` at or after `from`, if any. */
  function IndexOf(s: string, sep: string, from: nat): (r: Option<nat>)
    ensures r.Some? ==> from <= r.value && OccursAt(s, sep, r.value)
    ensures forall j: nat :: from <= j && OccursAt(s, sep, j) ==> r.Some? && r.value <= j
    decreases |s| - from
  {
    if |s| < from + |sep| then None
    else if OccursAt(s, sep, from) then Some(from)
    else IndexOf(s, sep, from + 1)
  }

  /** The pieces of `s[start..]` between consecutive occurrences of `sep`. */
  function SplitFrom(s: string, sep: string, start: nat): (pieces: seq<string>)
    requires sep != [] && start <= |s|
    ensures |pieces| >= 1
    decreases |s| - start
  {
    match IndexOf(s, sep, start)
    case None => [s[start..]]
    case Some(i) => [s[start..i]] + SplitFrom(s, sep, i + |sep|)
  }

  /** `s.split(sep)` for a non-empty separator and no limit. */
  function Split(s: string, sep: string): seq<string>
    requires sep != []
  {
    SplitFrom(s, sep, 0)
  }

  /** `pieces.join(sep)`. */
  function Join(pieces: seq<string>, sep: string): string {
    if |pieces| == 0 then ""
    else if |pieces| == 1 then pieces[0]
    else pieces[0] + sep + Join(pieces[1..], sep)
  }

  /** An occurrence inside a slice is an occurrence in the whole string, shifted. */
  lemma OccursInSlice(s: string, sep: string, lo: nat, hi: nat, j: nat)
    requires lo <= hi <= |s|
    requires OccursAt(s[lo..hi], sep, j)
    ensures OccursAt(s, sep, lo + j) && lo + j + |sep| <= hi
  {
    forall k | 0 <= k < |sep|
      ensures s[lo + j..lo + j + |sep|][k] == sep[k]
    {
      assert s[lo..hi][j..j + |sep|][k] == sep[k];
    }
  }

  /** `[head].concat(rest).join(sep)` is `head + sep + rest.join(sep)` when `rest` is non-empty. */
  lemma JoinCons(head: string, rest: seq<string>, sep: string)
    requires |rest| >= 1
    ensures Join([head] + rest, sep) == head + sep + Join(rest, sep)
  {
    assert ([head] + rest)[1..] == rest;
  }

  /** Cutting `s[lo..]` around the occurrence of `sep` at `i`. */
  lemma CutAround(s: string, sep: string, lo: nat, i: nat)
    requires lo <= i && OccursAt(s, sep, i)
    ensures s[lo..] == s[lo..i] + sep + s[i + |sep|..]
  {
    assert s[lo..] == s[lo..i] + s[i..i + |sep|] + s[i + |sep|..];
  }

  /** Joining the pieces with the separator gives back the string: `s.split(sep).join(sep) == s`. */
  lemma {:induction false} JoinSplitFrom(s: string, sep: string, start: nat)
    requires sep != [] && start <= |s|
    ensures Join(SplitFrom(s, sep, start), sep) == s[start..]
    decreases |s| - start
  {
    match IndexOf(s, sep, start)
    case None =>
    case Some(i) =>
      var rest := SplitFrom(s, sep, i + |sep|);
      assert SplitFrom(s, sep, start) == [s[start..i]] + rest;
      JoinSplitFrom(s, sep, i + |sep|);
      JoinCons(s[start..i], rest, sep);
      CutAround(s, sep, start, i);
  }

  lemma JoinSplit(s: string, sep: string)
    requires sep != []
    ensures Join(Split(s, sep), sep) == s
  {
    JoinSplitFrom(s, sep, 0);
  }

  /** No piece returned by `split` contains the separator. */
  lemma {:induction false} PiecesAvoidSeparatorFrom(s: string, sep: string, start: nat)
    requires sep != [] && start <= |s|
    ensures forall k :: 0 <= k < |SplitFrom(s, sep, start)| ==> !Contains(SplitFrom(s, sep, start)[k], sep)
    decreases |s| - start
  {
    var pieces := SplitFrom(s, sep, start);
    match IndexOf(s, sep, start)
    case None =>
      FirstPieceAvoidsSeparator(s, sep, start, |s|);
      assert s[start..] == s[start..|s|];
      assert pieces == [s[start..]];
    case Some(i) =>
      PiecesAvoidSeparatorFrom(s, sep, i + |sep|);
      FirstPieceAvoidsSeparator(s, sep, start, i);
      assert pieces[1..] == SplitFrom(s, sep, i + |sep|);
      forall k | 0 <= k < |pieces|
        ensures !Contains(pieces[k], sep)
      {
        if k > 0 {
          assert pieces[k] == pieces[1..][k - 1];
        }
      }
  }

  /** `s[lo..hi]` holds no occurrence when no occurrence begins in `lo..` before `hi`. */
  lemma FirstPieceAvoidsSeparator(s: string, sep: string, lo: nat, hi: nat)
    requires sep != [] && lo <= hi <= |s|
    requires forall j: nat :: lo <= j < hi ==> !OccursAt(s, sep, j)
    ensures !Contains(s[lo..hi], sep)
  {
    if Contains(s[lo..hi], sep) {
      var j: nat :| j <= hi - lo && OccursAt(s[lo..hi], sep, j);
      OccursInSlice(s, sep, lo, hi, j);
    }
  }

  lemma PiecesAvoidSeparator(s: string, sep: string)
    requires sep != []
    ensures forall k :: 0 <= k < |Split(s, sep)| ==> !Contains(Split(s, sep)[k], sep)
  {
    PiecesAvoidSeparatorFrom(s, sep, 0);
  }
}
