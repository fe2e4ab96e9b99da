/**
 * The middleware's reading of the `Authorization` header: the truthiness and
 * case-sensitive prefix test, and the token taken as `header.split('Bearer ')[1]`.
 */
module Bearer {
  import opened Wrappers
  import opened JsString

  const Prefix: string := "Bearer "

  /**
   * The header passes the format check: it is present, non-empty (JavaScript
   * truthiness) and starts with exactly `"Bearer "`.
   */
  predicate WellFormed(authorization: Option<string>) {
    authorization.Some? && authorization.value != "" && StartsWith(authorization.value, Prefix)
  }

  /** A header that starts with the prefix splits into `""` and at least one more piece. */
  lemma SplitAtPrefix(header: string)
    requires StartsWith(header, Prefix)
    ensures |Split(header, Prefix)| >= 2
    ensures Split(header, Prefix) == [""] + SplitFrom(header, Prefix, |Prefix|)
  {
  }

  /** `header.split('Bearer ')[1]`, the string handed to the verifier. */
  function ExtractToken(header: string): string
    requires StartsWith(header, Prefix)
  {
    SplitAtPrefix(header);
    Split(header, Prefix)[1]
  }

  /**
   * The token is the text after the leading `"Bearer "` up to the next
   * occurrence of `"Bearer "` or the end of the header, whichever comes first.
   */
  lemma TokenBetweenOccurrences(header: string)
    requires StartsWith(header, Prefix)
    ensures var token := ExtractToken(header);
      && |Prefix| + |token| <= |header|
      && token == header[|Prefix|..|Prefix| + |token|]
      && (forall j: nat :: |Prefix| <= j < |Prefix| + |token| ==> !OccursAt(header, Prefix, j))
      && (|Prefix| + |token| == |header| || OccursAt(header, Prefix, |Prefix| + |token|))
  {
    SplitAtPrefix(header);
    var n := |Prefix|;
    assert ExtractToken(header) == SplitFrom(header, Prefix, n)[0];
    match IndexOf(header, Prefix, n)
    case None =>
      assert ExtractToken(header) == header[n..];
    case Some(i) =>
      assert ExtractToken(header) == header[n..i];
  }

  /** With no second `"Bearer "`, the token is everything after the prefix, possibly empty. */
  lemma SingleOccurrenceToken(header: string)
    requires StartsWith(header, Prefix)
    requires forall j: nat :: 0 < j ==> !OccursAt(header, Prefix, j)
    ensures ExtractToken(header) == header[|Prefix|..]
  {
    TokenBetweenOccurrences(header);
  }

  /** The token never contains `"Bearer "` itself. */
  lemma TokenHasNoPrefix(header: string)
    requires StartsWith(header, Prefix)
    ensures !Contains(ExtractToken(header), Prefix)
  {
    SplitAtPrefix(header);
    PiecesAvoidSeparator(header, Prefix);
  }

  /** Worked cases: a second prefix cuts the token; the prefix test is case-sensitive. */
  lemma TokenExamples()
    ensures ExtractToken("Bearer a Bearer b") == "a "
    ensures !WellFormed(Some("bearer abc")) && !WellFormed(Some("Bearer")) && !WellFormed(None)
  {
    var h := "Bearer a Bearer b";
    SplitAtPrefix(h);
    assert h[7] == 'a' && h[8] == ' ';
    assert !OccursAt(h, Prefix, 7) by { assert h[7..14][0] == h[7]; }
    assert !OccursAt(h, Prefix, 8) by { assert h[8..15][0] == h[8]; }
    assert OccursAt(h, Prefix, 9) by { assert h[9..16] == Prefix; }
    assert IndexOf(h, Prefix, 7) == IndexOf(h, Prefix, 8) == IndexOf(h, Prefix, 9) == Some(9);
    assert ExtractToken(h) == h[7..9];
    assert "bearer abc"[..7][0] != Prefix[0];
  }

  /** An empty token passes the check: the bare prefix, or a second prefix right after the first. */
  lemma EmptyTokenExamples()
    ensures WellFormed(Some("Bearer ")) && ExtractToken("Bearer ") == ""
    ensures WellFormed(Some("Bearer Bearer x")) && ExtractToken("Bearer Bearer x") == ""
  {
    SingleOccurrenceToken("Bearer ");
    var g := "Bearer Bearer x";
    SplitAtPrefix(g);
    assert OccursAt(g, Prefix, 7) by { assert g[7..14] == Prefix; }
    assert ExtractToken(g) == g[7..7];
  }
}
