/** The identifier check every flats service operation applies before it
    touches the store: the 8-4-4-4-12 hexadecimal shape of RFC 4122,
    section 3, in either letter case. */
module Uuid {

  predicate IsHexDigit(c: char)
  {
    '0' <= c <= '9' || 'a' <= c <= 'f' || 'A' <= c <= 'F'
  }

  predicate AllHex(s: string)
  {
    forall i :: 0 <= i < |s| ==> IsHexDigit(s[i])
  }

  /** The four positions of a 36-character identifier that hold a dash. */
  predicate IsDashPosition(i: int)
  {
    i == 8 || i == 13 || i == 18 || i == 23
  }

  /** `isValidUUID`, read position by position. */
  function IsValidUuid(s: string): bool
  {
    |s| == 36 && forall i :: 0 <= i < 36 ==> if IsDashPosition(i) then s[i] == '-' else IsHexDigit(s[i])
  }

  /** Five groups joined by dashes. */
  function Join(g1: string, g2: string, g3: string, g4: string, g5: string): string
  {
    g1 + "-" + g2 + "-" + g3 + "-" + g4 + "-" + g5
  }

  /** The pattern `^[0-9a-f]{8}-[0-9a-f]{4}-[0-9a-f]{4}-[0-9a-f]{4}-[0-9a-f]{12}$`
      under the `i` flag, read as a grammar. */
  ghost predicate IsGroupedHex(s: string)
  {
    exists g1, g2, g3, g4, g5 ::
      s == Join(g1, g2, g3, g4, g5)
      && |g1| == 8 && |g2| == 4 && |g3| == 4 && |g4| == 4 && |g5| == 12
      && AllHex(g1) && AllHex(g2) && AllHex(g3) && AllHex(g4) && AllHex(g5)
  }

  /** A 36-character string with dashes at the four dash positions is the
      join of the slices between them. */
  lemma SplitAtDashes(s: string)
    requires |s| == 36 && s[8] == '-' && s[13] == '-' && s[18] == '-' && s[23] == '-'
    ensures s == Join(s[..8], s[9..13], s[14..18], s[19..23], s[24..])
  {
    assert s[8..9] == "-" && s[13..14] == "-" && s[18..19] == "-" && s[23..24] == "-";
    calc {
      s;
      s[..8] + s[8..];
      s[..8] + s[8..9] + s[9..];
      s[..8] + s[8..9] + s[9..13] + s[13..];
      s[..8] + s[8..9] + s[9..13] + s[13..14] + s[14..];
      s[..8] + s[8..9] + s[9..13] + s[13..14] + s[14..18] + s[18..];
      s[..8] + s[8..9] + s[9..13] + s[13..14] + s[14..18] + s[18..19] + s[19..];
      s[..8] + s[8..9] + s[9..13] + s[13..14] + s[14..18] + s[18..19] + s[19..23] + s[23..];
      s[..8] + s[8..9] + s[9..13] + s[13..14] + s[14..18] + s[18..19] + s[19..23] + s[23..24] + s[24..];
    }
  }

  /** A stretch of a valid identifier that holds no dash position is hexadecimal. */
  lemma HexBetweenDashes(s: string, lo: int, hi: int)
    requires IsValidUuid(s) && 0 <= lo <= hi <= 36
    requires forall i :: lo <= i < hi ==> !IsDashPosition(i)
    ensures AllHex(s[lo..hi])
  {
    forall i | 0 <= i < hi - lo ensures IsHexDigit(s[lo..hi][i]) {
      assert s[lo..hi][i] == s[lo + i];
    }
  }

  /** An identifier that passes the positional check splits into the five groups. */
  lemma ValidUuidIsGroupedHex(s: string)
    requires IsValidUuid(s)
    ensures IsGroupedHex(s)
  {
    assert IsDashPosition(8) && IsDashPosition(13) && IsDashPosition(18) && IsDashPosition(23);
    SplitAtDashes(s);
    HexBetweenDashes(s, 0, 8);
    HexBetweenDashes(s, 9, 13);
    HexBetweenDashes(s, 14, 18);
    HexBetweenDashes(s, 19, 23);
    HexBetweenDashes(s, 24, 36);
    assert s[24..] == s[24..36];
  }

  /** Five hexadecimal groups of the right lengths joined by dashes pass the positional check. */
  lemma GroupedHexIsValidUuid(s: string)
    requires IsGroupedHex(s)
    ensures IsValidUuid(s)
  {
    var g1, g2, g3, g4, g5 :|
      s == Join(g1, g2, g3, g4, g5)
      && |g1| == 8 && |g2| == 4 && |g3| == 4 && |g4| == 4 && |g5| == 12
      && AllHex(g1) && AllHex(g2) && AllHex(g3) && AllHex(g4) && AllHex(g5);
    forall i | 0 <= i < 36
      ensures if IsDashPosition(i) then s[i] == '-' else IsHexDigit(s[i])
    {
      if i < 8 { assert s[i] == g1[i]; }
      else if 8 < i < 13 { assert s[i] == g2[i - 9]; }
      else if 13 < i < 18 { assert s[i] == g3[i - 14]; }
      else if 18 < i < 23 { assert s[i] == g4[i - 19]; }
      else if 23 < i { assert s[i] == g5[i - 24]; }
    }
  }

  /** The positional check accepts exactly the strings the pattern describes. */
  lemma IsValidUuidMeansGroupedHex(s: string)
    ensures IsValidUuid(s) <==> IsGroupedHex(s)
  {
    if IsValidUuid(s) {
      ValidUuidIsGroupedHex(s);
    }
    if IsGroupedHex(s) {
      GroupedHexIsValidUuid(s);
    }
  }

  /** An identifier in lower case is accepted. */
  lemma AcceptedLowerCaseUuid()
    ensures IsValidUuid("123e4567-e89b-12d3-a456-426614174000")
  {
  }

  /** The same identifier in upper case is accepted too. */
  lemma AcceptedUpperCaseUuid()
    ensures IsValidUuid("123E4567-E89B-12D3-A456-426614174000")
  {
  }

  /** The shapes the source's tests reject are rejected: empty, free text,
      no dashes, and a letter beyond `f`. */
  lemma RejectedUuidExamples()
    ensures !IsValidUuid("")
    ensures !IsValidUuid("not-a-uuid")
    ensures !IsValidUuid("123e4567e89b12d3a456426614174000")
    ensures !IsValidUuid("123e4567-e89b-12d3-a456-42661417400g")
  {
    var bad := "123e4567-e89b-12d3-a456-42661417400g";
    assert !IsHexDigit(bad[35]);
  }
}
