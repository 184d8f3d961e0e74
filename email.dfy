/** The e-mail shape the register and login forms and the register route
    test with `/^[^\s@]+@[^\s@]+\.[^\s@]+$/`: a non-empty local part, an `@`,
    and a domain holding a dot with at least one character on each side,
    where no part contains white space or a further `@`. */
module Email {
  import opened Optional
  import opened Text

  /** A character of the class `[^\s@]`. */
  predicate IsAddressChar(c: char)
  {
    !IsSpace(c) && c != '@'
  }

  predicate AllAddressChars(s: string)
  {
    forall i :: 0 <= i < |s| ==> IsAddressChar(s[i])
  }

  /** The pattern read as a grammar: three non-empty runs of `[^\s@]`
      separated by `@` and `.`. The middle run may itself contain dots. */
  ghost predicate MatchesEmailPattern(s: string)
  {
    exists local, domain, top ::
      && s == local + "@" + domain + "." + top
      && |local| > 0 && |domain| > 0 && |top| > 0
      && AllAddressChars(local) && AllAddressChars(domain) && AllAddressChars(top)
  }

  /** The test read position by position: no white space anywhere, one `@`
      that is not the first character and is the only one, and a dot after
      it with at least one character on either side. */
  predicate IsEmailAddress(s: string)
  {
    && (forall k :: 0 <= k < |s| ==> !IsSpace(s[k]))
    && exists at | 0 < at < |s| ::
         && s[at] == '@'
         && (forall k :: 0 <= k < |s| && s[k] == '@' ==> k == at)
         && exists dot | at + 1 < dot < |s| - 1 :: s[dot] == '.'
  }

  /** Every string the pattern matches passes the positional test. */
  lemma PatternMeansEmailAddress(local: string, domain: string, top: string)
    requires |local| > 0 && |domain| > 0 && |top| > 0
    requires AllAddressChars(local) && AllAddressChars(domain) && AllAddressChars(top)
    ensures IsEmailAddress(local + "@" + domain + "." + top)
  {
    var s := local + "@" + domain + "." + top;
    var at, dot := |local|, |local| + 1 + |domain|;
    forall k | 0 <= k < |s|
      ensures !IsSpace(s[k]) && (s[k] == '@' ==> k == at)
    {
      if k < at {
        assert s[k] == local[k];
      } else if at < k < dot {
        assert s[k] == domain[k - at - 1];
      } else if dot < k {
        assert s[k] == top[k - dot - 1];
      }
    }
    assert s[at] == '@' && s[dot] == '.';
  }

  /** A stretch of an address that avoids its one `@` is made of `[^\s@]`. */
  lemma SliceOfAddressChars(s: string, at: int, lo: int, hi: int)
    requires forall k :: 0 <= k < |s| ==> !IsSpace(s[k])
    requires forall k :: 0 <= k < |s| && s[k] == '@' ==> k == at
    requires 0 <= lo <= hi <= |s| && !(lo <= at < hi)
    ensures AllAddressChars(s[lo..hi])
  {
    forall i | 0 <= i < hi - lo ensures IsAddressChar(s[lo..hi][i]) {
      assert s[lo..hi][i] == s[lo + i];
    }
  }

  /** Every string that passes the positional test splits as the pattern says. */
  lemma EmailAddressMatchesPattern(s: string, at: int, dot: int)
    requires forall k :: 0 <= k < |s| ==> !IsSpace(s[k])
    requires 0 < at < |s| && s[at] == '@' && forall k :: 0 <= k < |s| && s[k] == '@' ==> k == at
    requires at + 1 < dot < |s| - 1 && s[dot] == '.'
    ensures MatchesEmailPattern(s)
  {
    var local, domain, top := s[..at], s[at + 1..dot], s[dot + 1..];
    SliceOfAddressChars(s, at, 0, at);
    SliceOfAddressChars(s, at, at + 1, dot);
    SliceOfAddressChars(s, at, dot + 1, |s|);
    assert s[0..at] == local && s[dot + 1..|s|] == top;
    SplitAtSeparators(s, at, dot);
  }

  /** A string cut around its `@` and a later `.` is the join of the pieces. */
  lemma SplitAtSeparators(s: string, at: int, dot: int)
    requires 0 <= at < dot < |s| && s[at] == '@' && s[dot] == '.'
    ensures s == s[..at] + "@" + s[at + 1..dot] + "." + s[dot + 1..]
  {
    assert s == s[..at] + s[at..];
    assert s[at..] == "@" + s[at + 1..];
    assert s[at + 1..] == s[at + 1..dot] + s[dot..];
    assert s[dot..] == "." + s[dot + 1..];
  }

  /** The positional test accepts exactly the strings the pattern matches. */
  lemma IsEmailAddressMeansPattern(s: string)
    ensures IsEmailAddress(s) <==> MatchesEmailPattern(s)
  {
    if IsEmailAddress(s) {
      var at :| 0 < at < |s| && s[at] == '@'
                && (forall k :: 0 <= k < |s| && s[k] == '@' ==> k == at)
                && exists dot | at + 1 < dot < |s| - 1 :: s[dot] == '.';
      var dot :| at + 1 < dot < |s| - 1 && s[dot] == '.';
      EmailAddressMatchesPattern(s, at, dot);
    }
    if MatchesEmailPattern(s) {
      var local, domain, top :|
        && s == local + "@" + domain + "." + top
        && |local| > 0 && |domain| > 0 && |top| > 0
        && AllAddressChars(local) && AllAddressChars(domain) && AllAddressChars(top);
      PatternMeansEmailAddress(local, domain, top);
    }
  }

  /** A plain address passes. */
  lemma AcceptedEmailExample()
    ensures IsEmailAddress("user@example.com")
  {
    assert AllAddressChars("user") && AllAddressChars("example") && AllAddressChars("com");
    assert "user" + "@" + "example" + "." + "com" == "user@example.com";
    PatternMeansEmailAddress("user", "example", "com");
  }

  /** The dot the pattern needs must leave a character on each side: a dot
      straight after the `@` counts only when another dot follows, and a
      final dot never counts. */
  lemma DotPlacementExamples()
    ensures IsEmailAddress("a@.b.c")
    ensures !IsEmailAddress("a@.bc")
    ensures !IsEmailAddress("a@bc.")
  {
    assert AllAddressChars("a") && AllAddressChars(".b") && AllAddressChars("c");
    assert "a" + "@" + ".b" + "." + "c" == "a@.b.c";
    PatternMeansEmailAddress("a", ".b", "c");
    var s, t := "a@.bc", "a@bc.";
    assert s[1] == '@' && t[1] == '@';
  }

  /** What the test rejects: white space anywhere, a second `@`, an `@` in
      first place, and a string without a dot. */
  lemma RejectedEmailShapes(s: string)
    ensures (exists k :: 0 <= k < |s| && IsSpace(s[k])) ==> !IsEmailAddress(s)
    ensures (exists i, j :: 0 <= i < j < |s| && s[i] == '@' && s[j] == '@') ==> !IsEmailAddress(s)
    ensures s != [] && s[0] == '@' ==> !IsEmailAddress(s)
    ensures (forall k :: 0 <= k < |s| ==> s[k] != '.') ==> !IsEmailAddress(s)
  {
  }

  lemma RejectedEmailExamples()
    ensures !IsEmailAddress("user@example")
    ensures !IsEmailAddress("@example.com")
    ensures !IsEmailAddress("user @example.com")
    ensures !IsEmailAddress("a@b@c.d")
  {
    RejectedEmailShapes("user@example");
    RejectedEmailShapes("@example.com");
    var s := "user @example.com";
    assert IsSpace(s[4]);
    RejectedEmailShapes(s);
    var t := "a@b@c.d";
    assert t[1] == '@' && t[3] == '@';
    RejectedEmailShapes(t);
  }

  /** An address that passes the test has nothing to trim. */
  lemma EmailAddressIsUnpadded(s: string)
    requires IsEmailAddress(s)
    ensures Trim(s) == s && s != ""
  {
    TrimKeepsUnpadded(s);
  }

  /** The e-mail field rule the register and login forms share: blank once
      trimmed is "required", otherwise the untrimmed text must pass the test.
      Only a well-formed address gets no message. */
  function FieldError(email: string): (e: Option<string>)
    ensures e.None? <==> IsEmailAddress(email)
    ensures Trim(email) == "" ==> e == Some("Email is required")
    ensures Trim(email) != "" && !IsEmailAddress(email) ==> e == Some("Please enter a valid email address")
  {
    if Trim(email) == "" then
      assert !IsEmailAddress(email) by {
        if IsEmailAddress(email) {
          EmailAddressIsUnpadded(email);
        }
      }
      Some("Email is required")
    else if !IsEmailAddress(email) then Some("Please enter a valid email address")
    else None
  }

  /** Leading white space makes an address invalid rather than blank. */
  lemma PaddedAddressIsInvalid(s: string)
    requires IsEmailAddress(s)
    ensures FieldError(" " + s) == Some("Please enter a valid email address")
  {
    var p := " " + s;
    assert s != [] && !IsSpace(s[0]);
    assert IsSpace(p[0]) && p[1] == s[0];
    TrimEmptyIffAllSpace(p);
  }
}
