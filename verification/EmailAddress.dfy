/** The address check behind the email field: the regular expression
    `^[^\s@]+@[^\s@]+\.[^\s@]+$`, together with the rule that an empty field is not flagged. */
module EmailAddress {
  import opened Wrappers
  import opened JsText

  /** The character class `[^\s@]`. */
  predicate AddressChar(c: char) {
    !IsSpace(c) && c != '@'
  }

  predicate AllAddressChars(s: string) {
    forall k :: 0 <= k < |s| ==> AddressChar(s[k])
  }

  /** One `[^\s@]+` run. */
  predicate Segment(s: string) {
    |s| > 0 && AllAddressChars(s)
  }

  /** The language of the regular expression, read as a decomposition: three non-empty runs of
      `[^\s@]`, the first two separated by `@`, the last two by a `.`. */
  ghost predicate MatchesPattern(s: string) {
    exists user, host, tld :: Segment(user) && Segment(host) && Segment(tld)
                           && s == user + "@" + host + "." + tld
  }

  /** The first position at or after `from` holding `c`, if any. */
  function IndexOf(s: string, c: char, from: nat): (r: Option<nat>)
    ensures r.Some? ==> from <= r.value < |s| && s[r.value] == c
    ensures r.Some? ==> forall k :: from <= k < r.value ==> s[k] != c
    ensures r.None? ==> forall k :: from <= k < |s| ==> s[k] != c
    decreases |s| - from
  {
    if from >= |s| then None
    else if s[from] == c then Some(from)
    else IndexOf(s, c, from + 1)
  }

  /** An executable check of the pattern: the first `@` is not at the start, nothing around it is
      whitespace or a second `@`, and some `.` sits strictly inside the part after the `@`. */
  predicate HasEmailShape(s: string) {
    match IndexOf(s, '@', 0)
    case None => false
    case Some(at) =>
      && 0 < at
      && AllAddressChars(s[..at])
      && AllAddressChars(s[at + 1..])
      && match IndexOf(s, '.', at + 2)
         case None => false
         case Some(dot) => dot + 1 < |s|
  }

  /** The value the field's validity flag takes for input `v`: the regular expression matches, or
      the field is empty. */
  predicate FieldValid(v: string) {
    HasEmailShape(v) || v == ""
  }

  lemma ShapeImpliesPattern(s: string)
    requires HasEmailShape(s)
    ensures MatchesPattern(s)
  {
    var at := IndexOf(s, '@', 0).value;
    var dot := IndexOf(s, '.', at + 2).value;
    assert 0 < at && at + 2 <= dot && dot + 1 < |s|;
    var user, host, tld := s[..at], s[at + 1..dot], s[dot + 1..];
    var rest := s[at + 1..];
    forall k | 0 <= k < |host| ensures AddressChar(host[k]) {
      assert host[k] == s[at + 1 + k] == rest[k];
    }
    forall k | 0 <= k < |tld| ensures AddressChar(tld[k]) {
      assert tld[k] == s[dot + 1 + k] == rest[dot - at + k];
    }
    assert Segment(user) && Segment(host) && Segment(tld);
    assert s == user + "@" + host + "." + tld;
  }

  lemma PatternImpliesShape(s: string)
    requires MatchesPattern(s)
    ensures HasEmailShape(s)
  {
    var user, host, tld :| Segment(user) && Segment(host) && Segment(tld)
                         && s == user + "@" + host + "." + tld;
    var at := |user|;
    var dot := at + 1 + |host|;
    assert s[at] == '@';
    assert forall k :: 0 <= k < at ==> s[k] == user[k];
    assert IndexOf(s, '@', 0) == Some(at);
    assert s[..at] == user;
    var rest := s[at + 1..];
    assert rest == host + "." + tld;
    assert AllAddressChars(rest);
    assert s[dot] == '.';
    var found := IndexOf(s, '.', at + 2);
    assert found.Some? && found.value <= dot;
  }

  /** The executable check accepts exactly the language of the regular expression. */
  lemma {:induction false} ShapeIffPattern(s: string)
    ensures HasEmailShape(s) <==> MatchesPattern(s)
  {
    if HasEmailShape(s) {
      ShapeImpliesPattern(s);
    }
    if MatchesPattern(s) {
      PatternImpliesShape(s);
    }
  }

  /** The flag is set exactly for the empty field and for addresses of the form user@host.tld. */
  lemma FieldValidIff(v: string)
    ensures FieldValid(v) <==> v == "" || MatchesPattern(v)
  {
    ShapeIffPattern(v);
  }

  /** While an address is being typed, no non-empty prefix without an `@` is ever flagged valid. */
  lemma NoAtIsInvalid(v: string)
    requires v != ""
    requires forall k :: 0 <= k < |v| ==> v[k] != '@'
    ensures !FieldValid(v)
  {
  }

  /** Sample inputs and the flag they produce. */
  lemma ExamplesValid()
    ensures FieldValid("a@b.co")
    ensures FieldValid("")
  {
    var s := "a@b.co";
    assert IndexOf(s, '@', 1) == Some(1);
    assert IndexOf(s, '.', 3) == Some(3);
  }

  lemma ExamplesInvalid()
    ensures !FieldValid("no-at-sign")
    ensures !FieldValid("a@.co")
    ensures !FieldValid("a@b.")
    ensures !FieldValid("a b@c.de")
    ensures !FieldValid("a@b@c.de")
  {
    NoAtIsInvalid("no-at-sign");
    var s1 := "a@.co";
    assert IndexOf(s1, '@', 1) == Some(1);
    assert IndexOf(s1, '.', 4) == None;
    var s2 := "a@b.";
    assert IndexOf(s2, '@', 1) == Some(1);
    assert IndexOf(s2, '.', 3) == Some(3);
    var s3 := "a b@c.de";
    assert !AddressChar(s3[1]);
    var s4 := "a@b@c.de";
    assert IndexOf(s4, '@', 1) == Some(1);
    assert s4[1 + 1..][1] == '@';
  }
}
