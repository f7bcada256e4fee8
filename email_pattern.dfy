/**
 * The e-mail shape check of the contact endpoint: the JavaScript regular
 * expression `^[^\s@]+@[^\s@]+\.[^\s@]+$`, stated three ways and proved to
 * agree: the regex's own language (MatchesEmailRegex), a character-level
 * characterisation (EmailShape) and a one-pass matcher (MatchEmail).
 */
module EmailPattern {

  /** The characters JavaScript's `\s` class matches: WhiteSpace and LineTerminator of ECMAScript. */
  predicate IsJsSpace(c: char) {
    var n := c as int;
    n == 0x09 || n == 0x0A || n == 0x0B || n == 0x0C || n == 0x0D || n == 0x20 ||
    n == 0xA0 || n == 0x1680 || (0x2000 <= n <= 0x200A) || n == 0x2028 || n == 0x2029 ||
    n == 0x202F || n == 0x205F || n == 0x3000 || n == 0xFEFF
  }

  /** The character class `[^\s@]`. */
  predicate IsAtom(c: char) {
    !IsJsSpace(c) && c != '@'
  }

  /** Every character of `s` is in `[^\s@]`. */
  predicate AllAtoms(s: string) {
    forall k | 0 <= k < |s| :: IsAtom(s[k])
  }

  /**
   * The language of `^[^\s@]+@[^\s@]+\.[^\s@]+$`: `s` splits at an '@' (index `at`)
   * and a '.' (index `dot`) into three non-empty runs of `[^\s@]`.
   */
  ghost predicate MatchesEmailRegex(s: string) {
    exists at, dot | 0 < at && at + 1 < dot && dot + 1 < |s| ::
      s[at] == '@' && s[dot] == '.' &&
      AllAtoms(s[..at]) && AllAtoms(s[at + 1..dot]) && AllAtoms(s[dot + 1..])
  }

  /** `s` holds no `\s` character. */
  predicate NoSpace(s: string) {
    forall k | 0 <= k < |s| :: !IsJsSpace(s[k])
  }

  /** `at` is the index of the one and only '@' in `s`. */
  predicate OnlyAtAt(s: string, at: int) {
    0 <= at < |s| && s[at] == '@' && forall k | 0 <= k < |s| && s[k] == '@' :: k == at
  }

  /** `d` has a '.' strictly between its first and its last character. */
  predicate HasInnerDot(d: string) {
    exists k | 0 < k < |d| - 1 :: d[k] == '.'
  }

  /**
   * The characterisation of an accepted address: no whitespace, exactly one '@',
   * a non-empty part before it, and a part after it with a '.' strictly inside.
   */
  ghost predicate EmailShape(s: string) {
    NoSpace(s) &&
    exists at | 0 < at < |s| :: OnlyAtAt(s, at) && HasInnerDot(s[at + 1..])
  }

  lemma RegexImpliesShape(s: string)
    requires MatchesEmailRegex(s)
    ensures EmailShape(s)
  {
    var at, dot :| 0 < at && at + 1 < dot && dot + 1 < |s| &&
      s[at] == '@' && s[dot] == '.' &&
      AllAtoms(s[..at]) && AllAtoms(s[at + 1..dot]) && AllAtoms(s[dot + 1..]);
    forall k | 0 <= k < |s|
      ensures IsAtom(s[k]) || k == at
    {
      if k < at {
        assert s[..at][k] == s[k];
      } else if at < k < dot {
        assert s[at + 1..dot][k - at - 1] == s[k];
      } else if k == dot {
      } else if dot < k {
        assert s[dot + 1..][k - dot - 1] == s[k];
      }
    }
    var d := s[at + 1..];
    assert d[dot - at - 1] == '.';
    assert HasInnerDot(d);
    assert OnlyAtAt(s, at);
  }

  lemma ShapeImpliesRegex(s: string)
    requires EmailShape(s)
    ensures MatchesEmailRegex(s)
  {
    var at :| 0 < at < |s| && OnlyAtAt(s, at) && HasInnerDot(s[at + 1..]);
    var d := s[at + 1..];
    var k :| 0 < k < |d| - 1 && d[k] == '.';
    var dot := at + 1 + k;
    assert s[dot] == '.';
    assert AllAtoms(s[..at]) by {
      forall j | 0 <= j < at ensures IsAtom(s[..at][j]) {
        assert s[..at][j] == s[j];
      }
    }
    var mid, tld := s[at + 1..dot], s[dot + 1..];
    assert AllAtoms(mid) by {
      forall j | 0 <= j < |mid| ensures IsAtom(mid[j]) {
        assert mid[j] == s[at + 1 + j];
      }
    }
    assert AllAtoms(tld) by {
      forall j | 0 <= j < |tld| ensures IsAtom(tld[j]) {
        assert tld[j] == s[dot + 1 + j];
      }
    }
  }

  /** The regex accepts exactly the strings of the characterisation. */
  lemma RegexIffShape(s: string)
    ensures MatchesEmailRegex(s) <==> EmailShape(s)
  {
    if MatchesEmailRegex(s) {
      RegexImpliesShape(s);
    }
    if EmailShape(s) {
      ShapeImpliesRegex(s);
    }
  }

  /** The shapes the contact form's users meet: "foo" and "foo@bar" are refused, "a@b.co" is accepted. */
  lemma SampleAddresses()
    ensures !MatchesEmailRegex("foo")
    ensures !MatchesEmailRegex("foo@bar")
    ensures MatchesEmailRegex("a@b.co")
  {
    var foo, fooBar, abco := "foo", "foo@bar", "a@b.co";
    forall at | 0 < at < |foo|
      ensures !OnlyAtAt(foo, at)
    {
      assert foo[at] != '@';
    }
    RegexIffShape(foo);
    forall at | 0 < at < |fooBar| && OnlyAtAt(fooBar, at)
      ensures !HasInnerDot(fooBar[at + 1..])
    {
      assert fooBar[3] == '@';
      assert at == 3;
      assert fooBar[4..] == "bar";
    }
    RegexIffShape(fooBar);
    assert abco[1] == '@' && abco[3] == '.';
    assert AllAtoms(abco[..1]) && AllAtoms(abco[2..3]) && AllAtoms(abco[4..]);
  }

  /** The states of the matcher: what it has seen of the input so far. */
  datatype Phase =
    | Start      // nothing read
    | Local      // a non-empty run of `[^\s@]`, no '@' yet
    | AfterAt    // the '@' just read
    | Domain     // after the '@': no '.' yet past its first character
    | DomainDot  // after the '@': the last character is the first '.' past the domain's first character
    | Accept     // after the '@': a '.' strictly inside the domain part
    | Reject     // a `\s`, a leading '@' or a second '@' seen: no continuation matches

  /** One transition of the matcher. */
  function Step(p: Phase, c: char): Phase {
    if !IsAtom(c) then
      if c == '@' && p == Local then AfterAt else Reject
    else
      match p
      case Start => Local
      case Local => Local
      case AfterAt => Domain
      case Domain => if c == '.' then DomainDot else Domain
      case DomainDot => Accept
      case Accept => Accept
      case Reject => Reject
  }

  /** The input shows a reason for rejection among its first `i` characters. */
  ghost predicate Doomed(s: string, i: int)
    requires 0 <= i <= |s|
  {
    (exists j | 0 <= j < i :: IsJsSpace(s[j])) ||
    (i > 0 && s[0] == '@') ||
    (exists j1, j2 | 0 <= j1 < j2 < i :: s[j1] == '@' && s[j2] == '@')
  }

  /** What the matcher knows about the first `i` characters of `s` in phase `p`, the '@' (if read) being at `at`. */
  ghost predicate Knows(s: string, i: int, p: Phase, at: int)
    requires 0 <= i <= |s|
  {
    (p == Start <==> i == 0) &&
    (p != Reject ==> forall k | 0 <= k < i :: !IsJsSpace(s[k])) &&
    (p == Local ==> forall k | 0 <= k < i :: s[k] != '@') &&
    (p in {AfterAt, Domain, DomainDot, Accept} ==>
       0 < at < i && s[at] == '@' && forall k | 0 <= k < i && s[k] == '@' :: k == at) &&
    (p == AfterAt ==> i == at + 1) &&
    (p == Domain ==> i >= at + 2 && forall k | at + 2 <= k < i :: s[k] != '.') &&
    (p == DomainDot ==> i >= at + 3 && s[i - 1] == '.' && forall k | at + 2 <= k < i - 1 :: s[k] != '.') &&
    (p == Accept ==> exists k | at + 2 <= k < i - 1 :: s[k] == '.') &&
    (p == Reject ==> Doomed(s, i))
  }

  /** In a doomed prefix, the whole string fails the characterisation. */
  lemma DoomedRejects(s: string, i: int)
    requires 0 <= i <= |s| && Doomed(s, i)
    ensures !EmailShape(s)
  {
    if exists j | 0 <= j < i :: IsJsSpace(s[j]) {
      var j :| 0 <= j < i && IsJsSpace(s[j]);
      assert !NoSpace(s);
    } else if i > 0 && s[0] == '@' {
      forall at | 0 < at < |s|
        ensures !OnlyAtAt(s, at)
      {
        assert s[0] == '@';
      }
    } else {
      var j1, j2 :| 0 <= j1 < j2 < i && s[j1] == '@' && s[j2] == '@';
      forall at | 0 < at < |s|
        ensures !OnlyAtAt(s, at)
      {
        assert s[j1] == '@' && s[j2] == '@';
      }
    }
  }

  /** The matcher's knowledge after one more character. */
  lemma StepKnows(s: string, i: int, p: Phase, at: int) returns (at': int)
    requires 0 <= i < |s| && Knows(s, i, p, at)
    ensures Knows(s, i + 1, Step(p, s[i]), at')
  {
    var c := s[i];
    at' := if c == '@' && p == Local then i else at;
    var q := Step(p, c);
    if q == Reject {
      if p == Reject {
        assert Doomed(s, i);
        if exists j1, j2 | 0 <= j1 < j2 < i :: s[j1] == '@' && s[j2] == '@' {
          var j1, j2 :| 0 <= j1 < j2 < i && s[j1] == '@' && s[j2] == '@';
          assert 0 <= j1 < j2 < i + 1;
        } else if i > 0 && s[0] == '@' {
        } else {
          var j :| 0 <= j < i && IsJsSpace(s[j]);
          assert 0 <= j < i + 1;
        }
      } else if IsJsSpace(c) {
        assert 0 <= i < i + 1 && IsJsSpace(s[i]);
      } else if p == Start {
        assert s[0] == '@';
      } else {
        assert c == '@' && p in {AfterAt, Domain, DomainDot, Accept};
        assert 0 <= at < i < i + 1 && s[at] == '@' && s[i] == '@';
      }
    } else if q == Accept && p == DomainDot {
      assert at + 2 <= i - 1 < i && s[i - 1] == '.';
    } else if q == Accept {
      var k :| at + 2 <= k < i - 1 && s[k] == '.';
      assert at + 2 <= k < i;
    }
  }

  /** In the final phase, acceptance coincides with the characterisation. */
  lemma FinalPhase(s: string, p: Phase, at: int)
    requires Knows(s, |s|, p, at)
    ensures p == Accept <==> EmailShape(s)
  {
    var n := |s|;
    if p == Accept {
      var k :| at + 2 <= k < n - 1 && s[k] == '.';
      var d := s[at + 1..];
      assert d[k - at - 1] == '.';
      assert HasInnerDot(d);
      assert OnlyAtAt(s, at);
    } else if p == Reject {
      DoomedRejects(s, n);
    } else if p == Local {
      forall at0 | 0 < at0 < n
        ensures !OnlyAtAt(s, at0)
      {
        assert s[at0] != '@';
      }
    } else if p != Start {
      forall at0 | 0 < at0 < n && OnlyAtAt(s, at0)
        ensures !HasInnerDot(s[at0 + 1..])
      {
        assert s[at] == '@';
        assert at0 == at;
        var d := s[at0 + 1..];
        forall k | 0 < k < |d| - 1
          ensures d[k] != '.'
        {
          assert d[k] == s[at + 1 + k];
        }
      }
    }
  }

  /**
   * The executable check `emailRegex.test(email)`: one pass over the string,
   * accepting exactly the language of the regular expression.
   */
  method MatchEmail(s: string) returns (ok: bool)
    ensures ok <==> EmailShape(s)
    ensures ok <==> MatchesEmailRegex(s)
  {
    var i := 0;
    var p := Start;
    ghost var at := 0;
    while i < |s|
      invariant 0 <= i <= |s|
      invariant Knows(s, i, p, at)
    {
      at := StepKnows(s, i, p, at);
      p := Step(p, s[i]);
      i := i + 1;
    }
    FinalPhase(s, p, at);
    RegexIffShape(s);
    ok := p == Accept;
  }
}
