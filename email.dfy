/** The e-mail format check of user registration. */
module EmailFormat {
  import opened JsValues

  /** A non-empty run of characters that are neither white space nor '@':
      what `[^\s@]+` matches. */
  predicate PlainRun(t: string)
  {
    t != [] && forall k :: 0 <= k < |t| ==> !IsSpace(t[k]) && t[k] != '@'
  }

  /** `/^[^\s@]+@[^\s@]+\.[^\s@]+$/.test(s)`: `s` is three plain runs joined
      first by '@' and then by '.'. */
  predicate MatchesEmailPattern(s: string)
  {
    exists i, j | 0 <= i < j < |s| ::
      s[i] == '@' && s[j] == '.' && PlainRun(s[..i]) && PlainRun(s[i + 1..j]) && PlainRun(s[j + 1..])
  }

  /** The same set of addresses described without the pattern: no white space,
      exactly one '@', not in first place, and after it a '.' that neither
      follows the '@' directly nor ends the address. */
  ghost predicate WellFormedAddress(s: string)
  {
    && (forall k :: 0 <= k < |s| ==> !IsSpace(s[k]))
    && exists i :: 0 < i < |s| && s[i] == '@'
         && (forall k :: 0 <= k < |s| && k != i ==> s[k] != '@')
         && (exists j :: i + 1 < j < |s| - 1 && s[j] == '.')
  }

  lemma PatternGivesWellFormed(s: string)
    requires MatchesEmailPattern(s)
    ensures WellFormedAddress(s)
  {
    var i, j :| 0 <= i < j < |s| && s[i] == '@' && s[j] == '.' && PlainRun(s[..i])
                && PlainRun(s[i + 1..j]) && PlainRun(s[j + 1..]);
    forall k | 0 <= k < |s| && k != i ensures !IsSpace(s[k]) && s[k] != '@' {
      if k < i {
        assert s[k] == s[..i][k];
      } else if k < j {
        assert s[k] == s[i + 1..j][k - i - 1];
      } else if k > j {
        assert s[k] == s[j + 1..][k - j - 1];
      }
    }
    assert |s[j + 1..]| > 0;
    assert i + 1 < j < |s| - 1 && s[j] == '.';
  }

  lemma WellFormedGivesPattern(s: string)
    requires WellFormedAddress(s)
    ensures MatchesEmailPattern(s)
  {
    var i :| 0 < i < |s| && s[i] == '@'
             && (forall k :: 0 <= k < |s| && k != i ==> s[k] != '@')
             && (exists j :: i + 1 < j < |s| - 1 && s[j] == '.');
    var j :| i + 1 < j < |s| - 1 && s[j] == '.';
    assert PlainRun(s[..i]);
    assert PlainRun(s[i + 1..j]);
    assert PlainRun(s[j + 1..]);
  }

  /** The pattern accepts exactly the well-formed addresses. */
  lemma PatternIsWellFormedAddress(s: string)
    ensures MatchesEmailPattern(s) <==> WellFormedAddress(s)
  {
    if MatchesEmailPattern(s) {
      PatternGivesWellFormed(s);
    }
    if WellFormedAddress(s) {
      WellFormedGivesPattern(s);
    }
  }
}
