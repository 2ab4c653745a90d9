/**
 * The scope gate of `JWTAuthentication.are_scopes_sufficient`
 * (auth_backend/jwt_authentication.py): the scope string GitHub grants is
 * split on ',' exactly as Python's `str.split(',')` does, and the expected
 * scopes must all occur among the pieces. Matching is exact: no trimming,
 * no case folding.
 */
module Scopes {

  const ScopeSeparator: char := ','

  /**
   * Python's `s.split(sep)` for a one-character separator: the pieces
   * between separators, including empty ones; the empty string gives [""].
   */
  function Split(s: string, sep: char): (parts: seq<string>)
    ensures |parts| >= 1
    ensures |parts| <= |s| + 1
    decreases |s|
  {
    if |s| == 0 then [""]
    else
      var rest := Split(s[1..], sep);
      if s[0] == sep then [""] + rest
      else [[s[0]] + rest[0]] + rest[1..]
  }

  /** Python's `sep.join(parts)`, the inverse of Split. */
  function Join(parts: seq<string>, sep: char): string
    requires |parts| >= 1
  {
    if |parts| == 1 then parts[0] else parts[0] + [sep] + Join(parts[1..], sep)
  }

  /** No piece of a split contains the separator. */
  lemma {:induction false} SplitPiecesHaveNoSeparator(s: string, sep: char)
    ensures forall p | p in Split(s, sep) :: sep !in p
    decreases |s|
  {
    if |s| > 0 {
      SplitPiecesHaveNoSeparator(s[1..], sep);
    }
  }

  /** Joining the pieces back with the separator gives the original string. */
  lemma {:induction false} JoinSplit(s: string, sep: char)
    ensures Join(Split(s, sep), sep) == s
    decreases |s|
  {
    if |s| > 0 {
      var rest := Split(s[1..], sep);
      JoinSplit(s[1..], sep);
      if s[0] == sep {
        assert Split(s, sep) == [""] + rest;
        assert ([""] + rest)[1..] == rest;
        assert s == [sep] + s[1..];
      } else {
        var parts := Split(s, sep);
        assert parts[1..] == rest[1..];
        if |rest| == 1 {
          assert s == [s[0]] + rest[0];
        } else {
          assert Join(rest, sep) == rest[0] + [sep] + Join(rest[1..], sep);
          assert s == [s[0]] + (rest[0] + [sep] + Join(rest[1..], sep));
        }
      }
    }
  }

  /** A string without the separator splits into itself alone. */
  lemma {:induction false} SplitWithoutSeparator(s: string, sep: char)
    requires sep !in s
    ensures Split(s, sep) == [s]
    decreases |s|
  {
    if |s| > 0 {
      assert s[0] in s;
      SplitWithoutSeparator(s[1..], sep);
      assert [s[0]] + s[1..] == s;
    }
  }

  /** Splitting `a + sep + b` splits `a` and `b` independently. */
  lemma {:induction false} SplitConcat(a: string, b: string, sep: char)
    ensures Split(a + [sep] + b, sep) == Split(a, sep) + Split(b, sep)
    decreases |a|
  {
    var s := a + [sep] + b;
    if |a| == 0 {
      assert s[1..] == b;
    } else {
      assert s[0] == a[0];
      assert s[1..] == a[1..] + [sep] + b;
      SplitConcat(a[1..], b, sep);
    }
  }

  /** Splitting the joined pieces gives back the pieces when none contains the separator. */
  lemma {:induction false} SplitJoin(parts: seq<string>, sep: char)
    requires |parts| >= 1
    requires forall p | p in parts :: sep !in p
    ensures Split(Join(parts, sep), sep) == parts
    decreases |parts|
  {
    SplitWithoutSeparator(parts[0], sep);
    if |parts| > 1 {
      SplitJoin(parts[1..], sep);
      SplitConcat(parts[0], Join(parts[1..], sep), sep);
      assert parts == [parts[0]] + parts[1..];
    }
  }

  /**
   * `set(expected).issubset(set(scopes.split(',')))`: every expected scope
   * is, character for character, one of the comma-separated granted scopes.
   */
  function AreScopesSufficient(expected: seq<string>, scopes: string): (ok: bool)
    ensures ok <==> forall e | e in expected :: e in Split(scopes, ScopeSeparator)
  {
    var granted := set p | p in Split(scopes, ScopeSeparator);
    assert forall e :: e in granted <==> e in Split(scopes, ScopeSeparator);
    (set e | e in expected) <= granted
  }

  /** Granting more scopes, before or after the ones granted, never turns sufficient into insufficient. */
  lemma MoreScopesStaySufficient(expected: seq<string>, granted: string, extra: string)
    requires AreScopesSufficient(expected, granted)
    ensures AreScopesSufficient(expected, granted + [ScopeSeparator] + extra)
    ensures AreScopesSufficient(expected, extra + [ScopeSeparator] + granted)
  {
    SplitConcat(granted, extra, ScopeSeparator);
    SplitConcat(extra, granted, ScopeSeparator);
  }

  /** The deployed gate, expected scopes ["user"], is passed by "user" alone or among other scopes. */
  lemma UserScopeAccepted()
    ensures AreScopesSufficient(["user"], "user")
    ensures AreScopesSufficient(["user"], "repo,user")
  {
    SplitWithoutSeparator("user", ScopeSeparator);
    assert "repo,user" == "repo" + [ScopeSeparator] + "user";
    MoreScopesStaySufficient(["user"], "user", "repo");
  }

  /** The separator splits the string: "repo, user" grants "repo" and " user", with the space kept. */
  lemma SplitKeepsPadding()
    ensures Split("repo, user", ScopeSeparator) == ["repo", " user"]
  {
    SplitWithoutSeparator("repo", ScopeSeparator);
    SplitWithoutSeparator(" user", ScopeSeparator);
    assert "repo, user" == "repo" + [ScopeSeparator] + " user";
    SplitConcat("repo", " user", ScopeSeparator);
  }

  /** Matching is exact: a padded, differently cased or absent scope fails the gate. */
  lemma UserScopeMatchedExactly()
    ensures !AreScopesSufficient(["user"], "repo, user")
    ensures !AreScopesSufficient(["user"], "User")
    ensures !AreScopesSufficient(["user"], "")
  {
    assert "user" in ["user"];
    SplitKeepsPadding();
    assert "user"[0] != " user"[0] && "user"[0] != "repo"[0];
    SplitWithoutSeparator("User", ScopeSeparator);
    assert "user"[0] != "User"[0];
    assert Split("", ScopeSeparator) == [""];
  }
}
