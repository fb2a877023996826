/**
  The React login form: the required and pattern rules on the email, the
  required password, and the submit handler's loading flag and error.
 */
module LoginForm {
  import opened Records
  import opened AuthContext
  import opened Text

  predicate IsLetter(c: char) {
    'A' <= c <= 'Z' || 'a' <= c <= 'z'
  }

  predicate IsDigit(c: char) {
    '0' <= c <= '9'
  }

  /** `[A-Z0-9._%+-]` under the case-insensitive flag. */
  predicate LocalChar(c: char) {
    IsLetter(c) || IsDigit(c) || c == '.' || c == '_' || c == '%' || c == '+' || c == '-'
  }

  /** `[A-Z0-9.-]` under the case-insensitive flag. */
  predicate DomainChar(c: char) {
    IsLetter(c) || IsDigit(c) || c == '.' || c == '-'
  }

  predicate AllLocal(s: string) {
    forall i :: 0 <= i < |s| ==> LocalChar(s[i])
  }

  predicate AllDomain(s: string) {
    forall i :: 0 <= i < |s| ==> DomainChar(s[i])
  }

  predicate AllLetters(s: string) {
    forall i :: 0 <= i < |s| ==> IsLetter(s[i])
  }

  /** `s` reads local-part, '@' at `at`, domain, '.' at `dot`, top-level
      domain, each part as long as the pattern asks. */
  predicate SplitAt(s: string, at: int, dot: int) {
    0 < at && at + 1 < dot && dot + 2 < |s| &&
    s[at] == '@' && s[dot] == '.' &&
    AllLocal(s[..at]) && AllDomain(s[at + 1..dot]) && AllLetters(s[dot + 1..])
  }

  /** `/^[A-Z0-9._%+-]+@[A-Z0-9.-]+\.[A-Z]{2,}$/i`: some way of cutting the
      string fits the pattern. */
  ghost predicate MatchesPattern(s: string) {
    exists at, dot :: SplitAt(s, at, dot)
  }

  /** The last position of `c` in `s`, or -1. */
  function LastIndex(s: string, c: char): (r: int)
    ensures -1 <= r < |s|
    ensures r >= 0 ==> s[r] == c && forall j :: r < j < |s| ==> s[j] != c
    ensures r == -1 ==> forall j :: 0 <= j < |s| ==> s[j] != c
  {
    if s == [] then -1
    else if s[|s| - 1] == c then |s| - 1
    else LastIndex(s[..|s| - 1], c)
  }

  /** A direct check: cut at the first '@' and at the last '.'. */
  predicate EmailAccepted(s: string) {
    SplitAt(s, FirstIndex(s, '@'), LastIndex(s, '.'))
  }

  /** The direct check accepts exactly what the pattern matches: no part may
      hold an '@', so any fitting cut is at the only '@'; the top-level domain
      holds no '.', so the cut is at the last '.'. */
  lemma EmailAcceptedIff(s: string)
    ensures EmailAccepted(s) <==> MatchesPattern(s)
  {
    if MatchesPattern(s) {
      var at, dot :| SplitAt(s, at, dot);
      forall j | 0 <= j < at ensures s[j] != '@' {
        assert s[..at][j] == s[j];
      }
      forall j | dot < j < |s| ensures s[j] != '.' {
        assert s[dot + 1..][j - dot - 1] == s[j];
      }
      assert FirstIndex(s, '@') == at;
      assert LastIndex(s, '.') == dot;
    }
  }

  /** Every accepted email holds exactly one '@' and ends in at least two
      letters. */
  lemma AcceptedShape(s: string)
    requires MatchesPattern(s)
    ensures exists at :: 0 <= at < |s| && s[at] == '@' && forall j :: 0 <= j < |s| && s[j] == '@' ==> j == at
    ensures |s| >= 2 && IsLetter(s[|s| - 1]) && IsLetter(s[|s| - 2])
  {
    var at, dot :| SplitAt(s, at, dot);
    forall j | 0 <= j < at ensures s[j] != '@' {
      assert s[..at][j] == s[j];
    }
    forall j | at < j < dot ensures s[j] != '@' {
      assert s[at + 1..dot][j - at - 1] == s[j];
    }
    forall j | dot < j < |s| ensures s[j] != '@' {
      assert s[dot + 1..][j - dot - 1] == s[j];
    }
    assert forall j :: 0 <= j < |s| && s[j] == '@' ==> j == at;
    assert s[dot + 1..][|s| - dot - 2] == s[|s| - 1];
    assert s[dot + 1..][|s| - dot - 3] == s[|s| - 2];
  }

  /** The demo addresses the page lists fit the pattern. */
  lemma DemoEmailsAccepted()
    ensures MatchesPattern("admin@milk.com")
    ensures MatchesPattern("worker@milk.com")
    ensures MatchesPattern("customer@milk.com")
  {
    assert SplitAt("admin@milk.com", 5, 10);
    assert SplitAt("worker@milk.com", 6, 11);
    assert SplitAt("customer@milk.com", 8, 13);
  }

  /** The email field's message: required first, then the pattern. */
  function EmailError(email: string): (r: Option<string>)
    ensures r.None? <==> email != "" && MatchesPattern(email)
    ensures email == "" ==> r == Some("Email is required")
    ensures email != "" && !MatchesPattern(email) ==> r == Some("Invalid email address")
  {
    EmailAcceptedIff(email);
    if email == "" then Some("Email is required")
    else if !EmailAccepted(email) then Some("Invalid email address")
    else None
  }

  function PasswordError(password: string): (r: Option<string>)
    ensures r.None? <==> password != ""
    ensures r.Some? ==> r.value == "Password is required"
  {
    if password == "" then Some("Password is required") else None
  }

  class Form {
    var isLoading: bool
    var emailError: Option<string>
    var passwordError: Option<string>

    constructor()
      ensures !isLoading && emailError == None && passwordError == None
    {
      isLoading := false;
      emailError := None;
      passwordError := None;
    }

    /** `handleSubmit(onSubmit)`: invalid fields get their messages and no
        login is tried; valid ones run the login with the loading flag
        raised, and a failed login puts 'Invalid credentials' on the email
        field; the flag is down again afterwards. */
    method Submit(email: string, password: string, session: Session, freshId: string, now: int) returns (ok: bool)
      modifies this, session
      ensures passwordError == PasswordError(password)
      ensures EmailError(email).Some? || PasswordError(password).Some? ==>
        !ok && emailError == EmailError(email) && isLoading == old(isLoading) && unchanged(session)
      ensures EmailError(email).None? && PasswordError(password).None? ==>
        (ok <==> exists a :: a in MockAccounts && a.email == email && a.password == password) &&
        emailError == (if ok then None else Some("Invalid credentials")) && !isLoading
      ensures !ok ==> session.user == old(session.user) && session.token == old(session.token)
    {
      emailError := EmailError(email);
      passwordError := PasswordError(password);
      if emailError.Some? || passwordError.Some? {
        return false;
      }
      isLoading := true;
      ok := session.Login(email, password, freshId, now);
      if !ok {
        emailError := Some("Invalid credentials");
      }
      isLoading := false;
    }
  }
}
