/** The field rules the four authentication forms share: the e-mail check
    (the pattern `^[^\s@]+@[^\s@]+\.[^\s@]+$`), the password rules, the
    confirmation rule, and the messages they show. Each form repeats these
    rules word for word; here they are defined once. */
module AuthValidation {
  import opened Common

  const EmailRequired: string := "Email jest wymagany"
  const EmailMalformed: string := "Nieprawidłowy format email"
  const PasswordRequired: string := "Hasło jest wymagane"
  const PasswordTooShort: string := "Hasło musi mieć minimum 8 znaków"
  const ConfirmRequired: string := "Potwierdzenie hasła jest wymagane"
  const PasswordsDiffer: string := "Hasła nie są identyczne"
  const MinPasswordLength: nat := 8

  /** A character of `[^\s@]`. */
  predicate EmailChar(c: char) {
    !IsSpace(c) && c != '@'
  }

  /** The pattern as a decomposition: an `@` at position `a` and a `.` at
      position `b` split the text into three non-empty runs, and every
      character except that `@` is from `[^\s@]` (the `.` itself is one). */
  predicate MatchesEmailPattern(s: string) {
    exists a, b :: 0 < a && a + 1 < b && b + 1 < |s| && s[a] == '@' && s[b] == '.'
      && (forall i :: 0 <= i < |s| && i != a ==> EmailChar(s[i]))
  }

  /** A `.` with at least one character on either side. */
  predicate DotInside(d: string) {
    |d| >= 3 && '.' in d[1..|d| - 1]
  }

  /** The check as it can be run: no white space, a non-empty part before
      the first `@`, no second `@`, and a `.` inside the part after it. */
  predicate EmailShape(s: string) {
    var (local, domain) := SplitAtFirst(s, '@');
    NoSpace(s) && local != "" && domain.Some? && '@' !in domain.value && DotInside(domain.value)
  }

  /** The check agrees with the pattern on every text. */
  lemma EmailShapeMatchesPattern(s: string)
    ensures EmailShape(s) <==> MatchesEmailPattern(s)
  {
    if EmailShape(s) {
      ShapeGivesPattern(s);
    }
    if MatchesEmailPattern(s) {
      var a, b :| 0 < a && a + 1 < b && b + 1 < |s| && s[a] == '@' && s[b] == '.'
        && (forall i :: 0 <= i < |s| && i != a ==> EmailChar(s[i]));
      PatternGivesShape(s, a, b);
    }
  }

  lemma ShapeGivesPattern(s: string)
    requires EmailShape(s)
    ensures MatchesEmailPattern(s)
  {
    var (local, domain) := SplitAtFirst(s, '@');
    var d := domain.value;
    var a := |local|;
    assert s == local + "@" + d;
    var j :| 1 <= j < |d| - 1 && d[j] == '.' by {
      var m :| 0 <= m < |d[1..|d| - 1]| && d[1..|d| - 1][m] == '.';
      assert d[m + 1] == '.';
    }
    var b := a + 1 + j;
    assert s[b] == '.';
    forall i | 0 <= i < |s| && i != a
      ensures EmailChar(s[i])
    {
      if i < a {
        assert s[i] == local[i];
        assert local[i] in local;
      } else {
        assert s[i] == d[i - a - 1];
        assert d[i - a - 1] in d;
      }
    }
  }

  lemma PatternGivesShape(s: string, a: int, b: int)
    requires 0 < a && a + 1 < b && b + 1 < |s| && s[a] == '@' && s[b] == '.'
    requires forall i :: 0 <= i < |s| && i != a ==> EmailChar(s[i])
    ensures EmailShape(s)
  {
    var local := s[..a];
    var d := s[a + 1..];
    assert '@' !in local by {
      forall k | 0 <= k < |local| ensures local[k] != '@' { assert EmailChar(s[k]); }
    }
    assert s == local + "@" + d;
    SplitAtFirstGlued(local, d, '@');
    assert '@' !in d by {
      forall k | 0 <= k < |d| ensures d[k] != '@' { assert EmailChar(s[a + 1 + k]); }
    }
    assert d[1..|d| - 1][b - a - 2] == '.';
    forall i | 0 <= i < |s|
      ensures !IsSpace(s[i])
    {
      if i != a { assert EmailChar(s[i]); }
    }
  }

  /** `validateEmail`: required, then the pattern. */
  function EmailIssue(email: string): (m: Option<string>)
    ensures m == None <==> email != "" && MatchesEmailPattern(email)
    ensures m == Some(EmailRequired) <==> email == ""
    ensures m == Some(EmailMalformed) <==> email != "" && !MatchesEmailPattern(email)
  {
    EmailShapeMatchesPattern(email);
    if email == "" then Some(EmailRequired)
    else if !EmailShape(email) then Some(EmailMalformed)
    else None
  }

  /** A concrete address passes. */
  lemma GoodEmailExample()
    ensures EmailIssue("ala@kot.pl") == None
  {
    var s := "ala@kot.pl";
    assert s[3] == '@' && s[7] == '.';
    assert forall i :: 0 <= i < |s| && i != 3 ==> EmailChar(s[i]);
    assert MatchesEmailPattern(s);
  }

  /** An address without a `.` after the `@` is malformed. */
  lemma NoDotEmailExample()
    ensures EmailIssue("ala@kot") == Some(EmailMalformed)
  {
  }

  /** The password rule of registration and of setting a new password:
      required, then at least eight characters. */
  function NewPasswordIssue(password: string): (m: Option<string>)
    ensures m == None <==> |password| >= MinPasswordLength
    ensures m == Some(PasswordRequired) <==> password == ""
  {
    if password == "" then Some(PasswordRequired)
    else if |password| < MinPasswordLength then Some(PasswordTooShort)
    else None
  }

  /** The login password rule: only required. */
  function LoginPasswordIssue(password: string): (m: Option<string>)
    ensures m == None <==> password != ""
    ensures m.Some? ==> m.value == PasswordRequired
  {
    if password == "" then Some(PasswordRequired) else None
  }

  /** `validateConfirmPassword`: required, then equal to the password. */
  function ConfirmIssue(password: string, confirm: string): (m: Option<string>)
    ensures m == None <==> confirm != "" && confirm == password
    ensures m == Some(ConfirmRequired) <==> confirm == ""
  {
    if confirm == "" then Some(ConfirmRequired)
    else if password != confirm then Some(PasswordsDiffer)
    else None
  }

  /** A blur that finds a problem records it; one that finds none leaves the
      old error. So a blur only ever adds an error. */
  function Blurred(current: Option<string>, issue: Option<string>): (r: Option<string>)
    ensures issue.Some? ==> r == issue
    ensures issue.None? ==> r == current
    ensures current.Some? ==> r.Some?
  {
    if issue.Some? then issue else current
  }

  /** `value || fallback` for an optional text: missing and empty fall back. */
  function OrDefault(value: Option<string>, fallback: string): (r: string)
    ensures value.Some? && value.value != "" ==> r == value.value
    ensures value.None? || value.value == "" ==> r == fallback
  {
    if value.Some? && value.value != "" then value.value else fallback
  }

  /** What a form's `fetch` gave: a response (its `ok` flag and the `error`
      and `message` fields of its JSON body), or an exception (no response,
      or a body that is not JSON). */
  datatype ApiAnswer = Answered(ok: bool, error: Option<string>, message: Option<string>) | Thrown
}
