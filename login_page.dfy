/** The sign-up and login form (frontend/src/pages/Login.jsx): the password
    rule mirrored from the backend, the live checklist, the form's validity
    and the order of the checks before a request is sent. */
module LoginPage {
  import opened Text

  predicate IsUpper(c: char) { 'A' <= c <= 'Z' }

  predicate IsLowerLetter(c: char) { 'a' <= c <= 'z' }

  /** `[@$!%*?&]`. */
  predicate IsSpecial(c: char) { c in "@$!%*?&" }

  /** `[A-Za-z\d@$!%*?&]`. */
  predicate IsAllowed(c: char) { IsUpper(c) || IsLowerLetter(c) || IsDigitChar(c) || IsSpecial(c) }

  /** The characters `.` does not match. */
  predicate IsLineTerminator(c: char) { c == '\n' || c == '\r' || c == '\U{2028}' || c == '\U{2029}' }

  /** `(?=.*[X])` at the start: some character of class X comes before the
      first line terminator. */
  predicate LookaheadUpper(p: string)
  {
    exists i :: 0 <= i < |p| && IsUpper(p[i]) && forall j :: 0 <= j < i ==> !IsLineTerminator(p[j])
  }

  predicate LookaheadDigit(p: string)
  {
    exists i :: 0 <= i < |p| && IsDigitChar(p[i]) && forall j :: 0 <= j < i ==> !IsLineTerminator(p[j])
  }

  predicate LookaheadSpecial(p: string)
  {
    exists i :: 0 <= i < |p| && IsSpecial(p[i]) && forall j :: 0 <= j < i ==> !IsLineTerminator(p[j])
  }

  /** BACKEND_PASSWORD_REGEX, part by part:
      `^(?=.*[A-Z])(?=.*\d)(?=.*[@$!%*?&])[A-Za-z\d@$!%*?&]{6,}$`. */
  predicate MatchesBackend(p: string)
  {
    LookaheadUpper(p) && LookaheadDigit(p) && LookaheadSpecial(p)
    && |p| >= 6 && forall i :: 0 <= i < |p| ==> IsAllowed(p[i])
  }

  /** The checklist's flags (`/[A-Z]/.test(p)` and so on). */
  datatype Validations = Validations(hasMinLen: bool, hasUpper: bool, hasDigit: bool, hasSpecial: bool, matchesBackend: bool)

  function CheckPassword(p: string): (v: Validations)
    ensures v.hasMinLen <==> |p| >= 6
    ensures v.hasUpper <==> exists i :: 0 <= i < |p| && IsUpper(p[i])
    ensures v.hasDigit <==> exists i :: 0 <= i < |p| && IsDigitChar(p[i])
    ensures v.hasSpecial <==> exists i :: 0 <= i < |p| && IsSpecial(p[i])
    ensures v.matchesBackend <==> MatchesBackend(p)
  {
    Validations(|p| >= 6,
      exists i :: 0 <= i < |p| && IsUpper(p[i]),
      exists i :: 0 <= i < |p| && IsDigitChar(p[i]),
      exists i :: 0 <= i < |p| && IsSpecial(p[i]),
      MatchesBackend(p))
  }

  /** No allowed character ends a line, so on an all-allowed password each
      lookahead holds exactly when its class occurs at all. */
  lemma LookaheadsOnAllowed(p: string)
    requires forall i :: 0 <= i < |p| ==> IsAllowed(p[i])
    ensures LookaheadUpper(p) <==> exists i :: 0 <= i < |p| && IsUpper(p[i])
    ensures LookaheadDigit(p) <==> exists i :: 0 <= i < |p| && IsDigitChar(p[i])
    ensures LookaheadSpecial(p) <==> exists i :: 0 <= i < |p| && IsSpecial(p[i])
  {
    assert forall j :: 0 <= j < |p| ==> !IsLineTerminator(p[j]) by {
      forall j | 0 <= j < |p|
        ensures !IsLineTerminator(p[j])
      {
        assert IsAllowed(p[j]);
      }
    }
  }

  /** The regex is exactly the four checklist items plus "only allowed
      characters". */
  lemma RegexMeaning(p: string)
    ensures MatchesBackend(p) <==>
      (var v := CheckPassword(p);
       v.hasMinLen && v.hasUpper && v.hasDigit && v.hasSpecial && forall i :: 0 <= i < |p| ==> IsAllowed(p[i]))
  {
    if forall i :: 0 <= i < |p| ==> IsAllowed(p[i]) {
      LookaheadsOnAllowed(p);
    }
  }

  /** A match ticks every box of the checklist. */
  lemma MatchTicksAll(p: string)
    requires CheckPassword(p).matchesBackend
    ensures var v := CheckPassword(p); v.hasMinLen && v.hasUpper && v.hasDigit && v.hasSpecial
  {
    RegexMeaning(p);
  }

  /** All four boxes ticked but one character outside the allowed set: the
      converse fails only that way. */
  lemma TickedButRejected()
    ensures var v := CheckPassword("Abc12!#");
      v.hasMinLen && v.hasUpper && v.hasDigit && v.hasSpecial && !v.matchesBackend
  {
    var p := "Abc12!#";
    assert IsUpper(p[0]) && IsDigitChar(p[3]) && IsSpecial(p[5]);
    assert !IsAllowed(p[6]);
  }

  datatype Mode = Signup | Login

  /** isValid: email and password filled in; for sign-up also a name and a
      password the backend accepts. The login form applies no password
      rule. */
  function IsValid(mode: Mode, name: string, email: string, password: string): (ok: bool)
    ensures ok <==> email != "" && password != "" && (mode == Signup ==> name != "" && MatchesBackend(password))
    ensures email == "" || password == "" ==> !ok
    ensures mode == Login ==> (ok <==> email != "" && password != "")
  {
    if email == "" || password == "" then false
    else if mode == Signup && (name == "" || !CheckPassword(password).matchesBackend) then false
    else true
  }

  /** What submit does. */
  datatype Submission =
    | PasswordRejected   // "Password does not meet requirements"
    | MissingFields      // "Please fill required fields"
    | MlServerAsleep     // "ML server is still starting up"
    | BackendAsleep      // "Backend server is still starting"
    | Send(mode: Mode)   // register or login is called

  /** submit: the form is checked first, then the ML server, then the
      backend; only when all three pass is anything sent. */
  function Submit(mode: Mode, name: string, email: string, password: string,
                  mlServerAwake: bool, serverAwake: bool): (s: Submission)
    ensures s.Send? <==> IsValid(mode, name, email, password) && mlServerAwake && serverAwake
    ensures s.Send? ==> s.mode == mode
    ensures !IsValid(mode, name, email, password) ==>
      s == (if mode == Signup && !MatchesBackend(password) then PasswordRejected else MissingFields)
    ensures mode == Signup && !MatchesBackend(password) ==> s == PasswordRejected
    ensures IsValid(mode, name, email, password) && !mlServerAwake ==> s == MlServerAsleep
    ensures IsValid(mode, name, email, password) && mlServerAwake && !serverAwake ==> s == BackendAsleep
  {
    var v := CheckPassword(password);
    if !IsValid(mode, name, email, password) then
      if mode == Signup && !v.matchesBackend then PasswordRejected else MissingFields
    else if !mlServerAwake then MlServerAsleep
    else if !serverAwake then BackendAsleep
    else Send(mode)
  }
}
