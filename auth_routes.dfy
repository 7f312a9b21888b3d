/** The declarative request checks of the auth routes: which endpoints pass
    through the authentication middleware, the signup and status validators,
    and the sanitizers that rewrite the request body before the controller. */
module AuthRoutes {
  import opened Common
  import opened UserModel

  /** The characters of JavaScript's `\s` class, which validator.js's `trim`
      strips from both ends. */
  predicate IsWhitespace(c: char)
  {
    c == ' ' || c == '\t' || c == '\n' || c == '\U{000B}' || c == '\U{000C}' || c == '\r'
    || c == '\U{00A0}' || c == '\U{1680}' || ('\U{2000}' <= c <= '\U{200A}')
    || c == '\U{2028}' || c == '\U{2029}' || c == '\U{202F}' || c == '\U{205F}'
    || c == '\U{3000}' || c == '\U{FEFF}'
  }

  ghost predicate AllWhitespace(s: string)
  {
    forall k :: 0 <= k < |s| ==> IsWhitespace(s[k])
  }

  function TrimStart(s: string): (r: string)
    ensures |r| <= |s| && r == s[|s| - |r|..]
    ensures AllWhitespace(s[..|s| - |r|])
    ensures r == [] || !IsWhitespace(r[0])
  {
    if s != [] && IsWhitespace(s[0]) then
      var r := TrimStart(s[1..]);
      assert s[..|s| - |r|] == [s[0]] + s[1..][..|s[1..]| - |r|];
      r
    else s
  }

  function TrimEnd(s: string): (r: string)
    ensures |r| <= |s| && r == s[..|r|]
    ensures AllWhitespace(s[|r|..])
    ensures r == [] || !IsWhitespace(r[|r| - 1])
  {
    if s != [] && IsWhitespace(s[|s| - 1]) then
      var r := TrimEnd(s[..|s| - 1]);
      assert s[|r|..] == s[..|s| - 1][|r|..] + [s[|s| - 1]];
      r
    else s
  }

  /** validator.js `trim()`: the longest infix with no white space at either end. */
  function Trim(s: string): (r: string)
    ensures |r| <= |s|
    ensures r == [] <==> AllWhitespace(s)
    ensures r != [] ==> !IsWhitespace(r[0]) && !IsWhitespace(r[|r| - 1])
    ensures |r| <= |TrimStart(s)| && r == TrimStart(s)[..|r|]
    ensures AllWhitespace(TrimStart(s)[|r|..])
  {
    var a := TrimStart(s);
    var r := TrimEnd(a);
    BlankWhenTrimmedEmpty(s, a, r);
    r
  }

  lemma BlankWhenTrimmedEmpty(s: string, a: string, r: string)
    requires a == TrimStart(s) && r == TrimEnd(a)
    ensures r == [] <==> AllWhitespace(s)
  {
    if r == [] {
      assert a == [];
      assert s[..|s| - |a|] == s;
    }
  }

  /** A string with no white space at either end is left as it is. */
  lemma TrimKeepsTrimmed(s: string)
    requires s == [] || (!IsWhitespace(s[0]) && !IsWhitespace(s[|s| - 1]))
    ensures Trim(s) == s
  {
    assert TrimStart(s) == s;
    assert TrimEnd(s) == s;
  }

  /** Trimming twice is trimming once. */
  lemma TrimIdempotent(s: string)
    ensures Trim(Trim(s)) == Trim(s)
  {
    TrimKeepsTrimmed(Trim(s));
  }

  /** The body fields the signup route reads; a missing field is "". */
  datatype SignupBody = SignupBody(email: string, password: string, name: string)

  const PasswordMinLength := 5
  const BadEmailMessage := "Please enter a valid email."
  const TakenEmailMessage := "E-Mail address already exists!"
  const DefaultMessage := "Invalid value"

  /** The custom email check: some stored user already has exactly this address. */
  predicate EmailTaken(users: map<UserId, User>, email: string)
  {
    exists id :: id in users && users[id].email == email
  }

  /** The errors of the signup chain, in declaration order. Every check runs
      (there is no `bail`), and the email checks see the address as sent,
      before `normalizeEmail`. `isEmail` stands for validator.js's check. */
  function SignupErrors(users: map<UserId, User>, body: SignupBody, isEmail: string -> bool): (errs: seq<FieldError>)
    ensures errs == [] <==>
      isEmail(body.email) && !EmailTaken(users, body.email)
      && |Trim(body.password)| >= PasswordMinLength && Trim(body.name) != []
  {
    CheckErrors(isEmail(body.email), !EmailTaken(users, body.email),
                |Trim(body.password)| >= PasswordMinLength, Trim(body.name) != [])
  }

  /** Where a message's check is declared in the signup chain. */
  function CheckRank(e: FieldError): nat
  {
    if e == FieldError("email", BadEmailMessage) then 0
    else if e == FieldError("email", TakenEmailMessage) then 1
    else if e == FieldError("password", DefaultMessage) then 2
    else 3
  }

  /** How many messages a check leaves: one when it fails. */
  function Failed(ok: bool): nat
  {
    if ok then 0 else 1
  }

  /** The messages the four signup checks leave, given which of them pass:
      one per failed check, in the order the checks are declared. */
  function CheckErrors(emailOk: bool, emailFree: bool, passwordOk: bool, nameOk: bool): (errs: seq<FieldError>)
    ensures errs == [] <==> emailOk && emailFree && passwordOk && nameOk
    ensures |errs| == Failed(emailOk) + Failed(emailFree) + Failed(passwordOk) + Failed(nameOk)
    ensures forall i, j :: 0 <= i < j < |errs| ==> CheckRank(errs[i]) < CheckRank(errs[j])
    ensures FieldError("email", BadEmailMessage) in errs <==> !emailOk
    ensures FieldError("email", TakenEmailMessage) in errs <==> !emailFree
    ensures FieldError("password", DefaultMessage) in errs <==> !passwordOk
    ensures FieldError("name", DefaultMessage) in errs <==> !nameOk
  {
    var format := if emailOk then [] else [FieldError("email", BadEmailMessage)];
    var unique := if emailFree then [] else [FieldError("email", TakenEmailMessage)];
    var password := if passwordOk then [] else [FieldError("password", DefaultMessage)];
    var name := if nameOk then [] else [FieldError("name", DefaultMessage)];
    assert BadEmailMessage != TakenEmailMessage by { assert BadEmailMessage[0] != TakenEmailMessage[0]; }
    InConcat(format, unique, password, name);
    format + unique + password + name
  }

  /** Membership in a concatenation of four lists. */
  lemma InConcat<T>(a: seq<T>, b: seq<T>, c: seq<T>, d: seq<T>)
    ensures forall x :: x in a + b + c + d <==> x in a || x in b || x in c || x in d
  {
  }

  /** Each check leaves its own message in the list exactly when it fails. */
  lemma SignupErrorsName(users: map<UserId, User>, body: SignupBody, isEmail: string -> bool)
    ensures FieldError("email", BadEmailMessage) in SignupErrors(users, body, isEmail) <==> !isEmail(body.email)
    ensures FieldError("email", TakenEmailMessage) in SignupErrors(users, body, isEmail) <==> EmailTaken(users, body.email)
    ensures FieldError("password", DefaultMessage) in SignupErrors(users, body, isEmail) <==>
              |Trim(body.password)| < PasswordMinLength
    ensures FieldError("name", DefaultMessage) in SignupErrors(users, body, isEmail) <==> AllWhitespace(body.name)
  {
  }

  /** The body the controller receives: the sanitizers overwrite the fields, so
      the address is normalized and the password and name are trimmed.
      `normalize` stands for validator.js's `normalizeEmail`. */
  function SanitizeSignup(body: SignupBody, normalize: string -> string): (clean: SignupBody)
    ensures clean.email == normalize(body.email)
    ensures clean.password == Trim(body.password) && clean.name == Trim(body.name)
  {
    SignupBody(normalize(body.email), Trim(body.password), Trim(body.name))
  }

  /** Sanitizing is stable: the fields it stores are already trimmed. */
  lemma SanitizeSignupStable(body: SignupBody, normalize: string -> string)
    ensures var clean := SanitizeSignup(body, normalize);
            Trim(clean.password) == clean.password && Trim(clean.name) == clean.name
  {
    TrimIdempotent(body.password);
    TrimIdempotent(body.name);
  }

  /** Because the uniqueness check reads the address before normalization, an
      address the store already holds gets through when the client spells it
      differently and normalization maps it back onto the stored one. */
  lemma NormalizedDuplicateAccepted(users: map<UserId, User>, body: SignupBody,
                                    isEmail: string -> bool, normalize: string -> string)
    requires !EmailTaken(users, body.email) && EmailTaken(users, normalize(body.email))
    requires isEmail(body.email)
    requires |Trim(body.password)| >= PasswordMinLength && Trim(body.name) != []
    ensures SignupErrors(users, body, isEmail) == []
    ensures EmailTaken(users, SanitizeSignup(body, normalize).email)
  {
  }

  /** The status chain: the trimmed status must not be empty. */
  function StatusErrors(status: string): (errs: seq<FieldError>)
    ensures errs == [] <==> !AllWhitespace(status)
    ensures errs != [] ==> errs == [FieldError("status", DefaultMessage)]
  {
    if Trim(status) != [] then [] else [FieldError("status", DefaultMessage)]
  }

  /** The routes of the auth router. */
  datatype Endpoint = PutSignup | PostLogin | GetStatus | PutStatus

  /** One stage of a route's handler chain. */
  datatype Stage = IsAuth | Validate | Controller

  /** The chain each route runs, in order. */
  function Chain(e: Endpoint): (c: seq<Stage>)
    ensures c != [] && c[|c| - 1] == Controller
    ensures IsAuth in c <==> e == GetStatus || e == PutStatus
    ensures Validate in c <==> e == PutSignup || e == PutStatus
    ensures IsAuth in c ==> c[0] == IsAuth
  {
    match e
    case PutSignup => [Validate, Controller]
    case PostLogin => [Controller]
    case GetStatus => [IsAuth, Controller]
    case PutStatus => [IsAuth, Validate, Controller]
  }
}
