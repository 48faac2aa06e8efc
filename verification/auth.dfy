/**
 * Account rules of the authentication controller: the ordered signup checks,
 * the password character-class rule, the fields a user record hides, and the
 * one-time reset codes. Hashing and hash comparison are parameters.
 */
module Auth {
  import opened Results

  type UserId = nat

  datatype User = User(loginId: string, name: string, email: string, passwordHash: string, role: string)

  /** A signup body; a falsy (absent or empty) field is "". */
  datatype SignupBody = SignupBody(
    loginId: string, name: string, email: string, password: string, confirmPassword: string, role: string)

  datatype SignupError =
    | MissingFields       // "All fields are required"
    | LoginIdLength       // "Login ID must be between 6-12 characters"
    | LoginIdTaken        // "Login ID already in use"
    | EmailTaken          // "Email ID already exists in database"
    | WeakPassword        // "Password must contain at least 8 characters, ..."
    | PasswordMismatch    // "Passwords do not match"
    | InvalidRole         // "Invalid role specified"

  const MinLoginIdLength: nat := 6
  const MaxLoginIdLength: nat := 12
  const MinPasswordLength: nat := 8
  const SignupRoles: set<string> := {"manager", "staff"}
  const DefaultRole: string := "staff"

  // ---------------------------------------------------------------------------
  // Password rule: ^(?=.*[a-z])(?=.*[A-Z])(?=.*[@$!%*?&])[A-Za-z\d@$!%*?&]{8,}$
  // ---------------------------------------------------------------------------

  predicate IsLower(c: char) { 'a' <= c <= 'z' }
  predicate IsUpper(c: char) { 'A' <= c <= 'Z' }
  predicate IsDigitChar(c: char) { '0' <= c <= '9' }
  predicate IsSpecial(c: char) { c in "@$!%*?&" }
  predicate IsAllowed(c: char) { IsLower(c) || IsUpper(c) || IsDigitChar(c) || IsSpecial(c) }

  predicate Contains(p: string, kind: char -> bool) {
    exists i :: 0 <= i < |p| && kind(p[i])
  }

  /** What the pattern accepts: length, alphabet, and one lowercase, one uppercase and one special character. */
  predicate StrongPassword(p: string) {
    && |p| >= MinPasswordLength
    && (forall i :: 0 <= i < |p| ==> IsAllowed(p[i]))
    && Contains(p, IsLower) && Contains(p, IsUpper) && Contains(p, IsSpecial)
  }

  /** The pattern's test, as one left-to-right scan. */
  method CheckPassword(p: string) returns (ok: bool)
    ensures ok == StrongPassword(p)
  {
    var lower, upper, special, allowed := false, false, false, true;
    var i := 0;
    while i < |p|
      invariant 0 <= i <= |p|
      invariant lower == Contains(p[..i], IsLower)
      invariant upper == Contains(p[..i], IsUpper)
      invariant special == Contains(p[..i], IsSpecial)
      invariant allowed == forall j :: 0 <= j < i ==> IsAllowed(p[j])
    {
      var c := p[i];
      assert p[..i + 1] == p[..i] + [c];
      lower := lower || IsLower(c);
      upper := upper || IsUpper(c);
      special := special || IsSpecial(c);
      allowed := allowed && IsAllowed(c);
      i := i + 1;
    }
    assert p[..i] == p;
    ok := |p| >= MinPasswordLength && allowed && lower && upper && special;
  }

  /** A digit is not required, and a digit, though allowed, never stands in for the special character. */
  lemma DigitNotRequired()
    ensures forall c :: IsDigitChar(c) ==> IsAllowed(c) && !IsSpecial(c)
    ensures StrongPassword("Abcdefg@")
    ensures !StrongPassword("Abcdefg1")
  {
    assert IsLower("Abcdefg@"[1]) && IsUpper("Abcdefg@"[0]) && IsSpecial("Abcdefg@"[7]);
    assert forall i :: 0 <= i < |"Abcdefg1"| ==> !IsSpecial("Abcdefg1"[i]);
  }

  // ---------------------------------------------------------------------------
  // Signup
  // ---------------------------------------------------------------------------

  predicate MissingField(b: SignupBody) {
    b.loginId == "" || b.name == "" || b.email == "" || b.password == "" || b.confirmPassword == ""
  }

  predicate LoginIdInUse(users: seq<User>, loginId: string) {
    exists i :: 0 <= i < |users| && users[i].loginId == loginId
  }

  predicate EmailInUse(users: seq<User>, email: string) {
    exists i :: 0 <= i < |users| && users[i].email == email
  }

  /** The signup handler: seven checks in a fixed order, the first failure answering; then the user is stored. */
  function Signup(users: seq<User>, b: SignupBody, hash: string -> string): (r: Result<seq<User>, SignupError>)
    ensures r == Err(MissingFields) <==> MissingField(b)
    ensures r == Err(LoginIdLength) <==>
      !MissingField(b) && !(MinLoginIdLength <= |b.loginId| <= MaxLoginIdLength)
    ensures r == Err(LoginIdTaken) <==>
      !MissingField(b) && MinLoginIdLength <= |b.loginId| <= MaxLoginIdLength && LoginIdInUse(users, b.loginId)
    ensures r == Err(EmailTaken) <==>
      && !MissingField(b) && MinLoginIdLength <= |b.loginId| <= MaxLoginIdLength
      && !LoginIdInUse(users, b.loginId) && EmailInUse(users, b.email)
    ensures r == Err(WeakPassword) <==>
      && !MissingField(b) && MinLoginIdLength <= |b.loginId| <= MaxLoginIdLength
      && !LoginIdInUse(users, b.loginId) && !EmailInUse(users, b.email)
      && !StrongPassword(b.password)
    ensures r == Err(PasswordMismatch) <==>
      && !MissingField(b) && MinLoginIdLength <= |b.loginId| <= MaxLoginIdLength
      && !LoginIdInUse(users, b.loginId) && !EmailInUse(users, b.email)
      && StrongPassword(b.password) && b.password != b.confirmPassword
    ensures r.Ok? <==>
      && !MissingField(b) && MinLoginIdLength <= |b.loginId| <= MaxLoginIdLength
      && !LoginIdInUse(users, b.loginId) && !EmailInUse(users, b.email)
      && StrongPassword(b.password) && b.password == b.confirmPassword
      && (b.role == "" || b.role in SignupRoles)
    ensures r.Ok? ==>
      && |r.value| == |users| + 1 && r.value[..|users|] == users
      && var u := r.value[|users|];
      && u.loginId == b.loginId && u.name == b.name && u.email == b.email
      && u.passwordHash == hash(b.password)
      && u.role == (if b.role == "" then DefaultRole else b.role)
      && u.role in SignupRoles
  {
    if MissingField(b) then Err(MissingFields)
    else if |b.loginId| < MinLoginIdLength || |b.loginId| > MaxLoginIdLength then Err(LoginIdLength)
    else if LoginIdInUse(users, b.loginId) then Err(LoginIdTaken)
    else if EmailInUse(users, b.email) then Err(EmailTaken)
    else if !StrongPassword(b.password) then Err(WeakPassword)
    else if b.password != b.confirmPassword then Err(PasswordMismatch)
    else if b.role != "" && b.role !in SignupRoles then Err(InvalidRole)
    else
      var role := if b.role == "" then DefaultRole else b.role;
      var users' := users + [User(b.loginId, b.name, b.email, hash(b.password), role)];
      assert users'[..|users|] == users;
      Ok(users')
  }

  /** Signup never stores a second user with the same login id or email. */
  lemma SignupKeepsIdentitiesUnique(users: seq<User>, b: SignupBody, hash: string -> string)
    requires forall i, j :: 0 <= i < j < |users| ==>
      users[i].loginId != users[j].loginId && users[i].email != users[j].email
    requires Signup(users, b, hash).Ok?
    ensures var us := Signup(users, b, hash).value;
      forall i, j :: 0 <= i < j < |us| ==> us[i].loginId != us[j].loginId && us[i].email != us[j].email
  {
    var us := Signup(users, b, hash).value;
    forall i, j | 0 <= i < j < |us|
      ensures us[i].loginId != us[j].loginId && us[i].email != us[j].email
    {
      if j == |users| {
        assert us[i] == users[i];
      } else {
        assert us[i] == users[i] && us[j] == users[j];
      }
    }
  }

  // ---------------------------------------------------------------------------
  // The public view of a user record
  // ---------------------------------------------------------------------------

  const HiddenFields: set<string> := {"passwordHash", "__v"}

  /** `sanitizeUser`: the record minus the password hash and the version key. */
  function Sanitize<V>(doc: map<string, V>): (r: map<string, V>)
    ensures r.Keys == doc.Keys - HiddenFields
    ensures forall k :: k in r ==> r[k] == doc[k]
  {
    doc - HiddenFields
  }

  /**
   * A stored user as a document, reduced to the fields the model keeps plus
   * the version key a fresh save writes. The stored document also carries
   * `_id`, `createdAt` and `updatedAt`, which `sanitizeUser` passes through
   * untouched; they are left out here, so the views below omit them too.
   */
  function Document(u: User): map<string, string> {
    map["loginId" := u.loginId, "name" := u.name, "email" := u.email,
        "passwordHash" := u.passwordHash, "role" := u.role, "__v" := "0"]
  }

  /** Sanitising twice hides nothing more than sanitising once. */
  lemma SanitizeIdempotent<V>(doc: map<string, V>)
    ensures Sanitize(Sanitize(doc)) == Sanitize(doc)
  {
  }

  /** The view of the user a successful signup stores shows its identity and role, never its hash. */
  lemma SignupViewHidesHash(users: seq<User>, b: SignupBody, hash: string -> string)
    requires Signup(users, b, hash).Ok?
    ensures var view := Sanitize(Document(Signup(users, b, hash).value[|users|]));
      && "passwordHash" !in view && "__v" !in view
      && view == map["loginId" := b.loginId, "name" := b.name, "email" := b.email,
                     "role" := (if b.role == "" then DefaultRole else b.role)]
  {
  }

  // ---------------------------------------------------------------------------
  // One-time reset codes
  // ---------------------------------------------------------------------------

  /** A reset code: only its hash is stored; times are milliseconds. */
  datatype OtpToken = OtpToken(userId: UserId, codeHash: string, expiresAt: int, used: bool)

  const OtpExpiryMinutes: nat := 10
  const OtpLifetime: nat := OtpExpiryMinutes * 60 * 1000

  datatype Accounts = Accounts(users: seq<User>, tokens: seq<OtpToken>)

  /** `User.findOne({ email })`: the first user with that email. */
  function FindByEmail(users: seq<User>, email: string): (r: Option<UserId>)
    ensures r.None? <==> !EmailInUse(users, email)
    ensures r.Some? ==> r.value < |users| && users[r.value].email == email
    ensures r.Some? ==> forall j :: 0 <= j < r.value ==> users[j].email != email
    decreases |users|
  {
    if |users| == 0 then None
    else if users[0].email == email then Some(0)
    else match FindByEmail(users[1..], email)
      case None =>
        assert forall i :: 1 <= i < |users| ==> users[i] == users[1..][i - 1];
        None
      case Some(k) => Some(k + 1)
  }

  /**
   * `forgotPassword`: an account with that email gets a fresh unused code
   * valid for ten minutes; an unknown email changes nothing. The code's hash
   * and the clock are parameters.
   */
  function ForgotPassword(a: Accounts, email: string, codeHash: string, now: int): (r: Accounts)
    ensures r.users == a.users
    ensures !EmailInUse(a.users, email) ==> r == a
    ensures EmailInUse(a.users, email) ==>
      r.tokens == a.tokens + [OtpToken(FindByEmail(a.users, email).value, codeHash, now + OtpLifetime, false)]
  {
    match FindByEmail(a.users, email)
    case None => a
    case Some(u) => a.(tokens := a.tokens + [OtpToken(u, codeHash, now + OtpLifetime, false)])
  }

  predicate Usable(t: OtpToken, u: UserId) {
    t.userId == u && !t.used
  }

  /** The newest unused token of a user: the only one a reset looks at. */
  function NewestUnused(tokens: seq<OtpToken>, u: UserId): (r: Option<nat>)
    ensures r.None? <==> forall i :: 0 <= i < |tokens| ==> !Usable(tokens[i], u)
    ensures r.Some? ==> r.value < |tokens| && Usable(tokens[r.value], u)
    ensures r.Some? ==> forall j :: r.value < j < |tokens| ==> !Usable(tokens[j], u)
    decreases |tokens|
  {
    if |tokens| == 0 then None
    else if Usable(tokens[|tokens| - 1], u) then Some(|tokens| - 1)
    else
      assert forall i :: 0 <= i < |tokens| - 1 ==> tokens[..|tokens| - 1][i] == tokens[i];
      NewestUnused(tokens[..|tokens| - 1], u)
  }

  datatype ResetError =
    | ResetFieldsMissing   // "Email, OTP, and new password are required"
    | UnknownEmail         // "Invalid OTP or email"
    | InvalidOtp           // "Invalid or expired OTP": no usable code, expired, or mismatch

  /**
   * `resetPassword`: the newest unused code of the user must not have
   * expired and must match; the password hash is replaced and the code is
   * spent. `matches` stands for the hash comparison, `hash` for hashing.
   */
  function ResetPassword(a: Accounts, email: string, otp: string, newPassword: string, now: int,
                         matches: (string, string) -> bool, hash: string -> string)
    : (r: Result<Accounts, ResetError>)
    ensures r == Err(ResetFieldsMissing) <==> email == "" || otp == "" || newPassword == ""
    ensures r == Err(UnknownEmail) <==>
      !(email == "" || otp == "" || newPassword == "") && !EmailInUse(a.users, email)
    ensures r.Ok? <==>
      && !(email == "" || otp == "" || newPassword == "") && EmailInUse(a.users, email)
      && var u := FindByEmail(a.users, email).value;
      && var t := NewestUnused(a.tokens, u);
      && t.Some? && a.tokens[t.value].expiresAt >= now && matches(otp, a.tokens[t.value].codeHash)
    ensures r.Ok? ==>
      && var u := FindByEmail(a.users, email).value;
      && var i := NewestUnused(a.tokens, u).value;
      && r.value.users == a.users[u := a.users[u].(passwordHash := hash(newPassword))]
      && r.value.tokens == a.tokens[i := a.tokens[i].(used := true)]
  {
    if email == "" || otp == "" || newPassword == "" then Err(ResetFieldsMissing)
    else match FindByEmail(a.users, email)
      case None => Err(UnknownEmail)
      case Some(u) =>
        match NewestUnused(a.tokens, u)
        case None => Err(InvalidOtp)
        case Some(i) =>
          var t := a.tokens[i];
          if t.expiresAt < now then Err(InvalidOtp)
          else if !matches(otp, t.codeHash) then Err(InvalidOtp)
          else
            Ok(Accounts(a.users[u := a.users[u].(passwordHash := hash(newPassword))],
                        a.tokens[i := t.(used := true)]))
  }

  /**
   * A spent code is never looked at again: after a successful reset the
   * user's newest unused code, if any, is strictly older than the one spent.
   */
  lemma ResetSpendsCode(a: Accounts, email: string, otp: string, newPassword: string, now: int,
                        matches: (string, string) -> bool, hash: string -> string)
    requires ResetPassword(a, email, otp, newPassword, now, matches, hash).Ok?
    ensures var u := FindByEmail(a.users, email).value;
      var i := NewestUnused(a.tokens, u).value;
      var a' := ResetPassword(a, email, otp, newPassword, now, matches, hash).value;
      && a'.tokens[i].used
      && FindByEmail(a'.users, email) == Some(u)
      && (NewestUnused(a'.tokens, u).None? || NewestUnused(a'.tokens, u).value < i)
  {
    var u := FindByEmail(a.users, email).value;
    var i := NewestUnused(a.tokens, u).value;
    var a' := ResetPassword(a, email, otp, newPassword, now, matches, hash).value;
    assert forall j :: 0 <= j < |a'.users| ==> a'.users[j].email == a.users[j].email;
    assert forall j :: i <= j < |a'.tokens| ==> !Usable(a'.tokens[j], u);
  }

  /**
   * A code just issued is the one a reset checks: with a matching code it
   * succeeds until the expiry instant and fails with `InvalidOtp` after it.
   */
  lemma ForgotThenReset(a: Accounts, email: string, code: string, codeHash: string, issued: int, now: int,
                        newPassword: string, matches: (string, string) -> bool, hash: string -> string)
    requires EmailInUse(a.users, email) && email != "" && code != "" && newPassword != ""
    requires matches(code, codeHash)
    ensures var a' := ForgotPassword(a, email, codeHash, issued);
      var r := ResetPassword(a', email, code, newPassword, now, matches, hash);
      && (now <= issued + OtpLifetime ==> r.Ok?)
      && (now > issued + OtpLifetime ==> r == Err(InvalidOtp))
  {
    var a' := ForgotPassword(a, email, codeHash, issued);
    var u := FindByEmail(a.users, email).value;
    var t := OtpToken(u, codeHash, issued + OtpLifetime, false);
    assert a'.tokens == a.tokens + [t];
    assert a'.tokens[|a.tokens|] == t;
    assert NewestUnused(a'.tokens, u) == Some(|a.tokens|);
    assert a'.users == a.users;
  }
}
