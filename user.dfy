/**
 * The User schema: an account with a role, a hashed password, and the two
 * one-time tokens (password reset and e-mail verification) that are
 * stored hashed with an expiry time. Hashing functions and the random
 * token are parameters.
 */
module UserModel {
  import opened Refs
  import opened Wrappers
  import opened Text
  import opened Lengths

  datatype Role = Admin | Vendedor | Cliente

  function ParseRole(s: string): (r: Option<Role>)
    ensures r.Some? <==> s in {"admin", "vendedor", "cliente"}
  {
    match s
    case "admin" => Some(Admin)
    case "vendedor" => Some(Vendedor)
    case "cliente" => Some(Cliente)
    case _ => None
  }

  function RoleName(role: Role): (s: string)
    ensures ParseRole(s) == Some(role)
  {
    match role
    case Admin => "admin"
    case Vendedor => "vendedor"
    case Cliente => "cliente"
  }

  /** A reset token lives ten minutes. */
  const ResetWindow: int := 10 * 60 * 1000

  /** A verification token lives twenty-four hours. */
  const VerificationWindow: int := 24 * 60 * 60 * 1000

  /** `/^\S+@\S+\.\S+$/`: no white space, and an `@` and a later `.` each with text on both sides. */
  predicate EmailShape(s: string)
  {
    && (forall i :: 0 <= i < |s| ==> !IsSpace(s[i]))
    && exists a, d :: 0 < a && a + 1 < d < |s| - 1 && s[a] == '@' && s[d] == '.'
  }

  /** A stored user document. The password field holds the bcrypt digest. */
  datatype Account = Account(
    id: Id,
    name: string,
    email: string,
    password: string,
    role: Role,
    phone: string,
    emailVerified: bool,
    resetPasswordToken: Option<string>,
    resetPasswordExpire: Option<Time>,
    emailVerificationToken: Option<string>,
    emailVerificationExpire: Option<Time>,
    createdAt: Time)

  /** What the schema checks of the fields a save keeps as they are. */
  predicate AccountValid(a: Account)
  {
    a.name != "" && EmailShape(a.email)
  }

  /**
   * `User.create`: the trim setters, the required name, the e-mail pattern,
   * the six-unit minimum on the password as given (Mongoose
   * reads `.length`, which counts UTF-16 code units), the role enum;
   * then the save hook stores the digest of the password. Both token pairs
   * start out empty.
   */
  function NewAccount(id: Id, name: string, email: string, password: string, role: string, phone: string,
                      emailVerified: bool, now: Time, hash: string -> string): (r: Result<Account, string>)
    ensures r.Ok? <==> Trim(name) != "" && EmailShape(Trim(email)) && Utf16Length(password) >= 6 && ParseRole(role).Some?
    ensures r.Ok? ==> AccountValid(r.value)
    ensures r.Ok? ==> && r.value.id == id && r.value.password == hash(password)
                      && r.value.role == ParseRole(role).value && r.value.emailVerified == emailVerified
                      && r.value.resetPasswordToken.None? && r.value.emailVerificationToken.None?
    ensures r.Ok? ==> && r.value.name == Trim(name) && r.value.email == Trim(email) && r.value.phone == Trim(phone)
                      && r.value.resetPasswordExpire.None? && r.value.emailVerificationExpire.None?
                      && r.value.createdAt == now
  {
    var n := Trim(name);
    var e := Trim(email);
    var parsed := ParseRole(role);
    if n == "" || !EmailShape(e) || Utf16Length(password) < 6 || parsed.None? then Err("ValidationError")
    else Ok(Account(id, n, e, hash(password), parsed.value, Trim(phone), emailVerified, None, None, None, None, now))
  }

  /** A stored reset token accepts the digest `hashed` at time `now`: the digests agree and the expiry lies ahead. */
  predicate ResetMatches(a: Account, hashed: string, now: Time)
  {
    a.resetPasswordToken == Some(hashed) && a.resetPasswordExpire.Some? && a.resetPasswordExpire.value > now
  }

  /** The same rule for the verification token. */
  predicate VerificationMatches(a: Account, hashed: string, now: Time)
  {
    a.emailVerificationToken == Some(hashed) && a.emailVerificationExpire.Some? && a.emailVerificationExpire.value > now
  }

  /** The document after `getResetPasswordToken` with the random token `raw`. */
  function IssueReset(a: Account, raw: string, sha: string -> string, now: Time): (r: Account)
    ensures forall t :: ResetMatches(r, sha(raw), t) <==> t < now + ResetWindow
    ensures forall x, t :: sha(x) != sha(raw) ==> !ResetMatches(r, sha(x), t)
    ensures r.(resetPasswordToken := a.resetPasswordToken, resetPasswordExpire := a.resetPasswordExpire) == a
  {
    a.(resetPasswordToken := Some(sha(raw)), resetPasswordExpire := Some(now + ResetWindow))
  }

  /** The document after `getEmailVerificationToken` with the random token `raw`. */
  function IssueVerification(a: Account, raw: string, sha: string -> string, now: Time): (r: Account)
    ensures forall t :: VerificationMatches(r, sha(raw), t) <==> t < now + VerificationWindow
    ensures forall x, t :: sha(x) != sha(raw) ==> !VerificationMatches(r, sha(x), t)
    ensures r.(emailVerificationToken := a.emailVerificationToken,
               emailVerificationExpire := a.emailVerificationExpire) == a
  {
    a.(emailVerificationToken := Some(sha(raw)), emailVerificationExpire := Some(now + VerificationWindow))
  }

  /** Clearing the reset pair: no token matches afterwards. */
  function ClearReset(a: Account): (r: Account)
    ensures forall h, t :: !ResetMatches(r, h, t)
    ensures r.(resetPasswordToken := a.resetPasswordToken, resetPasswordExpire := a.resetPasswordExpire) == a
  {
    a.(resetPasswordToken := None, resetPasswordExpire := None)
  }

  /** Clearing the verification pair: no token matches afterwards. */
  function ClearVerification(a: Account): (r: Account)
    ensures forall h, t :: !VerificationMatches(r, h, t)
    ensures r.(emailVerificationToken := a.emailVerificationToken,
               emailVerificationExpire := a.emailVerificationExpire) == a
  {
    a.(emailVerificationToken := None, emailVerificationExpire := None)
  }

  /** A second token issued replaces the first: the first one no longer matches. */
  lemma ReissueRevokes(a: Account, first: string, second: string, sha: string -> string, t0: Time, t1: Time, t: Time)
    requires sha(first) != sha(second)
    ensures !ResetMatches(IssueReset(IssueReset(a, first, sha, t0), second, sha, t1), sha(first), t)
    ensures !VerificationMatches(IssueVerification(IssueVerification(a, first, sha, t0), second, sha, t1), sha(first), t)
  {
  }

  /**
   * A user document in memory. The token methods and the save hook
   * assign its fields; `passwordModified` is the document's record that
   * the password was assigned since it was loaded.
   */
  class User {
    var id: Id
    var name: string
    var email: string
    var password: string
    var passwordModified: bool
    var role: Role
    var phone: string
    var emailVerified: bool
    var resetPasswordToken: Option<string>
    var resetPasswordExpire: Option<Time>
    var emailVerificationToken: Option<string>
    var emailVerificationExpire: Option<Time>
    var createdAt: Time

    /** The document as the store would hold it. */
    function Doc(): Account
      reads this
    {
      Account(id, name, email, password, role, phone, emailVerified,
              resetPasswordToken, resetPasswordExpire, emailVerificationToken, emailVerificationExpire, createdAt)
    }

    /** A document loaded from the store, or returned by `User.create`. */
    constructor Load(a: Account)
      ensures Doc() == a && !passwordModified
    {
      id, name, email, password, role, phone := a.id, a.name, a.email, a.password, a.role, a.phone;
      emailVerified := a.emailVerified;
      resetPasswordToken, resetPasswordExpire := a.resetPasswordToken, a.resetPasswordExpire;
      emailVerificationToken, emailVerificationExpire := a.emailVerificationToken, a.emailVerificationExpire;
      createdAt := a.createdAt;
      passwordModified := false;
    }

    /** `getResetPasswordToken`: store the digest and a ten-minute expiry; return the raw token. */
    method GetResetPasswordToken(raw: string, sha: string -> string, now: Time) returns (token: string)
      modifies this
      ensures token == raw
      ensures Doc() == IssueReset(old(Doc()), raw, sha, now) && passwordModified == old(passwordModified)
    {
      resetPasswordToken := Some(sha(raw));
      resetPasswordExpire := Some(now + 10 * 60 * 1000);
      token := raw;
    }

    /** `getEmailVerificationToken`: store the digest and a 24-hour expiry; return the raw token. */
    method GetEmailVerificationToken(raw: string, sha: string -> string, now: Time) returns (token: string)
      modifies this
      ensures token == raw
      ensures Doc() == IssueVerification(old(Doc()), raw, sha, now) && passwordModified == old(passwordModified)
    {
      emailVerificationToken := Some(sha(raw));
      emailVerificationExpire := Some(now + 24 * 60 * 60 * 1000);
      token := raw;
    }

    /** `user.password = p`: the new password, marked as modified. */
    method SetPassword(p: string)
      modifies this
      ensures Doc() == old(Doc()).(password := p) && passwordModified
    {
      password := p;
      passwordModified := true;
    }

    /**
     * The pre-save hook: the password is replaced by its digest only when
     * it was modified, so saving again never hashes a digest.
     */
    method Save(hash: string -> string)
      modifies this
      ensures !passwordModified
      ensures old(passwordModified) ==> Doc() == old(Doc()).(password := hash(old(password)))
      ensures !old(passwordModified) ==> Doc() == old(Doc())
    {
      if passwordModified {
        password := hash(password);
        passwordModified := false;
      }
    }
  }
}
