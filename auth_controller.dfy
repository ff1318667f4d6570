/**
 * The account handlers of the auth controller: registration, login, the
 * first administrator, users created by an administrator, and the two
 * one-time token flows (password reset and e-mail verification).
 *
 * The user collection is a sequence of documents in insertion order, so
 * `findOne` is "the first document that matches". Each handler is a
 * function from the collection before to the collection after and the
 * response; a method on `Users` performs it on a `User` document object
 * and is proved to produce exactly that step. Hashing (bcrypt and
 * SHA-256), the random token, the JWT signer, the clock and the outcome
 * of the e-mail dispatch are parameters.
 */
module AuthController {
  import opened Refs
  import opened Wrappers
  import opened Text
  import opened Lengths
  import opened UserModel

  /** The filters the handlers pass to `findOne`. */
  datatype Query =
    | EmailIs(email: string)                    // `{ email: /^email$/i }`
    | ResetIs(digest: string, now: Time)        // `{ resetPasswordToken, resetPasswordExpire: { $gt: now } }`
    | VerificationIs(digest: string, now: Time) // the same on the verification pair
    | RoleIs(role: Role)                        // `{ role }`

  /**
   * A document matches a filter. The e-mail filter is a case-insensitive
   * anchored pattern built from the given address; it is read here as
   * case-insensitive equality.
   */
  predicate Matches(a: Account, q: Query)
  {
    match q
    case EmailIs(e) => Lower(a.email) == Lower(e)
    case ResetIs(h, now) => ResetMatches(a, h, now)
    case VerificationIs(h, now) => VerificationMatches(a, h, now)
    case RoleIs(r) => a.role == r
  }

  /** `findOne`: the position of the first matching document. */
  function FindOne(docs: seq<Account>, q: Query): (r: Option<nat>)
    ensures r.Some? ==> r.value < |docs| && Matches(docs[r.value], q)
    ensures r.Some? ==> forall j :: 0 <= j < r.value ==> !Matches(docs[j], q)
    ensures r.None? <==> forall j :: 0 <= j < |docs| ==> !Matches(docs[j], q)
  {
    if docs == [] then None
    else if Matches(docs[0], q) then Some(0)
    else
      var rest := FindOne(docs[1..], q);
      assert forall j :: 1 <= j < |docs| ==> docs[j] == docs[1..][j - 1];
      if rest.None? then None else Some(rest.value + 1)
  }

  /** The first match is where the first matching document is. */
  lemma FindOneAt(docs: seq<Account>, q: Query, k: nat)
    requires k < |docs| && Matches(docs[k], q)
    requires forall j :: 0 <= j < k ==> !Matches(docs[j], q)
    ensures FindOne(docs, q) == Some(k)
  {
    var r := FindOne(docs, q);
    assert r.Some? by {
      assert !(forall j :: 0 <= j < |docs| ==> !Matches(docs[j], q));
    }
    assert !(r.value < k);
    assert !(r.value > k);
  }

  /** A collection the schema and the id generator could have produced. */
  predicate DocsValid(docs: seq<Account>, nextId: Id)
  {
    && (forall i :: 0 <= i < |docs| ==> AccountValid(docs[i]) && docs[i].id < nextId)
    && (forall i, j :: 0 <= i < j < |docs| ==> docs[i].id != docs[j].id)
  }

  /**
   * `User.create`: the schema's checks, then the unique index on `email`,
   * which refuses a second document with exactly the same address.
   */
  function CreateDoc(docs: seq<Account>, id: Id, name: string, email: string, password: string, role: string,
                     phone: string, verified: bool, now: Time, hash: string -> string): Result<Account, string>
  {
    var made := NewAccount(id, name, email, password, role, phone, verified, now, hash);
    if made.Err? then made
    else if exists i :: 0 <= i < |docs| && docs[i].email == made.value.email then Err("E11000")
    else made
  }

  /** The outcome of sending an e-mail: delivered (possibly only to the console) or failed. */
  datatype Mail = Delivered(devMode: bool) | MailFailed

  datatype Reason = EmailTaken | AdminExists | MissingFields | InvalidRole | InvalidToken | ShortPassword | AlreadyVerified

  /** The three success messages that carry no token. */
  datatype Notice = IfRegistered | MailSent | DevLink

  datatype Outcome =
    | Created(id: Id, token: Option<string>)
    | LoggedIn(id: Id, session: string)
    | Noticed(notice: Notice)
    | BadRequest(reason: Reason)
    | Unauthorized
    | Unverified
    | ServerError

  function Status(o: Outcome): int
  {
    match o
    case Created(_, _) => 201
    case LoggedIn(_, _) => 200
    case Noticed(_) => 200
    case BadRequest(_) => 400
    case Unauthorized => 401
    case Unverified => 403
    case ServerError => 500
  }

  /** The collection after a handler, the next id, and the response. */
  datatype Step = Step(docs: seq<Account>, nextId: Id, outcome: Outcome)

  /** A new account after its verification e-mail: the token kept when the e-mail went out, cleared when it failed. */
  function Awaiting(a: Account, raw: string, sha: string -> string, now: Time, mail: Mail): Account
  {
    var issued := IssueVerification(a, raw, sha, now);
    if mail.Delivered? then issued else ClearVerification(issued)
  }

  /** `role || 'cliente'` */
  function RoleOrDefault(role: string): string
  {
    if role == "" then "cliente" else role
  }

  /**
   * `register`: a known address (any case) is refused; otherwise the
   * account is created unverified with a verification token. When the
   * e-mail fails the token is cleared again. No session token is issued.
   */
  function RegisterStep(docs: seq<Account>, nextId: Id, name: string, email: string, password: string,
                        role: string, phone: string, now: Time, raw: string, sha: string -> string,
                        hash: string -> string, mail: Mail): Step
  {
    if FindOne(docs, EmailIs(email)).Some? then Step(docs, nextId, BadRequest(EmailTaken))
    else
      var created := CreateDoc(docs, nextId, name, email, password, RoleOrDefault(role), phone, false, now, hash);
      if created.Err? then Step(docs, nextId, ServerError)
      else
        Step(docs + [Awaiting(created.value, raw, sha, now, mail)], nextId + 1, Created(nextId, None))
  }

  /**
   * `login`: an unknown address and a wrong password get the same 401; a
   * right password on an unverified account gets 403; only then a token.
   */
  function LoginOutcome(docs: seq<Account>, email: string, password: string, hash: string -> string,
                        sign: Id -> string): (o: Outcome)
    ensures o == Unauthorized <==>
              FindOne(docs, EmailIs(email)).None? || hash(password) != docs[FindOne(docs, EmailIs(email)).value].password
    ensures o.LoggedIn? ==>
              var i := FindOne(docs, EmailIs(email)).value;
              && hash(password) == docs[i].password && docs[i].emailVerified
              && o == LoggedIn(docs[i].id, sign(docs[i].id))
    ensures o.LoggedIn? <==>
              FindOne(docs, EmailIs(email)).Some?
              && hash(password) == docs[FindOne(docs, EmailIs(email)).value].password
              && docs[FindOne(docs, EmailIs(email)).value].emailVerified
    ensures o == Unauthorized || o == Unverified || o.LoggedIn?
  {
    var found := FindOne(docs, EmailIs(email));
    if found.None? then Unauthorized
    else
      var a := docs[found.value];
      if hash(password) != a.password then Unauthorized
      else if !a.emailVerified then Unverified
      else LoggedIn(a.id, sign(a.id))
  }

  /** `REQUIRE_EMAIL_VERIFICATION_FOR_ADMIN === 'true' || (production && it !== 'false')` */
  predicate RequireVerification(flag: Option<string>, production: bool)
  {
    flag == Some("true") || (production && flag != Some("false"))
  }

  /**
   * `createFirstAdmin`: refused once any administrator exists, when a
   * field is missing, or when the address is known. The administrator is
   * verified exactly when verification is not required, and only then is
   * a session token issued at once.
   */
  function FirstAdminStep(docs: seq<Account>, nextId: Id, name: string, email: string, password: string,
                          phone: string, flag: Option<string>, production: bool, now: Time, raw: string,
                          sha: string -> string, hash: string -> string, mail: Mail, sign: Id -> string): Step
  {
    if FindOne(docs, RoleIs(Admin)).Some? then Step(docs, nextId, BadRequest(AdminExists))
    else if name == "" || email == "" || password == "" then Step(docs, nextId, BadRequest(MissingFields))
    else if FindOne(docs, EmailIs(email)).Some? then Step(docs, nextId, BadRequest(EmailTaken))
    else
      var require := RequireVerification(flag, production);
      var created := CreateDoc(docs, nextId, name, email, password, "admin", phone, !require, now, hash);
      if created.Err? then Step(docs, nextId, ServerError)
      else if require then Step(docs + [Awaiting(created.value, raw, sha, now, mail)], nextId + 1, Created(nextId, None))
      else Step(docs + [created.value], nextId + 1, Created(nextId, Some(sign(nextId))))
  }

  /**
   * `createUser`: the required fields, a role among the three when one is
   * given, an unknown address; the account is created verified.
   */
  function CreateUserStep(docs: seq<Account>, nextId: Id, name: string, email: string, password: string,
                          role: string, phone: string, now: Time, hash: string -> string): Step
  {
    if name == "" || email == "" || password == "" then Step(docs, nextId, BadRequest(MissingFields))
    else if role != "" && role !in {"admin", "vendedor", "cliente"} then Step(docs, nextId, BadRequest(InvalidRole))
    else if FindOne(docs, EmailIs(email)).Some? then Step(docs, nextId, BadRequest(EmailTaken))
    else
      var created := CreateDoc(docs, nextId, name, email, password, RoleOrDefault(role), phone, true, now, hash);
      if created.Err? then Step(docs, nextId, ServerError)
      else Step(docs + [created.value], nextId + 1, Created(nextId, None))
  }

  /**
   * `forgotPassword`: an unknown address gets the generic notice; a known
   * one gets a reset token and, depending on the dispatch, the sent or
   * the console notice, or a 500 with the token cleared again.
   */
  function ForgotPasswordStep(docs: seq<Account>, nextId: Id, email: string, raw: string, sha: string -> string,
                              now: Time, mail: Mail): Step
  {
    var found := FindOne(docs, EmailIs(email));
    if found.None? then Step(docs, nextId, Noticed(IfRegistered))
    else
      var issued := IssueReset(docs[found.value], raw, sha, now);
      match mail
      case Delivered(dev) => Step(docs[found.value := issued], nextId, Noticed(if dev then DevLink else MailSent))
      case MailFailed => Step(docs[found.value := ClearReset(issued)], nextId, ServerError)
  }

  /**
   * `resetPassword`: the first document whose reset digest is the digest
   * of the given token and whose expiry lies ahead; a password of at
   * least six UTF-16 code units; then the new password, the token cleared, and
   * a session token.
   */
  function ResetPasswordStep(docs: seq<Account>, nextId: Id, token: string, password: string, sha: string -> string,
                             hash: string -> string, now: Time, sign: Id -> string): Step
  {
    var found := FindOne(docs, ResetIs(sha(token), now));
    if found.None? then Step(docs, nextId, BadRequest(InvalidToken))
    else if Utf16Length(password) < 6 then Step(docs, nextId, BadRequest(ShortPassword))
    else
      var a := ClearReset(docs[found.value]).(password := hash(password));
      Step(docs[found.value := a], nextId, LoggedIn(a.id, sign(a.id)))
  }

  /** `verifyEmail`: the same match on the verification pair; the account becomes verified and the token is cleared. */
  function VerifyEmailStep(docs: seq<Account>, nextId: Id, token: string, sha: string -> string, now: Time,
                           sign: Id -> string): Step
  {
    var found := FindOne(docs, VerificationIs(sha(token), now));
    if found.None? then Step(docs, nextId, BadRequest(InvalidToken))
    else
      var a := ClearVerification(docs[found.value]).(emailVerified := true);
      Step(docs[found.value := a], nextId, LoggedIn(a.id, sign(a.id)))
  }

  /**
   * `resendVerificationEmail`: the generic notice for an unknown address,
   * 400 for a verified account, otherwise a new verification token (which
   * replaces the old one) and the notice, or a 500 with the token cleared.
   */
  function ResendVerificationStep(docs: seq<Account>, nextId: Id, email: string, raw: string, sha: string -> string,
                                  now: Time, mail: Mail): Step
  {
    var found := FindOne(docs, EmailIs(email));
    if found.None? then Step(docs, nextId, Noticed(IfRegistered))
    else if docs[found.value].emailVerified then Step(docs, nextId, BadRequest(AlreadyVerified))
    else
      var issued := IssueVerification(docs[found.value], raw, sha, now);
      match mail
      case Delivered(dev) => Step(docs[found.value := issued], nextId, Noticed(if dev then DevLink else MailSent))
      case MailFailed => Step(docs[found.value := ClearVerification(issued)], nextId, ServerError)
  }

  /** Appending a fresh, valid document with the next id keeps the collection valid. */
  lemma ValidAppend(docs: seq<Account>, nextId: Id, a: Account)
    requires DocsValid(docs, nextId) && AccountValid(a) && a.id == nextId
    ensures DocsValid(docs + [a], nextId + 1)
  {
    var d := docs + [a];
    forall i, j | 0 <= i < j < |d| ensures d[i].id != d[j].id {
      if j == |docs| { assert d[i] == docs[i]; }
    }
  }

  /** Writing back a valid document under the same id keeps the collection valid. */
  lemma ValidReplace(docs: seq<Account>, nextId: Id, i: nat, a: Account)
    requires DocsValid(docs, nextId) && i < |docs| && AccountValid(a) && a.id == docs[i].id
    ensures DocsValid(docs[i := a], nextId)
  {
  }

  /** `User.create` through the index: a document with the given id that the schema accepts. */
  lemma CreateDocMeaning(docs: seq<Account>, id: Id, name: string, email: string, password: string, role: string,
                         phone: string, verified: bool, now: Time, hash: string -> string)
    ensures var r := CreateDoc(docs, id, name, email, password, role, phone, verified, now, hash);
            r.Ok? ==> && AccountValid(r.value) && r.value.id == id && r.value.emailVerified == verified
                      && r.value.role == ParseRole(role).value && r.value.password == hash(password)
                      && r.value.resetPasswordToken.None? && r.value.emailVerificationToken.None?
                      && forall i :: 0 <= i < |docs| ==> docs[i].email != r.value.email
  {
  }

  /** The created document carries the id it was created with. */
  lemma CreateDocId(docs: seq<Account>, id: Id, name: string, email: string, password: string, role: string,
                    phone: string, verified: bool, now: Time, hash: string -> string)
    ensures var r := CreateDoc(docs, id, name, email, password, role, phone, verified, now, hash);
            r.Ok? ==> r.value.id == id
  {
  }

  lemma RegisterKeepsValid(docs: seq<Account>, nextId: Id, name: string, email: string, password: string,
                           role: string, phone: string, now: Time, raw: string, sha: string -> string,
                           hash: string -> string, mail: Mail)
    requires DocsValid(docs, nextId)
    ensures var s := RegisterStep(docs, nextId, name, email, password, role, phone, now, raw, sha, hash, mail);
            DocsValid(s.docs, s.nextId)
  {
    var s := RegisterStep(docs, nextId, name, email, password, role, phone, now, raw, sha, hash, mail);
    if s.outcome.Created? {
      CreateDocMeaning(docs, nextId, name, email, password, RoleOrDefault(role), phone, false, now, hash);
      ValidAppend(docs, nextId, s.docs[|docs|]);
      assert s.docs == docs + [s.docs[|docs|]];
    }
  }

  /**
   * `register` never logs in: it creates the account unverified and
   * without a session token, or refuses a known address (any case) and
   * changes nothing.
   */
  lemma RegisterNeverLogsIn(docs: seq<Account>, nextId: Id, name: string, email: string, password: string,
                            role: string, phone: string, now: Time, raw: string, sha: string -> string,
                            hash: string -> string, mail: Mail)
    ensures var s := RegisterStep(docs, nextId, name, email, password, role, phone, now, raw, sha, hash, mail);
            && (s.outcome == Created(nextId, None) || s.outcome == BadRequest(EmailTaken) || s.outcome == ServerError)
            && (s.outcome == BadRequest(EmailTaken) <==> exists i :: 0 <= i < |docs| && Lower(docs[i].email) == Lower(email))
            && (!s.outcome.Created? ==> s.docs == docs && s.nextId == nextId)
            && (s.outcome.Created? ==>
                  && s.docs[..|docs|] == docs && |s.docs| == |docs| + 1
                  && s.docs[|docs|].id == nextId && !s.docs[|docs|].emailVerified
                  && s.docs[|docs|].role == ParseRole(RoleOrDefault(role)).value)
  {
    var s := RegisterStep(docs, nextId, name, email, password, role, phone, now, raw, sha, hash, mail);
    if FindOne(docs, EmailIs(email)).Some? {
      var i := FindOne(docs, EmailIs(email)).value;
      assert Matches(docs[i], EmailIs(email));
    }
    if s.outcome.Created? {
      CreateDocMeaning(docs, nextId, name, email, password, RoleOrDefault(role), phone, false, now, hash);
      assert s.docs[..|docs|] == docs;
    }
  }

  /** The verification e-mail decides whether the new account holds a live token: delivered, it matches for 24 hours; failed, nothing matches. */
  lemma RegisterToken(docs: seq<Account>, nextId: Id, name: string, email: string, password: string,
                      role: string, phone: string, now: Time, raw: string, sha: string -> string,
                      hash: string -> string, mail: Mail)
    requires RegisterStep(docs, nextId, name, email, password, role, phone, now, raw, sha, hash, mail).outcome.Created?
    ensures var a := RegisterStep(docs, nextId, name, email, password, role, phone, now, raw, sha, hash, mail).docs[|docs|];
            && (mail.Delivered? ==> forall t :: VerificationMatches(a, sha(raw), t) <==> t < now + VerificationWindow)
            && (mail.MailFailed? ==> forall h, t :: !VerificationMatches(a, h, t))
  {
  }

  /** Self-registration takes the role from the body: asking for `admin` makes an administrator. */
  lemma RegisterAcceptsAdmin(docs: seq<Account>, nextId: Id, name: string, email: string, password: string,
                             phone: string, now: Time, raw: string, sha: string -> string,
                             hash: string -> string, mail: Mail)
    requires FindOne(docs, EmailIs(email)).None?
    requires CreateDoc(docs, nextId, name, email, password, "admin", phone, false, now, hash).Ok?
    ensures var s := RegisterStep(docs, nextId, name, email, password, "admin", phone, now, raw, sha, hash, mail);
            s.outcome.Created? && s.docs[|docs|].role == Admin
  {
    CreateDocMeaning(docs, nextId, name, email, password, "admin", phone, false, now, hash);
  }

  lemma FirstAdminKeepsValid(docs: seq<Account>, nextId: Id, name: string, email: string, password: string,
                             phone: string, flag: Option<string>, production: bool, now: Time, raw: string,
                             sha: string -> string, hash: string -> string, mail: Mail, sign: Id -> string)
    requires DocsValid(docs, nextId)
    ensures var s := FirstAdminStep(docs, nextId, name, email, password, phone, flag, production, now, raw, sha, hash, mail, sign);
            DocsValid(s.docs, s.nextId)
  {
    var s := FirstAdminStep(docs, nextId, name, email, password, phone, flag, production, now, raw, sha, hash, mail, sign);
    if s.outcome.Created? {
      CreateDocMeaning(docs, nextId, name, email, password, "admin", phone,
                       !RequireVerification(flag, production), now, hash);
      ValidAppend(docs, nextId, s.docs[|docs|]);
      assert s.docs == docs + [s.docs[|docs|]];
    }
  }

  /**
   * `createFirstAdmin`: any administrator already present means 400 and
   * no change; a created administrator is verified exactly when
   * verification is not required, and receives a session token exactly then.
   */
  lemma FirstAdminRule(docs: seq<Account>, nextId: Id, name: string, email: string, password: string,
                       phone: string, flag: Option<string>, production: bool, now: Time, raw: string,
                       sha: string -> string, hash: string -> string, mail: Mail, sign: Id -> string)
    ensures var s := FirstAdminStep(docs, nextId, name, email, password, phone, flag, production, now, raw, sha, hash, mail, sign);
            && ((exists i :: 0 <= i < |docs| && docs[i].role == Admin) ==> s == Step(docs, nextId, BadRequest(AdminExists)))
            && (!s.outcome.Created? ==> s.docs == docs && s.nextId == nextId)
            && (s.outcome.Created? ==>
                  && s.outcome.id == nextId && s.docs[..|docs|] == docs && |s.docs| == |docs| + 1
                  && s.docs[|docs|].role == Admin
                  && s.docs[|docs|].emailVerified == !RequireVerification(flag, production)
                  && s.outcome.token == (if RequireVerification(flag, production) then None else Some(sign(nextId))))
  {
    FirstAdminRefused(docs, nextId, name, email, password, phone, flag, production, now, raw, sha, hash, mail, sign);
    FirstAdminCreated(docs, nextId, name, email, password, phone, flag, production, now, raw, sha, hash, mail, sign);
  }

  lemma FirstAdminRefused(docs: seq<Account>, nextId: Id, name: string, email: string, password: string,
                       phone: string, flag: Option<string>, production: bool, now: Time, raw: string,
                       sha: string -> string, hash: string -> string, mail: Mail, sign: Id -> string)
    ensures var s := FirstAdminStep(docs, nextId, name, email, password, phone, flag, production, now, raw, sha, hash, mail, sign);
            && ((exists i :: 0 <= i < |docs| && docs[i].role == Admin) ==> s == Step(docs, nextId, BadRequest(AdminExists)))
            && (!s.outcome.Created? ==> s.docs == docs && s.nextId == nextId)
  {
    if exists i :: 0 <= i < |docs| && docs[i].role == Admin {
      var i :| 0 <= i < |docs| && docs[i].role == Admin;
      assert Matches(docs[i], RoleIs(Admin));
    }
  }

  lemma FirstAdminCreated(docs: seq<Account>, nextId: Id, name: string, email: string, password: string,
                       phone: string, flag: Option<string>, production: bool, now: Time, raw: string,
                       sha: string -> string, hash: string -> string, mail: Mail, sign: Id -> string)
    ensures var s := FirstAdminStep(docs, nextId, name, email, password, phone, flag, production, now, raw, sha, hash, mail, sign);
            s.outcome.Created? ==>
              && s.outcome.id == nextId && s.docs[..|docs|] == docs && |s.docs| == |docs| + 1
              && s.docs[|docs|].role == Admin
              && s.docs[|docs|].emailVerified == !RequireVerification(flag, production)
              && s.outcome.token == (if RequireVerification(flag, production) then None else Some(sign(nextId)))
  {
    var s := FirstAdminStep(docs, nextId, name, email, password, phone, flag, production, now, raw, sha, hash, mail, sign);
    if s.outcome.Created? {
      var require := RequireVerification(flag, production);
      var created := CreateDoc(docs, nextId, name, email, password, "admin", phone, !require, now, hash);
      assert FindOne(docs, RoleIs(Admin)).None? && FindOne(docs, EmailIs(email)).None?;
      assert name != "" && email != "" && password != "" && created.Ok?;
      CreatedAdmin(docs, nextId, name, email, password, phone, !require, now, hash);
      if require {
        var a := Awaiting(created.value, raw, sha, now, mail);
        AwaitingKeeps(created.value, raw, sha, now, mail);
        assert s == Step(docs + [a], nextId + 1, Created(nextId, None));
        assert (docs + [a])[..|docs|] == docs;
      } else {
        assert s == Step(docs + [created.value], nextId + 1, Created(nextId, Some(sign(nextId))));
        assert (docs + [created.value])[..|docs|] == docs;
      }
    }
  }

  /** An account created with the role `admin` is an administrator, verified as asked. */
  lemma CreatedAdmin(docs: seq<Account>, id: Id, name: string, email: string, password: string,
                     phone: string, verified: bool, now: Time, hash: string -> string)
    ensures var r := CreateDoc(docs, id, name, email, password, "admin", phone, verified, now, hash);
            r.Ok? ==> r.value.role == Admin && r.value.emailVerified == verified
  {
    assert ParseRole("admin") == Some(Admin);
  }

  /** Issuing the verification token, and clearing it when the e-mail fails, touches nothing else. */
  lemma AwaitingKeeps(a: Account, raw: string, sha: string -> string, now: Time, mail: Mail)
    ensures var w := Awaiting(a, raw, sha, now, mail);
            && w.id == a.id && w.email == a.email && w.password == a.password
            && w.role == a.role && w.emailVerified == a.emailVerified
  {
  }

  /** There is only ever one first administrator: after one is created, the route refuses. */
  lemma FirstAdminOnce(docs: seq<Account>, nextId: Id, name: string, email: string, password: string,
                       phone: string, flag: Option<string>, production: bool, now: Time, raw: string,
                       sha: string -> string, hash: string -> string, mail: Mail, sign: Id -> string,
                       name2: string, email2: string, password2: string, phone2: string, now2: Time, raw2: string,
                       mail2: Mail)
    requires FirstAdminStep(docs, nextId, name, email, password, phone, flag, production, now, raw, sha, hash, mail, sign).outcome.Created?
    ensures var s := FirstAdminStep(docs, nextId, name, email, password, phone, flag, production, now, raw, sha, hash, mail, sign);
            FirstAdminStep(s.docs, s.nextId, name2, email2, password2, phone2, flag, production, now2, raw2,
                           sha, hash, mail2, sign).outcome == BadRequest(AdminExists)
  {
    FirstAdminRule(docs, nextId, name, email, password, phone, flag, production, now, raw, sha, hash, mail, sign);
    var s := FirstAdminStep(docs, nextId, name, email, password, phone, flag, production, now, raw, sha, hash, mail, sign);
    assert Matches(s.docs[|docs|], RoleIs(Admin));
  }

  lemma CreateUserKeepsValid(docs: seq<Account>, nextId: Id, name: string, email: string, password: string,
                             role: string, phone: string, now: Time, hash: string -> string)
    requires DocsValid(docs, nextId)
    ensures var s := CreateUserStep(docs, nextId, name, email, password, role, phone, now, hash);
            DocsValid(s.docs, s.nextId)
  {
    var s := CreateUserStep(docs, nextId, name, email, password, role, phone, now, hash);
    if s.outcome.Created? {
      CreateDocMeaning(docs, nextId, name, email, password, RoleOrDefault(role), phone, true, now, hash);
      ValidAppend(docs, nextId, s.docs[|docs|]);
      assert s.docs == docs + [s.docs[|docs|]];
    }
  }

  /**
   * `createUser`: a role outside the three is refused before anything
   * else is looked up; an account it creates is verified and has the
   * role asked for, `cliente` when none was.
   */
  lemma CreateUserMeaning(docs: seq<Account>, nextId: Id, name: string, email: string, password: string,
                          role: string, phone: string, now: Time, hash: string -> string)
    ensures var s := CreateUserStep(docs, nextId, name, email, password, role, phone, now, hash);
            && (s.outcome == BadRequest(InvalidRole) <==>
                  name != "" && email != "" && password != "" && role != "" && ParseRole(role).None?)
            && (!s.outcome.Created? ==> s.docs == docs && s.nextId == nextId)
            && (s.outcome.Created? ==>
                  && s.docs[..|docs|] == docs && |s.docs| == |docs| + 1 && s.docs[|docs|].id == nextId
                  && s.docs[|docs|].emailVerified
                  && s.docs[|docs|].role == (if role == "" then Cliente else ParseRole(role).value))
  {
    var s := CreateUserStep(docs, nextId, name, email, password, role, phone, now, hash);
    assert s.outcome == BadRequest(InvalidRole) <==>
             name != "" && email != "" && password != "" && role != "" && ParseRole(role).None?;
    if s.outcome.Created? {
      CreatedUser(docs, nextId, name, email, password, role, phone, now, hash);
    }
  }

  /** The account `createUser` appends, when it appends one. */
  lemma CreatedUser(docs: seq<Account>, nextId: Id, name: string, email: string, password: string,
                    role: string, phone: string, now: Time, hash: string -> string)
    requires CreateUserStep(docs, nextId, name, email, password, role, phone, now, hash).outcome.Created?
    ensures var s := CreateUserStep(docs, nextId, name, email, password, role, phone, now, hash);
            && s.docs[..|docs|] == docs && |s.docs| == |docs| + 1 && s.docs[|docs|].id == nextId
            && s.docs[|docs|].emailVerified
            && s.docs[|docs|].role == (if role == "" then Cliente else ParseRole(role).value)
  {
    var s := CreateUserStep(docs, nextId, name, email, password, role, phone, now, hash);
    var created := CreateDoc(docs, nextId, name, email, password, RoleOrDefault(role), phone, true, now, hash);
    assert name != "" && email != "" && password != "" && FindOne(docs, EmailIs(email)).None? && created.Ok?;
    assert s == Step(docs + [created.value], nextId + 1, Created(nextId, None));
    CreateDocMeaning(docs, nextId, name, email, password, RoleOrDefault(role), phone, true, now, hash);
    assert ParseRole(RoleOrDefault(role)).value == if role == "" then Cliente else ParseRole(role).value;
    assert (docs + [created.value])[..|docs|] == docs;
  }

  lemma ForgotPasswordKeepsValid(docs: seq<Account>, nextId: Id, email: string, raw: string, sha: string -> string,
                                 now: Time, mail: Mail)
    requires DocsValid(docs, nextId)
    ensures DocsValid(ForgotPasswordStep(docs, nextId, email, raw, sha, now, mail).docs, nextId)
  {
    var found := FindOne(docs, EmailIs(email));
    if found.Some? {
      var issued := IssueReset(docs[found.value], raw, sha, now);
      ValidReplace(docs, nextId, found.value, issued);
      ValidReplace(docs, nextId, found.value, ClearReset(issued));
    }
  }

  /**
   * `forgotPassword` answers 200 whether or not the address is known, as
   * long as the e-mail goes out; the generic notice, however, is given
   * exactly when the address is unknown, and a known address leaves a
   * live reset token on its account and nowhere else.
   */
  lemma ForgotPasswordMeaning(docs: seq<Account>, nextId: Id, email: string, raw: string, sha: string -> string,
                              now: Time, mail: Mail)
    ensures var s := ForgotPasswordStep(docs, nextId, email, raw, sha, now, mail);
            && (mail.Delivered? ==> Status(s.outcome) == 200)
            && (s.outcome == Noticed(IfRegistered) <==> forall i :: 0 <= i < |docs| ==> Lower(docs[i].email) != Lower(email))
            && s.nextId == nextId && |s.docs| == |docs|
            && (forall i :: 0 <= i < |docs| && Lower(docs[i].email) != Lower(email) ==> s.docs[i] == docs[i])
            && (mail.Delivered? && FindOne(docs, EmailIs(email)).Some? ==>
                  forall t :: ResetMatches(s.docs[FindOne(docs, EmailIs(email)).value], sha(raw), t) <==> t < now + ResetWindow)
  {
    var found := FindOne(docs, EmailIs(email));
    if found.Some? {
      assert Matches(docs[found.value], EmailIs(email));
    }
  }

  lemma ResetPasswordKeepsValid(docs: seq<Account>, nextId: Id, token: string, password: string, sha: string -> string,
                                hash: string -> string, now: Time, sign: Id -> string)
    requires DocsValid(docs, nextId)
    ensures DocsValid(ResetPasswordStep(docs, nextId, token, password, sha, hash, now, sign).docs, nextId)
  {
    var found := FindOne(docs, ResetIs(sha(token), now));
    if found.Some? && Utf16Length(password) >= 6 {
      ValidReplace(docs, nextId, found.value, ClearReset(docs[found.value]).(password := hash(password)));
    }
  }

  /**
   * `resetPassword` succeeds exactly when some account holds the digest of
   * the token with an expiry still ahead and the new password has six
   * UTF-16 code units; then that account, and only it, gets the new password's
   * digest and loses its reset token.
   */
  lemma ResetPasswordMeaning(docs: seq<Account>, nextId: Id, token: string, password: string, sha: string -> string,
                             hash: string -> string, now: Time, sign: Id -> string)
    ensures var s := ResetPasswordStep(docs, nextId, token, password, sha, hash, now, sign);
            && (s.outcome.LoggedIn? <==>
                  (exists i :: 0 <= i < |docs| && ResetMatches(docs[i], sha(token), now)) && Utf16Length(password) >= 6)
            && (!s.outcome.LoggedIn? ==> s.docs == docs)
            && (s.outcome.LoggedIn? ==>
                  var i := FindOne(docs, ResetIs(sha(token), now)).value;
                  && ResetMatches(docs[i], sha(token), now)
                  && s.docs == docs[i := docs[i].(password := hash(password), resetPasswordToken := None,
                                                  resetPasswordExpire := None)]
                  && s.outcome == LoggedIn(docs[i].id, sign(docs[i].id))
                  && forall h, t :: !ResetMatches(s.docs[i], h, t))
  {
    if exists i :: 0 <= i < |docs| && ResetMatches(docs[i], sha(token), now) {
      var i :| 0 <= i < |docs| && ResetMatches(docs[i], sha(token), now);
      assert Matches(docs[i], ResetIs(sha(token), now));
    }
  }

  /** The digest of `token` is held, as a reset token, by no account other than the one at `i`. */
  predicate ResetDigestOnlyAt(docs: seq<Account>, digest: string, i: nat)
  {
    forall j :: 0 <= j < |docs| && j != i ==> docs[j].resetPasswordToken != Some(digest)
  }

  /** A reset token works once: replaying it, at any time and with any password, is refused. */
  lemma ResetWorksOnce(docs: seq<Account>, nextId: Id, token: string, password: string, sha: string -> string,
                       hash: string -> string, now: Time, sign: Id -> string, password2: string, later: Time)
    requires ResetPasswordStep(docs, nextId, token, password, sha, hash, now, sign).outcome.LoggedIn?
    requires ResetDigestOnlyAt(docs, sha(token), FindOne(docs, ResetIs(sha(token), now)).value)
    ensures var s := ResetPasswordStep(docs, nextId, token, password, sha, hash, now, sign);
            ResetPasswordStep(s.docs, s.nextId, token, password2, sha, hash, later, sign).outcome == BadRequest(InvalidToken)
  {
    ResetPasswordMeaning(docs, nextId, token, password, sha, hash, now, sign);
    var s := ResetPasswordStep(docs, nextId, token, password, sha, hash, now, sign);
    var i := FindOne(docs, ResetIs(sha(token), now)).value;
    forall j | 0 <= j < |s.docs| ensures !Matches(s.docs[j], ResetIs(sha(token), later)) {
      if j != i { assert s.docs[j] == docs[j]; }
    }
  }

  /**
   * The reset cycle: after `forgotPassword` hands out a fresh token, that
   * token resets the password exactly while its ten minutes last.
   */
  lemma ForgotThenReset(docs: seq<Account>, nextId: Id, email: string, raw: string, sha: string -> string,
                        now: Time, dev: bool, password: string, hash: string -> string, t: Time, sign: Id -> string)
    requires FindOne(docs, EmailIs(email)).Some?
    requires forall j :: 0 <= j < |docs| ==> docs[j].resetPasswordToken != Some(sha(raw))
    requires Utf16Length(password) >= 6
    ensures var s := ForgotPasswordStep(docs, nextId, email, raw, sha, now, Delivered(dev));
            ResetPasswordStep(s.docs, s.nextId, raw, password, sha, hash, t, sign).outcome.LoggedIn?
            <==> t < now + ResetWindow
  {
    var s := ForgotPasswordStep(docs, nextId, email, raw, sha, now, Delivered(dev));
    var i := FindOne(docs, EmailIs(email)).value;
    assert s.docs == docs[i := IssueReset(docs[i], raw, sha, now)];
    ResetPasswordMeaning(s.docs, s.nextId, raw, password, sha, hash, t, sign);
    if t < now + ResetWindow {
      assert ResetMatches(s.docs[i], sha(raw), t);
    } else {
      forall j | 0 <= j < |s.docs| ensures !ResetMatches(s.docs[j], sha(raw), t) {
        if j != i { assert s.docs[j] == docs[j]; }
      }
    }
  }

  lemma VerifyEmailKeepsValid(docs: seq<Account>, nextId: Id, token: string, sha: string -> string, now: Time,
                              sign: Id -> string)
    requires DocsValid(docs, nextId)
    ensures DocsValid(VerifyEmailStep(docs, nextId, token, sha, now, sign).docs, nextId)
  {
    var found := FindOne(docs, VerificationIs(sha(token), now));
    if found.Some? {
      ValidReplace(docs, nextId, found.value, ClearVerification(docs[found.value]).(emailVerified := true));
    }
  }

  /**
   * `verifyEmail` succeeds exactly when some account holds the digest of
   * the token with an expiry ahead; that account becomes verified, loses
   * its verification token and receives a session token.
   */
  lemma VerifyEmailMeaning(docs: seq<Account>, nextId: Id, token: string, sha: string -> string, now: Time,
                           sign: Id -> string)
    ensures var s := VerifyEmailStep(docs, nextId, token, sha, now, sign);
            && (s.outcome.LoggedIn? <==> exists i :: 0 <= i < |docs| && VerificationMatches(docs[i], sha(token), now))
            && (!s.outcome.LoggedIn? ==> s.outcome == BadRequest(InvalidToken) && s.docs == docs)
            && (s.outcome.LoggedIn? ==>
                  var i := FindOne(docs, VerificationIs(sha(token), now)).value;
                  && VerificationMatches(docs[i], sha(token), now)
                  && s.docs == docs[i := docs[i].(emailVerified := true, emailVerificationToken := None,
                                                  emailVerificationExpire := None)]
                  && s.outcome == LoggedIn(docs[i].id, sign(docs[i].id))
                  && forall h, t :: !VerificationMatches(s.docs[i], h, t))
  {
    if exists i :: 0 <= i < |docs| && VerificationMatches(docs[i], sha(token), now) {
      var i :| 0 <= i < |docs| && VerificationMatches(docs[i], sha(token), now);
      assert Matches(docs[i], VerificationIs(sha(token), now));
    }
  }

  lemma ResendVerificationKeepsValid(docs: seq<Account>, nextId: Id, email: string, raw: string, sha: string -> string,
                                     now: Time, mail: Mail)
    requires DocsValid(docs, nextId)
    ensures DocsValid(ResendVerificationStep(docs, nextId, email, raw, sha, now, mail).docs, nextId)
  {
    var found := FindOne(docs, EmailIs(email));
    if found.Some? {
      var issued := IssueVerification(docs[found.value], raw, sha, now);
      ValidReplace(docs, nextId, found.value, issued);
      ValidReplace(docs, nextId, found.value, ClearVerification(issued));
    }
  }

  /**
   * `resendVerificationEmail`: 400 exactly for a known, already verified
   * address; for an unverified one a delivered e-mail leaves the new token
   * live for 24 hours and the earlier token (of another digest) dead.
   */
  lemma ResendVerificationMeaning(docs: seq<Account>, nextId: Id, email: string, raw: string, sha: string -> string,
                                  now: Time, mail: Mail)
    ensures var s := ResendVerificationStep(docs, nextId, email, raw, sha, now, mail);
            var found := FindOne(docs, EmailIs(email));
            && (s.outcome == BadRequest(AlreadyVerified) <==> found.Some? && docs[found.value].emailVerified)
            && (s.outcome == Noticed(IfRegistered) <==> found.None?)
            && (mail.Delivered? && found.Some? && !docs[found.value].emailVerified ==>
                  && (forall t :: VerificationMatches(s.docs[found.value], sha(raw), t) <==> t < now + VerificationWindow)
                  && (forall x, t :: sha(x) != sha(raw) ==> !VerificationMatches(s.docs[found.value], sha(x), t)))
            && |s.docs| == |docs|
            && (forall i :: 0 <= i < |docs| && (found.None? || i != found.value) ==> s.docs[i] == docs[i])
  {
  }

  /**
   * The sign-up cycle: a registration whose e-mail goes out, followed by
   * the link within 24 hours, verifies the account and logs it in; after
   * that the same address and password log in.
   */
  lemma RegisterVerifyLogin(docs: seq<Account>, nextId: Id, name: string, email: string, password: string,
                            role: string, phone: string, now: Time, raw: string, sha: string -> string,
                            hash: string -> string, dev: bool, t: Time, sign: Id -> string)
    requires Trim(email) == email
    requires RegisterStep(docs, nextId, name, email, password, role, phone, now, raw, sha, hash, Delivered(dev)).outcome.Created?
    requires forall j :: 0 <= j < |docs| ==> !VerificationMatches(docs[j], sha(raw), t)
    requires t < now + VerificationWindow
    ensures var s1 := RegisterStep(docs, nextId, name, email, password, role, phone, now, raw, sha, hash, Delivered(dev));
            var s2 := VerifyEmailStep(s1.docs, s1.nextId, raw, sha, t, sign);
            && s2.outcome == LoggedIn(nextId, sign(nextId))
            && LoginOutcome(s2.docs, email, password, hash, sign) == LoggedIn(nextId, sign(nextId))
  {
    var s1 := RegisterStep(docs, nextId, name, email, password, role, phone, now, raw, sha, hash, Delivered(dev));
    RegisteredThenVerified(docs, nextId, name, email, password, role, phone, now, raw, sha, hash, dev, t, sign);
    var s2 := VerifyEmailStep(s1.docs, s1.nextId, raw, sha, t, sign);
    VerifiedLogsIn(docs, s2.docs, email, password, hash, sign, nextId);
  }

  /** The first half of the cycle: the link verifies the new account, which keeps its address and password digest. */
  lemma RegisteredThenVerified(docs: seq<Account>, nextId: Id, name: string, email: string, password: string,
                               role: string, phone: string, now: Time, raw: string, sha: string -> string,
                               hash: string -> string, dev: bool, t: Time, sign: Id -> string)
    requires RegisterStep(docs, nextId, name, email, password, role, phone, now, raw, sha, hash, Delivered(dev)).outcome.Created?
    requires forall j :: 0 <= j < |docs| ==> !VerificationMatches(docs[j], sha(raw), t)
    requires t < now + VerificationWindow
    ensures var s1 := RegisterStep(docs, nextId, name, email, password, role, phone, now, raw, sha, hash, Delivered(dev));
            var s2 := VerifyEmailStep(s1.docs, s1.nextId, raw, sha, t, sign);
            && s2.outcome == LoggedIn(nextId, sign(nextId))
            && |s2.docs| == |docs| + 1 && s2.docs[..|docs|] == docs
            && s2.docs[|docs|].id == nextId && s2.docs[|docs|].emailVerified
            && s2.docs[|docs|].email == Trim(email) && s2.docs[|docs|].password == hash(password)
            && FindOne(docs, EmailIs(email)).None?
  {
    RegisteredHoldsLink(docs, nextId, name, email, password, role, phone, now, raw, sha, hash, dev, t);
    var s1 := RegisterStep(docs, nextId, name, email, password, role, phone, now, raw, sha, hash, Delivered(dev));
    var n := |docs|;
    var s2 := VerifyEmailStep(s1.docs, s1.nextId, raw, sha, t, sign);
    assert s2.docs == s1.docs[n := ClearVerification(s1.docs[n]).(emailVerified := true)];
    assert s2.docs[..n] == s1.docs[..n];
  }

  /** After a delivered registration the new account is the first to hold the link's digest, still live at `t`. */
  lemma RegisteredHoldsLink(docs: seq<Account>, nextId: Id, name: string, email: string, password: string,
                            role: string, phone: string, now: Time, raw: string, sha: string -> string,
                            hash: string -> string, dev: bool, t: Time)
    requires RegisterStep(docs, nextId, name, email, password, role, phone, now, raw, sha, hash, Delivered(dev)).outcome.Created?
    requires forall j :: 0 <= j < |docs| ==> !VerificationMatches(docs[j], sha(raw), t)
    requires t < now + VerificationWindow
    ensures var s1 := RegisterStep(docs, nextId, name, email, password, role, phone, now, raw, sha, hash, Delivered(dev));
            && |s1.docs| == |docs| + 1 && s1.docs[..|docs|] == docs && s1.nextId == nextId + 1
            && FindOne(s1.docs, VerificationIs(sha(raw), t)) == Some(|docs|)
            && s1.docs[|docs|].id == nextId && s1.docs[|docs|].email == Trim(email)
            && s1.docs[|docs|].password == hash(password)
            && FindOne(docs, EmailIs(email)).None?
  {
    var created := CreateDoc(docs, nextId, name, email, password, RoleOrDefault(role), phone, false, now, hash);
    RegisterAppends(docs, nextId, name, email, password, role, phone, now, raw, sha, hash, dev);
    CreatedFields(docs, nextId, name, email, password, RoleOrDefault(role), phone, false, now, hash);
    var a := IssueVerification(created.value, raw, sha, now);
    assert VerificationMatches(a, sha(raw), t);
    AppendedFirstHolder(docs, a, sha(raw), t);
  }

  /** The created document keeps the id, the trimmed address and the password digest. */
  lemma CreatedFields(docs: seq<Account>, id: Id, name: string, email: string, password: string, role: string,
                      phone: string, verified: bool, now: Time, hash: string -> string)
    ensures var r := CreateDoc(docs, id, name, email, password, role, phone, verified, now, hash);
            r.Ok? ==> r.value.id == id && r.value.email == Trim(email) && r.value.password == hash(password)
  {
  }

  /** A document put last that holds a digest no earlier document holds is the first to hold it. */
  lemma AppendedFirstHolder(docs: seq<Account>, a: Account, h: string, t: Time)
    requires VerificationMatches(a, h, t)
    requires forall j :: 0 <= j < |docs| ==> !VerificationMatches(docs[j], h, t)
    ensures (docs + [a])[..|docs|] == docs
    ensures FindOne(docs + [a], VerificationIs(h, t)) == Some(|docs|)
  {
    var d := docs + [a];
    forall j | 0 <= j < |docs| ensures !Matches(d[j], VerificationIs(h, t)) {
      assert d[j] == docs[j];
    }
    assert d[..|docs|] == docs;
    FindOneAt(d, VerificationIs(h, t), |docs|);
  }

  /** A delivered registration appends the created account holding the new verification token. */
  lemma RegisterAppends(docs: seq<Account>, nextId: Id, name: string, email: string, password: string,
                        role: string, phone: string, now: Time, raw: string, sha: string -> string,
                        hash: string -> string, dev: bool)
    requires RegisterStep(docs, nextId, name, email, password, role, phone, now, raw, sha, hash, Delivered(dev)).outcome.Created?
    ensures var created := CreateDoc(docs, nextId, name, email, password, RoleOrDefault(role), phone, false, now, hash);
            && created.Ok? && FindOne(docs, EmailIs(email)).None?
            && RegisterStep(docs, nextId, name, email, password, role, phone, now, raw, sha, hash, Delivered(dev))
               == Step(docs + [Awaiting(created.value, raw, sha, now, Delivered(dev))], nextId + 1, Created(nextId, None))
  {
  }

  /** The second half: a verified account, found first by its address, logs in with its password. */
  lemma VerifiedLogsIn(docs: seq<Account>, after: seq<Account>, email: string, password: string,
                       hash: string -> string, sign: Id -> string, id: Id)
    requires Trim(email) == email
    requires FindOne(docs, EmailIs(email)).None?
    requires |after| == |docs| + 1 && after[..|docs|] == docs
    requires after[|docs|].id == id && after[|docs|].emailVerified
    requires after[|docs|].email == Trim(email) && after[|docs|].password == hash(password)
    ensures LoginOutcome(after, email, password, hash, sign) == LoggedIn(id, sign(id))
  {
    var n := |docs|;
    forall j | 0 <= j < n ensures !Matches(after[j], EmailIs(email)) {
      assert after[j] == after[..n][j];
    }
    assert Matches(after[n], EmailIs(email));
    FindOneAt(after, EmailIs(email), n);
  }

  /** The user collection and the database's id generator. */
  class Users {
    var docs: seq<Account>
    var nextId: Id

    ghost predicate Valid()
      reads this
    {
      DocsValid(docs, nextId)
    }

    constructor ()
      ensures Valid() && docs == [] && nextId == 0
    {
      docs := [];
      nextId := 0;
    }

    /** `user.save()`: the pre-save hook, then the document written back at its position. */
    method SaveAt(i: nat, user: User, hash: string -> string)
      requires i < |docs|
      modifies this`docs, user
      ensures !user.passwordModified
      ensures old(user.passwordModified) ==> user.Doc() == old(user.Doc()).(password := hash(old(user.password)))
      ensures !old(user.passwordModified) ==> user.Doc() == old(user.Doc())
      ensures docs == old(docs)[i := user.Doc()]
    {
      user.Save(hash);
      docs := docs[i := user.Doc()];
    }

    /** `User.create` followed by the insert: the new document goes last and takes the next id. */
    method Insert(a: Account) returns (user: User)
      requires a.id == nextId
      modifies this
      ensures fresh(user) && user.Doc() == a && !user.passwordModified
      ensures docs == old(docs) + [a] && nextId == old(nextId) + 1
    {
      user := new User.Load(a);
      docs := docs + [a];
      nextId := nextId + 1;
    }

    /**
     * The part of `register` and `createFirstAdmin` after `User.create`:
     * a verification token, a save, and when the e-mail fails the token
     * cleared and saved again.
     */
    method InsertAwaitingVerification(a: Account, raw: string, sha: string -> string, hash: string -> string,
                                      now: Time, mail: Mail) returns (user: User)
      requires a.id == nextId
      modifies this
      ensures docs == old(docs) + [Awaiting(a, raw, sha, now, mail)] && nextId == old(nextId) + 1
      ensures user.Doc() == Awaiting(a, raw, sha, now, mail)
    {
      user := Insert(a);
      var i := |docs| - 1;
      var token := user.GetEmailVerificationToken(raw, sha, now);
      SaveAt(i, user, hash);
      if mail.MailFailed? {
        user.emailVerificationToken := None;
        user.emailVerificationExpire := None;
        SaveAt(i, user, hash);
      }
    }

    method Register(name: string, email: string, password: string, role: string, phone: string, now: Time,
                    raw: string, sha: string -> string, hash: string -> string, mail: Mail) returns (o: Outcome)
      requires Valid()
      modifies this
      ensures Valid()
      ensures Step(docs, nextId, o) == RegisterStep(old(docs), old(nextId), name, email, password, role, phone, now,
                                                    raw, sha, hash, mail)
    {
      RegisterKeepsValid(docs, nextId, name, email, password, role, phone, now, raw, sha, hash, mail);
      ghost var step := RegisterStep(docs, nextId, name, email, password, role, phone, now, raw, sha, hash, mail);
      if FindOne(docs, EmailIs(email)).Some? {
        assert step.outcome == BadRequest(EmailTaken);
        return BadRequest(EmailTaken);
      }
      ghost var d0, n0 := docs, nextId;
      ghost var created := CreateDoc(d0, n0, name, email, password, RoleOrDefault(role), phone, false, now, hash);
      o := RegisterNew(name, email, password, RoleOrDefault(role), phone, now, raw, sha, hash, mail);
      if created.Err? {
        assert step == Step(d0, n0, ServerError);
      } else {
        assert step == Step(d0 + [Awaiting(created.value, raw, sha, now, mail)], n0 + 1, Created(n0, None));
      }
    }

    /** `register` once the address is free: create the account, then the verification e-mail. */
    method RegisterNew(name: string, email: string, password: string, role: string, phone: string, now: Time,
                       raw: string, sha: string -> string, hash: string -> string, mail: Mail) returns (o: Outcome)
      modifies this
      ensures var created := CreateDoc(old(docs), old(nextId), name, email, password, role, phone, false, now, hash);
              && (created.Err? ==> docs == old(docs) && nextId == old(nextId) && o == ServerError)
              && (created.Ok? ==>
                    && docs == old(docs) + [Awaiting(created.value, raw, sha, now, mail)]
                    && nextId == old(nextId) + 1 && o == Created(old(nextId), None))
    {
      var created := CreateDoc(docs, nextId, name, email, password, role, phone, false, now, hash);
      if created.Err? {
        return ServerError;
      }
      CreateDocId(docs, nextId, name, email, password, role, phone, false, now, hash);
      var user := InsertAwaitingVerification(created.value, raw, sha, hash, now, mail);
      o := Created(created.value.id, None);
    }

    method Login(email: string, password: string, hash: string -> string, sign: Id -> string) returns (o: Outcome)
      ensures o == LoginOutcome(docs, email, password, hash, sign)
    {
      var found := FindOne(docs, EmailIs(email));
      if found.None? {
        return Unauthorized;
      }
      var user := new User.Load(docs[found.value]);
      if hash(password) != user.password {
        return Unauthorized;
      }
      if !user.emailVerified {
        return Unverified;
      }
      o := LoggedIn(user.id, sign(user.id));
    }

    method CreateFirstAdmin(name: string, email: string, password: string, phone: string, flag: Option<string>,
                            production: bool, now: Time, raw: string, sha: string -> string, hash: string -> string,
                            mail: Mail, sign: Id -> string) returns (o: Outcome)
      requires Valid()
      modifies this
      ensures Valid()
      ensures Step(docs, nextId, o) == FirstAdminStep(old(docs), old(nextId), name, email, password, phone, flag,
                                                      production, now, raw, sha, hash, mail, sign)
    {
      FirstAdminKeepsValid(docs, nextId, name, email, password, phone, flag, production, now, raw, sha, hash, mail, sign);
      ghost var step := FirstAdminStep(docs, nextId, name, email, password, phone, flag, production, now, raw, sha,
                                       hash, mail, sign);
      if FindOne(docs, RoleIs(Admin)).Some? {
        assert step.outcome == BadRequest(AdminExists);
        return BadRequest(AdminExists);
      }
      if name == "" || email == "" || password == "" {
        assert step.outcome == BadRequest(MissingFields);
        return BadRequest(MissingFields);
      }
      if FindOne(docs, EmailIs(email)).Some? {
        assert step.outcome == BadRequest(EmailTaken);
        return BadRequest(EmailTaken);
      }
      var requireVerification := flag == Some("true") || (production && flag != Some("false"));
      assert requireVerification == RequireVerification(flag, production);
      o := CreateAdmin(name, email, password, phone, requireVerification, now, raw, sha, hash, mail, sign);
    }

    /** `createFirstAdmin` once the checks have passed: create the administrator, then verify by e-mail or log in. */
    method CreateAdmin(name: string, email: string, password: string, phone: string, requireVerification: bool,
                       now: Time, raw: string, sha: string -> string, hash: string -> string, mail: Mail,
                       sign: Id -> string) returns (o: Outcome)
      modifies this
      ensures var created := CreateDoc(old(docs), old(nextId), name, email, password, "admin", phone,
                                       !requireVerification, now, hash);
              && (created.Err? ==> docs == old(docs) && nextId == old(nextId) && o == ServerError)
              && (created.Ok? && requireVerification ==>
                    && docs == old(docs) + [Awaiting(created.value, raw, sha, now, mail)]
                    && nextId == old(nextId) + 1 && o == Created(old(nextId), None))
              && (created.Ok? && !requireVerification ==>
                    && docs == old(docs) + [created.value]
                    && nextId == old(nextId) + 1 && o == Created(old(nextId), Some(sign(old(nextId)))))
    {
      var created := CreateDoc(docs, nextId, name, email, password, "admin", phone, !requireVerification, now, hash);
      if created.Err? {
        return ServerError;
      }
      CreateDocMeaning(docs, nextId, name, email, password, "admin", phone, !requireVerification, now, hash);
      if requireVerification {
        var admin := InsertAwaitingVerification(created.value, raw, sha, hash, now, mail);
        return Created(admin.id, None);
      }
      var admin := Insert(created.value);
      o := Created(admin.id, Some(sign(admin.id)));
    }

    method CreateUser(name: string, email: string, password: string, role: string, phone: string, now: Time,
                      hash: string -> string) returns (o: Outcome)
      requires Valid()
      modifies this
      ensures Valid()
      ensures Step(docs, nextId, o) == CreateUserStep(old(docs), old(nextId), name, email, password, role, phone, now, hash)
    {
      CreateUserKeepsValid(docs, nextId, name, email, password, role, phone, now, hash);
      ghost var step := CreateUserStep(docs, nextId, name, email, password, role, phone, now, hash);
      if name == "" || email == "" || password == "" {
        assert step.outcome == BadRequest(MissingFields);
        return BadRequest(MissingFields);
      }
      if role != "" && role !in {"admin", "vendedor", "cliente"} {
        assert step.outcome == BadRequest(InvalidRole);
        return BadRequest(InvalidRole);
      }
      if FindOne(docs, EmailIs(email)).Some? {
        assert step.outcome == BadRequest(EmailTaken);
        return BadRequest(EmailTaken);
      }
      var created := CreateDoc(docs, nextId, name, email, password, RoleOrDefault(role), phone, true, now, hash);
      if created.Err? {
        assert step.outcome == ServerError;
        return ServerError;
      }
      assert step == Step(docs + [created.value], nextId + 1, Created(nextId, None));
      CreateDocMeaning(docs, nextId, name, email, password, RoleOrDefault(role), phone, true, now, hash);
      var user := Insert(created.value);
      o := Created(user.id, None);
    }

    method ForgotPassword(email: string, raw: string, sha: string -> string, hash: string -> string, now: Time,
                          mail: Mail) returns (o: Outcome)
      requires Valid()
      modifies this
      ensures Valid()
      ensures Step(docs, nextId, o) == ForgotPasswordStep(old(docs), old(nextId), email, raw, sha, now, mail)
    {
      ForgotPasswordKeepsValid(docs, nextId, email, raw, sha, now, mail);
      var found := FindOne(docs, EmailIs(email));
      if found.None? {
        return Noticed(IfRegistered);
      }
      o := IssueResetAt(found.value, raw, sha, hash, now, mail);
    }

    /** `forgotPassword` once the account is found: the reset token saved, and cleared again when the e-mail fails. */
    method IssueResetAt(i: nat, raw: string, sha: string -> string, hash: string -> string, now: Time, mail: Mail)
      returns (o: Outcome)
      requires i < |docs|
      modifies this
      ensures nextId == old(nextId)
      ensures var issued := IssueReset(old(docs)[i], raw, sha, now);
              match mail
              case Delivered(dev) => docs == old(docs)[i := issued] && o == Noticed(if dev then DevLink else MailSent)
              case MailFailed => docs == old(docs)[i := ClearReset(issued)] && o == ServerError
    {
      var user := new User.Load(docs[i]);
      var token := user.GetResetPasswordToken(raw, sha, now);
      SaveAt(i, user, hash);
      match mail
      case Delivered(dev) =>
        o := Noticed(if dev then DevLink else MailSent);
      case MailFailed =>
        user.resetPasswordToken := None;
        user.resetPasswordExpire := None;
        SaveAt(i, user, hash);
        o := ServerError;
    }

    method ResetPassword(token: string, password: string, sha: string -> string, hash: string -> string, now: Time,
                         sign: Id -> string) returns (o: Outcome)
      requires Valid()
      modifies this
      ensures Valid()
      ensures Step(docs, nextId, o) == ResetPasswordStep(old(docs), old(nextId), token, password, sha, hash, now, sign)
    {
      ResetPasswordKeepsValid(docs, nextId, token, password, sha, hash, now, sign);
      var found := FindOne(docs, ResetIs(sha(token), now));
      if found.None? {
        return BadRequest(InvalidToken);
      }
      if Utf16Length(password) < 6 {
        return BadRequest(ShortPassword);
      }
      var i := found.value;
      var user := new User.Load(docs[i]);
      user.SetPassword(password);
      user.resetPasswordToken := None;
      user.resetPasswordExpire := None;
      SaveAt(i, user, hash);
      o := LoggedIn(user.id, sign(user.id));
    }

    method VerifyEmail(token: string, sha: string -> string, hash: string -> string, now: Time, sign: Id -> string)
      returns (o: Outcome)
      requires Valid()
      modifies this
      ensures Valid()
      ensures Step(docs, nextId, o) == VerifyEmailStep(old(docs), old(nextId), token, sha, now, sign)
    {
      VerifyEmailKeepsValid(docs, nextId, token, sha, now, sign);
      var found := FindOne(docs, VerificationIs(sha(token), now));
      if found.None? {
        return BadRequest(InvalidToken);
      }
      var i := found.value;
      var user := new User.Load(docs[i]);
      user.emailVerified := true;
      user.emailVerificationToken := None;
      user.emailVerificationExpire := None;
      SaveAt(i, user, hash);
      o := LoggedIn(user.id, sign(user.id));
    }

    method ResendVerificationEmail(email: string, raw: string, sha: string -> string, hash: string -> string,
                                   now: Time, mail: Mail) returns (o: Outcome)
      requires Valid()
      modifies this
      ensures Valid()
      ensures Step(docs, nextId, o) == ResendVerificationStep(old(docs), old(nextId), email, raw, sha, now, mail)
    {
      ResendVerificationKeepsValid(docs, nextId, email, raw, sha, now, mail);
      var found := FindOne(docs, EmailIs(email));
      if found.None? {
        return Noticed(IfRegistered);
      }
      if docs[found.value].emailVerified {
        return BadRequest(AlreadyVerified);
      }
      o := IssueVerificationAt(found.value, raw, sha, hash, now, mail);
    }

    /** `resendVerificationEmail` once an unverified account is found: the token saved, and cleared again when the e-mail fails. */
    method IssueVerificationAt(i: nat, raw: string, sha: string -> string, hash: string -> string, now: Time,
                               mail: Mail) returns (o: Outcome)
      requires i < |docs|
      modifies this
      ensures nextId == old(nextId)
      ensures var issued := IssueVerification(old(docs)[i], raw, sha, now);
              match mail
              case Delivered(dev) => docs == old(docs)[i := issued] && o == Noticed(if dev then DevLink else MailSent)
              case MailFailed => docs == old(docs)[i := ClearVerification(issued)] && o == ServerError
    {
      var user := new User.Load(docs[i]);
      var token := user.GetEmailVerificationToken(raw, sha, now);
      SaveAt(i, user, hash);
      match mail
      case Delivered(dev) =>
        o := Noticed(if dev then DevLink else MailSent);
      case MailFailed =>
        user.emailVerificationToken := None;
        user.emailVerificationExpire := None;
        SaveAt(i, user, hash);
        o := ServerError;
    }
  }
}
