/** The account handlers of controllers/userController.js (`Register`,
    `VerifyEmail`, `Login`, `ForgotPassword`, `ResetPassword`) over an
    in-memory user collection. The clock, the random tokens, the stored
    avatar address and the outcome of handing a mail to the dispatcher are
    parameters; hashing is an injective `Digest`. */
module Users {
  import opened Wrappers
  import opened Text
  import opened Cache
  import opened Templates
  import opened Mail
  import opened Usernames

  type UserId = nat
  type ReviewId = nat

  /** The `role` enum of the user schema: 'user', 'mentor' and 'admin'. */
  datatype Role = User | Mentor | Admin

  /** A stored hash, kept with the text it hashes: SHA-256 for the mailed
      tokens, bcrypt for passwords. Equal digests mean equal texts. */
  datatype Digest = Sha256(text: string) | Bcrypt(text: string)

  /** One entry of a mentor's `reviews` array. */
  datatype Review = Review(id: ReviewId, studentId: UserId, comment: Option<string>, rating: real)

  /** The fields of a user document that the account handlers, the review
      handlers and the admin handlers read or write. Times are milliseconds. */
  datatype UserDoc = UserDoc(
    name: string,
    username: string,
    email: string,
    role: Option<Role>,
    password: Option<Digest>,
    isGoogleUser: bool,
    avatar: Option<string>,
    isEmailVerified: bool,
    isAccountDeactivated: bool,
    isMentorVerified: bool,
    emailVerificationToken: Option<Digest>,
    emailVerificationExpire: Option<int>,
    resetPasswordToken: Option<Digest>,
    resetPasswordExpire: Option<int>,
    lastLogin: Option<int>,
    loginAttempts: nat,
    lockUntil: Option<int>,
    rating: real,
    reviews: seq<Review>)

  const MaxLoginAttempts: nat := 5
  const MinuteMs: nat := 60 * 1000
  const LockMs: nat := 15 * MinuteMs
  const VerificationMs: nat := 24 * 60 * MinuteMs
  const ResetMs: nat := 15 * MinuteMs

  /** No two documents share an email address (the schema's unique index). */
  ghost predicate UniqueEmails(docs: map<UserId, UserDoc>) {
    forall a, b :: a in docs && b in docs && docs[a].email == docs[b].email ==> a == b
  }

  /** Replacing a document by one with the same email keeps emails unique. */
  lemma SameEmailKeepsUnique(docs: map<UserId, UserDoc>, id: UserId, v: UserDoc)
    requires UniqueEmails(docs) && id in docs && v.email == docs[id].email
    ensures UniqueEmails(docs[id := v])
  {
  }

  /** A document under a new id with an unused email keeps emails unique. */
  lemma NewEmailKeepsUnique(docs: map<UserId, UserDoc>, id: UserId, v: UserDoc)
    requires UniqueEmails(docs) && id !in docs && !HasEmail(docs, v.email)
    ensures UniqueEmails(docs[id := v])
  {
  }

  ghost predicate HasEmail(docs: map<UserId, UserDoc>, email: string) {
    exists id :: id in docs && docs[id].email == email
  }

  // ----- Register -------------------------------------------------------

  function VerificationUrl(clientUrl: string, token: string, email: string): string {
    clientUrl + "/verify-email/" + token + "?email=" + email
  }

  /** The options handed to the mail dispatcher after a registration. */
  function VerificationMail(name: string, email: string, url: string): EmailOptions {
    EmailOptions(One(email), "Email Verification",
      "Please click on the link to verify your email: " + url, "verification",
      Some(TemplateData(map["name" := name, "verificationUrl" := url], None, None)))
  }

  /** An unverified account registered again: new name, username, role and
      password, and a fresh verification token valid for 24 hours. */
  function Reregistered(u: UserDoc, name: string, username: string, role: Option<Role>,
                        password: string, token: string, now: int): UserDoc
  {
    u.(name := name, username := username, role := role, password := Some(Bcrypt(password)),
       emailVerificationToken := Some(Sha256(token)),
       emailVerificationExpire := Some(now + VerificationMs))
  }

  /** A new document with the schema defaults for everything not given. */
  function NewUser(name: string, username: string, email: string, role: Option<Role>,
                   password: string, token: string, now: int): UserDoc
  {
    UserDoc(name, username, email, role, Some(Bcrypt(password)), false, None,
      false, false, false, Some(Sha256(token)), Some(now + VerificationMs),
      None, None, None, 0, None, 0.0, [])
  }

  // ----- VerifyEmail ----------------------------------------------------

  /** The token query: the stored digest equals the hashed token and the
      expiry is still ahead. */
  predicate VerificationAccepts(u: UserDoc, digest: Digest, now: int) {
    u.emailVerificationToken == Some(digest)
    && u.emailVerificationExpire.Some? && u.emailVerificationExpire.value > now
  }

  function MarkVerified(u: UserDoc): UserDoc {
    u.(isEmailVerified := true, emailVerificationToken := None, emailVerificationExpire := None)
  }

  // ----- Login ------------------------------------------------------------

  /** `user.lockUntil && user.lockUntil > Date.now()`. */
  predicate Locked(u: UserDoc, now: int) {
    u.lockUntil.Some? && u.lockUntil.value > now
  }

  /** The account gets as far as the password comparison. */
  predicate ReachesPassword(u: UserDoc, now: int) {
    !u.isAccountDeactivated && !Locked(u, now) && u.isEmailVerified && !u.isGoogleUser
    && u.password.Some?
  }

  /** Status and saved document of a login attempt on an existing account.
      An unset password hash makes `bcrypt.compare` throw (500). `avatar` is
      the address the generated avatar is stored under. */
  function LoginAttempt(u: UserDoc, password: string, now: int, avatar: string): (nat, UserDoc) {
    if u.isAccountDeactivated then (403, u)
    else if Locked(u, now) then (403, u)
    else if !u.isEmailVerified then (403, u)
    else if u.isGoogleUser then (401, u)
    else if u.password.None? then (500, u)
    else if u.password.value != Bcrypt(password) then
      var attempts := u.loginAttempts + 1;
      (401, u.(loginAttempts := attempts,
               lockUntil := if attempts >= MaxLoginAttempts then Some(now + LockMs) else u.lockUntil))
    else
      (200, u.(avatar := if Falsy(u.avatar) then Some(avatar) else u.avatar,
               loginAttempts := 0, lastLogin := Some(now)))
  }

  // ----- ForgotPassword / ResetPassword -------------------------------------

  /** `Math.ceil(ms / 1000 / 60)` for a positive number of milliseconds. */
  function MinutesLeft(ms: int): (m: int)
    requires ms > 0
    ensures m >= 1 && (m - 1) * MinuteMs < ms <= m * MinuteMs
  {
    (ms + MinuteMs - 1) / MinuteMs
  }

  /** The minutes to wait while an earlier reset link is still valid. */
  function ResetCooldown(u: UserDoc, now: int): Option<int> {
    if u.resetPasswordExpire.Some? && u.resetPasswordExpire.value > now
    then Some(MinutesLeft(u.resetPasswordExpire.value - now))
    else None
  }

  function ResetUrl(clientUrl: string, token: string): string {
    clientUrl + "/reset-password/" + token
  }

  function ResetMail(u: UserDoc, url: string): EmailOptions {
    EmailOptions(One(u.email), "Password Reset Request",
      "Please click on the link to Reset Your Password: " + url, "resetPassword",
      Some(TemplateData(map["name" := u.name, "resetUrl" := url, "expiryTime" := "10 minutes"], None, None)))
  }

  function IssueReset(u: UserDoc, token: string, now: int): UserDoc {
    u.(resetPasswordToken := Some(Sha256(token)), resetPasswordExpire := Some(now + ResetMs))
  }

  /** The rollback after the mail could not be handed over. */
  function ClearReset(u: UserDoc): UserDoc {
    u.(resetPasswordToken := None, resetPasswordExpire := None)
  }

  /** The saved document after a reset link was issued: kept when the mail
      was handed over, rolled back otherwise. */
  function ResetIssued(u: UserDoc, token: string, now: int, mailAccepted: bool): UserDoc {
    if mailAccepted then IssueReset(u, token, now) else ClearReset(u)
  }

  predicate ResetAccepts(u: UserDoc, digest: Digest, now: int) {
    u.resetPasswordToken == Some(digest)
    && u.resetPasswordExpire.Some? && u.resetPasswordExpire.value > now
  }

  function CompleteReset(u: UserDoc, password: string): UserDoc {
    u.(password := Some(Bcrypt(password)), resetPasswordToken := None, resetPasswordExpire := None)
  }

  function ResetSuccessMail(u: UserDoc, clientUrl: string): EmailOptions {
    EmailOptions(One(u.email), "Password Reset Successful",
      "Your Password get changed successfully , you can login with your new Password",
      "passwordResetSuccess",
      Some(TemplateData(map["name" := u.name, "loginUrl" := clientUrl + "/login"], None, None)))
  }

  /** `after` is `before` with one account whose token matched marked verified. */
  ghost predicate VerifiedOne(before: map<UserId, UserDoc>, after: map<UserId, UserDoc>, digest: Digest, now: int) {
    exists m :: m in before && VerificationAccepts(before[m], digest, now)
      && after == before[m := MarkVerified(before[m])]
  }

  /** `after` is `before` with the password of one account whose reset
      token matched replaced, and the confirmation mail goes to it. */
  ghost predicate ResetOne(before: map<UserId, UserDoc>, after: map<UserId, UserDoc>, digest: Digest,
                           password: string, now: int, clientUrl: string, mail: Option<EmailOptions>) {
    exists m :: m in before && ResetAccepts(before[m], digest, now)
      && after == before[m := CompleteReset(before[m], password)]
      && mail == Some(ResetSuccessMail(before[m], clientUrl))
  }

  /** The user collection. */
  class UserDb {
    var docs: map<UserId, UserDoc>

    ghost predicate Valid()
      reads this
    {
      UniqueEmails(docs)
    }

    constructor ()
      ensures docs == map[] && Valid()
    {
      docs := map[];
    }

    /** `User.findOne({ email })`. */
    method FindByEmail(email: string) returns (r: Option<UserId>)
      requires Valid()
      ensures r.None? <==> !HasEmail(docs, email)
      ensures r.Some? ==> r.value in docs && docs[r.value].email == email
      ensures forall id :: id in docs && docs[id].email == email ==> r == Some(id)
    {
      if id :| id in docs && docs[id].email == email {
        r := Some(id);
      } else {
        r := None;
      }
    }

    /** `Register`: a verified owner of the email is refused (400); an
        unverified one is overwritten; otherwise a new document is created
        under `freshId`. `random` is the four bytes of the username suffix,
        `token` the hex verification token. */
    method Register(name: string, email: string, password: string, role: Option<Role>,
                    random: seq<Byte>, token: string, clientUrl: string, now: int, freshId: UserId)
      returns (status: nat, mail: Option<EmailOptions>)
      requires Valid()
      requires |random| == RandomLength && freshId !in docs
      modifies this`docs
      ensures Valid()
      ensures forall id :: id in old(docs) && old(docs)[id].email == email ==>
        (old(docs)[id].isEmailVerified ==> status == 400 && mail.None? && docs == old(docs))
      ensures forall id :: id in old(docs) && old(docs)[id].email == email ==>
        (!old(docs)[id].isEmailVerified ==>
          docs == old(docs)[id := Reregistered(old(docs)[id], name, UniqueUsername(name, random),
                                               role, password, token, now)])
      ensures !HasEmail(old(docs), email) ==>
        docs == old(docs)[freshId := NewUser(name, UniqueUsername(name, random), email, role,
                                             password, token, now)]
      ensures status == 400 || status == 200
      ensures status == 200 ==>
        mail == Some(VerificationMail(name, email, VerificationUrl(clientUrl, token, email)))
    {
      var existing := FindByEmail(email);
      if existing.Some? && docs[existing.value].isEmailVerified {
        return 400, None;
      }
      var username := UniqueUsername(name, random);
      var url := VerificationUrl(clientUrl, token, email);
      if existing.Some? {
        Refresh(existing.value, name, username, role, password, token, now);
      } else {
        Insert(freshId, NewUser(name, username, email, role, password, token, now));
      }
      status := 200;
      mail := Some(VerificationMail(name, email, url));
    }

    /** An unverified account registering again: its name, username, role,
        password and verification token are replaced. */
    method Refresh(id: UserId, name: string, username: string, role: Option<Role>,
                   password: string, token: string, now: int)
      requires Valid() && id in docs
      modifies this`docs
      ensures Valid()
      ensures docs == old(docs)[id := Reregistered(old(docs)[id], name, username, role, password, token, now)]
    {
      var user := docs[id];
      user := user.(name := name, username := username, role := role);
      user := user.(password := Some(Bcrypt(password)));
      user := user.(emailVerificationToken := Some(Sha256(token)));
      user := user.(emailVerificationExpire := Some(now + VerificationMs));
      assert user == Reregistered(docs[id], name, username, role, password, token, now);
      SameEmailKeepsUnique(docs, id, user);
      docs := docs[id := user];
    }

    /** `User.create`: a new account under an unused id and an unused email. */
    method Insert(id: UserId, user: UserDoc)
      requires Valid() && id !in docs && !HasEmail(docs, user.email)
      modifies this`docs
      ensures Valid()
      ensures docs == old(docs)[id := user]
    {
      NewEmailKeepsUnique(docs, id, user);
      docs := docs[id := user];
    }

    /** `VerifyEmail`: the account named by `email` is checked, then the
        token query may match any account. */
    method VerifyEmail(token: string, email: string, now: int) returns (status: nat)
      requires Valid()
      modifies this`docs
      ensures Valid()
      ensures token == "" || email == "" ==> status == 400 && docs == old(docs)
      ensures token != "" && email != "" && !HasEmail(old(docs), email) ==>
        status == 401 && docs == old(docs)
      ensures token != "" && email != "" ==>
        forall id :: id in old(docs) && old(docs)[id].email == email ==>
          if old(docs)[id].isAccountDeactivated then status == 403 && docs == old(docs)
          else if old(docs)[id].isEmailVerified then status == 200 && docs == old(docs)
          else if exists m :: m in old(docs) && VerificationAccepts(old(docs)[m], Sha256(token), now)
          then status == 200 && VerifiedOne(old(docs), docs, Sha256(token), now)
          else status == 400 && docs == old(docs)
    {
      if token == "" || email == "" {
        return 400;
      }
      var present := FindByEmail(email);
      if present.None? {
        return 401;
      }
      var owner := docs[present.value];
      if owner.isAccountDeactivated {
        return 403;
      }
      if owner.isEmailVerified {
        return 200;
      }
      if m :| m in docs && VerificationAccepts(docs[m], Sha256(token), now) {
        var user := docs[m];
        user := user.(isEmailVerified := true);
        user := user.(emailVerificationToken := None, emailVerificationExpire := None);
        assert user == MarkVerified(docs[m]);
        SameEmailKeepsUnique(docs, m, user);
        docs := docs[m := user];
        status := 200;
      } else {
        status := 400;
      }
    }

    /** `Login`: the checks in the order of the handler, the attempt counter
        and lock on a wrong password, and on success the reset counter, the
        login time, a generated avatar when none is set and the
        `Website_User:` cache entries dropped. */
    method Login<V>(email: string, password: string, now: int, avatar: string, cache: Store<V>)
      returns (status: nat)
      requires Valid()
      modifies this`docs, cache`entries
      ensures Valid()
      ensures email == "" || password == "" ==> status == 400 && docs == old(docs)
      ensures email != "" && password != "" && !HasEmail(old(docs), email) ==>
        status == 401 && docs == old(docs)
      ensures email != "" && password != "" ==>
        forall id :: id in old(docs) && old(docs)[id].email == email ==>
          var attempt := LoginAttempt(old(docs)[id], password, now, avatar);
          status == attempt.0 && docs == old(docs)[id := attempt.1]
      ensures status == 200 ==> cache.entries == DropPrefix(old(cache.entries), WebsiteUserPrefix)
      ensures status != 200 ==> cache.entries == old(cache.entries)
    {
      if email == "" || password == "" {
        return 400;
      }
      var found := FindByEmail(email);
      if found.None? {
        return 401;
      }
      var id := found.value;
      var user := docs[id];
      if user.isAccountDeactivated {
        return 403;
      }
      if user.lockUntil.Some? && user.lockUntil.value > now {
        return 403;
      }
      if !user.isEmailVerified {
        return 403;
      }
      if user.isGoogleUser {
        return 401;
      }
      if user.password.None? {
        return 500;
      }
      if user.password.value != Bcrypt(password) {
        user := user.(loginAttempts := user.loginAttempts + 1);
        if user.loginAttempts >= MaxLoginAttempts {
          user := user.(lockUntil := Some(now + LockMs));
        }
        assert (401, user) == LoginAttempt(docs[id], password, now, avatar);
        SameEmailKeepsUnique(docs, id, user);
        docs := docs[id := user];
        return 401;
      }
      if Falsy(user.avatar) {
        user := user.(avatar := Some(avatar));
      }
      user := user.(loginAttempts := 0);
      user := user.(lastLogin := Some(now));
      assert (200, user) == LoginAttempt(docs[id], password, now, avatar);
      SameEmailKeepsUnique(docs, id, user);
      docs := docs[id := user];
      cache.Del(WebsiteUserPrefix);
      status := 200;
    }

    /** `ForgotPassword`: refused while an earlier link is valid (429, with
        the minutes left); otherwise a new token valid for 15 minutes is
        stored and mailed. When the dispatcher does not accept the mail the
        handler's catch clause clears the token and expiry again. */
    method ForgotPassword(email: string, token: string, clientUrl: string, now: int, mailAccepted: bool)
      returns (status: nat, wait: Option<int>, mail: Option<EmailOptions>)
      requires Valid()
      modifies this`docs
      ensures Valid()
      ensures status != 200 ==> docs == old(docs) && mail.None?
      ensures wait.Some? <==> status == 429
      ensures email == "" ==> status == 400
      ensures email != "" && !HasEmail(old(docs), email) ==> status == 404
      ensures email != "" ==>
        forall id :: id in old(docs) && old(docs)[id].email == email ==>
          (old(docs)[id].isAccountDeactivated ==> status == 403)
          && (!old(docs)[id].isAccountDeactivated && ResetCooldown(old(docs)[id], now).Some? ==>
                status == 429 && wait == ResetCooldown(old(docs)[id], now))
          && (!old(docs)[id].isAccountDeactivated && ResetCooldown(old(docs)[id], now).None? ==>
                status == 200 && mail == Some(ResetMail(old(docs)[id], ResetUrl(clientUrl, token)))
                && docs == old(docs)[id := ResetIssued(old(docs)[id], token, now, mailAccepted)])
    {
      wait, mail := None, None;
      if email == "" {
        return 400, wait, mail;
      }
      var found := FindByEmail(email);
      if found.None? {
        return 404, wait, mail;
      }
      var id := found.value;
      var user := docs[id];
      if user.isAccountDeactivated {
        return 403, wait, mail;
      }
      if user.resetPasswordExpire.Some? && user.resetPasswordExpire.value > now {
        wait := Some(MinutesLeft(user.resetPasswordExpire.value - now));
        return 429, wait, mail;
      }
      mail := IssueResetLink(id, token, clientUrl, now, mailAccepted);
      status := 200;
    }

    /** The tail of `ForgotPassword`: store the hashed token and its expiry,
        build the mail, and roll both fields back when the mail is not
        accepted. */
    method IssueResetLink(id: UserId, token: string, clientUrl: string, now: int, mailAccepted: bool)
      returns (mail: Option<EmailOptions>)
      requires id in docs && Valid()
      modifies this`docs
      ensures Valid()
      ensures docs == old(docs)[id := ResetIssued(old(docs)[id], token, now, mailAccepted)]
      ensures mail == Some(ResetMail(old(docs)[id], ResetUrl(clientUrl, token)))
    {
      var user := docs[id];
      mail := Some(ResetMail(user, ResetUrl(clientUrl, token)));
      SameEmailKeepsUnique(docs, id, IssueReset(user, token, now));
      docs := docs[id := IssueReset(user, token, now)];
      if !mailAccepted {
        assert ClearReset(docs[id]) == ClearReset(user);
        docs := docs[id := ClearReset(docs[id])];
      }
    }

    /** `ResetPassword`: both passwords required (400) and equal (402); the
        token query may match any account whose link is still valid. */
    method ResetPassword(token: string, password: string, confirm: string, clientUrl: string, now: int)
      returns (status: nat, mail: Option<EmailOptions>)
      requires Valid()
      modifies this`docs
      ensures Valid()
      ensures password == "" || confirm == "" ==> status == 400 && docs == old(docs) && mail.None?
      ensures password != "" && confirm != "" && password != confirm ==>
        status == 402 && docs == old(docs) && mail.None?
      ensures password != "" && password == confirm ==>
        if exists m :: m in old(docs) && ResetAccepts(old(docs)[m], Sha256(token), now)
        then status == 200 && ResetOne(old(docs), docs, Sha256(token), password, now, clientUrl, mail)
        else status == 400 && docs == old(docs) && mail.None?
    {
      mail := None;
      if password == "" || confirm == "" {
        return 400, mail;
      }
      if password != confirm {
        return 402, mail;
      }
      if m :| m in docs && ResetAccepts(docs[m], Sha256(token), now) {
        var user := docs[m];
        mail := Some(ResetSuccessMail(user, clientUrl));
        user := user.(password := Some(Bcrypt(password)));
        user := user.(resetPasswordToken := None, resetPasswordExpire := None);
        assert user == CompleteReset(docs[m], password);
        SameEmailKeepsUnique(docs, m, user);
        docs := docs[m := user];
        status := 200;
      } else {
        status := 400;
      }
    }
  }

  // ----- Properties -----------------------------------------------------------

  /** The login checks run in order: a deactivated account is refused first,
      then a locked one, both before the password is looked at and without
      touching the counter. */
  lemma RefusedBeforePassword(u: UserDoc, password: string, now: int, avatar: string)
    requires u.isAccountDeactivated || Locked(u, now)
    ensures LoginAttempt(u, password, now, avatar) == (403, u)
  {
  }

  /** A wrong password adds exactly one to the counter and, from the fifth
      failure on, locks the account for 15 minutes; nothing else changes. */
  lemma WrongPassword(u: UserDoc, password: string, now: int, avatar: string)
    requires ReachesPassword(u, now) && u.password != Some(Bcrypt(password))
    ensures var (status, v) := LoginAttempt(u, password, now, avatar);
      status == 401 && v.loginAttempts == u.loginAttempts + 1
      && (v.loginAttempts >= MaxLoginAttempts ==> v.lockUntil == Some(now + LockMs))
      && (v.loginAttempts < MaxLoginAttempts ==> v.lockUntil == u.lockUntil)
      && v == u.(loginAttempts := v.loginAttempts, lockUntil := v.lockUntil)
  {
  }

  /** The right password logs in, resets the counter and records the time. */
  lemma RightPassword(u: UserDoc, password: string, now: int, avatar: string)
    requires ReachesPassword(u, now) && u.password == Some(Bcrypt(password))
    ensures var (status, v) := LoginAttempt(u, password, now, avatar);
      status == 200 && v.loginAttempts == 0 && v.lastLogin == Some(now)
      && (Falsy(u.avatar) ==> v.avatar == Some(avatar)) && (!Falsy(u.avatar) ==> v.avatar == u.avatar)
  {
  }

  /** Logins replayed in order, each at its own time, with one password. */
  function LoginRun(u: UserDoc, password: string, times: seq<int>, avatar: string): UserDoc
    decreases |times|
  {
    if times == [] then u
    else LoginRun(LoginAttempt(u, password, times[0], avatar).1, password, times[1..], avatar)
  }

  /** Only a successful login resets the counter: with a wrong password it
      never goes down, whatever the timing. */
  lemma {:induction false} CounterNeverResets(u: UserDoc, password: string, times: seq<int>, avatar: string)
    requires u.password != Some(Bcrypt(password))
    ensures LoginRun(u, password, times, avatar).loginAttempts >= u.loginAttempts
    ensures LoginRun(u, password, times, avatar).password == u.password
    decreases |times|
  {
    if times != [] {
      CounterNeverResets(LoginAttempt(u, password, times[0], avatar).1, password, times[1..], avatar);
    }
  }

  /** Once four failures are on record, every further failure that reaches
      the password check locks the account, and during the next 15 minutes
      every attempt is refused with 403, even with the right password. */
  lemma FailureRelocks(u: UserDoc, wrong: string, now: int, avatar: string,
                       later: int, any: string)
    requires ReachesPassword(u, now) && u.password != Some(Bcrypt(wrong))
    requires u.loginAttempts + 1 >= MaxLoginAttempts
    requires now <= later < now + LockMs
    ensures var v := LoginAttempt(u, wrong, now, avatar).1;
      Locked(v, later) && LoginAttempt(v, any, later, avatar) == (403, v)
  {
  }

  /** A registration's token is accepted exactly until 24 hours later. */
  lemma RegistrationTokenWindow(name: string, username: string, email: string, role: Option<Role>,
                                password: string, token: string, now: int, t: int)
    ensures VerificationAccepts(NewUser(name, username, email, role, password, token, now), Sha256(token), t)
            <==> t < now + VerificationMs
  {
  }

  /** Registering again renews the token of an unverified account the same way. */
  lemma ReregistrationTokenWindow(u: UserDoc, name: string, username: string, role: Option<Role>,
                                  password: string, token: string, now: int, t: int, other: string)
    requires other != token
    ensures var v := Reregistered(u, name, username, role, password, token, now);
      (VerificationAccepts(v, Sha256(token), t) <==> t < now + VerificationMs)
      && !VerificationAccepts(v, Sha256(other), t)
  {
  }

  /** Verification is single-use: afterwards no token is accepted. */
  lemma VerificationSingleUse(u: UserDoc, digest: Digest, t: int)
    ensures MarkVerified(u).isEmailVerified && !VerificationAccepts(MarkVerified(u), digest, t)
  {
  }

  /** The verification mail carries the raw token, not its digest, in the
      link it renders, and names the 24-hour expiry. */
  lemma VerificationMailLinksToken(name: string, email: string, clientUrl: string, token: string)
    ensures var url := VerificationUrl(clientUrl, token, email);
      var opts := VerificationMail(name, email, url);
      Contains(url, token)
      && Render(opts.kind, opts.data).Ok?
      && Contains(Render(opts.kind, opts.data).value, "href=\"" + url + "\"")
      && Contains(Render(opts.kind, opts.data).value, "<p>This link will expire in 24 hours.</p>")
  {
    var url := VerificationUrl(clientUrl, token, email);
    OccursAtConcat(clientUrl + "/verify-email/", token, "?email=" + email);
    assert clientUrl + "/verify-email/" + token + ("?email=" + email) == url;
    var opts := VerificationMail(name, email, url);
    VerificationContent(opts.data.value);
  }

  /** While a reset link is valid another one is refused with the whole
      minutes left, between 1 and 15; afterwards a new one is allowed. */
  lemma ResetCooldownWindow(u: UserDoc, token: string, now: int, t: int)
    requires now <= t
    ensures var v := IssueReset(u, token, now);
      (t < now + ResetMs ==> (ResetCooldown(v, t).Some? && 1 <= ResetCooldown(v, t).value <= 15))
      && (t >= now + ResetMs ==> ResetCooldown(v, t).None?)
  {
  }

  /** A reset token is accepted exactly until 15 minutes after it was
      issued, is single-use, and is gone again after the rollback. */
  lemma ResetTokenLifecycle(u: UserDoc, token: string, now: int, t: int, password: string)
    ensures ResetAccepts(IssueReset(u, token, now), Sha256(token), t) <==> t < now + ResetMs
    ensures !ResetAccepts(CompleteReset(IssueReset(u, token, now), password), Sha256(token), t)
    ensures !ResetAccepts(ClearReset(IssueReset(u, token, now)), Sha256(token), t)
  {
  }

  /** After a reset the new password logs in, on an account that is active,
      unlocked, verified and not a Google account. */
  lemma LoginAfterReset(u: UserDoc, password: string, now: int, avatar: string)
    requires !u.isAccountDeactivated && !Locked(u, now) && u.isEmailVerified && !u.isGoogleUser
    ensures LoginAttempt(CompleteReset(u, password), password, now, avatar).0 == 200
  {
  }

  /** The reset mail links the raw reset token and names a 15-minute expiry,
      whatever `expiryTime` the data carries. */
  lemma ResetMailLinksToken(u: UserDoc, clientUrl: string, token: string)
    ensures var url := ResetUrl(clientUrl, token);
      var opts := ResetMail(u, url);
      Contains(url, token)
      && Render(opts.kind, opts.data).Ok?
      && Contains(Render(opts.kind, opts.data).value, "href=\"" + url + "\"")
      && Contains(Render(opts.kind, opts.data).value, "<p>This link will expire in 15 minutes.</p>")
  {
    var url := ResetUrl(clientUrl, token);
    OccursAtConcat(clientUrl + "/reset-password/", token, "");
    assert clientUrl + "/reset-password/" + token + "" == url;
    var opts := ResetMail(u, url);
    ResetPasswordContent(opts.data.value);
  }
}
