/** The account views that change accounts or tokens: sign-up, login gating,
    the email verification link, the password reset page, and the
    superadmin's user deletion. Mail sending is left out; a "sent" link is
    the token created for it. */
module AccountViews {
  import opened Common
  import opened AccountModels
  import opened AccountForms

  // ---------------------------------------------------------------------
  // Sign-up

  /** The user `sign_up` saves: inactive until the email is verified, with
      the address fields copied only for a Reseller. */
  function SignUpUser(email: string, d: SignUpData): (u: User)
    ensures !u.isActive && !u.isVerified && !u.verifiedSeller && !u.isStaff && !u.isSuperadmin
    ensures u.email == email && u.password == d.password1 && u.userType == d.userType
    ensures d.userType != Some(Reseller) ==> u.country.None? && u.city.None? && u.streetNo.None? && u.socialMediaLink.None?
  {
    var reseller := d.userType == Some(Reseller);
    User(email, d.password1, d.userType,
         if reseller then d.country else None, if reseller then d.city else None,
         if reseller then d.streetNo else None, if reseller then d.socialMediaLink else None,
         false, false, false, false, false)
  }

  datatype SignUpOutcome = AlreadySignedIn | SignUpRefused(errors: seq<FieldError>) | VerificationSent(user: UserKey)

  /** `sign_up` on POST. `fieldErrors` are the errors of the individual
      fields (email, phone, names, required values); `clean` adds its own. */
  method SignUp(accounts: Accounts, signedIn: bool, email: string, d: SignUpData, fieldErrors: seq<FieldError>,
                now: Instant) returns (res: SignUpOutcome)
    requires accounts.Valid()
    modifies accounts`users, accounts`nextUser, accounts`tokens, accounts`nextToken
    ensures accounts.Valid()
    ensures signedIn ==> res == AlreadySignedIn
    ensures !signedIn ==> (res.SignUpRefused? <==> fieldErrors + SignUpErrors(d) != [])
    ensures res.SignUpRefused? ==> res.errors == fieldErrors + SignUpErrors(d)
    ensures !res.VerificationSent? ==> unchanged(accounts)
    ensures res.VerificationSent? ==>
      && res.user == old(accounts.nextUser)
      && accounts.users == old(accounts.users)[res.user := SignUpUser(email, d)]
      && accounts.tokens == old(accounts.tokens)[old(accounts.nextToken) := Token(res.user, now + TokenLifetime, Signup, false)]
  {
    if signedIn {
      return AlreadySignedIn;
    }
    var form := new UserSignUpForm(fieldErrors);
    form.Clean(d);
    if !form.IsValid() {
      return SignUpRefused(form.errors);
    }
    var k := accounts.AddUser(SignUpUser(email, d));
    var t := accounts.CreateToken(k, Signup, now);
    return VerificationSent(k);
  }

  // ---------------------------------------------------------------------
  // Login

  /** What `UserLoginView.post` does with the user the login form accepted:
      refusals are checked in order. */
  datatype LoginDecision = UseSuperadminPage | NotVerified | PendingApproval | Admit

  function LoginStep(u: User): (r: LoginDecision)
    ensures r == UseSuperadminPage <==> u.isSuperadmin
    ensures r == NotVerified <==> !u.isSuperadmin && !u.isVerified
    ensures r == PendingApproval <==> !u.isSuperadmin && u.isVerified && IsReseller(u) && !u.verifiedSeller
    ensures r == Admit ==> u.isVerified && (IsReseller(u) ==> u.verifiedSeller)
  {
    if u.isSuperadmin then UseSuperadminPage
    else if !u.isVerified then NotVerified
    else if IsReseller(u) && !u.verifiedSeller then PendingApproval
    else Admit
  }

  /** The login form (Django's `AuthenticationForm`) accepts `who` when the
      password is right and the account is active. */
  predicate LoginFormAccepts(users: map<UserKey, User>, who: Option<UserKey>, passwordOk: bool) {
    who.Some? && who.value in users && passwordOk && users[who.value].isActive
  }

  datatype LoginOutcome = LoginFormInvalid | Refused(reason: LoginDecision) | LoggedIn(user: UserKey) | Crashed

  /** `UserLoginView.post` as written: for an unverified user it calls
      `send_verification_email(user, 'signup')`, which lacks the `request`
      argument, so Python raises `TypeError` before any token is created. */
  function LoginAsWritten(users: map<UserKey, User>, who: Option<UserKey>, passwordOk: bool): (r: LoginOutcome)
    ensures r == LoginFormInvalid <==> !LoginFormAccepts(users, who, passwordOk)
  {
    if !LoginFormAccepts(users, who, passwordOk) then LoginFormInvalid
    else
      match LoginStep(users[who.value])
      case NotVerified => Crashed
      case Admit => LoggedIn(who.value)
      case other => Refused(other)
  }

  /** An active, unverified, non-superadmin user with the right password
      never gets a new link: the request fails instead. */
  lemma UnverifiedLoginCrashes(users: map<UserKey, User>, who: UserKey)
    requires who in users && users[who].isActive && !users[who].isVerified && !users[who].isSuperadmin
    ensures LoginAsWritten(users, Some(who), true) == Crashed
  {
  }

  /** `UserLoginView.post` as intended: the unverified user is refused and a
      new signup token is created for them. */
  method Login(accounts: Accounts, who: Option<UserKey>, passwordOk: bool, now: Instant) returns (r: LoginOutcome)
    requires accounts.Valid()
    modifies accounts`tokens, accounts`nextToken
    ensures accounts.Valid()
    ensures r == LoginFormInvalid <==> !LoginFormAccepts(accounts.users, who, passwordOk)
    ensures r != LoginFormInvalid ==> r == (if LoginStep(accounts.users[who.value]) == Admit then LoggedIn(who.value)
                                             else Refused(LoginStep(accounts.users[who.value])))
    ensures r != Crashed
    ensures r == Refused(NotVerified) ==>
      accounts.tokens == old(accounts.tokens)[old(accounts.nextToken) := Token(who.value, now + TokenLifetime, Signup, false)]
    ensures r != Refused(NotVerified) ==> unchanged(accounts)
  {
    if !LoginFormAccepts(accounts.users, who, passwordOk) {
      return LoginFormInvalid;
    }
    var step := LoginStep(accounts.users[who.value]);
    if step == Admit {
      return LoggedIn(who.value);
    }
    if step == NotVerified {
      var t := accounts.CreateToken(who.value, Signup, now);
    }
    return Refused(step);
  }

  /** Apart from the unverified case both agree. */
  lemma LoginAgreesOtherwise(users: map<UserKey, User>, who: Option<UserKey>, passwordOk: bool)
    requires LoginFormAccepts(users, who, passwordOk) ==> LoginStep(users[who.value]) != NotVerified
    ensures LoginAsWritten(users, who, passwordOk) != Crashed
  {
  }

  // ---------------------------------------------------------------------
  // Email verification

  /** `verify_email`'s test: unused and not expired, where a token expiring
      at exactly `now` still counts. */
  predicate VerifyAccepts(t: Token, now: Instant) {
    !(t.isUsed || t.expiresAt < now)
  }

  /** The view accepts what `is_valid` accepts, and also a token in its
      last instant. */
  lemma VerifyAcceptsBoundary(t: Token, now: Instant)
    ensures VerifyAccepts(t, now) <==> IsValid(t, now) || (!t.isUsed && t.expiresAt == now)
  {
  }

  datatype VerifyOutcome = SuperadminVerified | SignupVerified | InvalidLink

  /** `verify_email` for the token at `key`. An accepted token is marked used
      before its type is checked, so a password-reset token is consumed and
      then refused; the other two types verify and activate the user. */
  method VerifyEmail(accounts: Accounts, key: nat, now: Instant) returns (res: VerifyOutcome)
    requires accounts.Valid()
    modifies accounts`tokens, accounts`users
    ensures accounts.Valid()
    ensures key !in old(accounts.tokens) || !VerifyAccepts(old(accounts.tokens)[key], now) ==>
              res == InvalidLink && unchanged(accounts)
    ensures key in old(accounts.tokens) && VerifyAccepts(old(accounts.tokens)[key], now) ==>
      var t := old(accounts.tokens)[key];
      && accounts.tokens == old(accounts.tokens)[key := t.(isUsed := true)]
      && (res == SuperadminVerified <==> t.tokenType == SuperadminLogin)
      && (res == SignupVerified <==> t.tokenType == Signup)
      && (t.tokenType == PasswordReset ==> res == InvalidLink && accounts.users == old(accounts.users))
      && (t.tokenType != PasswordReset ==>
            accounts.users == old(accounts.users)[t.user := old(accounts.users)[t.user].(isVerified := true, isActive := true)])
  {
    if key !in accounts.tokens || !VerifyAccepts(accounts.tokens[key], now) {
      return InvalidLink;
    }
    var t := accounts.tokens[key];
    accounts.SetToken(key, t.(isUsed := true));
    if t.tokenType == PasswordReset {
      return InvalidLink;
    }
    var u := accounts.users[t.user];
    accounts.SetUser(t.user, u.(isVerified := true, isActive := true));
    res := if t.tokenType == SuperadminLogin then SuperadminVerified else SignupVerified;
  }

  // ---------------------------------------------------------------------
  // Password reset

  /** The lookup of `ResetPasswordView`: an unused password-reset token
      that has not expired (one expiring at `now` still counts). */
  predicate ResetUsable(t: Token, now: Instant) {
    t.tokenType == PasswordReset && !t.isUsed && !(t.expiresAt < now)
  }

  /** The token after the reset page was shown, as written: marked used. */
  function AfterResetGetAsWritten(t: Token, now: Instant): (r: Token)
    ensures r.user == t.user && r.expiresAt == t.expiresAt && r.tokenType == t.tokenType
  {
    if ResetUsable(t, now) then t.(isUsed := true) else t
  }

  datatype ResetPage = ShowResetForm | InvalidResetLink

  /** `ResetPasswordView.get` as written: a usable token is marked used
      before the form is shown. */
  method ResetGetAsWritten(accounts: Accounts, key: nat, now: Instant) returns (res: ResetPage)
    requires accounts.Valid()
    modifies accounts`tokens
    ensures accounts.Valid()
    ensures res == ShowResetForm <==> key in old(accounts.tokens) && ResetUsable(old(accounts.tokens)[key], now)
    ensures key in old(accounts.tokens) ==>
      accounts.tokens == old(accounts.tokens)[key := AfterResetGetAsWritten(old(accounts.tokens)[key], now)]
    ensures key !in old(accounts.tokens) ==> unchanged(accounts)
  {
    if key !in accounts.tokens || !ResetUsable(accounts.tokens[key], now) {
      return InvalidResetLink;
    }
    var t := accounts.tokens[key];
    accounts.SetToken(key, t.(isUsed := true));
    return ShowResetForm;
  }

  /** As written, the form the page shows can never be submitted: by the time
      of the POST the token is used (or was unusable already). */
  lemma {:induction false} ResetAfterGetRefused(t: Token, shown: Instant, submitted: Instant)
    requires shown <= submitted
    ensures !ResetUsable(AfterResetGetAsWritten(t, shown), submitted)
  {
  }

  /** `ResetPasswordView.get` as intended: the form is shown for a usable
      token and nothing is written. */
  method ResetGet(accounts: Accounts, key: nat, now: Instant) returns (res: ResetPage)
    ensures res == ShowResetForm <==> key in accounts.tokens && ResetUsable(accounts.tokens[key], now)
  {
    if key !in accounts.tokens || !ResetUsable(accounts.tokens[key], now) {
      return InvalidResetLink;
    }
    return ShowResetForm;
  }

  /** With the intended GET, a form shown for a usable token and submitted
      before it expires is accepted. */
  lemma ResetStaysUsable(t: Token, shown: Instant, submitted: Instant)
    requires ResetUsable(t, shown) && shown <= submitted <= t.expiresAt
    ensures ResetUsable(t, submitted)
  {
  }

  datatype ResetResult = PasswordChanged | ResetFormInvalid | ResetLinkInvalid

  /** `ResetPasswordView.post`: for a usable token and a valid form the new
      password is set and the token is marked used. */
  method ResetPost(accounts: Accounts, key: nat, now: Instant, formValid: bool, newPassword: string)
    returns (res: ResetResult)
    requires accounts.Valid()
    modifies accounts`users, accounts`tokens
    ensures accounts.Valid()
    ensures res == ResetLinkInvalid <==> !(key in old(accounts.tokens) && ResetUsable(old(accounts.tokens)[key], now))
    ensures res == ResetFormInvalid <==> key in old(accounts.tokens) && ResetUsable(old(accounts.tokens)[key], now) && !formValid
    ensures res != PasswordChanged ==> unchanged(accounts)
    ensures res == PasswordChanged ==>
      var t := old(accounts.tokens)[key];
      && accounts.users == old(accounts.users)[t.user := old(accounts.users)[t.user].(password := Some(newPassword))]
      && accounts.tokens == old(accounts.tokens)[key := t.(isUsed := true)]
  {
    if key !in accounts.tokens || !ResetUsable(accounts.tokens[key], now) {
      return ResetLinkInvalid;
    }
    if !formValid {
      return ResetFormInvalid;
    }
    var t := accounts.tokens[key];
    var u := accounts.users[t.user];
    accounts.SetUser(t.user, u.(password := Some(newPassword)));
    accounts.SetToken(key, t.(isUsed := true));
    return PasswordChanged;
  }

  /** A token that reset a password cannot reset it again. */
  lemma ResetIsOneTime(t: Token, now: Instant, later: Instant)
    ensures !ResetUsable(t.(isUsed := true), later)
  {
  }

  // ---------------------------------------------------------------------
  // User deletion

  /** `DeleteProtected` is the 500 that Django's `ProtectedError` becomes:
      orders name their buyer and sales their seller with `PROTECT`, so such a
      user cannot be deleted and the whole deletion is rolled back. */
  datatype DeleteOutcome = DeleteUnauthorized | UserNotFound | CannotDeleteSelf | DeleteProtected | UserDeleted

  /** `SuperadminUserDeleteView.post`: only a signed-in superadmin may delete,
      and never their own account. `referencedByOrderOrSale` says whether the
      target is the buyer of some order or the seller of some sale. */
  method DeleteUserAsSuperadmin(accounts: Accounts, requester: Option<UserKey>, target: UserKey,
                                referencedByOrderOrSale: bool)
    returns (res: DeleteOutcome)
    requires accounts.Valid()
    modifies accounts`users, accounts`tokens
    ensures accounts.Valid()
    ensures res == DeleteUnauthorized <==>
      !(requester.Some? && requester.value in old(accounts.users) && old(accounts.users)[requester.value].isSuperadmin)
    ensures res == UserDeleted <==>
      res != DeleteUnauthorized && target in old(accounts.users) && requester != Some(target) && !referencedByOrderOrSale
    ensures res == DeleteProtected <==>
      res != DeleteUnauthorized && target in old(accounts.users) && requester != Some(target) && referencedByOrderOrSale
    ensures requester == Some(target) ==> res != UserDeleted
    ensures res != UserDeleted ==> unchanged(accounts)
    ensures res == UserDeleted ==>
      && accounts.users == old(accounts.users) - {target}
      && (forall k :: k in accounts.tokens <==> k in old(accounts.tokens) && old(accounts.tokens)[k].user != target)
      && (forall k :: k in accounts.tokens ==> accounts.tokens[k] == old(accounts.tokens)[k])
  {
    if !(requester.Some? && requester.value in accounts.users && accounts.users[requester.value].isSuperadmin) {
      return DeleteUnauthorized;
    }
    if target !in accounts.users {
      return UserNotFound;
    }
    if requester == Some(target) {
      return CannotDeleteSelf;
    }
    if referencedByOrderOrSale {
      return DeleteProtected;
    }
    accounts.DeleteUser(target);
    return UserDeleted;
  }
}
