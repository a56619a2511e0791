/** Accounts: the `User` record, the one-time `EmailVerificationToken`, the
    user manager's `create_user` / `create_superuser`, and the table of users
    and tokens they write to. */
module AccountModels {
  import opened Common

  /** The fields of `User` the application reads or writes. `user_type` is a
      `CharField` without a default, so it may be blank (`None`). */
  datatype User = User(
    email: string,
    password: Option<string>,       // what `set_password` was given; hashing is not modelled
    userType: Option<UserType>,
    country: Option<string>,
    city: Option<string>,
    streetNo: Option<string>,
    socialMediaLink: Option<string>,
    verifiedSeller: bool,
    isVerified: bool,
    isActive: bool,
    isStaff: bool,
    isSuperadmin: bool)

  /** `user.user_type == 'Reseller'`. */
  predicate IsReseller(u: User) {
    u.userType == Some(Reseller)
  }

  /** The pricing a user gets: Reseller prices only for a Reseller account. */
  function PricingType(u: User): (r: UserType)
    ensures r == Reseller <==> IsReseller(u)
  {
    if IsReseller(u) then Reseller else Normal
  }

  /** The keyword arguments a caller may pass to the manager; `None` when not given. */
  datatype ExtraFields = ExtraFields(
    isStaff: Option<bool>,
    isSuperadmin: Option<bool>,
    isVerified: Option<bool>,
    userType: Option<UserType>,
    verifiedSeller: Option<bool>)

  const NoExtraFields := ExtraFields(None, None, None, None, None)

  /** A keyword argument, or the model field's default when it was not given. */
  function OrDefault(v: Option<bool>, default: bool): (r: bool)
    ensures v.Some? ==> r == v.value
    ensures v.None? ==> r == default
  {
    if v.Some? then v.value else default
  }

  /** Why the manager refuses to create a user. `EmailTaken` is the
      `IntegrityError` that `user.save()` raises for an email already stored:
      the field is `unique=True`. */
  datatype ManagerError = EmailNotSet | NotStaff | NotSuperadmin | EmailTaken

  /** Some stored user already has `email`. */
  predicate EmailInUse(users: map<UserKey, User>, email: string) {
    exists k :: k in users && users[k].email == email
  }

  /** `create_user` up to the save: refused for an empty email, otherwise a
      user with the given email and password, the given keyword arguments,
      and the model defaults for the rest (active, not verified, not staff,
      not a superadmin, not a verified seller, no address). */
  function NewUser(email: string, password: Option<string>, extra: ExtraFields): (r: Result<User, ManagerError>)
    ensures r.Failure? <==> email == ""
    ensures r.Failure? ==> r.error == EmailNotSet
    ensures r.Success? ==> r.value.email == email && r.value.password == password && r.value.isActive
    ensures r.Success? ==> (&& r.value.isStaff == OrDefault(extra.isStaff, false)
                            && r.value.isSuperadmin == OrDefault(extra.isSuperadmin, false)
                            && r.value.isVerified == OrDefault(extra.isVerified, false)
                            && r.value.verifiedSeller == OrDefault(extra.verifiedSeller, false)
                            && r.value.userType == extra.userType)
    ensures r.Success? ==> r.value.country.None? && r.value.city.None? && r.value.streetNo.None?
  {
    if email == "" then Failure(EmailNotSet)
    else Success(User(email, password, extra.userType, None, None, None, None,
                      OrDefault(extra.verifiedSeller, false), OrDefault(extra.isVerified, false), true,
                      OrDefault(extra.isStaff, false), OrDefault(extra.isSuperadmin, false)))
  }

  /** The `setdefault` calls and the two checks of `create_superuser`: each
      flag the caller left out becomes True (the type Reseller); a flag the
      caller set is kept, and an explicit False for staff or superadmin is
      refused, staff first. */
  function SuperuserFields(extra: ExtraFields): (r: Result<ExtraFields, ManagerError>)
    ensures r == Failure(NotStaff) <==> extra.isStaff == Some(false)
    ensures r == Failure(NotSuperadmin) <==> extra.isStaff != Some(false) && extra.isSuperadmin == Some(false)
    ensures r.Success? <==> extra.isStaff != Some(false) && extra.isSuperadmin != Some(false)
    ensures r.Success? ==> r.value.isStaff == Some(true) && r.value.isSuperadmin == Some(true)
    ensures r.Success? ==> (&& r.value.isVerified == Some(OrDefault(extra.isVerified, true))
                            && r.value.verifiedSeller == Some(OrDefault(extra.verifiedSeller, true))
                            && r.value.userType == Some(if extra.userType.Some? then extra.userType.value else Reseller))
  {
    var filled := ExtraFields(
      Some(OrDefault(extra.isStaff, true)),
      Some(OrDefault(extra.isSuperadmin, true)),
      Some(OrDefault(extra.isVerified, true)),
      Some(if extra.userType.Some? then extra.userType.value else Reseller),
      Some(OrDefault(extra.verifiedSeller, true)));
    if filled.isStaff != Some(true) then Failure(NotStaff)
    else if filled.isSuperadmin != Some(true) then Failure(NotSuperadmin)
    else Success(filled)
  }

  /** `create_superuser` up to the save: the superuser checks, then `create_user`. */
  function NewSuperuser(email: string, password: Option<string>, extra: ExtraFields): (r: Result<User, ManagerError>)
  {
    match SuperuserFields(extra)
    case Failure(e) => Failure(e)
    case Success(filled) => NewUser(email, password, filled)
  }

  /** Without keyword arguments, a superuser is a verified, active staff
      superadmin with a verified Reseller account; only an empty email is refused. */
  lemma SuperuserDefaults(email: string, password: Option<string>)
    ensures NewSuperuser(email, password, NoExtraFields).Success? <==> email != ""
    ensures var r := NewSuperuser(email, password, NoExtraFields);
            r.Success? ==> r.value.isStaff && r.value.isSuperadmin && r.value.isVerified && r.value.isActive
                           && r.value.verifiedSeller && IsReseller(r.value)
  {
  }

  /** Caller-supplied flags survive `create_superuser`, and the superuser
      checks come before the email check. */
  lemma SuperuserKeepsCallerFlags(email: string, password: Option<string>, extra: ExtraFields)
    ensures extra.isStaff == Some(false) ==> NewSuperuser(email, password, extra) == Failure(NotStaff)
    ensures var r := NewSuperuser(email, password, extra);
            r.Success? ==> r.value.isStaff && r.value.isSuperadmin
                           && (extra.isVerified.Some? ==> r.value.isVerified == extra.isVerified.value)
                           && (extra.verifiedSeller.Some? ==> r.value.verifiedSeller == extra.verifiedSeller.value)
                           && (extra.userType.Some? ==> r.value.userType == extra.userType)
  {
  }

  /** `EmailVerificationToken.TOKEN_TYPE_CHOICES`. */
  datatype TokenType = Signup | PasswordReset | SuperadminLogin

  /** A one-time link token (keyed in the table by its UUID). */
  datatype Token = Token(user: UserKey, expiresAt: Instant, tokenType: TokenType, isUsed: bool)

  /** How long a token lasts: `timedelta(days=1)`. */
  const TokenLifetime: int := SecondsPerDay

  /** `is_valid`: unused and expiring strictly after `now`. */
  function IsValid(t: Token, now: Instant): (r: bool)
    ensures r ==> !t.isUsed
    ensures !t.isUsed ==> (r <==> now < t.expiresAt)
  {
    !t.isUsed && t.expiresAt > now
  }

  /** The users and tokens tables. Keys are handed out in order; every token
      belongs to a stored user. */
  class Accounts {
    var users: map<UserKey, User>
    var tokens: map<nat, Token>
    var nextUser: UserKey
    var nextToken: nat

    ghost predicate Valid()
      reads this
    {
      && (forall k :: k in users ==> k < nextUser)
      && (forall k :: k in tokens ==> k < nextToken && tokens[k].user in users)
    }

    constructor ()
      ensures Valid() && users == map[] && tokens == map[]
    {
      users, tokens, nextUser, nextToken := map[], map[], 0, 0;
    }

    /** `user.save()` of a new user: it takes the next key. */
    method AddUser(u: User) returns (k: UserKey)
      requires Valid()
      modifies this`users, this`nextUser
      ensures Valid()
      ensures k == old(nextUser) && k !in old(users) && users == old(users)[k := u]
      ensures nextUser == old(nextUser) + 1
    {
      k := nextUser;
      users := users[k := u];
      nextUser := nextUser + 1;
    }

    /** `user.save()` of an existing user. */
    method SetUser(k: UserKey, u: User)
      requires Valid() && k in users
      modifies this`users
      ensures Valid()
      ensures users == old(users)[k := u]
    {
      users := users[k := u];
    }

    /** `create_user`: refused for an empty email, then by the save when the
        email is already stored; otherwise the new user is stored. */
    method CreateUser(email: string, password: Option<string>, extra: ExtraFields) returns (r: Result<UserKey, ManagerError>)
      requires Valid()
      modifies this`users, this`nextUser
      ensures Valid()
      ensures r == Failure(EmailNotSet) <==> email == ""
      ensures r == Failure(EmailTaken) <==> email != "" && EmailInUse(old(users), email)
      ensures r.Failure? ==> unchanged(this`users, this`nextUser)
      ensures r.Success? ==> r.value == old(nextUser) && users == old(users)[r.value := NewUser(email, password, extra).value]
      ensures r.Success? ==> !EmailInUse(old(users), email)
    {
      var u := NewUser(email, password, extra);
      if u.Failure? {
        return Failure(u.error);
      }
      if exists k :: k in users && users[k].email == email {
        return Failure(EmailTaken);
      }
      var k := AddUser(u.value);
      r := Success(k);
    }

    /** `create_superuser`: the superuser checks, then `create_user`. */
    method CreateSuperuser(email: string, password: Option<string>, extra: ExtraFields) returns (r: Result<UserKey, ManagerError>)
      requires Valid()
      modifies this`users, this`nextUser
      ensures Valid()
      ensures NewSuperuser(email, password, extra).Failure? ==> r == Failure(NewSuperuser(email, password, extra).error)
      ensures NewSuperuser(email, password, extra).Success? ==>
                (r == Failure(EmailTaken) <==> EmailInUse(old(users), email))
      ensures r.Failure? ==> unchanged(this`users, this`nextUser)
      ensures r.Success? ==> r.value == old(nextUser) && users == old(users)[r.value := NewSuperuser(email, password, extra).value]
      ensures r.Success? ==> !EmailInUse(old(users), email)
    {
      var fields := SuperuserFields(extra);
      if fields.Failure? {
        assert NewSuperuser(email, password, extra) == Failure(fields.error);
        return Failure(fields.error);
      }
      assert NewSuperuser(email, password, extra) == NewUser(email, password, fields.value);
      r := CreateUser(email, password, fields.value);
    }

    /** `EmailVerificationToken.objects.create`: an unused token of the given
        type for a stored user, expiring one day after `now`. */
    method CreateToken(user: UserKey, tokenType: TokenType, now: Instant) returns (key: nat)
      requires Valid() && user in users
      modifies this`tokens, this`nextToken
      ensures Valid()
      ensures key == old(nextToken) && key !in old(tokens)
      ensures tokens == old(tokens)[key := Token(user, now + TokenLifetime, tokenType, false)]
      ensures nextToken == old(nextToken) + 1
    {
      key := nextToken;
      tokens := tokens[key := Token(user, now + TokenLifetime, tokenType, false)];
      nextToken := nextToken + 1;
    }

    /** `token.save()` after an update that keeps its user. */
    method SetToken(key: nat, t: Token)
      requires Valid() && key in tokens && t.user == tokens[key].user
      modifies this`tokens
      ensures Valid()
      ensures tokens == old(tokens)[key := t]
    {
      tokens := tokens[key := t];
    }

    /** `user.delete()`: the user goes, and with it (by the cascading foreign
        key) every token of theirs. */
    method DeleteUser(k: UserKey)
      requires Valid()
      modifies this`users, this`tokens
      ensures Valid()
      ensures users == old(users) - {k}
      ensures forall key :: key in tokens <==> key in old(tokens) && old(tokens)[key].user != k
      ensures forall key :: key in tokens ==> tokens[key] == old(tokens)[key]
    {
      users := users - {k};
      tokens := map key | key in tokens && tokens[key].user != k :: tokens[key];
    }
  }
}
