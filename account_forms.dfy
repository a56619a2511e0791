/** The account forms with logic of their own: the cross-field checks of
    `UserSignUpForm.clean` and the field set `UserProfileForm.__init__`
    builds. */
module AccountForms {
  import opened Common
  import opened AccountModels

  /** What `clean` reads from `cleaned_data`: a field that failed its own
      validation is absent (None). */
  datatype SignUpData = SignUpData(
    password1: Option<string>,
    password2: Option<string>,
    userType: Option<UserType>,
    country: Option<string>,
    city: Option<string>,
    streetNo: Option<string>,
    socialMediaLink: Option<string>)

  /** Python truthiness of an optional text: present and non-empty. */
  predicate Truthy(v: Option<string>) {
    v.Some? && v.value != ""
  }

  /** The fields a Reseller must fill in, in the order they are checked. */
  const ResellerRequired: seq<Field> := [CountryField, CityField, StreetNoField]

  /** `cleaned_data.get(field)` for an address field. */
  function AddressValue(d: SignUpData, f: Field): Option<string> {
    match f
    case CountryField => d.country
    case CityField => d.city
    case StreetNoField => d.streetNo
    case _ => None
  }

  /** The error the password check adds: only when both passwords are given
      and they differ. */
  function MismatchErrors(d: SignUpData): seq<FieldError> {
    if Truthy(d.password1) && Truthy(d.password2) && d.password1 != d.password2
    then [FieldError(Password2Field, PasswordMismatch)] else []
  }

  /** One error per empty field among `fs`, in order. */
  function AddressErrors(d: SignUpData, fs: seq<Field>): seq<FieldError>
    decreases |fs|
  {
    if fs == [] then []
    else
      var f := fs[|fs| - 1];
      AddressErrors(d, fs[..|fs| - 1]) + (if Truthy(AddressValue(d, f)) then [] else [FieldError(f, ResellerAddressRequired)])
  }

  /** Exactly the empty fields among `fs` have an error, each with the
      Reseller message. */
  lemma {:induction false} AddressErrorsExact(d: SignUpData, fs: seq<Field>)
    ensures var r := AddressErrors(d, fs);
      && (forall g :: g in ErrorFields(r) <==> g in fs && !Truthy(AddressValue(d, g)))
      && (forall i :: 0 <= i < |r| ==> r[i].message == ResellerAddressRequired)
    decreases |fs|
  {
    if fs != [] {
      var init := fs[..|fs| - 1];
      var f := fs[|fs| - 1];
      assert fs == init + [f];
      AddressErrorsExact(d, init);
      ErrorFieldsAppend(AddressErrors(d, init), if Truthy(AddressValue(d, f)) then [] else [FieldError(f, ResellerAddressRequired)]);
    }
  }

  /** The errors `UserSignUpForm.clean` adds: the password check, then, for
      a Reseller, the address checks. */
  function SignUpErrors(d: SignUpData): seq<FieldError> {
    MismatchErrors(d) + (if d.userType == Some(Reseller) then AddressErrors(d, ResellerRequired) else [])
  }

  /** A password mismatch is an error on 'password2' exactly when both
      passwords are given and differ; for a Reseller each empty address field
      has its own error; a Normal user gets none; the social media link is
      never required. */
  lemma SignUpErrorsExact(d: SignUpData)
    ensures (Password2Field in ErrorFields(SignUpErrors(d)))
              <==> (Truthy(d.password1) && Truthy(d.password2) && d.password1 != d.password2)
    ensures forall g :: g in ResellerRequired ==>
              (g in ErrorFields(SignUpErrors(d)) <==> d.userType == Some(Reseller) && !Truthy(AddressValue(d, g)))
    ensures forall g :: g in ErrorFields(SignUpErrors(d)) ==> g == Password2Field || g in ResellerRequired
    ensures d.userType != Some(Reseller) ==>
              forall i :: 0 <= i < |SignUpErrors(d)| ==> SignUpErrors(d)[i].field == Password2Field
  {
    var m := MismatchErrors(d);
    var r := SignUpErrors(d);
    var mismatch := Truthy(d.password1) && Truthy(d.password2) && d.password1 != d.password2;
    var fm := if mismatch then [Password2Field] else [];
    assert ErrorFields(m) == fm;
    if d.userType == Some(Reseller) {
      var a := AddressErrors(d, ResellerRequired);
      AddressErrorsExact(d, ResellerRequired);
      ErrorFieldsAppend(m, a);
      assert r == m + a;
      assert Password2Field !in ResellerRequired;
      assert Password2Field !in ErrorFields(a);
      assert Password2Field in ErrorFields(r) <==> mismatch;
      forall g
        ensures g in ErrorFields(r) <==> (mismatch && g == Password2Field) || (g in ResellerRequired && !Truthy(AddressValue(d, g)))
      {
        assert g in fm + ErrorFields(a) <==> g in fm || g in ErrorFields(a);
      }
    } else {
      assert r == m;
      assert Password2Field in ErrorFields(r) <==> mismatch;
      forall i | 0 <= i < |r| ensures r[i].field == Password2Field {
        assert ErrorFields(r)[i] == r[i].field;
      }
    }
  }

  /** A sign-up form after its fields were validated: their errors so far. */
  class UserSignUpForm {
    var errors: seq<FieldError>

    constructor (fieldErrors: seq<FieldError>)
      ensures errors == fieldErrors
    {
      errors := fieldErrors;
    }

    /** `clean`: the password check, then, for a Reseller, the loop over
        the address fields. */
    method Clean(d: SignUpData)
      modifies this`errors
      ensures errors == old(errors) + SignUpErrors(d)
    {
      if Truthy(d.password1) && Truthy(d.password2) && d.password1 != d.password2 {
        errors := errors + [FieldError(Password2Field, PasswordMismatch)];
      }
      if d.userType == Some(Reseller) {
        RequireAddress(d);
      }
    }

    /** The loop calling `add_error` for each empty address field. */
    method RequireAddress(d: SignUpData)
      modifies this`errors
      ensures errors == old(errors) + AddressErrors(d, ResellerRequired)
    {
      var i := 0;
      while i < |ResellerRequired|
        invariant 0 <= i <= |ResellerRequired|
        invariant errors == old(errors) + AddressErrors(d, ResellerRequired[..i])
      {
        var f := ResellerRequired[i];
        assert ResellerRequired[..i + 1][..i] == ResellerRequired[..i];
        if !Truthy(AddressValue(d, f)) {
          errors := errors + [FieldError(f, ResellerAddressRequired)];
        }
        i := i + 1;
      }
      assert ResellerRequired[..i] == ResellerRequired;
    }

    /** `is_valid()`. */
    function IsValid(): (r: bool)
      reads this
      ensures r <==> errors == []
    {
      errors == []
    }
  }

  /** The fields of `UserProfileForm`, by name. */
  datatype ProfileField = FirstNameInput | LastNameInput | PhoneInput | CountryInput | CityInput | StreetNoInput
                        | SocialMediaLinkInput

  /** `Meta.fields`, in order. */
  const ProfileMetaFields: seq<ProfileField> :=
    [FirstNameInput, LastNameInput, PhoneInput, CountryInput, CityInput, StreetNoInput, SocialMediaLinkInput]

  /** `del fields[f]`: the order of the others is kept. */
  function Without(fs: seq<ProfileField>, f: ProfileField): seq<ProfileField> {
    if fs == [] then []
    else (if fs[0] == f then [] else [fs[0]]) + Without(fs[1..], f)
  }

  lemma {:induction false} WithoutAbsent(fs: seq<ProfileField>, f: ProfileField)
    requires f !in fs
    ensures Without(fs, f) == fs
  {
    if fs != [] {
      WithoutAbsent(fs[1..], f);
    }
  }

  /** Deleting a field that occurs once removes exactly that occurrence. */
  lemma {:induction false} WithoutAt(a: seq<ProfileField>, f: ProfileField, b: seq<ProfileField>)
    requires f !in a && f !in b
    ensures Without(a + [f] + b, f) == a + b
  {
    if a == [] {
      assert (a + [f] + b)[1..] == b;
      WithoutAbsent(b, f);
    } else {
      assert (a + [f] + b)[1..] == a[1..] + [f] + b;
      WithoutAt(a[1..], f, b);
    }
  }

  /** The profile form of a user of type `userType`, as `__init__` leaves it. */
  class UserProfileForm {
    var fields: seq<ProfileField>
    /** 'country' has been replaced by a non-required choice of countries. */
    var countryIsChoice: bool

    /** A Normal user's form loses the four address fields; 'country' is then
        put back, at the end, as a choice field, so every form has one. */
    constructor (userType: Option<UserType>)
      ensures countryIsChoice && CountryInput in fields
      ensures userType == Some(Normal) ==> fields == [FirstNameInput, LastNameInput, PhoneInput, CountryInput]
      ensures userType != Some(Normal) ==> fields == ProfileMetaFields
    {
      var fs := ProfileMetaFields;
      if userType == Some(Normal) {
        var kept := [FirstNameInput, LastNameInput, PhoneInput];
        assert fs == kept + [CountryInput] + [CityInput, StreetNoInput, SocialMediaLinkInput];
        WithoutAt(kept, CountryInput, [CityInput, StreetNoInput, SocialMediaLinkInput]);
        fs := Without(fs, CountryInput);
        assert fs == kept + [CityInput] + [StreetNoInput, SocialMediaLinkInput];
        WithoutAt(kept, CityInput, [StreetNoInput, SocialMediaLinkInput]);
        fs := Without(fs, CityInput);
        assert fs == kept + [StreetNoInput] + [SocialMediaLinkInput];
        WithoutAt(kept, StreetNoInput, [SocialMediaLinkInput]);
        fs := Without(fs, StreetNoInput);
        assert fs == kept + [SocialMediaLinkInput] + [];
        WithoutAt(kept, SocialMediaLinkInput, []);
        fs := Without(fs, SocialMediaLinkInput);
      }
      if CountryInput !in fs {
        fs := fs + [CountryInput];
      }
      fields := fs;
      countryIsChoice := true;
    }
  }
}
