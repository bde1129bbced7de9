/** The sign-up, login and profile-completion screens of
    components/AuthScreens.tsx: their input guards, step transitions and the
    profile record the last one hands to the store. The authentication
    services they await are oracles: their answers arrive as parameters. */
module AuthScreens {
  import opened Types
  import opened Phone
  import Session

  // ---------------------------------------------------------------------------
  // Sign-up screen (email first)

  datatype SignUpStep = EmailStep | VerifyStep

  class SignUpScreen {
    var step: SignUpStep
    var email: string
    var loading: bool

    constructor ()
      ensures step == EmailStep && email == "" && !loading
    {
      step, email, loading := EmailStep, "", false;
    }

    /** The email field's change handler. */
    method EditEmail(value: string)
      modifies this
      ensures email == value && step == old(step) && loading == old(loading)
    {
      email := value;
    }

    /** Form submit on the email step: an address without `@` is ignored;
        otherwise the verification email is sent and the screen moves on. */
    method HandleSendEmail()
      requires step == EmailStep
      modifies this
      ensures '@' !in old(email) ==> step == EmailStep && email == old(email) && loading == old(loading)
      ensures '@' in old(email) ==> step == VerifyStep && email == old(email) && !loading
    {
      if '@' !in email {
        return;
      }
      loading := true;
      // the awaited sendEmailVerification(email) answer is not used
      loading := false;
      step := VerifyStep;
    }

    /** "I have verified": with the service's answer, either navigate to the
        profile form carrying the email, or stay. */
    method HandleVerified(verified: bool) returns (completeProfileFor: Option<string>)
      requires step == VerifyStep
      modifies this
      ensures completeProfileFor == if verified then Some(old(email)) else None
      ensures step == VerifyStep && email == old(email) && !loading
    {
      loading := true;
      loading := false;
      completeProfileFor := if verified then Some(email) else None;
    }

    /** "Resend": back to the email step, nothing else changes. */
    method Resend()
      requires step == VerifyStep
      modifies this
      ensures step == EmailStep && email == old(email) && loading == old(loading)
    {
      step := EmailStep;
    }
  }

  // ---------------------------------------------------------------------------
  // Login screen (existing users)

  datatype LoginStep = PhoneStep | OtpStep

  datatype Alert = AccountNotFound | InvalidCode

  /** What `signInWithPhoneNumber` answers. */
  datatype SignInResponse = SignInResponse(success: bool, verificationId: Option<string>)

  /** `res.success && res.verificationId`: the empty string does not count. */
  predicate IssuedVerification(res: SignInResponse)
    ensures IssuedVerification(res) ==> res.success
    ensures res.verificationId == Some("") ==> !IssuedVerification(res)
  {
    res.success && res.verificationId.Some? && res.verificationId.value != ""
  }

  /** Shortest phone the login form sends. */
  const MinPhoneLength: nat := 8

  /** Length of the SMS code the verify form accepts. */
  const CodeLength: nat := 6

  /** The mock `verifySmsCode` of services/auth.ts: one fixed code passes. */
  predicate MockVerifySmsCode(verificationId: string, code: string)
    ensures MockVerifySmsCode(verificationId, code) ==> |code| == CodeLength
  {
    code == "123456"
  }

  class LoginScreen {
    var step: LoginStep
    var phone: string
    var code: string
    var verificationId: string
    var loading: bool

    constructor ()
      ensures step == PhoneStep && phone == "" && code == "" && verificationId == "" && !loading
    {
      step, phone, code, verificationId, loading := PhoneStep, "", "", "", false;
    }

    method EditPhone(value: string)
      modifies this
      ensures phone == value
      ensures step == old(step) && code == old(code) && verificationId == old(verificationId) && loading == old(loading)
    {
      phone := value;
    }

    method EditCode(value: string)
      modifies this
      ensures code == value
      ensures step == old(step) && phone == old(phone) && verificationId == old(verificationId) && loading == old(loading)
    {
      code := value;
    }

    /** Form submit on the phone step. A phone shorter than eight characters
        is ignored. Otherwise `userExists` is the answer of `checkUserExists`;
        for a known user `response` is the answer of `signInWithPhoneNumber`,
        and the screen moves to the code step only when that answer succeeds
        with a verification id. An unknown user gets an alert. */
    method HandleSendCode(userExists: bool, response: SignInResponse) returns (alert: Option<Alert>)
      requires step == PhoneStep
      modifies this
      ensures phone == old(phone) && code == old(code)
      ensures |old(phone)| < MinPhoneLength ==>
        alert == None && step == PhoneStep && verificationId == old(verificationId) && loading == old(loading)
      ensures |old(phone)| >= MinPhoneLength ==> !loading
      ensures |old(phone)| >= MinPhoneLength ==> alert == if userExists then None else Some(AccountNotFound)
      ensures step == OtpStep <==> |old(phone)| >= MinPhoneLength && userExists && IssuedVerification(response)
      ensures step == OtpStep ==> verificationId == response.verificationId.value
      ensures step == PhoneStep ==> verificationId == old(verificationId)
    {
      alert := None;
      if |phone| < MinPhoneLength {
        return;
      }
      loading := true;
      if userExists {
        loading := false;
        if IssuedVerification(response) {
          verificationId := response.verificationId.value;
          step := OtpStep;
        }
      } else {
        loading := false;
        alert := Some(AccountNotFound);
      }
    }

    /** Form submit on the code step. A code whose length is not six is
        ignored. Otherwise `verified` is the answer of `verifySmsCode`: on
        success the login callback receives the phone, else an alert. */
    method HandleVerify(verified: bool) returns (loginWith: Option<string>, alert: Option<Alert>)
      requires step == OtpStep
      modifies this
      ensures step == OtpStep && phone == old(phone) && code == old(code) && verificationId == old(verificationId)
      ensures |old(code)| != CodeLength ==> loginWith == None && alert == None && loading == old(loading)
      ensures |old(code)| == CodeLength ==> !loading
      ensures loginWith.Some? <==> |old(code)| == CodeLength && verified
      ensures loginWith.Some? ==> loginWith.value == phone
      ensures alert.Some? <==> |old(code)| == CodeLength && !verified
      ensures alert.Some? ==> alert.value == InvalidCode
      ensures verified == MockVerifySmsCode(old(verificationId), old(code)) ==>
        (loginWith.Some? <==> old(code) == "123456")
    {
      loginWith, alert := None, None;
      if |code| != CodeLength {
        return;
      }
      loading := true;
      loading := false;
      if verified {
        loginWith := Some(phone);
      } else {
        alert := Some(InvalidCode);
      }
    }

    /** "Resend": back to the phone step, nothing else changes. */
    method Resend()
      requires step == OtpStep
      modifies this
      ensures step == PhoneStep
      ensures phone == old(phone) && code == old(code) && verificationId == old(verificationId) && loading == old(loading)
    {
      step := PhoneStep;
    }
  }

  // ---------------------------------------------------------------------------
  // Profile completion

  /** The profile form's state; `mobileNumber` is the phone typed there. */
  datatype ProfileForm = ProfileForm(
    title: Title,
    firstName: string,
    lastName: string,
    address: string,
    city: string,
    region: string,
    postcode: string,
    country: string,
    bankName: string,
    iban: string,
    email: string,
    mobileNumber: string)

  /** The form as first shown, with the email carried over from sign-up. */
  function InitialForm(email: string): (f: ProfileForm)
    ensures f.email == email && f.title == Mr && f.country == "Saudi Arabia"
    ensures !Validate(f)
  {
    ProfileForm(Mr, "", "", "", "", "", "", "Saudi Arabia", "", "", email, "")
  }

  /** The ten fields the form insists on; title and country are not among them. */
  function MandatoryFields(f: ProfileForm): seq<string>
  {
    [f.firstName, f.lastName, f.address, f.city, f.region, f.postcode,
     f.bankName, f.iban, f.email, f.mobileNumber]
  }

  /** The `name` attributes of the form's text inputs and its country select. */
  datatype FormField =
    | FirstName | LastName | Address | City | Region | Postcode | Country
    | BankName | Iban | Email | MobileNumber

  /** The value of the input named `field`. */
  function FieldValue(f: ProfileForm, field: FormField): string
  {
    match field
    case FirstName => f.firstName
    case LastName => f.lastName
    case Address => f.address
    case City => f.city
    case Region => f.region
    case Postcode => f.postcode
    case Country => f.country
    case BankName => f.bankName
    case Iban => f.iban
    case Email => f.email
    case MobileNumber => f.mobileNumber
  }

  /** `{ ...prev, [name]: value }` for one text field. */
  function SetField(f: ProfileForm, field: FormField, value: string): (r: ProfileForm)
    ensures FieldValue(r, field) == value
    ensures forall other :: other != field ==> FieldValue(r, other) == FieldValue(f, other)
    ensures r.title == f.title
  {
    match field
    case FirstName => f.(firstName := value)
    case LastName => f.(lastName := value)
    case Address => f.(address := value)
    case City => f.(city := value)
    case Region => f.(region := value)
    case Postcode => f.(postcode := value)
    case Country => f.(country := value)
    case BankName => f.(bankName := value)
    case Iban => f.(iban := value)
    case Email => f.(email := value)
    case MobileNumber => f.(mobileNumber := value)
  }

  /** Editing one field sets that field and no other: setting it back
      restores the form, and the title is never touched. */
  lemma SetFieldIsLocal(f: ProfileForm, field: FormField, value: string, other: FormField, otherValue: string)
    ensures SetField(f, field, value).title == f.title
    ensures field != other ==>
      SetField(SetField(f, field, value), other, otherValue) == SetField(SetField(f, other, otherValue), field, value)
    ensures SetField(SetField(f, field, value), field, otherValue) == SetField(f, field, otherValue)
    ensures SetField(SetField(f, field, value), field, FieldValue(f, field)) == f
  {
  }

  const MandatoryError: string := "All fields are mandatory."

  /** `validate`: the checks in the source's order. */
  function Validate(f: ProfileForm): (ok: bool)
    ensures ok <==> forall i :: 0 <= i < |MandatoryFields(f)| ==> MandatoryFields(f)[i] != ""
  {
    var m := MandatoryFields(f);
    assert m[0] == f.firstName && m[1] == f.lastName && m[2] == f.address && m[3] == f.city && m[4] == f.region;
    assert m[5] == f.postcode && m[6] == f.bankName && m[7] == f.iban && m[8] == f.email && m[9] == f.mobileNumber;
    if f.firstName == "" || f.lastName == "" then false
    else if f.address == "" || f.city == "" || f.region == "" || f.postcode == "" then false
    else if f.bankName == "" || f.iban == "" then false
    else if f.email == "" || f.mobileNumber == "" then false
    else true
  }

  /** Title and country never decide validity, and a fresh form is invalid. */
  lemma ValidateIgnoresTitleAndCountry(f: ProfileForm, title: Title, country: string, email: string)
    ensures Validate(f.(title := title, country := country)) == Validate(f)
    ensures !Validate(InitialForm(email))
  {
  }

  /** The record handed to the update callback: the form's fields, the
      display name, the phone and the KYC flag. */
  function ProfileUpdate(f: ProfileForm): (u: Patch)
    ensures u.phoneNumber == Some(f.mobileNumber) && u.kycVerified == Some(true)
    ensures u.name == Some(f.firstName + " " + f.lastName)
    ensures u.balance.None? && u.currency.None? && u.biometricEnabled.None?
    ensures u.language.None? && u.profileImage.None?
  {
    Patch(
      title := Some(f.title),
      firstName := Some(f.firstName),
      lastName := Some(f.lastName),
      name := Some(f.firstName + " " + f.lastName),
      email := Some(f.email),
      phoneNumber := Some(f.mobileNumber),
      kycVerified := Some(true),
      biometricEnabled := None,
      balance := None,
      currency := None,
      bankName := Some(f.bankName),
      iban := Some(f.iban),
      language := None,
      profileImage := None,
      address := Some(f.address),
      city := Some(f.city),
      region := Some(f.region),
      postcode := Some(f.postcode),
      country := Some(f.country))
  }

  /** Merged into any profile, the record sets the identity, contact,
      address and banking fields from the form and leaves the account's
      money, currency, biometric flag, language and picture alone. */
  lemma ProfileUpdateApplied(p: Profile, f: ProfileForm)
    ensures var q := Merge(p, ProfileUpdate(f));
      && q.name == f.firstName + " " + f.lastName
      && q.phoneNumber == f.mobileNumber
      && q.kycVerified
      && q.email == f.email
      && q.title == Some(f.title) && q.firstName == Some(f.firstName) && q.lastName == Some(f.lastName)
      && q.address == Some(f.address) && q.city == Some(f.city) && q.region == Some(f.region)
      && q.postcode == Some(f.postcode) && q.country == Some(f.country)
      && q.bankName == Some(f.bankName) && q.iban == Some(f.iban)
      && q.balance == p.balance && q.currency == p.currency
      && q.biometricEnabled == p.biometricEnabled
      && q.language == p.language && q.profileImage == p.profileImage
  {
  }

  /** What the submit handler calls, in order. */
  datatype Callback = LoginSuccess(phone: string) | UpdateUser(patch: Patch)

  class CompleteProfileScreen {
    var form: ProfileForm
    var loading: bool
    var error: string

    constructor (email: string)
      ensures form == InitialForm(email) && !loading && error == ""
    {
      form, loading, error := InitialForm(email), false, "";
    }

    /** `handleChange` for a text input or the country select. */
    method HandleChange(field: FormField, value: string)
      modifies this
      ensures form == SetField(old(form), field, value)
      ensures loading == old(loading) && error == old(error)
    {
      form := SetField(form, field, value);
    }

    /** `handleChange` for the title select, whose options are Mr and Mrs. */
    method SelectTitle(title: Title)
      modifies this
      ensures form == old(form).(title := title)
      ensures loading == old(loading) && error == old(error)
    {
      form := form.(title := title);
    }

    /** Submit: an invalid form sets the error and calls nothing; a valid
        one calls login with the mobile number, then the update callback
        with the record. A previous error message is not cleared. */
    method HandleSubmit() returns (calls: seq<Callback>)
      modifies this
      ensures form == old(form)
      ensures !Validate(form) ==> calls == [] && error == MandatoryError && loading == old(loading)
      ensures Validate(form) ==>
        calls == [LoginSuccess(form.mobileNumber), UpdateUser(ProfileUpdate(form))]
        && error == old(error) && !loading
    {
      if !Validate(form) {
        error := MandatoryError;
        return [];
      }
      loading := true;
      calls := [LoginSuccess(form.mobileNumber), UpdateUser(ProfileUpdate(form))];
      loading := false;
    }
  }

  /** The two calls of a valid submit, run against the store in order
      (taking `onLoginSuccess` to be the store's login and `onUpdateUser`
      its user update): the session ends up holding the form's data on top
      of the account found or created for the mobile number, stored under
      that number's key, and no other record appears. */
  lemma CompleteProfileLandsOnLoginAccount(s: Session.State, f: ProfileForm)
    requires Session.WellKeyed(s.db)
    ensures var l := Session.Login(s, f.mobileNumber);
      var r := Session.UpdateUser(l, ProfileUpdate(f));
      && l.user.Some? && r.user.Some?
      && r.user.value == Merge(l.user.value, ProfileUpdate(f))
      && r.user.value.name == f.firstName + " " + f.lastName
      && r.user.value.phoneNumber == f.mobileNumber
      && r.user.value.kycVerified
      && r.user.value.balance == l.user.value.balance
      && r.active == r.user
      && r.db.Keys == l.db.Keys
      && r.db[DbKey(f.mobileNumber)] == r.user.value
      && Session.Inv(r)
  {
    var l := Session.Login(s, f.mobileNumber);
    Session.LoginOpensAccountRecord(s, f.mobileNumber);
    ProfileUpdateApplied(l.user.value, f);
    Session.OperationsPreserveInvariant(l, "", Session.MockTransactions[0], 0, ProfileUpdate(f));
  }
}
