/** The Register page's own rules: the password confirmation of the email
    form, the phone-number rule that reveals the one-time-password field, and
    how each form's values are passed to `register`. */
module Register {
  import opened Optional
  import opened UserTypes
  import opened AuthContext
  import opened Text

  datatype EmailValues = EmailValues(
    name: string, email: string, password: string, confirmPassword: string, role: UserRole)

  datatype PhoneValues = PhoneValues(name: string, phoneNumber: string, otp: string, role: UserRole)

  /** The arguments of one `register` call. */
  datatype RegisterCall = RegisterCall(userData: PartialUser, password: string)

  const PasswordMismatch := "Passwords do not match"
  const InvalidPhone := "Please enter a valid phone number"

  /** What `onEmailSubmit` passes to `register`: nothing when the passwords differ. */
  function EmailSubmitCall(d: EmailValues): (r: Option<RegisterCall>)
    ensures r.None? <==> d.password != d.confirmPassword
    ensures r.Some? ==> r.value.password == d.password
    ensures r.Some? ==> r.value.userData == PartialUser(Some(d.name), Some(d.email), None, Some(d.role), None, None, None)
  {
    if d.password != d.confirmPassword then None
    else Some(RegisterCall(PartialUser(Some(d.name), Some(d.email), None, Some(d.role), None, None, None), d.password))
  }

  /** What `onPhoneSubmit` passes to `register`: the code goes where the password would. */
  function PhoneSubmitCall(d: PhoneValues): (r: RegisterCall)
    ensures r.password == d.otp
    ensures r.userData == PartialUser(Some(d.name), None, Some(d.phoneNumber), Some(d.role), None, None, None)
  {
    RegisterCall(PartialUser(Some(d.name), None, Some(d.phoneNumber), Some(d.role), None, None, None), d.otp)
  }

  /** `requestOtp`'s rule: a phone string that is non-empty and at least ten
      JavaScript `length` units long, counted in UTF-16 code units. */
  predicate PhoneAccepted(phoneNumber: string) {
    !(phoneNumber == "" || Utf16Length(phoneNumber) < 10)
  }

  /** The phone is accepted iff its JavaScript length is at least ten; on text
      without characters above U+FFFF that is at least ten characters. */
  lemma PhoneAcceptedIffTenCodeUnits(phoneNumber: string)
    ensures PhoneAccepted(phoneNumber) <==> Utf16Length(phoneNumber) >= 10
    ensures (forall i :: 0 <= i < |phoneNumber| ==> phoneNumber[i] as int <= 0xFFFF) ==>
      (PhoneAccepted(phoneNumber) <==> |phoneNumber| >= 10)
  {
    if forall i :: 0 <= i < |phoneNumber| ==> phoneNumber[i] as int <= 0xFFFF {
      BmpUtf16Length(phoneNumber);
    }
  }

  /** Five characters above U+FFFF make a length of ten, which `requestOtp`'s rule accepts. */
  lemma FiveAstralCharactersAccepted()
    ensures |"\U{1F4DE}\U{1F4DE}\U{1F4DE}\U{1F4DE}\U{1F4DE}"| == 5
    ensures PhoneAccepted("\U{1F4DE}\U{1F4DE}\U{1F4DE}\U{1F4DE}\U{1F4DE}")
  {
    var s := "\U{1F4DE}\U{1F4DE}\U{1F4DE}\U{1F4DE}\U{1F4DE}";
    assert s[1..][1..][1..][1..][1..] == [];
  }

  /** Registering by phone never looks at the code: any code creates the same user. */
  lemma PhoneRegistrationIgnoresOtp(d: PhoneValues, otp: string, id: string)
    ensures NewUser(PhoneSubmitCall(d).userData, id) == NewUser(PhoneSubmitCall(d.(otp := otp)).userData, id)
  {
  }

  class RegisterPage {
    var showOtpInput: bool
    var confirmPasswordError: Option<string>
    var phoneNumberError: Option<string>

    constructor()
      ensures !showOtpInput && confirmPasswordError.None? && phoneNumberError.None?
    {
      showOtpInput := false;
      confirmPasswordError := None;
      phoneNumberError := None;
    }

    /** `onEmailSubmit`: a mismatch sets the error and stops; otherwise the user is registered. */
    method OnEmailSubmit(d: EmailValues, auth: AuthProvider, newId: string) returns (registered: bool)
      modifies this, auth
      ensures registered <==> d.password == d.confirmPassword
      ensures !registered ==> confirmPasswordError == Some(PasswordMismatch) && auth.authState == old(auth.authState)
      ensures registered ==> confirmPasswordError == old(confirmPasswordError)
      ensures registered ==> auth.authState == AuthState(Some(NewUser(EmailSubmitCall(d).value.userData, newId)), true, false)
      ensures showOtpInput == old(showOtpInput) && phoneNumberError == old(phoneNumberError)
    {
      if d.password != d.confirmPassword {
        confirmPasswordError := Some(PasswordMismatch);
        return false;
      }
      var call := EmailSubmitCall(d).value;
      auth.Register(call.userData, call.password, newId);
      registered := true;
    }

    /** `requestOtp`: a valid phone reveals the code field; nothing hides it again. */
    method RequestOtp(phoneNumber: string)
      modifies this
      ensures PhoneAccepted(phoneNumber) ==> showOtpInput && phoneNumberError == old(phoneNumberError)
      ensures !PhoneAccepted(phoneNumber) ==>
        showOtpInput == old(showOtpInput) && phoneNumberError == Some(InvalidPhone)
      ensures old(showOtpInput) ==> showOtpInput
      ensures confirmPasswordError == old(confirmPasswordError)
    {
      if phoneNumber == "" || Utf16Length(phoneNumber) < 10 {
        phoneNumberError := Some(InvalidPhone);
        return;
      }
      showOtpInput := true;
    }

    /** `onPhoneSubmit`, whose button exists only once the code field is shown. */
    method OnPhoneSubmit(d: PhoneValues, auth: AuthProvider, newId: string)
      requires showOtpInput
      modifies auth
      ensures auth.authState == AuthState(Some(NewUser(PhoneSubmitCall(d).userData, newId)), true, false)
      ensures auth.authState.user.value.phoneNumber == Some(d.phoneNumber)
    {
      var call := PhoneSubmitCall(d);
      auth.Register(call.userData, call.password, newId);
    }
  }
}
