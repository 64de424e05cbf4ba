/** screens/SignupScreen.js: the registration form and `handleSignup`. */
module SignupScreen {
  import opened Text
  import opened Records
  import opened UseModal

  const ErrorTitle := "Hata"
  const FillAllMessage := "Lütfen tüm alanları doldurun"
  const MismatchMessage := "Şifreler eşleşmiyor"
  const TooShortMessage := "Şifre en az 6 karakter uzunluğunda olmalıdır"
  const MinPasswordLength := 6

  const SignupErrorTitle := "Kayıt Hatası"
  const EmailInUseCode := "auth/email-already-in-use"
  const InvalidEmailCode := "auth/invalid-email"
  const WeakPasswordCode := "auth/weak-password"
  const EmailInUseMessage := "Bu e-posta adresi zaten kullanımda"
  const InvalidEmailMessage := "Geçersiz e-posta formatı"
  const WeakPasswordMessage := "Şifre güvenli değil, güçlü bir şifre belirleyin"

  const SuccessTitle := "Kayıt Başarılı"
  const SuccessMessage := "Hesabınız başarıyla oluşturuldu!"
  /** The success dialog's button leads to the login screen. */
  const GoToLogin := Action("navigate Login")

  /** Lines 33-51: the first failing check names the problem; `None` means
      the form may be sent. */
  function SignupCheck(name: string, email: string, password: string, confirm: string): (r: Option<string>)
    ensures r == Some(FillAllMessage) <==> (name == "" || email == "" || password == "" || confirm == "")
    ensures r == Some(MismatchMessage) <==>
      (name != "" && email != "" && password != "" && confirm != "" && password != confirm)
    ensures r == Some(TooShortMessage) <==>
      (name != "" && email != "" && password != "" && password == confirm &&
       Utf16Length(password) < MinPasswordLength)
    ensures r.None? <==>
      (name != "" && email != "" && password == confirm && Utf16Length(password) >= MinPasswordLength)
  {
    if name == "" || email == "" || password == "" || confirm == "" then Some(FillAllMessage)
    else if password != confirm then Some(MismatchMessage)
    else if Utf16Length(password) < MinPasswordLength then Some(TooShortMessage)
    else None
  }

  /** Fields of spaces are not empty: with six of them in each field the
      form is sent. */
  lemma {:induction false} SpacesAreNotEmpty(blank: string, spaces: string)
    requires blank == " " && spaces == "      "
    ensures SignupCheck(blank, blank, spaces, spaces).None?
  {
    assert Utf16Length(spaces) == |spaces|;
  }

  /** A password of exactly six characters is long enough, five is not. */
  lemma {:induction false} LengthBoundary(name: string, email: string, password: string)
    requires name != "" && email != ""
    requires |password| == 6 || |password| == 5
    requires forall i :: 0 <= i < |password| ==> (password[i] as int) < 0x1_0000
    ensures SignupCheck(name, email, password, password).None? <==> |password| == 6
  {
  }

  /** The `switch` of lines 73-85: a known code gets its own message, any
      other error shows the message it came with. */
  function SignupErrorMessage(code: string, message: string): (r: string)
    ensures code == EmailInUseCode ==> r == EmailInUseMessage
    ensures code == InvalidEmailCode ==> r == InvalidEmailMessage
    ensures code == WeakPasswordCode ==> r == WeakPasswordMessage
    ensures code !in {EmailInUseCode, InvalidEmailCode, WeakPasswordCode} ==> r == message
  {
    if code == EmailInUseCode then EmailInUseMessage
    else if code == InvalidEmailCode then InvalidEmailMessage
    else if code == WeakPasswordCode then WeakPasswordMessage
    else message
  }

  /** A request sent to Firebase authentication. */
  datatype AuthCall = CreateUser(email: string, password: string) | SetDisplayName(name: string)

  class SignupForm {
    const modal: Modal
    var name: string
    var email: string
    var password: string
    var confirmPassword: string
    var loading: bool
    /** Every authentication request made, oldest first. */
    var calls: seq<AuthCall>

    constructor(m: Modal)
      ensures modal == m && name == "" && email == "" && password == "" && confirmPassword == ""
      ensures !loading && calls == []
    {
      modal := m;
      name := "";
      email := "";
      password := "";
      confirmPassword := "";
      loading := false;
      calls := [];
    }

    /** `handleSignup`, given what account creation and the display-name
        update give (the second is asked for only when the first succeeds). */
    method HandleSignup(created: AuthOutcome, named: AuthOutcome)
      modifies this, modal
      ensures name == old(name) && email == old(email)
      ensures password == old(password) && confirmPassword == old(confirmPassword)
      ensures modal.visible
      // a rejected form: nothing is sent and loading is left alone
      ensures SignupCheck(name, email, password, confirmPassword).Some? ==>
        && calls == old(calls) && loading == old(loading)
        && modal.config == AlertConfig(ErrorTitle, SignupCheck(name, email, password, confirmPassword).value, Noop)
      // an accepted form: the account is created, then named
      ensures SignupCheck(name, email, password, confirmPassword).None? ==>
        && !loading
        && calls == old(calls) + [CreateUser(email, password)] + (if created.AuthOk? then [SetDisplayName(name)] else [])
        && (created.AuthError? ==>
              modal.config == AlertConfig(SignupErrorTitle, SignupErrorMessage(created.code, created.message), Noop))
        && (created.AuthOk? && named.AuthError? ==>
              modal.config == AlertConfig(SignupErrorTitle, SignupErrorMessage(named.code, named.message), Noop))
        && (created.AuthOk? && named.AuthOk? ==>
              modal.config == AlertConfig(SuccessTitle, SuccessMessage, GoToLogin))
    {
      var problem := SignupCheck(name, email, password, confirmPassword);
      if problem.Some? {
        modal.ShowError(ErrorTitle, problem.value, Noop);
        return;
      }
      loading := true;
      calls := calls + [CreateUser(email, password)];
      var failure: AuthOutcome := created;
      if created.AuthOk? {
        calls := calls + [SetDisplayName(name)];
        failure := named;
      }
      if failure.AuthOk? {
        modal.ShowSuccess(SuccessTitle, SuccessMessage, GoToLogin);
      } else {
        modal.ShowError(SignupErrorTitle, SignupErrorMessage(failure.code, failure.message), Noop);
      }
      loading := false;
    }
  }
}
