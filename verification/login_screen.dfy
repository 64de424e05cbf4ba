/** screens/LoginScreen.js: the sign-in form and `handleLogin`. */
module LoginScreen {
  import opened Records
  import opened UseModal

  const ErrorTitle := "Hata"
  const EmptyFieldsMessage := "E-posta ve şifre alanları boş bırakılamaz"
  const LoginErrorTitle := "Giriş Hatası"
  const InvalidEmailCode := "auth/invalid-email"
  const UserNotFoundCode := "auth/user-not-found"
  const WrongPasswordCode := "auth/wrong-password"
  const InvalidEmailMessage := "Geçersiz e-posta formatı"
  const WrongCredentialsMessage := "E-posta veya şifre hatalı"

  /** The `switch` of lines 42-51: a known code gets its own message, any
      other error shows the message it came with. */
  function LoginErrorMessage(code: string, message: string): (r: string)
    ensures code == InvalidEmailCode ==> r == InvalidEmailMessage
    ensures code in {UserNotFoundCode, WrongPasswordCode} ==> r == WrongCredentialsMessage
    ensures code !in {InvalidEmailCode, UserNotFoundCode, WrongPasswordCode} ==> r == message
  {
    if code == InvalidEmailCode then InvalidEmailMessage
    else if code == UserNotFoundCode || code == WrongPasswordCode then WrongCredentialsMessage
    else message
  }

  /** An unknown account and a wrong password cannot be told apart. */
  lemma {:induction false} CredentialErrorsAlike(m1: string, m2: string)
    ensures LoginErrorMessage(UserNotFoundCode, m1) == LoginErrorMessage(WrongPasswordCode, m2)
  {
  }

  /** A sign-in request sent to Firebase authentication. */
  datatype SignIn = SignIn(email: string, password: string)

  class LoginForm {
    const modal: Modal
    var email: string
    var password: string
    var loading: bool
    /** Every sign-in request made, oldest first. */
    var signIns: seq<SignIn>

    constructor(m: Modal)
      ensures modal == m && email == "" && password == "" && !loading && signIns == []
    {
      modal := m;
      email := "";
      password := "";
      loading := false;
      signIns := [];
    }

    /** `handleLogin`, with the authentication call's outcome as a parameter.
        Only `===` against the empty string is tested, so a field of spaces
        goes through to Firebase. */
    method HandleLogin(outcome: AuthOutcome)
      modifies this, modal
      ensures email == old(email) && password == old(password)
      ensures (email == "" || password == "") ==>
        && signIns == old(signIns) && loading == old(loading)
        && modal.visible && modal.config == AlertConfig(ErrorTitle, EmptyFieldsMessage, Noop)
      ensures email != "" && password != "" ==>
        && signIns == old(signIns) + [SignIn(email, password)] && !loading
        && (outcome.AuthOk? ==> modal.visible == old(modal.visible) && modal.config == old(modal.config))
        && (outcome.AuthError? ==>
              && modal.visible
              && modal.config == AlertConfig(LoginErrorTitle, LoginErrorMessage(outcome.code, outcome.message), Noop))
    {
      if email == "" || password == "" {
        modal.ShowError(ErrorTitle, EmptyFieldsMessage, Noop);
        return;
      }
      loading := true;
      signIns := signIns + [SignIn(email, password)];
      if outcome.AuthError? {
        modal.ShowError(LoginErrorTitle, LoginErrorMessage(outcome.code, outcome.message), Noop);
      }
      loading := false;
    }
  }
}
