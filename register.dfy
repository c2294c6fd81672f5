/** The checks `handleRegister` runs before calling `signUp`
    (app/auth/register.tsx:20-47). */
module Register {
  import opened Wrappers

  /** The three alerts the screen can raise before signing up. */
  datatype RegisterError = MissingField | PasswordMismatch | PasswordTooShort {
    function Message(): string {
      match this
      case MissingField => "Lütfen tüm alanları doldurun."
      case PasswordMismatch => "Şifreler eşleşmiyor."
      case PasswordTooShort => "Şifre en az 6 karakter olmalıdır."
    }
  }

  /** The argument of `supabase.auth.signUp`: email and password, with the name as the
      `full_name` of the user metadata. */
  datatype SignUpRequest = SignUpRequest(email: string, password: string, fullName: string)

  const MinPasswordLength: nat := 6

  /** `handleRegister`: the first failing check, or the sign-up request. The
      emptiness check is on the raw strings, so white space alone passes it. */
  function HandleRegister(name: string, email: string, password: string, confirmPassword: string)
    : (r: Result<SignUpRequest, RegisterError>)
    ensures r.Success? <==>
      && name != [] && email != [] && password != [] && confirmPassword != []
      && password == confirmPassword && |password| >= MinPasswordLength
    ensures r.Success? ==> r.value == SignUpRequest(email, password, name)
    ensures r == Failure(MissingField) <==>
      name == [] || email == [] || password == [] || confirmPassword == []
    ensures r == Failure(PasswordMismatch) <==>
      && name != [] && email != [] && password != [] && confirmPassword != []
      && password != confirmPassword
    ensures r == Failure(PasswordTooShort) <==>
      && name != [] && email != [] && password != [] && confirmPassword != []
      && password == confirmPassword && |password| < MinPasswordLength
  {
    if name == [] || email == [] || password == [] || confirmPassword == [] then Failure(MissingField)
    else if password != confirmPassword then Failure(PasswordMismatch)
    else if |password| < MinPasswordLength then Failure(PasswordTooShort)
    else Success(SignUpRequest(email, password, name))
  }

  /** Every check the input fails, in the order the screen lists them, each judged on
      its own. */
  function Failures(name: string, email: string, password: string, confirmPassword: string)
    : seq<RegisterError>
  {
    (if name == [] || email == [] || password == [] || confirmPassword == [] then [MissingField] else [])
    + (if password != confirmPassword then [PasswordMismatch] else [])
    + (if |password| < MinPasswordLength then [PasswordTooShort] else [])
  }

  /** The screen reports exactly the first failing check, and signs up exactly when no
      check fails. */
  lemma FirstFailureReported(name: string, email: string, password: string, confirmPassword: string)
    ensures var fs := Failures(name, email, password, confirmPassword);
            var r := HandleRegister(name, email, password, confirmPassword);
            && (r.Success? <==> fs == [])
            && (r.Failure? ==> r.error == fs[0])
  {
  }
}
