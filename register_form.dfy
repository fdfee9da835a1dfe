/** The registration form's submit (Register.tsx): three checks in a fixed
    order, each ending the submit with its own alert, and the call to
    `onRegister` when all pass. */
module RegisterForm {

  /** The form's account kind. */
  datatype FormUserType = ClientType | FreelancerType

  /** What the form holds when it is submitted. */
  datatype RegisterFields = RegisterFields(
    name: string, email: string, password: string, confirmPassword: string, userType: FormUserType)

  /** The form as it first appears: every text field empty and the account
      kind on 'client'. */
  function InitialFields(): (f: RegisterFields)
    ensures f.name == "" && f.email == "" && f.password == "" && f.confirmPassword == ""
    ensures f.userType == ClientType
  {
    RegisterFields("", "", "", "", ClientType)
  }

  const FillAllMessage := "Please fill in all fields"
  const MismatchMessage := "Passwords do not match"
  const TooShortMessage := "Password must be at least 6 characters long"
  const MinPasswordLength := 6

  datatype SubmitOutcome =
    | Rejected(message: string)
    | Registered(name: string, email: string, password: string, userType: FormUserType)

  /** A JavaScript string's `length`: the number of UTF-16 code units, so a
      code point above U+FFFF (a surrogate pair) counts twice. */
  function Utf16Length(s: string): (n: nat)
    ensures |s| <= n <= 2 * |s|
  {
    if s == [] then 0
    else (if s[0] as int > 0xFFFF then 2 else 1) + Utf16Length(s[1..])
  }

  /** Text made only of Basic Multilingual Plane characters has one code
      unit per character. */
  lemma {:induction false} Utf16LengthBmp(s: string)
    requires forall i :: 0 <= i < |s| ==> s[i] as int <= 0xFFFF
    ensures Utf16Length(s) == |s|
  {
    if s != [] {
      Utf16LengthBmp(s[1..]);
    }
  }

  /** Text made only of characters above U+FFFF (emoji, for instance) has
      two code units per character. */
  lemma {:induction false} Utf16LengthAstral(s: string)
    requires forall i :: 0 <= i < |s| ==> s[i] as int > 0xFFFF
    ensures Utf16Length(s) == 2 * |s|
  {
    if s != [] {
      Utf16LengthAstral(s[1..]);
    }
  }

  /** A password of three or more characters above U+FFFF, such as three
      emoji, passes the 6-character check; the other checks passed, it
      registers. */
  lemma AstralPasswordPasses(name: string, email: string, password: string, userType: FormUserType)
    requires name != "" && email != "" && |password| >= 3
    requires forall i :: 0 <= i < |password| ==> password[i] as int > 0xFFFF
    ensures Utf16Length(password) >= MinPasswordLength
    ensures HandleSubmit(name, email, password, password, userType) == Registered(name, email, password, userType)
  {
    Utf16LengthAstral(password);
  }

  /** `handleSubmit`. */
  function HandleSubmit(name: string, email: string, password: string, confirm: string, userType: FormUserType)
    : (r: SubmitOutcome)
    ensures (name == "" || email == "" || password == "" || confirm == "") ==> r == Rejected(FillAllMessage)
    ensures name != "" && email != "" && password != "" && confirm != "" && password != confirm ==>
      r == Rejected(MismatchMessage)
    ensures name != "" && email != "" && password != "" && password == confirm && Utf16Length(password) < MinPasswordLength ==>
      r == Rejected(TooShortMessage)
    ensures r.Registered? <==>
      name != "" && email != "" && password == confirm && Utf16Length(password) >= MinPasswordLength
    ensures r.Registered? ==> r == Registered(name, email, password, userType)
  {
    if name == "" || email == "" || password == "" || confirm == "" then Rejected(FillAllMessage)
    else if password != confirm then Rejected(MismatchMessage)
    else if Utf16Length(password) < MinPasswordLength then Rejected(TooShortMessage)
    else Registered(name, email, password, userType)
  }

  /** Submitting the form as it first appears is refused for empty fields. */
  lemma InitialFieldsRefused()
    ensures var f := InitialFields();
      HandleSubmit(f.name, f.email, f.password, f.confirmPassword, f.userType) == Rejected(FillAllMessage)
  {
  }

  /** Filling in the text fields without touching the account kind registers
      a client. */
  lemma UntouchedKindRegistersClient(name: string, email: string, password: string)
    requires name != "" && email != "" && Utf16Length(password) >= MinPasswordLength
    ensures var f := InitialFields().(name := name, email := email, password := password, confirmPassword := password);
      HandleSubmit(f.name, f.email, f.password, f.confirmPassword, f.userType) == Registered(name, email, password, ClientType)
  {
  }
}
