/**
 * The sign-in / sign-up page: the password-strength validator and the order of the
 * checks its form submission makes before it calls the authentication hook.
 */
module Auth {
  import opened Wrappers
  import opened JsText

  /** The five checks of `validatePassword`, in the order `Object.values` lists them. */
  datatype PasswordChecks = PasswordChecks(
    minLength: bool,
    hasUpperCase: bool,
    hasLowerCase: bool,
    hasNumber: bool,
    hasSpecialChar: bool)

  /** The regular-expression class `[A-Z]`: ASCII capitals only. */
  predicate IsAsciiUpper(c: char) {
    'A' <= c <= 'Z'
  }

  /** The regular-expression class `[a-z]`: ASCII small letters only. */
  predicate IsAsciiLower(c: char) {
    'a' <= c <= 'z'
  }

  /** The characters of the class `[!@#$%^&*(),.?":{}|<>]`. */
  const SpecialChars: string := "!@#$%^&*(),.?\":{}|<>"

  predicate IsSpecial(c: char) {
    c in SpecialChars
  }

  /** The four one-character classes the validator's regular expressions test for. */
  datatype CharClass = UpperClass | LowerClass | DigitClass | SpecialClass

  predicate InClass(c: char, k: CharClass) {
    match k
    case UpperClass => IsAsciiUpper(c)
    case LowerClass => IsAsciiLower(c)
    case DigitClass => IsDigit(c)
    case SpecialClass => IsSpecial(c)
  }

  /** `/[...]/.test(p)` for a one-character class: scans p for a character of the class. */
  function Test(p: string, k: CharClass): (found: bool)
    ensures found <==> exists i :: 0 <= i < |p| && InClass(p[i], k)
  {
    if p == [] then false
    else if InClass(p[0], k) then true
    else
      assert forall i :: 1 <= i < |p| ==> p[i] == p[1..][i - 1];
      Test(p[1..], k)
  }

  /** `validatePassword`: length counts UTF-16 code units, like `password.length`. */
  function ValidatePassword(p: string): (v: PasswordChecks)
    ensures v.minLength <==> Utf16Length(p) >= 8
    ensures v.hasUpperCase <==> exists i :: 0 <= i < |p| && IsAsciiUpper(p[i])
    ensures v.hasLowerCase <==> exists i :: 0 <= i < |p| && IsAsciiLower(p[i])
    ensures v.hasNumber <==> exists i :: 0 <= i < |p| && IsDigit(p[i])
    ensures v.hasSpecialChar <==> exists i :: 0 <= i < |p| && IsSpecial(p[i])
  {
    PasswordChecks(
      Utf16Length(p) >= 8,
      Test(p, UpperClass),
      Test(p, LowerClass),
      Test(p, DigitClass),
      Test(p, SpecialClass))
  }

  /** `Object.values(validation)`. */
  function Values(v: PasswordChecks): seq<bool> {
    [v.minLength, v.hasUpperCase, v.hasLowerCase, v.hasNumber, v.hasSpecialChar]
  }

  /** `bs.every(Boolean)`. */
  function Every(bs: seq<bool>): (r: bool)
    ensures r <==> forall i :: 0 <= i < |bs| ==> bs[i]
  {
    if bs == [] then true
    else
      assert forall i :: 1 <= i < |bs| ==> bs[i] == bs[1..][i - 1];
      bs[0] && Every(bs[1..])
  }

  lemma EveryOfFive(a: bool, b: bool, c: bool, d: bool, e: bool)
    ensures Every([a, b, c, d, e]) <==> a && b && c && d && e
  {
    var bs := [a, b, c, d, e];
    assert bs[0] == a && bs[1] == b && bs[2] == c && bs[3] == d && bs[4] == e;
  }

  /** `isPasswordValid`: every one of the five checks passes. */
  function IsPasswordValid(p: string): (ok: bool)
    ensures var v := ValidatePassword(p);
      ok <==> v.minLength && v.hasUpperCase && v.hasLowerCase && v.hasNumber && v.hasSpecialChar
  {
    var v := ValidatePassword(p);
    EveryOfFive(v.minLength, v.hasUpperCase, v.hasLowerCase, v.hasNumber, v.hasSpecialChar);
    Every(Values(v))
  }

  /** The validator accepts exactly the passwords meeting all five requirements. */
  lemma PasswordValidIff(p: string)
    ensures IsPasswordValid(p) <==>
      Utf16Length(p) >= 8 &&
      (exists i :: 0 <= i < |p| && IsAsciiUpper(p[i])) &&
      (exists i :: 0 <= i < |p| && IsAsciiLower(p[i])) &&
      (exists i :: 0 <= i < |p| && IsDigit(p[i])) &&
      (exists i :: 0 <= i < |p| && IsSpecial(p[i]))
  {
  }

  lemma TestAppend(p: string, q: string, k: CharClass)
    requires Test(p, k)
    ensures Test(p + q, k)
  {
    var i :| 0 <= i < |p| && InClass(p[i], k);
    assert (p + q)[i] == p[i];
  }

  /** Appending characters to a valid password keeps it valid. */
  lemma {:induction false} ValidAppend(p: string, q: string)
    requires IsPasswordValid(p)
    ensures IsPasswordValid(p + q)
  {
    Utf16LengthAppend(p, q);
    TestAppend(p, q, UpperClass);
    TestAppend(p, q, LowerClass);
    TestAppend(p, q, DigitClass);
    TestAppend(p, q, SpecialClass);
  }

  /** Dash, underscore and space are not special characters. */
  lemma SeparatorsNotSpecial(p: string)
    requires forall i :: 0 <= i < |p| ==> IsAsciiUpper(p[i]) || IsAsciiLower(p[i]) || IsDigit(p[i]) ||
                                           p[i] == '-' || p[i] == '_' || p[i] == ' '
    ensures !IsPasswordValid(p)
  {
  }

  /** A password with accented capitals but no ASCII capital fails the upper-case check. */
  lemma AccentedCapitalsDoNotCount()
    ensures Utf16Length("senhaÇÃ1!") == 9
    ensures !IsPasswordValid("senhaÇÃ1!")
  {
    var p := "senhaÇÃ1!";
    assert forall i :: 0 <= i < |p| ==> !IsAsciiUpper(p[i]);
  }

  /** Eight code units is the shortest accepted length. */
  lemma LengthBoundary()
    ensures IsPasswordValid("Abcdef1!")
    ensures !IsPasswordValid("Abcde1!")
  {
    var p := "Abcdef1!";
    assert IsAsciiUpper(p[0]) && IsAsciiLower(p[1]) && IsDigit(p[6]) && IsSpecial(p[7]);
  }

  /** What the signup (and password-update) submission decides before calling the server. */
  datatype Gate = WeakPassword | Mismatch | Proceed

  /** Strength is checked first, then equality with the confirmation. */
  function PasswordGate(password: string, confirmation: string): (g: Gate)
    ensures g == WeakPassword <==> !IsPasswordValid(password)
    ensures g == Mismatch <==> IsPasswordValid(password) && password != confirmation
    ensures g == Proceed <==> IsPasswordValid(password) && password == confirmation
  {
    if !IsPasswordValid(password) then WeakPassword
    else if password != confirmation then Mismatch
    else Proceed
  }

  /**
   * How a call into the authentication hook ends: no error, an `{ error }` answer with
   * its message, or an exception (the `catch` branch).
   */
  datatype Reply = Done | Failed(message: string) | Crashed

  /** The toasts the two password pages show. */
  datatype Toast =
    | LoginSucceeded | LoginFailed(message: string)
    | WeakPasswordToast | MismatchToast
    | AccountCreated | SignupFailed(message: string)
    | PasswordUpdated | UpdateFailed(message: string)
    | UnexpectedError

  /** The error toasts, shown with the destructive variant: all but the three successes. */
  predicate IsError(t: Toast) {
    !(t.LoginSucceeded? || t.AccountCreated? || t.PasswordUpdated?)
  }

  function Title(t: Toast): string {
    match t
    case LoginSucceeded => "Login realizado com sucesso!"
    case LoginFailed(_) => "Erro no login"
    case WeakPasswordToast => "Senha fraca"
    case MismatchToast => "Erro"
    case AccountCreated => "Conta criada com sucesso!"
    case SignupFailed(_) => "Erro no cadastro"
    case PasswordUpdated => "Senha atualizada!"
    case UpdateFailed(_) => "Erro ao atualizar senha"
    case UnexpectedError => "Erro"
  }

  /** The description line: the server's message for a failed call. */
  function Description(t: Toast): (d: string)
    ensures t.LoginFailed? || t.SignupFailed? || t.UpdateFailed? ==> d == t.message
  {
    match t
    case LoginSucceeded => "Bem-vindo de volta!"
    case LoginFailed(m) => m
    case WeakPasswordToast => "A senha deve atender a todos os requisitos de segurança"
    case MismatchToast => "As senhas não coincidem"
    case AccountCreated => "Você já pode fazer login."
    case SignupFailed(m) => m
    case PasswordUpdated => "Sua senha foi alterada com sucesso."
    case UpdateFailed(m) => m
    case UnexpectedError => "Ocorreu um erro inesperado"
  }

  /** The toast the login branch shows for the server's reply. */
  function LoginToast(reply: Reply): (t: Toast)
    ensures IsError(t) <==> !reply.Done?
  {
    match reply
    case Done => LoginSucceeded
    case Failed(m) => LoginFailed(m)
    case Crashed => UnexpectedError
  }

  /** The toast the signup branch shows. */
  function SignupToast(g: Gate, reply: Reply): (t: Toast)
    ensures IsError(t) <==> !(g == Proceed && reply.Done?)
    ensures g == WeakPassword ==> t == WeakPasswordToast
    ensures g == Mismatch ==> t == MismatchToast
  {
    match g
    case WeakPassword => WeakPasswordToast
    case Mismatch => MismatchToast
    case Proceed =>
      match reply
      case Done => AccountCreated
      case Failed(m) => SignupFailed(m)
      case Crashed => UnexpectedError
  }

  /** A call the page makes into the authentication hook. */
  datatype Request =
    | SignIn(email: string, password: string, rememberMe: bool)
    | SignUp(email: string, password: string, fullName: string)

  /** The form's inputs. */
  datatype Fields = Fields(
    email: string,
    password: string,
    fullName: string,
    confirmPassword: string,
    rememberMe: bool)

  /**
   * The page's state: which tab is shown, the form's inputs, the `loading` flag, and the
   * calls, toasts and navigations made so far.
   */
  class AuthPage {
    var isLogin: bool
    var form: Fields
    var loading: bool
    var requests: seq<Request>
    var toasts: seq<Toast>
    var navigations: seq<string>

    constructor ()
      ensures isLogin && form == Fields("", "", "", "", false) && !loading
      ensures requests == [] && toasts == [] && navigations == []
    {
      isLogin := true;
      form := Fields("", "", "", "", false);
      loading := false;
      requests := [];
      toasts := [];
      navigations := [];
    }

    /** The login branch of `handleSubmit`: no strength check, straight to `signIn`. */
    method SubmitLogin(reply: Reply)
      modifies this
      ensures form == old(form) && isLogin == old(isLogin) && loading == old(loading)
      ensures requests == old(requests) + [SignIn(form.email, form.password, form.rememberMe)]
      ensures toasts == old(toasts) + [LoginToast(reply)]
      ensures navigations == old(navigations) + (if reply.Done? then ["/dashboard"] else [])
    {
      requests := requests + [SignIn(form.email, form.password, form.rememberMe)];
      match reply {
        case Done =>
          toasts := toasts + [LoginSucceeded];
          navigations := navigations + ["/dashboard"];
        case Failed(m) =>
          toasts := toasts + [LoginFailed(m)];
        case Crashed =>
          toasts := toasts + [UnexpectedError];
      }
    }

    /**
     * The signup branch of `handleSubmit`: the strength check, then the confirmation
     * check, then `signUp`; a created account switches the page to the login tab.
     */
    method SubmitSignup(reply: Reply)
      modifies this
      ensures form == old(form) && navigations == old(navigations) && !loading
      ensures requests == old(requests) +
        (if PasswordGate(form.password, form.confirmPassword) == Proceed then [SignUp(form.email, form.password, form.fullName)] else [])
      ensures toasts == old(toasts) + [SignupToast(PasswordGate(form.password, form.confirmPassword), reply)]
      ensures isLogin == (old(isLogin) || (PasswordGate(form.password, form.confirmPassword) == Proceed && reply.Done?))
    {
      if !IsPasswordValid(form.password) {
        toasts := toasts + [WeakPasswordToast];
        loading := false;
        return;
      }
      if form.password != form.confirmPassword {
        toasts := toasts + [MismatchToast];
        loading := false;
        return;
      }
      requests := requests + [SignUp(form.email, form.password, form.fullName)];
      match reply {
        case Done =>
          toasts := toasts + [AccountCreated];
          isLogin := true;
        case Failed(m) =>
          toasts := toasts + [SignupFailed(m)];
        case Crashed =>
          toasts := toasts + [UnexpectedError];
      }
      loading := false;
    }

    /** `handleSubmit`, with the server's reply as a parameter; `loading` ends false. */
    method HandleSubmit(reply: Reply)
      modifies this
      ensures form == old(form) && !loading
      ensures old(isLogin) ==>
        && requests == old(requests) + [SignIn(form.email, form.password, form.rememberMe)]
        && toasts == old(toasts) + [LoginToast(reply)]
        && navigations == old(navigations) + (if reply.Done? then ["/dashboard"] else [])
        && isLogin
      ensures !old(isLogin) ==>
        && requests == old(requests) +
             (if PasswordGate(form.password, form.confirmPassword) == Proceed then [SignUp(form.email, form.password, form.fullName)] else [])
        && toasts == old(toasts) + [SignupToast(PasswordGate(form.password, form.confirmPassword), reply)]
        && navigations == old(navigations)
        && (isLogin <==> PasswordGate(form.password, form.confirmPassword) == Proceed && reply.Done?)
    {
      loading := true;
      if isLogin {
        SubmitLogin(reply);
      } else {
        SubmitSignup(reply);
      }
      loading := false;
    }
  }
}
