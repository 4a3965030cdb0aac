/**
 * The password-update page reached from the reset e-mail. Its validator is the same five
 * checks as the sign-up page's, so the model shares `Auth.IsPasswordValid`.
 */
module UpdatePassword {
  import opened Auth

  /** The toast the page shows after its checks and the server's reply. */
  function UpdateToast(g: Gate, reply: Reply): (t: Toast)
    ensures IsError(t) <==> !(g == Proceed && reply.Done?)
    ensures g == WeakPassword ==> t == WeakPasswordToast
    ensures g == Mismatch ==> t == MismatchToast
  {
    match g
    case WeakPassword => WeakPasswordToast
    case Mismatch => MismatchToast
    case Proceed =>
      match reply
      case Done => PasswordUpdated
      case Failed(m) => UpdateFailed(m)
      case Crashed => UnexpectedError
  }

  /** The page's state: the two fields, `loading`, and the effects so far. */
  class UpdatePasswordPage {
    var password: string
    var confirmPassword: string
    var loading: bool
    /** The passwords sent to `updatePassword`, in order. */
    var updates: seq<string>
    var toasts: seq<Toast>
    var navigations: seq<string>

    constructor ()
      ensures password == "" && confirmPassword == "" && !loading
      ensures updates == [] && toasts == [] && navigations == []
    {
      password := "";
      confirmPassword := "";
      loading := false;
      updates := [];
      toasts := [];
      navigations := [];
    }

    /**
     * `handleSubmit`: the strength check, then the confirmation check, then the update;
     * the dashboard is opened only when the update returns no error.
     */
    method HandleSubmit(reply: Reply)
      modifies this
      ensures password == old(password) && confirmPassword == old(confirmPassword)
      ensures var g := PasswordGate(password, confirmPassword);
        && updates == old(updates) + (if g == Proceed then [password] else [])
        && toasts == old(toasts) + [UpdateToast(g, reply)]
        && navigations == old(navigations) + (if g == Proceed && reply.Done? then ["/dashboard"] else [])
      ensures !loading
    {
      loading := true;
      if !IsPasswordValid(password) {
        toasts := toasts + [WeakPasswordToast];
        loading := false;
        return;
      }
      if password != confirmPassword {
        toasts := toasts + [MismatchToast];
        loading := false;
        return;
      }
      updates := updates + [password];
      match reply {
        case Done =>
          toasts := toasts + [PasswordUpdated];
          navigations := navigations + ["/dashboard"];
        case Failed(m) =>
          toasts := toasts + [UpdateFailed(m)];
        case Crashed =>
          toasts := toasts + [UnexpectedError];
      }
      loading := false;
    }
  }

  /** A weak password is reported as weak even when the confirmation differs too. */
  lemma StrengthBeforeMismatch(password: string, confirmation: string)
    requires !IsPasswordValid(password)
    ensures UpdateToast(PasswordGate(password, confirmation), Done) == WeakPasswordToast
  {
  }
}
