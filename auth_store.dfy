/**
 * The authentication dialog store that the guards and the dialog wrapper share. Its source
 * (src/store/auth-store.ts) is not part of this model; the operations below are the ones the
 * callers use, with the behaviour their names and call sites give them: opening records the
 * mode and the single pending post-login action, closing hides the dialog, and clearing
 * empties the action slot. `executed` records the actions handed to the post-login runner.
 */
module AuthStore {
  import opened Common
  import opened AiTypes

  /** The dialog's initial tab: "signin" or "signup". */
  datatype AuthMode = SignIn | SignUp

  /** An action to run once the user has signed in: its type and payload. */
  datatype PostLoginAction = PostLoginAction(kind: string, data: Option<ThemeGenerationPayload>)

  /** A snapshot of the store. */
  datatype AuthState = AuthState(isOpen: bool, mode: AuthMode, postLoginAction: Option<PostLoginAction>, executed: seq<PostLoginAction>)

  class AuthStore {
    var isOpen: bool
    var mode: AuthMode
    var postLoginAction: Option<PostLoginAction>
    var executed: seq<PostLoginAction>

    function State(): AuthState
      reads this
    {
      AuthState(isOpen, mode, postLoginAction, executed)
    }

    constructor()
      ensures State() == AuthState(false, SignIn, None, [])
    {
      isOpen := false;
      mode := SignIn;
      postLoginAction := None;
      executed := [];
    }

    /** `openAuthDialog(mode, type?, data?)`: shows the dialog and overwrites the single action slot. */
    method OpenAuthDialog(m: AuthMode, actionType: Option<string>, data: Option<ThemeGenerationPayload>)
      modifies this
      ensures isOpen && mode == m && executed == old(executed)
      ensures postLoginAction == if actionType.Some? then Some(PostLoginAction(actionType.value, data)) else None
    {
      isOpen := true;
      mode := m;
      postLoginAction := if actionType.Some? then Some(PostLoginAction(actionType.value, data)) else None;
    }

    method CloseAuthDialog()
      modifies this
      ensures State() == old(State()).(isOpen := false)
    {
      isOpen := false;
    }

    method ClearPostLoginAction()
      modifies this
      ensures State() == old(State()).(postLoginAction := None)
    {
      postLoginAction := None;
    }

    /** `executePostLoginAction`: hands the action to the handler registered for its type. */
    method ExecutePostLoginAction(action: PostLoginAction)
      modifies this
      ensures State() == old(State()).(executed := old(executed) + [action])
    {
      executed := executed + [action];
    }
  }
}
