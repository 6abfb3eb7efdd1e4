/**
 * The effect of the authentication dialog wrapper (src/components/auth-dialog-wrapper.tsx):
 * once a session exists it closes the dialog, runs the pending post-login action and empties
 * the slot.
 */
module AuthDialogWrapper {
  import opened Common
  import opened AuthStore

  /** The store after one run of the effect, given whether a session exists. */
  function EffectStep(st: AuthState, signedIn: bool): (r: AuthState)
    ensures !signedIn ==> r == st
    ensures signedIn ==> !r.isOpen && r.postLoginAction == None && r.mode == st.mode
    ensures signedIn ==> r.executed == st.executed + (if st.postLoginAction.Some? then [st.postLoginAction.value] else [])
  {
    var closed := if st.isOpen && signedIn then st.(isOpen := false) else st;
    if signedIn && closed.postLoginAction.Some? then
      closed.(executed := closed.executed + [closed.postLoginAction.value], postLoginAction := None)
    else closed
  }

  /** A second run executes nothing more: the action runs once. */
  lemma EffectStepIdempotent(st: AuthState, signedIn: bool)
    ensures EffectStep(EffectStep(st, signedIn), signedIn) == EffectStep(st, signedIn)
  {
  }

  /** A stored action is executed exactly once, whatever number of times the effect runs after sign-in. */
  lemma {:induction false} ActionRunsOnce(st: AuthState, runs: nat)
    requires runs >= 1 && st.postLoginAction.Some?
    ensures Repeat(st, true, runs).executed == st.executed + [st.postLoginAction.value]
  {
    if runs > 1 {
      ActionRunsOnce(st, runs - 1);
      EffectStepIdempotent(Repeat(st, true, runs - 2), true);
      RepeatSettled(st, runs - 1);
    }
  }

  /** After the first run, further runs change nothing. */
  lemma {:induction false} RepeatSettled(st: AuthState, runs: nat)
    requires runs >= 1
    ensures Repeat(st, true, runs) == EffectStep(st, true)
  {
    if runs > 1 {
      RepeatSettled(st, runs - 1);
      EffectStepIdempotent(st, true);
    }
  }

  /** The effect run `runs` times in a row. */
  function Repeat(st: AuthState, signedIn: bool, runs: nat): AuthState
  {
    if runs == 0 then st else EffectStep(Repeat(st, signedIn, runs - 1), signedIn)
  }

  /** The effect on the store itself. */
  method RunEffect(store: AuthStore, signedIn: bool)
    modifies store
    ensures store.State() == EffectStep(old(store.State()), signedIn)
  {
    if store.isOpen && signedIn {
      store.CloseAuthDialog();
    }
    if signedIn && store.postLoginAction.Some? {
      store.ExecutePostLoginAction(store.postLoginAction.value);
      store.ClearPostLoginAction();
    }
  }
}
