/**
 * The client-side guards (src/hooks/use-guards.ts): a session guard that opens the sign-in
 * dialog, remembering what to do after signing in, and two subscription guards.
 */
module Guards {
  import opened Common
  import opened AiTypes
  import opened Procedures
  import opened AuthStore

  /** The subscription summary the subscription query returns. */
  datatype SubscriptionStatus = SubscriptionStatus(requestsUsed: int, requestsRemaining: int)

  /** The subscription query's state: still loading, and the status once known. */
  datatype SubscriptionQuery = SubscriptionQuery(isPending: bool, status: Option<SubscriptionStatus>)

  /**
   * `checkValidSession(mode = "signin", type?, data?)`: true exactly when a session exists;
   * otherwise the dialog is opened with the given mode and post-login action.
   */
  method CheckValidSession(auth: AuthStore, session: Option<UserSession>, mode: AuthMode := SignIn,
                           actionType: Option<string> := None, data: Option<ThemeGenerationPayload> := None)
    returns (ok: bool)
    modifies auth
    ensures ok <==> session.Some?
    ensures ok ==> auth.State() == old(auth.State())
    ensures !ok ==> (auth.isOpen && auth.mode == mode && auth.executed == old(auth.executed)
                     && auth.postLoginAction == (if actionType.Some? then Some(PostLoginAction(actionType.value, data)) else None))
  {
    if session.None? {
      auth.OpenAuthDialog(mode, actionType, data);
      return false;
    }
    return true;
  }

  /** `checkValidSubscription`: false while the query is pending or has no status. */
  function CheckValidSubscription(q: SubscriptionQuery): (ok: bool)
    ensures ok <==> !q.isPending && q.status.Some?
  {
    if q.isPending then false
    else if q.status.None? then false
    else true
  }

  /** `checkValidProSubscription`, written out separately in the source. */
  function CheckValidProSubscription(q: SubscriptionQuery): (ok: bool)
    ensures ok <==> !q.isPending && q.status.Some?
  {
    if q.isPending then false
    else if q.status.None? then false
    else true
  }

  /** The two subscription guards give the same answer for every query state. */
  lemma SubscriptionGuardsAgree(q: SubscriptionQuery)
    ensures CheckValidProSubscription(q) == CheckValidSubscription(q)
  {
  }
}
