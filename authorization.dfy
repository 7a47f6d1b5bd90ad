/**
 * The OAuth 2.0 implicit-grant result handling of RFC 6749 section 4.2.2
 * (`access_token`, `expires_in`) and section 4.2.2.1 (`error`,
 * `error_description`, `access_denied`), as pure transitions of the session:
 * each takes the session before the redirect result arrives and gives the
 * session after it together with the one listener call made (or the exception
 * thrown, or nothing at all).
 */
module Authorization {
  import opened Wrappers
  import opened JavaLang
  import opened Bundles
  import opened FamilyGraphErrors
  import opened Sessions
  import opened Requests

  /** `Activity.RESULT_OK` and `Activity.RESULT_CANCELED`. */
  const ResultOk: int := -1
  const ResultCanceled: int := 0

  const FailedToReceiveToken: string := "Failed to receive access token."

  /** Identity of the DialogListener object an application registered. */
  type ListenerId = nat

  /** `DialogError(description, errorCode, failingUrl)`, as constructed by the client. */
  datatype DialogError = DialogError(description: Option<string>, errorCode: int, failingUrl: Option<string>)

  /** One call on a DialogListener. */
  datatype DialogCall =
    | OnComplete(values: Extras)
    | OnFamilyGraphError(error: FamilyGraphError)
    | OnError(dialogError: DialogError)
    | OnCancel

  /** What handling a result amounts to: nothing, one call on one listener, or
      an exception escaping the handler before any listener is called. */
  datatype AuthOutcome = Ignored | Notified(listener: ListenerId, call: DialogCall) | Threw(fault: Fault)

  datatype Transition = Transition(session: Session, outcome: AuthOutcome)

  /** `mAuthDialogListener.<call>`: a listener that was never registered is null. */
  function Notify(listener: Option<ListenerId>, call: DialogCall): (o: AuthOutcome)
    ensures o.Notified? <==> listener.Some?
    ensures o.Notified? ==> o.listener == listener.value && o.call == call
    ensures o.Threw? ==> o.fault == NullPointer
  {
    if listener.Some? then Notified(listener.value, call) else Threw(NullPointer)
  }

  /** The success path shared by the login dialog and `authorizeCallback`:
      store the token, convert the lifetime, then report success if the session
      is now valid and "Failed to receive access token." otherwise. */
  function AcceptToken(s: Session, listener: Option<ListenerId>, token: Option<string>,
                       expiresIn: Option<string>, values: Extras, now: Long): (t: Transition)
  {
    match ExpiresInResult(s.expires, expiresIn, now)
    case Failure(f) => Transition(Session(token, s.expires), Threw(f))
    case Success(e) =>
      var next := Session(token, e);
      var call := if IsValid(next, now) then OnComplete(values) else OnFamilyGraphError(NewError(FailedToReceiveToken));
      Transition(next, Notify(listener, call))
  }

  /** The listener `startDialogAuth` gives the login dialog: completion goes
      through `AcceptToken`, every other call is forwarded as it is. */
  function DialogAuthResult(s: Session, listener: Option<ListenerId>, call: DialogCall, now: Long): (t: Transition) {
    match call
    case OnComplete(values) =>
      AcceptToken(s, listener, GetString(values, TokenKey), GetString(values, ExpiresKey), values, now)
    case _ => Transition(s, Notify(listener, call))
  }

  /** The error a successful redirect reports: `error_description`, or `error`
      when there is no description. */
  function RedirectError(data: Extras): (r: Option<string>) {
    var description := GetString(data, "error_description");
    if description.Some? then description else GetString(data, "error")
  }

  /** The errors treated as the user declining. */
  predicate IsDenial(error: string) {
    error == "access_denied" || error == "OAuthAccessDeniedException"
  }

  function ErrorMessage(error: string, description: Option<string>): (r: string) {
    if description.Some? then error + ":" + description.value else error
  }

  /** `authorizeCallback(requestCode, resultCode, data)`. */
  function AuthorizeCallback(s: Session, listener: Option<ListenerId>, activityCode: int,
                             requestCode: int, resultCode: int, data: Option<Extras>, now: Long): (t: Transition)
  {
    if requestCode != activityCode then Transition(s, Ignored)
    else if resultCode == ResultOk then
      match data
      case None => Transition(s, Threw(NullPointer))
      case Some(d) =>
        match RedirectError(d)
        case Some(error) =>
          if IsDenial(error) then Transition(s, Notify(listener, OnCancel))
          else
            var message := ErrorMessage(error, GetString(d, "error_description"));
            Transition(s, Notify(listener, OnFamilyGraphError(NewError(message))))
        case None =>
          AcceptToken(s, listener, GetString(d, TokenKey), GetString(d, ExpiresKey), d, now)
    else if resultCode == ResultCanceled then
      match data
      case Some(d) =>
        var e := DialogError(GetString(d, "error_description"), GetIntExtra(d, "error", -1), GetString(d, "failing_url"));
        Transition(s, Notify(listener, OnError(e)))
      case None => Transition(s, Notify(listener, OnCancel))
    else Transition(s, Ignored)
  }

  /** Storing a token ends in exactly one of: success reported with a session
      valid at `now`; "Failed to receive access token." with a session invalid
      at `now`; or a NumberFormatException with the token already stored and
      the expiry untouched. */
  lemma AcceptTokenDecides(s: Session, listener: ListenerId, token: Option<string>,
                           expiresIn: Option<string>, values: Extras, now: Long)
    ensures var t := AcceptToken(s, Some(listener), token, expiresIn, values, now);
      && t.session.token == token
      && (t.outcome == Notified(listener, OnComplete(values)) <==> t.outcome.Notified? && IsValid(t.session, now))
      && ((t.outcome == Notified(listener, OnFamilyGraphError(NewError(FailedToReceiveToken))))
          <==> (t.outcome.Notified? && !IsValid(t.session, now)))
      && (t.outcome.Threw? <==> ExpiresInResult(s.expires, expiresIn, now).Failure?)
      && (t.outcome.Threw? ==> t.outcome.fault == NumberFormat && t.session.expires == s.expires)
  {
  }

  /** A redirect with no token is never a success, whatever its lifetime. */
  lemma NoTokenNoSuccess(s: Session, listener: Option<ListenerId>, expiresIn: Option<string>, values: Extras, now: Long)
    ensures var t := AcceptToken(s, listener, None, expiresIn, values, now);
      !IsValid(t.session, now) && !(t.outcome.Notified? && t.outcome.call.OnComplete?)
  {
  }

  /** A success report always comes with a session valid at that instant, from
      the login dialog and from `authorizeCallback` alike. */
  lemma CompleteMeansValid(s: Session, listener: Option<ListenerId>, activityCode: int, requestCode: int,
                           resultCode: int, data: Option<Extras>, call: DialogCall, now: Long)
    ensures var t := DialogAuthResult(s, listener, call, now);
      t.outcome.Notified? && t.outcome.call.OnComplete? ==> IsValid(t.session, now)
    ensures var t := AuthorizeCallback(s, listener, activityCode, requestCode, resultCode, data, now);
      t.outcome.Notified? && t.outcome.call.OnComplete? ==> IsValid(t.session, now)
  {
  }

  /** A redirect carrying `access_token=T` and an `expires_in` that parses to a
      positive n which does not overflow completes the login with session
      (T, now + n*1000), and the values are handed to the listener unchanged. */
  lemma TokenRedirectCompletes(s: Session, listener: ListenerId, values: Extras, t: string,
                               lifetime: string, n: Long, now: Long)
    requires GetString(values, TokenKey) == Some(t)
    requires GetString(values, ExpiresKey) == Some(lifetime)
    requires ParseLong(lifetime) == Some(n) && n > 0 && IsLong(n * 1000) && IsLong(now + n * 1000)
    ensures DialogAuthResult(s, Some(listener), OnComplete(values), now)
            == Transition(Session(Some(t), now + n * 1000), Notified(listener, OnComplete(values)))
  {
    PositiveLifetimeValid(t, s.expires, lifetime, n, now);
  }

  /** The login dialog's error, provider-error and cancel calls reach the
      registered listener unchanged and leave the session alone. */
  lemma DialogFailuresForwarded(s: Session, listener: Option<ListenerId>, call: DialogCall, now: Long)
    requires !call.OnComplete?
    ensures DialogAuthResult(s, listener, call, now) == Transition(s, Notify(listener, call))
  {
  }

  /** A result for another request code, or with a result code other than OK or
      CANCELED, is ignored. */
  lemma ForeignResultIgnored(s: Session, listener: Option<ListenerId>, activityCode: int,
                             requestCode: int, resultCode: int, data: Option<Extras>, now: Long)
    requires requestCode != activityCode || (resultCode != ResultOk && resultCode != ResultCanceled)
    ensures AuthorizeCallback(s, listener, activityCode, requestCode, resultCode, data, now) == Transition(s, Ignored)
  {
  }

  /** Only a successful redirect without an error changes the session: errors,
      denials and cancellations leave it as it was. */
  lemma OnlyTokenRedirectChangesSession(s: Session, listener: Option<ListenerId>, activityCode: int,
                                        requestCode: int, resultCode: int, data: Option<Extras>, now: Long)
    requires AuthorizeCallback(s, listener, activityCode, requestCode, resultCode, data, now).session != s
    ensures requestCode == activityCode && resultCode == ResultOk
    ensures data.Some? && RedirectError(data.value).None?
  {
  }

  /** `error=access_denied` without a description is a cancellation, never an error. */
  lemma AccessDeniedIsCancel(s: Session, listener: ListenerId, activityCode: int, data: Extras, now: Long)
    requires GetString(data, "error_description").None?
    requires GetString(data, "error") == Some("access_denied")
    ensures AuthorizeCallback(s, Some(listener), activityCode, activityCode, ResultOk, Some(data), now)
            == Transition(s, Notified(listener, OnCancel))
  {
  }

  /** A description that is itself a denial token is a cancellation too. */
  lemma DeniedDescriptionIsCancel(s: Session, listener: ListenerId, activityCode: int, data: Extras, d: string, now: Long)
    requires GetString(data, "error_description") == Some(d) && IsDenial(d)
    ensures AuthorizeCallback(s, Some(listener), activityCode, activityCode, ResultOk, Some(data), now)
            == Transition(s, Notified(listener, OnCancel))
  {
  }

  /** When an `error_description` is present it is read in place of `error`:
      unless it is a denial token the result is a FamilyGraphError whose message
      is the description twice, joined by ':', whatever `error` says; in
      particular `error=access_denied` with a description is NOT a cancellation. */
  lemma DescriptionShadowsError(s: Session, listener: ListenerId, activityCode: int, data: Extras, d: string, now: Long)
    requires GetString(data, "error_description") == Some(d) && !IsDenial(d)
    ensures AuthorizeCallback(s, Some(listener), activityCode, activityCode, ResultOk, Some(data), now)
            == Transition(s, Notified(listener, OnFamilyGraphError(NewError(d + ":" + d))))
  {
  }

  /** Without a description, any error other than a denial token is reported
      as a FamilyGraphError carrying exactly the error code. */
  lemma PlainErrorReported(s: Session, listener: ListenerId, activityCode: int, data: Extras, e: string, now: Long)
    requires GetString(data, "error_description").None?
    requires GetString(data, "error") == Some(e) && !IsDenial(e)
    ensures AuthorizeCallback(s, Some(listener), activityCode, activityCode, ResultOk, Some(data), now)
            == Transition(s, Notified(listener, OnFamilyGraphError(NewError(e))))
  {
  }

  /** A successful redirect with no data throws before any listener is called. */
  lemma OkWithoutDataThrows(s: Session, listener: Option<ListenerId>, activityCode: int, now: Long)
    ensures AuthorizeCallback(s, listener, activityCode, activityCode, ResultOk, None, now)
            == Transition(s, Threw(NullPointer))
  {
  }

  /** A cancelled login with data is a DialogError built from the description,
      the integer `error` (default -1) and the failing URL; without data it is
      the user pressing back, a cancellation. */
  lemma CanceledRedirect(s: Session, listener: ListenerId, activityCode: int, data: Option<Extras>, now: Long)
    ensures var t := AuthorizeCallback(s, Some(listener), activityCode, activityCode, ResultCanceled, data, now);
      && t.session == s
      && (data.None? ==> t.outcome == Notified(listener, OnCancel))
      && (data.Some? ==>
            && t.outcome.Notified? && t.outcome.call.OnError?
            && t.outcome.call.dialogError.description == GetString(data.value, "error_description")
            && t.outcome.call.dialogError.failingUrl == GetString(data.value, "failing_url")
            && t.outcome.call.dialogError.errorCode == GetIntExtra(data.value, "error", -1))
  {
  }

  /** Every OK or CANCELED result for this client's request code reaches the
      registered listener exactly once, unless the redirect lacks its data or
      its lifetime is not a number. */
  lemma HandledResultNotifiesOnce(s: Session, listener: ListenerId, activityCode: int,
                                  resultCode: int, data: Option<Extras>, now: Long)
    requires resultCode == ResultOk || resultCode == ResultCanceled
    ensures var t := AuthorizeCallback(s, Some(listener), activityCode, activityCode, resultCode, data, now);
      || (t.outcome.Notified? && t.outcome.listener == listener)
      || (resultCode == ResultOk && data.None? && t.outcome == Threw(NullPointer))
      || (resultCode == ResultOk && data.Some? && t.outcome == Threw(NumberFormat))
  {
  }
}
