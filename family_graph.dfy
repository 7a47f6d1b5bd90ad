/**
 * The FamilyGraph client object: its session fields, the requests and
 * dialogs it builds from them, and the handlers that turn an authorization
 * result into a session and one listener call.
 *
 * The network and URL encoding are parameters: `openUrl` stands for the
 * transport (a response body, or the exception it throws) and `encodeUrl` for
 * the query-string encoder; neither is specified further. The clock is `now`.
 */
module Client {
  import opened Wrappers
  import opened JavaLang
  import opened Bundles
  import opened FamilyGraphErrors
  import opened Sessions
  import opened Requests
  import opened Authorization

  /** What `Util.openUrl(url, method, params)` gives back. */
  datatype Response = Body(text: string) | Raised(fault: Fault)

  type Transport = (string, string, Extras) -> Response

  type Encoder = Extras -> string

  class FamilyGraph {
    var accessToken: Option<string>
    var accessExpires: Long
    var clientId: Option<string>
    /** Compared against by `authorizeCallback`; nothing ever assigns it. */
    var authActivityCode: int
    var authDialogListener: Option<ListenerId>

    function CurrentSession(): (r: Session)
      reads this
    {
      Session(accessToken, accessExpires)
    }

    predicate IsSessionValid(now: Long)
      reads this
    {
      IsValid(CurrentSession(), now)
    }

    /** The constructor once `clientId` is known to be non-null. */
    constructor (clientId: string)
      ensures this.clientId == Some(clientId)
      ensures CurrentSession() == NoSession
      ensures authActivityCode == 0 && authDialogListener == None
    {
      accessToken := None;
      accessExpires := 0;
      this.clientId := Some(clientId);
      authActivityCode := 0;
      authDialogListener := None;
    }

    /** `new FamilyGraph(clientId)`: a null id throws IllegalArgumentException;
        otherwise a client with that id and no session. */
    static method Create(clientId: Option<string>) returns (r: Result<FamilyGraph, Fault>)
      ensures r.Failure? <==> clientId.None?
      ensures r.Failure? ==> r.error == IllegalArgument
      ensures r.Success? ==> fresh(r.value) && r.value.clientId == clientId
                             && r.value.CurrentSession() == NoSession
                             && r.value.authActivityCode == 0 && r.value.authDialogListener == None
    {
      if clientId.None? {
        return Failure(IllegalArgument);
      }
      var fg := new FamilyGraph(clientId.value);
      r := Success(fg);
    }

    method SetAccessToken(token: Option<string>)
      modifies this`accessToken
      ensures accessToken == token
    {
      accessToken := token;
    }

    method SetAccessExpires(time: Long)
      modifies this`accessExpires
      ensures accessExpires == time
    {
      accessExpires := time;
    }

    method SetClientId(id: Option<string>)
      modifies this`clientId
      ensures clientId == id
    {
      clientId := id;
    }

    /** `setAccessExpiresIn(expiresIn)`: a NumberFormatException leaves the
        expiry as it was. */
    method SetAccessExpiresIn(expiresIn: Option<string>, now: Long) returns (thrown: Option<Fault>)
      modifies this`accessExpires
      ensures match ExpiresInResult(old(accessExpires), expiresIn, now)
              case Success(e) => thrown == None && accessExpires == e
              case Failure(f) => thrown == Some(f) && accessExpires == old(accessExpires)
    {
      if expiresIn.Some? {
        var expires: Long;
        if expiresIn.value == "0" {
          expires := 0;
        } else {
          var n := ParseLong(expiresIn.value);
          if n.None? {
            return Some(NumberFormat);
          }
          expires := Wrap64(now as int + Wrap64(n.value as int * 1000));
        }
        SetAccessExpires(expires);
      }
      thrown := None;
    }

    /** `logout(context)`: drops the session and reports "true". */
    method Logout() returns (r: string)
      modifies this`accessToken, this`accessExpires
      ensures CurrentSession() == NoSession && r == "true"
      ensures forall now: Long :: !IsSessionValid(now)
    {
      SetAccessToken(None);
      SetAccessExpires(0);
      r := "true";
    }

    /** `request(graphPath, params, httpMethod)`: writes `bearer_token` into the
        caller's params when the session is valid, then sends them to
        GRAPH_BASE_URL + graphPath. */
    method Request(graphPath: string, params: Bundle, httpMethod: string, now: Long, openUrl: Transport)
      returns (r: Response)
      modifies params
      ensures params.entries == WithBearer(old(params.entries), CurrentSession(), now)
      ensures r == openUrl(GraphBaseUrl + graphPath, httpMethod, params.entries)
    {
      if IsSessionValid(now) {
        params.PutString(BearerTokenKey, accessToken);
      }
      var url := GraphBaseUrl + graphPath;
      r := openUrl(url, httpMethod, params.entries);
    }

    /** `request(graphPath, parameters)`: a GET. */
    method RequestWithParams(graphPath: string, params: Bundle, now: Long, openUrl: Transport)
      returns (r: Response)
      modifies params
      ensures params.entries == WithBearer(old(params.entries), CurrentSession(), now)
      ensures r == openUrl(GraphBaseUrl + graphPath, "GET", params.entries)
    {
      r := Request(graphPath, params, "GET", now, openUrl);
    }

    /** `request(graphPath)`: a GET with no parameters but the bearer token. */
    method RequestPath(graphPath: string, now: Long, openUrl: Transport) returns (r: Response)
      ensures r == openUrl(GraphBaseUrl + graphPath, "GET", WithBearer(map[], CurrentSession(), now))
    {
      var params := new Bundle();
      r := Request(graphPath, params, "GET", now, openUrl);
    }

    /** `dialog(context, action, parameters, listener)`, up to the URL handed to
        the dialog: the OAuth keys and the bearer token are written into the
        caller's parameters. */
    method Dialog(action: string, parameters: Bundle, now: Long, encodeUrl: Encoder) returns (url: string)
      modifies parameters
      ensures parameters.entries == DialogParams(old(parameters.entries), clientId, CurrentSession(), now)
      ensures url == DialogUrl(action, encodeUrl(parameters.entries))
    {
      var endpoint := DialogBaseUrl + action;
      parameters.PutString("display", Some("touch"));
      parameters.PutString("redirect_uri", Some(RedirectUri));
      parameters.PutString("response_type", Some("token"));
      parameters.PutString("client_id", clientId);
      if IsSessionValid(now) {
        parameters.PutString(BearerTokenKey, accessToken);
      }
      url := endpoint + "?" + encodeUrl(parameters.entries);
    }

    /** `dialog(context, action, listener)`. */
    method DialogNoParams(action: string, now: Long, encodeUrl: Encoder) returns (url: string)
      ensures url == DialogUrl(action, encodeUrl(DialogParams(map[], clientId, CurrentSession(), now)))
    {
      var parameters := new Bundle();
      url := Dialog(action, parameters, now, encodeUrl);
    }

    /** `startDialogAuth(activity, permissions)`: the login dialog's URL. */
    method StartDialogAuth(permissions: seq<string>, now: Long, encodeUrl: Encoder) returns (url: string)
      ensures url == DialogUrl(LoginAction, encodeUrl(DialogParams(ScopeParams(permissions), clientId, CurrentSession(), now)))
    {
      var params := new Bundle();
      if |permissions| > 0 {
        params.PutString("scope", Some(JoinComma(permissions)));
      }
      url := Dialog(LoginAction, params, now, encodeUrl);
    }

    /** `authorize(activity, permissions, activityCode, listener)`: registers the
        listener and opens the login dialog; `activityCode` is not used. */
    method Authorize(permissions: seq<string>, activityCode: int, listener: ListenerId, now: Long, encodeUrl: Encoder)
      returns (url: string)
      modifies this`authDialogListener
      ensures authDialogListener == Some(listener)
      ensures url == DialogUrl(LoginAction, encodeUrl(DialogParams(ScopeParams(permissions), clientId, CurrentSession(), now)))
    {
      authDialogListener := Some(listener);
      url := StartDialogAuth(permissions, now, encodeUrl);
    }

    /** `authorize(activity, permissions, listener)`. */
    method AuthorizeWithPermissions(permissions: seq<string>, listener: ListenerId, now: Long, encodeUrl: Encoder)
      returns (url: string)
      modifies this`authDialogListener
      ensures authDialogListener == Some(listener)
      ensures url == DialogUrl(LoginAction, encodeUrl(DialogParams(ScopeParams(permissions), clientId, CurrentSession(), now)))
    {
      url := Authorize(permissions, DefaultAuthActivityCode, listener, now, encodeUrl);
    }

    /** `authorize(activity, listener)`: no permissions, so no `scope`. */
    method AuthorizeDefault(listener: ListenerId, now: Long, encodeUrl: Encoder) returns (url: string)
      modifies this`authDialogListener
      ensures authDialogListener == Some(listener)
      ensures url == DialogUrl(LoginAction, encodeUrl(DialogParams(map[], clientId, CurrentSession(), now)))
    {
      url := Authorize([], DefaultAuthActivityCode, listener, now, encodeUrl);
    }

    /** Storing a redirect's token and lifetime, then reporting to the
        registered listener. */
    method CompleteLogin(token: Option<string>, expiresIn: Option<string>, values: Extras, now: Long)
      returns (o: AuthOutcome)
      modifies this`accessToken, this`accessExpires
      ensures Transition(CurrentSession(), o)
              == AcceptToken(old(CurrentSession()), authDialogListener, token, expiresIn, values, now)
    {
      SetAccessToken(token);
      var thrown := SetAccessExpiresIn(expiresIn, now);
      if thrown.Some? {
        return Threw(thrown.value);
      }
      if IsSessionValid(now) {
        o := Notify(authDialogListener, OnComplete(values));
      } else {
        o := Notify(authDialogListener, OnFamilyGraphError(NewError(FailedToReceiveToken)));
      }
    }

    /** The listener `startDialogAuth` gives the login dialog, receiving `call`. */
    method OnDialogAuthResult(call: DialogCall, now: Long) returns (o: AuthOutcome)
      modifies this`accessToken, this`accessExpires
      ensures Transition(CurrentSession(), o) == DialogAuthResult(old(CurrentSession()), authDialogListener, call, now)
    {
      match call
      case OnComplete(values) =>
        o := CompleteLogin(GetString(values, TokenKey), GetString(values, ExpiresKey), values, now);
      case _ =>
        o := Notify(authDialogListener, call);
    }

    /** `authorizeCallback(requestCode, resultCode, data)`. */
    method AuthorizeCallback(requestCode: int, resultCode: int, data: Option<Extras>, now: Long)
      returns (o: AuthOutcome)
      modifies this`accessToken, this`accessExpires
      ensures Transition(CurrentSession(), o)
              == Authorization.AuthorizeCallback(old(CurrentSession()), authDialogListener, authActivityCode,
                                                 requestCode, resultCode, data, now)
    {
      o := Ignored;
      if requestCode == authActivityCode {
        if resultCode == ResultOk {
          if data.None? {
            return Threw(NullPointer);
          }
          var d := data.value;
          var error := GetString(d, "error_description");
          if error.None? {
            error := GetString(d, "error");
          }
          if error.Some? {
            if error.value == "access_denied" || error.value == "OAuthAccessDeniedException" {
              o := Notify(authDialogListener, OnCancel);
            } else {
              var message := error.value;
              var description := GetString(d, "error_description");
              if description.Some? {
                message := message + ":" + description.value;
              }
              o := Notify(authDialogListener, OnFamilyGraphError(NewError(message)));
            }
          } else {
            o := CompleteLogin(GetString(d, TokenKey), GetString(d, ExpiresKey), d, now);
          }
        } else if resultCode == ResultCanceled {
          if data.Some? {
            var d := data.value;
            var e := DialogError(GetString(d, "error_description"), GetIntExtra(d, "error", -1), GetString(d, "failing_url"));
            o := Notify(authDialogListener, OnError(e));
          } else {
            o := Notify(authDialogListener, OnCancel);
          }
        }
      }
    }
  }
}
