/**
 * How the client turns a call into the parameters it sends: bearer-token
 * injection for Graph API requests, the four OAuth 2.0 keys forced into every
 * dialog (RFC 6749 section 4.2.1: `response_type=token`, `client_id`,
 * `redirect_uri`), and the comma-joined `scope` of the login dialog.
 */
module Requests {
  import opened Wrappers
  import opened JavaLang
  import opened Bundles
  import opened Sessions

  const RedirectUri: string := "urn:ietf:wg:oauth:2.0:oob"
  const TokenKey: string := "access_token"
  const BearerTokenKey: string := "bearer_token"
  const ExpiresKey: string := "expires_in"
  const LoginAction: string := "authorize"
  const DefaultAuthActivityCode: int := 32665
  const DialogBaseUrl: string := "https://accounts.myheritage.com/oauth2/"
  const GraphBaseUrl: string := "https://familygraph.myheritage.com/"

  /** The parameters after `if (isSessionValid()) params.putString(BEARER_TOKEN, token)`. */
  function WithBearer(params: Extras, s: Session, now: Long): (r: Extras) {
    if IsValid(s, now) then params[BearerTokenKey := Str(s.token.value)] else params
  }

  /** The parameters after the four `putString` calls that open `dialog`. */
  function WithOAuthKeys(params: Extras, clientId: Option<string>): (r: Extras) {
    params["display" := Str("touch")]
          ["redirect_uri" := Str(RedirectUri)]
          ["response_type" := Str("token")]
          ["client_id" := StringValue(clientId)]
  }

  /** Everything `dialog` writes into the caller's parameters. */
  function DialogParams(params: Extras, clientId: Option<string>, s: Session, now: Long): (r: Extras) {
    WithBearer(WithOAuthKeys(params, clientId), s, now)
  }

  function DialogUrl(action: string, encoded: string): (r: string) {
    DialogBaseUrl + action + "?" + encoded
  }

  /** `TextUtils.join(",", items)`. */
  function JoinComma(items: seq<string>): (r: string) {
    if |items| == 0 then ""
    else if |items| == 1 then items[0]
    else items[0] + "," + JoinComma(items[1..])
  }

  /** The parameters `startDialogAuth` starts from: a `scope` only when
      permissions were asked for. */
  function ScopeParams(permissions: seq<string>): (r: Extras) {
    if |permissions| > 0 then map["scope" := Str(JoinComma(permissions))] else map[]
  }

  /** With a valid session the request carries the session's token as
      `bearer_token`, replacing whatever the caller put there; without one the
      parameters are left exactly as the caller gave them. */
  lemma BearerIffValid(params: Extras, s: Session, now: Long)
    ensures IsValid(s, now) ==>
      BearerTokenKey in WithBearer(params, s, now) && WithBearer(params, s, now)[BearerTokenKey] == Str(s.token.value)
    ensures !IsValid(s, now) ==> WithBearer(params, s, now) == params
  {
  }

  /** Bearer injection touches no parameter but `bearer_token`. */
  lemma BearerKeepsOtherKeys(params: Extras, s: Session, now: Long, k: string)
    requires k != BearerTokenKey
    ensures k in WithBearer(params, s, now) <==> k in params
    ensures k in params ==> WithBearer(params, s, now)[k] == params[k]
  {
  }

  /** Injecting twice is injecting once. */
  lemma BearerIdempotent(params: Extras, s: Session, now: Long)
    ensures WithBearer(WithBearer(params, s, now), s, now) == WithBearer(params, s, now)
  {
  }

  /** Whatever the caller passed, a dialog carries `display=touch`, the
      out-of-band `redirect_uri`, `response_type=token` and the client's id;
      `bearer_token` is injected under the session rule; every other caller
      parameter is passed through unchanged. */
  lemma DialogParamsForced(params: Extras, clientId: Option<string>, s: Session, now: Long)
    ensures var r := DialogParams(params, clientId, s, now);
      && r["display"] == Str("touch")
      && r["redirect_uri"] == Str(RedirectUri)
      && r["response_type"] == Str("token")
      && r["client_id"] == StringValue(clientId)
      && (IsValid(s, now) ==> BearerTokenKey in r && r[BearerTokenKey] == Str(s.token.value))
      && (!IsValid(s, now) ==> (BearerTokenKey in r <==> BearerTokenKey in params))
      && (!IsValid(s, now) && BearerTokenKey in params ==> r[BearerTokenKey] == params[BearerTokenKey])
      && (forall k :: k in params && k !in {"display", "redirect_uri", "response_type", "client_id", BearerTokenKey}
                      ==> k in r && r[k] == params[k])
      && r.Keys == params.Keys + {"display", "redirect_uri", "response_type", "client_id"}
                   + (if IsValid(s, now) then {BearerTokenKey} else {})
  {
  }

  /** A `scope` parameter is sent exactly when permissions were requested. */
  lemma ScopeIffPermissions(permissions: seq<string>)
    ensures "scope" in ScopeParams(permissions) <==> |permissions| > 0
    ensures |permissions| > 0 ==> ScopeParams(permissions)["scope"] == Str(JoinComma(permissions))
    ensures |permissions| == 0 ==> ScopeParams(permissions) == map[]
  {
  }

  /** Splits at every comma: the reading a server gives a comma-joined list. */
  function SplitComma(s: string): (r: seq<string>)
    ensures |r| > 0
  {
    if |s| == 0 then [""]
    else
      var rest := SplitComma(s[1..]);
      if s[0] == ',' then [""] + rest else [[s[0]] + rest[0]] + rest[1..]
  }

  predicate NoCommas(items: seq<string>) {
    forall i :: 0 <= i < |items| ==> ',' !in items[i]
  }

  lemma {:induction false} SplitWithoutComma(a: string)
    requires ',' !in a
    ensures SplitComma(a) == [a]
  {
    if |a| > 0 {
      SplitWithoutComma(a[1..]);
      assert [a[0]] + a[1..] == a;
    }
  }

  lemma {:induction false} SplitAtFirstComma(a: string, b: string)
    requires ',' !in a
    ensures SplitComma(a + "," + b) == [a] + SplitComma(b)
  {
    var s := a + "," + b;
    if |a| == 0 {
      assert s[1..] == b;
    } else {
      assert s[1..] == a[1..] + "," + b;
      SplitAtFirstComma(a[1..], b);
      assert [a[0]] + a[1..] == a;
    }
  }

  /** The joined scope lists exactly the requested permissions, in order,
      provided none of them contains a comma. */
  lemma {:induction false} JoinCommaRoundTrip(items: seq<string>)
    requires |items| > 0 && NoCommas(items)
    ensures SplitComma(JoinComma(items)) == items
  {
    if |items| == 1 {
      SplitWithoutComma(items[0]);
    } else {
      assert ',' !in items[0];
      JoinCommaRoundTrip(items[1..]);
      SplitAtFirstComma(items[0], JoinComma(items[1..]));
      assert [items[0]] + items[1..] == items;
    }
  }
}
