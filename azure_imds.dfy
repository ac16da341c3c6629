/**
 * The Azure managed-identity credential (`ImdsManagedIdentityCredential`):
 * builders that keep at most one identity selector, and the token request
 * they produce.
 */
module AzureImds {
  import opened Wrappers
  import opened Http

  const MsiApiVersion := "2019-08-01"
  const DefaultEndpoint := "http://169.254.169.254/metadata/identity/oauth2/token"

  /** The configuration fields, as one value. */
  datatype Settings = Settings(
    endpoint: Option<string>,
    secret: Option<string>,
    objectId: Option<string>,
    clientId: Option<string>,
    msiResId: Option<string>)

  /** The GET that `get_token` sends: endpoint, query items in order, and headers. */
  datatype TokenRequest = TokenRequest(endpoint: string, query: seq<(string, string)>, headers: map<string, string>)

  /** `MsiTokenResponse`, as deserialized. */
  datatype MsiTokenResponse = MsiTokenResponse(accessToken: string, tokenType: string, resource: string)

  datatype MsiError =
    | Transport
    /** A non-success status: the source aborts (panics) with the body. */
    | Fatal(status: int, body: string)
    | MalformedBody(body: string)

  /** How many of the three identity selectors are set. */
  function SelectorCount(s: Settings): (n: nat)
    ensures n <= 3
    ensures n == 0 <==> s.objectId.None? && s.clientId.None? && s.msiResId.None?
  {
    (if s.objectId.Some? then 1 else 0) + (if s.clientId.Some? then 1 else 0) + (if s.msiResId.Some? then 1 else 0)
  }

  /** The configuration invariant: the selectors are mutually exclusive. */
  predicate AtMostOneSelector(s: Settings) {
    SelectorCount(s) <= 1
  }

  /**
   * `req` is the request `get_token(resource)` builds from `s`: the endpoint
   * or its default; `api-version` and `resource` first, then the one
   * selector pair when exactly one selector is set and nothing otherwise;
   * header `metadata: true` always, and `x-identity-header` exactly when a
   * secret is configured, carrying it.
   */
  ghost predicate IsTokenRequest(s: Settings, resource: string, req: TokenRequest) {
    && req.endpoint == (if s.endpoint.Some? then s.endpoint.value else DefaultEndpoint)
    && 2 <= |req.query| <= 3
    && req.query[0] == ("api-version", MsiApiVersion)
    && req.query[1] == ("resource", resource)
    && (|req.query| == 3 <==> SelectorCount(s) == 1)
    && (|req.query| == 3 && s.objectId.Some? ==> req.query[2] == ("object_id", s.objectId.value))
    && (|req.query| == 3 && s.clientId.Some? ==> req.query[2] == ("client_id", s.clientId.value))
    && (|req.query| == 3 && s.msiResId.Some? ==> req.query[2] == ("msi_res_id", s.msiResId.value))
    && req.headers.Keys == {"metadata"} + (if s.secret.Some? then {"x-identity-header"} else {})
    && req.headers["metadata"] == "true"
    && (s.secret.Some? ==> req.headers["x-identity-header"] == s.secret.value)
  }

  /** Request construction is deterministic: the settings and the resource fix the request. */
  lemma TokenRequestDeterministic(s: Settings, resource: string, a: TokenRequest, b: TokenRequest)
    requires IsTokenRequest(s, resource, a) && IsTokenRequest(s, resource, b)
    ensures a == b
  {
  }

  class ImdsManagedIdentityCredential {
    var endpoint: Option<string>
    var secret: Option<string>
    var objectId: Option<string>
    var clientId: Option<string>
    var msiResId: Option<string>

    function View(): Settings
      reads this
    {
      Settings(endpoint, secret, objectId, clientId, msiResId)
    }

    /** `new`: nothing configured, so no selector either. */
    constructor ()
      ensures View() == Settings(None, None, None, None, None)
      ensures AtMostOneSelector(View())
    {
      endpoint, secret, objectId, clientId, msiResId := None, None, None, None, None;
    }

    method WithEndpoint(e: string)
      modifies this`endpoint
      ensures View() == old(View()).(endpoint := Some(e))
      ensures AtMostOneSelector(View()) == old(AtMostOneSelector(View()))
    {
      endpoint := Some(e);
    }

    method WithSecret(s: string)
      modifies this`secret
      ensures View() == old(View()).(secret := Some(s))
      ensures AtMostOneSelector(View()) == old(AtMostOneSelector(View()))
    {
      secret := Some(s);
    }

    /** `with_object_id`: sets the object id and discards the other two selectors. */
    method WithObjectId(id: string)
      modifies this`objectId, this`clientId, this`msiResId
      ensures View() == old(View()).(objectId := Some(id), clientId := None, msiResId := None)
      ensures SelectorCount(View()) == 1
    {
      objectId := Some(id);
      clientId := None;
      msiResId := None;
    }

    /** `with_client_id`: sets the client id and discards the other two selectors. */
    method WithClientId(id: string)
      modifies this`objectId, this`clientId, this`msiResId
      ensures View() == old(View()).(clientId := Some(id), objectId := None, msiResId := None)
      ensures SelectorCount(View()) == 1
    {
      clientId := Some(id);
      objectId := None;
      msiResId := None;
    }

    /** `with_identity`: sets the ARM resource id and discards the other two selectors. */
    method WithIdentity(id: string)
      modifies this`objectId, this`clientId, this`msiResId
      ensures View() == old(View()).(msiResId := Some(id), objectId := None, clientId := None)
      ensures SelectorCount(View()) == 1
    {
      msiResId := Some(id);
      objectId := None;
      clientId := None;
    }

    /** The request part of `get_token`: push the query items, insert the headers. */
    method BuildRequest(resource: string) returns (req: TokenRequest)
      ensures IsTokenRequest(View(), resource, req)
    {
      var msiEndpoint := if endpoint.Some? then endpoint.value else DefaultEndpoint;
      var queryItems := [("api-version", MsiApiVersion), ("resource", resource)];
      match (objectId, clientId, msiResId) {
        case (Some(o), None, None) => queryItems := queryItems + [("object_id", o)];
        case (None, Some(c), None) => queryItems := queryItems + [("client_id", c)];
        case (None, None, Some(m)) => queryItems := queryItems + [("msi_res_id", m)];
        case _ =>
      }
      var headers: map<string, string> := map[];
      headers := headers["metadata" := "true"];
      if secret.Some? {
        headers := headers["x-identity-header" := secret.value];
      }
      req := TokenRequest(msiEndpoint, queryItems, headers);
    }

    /**
     * `get_token`: send the request; a transport failure or a non-success
     * status yields no token, a success body is the token response.
     */
    method GetToken(resource: string, response: Io<Response>, json: string -> Option<MsiTokenResponse>)
      returns (r: Result<MsiTokenResponse, MsiError>, req: TokenRequest)
      ensures IsTokenRequest(View(), resource, req)
      ensures response.Failed? ==> r == Err(Transport)
      ensures response.Done? && !IsSuccess(response.value.status) ==>
                r == Err(Fatal(response.value.status, response.value.body))
      ensures response.Done? && IsSuccess(response.value.status) && json(response.value.body).None? ==>
                r == Err(MalformedBody(response.value.body))
      ensures r.Ok? <==> response.Done? && IsSuccess(response.value.status) && json(response.value.body).Some?
      ensures r.Ok? ==> r.value == json(response.value.body).value
    {
      req := BuildRequest(resource);
      match response
      case Failed =>
        r := Err(Transport);
      case Done(resp) =>
        if !IsSuccess(resp.status) {
          r := Err(Fatal(resp.status, resp.body));
        } else {
          match json(resp.body)
          case None => r := Err(MalformedBody(resp.body));
          case Some(token) => r := Ok(token);
        }
    }
  }

  /**
   * Selector exclusivity: configuring a client id after an object id gives
   * a request whose only selector is the client id.
   */
  method ClientIdAfterObjectId(objectId: string, clientId: string, resource: string) returns (req: TokenRequest)
    ensures req.query == [("api-version", MsiApiVersion), ("resource", resource), ("client_id", clientId)]
  {
    var cred := new ImdsManagedIdentityCredential();
    cred.WithObjectId(objectId);
    cred.WithClientId(clientId);
    req := cred.BuildRequest(resource);
  }
}
