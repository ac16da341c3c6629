/**
 * The EC2 instance-metadata (IMDSv2) loader: a session token kept in a
 * sub-cache with a self-imposed expiry, then the role listing and the
 * role's credentials.
 */
module AwsImds {
  import opened Wrappers
  import opened Http
  import opened AwsCredential

  const TokenUrl := "http://169.254.169.254/latest/api/token"
  const CredentialsUrl := "http://169.254.169.254/latest/meta-data/iam/security-credentials/"

  /** The token lifetime asked of the service, in seconds (6 hours). */
  const TokenTtl: int := 21600
  /** How much earlier than the service the loader lets its token expire (10 minutes). */
  const TokenMargin: int := 600

  const TrustFailureCode := "AssumeRoleUnauthorizedAccess"
  const SuccessCode := "Success"

  /** A request as sent: method, URL and headers; the bodies are all empty. */
  datatype Request = Request(verb: Method, url: string, headers: seq<(string, string)>)

  /** The body of the credential endpoint, as deserialized (absent fields read as empty). */
  datatype MetadataCredentials = MetadataCredentials(
    accessKeyId: string,
    secretAccessKey: string,
    token: string,
    expiration: string,
    code: string,
    message: string)

  /** The JSON deserializer and `parse_rfc3339`; `None` is a parse error. */
  datatype ImdsParsers = ImdsParsers(
    json: string -> Option<MetadataCredentials>,
    rfc3339: string -> Option<int>)

  datatype ImdsError =
    | Transport
    | TokenRefused(body: string)
    | ListingRefused(body: string)
    | CredentialRefused(body: string)
    | MalformedJson(body: string)
    /** `AssumeRoleUnauthorizedAccess`: the role most likely lacks a trust relationship with EC2. */
    | MissingTrust(code: string, message: string)
    /** Any other code that is not `Success`. */
    | RetrievalFailed(code: string, message: string)
    | MalformedExpiration(expiration: string)

  /** The outcome of the discovery steps, with the requests they sent. */
  datatype Discovery = Discovery(result: Result<Option<Credential>, ImdsError>, sent: seq<Request>)

  /** The session-token PUT: zero-length body and the requested TTL. */
  function TokenRequest(): Request {
    Request(Put, TokenUrl, [("content-length", "0"), ("x-aws-ec2-metadata-token-ttl-seconds", "21600")])
  }

  /** A discovery GET carrying the session token. */
  function MetadataRequest(url: string, token: string): Request {
    Request(Get, url, [("x-aws-ec2-metadata-token", token)])
  }

  /** The expiry the sub-cache records for a token fetched at `fetchedAt`. */
  function TokenExpiry(fetchedAt: int): (e: int)
    ensures e == fetchedAt + 21000
  {
    fetchedAt + TokenTtl - TokenMargin
  }

  /**
   * The `Code` check on a deserialized credential body: the trust failure
   * first, then any code other than `Success`, else the credential with
   * its session token and parsed expiry.
   */
  function Classify(m: MetadataCredentials, rfc3339: string -> Option<int>): (r: Result<Option<Credential>, ImdsError>)
    ensures m.code == TrustFailureCode <==> r == Err(MissingTrust(m.code, m.message))
    ensures m.code != TrustFailureCode && m.code != SuccessCode <==> r == Err(RetrievalFailed(m.code, m.message))
    ensures m.code == SuccessCode && rfc3339(m.expiration).None? <==> r == Err(MalformedExpiration(m.expiration))
    ensures r.Ok? <==> m.code == SuccessCode && rfc3339(m.expiration).Some?
    ensures r.Ok? ==> r.value == Some(Credential(m.accessKeyId, m.secretAccessKey, Some(m.token), rfc3339(m.expiration)))
  {
    if m.code == TrustFailureCode then Err(MissingTrust(m.code, m.message))
    else if m.code != SuccessCode then Err(RetrievalFailed(m.code, m.message))
    else match rfc3339(m.expiration)
      case None => Err(MalformedExpiration(m.expiration))
      case Some(t) => Ok(Some(Credential(m.accessKeyId, m.secretAccessKey, Some(m.token), Some(t))))
  }

  /**
   * The steps of `load` after the session token: list the role, then fetch
   * its credentials; any non-200 status ends the flow with an error.
   */
  function Discover(token: string, listing: Io<Response>, credentials: Io<Response>, p: ImdsParsers): (d: Discovery)
    ensures 1 <= |d.sent| <= 2
    ensures d.sent[0] == MetadataRequest(CredentialsUrl, token)
    ensures listing.Failed? ==> d == Discovery(Err(Transport), d.sent[..1])
    ensures listing.Done? && !IsOk(listing.value.status) ==>
              d == Discovery(Err(ListingRefused(listing.value.body)), d.sent[..1])
    ensures listing.Done? && IsOk(listing.value.status) ==>
              d.sent[1..] == [MetadataRequest(CredentialsUrl + listing.value.body, token)]
    ensures listing.Done? && IsOk(listing.value.status) && credentials.Done? && !IsOk(credentials.value.status) ==>
              d.result == Err(CredentialRefused(credentials.value.body))
    ensures listing.Done? && IsOk(listing.value.status) && credentials.Failed? ==>
              d.result == Err(Transport)
    ensures listing.Done? && IsOk(listing.value.status) && credentials.Done? && IsOk(credentials.value.status)
            && p.json(credentials.value.body).None? ==>
              d.result == Err(MalformedJson(credentials.value.body))
    // Two 200 responses and a body that parses: the `Code` check decides, so
    // its distinct errors and its credential reach the caller unchanged.
    ensures listing.Done? && IsOk(listing.value.status) && credentials.Done? && IsOk(credentials.value.status)
            && p.json(credentials.value.body).Some? ==>
              d.result == Classify(p.json(credentials.value.body).value, p.rfc3339)
    ensures d.result.Ok? ==>
              && listing.Done? && IsOk(listing.value.status)
              && credentials.Done? && IsOk(credentials.value.status)
              && p.json(credentials.value.body).Some?
              && d.result == Classify(p.json(credentials.value.body).value, p.rfc3339)
  {
    var listReq := MetadataRequest(CredentialsUrl, token);
    match listing
    case Failed => Discovery(Err(Transport), [listReq])
    case Done(list) =>
      if !IsOk(list.status) then Discovery(Err(ListingRefused(list.body)), [listReq])
      else
        var profileName := list.body;
        var sent := [listReq, MetadataRequest(CredentialsUrl + profileName, token)];
        match credentials
        case Failed => Discovery(Err(Transport), sent)
        case Done(resp) =>
          if !IsOk(resp.status) then Discovery(Err(CredentialRefused(resp.body)), sent)
          else match p.json(resp.body)
            case None => Discovery(Err(MalformedJson(resp.body)), sent)
            case Some(m) => Discovery(Classify(m, p.rfc3339), sent)
  }

  /** A credential is produced only for code `Success`, and then it carries a session token and an expiry. */
  lemma DiscoverSuccess(token: string, listing: Io<Response>, credentials: Io<Response>, p: ImdsParsers)
    requires Discover(token, listing, credentials, p).result.Ok?
    ensures var m := p.json(credentials.value.body).value;
            && m.code == SuccessCode
            && Discover(token, listing, credentials, p).result.value
               == Some(Credential(m.accessKeyId, m.secretAccessKey, Some(m.token), p.rfc3339(m.expiration)))
            && p.rfc3339(m.expiration).Some?
  {
  }

  class IMDSv2Loader {
    /** The session-token sub-cache: the token and the instant it is treated as expired. */
    var token: string
    var expiresIn: int

    /** A loader whose sub-cache starts as `(token, expiresIn)`. */
    constructor (token: string, expiresIn: int)
      ensures this.token == token && this.expiresIn == expiresIn
    {
      this.token := token;
      this.expiresIn := expiresIn;
    }

    /**
     * `load_ec2_metadata_token`: reuse the cached token while its expiry is
     * after `now`; otherwise PUT for a new one and, on status 200, store it
     * with expiry `fetchedAt + 21600 - 600`, `fetchedAt` being the clock
     * reading after the response.
     */
    method LoadEc2MetadataToken(now: int, put: Io<Response>, fetchedAt: int) returns (r: Result<string, ImdsError>, sent: seq<Request>)
      modifies this
      ensures old(expiresIn) > now ==> r == Ok(old(token)) && sent == [] && unchanged(this)
      ensures old(expiresIn) <= now ==> sent == [TokenRequest()]
      ensures old(expiresIn) <= now && put.Failed? ==> r == Err(Transport) && unchanged(this)
      ensures old(expiresIn) <= now && put.Done? && !IsOk(put.value.status) ==>
                r == Err(TokenRefused(put.value.body)) && unchanged(this)
      ensures old(expiresIn) <= now && put.Done? && IsOk(put.value.status) ==>
                r == Ok(put.value.body) && token == put.value.body && expiresIn == TokenExpiry(fetchedAt)
    {
      if expiresIn > now {
        return Ok(token), [];
      }
      sent := [TokenRequest()];
      match put
      case Failed =>
        r := Err(Transport);
      case Done(resp) =>
        if !IsOk(resp.status) {
          r := Err(TokenRefused(resp.body));
        } else {
          token, expiresIn := resp.body, TokenExpiry(fetchedAt);
          r := Ok(resp.body);
        }
    }

    /**
     * `Load::load`: the session token, then discovery with it; an error at
     * the token step ends the flow before any discovery request.
     */
    method Load(now: int, put: Io<Response>, fetchedAt: int, listing: Io<Response>, credentials: Io<Response>, p: ImdsParsers)
      returns (r: Result<Option<Credential>, ImdsError>, sent: seq<Request>)
      modifies this
      ensures old(expiresIn) > now ==>
                Discovery(r, sent) == Discover(old(token), listing, credentials, p) && unchanged(this)
      ensures old(expiresIn) <= now && put.Done? && IsOk(put.value.status) ==>
                && |sent| >= 1
                && Discovery(r, sent[1..]) == Discover(put.value.body, listing, credentials, p)
                && sent[0] == TokenRequest()
                && token == put.value.body && expiresIn == TokenExpiry(fetchedAt)
      ensures old(expiresIn) <= now && !(put.Done? && IsOk(put.value.status)) ==>
                r.Err? && sent == [TokenRequest()] && unchanged(this)
    {
      var tok, tokenSent := LoadEc2MetadataToken(now, put, fetchedAt);
      if tok.Err? {
        return Err(tok.error), tokenSent;
      }
      var d := Discover(tok.value, listing, credentials, p);
      r, sent := d.result, tokenSent + d.sent;
      assert sent[|tokenSent|..] == d.sent;
    }
  }

  /**
   * Token reuse: two loads on a fresh loader whose first PUT succeeds, the
   * second within 21000 seconds of the first fetch, send exactly one PUT,
   * whatever the second call's PUT outcome and clock reading would be.
   */
  method TwoLoadsOnePut(
    expired: int, now1: int, put: Io<Response>, fetchedAt: int,
    now2: int, put2: Io<Response>, fetchedAt2: int,
    listing: Io<Response>, credentials: Io<Response>, p: ImdsParsers)
    returns (puts: nat)
    requires expired <= now1
    requires put.Done? && IsOk(put.value.status)
    requires now2 < fetchedAt + 21000
    ensures puts == 1
  {
    var loader := new IMDSv2Loader("", expired);
    var _, sent1 := loader.Load(now1, put, fetchedAt, listing, credentials, p);
    var _, sent2 := loader.Load(now2, put2, fetchedAt2, listing, credentials, p);
    puts := CountPuts(sent1 + sent2);
    CountPutsAppend(sent1, sent2);
    CountPutsDiscovery(sent1[1..], put.value.body, listing, credentials, p);
    assert sent1 == [sent1[0]] + sent1[1..];
    CountPutsAppend([sent1[0]], sent1[1..]);
    CountPutsDiscovery(sent2, put.value.body, listing, credentials, p);
  }

  /** The number of token PUTs among `sent`. */
  function CountPuts(sent: seq<Request>): nat {
    if sent == [] then 0 else (if sent[0].verb == Put then 1 else 0) + CountPuts(sent[1..])
  }

  lemma {:induction false} CountPutsAppend(a: seq<Request>, b: seq<Request>)
    ensures CountPuts(a + b) == CountPuts(a) + CountPuts(b)
  {
    if a == [] {
      assert a + b == b;
    } else {
      assert (a + b)[0] == a[0];
      assert (a + b)[1..] == a[1..] + b;
      CountPutsAppend(a[1..], b);
    }
  }

  /** Discovery only ever sends GETs. */
  lemma CountPutsDiscovery(sent: seq<Request>, token: string, listing: Io<Response>, credentials: Io<Response>, p: ImdsParsers)
    requires sent == Discover(token, listing, credentials, p).sent
    ensures CountPuts(sent) == 0
  {
    assert sent[0].verb == Get;
    if |sent| == 2 {
      assert sent[1..][0].verb == Get;
      assert sent[1..][1..] == [];
      assert CountPuts(sent[1..]) == 0;
    } else {
      assert sent[1..] == [];
    }
  }
}
