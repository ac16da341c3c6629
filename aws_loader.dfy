/**
 * The AWS provider chain with its cache slot (`CredentialLoader`):
 * environment, then profile, then STS AssumeRoleWithWebIdentity with a
 * bounded retry loop.
 */
module AwsLoader {
  import opened Wrappers
  import opened Http
  import opened AwsCredential

  /** `ExponentialBackoff::with_max_times(4)` yields four delays. */
  const MaxRetries: nat := 4
  /** One first attempt plus one per delay. */
  const MaxAttempts: nat := MaxRetries + 1

  const StsEndpoint := "https://sts.amazonaws.com/"
  const StsVersion := "2011-06-15"
  const StsContentType := "application/x-www-form-urlencoded"

  /** What the config loader's accessors report for the key fields after one of its load steps. */
  datatype KeyFields = KeyFields(
    accessKeyId: Option<string>,
    secretAccessKey: Option<string>,
    sessionToken: Option<string>)

  /**
   * The `ConfigLoader` collaborator, as seen through its accessors:
   * the key fields after `load_via_env` and after `load_via_profile`,
   * and the web-identity fields.
   */
  datatype Config = Config(
    afterEnv: KeyFields,
    afterProfile: KeyFields,
    webIdentityTokenFile: Option<string>,
    roleArn: Option<string>,
    roleSessionName: string)

  /** An observable step a provider takes. */
  datatype Effect =
    | LoadEnvConfig                             // config_loader.load_via_env()
    | LoadProfileConfig                         // config_loader.load_via_profile()
    | ReadTokenFile(path: string)               // fs::read_to_string(token_file)
    | StsGet(url: string, contentType: string)  // the request to AWS STS
    | Backoff(retry: nat)                       // sleep before retry number `retry`

  /** What one provider (or the whole chain) returns, with the steps it took. */
  datatype Lookup = Lookup(cred: Option<Credential>, effects: seq<Effect>)

  /** `AssumeRoleWithWebIdentityResult.credentials`, as deserialized. */
  datatype StsCredentials = StsCredentials(
    accessKeyId: string,
    secretAccessKey: string,
    sessionToken: string,
    expiration: string)

  /** The per-attempt I/O of the web-identity step: the token-file read and the STS response. */
  datatype StsExchange = StsExchange(tokenFile: Io<string>, response: Io<Response>)

  /** The XML deserializer and `parse_rfc3339`; `None` is a parse error. */
  datatype StsParsers = StsParsers(
    xml: string -> Option<StsCredentials>,
    rfc3339: string -> Option<int>)

  datatype StsError =
    | TokenFileUnreadable
    | Transport
    | StatusFailed(body: string)
    | MalformedXml(body: string)
    | MalformedExpiration(expiration: string)
    | Incomplete

  /** One call of `load_via_assume_role_with_web_identity_inner`. */
  datatype Attempt = Attempt(outcome: Result<Option<Credential>, StsError>, effects: seq<Effect>)

  /** What the retry loop did: its result, how many inner attempts it made, and the steps taken. */
  datatype RetryRun = RetryRun(cred: Option<Credential>, attempts: nat, effects: seq<Effect>)

  /** `load_via_env` / `load_via_profile` after the config step: both keys are needed, the token is copied through. */
  function FromKeyFields(k: KeyFields): (r: Option<Credential>)
    ensures r.Some? <==> k.accessKeyId.Some? && k.secretAccessKey.Some?
    ensures r.Some? ==> && r.value.accessKeyId == k.accessKeyId.value
                        && r.value.secretAccessKey == k.secretAccessKey.value
                        && r.value.sessionToken == k.sessionToken
                        && r.value.expiresIn.None?
  {
    match (k.accessKeyId, k.secretAccessKey)
    case (Some(ak), Some(sk)) => Some(Credential(ak, sk, k.sessionToken, None))
    case _ => None
  }

  /** The STS request URL, parameters in the order the source writes them. */
  function StsUrl(roleArn: string, token: string, roleSessionName: string): string {
    StsEndpoint + "?Action=AssumeRoleWithWebIdentity&RoleArn=" + roleArn
      + "&WebIdentityToken=" + token + "&Version=" + StsVersion
      + "&RoleSessionName=" + roleSessionName
  }

  /** `load_via_assume_role_with_web_identity_inner` over one exchange. */
  function WebIdentityAttempt(config: Config, x: StsExchange, p: StsParsers): (a: Attempt)
    ensures config.webIdentityTokenFile.None? || config.roleArn.None? ==> a == Attempt(Ok(None), [])
    ensures config.webIdentityTokenFile.Some? && config.roleArn.Some? ==>
              && 1 <= |a.effects| <= 2
              && a.effects[0] == ReadTokenFile(config.webIdentityTokenFile.value)
              && (x.tokenFile.Failed? ==> a == Attempt(Err(TokenFileUnreadable), a.effects[..1]))
              && (x.tokenFile.Done? ==>
                    a.effects[1..] == [StsGet(StsUrl(config.roleArn.value, x.tokenFile.value, config.roleSessionName), StsContentType)])
              && (x.tokenFile.Done? && x.response.Failed? ==> a.outcome == Err(Transport))
              && (x.tokenFile.Done? && x.response.Done? && !IsOk(x.response.value.status) ==>
                    a.outcome == Err(StatusFailed(x.response.value.body)))
              && (x.tokenFile.Done? && x.response.Done? && IsOk(x.response.value.status)
                  && p.xml(x.response.value.body).None? ==>
                    a.outcome == Err(MalformedXml(x.response.value.body)))
    // With both fields configured, the attempt answers `Ok` exactly for a 200
    // response whose body parses, whose expiration parses and whose
    // credential passes the completeness check; every other case is an
    // error, so the retry loop tries again.
    ensures config.webIdentityTokenFile.Some? && config.roleArn.Some? ==>
              (a.outcome.Ok? <==>
                && x.tokenFile.Done? && x.response.Done? && IsOk(x.response.value.status)
                && p.xml(x.response.value.body).Some?
                && var sc := p.xml(x.response.value.body).value;
                   && p.rfc3339(sc.expiration).Some?
                   && IsComplete(Credential(sc.accessKeyId, sc.secretAccessKey, Some(sc.sessionToken), p.rfc3339(sc.expiration))))
    // ... and the credential is the one the STS body describes.
    ensures config.webIdentityTokenFile.Some? && config.roleArn.Some? && a.outcome.Ok? ==>
              var sc := p.xml(x.response.value.body).value;
              a.outcome.value == Some(Credential(sc.accessKeyId, sc.secretAccessKey, Some(sc.sessionToken), p.rfc3339(sc.expiration)))
    ensures a.outcome.Ok? && a.outcome.value.Some? ==>
              && x.tokenFile.Done? && x.response.Done? && IsOk(x.response.value.status)
              && IsComplete(a.outcome.value.value)
              && a.outcome.value.value.sessionToken.Some?
              && a.outcome.value.value.expiresIn.Some?
  {
    match (config.webIdentityTokenFile, config.roleArn)
    case (Some(tokenFile), Some(roleArn)) =>
      var read := [ReadTokenFile(tokenFile)];
      (match x.tokenFile
       case Failed => Attempt(Err(TokenFileUnreadable), read)
       case Done(token) =>
         var sent := read + [StsGet(StsUrl(roleArn, token, config.roleSessionName), StsContentType)];
         match x.response
         case Failed => Attempt(Err(Transport), sent)
         case Done(resp) =>
           if !IsOk(resp.status) then Attempt(Err(StatusFailed(resp.body)), sent)
           else match p.xml(resp.body)
             case None => Attempt(Err(MalformedXml(resp.body)), sent)
             case Some(sc) =>
               match p.rfc3339(sc.expiration)
               case None => Attempt(Err(MalformedExpiration(sc.expiration)), sent)
               case Some(t) =>
                 var cred := Credential(sc.accessKeyId, sc.secretAccessKey, Some(sc.sessionToken), Some(t));
                 if IsComplete(cred) then Attempt(Ok(Some(cred)), sent)
                 else Attempt(Err(Incomplete), sent))
    case _ => Attempt(Ok(None), [])
  }

  /** The attempts of one run of the retry loop: attempt `k` sees exchange `sts(k)`. */
  function AttemptsOf(config: Config, sts: nat -> StsExchange, p: StsParsers): nat -> Attempt {
    (k: nat) => WebIdentityAttempt(config, sts(k), p)
  }

  /**
   * The retry loop of `load_via_assume_role_with_web_identity` under a
   * backoff policy of `maxRetries` delays, from attempt number `k` on: an
   * `Ok` ends it, an error sleeps and retries while delays remain, and
   * becomes `None` once they have run out. The source's policy is
   * `MaxRetries`.
   */
  function Retry(attempt: nat -> Attempt, maxRetries: nat, k: nat): RetryRun
    requires k <= maxRetries
    decreases maxRetries - k
  {
    var a := attempt(k);
    match a.outcome
    case Ok(v) => RetryRun(v, k + 1, a.effects)
    case Err(_) =>
      if k < maxRetries then
        var rest := Retry(attempt, maxRetries, k + 1);
        RetryRun(rest.cred, rest.attempts, a.effects + [Backoff(k + 1)] + rest.effects)
      else
        RetryRun(None, k + 1, a.effects)
  }

  /** One step of the loop, as the loop body takes it. */
  lemma RetryUnfold(attempt: nat -> Attempt, maxRetries: nat, k: nat)
    requires k <= maxRetries
    ensures attempt(k).outcome.Ok? ==>
              Retry(attempt, maxRetries, k) == RetryRun(attempt(k).outcome.value, k + 1, attempt(k).effects)
    ensures attempt(k).outcome.Err? && k < maxRetries ==>
              var rest := Retry(attempt, maxRetries, k + 1);
              Retry(attempt, maxRetries, k) == RetryRun(rest.cred, rest.attempts, attempt(k).effects + [Backoff(k + 1)] + rest.effects)
    ensures attempt(k).outcome.Err? && k == maxRetries ==>
              Retry(attempt, maxRetries, k) == RetryRun(None, k + 1, attempt(k).effects)
  {
  }

  /**
   * The loop makes at most `maxRetries + 1` attempts, every attempt but the
   * last failed, and the last one decides: its `Ok` value, or `None` once
   * every attempt has failed.
   */
  lemma {:induction false} RetryShape(attempt: nat -> Attempt, maxRetries: nat, k: nat)
    requires k <= maxRetries
    ensures var run := Retry(attempt, maxRetries, k);
            && k < run.attempts <= maxRetries + 1
            && (forall j :: k <= j < run.attempts - 1 ==> attempt(j).outcome.Err?)
            && (attempt(run.attempts - 1).outcome.Ok? ==> run.cred == attempt(run.attempts - 1).outcome.value)
            && (attempt(run.attempts - 1).outcome.Err? ==> run.attempts == maxRetries + 1 && run.cred == None)
    decreases maxRetries - k
  {
    if attempt(k).outcome.Err? && k < maxRetries {
      RetryShape(attempt, maxRetries, k + 1);
    }
  }

  /** The first `Ok` is returned at once: attempts `0..n-1` failed and attempt `n` answered. */
  lemma RetryReturnsFirstOk(attempt: nat -> Attempt, maxRetries: nat, n: nat)
    requires n <= maxRetries
    requires forall j :: 0 <= j < n ==> attempt(j).outcome.Err?
    requires attempt(n).outcome.Ok?
    ensures Retry(attempt, maxRetries, 0).attempts == n + 1
    ensures Retry(attempt, maxRetries, 0).cred == attempt(n).outcome.value
  {
    RetryShape(attempt, maxRetries, 0);
  }

  /** Every attempt failed: exactly `maxRetries + 1` attempts (five for the source's policy), then `None`. */
  lemma RetryExhausted(attempt: nat -> Attempt, maxRetries: nat)
    requires forall j :: 0 <= j <= maxRetries ==> attempt(j).outcome.Err?
    ensures Retry(attempt, maxRetries, 0).attempts == maxRetries + 1
    ensures Retry(attempt, maxRetries, 0).cred == None
  {
    RetryShape(attempt, maxRetries, 0);
  }

  /** The concatenated steps of a sequence of provider lookups. */
  function AllEffects(ls: seq<Lookup>): seq<Effect> {
    if ls == [] then [] else ls[0].effects + AllEffects(ls[1..])
  }

  /** `a.or_else(|| b).or_else(|| c) ...`: the first `Some` wins and later providers do not run. */
  function FirstSome(ls: seq<Lookup>): Lookup {
    if ls == [] then Lookup(None, [])
    else if ls[0].cred.Some? then ls[0]
    else
      var rest := FirstSome(ls[1..]);
      Lookup(rest.cred, ls[0].effects + rest.effects)
  }

  /** The position of the first provider that answered `Some`, or `|ls|` when none did. */
  function FirstSomeIndex(ls: seq<Lookup>): (i: nat)
    ensures i <= |ls|
    ensures forall j :: 0 <= j < i ==> ls[j].cred.None?
    ensures i < |ls| ==> ls[i].cred.Some?
  {
    if ls == [] then 0
    else if ls[0].cred.Some? then 0
    else 1 + FirstSomeIndex(ls[1..])
  }

  /**
   * Short-circuit and order: the chain's answer is the first provider's
   * `Some`, and exactly the providers up to it took their steps, in order;
   * when no provider answers, the answer is `None` after all of them ran.
   */
  lemma {:induction false} FirstSomeShortCircuits(ls: seq<Lookup>)
    ensures var i := FirstSomeIndex(ls);
            FirstSome(ls) == if i < |ls| then Lookup(ls[i].cred, AllEffects(ls[..i + 1]))
                             else Lookup(None, AllEffects(ls))
  {
    if ls != [] {
      if ls[0].cred.Some? {
        assert ls[..1][1..] == [];
      } else {
        FirstSomeShortCircuits(ls[1..]);
        var i := FirstSomeIndex(ls[1..]);
        if i < |ls[1..]| {
          assert ls[..i + 2][1..] == ls[1..][..i + 1];
        }
      }
    }
  }

  /** The cache check of `load`: a stored credential that is still valid is returned as is. */
  predicate CacheHit(slot: Option<Credential>, now: int) {
    slot.Some? && IsValid(slot.value, now)
  }

  class CredentialLoader {
    var credential: Option<Credential>
    var disableEnv: bool
    var disableProfile: bool
    var disableWebIdentity: bool
    var config: Config

    /** `CredentialLoader::default()`, whose config loader reports `config`. */
    constructor (config: Config)
      ensures credential == None
      ensures !disableEnv && !disableProfile && !disableWebIdentity
      ensures this.config == config
    {
      credential := None;
      disableEnv, disableProfile, disableWebIdentity := false, false, false;
      this.config := config;
    }

    method WithDisableEnv()
      modifies this`disableEnv
      ensures disableEnv
    {
      disableEnv := true;
    }

    method WithDisableProfile()
      modifies this`disableProfile
      ensures disableProfile
    {
      disableProfile := true;
    }

    method WithDisableWebIdentity()
      modifies this`disableWebIdentity
      ensures disableWebIdentity
    {
      disableWebIdentity := true;
    }

    /** `with_credential`: fills the cache slot. */
    method WithCredential(cred: Credential)
      modifies this`credential
      ensures credential == Some(cred)
    {
      credential := Some(cred);
    }

    method WithConfigLoader(cfg: Config)
      modifies this`config
      ensures config == cfg
    {
      config := cfg;
    }

    /** `load_via_env`: when disabled, `None` without touching the config loader. */
    function LoadViaEnv(): (r: Lookup)
      reads this`disableEnv, this`config
      ensures disableEnv ==> r == Lookup(None, [])
      ensures !disableEnv ==> r.effects == [LoadEnvConfig] && r.cred == FromKeyFields(config.afterEnv)
    {
      if disableEnv then Lookup(None, [])
      else Lookup(FromKeyFields(config.afterEnv), [LoadEnvConfig])
    }

    /** `load_via_profile`: when disabled, `None` without touching the config loader. */
    function LoadViaProfile(): (r: Lookup)
      reads this`disableProfile, this`config
      ensures disableProfile ==> r == Lookup(None, [])
      ensures !disableProfile ==> r.effects == [LoadProfileConfig] && r.cred == FromKeyFields(config.afterProfile)
    {
      if disableProfile then Lookup(None, [])
      else Lookup(FromKeyFields(config.afterProfile), [LoadProfileConfig])
    }

    /** What `load_via_assume_role_with_web_identity` yields: nothing when disabled, else the retry loop's answer. */
    function WebIdentityLookup(sts: nat -> StsExchange, p: StsParsers): Lookup
      reads this`disableWebIdentity, this`config
    {
      if disableWebIdentity then Lookup(None, [])
      else
        var run := Retry(AttemptsOf(config, sts, p), MaxRetries, 0);
        Lookup(run.cred, run.effects)
    }

    /**
     * `load_via_assume_role_with_web_identity`: when disabled, `None` with
     * no attempt; otherwise the inner attempt under the backoff iterator,
     * which allows four retries.
     */
    method LoadViaWebIdentity(sts: nat -> StsExchange, p: StsParsers) returns (r: Option<Credential>, attempts: nat, effects: seq<Effect>)
      ensures disableWebIdentity ==> r == None && attempts == 0 && effects == []
      ensures !disableWebIdentity ==> RetryRun(r, attempts, effects) == Retry(AttemptsOf(config, sts, p), MaxRetries, 0)
    {
      if disableWebIdentity {
        return None, 0, [];
      }
      ghost var attempt := AttemptsOf(config, sts, p);
      var retriesLeft: nat := MaxRetries;
      effects := [];
      while true
        invariant retriesLeft <= MaxRetries
        invariant Retry(attempt, MaxRetries, 0) == var rest := Retry(attempt, MaxRetries, MaxRetries - retriesLeft);
                                       RetryRun(rest.cred, rest.attempts, effects + rest.effects)
        decreases retriesLeft
      {
        var k := MaxRetries - retriesLeft;
        var a := WebIdentityAttempt(config, sts(k), p);
        assert a == attempt(k);
        RetryUnfold(attempt, MaxRetries, k);
        effects := effects + a.effects;
        if a.outcome.Ok? {
          return a.outcome.value, k + 1, effects;
        }
        if retriesLeft > 0 {
          retriesLeft := retriesLeft - 1;
          effects := effects + [Backoff(k + 1)];
        } else {
          return None, k + 1, effects;
        }
      }
    }

    /**
     * `load`: a valid cached credential is returned with no provider run;
     * otherwise env, profile and web identity are tried in order, and a
     * `Some` answer replaces the cache slot.
     */
    method Load(now: int, sts: nat -> StsExchange, p: StsParsers) returns (r: Option<Credential>, effects: seq<Effect>)
      modifies this`credential
      ensures CacheHit(old(credential), now) ==> r == old(credential) && effects == []
      ensures !CacheHit(old(credential), now) ==>
                Lookup(r, effects) == FirstSome([LoadViaEnv(), LoadViaProfile(), WebIdentityLookup(sts, p)])
      ensures credential == if r.Some? then r else old(credential)
    {
      if CacheHit(credential, now) {
        return credential, [];
      }
      ghost var web := WebIdentityLookup(sts, p);
      var env := LoadViaEnv();
      if env.cred.Some? {
        r, effects := env.cred, env.effects;
        assert Lookup(r, effects) == FirstSome([env, LoadViaProfile(), web]);
      } else {
        var profile := LoadViaProfile();
        assert [env, profile, web][1..] == [profile, web];
        assert [profile, web][1..] == [web];
        assert [web][1..] == [];
        if profile.cred.Some? {
          r, effects := profile.cred, env.effects + profile.effects;
          assert Lookup(r, effects) == FirstSome([env, profile, web]);
        } else {
          var cred, _, webEffects := LoadViaWebIdentity(sts, p);
          assert Lookup(cred, webEffects) == web;
          r, effects := cred, env.effects + profile.effects + webEffects;
          assert FirstSome([web]) == web;
          assert Lookup(r, effects) == FirstSome([env, profile, web]);
        }
      }
      if r.Some? {
        credential := r;
      }
    }
  }

  /** A second `load` within the first credential's validity returns it again and runs no provider. */
  method SecondLoadIsCached(config: Config, now1: int, now2: int, sts: nat -> StsExchange, p: StsParsers)
    returns (first: Option<Credential>, second: Option<Credential>, secondEffects: seq<Effect>)
    ensures first.Some? && IsValid(first.value, now2) ==> second == first && secondEffects == []
  {
    var loader := new CredentialLoader(config);
    var firstEffects;
    first, firstEffects := loader.Load(now1, sts, p);
    second, secondEffects := loader.Load(now2, sts, p);
  }

  /**
   * STS never answers: with the web-identity fields configured, every
   * request fails, so the loop gives up after five attempts with `None`.
   */
  method WebIdentityGivesUp(config: Config, sts: nat -> StsExchange, p: StsParsers)
    returns (r: Option<Credential>, attempts: nat)
    requires config.webIdentityTokenFile.Some? && config.roleArn.Some?
    requires forall k: nat :: sts(k).response.Failed?
    ensures r == None
    ensures attempts == MaxAttempts
  {
    var loader := new CredentialLoader(config);
    var effects;
    r, attempts, effects := loader.LoadViaWebIdentity(sts, p);
    ghost var attempt := AttemptsOf(config, sts, p);
    assert forall j :: 0 <= j <= MaxRetries ==> attempt(j).outcome.Err?;
    RetryExhausted(attempt, MaxRetries);
  }

  /**
   * With profile and web identity disabled, a fresh loader answers from the
   * environment alone: a credential exactly when both keys are set there.
   */
  method EnvOnly(config: Config, now: int, sts: nat -> StsExchange, p: StsParsers)
    returns (r: Option<Credential>, effects: seq<Effect>)
    ensures r == FromKeyFields(config.afterEnv)
    ensures effects == [LoadEnvConfig]
  {
    var loader := new CredentialLoader(config);
    loader.WithDisableProfile();
    loader.WithDisableWebIdentity();
    r, effects := loader.Load(now, sts, p);
    var none := Lookup(None, []);
    assert loader.LoadViaProfile() == none && loader.WebIdentityLookup(sts, p) == none;
    assert [loader.LoadViaEnv(), none, none][1..] == [none, none];
    assert [none, none][1..] == [none];
    assert [none][1..] == [];
    assert loader.config == config;
    assert FirstSome([none]) == none;
    assert FirstSome([none, none]) == none;
    assert Lookup(r, effects) == FirstSome([loader.LoadViaEnv(), none, none]);
  }
}
