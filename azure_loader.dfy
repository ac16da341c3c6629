/**
 * The Azure storage loader (`Loader`): a cache slot without expiry in front
 * of the static configuration, or in front of the managed-identity token.
 */
module AzureLoader {
  import opened Wrappers
  import opened Http

  /** The resource the managed-identity token is asked for. */
  const StorageResource := "https://storage.azure.com/"

  datatype AzureCredential =
    | SharedKey(accountName: string, accountKey: string)
    | SharedAccessSignature(token: string)
    | BearerToken(token: string)

  /** The configuration fields the loader consults. */
  datatype Config = Config(
    accountName: Option<string>,
    accountKey: Option<string>,
    sasToken: Option<string>)

  /** The managed-identity token could not be obtained. */
  datatype LoadError = TokenUnavailable

  /**
   * `load_via_config`: a SAS token wins over an account name/key pair;
   * the pair needs both halves; static configuration never fails.
   */
  function LoadViaConfig(config: Config): (r: Result<Option<AzureCredential>, LoadError>)
    ensures r.Ok?
    ensures config.sasToken.Some? ==> r.value == Some(SharedAccessSignature(config.sasToken.value))
    ensures (r.value.Some? && r.value.value.SharedKey?) <==>
              config.sasToken.None? && config.accountName.Some? && config.accountKey.Some?
    ensures r.value.Some? && r.value.value.SharedKey? ==>
              r.value.value == SharedKey(config.accountName.value, config.accountKey.value)
    ensures r.value.None? <==>
              config.sasToken.None? && (config.accountName.None? || config.accountKey.None?)
    ensures r.value.Some? ==> !r.value.value.BearerToken?
  {
    if config.sasToken.Some? then Ok(Some(SharedAccessSignature(config.sasToken.value)))
    else match (config.accountName, config.accountKey)
      case (Some(name), Some(key)) => Ok(Some(SharedKey(name, key)))
      case _ => Ok(None)
  }

  /** `load_inner`: the configuration is the only source; its answer is passed on unchanged. */
  function LoadInner(config: Config): (r: Result<Option<AzureCredential>, LoadError>)
    ensures r == LoadViaConfig(config)
  {
    var cred := LoadViaConfig(config);
    if cred.Ok? && cred.value.Some? then Ok(cred.value) else if cred.Err? then Err(cred.error) else Ok(None)
  }

  class Loader {
    const config: Config
    var credential: Option<AzureCredential>

    /** `Loader::new`: the cache slot starts empty. */
    constructor (config: Config)
      ensures this.config == config && credential == None
    {
      this.config := config;
      credential := None;
    }

    /**
     * `load`: a cached credential is returned without resolving (there is
     * no expiry check); otherwise the configuration's answer, `None`
     * included, is stored and returned.
     */
    method Load() returns (r: Result<Option<AzureCredential>, LoadError>)
      modifies this`credential
      ensures old(credential).Some? ==> r == Ok(old(credential)) && credential == old(credential)
      ensures old(credential).None? ==> r == LoadInner(config) && credential == r.value
    {
      if credential.Some? {
        return Ok(credential);
      }
      var cred := LoadInner(config);
      if cred.Err? {
        return cred;
      }
      credential := cred.value;
      r := cred;
    }

    /**
     * `load_with_imds`: a cached credential is returned with no token
     * request; otherwise one request for the storage resource, whose access
     * token is stored and returned as a bearer token. `getAccessToken` is
     * what `imds_credential::get_access_token` answers for a resource.
     */
    method LoadWithImds(getAccessToken: string -> Io<string>) returns (r: Result<Option<AzureCredential>, LoadError>, requested: seq<string>)
      modifies this`credential
      ensures old(credential).Some? ==> r == Ok(old(credential)) && requested == [] && credential == old(credential)
      ensures old(credential).None? ==> requested == [StorageResource]
      ensures old(credential).None? && getAccessToken(StorageResource).Failed? ==>
                r == Err(TokenUnavailable) && credential == old(credential)
      ensures old(credential).None? && getAccessToken(StorageResource).Done? ==>
                r == Ok(Some(BearerToken(getAccessToken(StorageResource).value))) && credential == r.value
    {
      if credential.Some? {
        return Ok(credential), [];
      }
      requested := [StorageResource];
      match getAccessToken(StorageResource)
      case Failed =>
        r := Err(TokenUnavailable);
      case Done(token) =>
        var cred := Some(BearerToken(token));
        credential := cred;
        r := Ok(cred);
    }
  }

  /** The slot has no expiry: a second `load` returns exactly what the first one did. */
  method LoadTwice(config: Config) returns (first: Result<Option<AzureCredential>, LoadError>, second: Result<Option<AzureCredential>, LoadError>)
    ensures first == LoadViaConfig(config)
    ensures second == first
  {
    var loader := new Loader(config);
    first := loader.Load();
    second := loader.Load();
  }
}
