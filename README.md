# Credential resolution for AWS and Azure, modelled in Dafny

This project models the credential-resolution layer of reqsign, a Rust
request-signing library. It covers four parts:

- the AWS provider chain (`CredentialLoader`). It keeps one cache slot.
  On a miss it tries the environment, then the profile, then STS
  AssumeRoleWithWebIdentity, and that last step runs under a bounded retry loop;
- the EC2 instance-metadata (IMDSv2) loader, with its session-token sub-cache
  and its three-way classification of the credential response's `Code`;
- the Azure managed-identity credential builder (`ImdsManagedIdentityCredential`),
  whose three identity selectors are mutually exclusive, and the token request it builds;
- the Azure storage loader (`Loader`), with a cache slot that never expires and
  a SAS token that takes precedence over an account name/key pair.

Network responses, file reads and parse results are inputs to the model.
`Io<T>` is `Done(v)` or `Failed`, for anything the source propagates with `?`.
The XML, JSON and RFC 3339 parsers are function-typed parameters that return
`None` on a parse error. Time is an integer parameter (`now`, in seconds).
The steps that touch the outside world are returned as values, so contracts
can say that no I/O happened or that a provider was not consulted:
`AwsLoader.Effect` (config loads, token-file reads, STS requests, backoffs),
`AwsImds.Request`, `AzureImds.TokenRequest` and the requested resources of
`AzureLoader.Loader.LoadWithImds`.
Objects whose fields the source updates in place are classes:
`CredentialLoader`, `IMDSv2Loader`, `ImdsManagedIdentityCredential` and `Loader`.
The decision logic is written as functions: the key-field check, the
web-identity attempt, the IMDS discovery and `Code` check, and the Azure
config precedence.

Files: `wrappers.dfy` (Option, Result), `http.dfy` (responses and status
predicates), `aws_credential.dfy` (the AWS credential and its validity),
`aws_loader.dfy`, `aws_imds.dfy`, `azure_imds.dfy`, `azure_loader.dfy`.

`src/credential.rs` (the AWS `Credential` type with `is_valid` and `check`) and
`ConfigLoader` are not part of this model; see "## Left out" for what the
model assumes about them.

Two places in the cited source would not compile as written. The model follows
what they evidently mean:

- `unwrap_or_else(|_| ...)` in `src/azure/storage/imds_credential.rs:102`:
  modelled as "the configured endpoint, else the default endpoint".
- The missing comma between `resp.code` and `resp.message` in
  `services/aws-v4/src/load/imds.rs:105-106`: modelled as an error that
  carries both the code and the message.

## Model

| member | source | states |
|---|---|---|
| `AwsLoader.FromKeyFields` | src/aws/credential.rs:102-130 | a credential exists iff both access key id and secret key are present; it carries those keys and the session token copied through whether present or absent, and no expiry |
| `AwsLoader.CredentialLoader.constructor` | src/aws/credential.rs:31-43 | the default loader: empty cache slot, no provider disabled, the given config loader |
| `AwsLoader.CredentialLoader.WithDisableEnv` | src/aws/credential.rs:47-50 | sets the env-disable flag and changes no other field |
| `AwsLoader.CredentialLoader.WithDisableProfile` | src/aws/credential.rs:53-56 | sets the profile-disable flag and changes no other field |
| `AwsLoader.CredentialLoader.WithDisableWebIdentity` | src/aws/credential.rs:59-62 | sets the web-identity-disable flag and changes no other field |
| `AwsLoader.CredentialLoader.WithCredential` | src/aws/credential.rs:65-68 | the cache slot holds the given credential; nothing else changes |
| `AwsLoader.CredentialLoader.WithConfigLoader` | src/aws/credential.rs:71-74 | replaces the config loader; nothing else changes |
| `AwsLoader.CredentialLoader.LoadViaEnv` | src/aws/credential.rs:95-112 | disabled: `None` with no step at all, so the config loader is not consulted; enabled: one env config load, then the key-field decision on what it reports |
| `AwsLoader.CredentialLoader.LoadViaProfile` | src/aws/credential.rs:114-131 | disabled: `None` with no step at all; enabled: one profile config load, then the key-field decision on what it reports |
| `AwsLoader.WebIdentityAttempt` | src/aws/credential.rs:168-203 | token file or role ARN missing: `Ok(None)` with no file read and no request; otherwise the token file is read first and, only if that read succeeds, one STS GET carrying the role ARN, the token and the session name; with both fields configured the answer is `Ok` iff the token file was read, STS answered 200, the XML body and its `Expiration` parse and the credential passes the completeness check, and that credential is exactly the body's `AccessKeyId`, `SecretAccessKey`, `Some(SessionToken)` and parsed `Expiration`; an unreadable file, a transport failure, a non-200 status, malformed XML, a bad expiration or an incomplete credential is an error (so the loop retries), never `Ok(None)` |
| `AwsLoader.RetryShape` | src/aws/credential.rs:147-165 | under a backoff policy of `n` delays (the source's `with_max_times(4)`), the retry loop makes between 1 and `n+1` attempts; every attempt before the last one failed; the last attempt's `Ok` value is the result, and if the last attempt failed then all `n+1` were made and the result is `None` |
| `AwsLoader.RetryReturnsFirstOk` | src/aws/credential.rs:151-153 | when attempts `0..n-1` fail and attempt `n` returns `Ok(v)`, the loop stops after `n+1` attempts and returns `v` |
| `AwsLoader.RetryExhausted` | src/aws/credential.rs:154-162 | when every attempt fails the loop stops after `n+1` attempts (five for the source's four retries), makes no further attempt and returns `None` |
| `AwsLoader.WebIdentityGivesUp` | src/aws/credential.rs:147-190 | with the web-identity fields configured and every STS request failing, a fresh loader's web-identity step makes exactly five attempts and returns `None` |
| `AwsLoader.CredentialLoader.LoadViaWebIdentity` | src/aws/credential.rs:138-166 | disabled: `None` with no attempt; enabled: the loop over the backoff iterator (four retries) gives the result, attempt count and steps of the retry specification `Retry` |
| `AwsLoader.FirstSomeShortCircuits` | src/aws/credential.rs:84-86 | the chain's answer is the first provider's `Some`; only the providers up to and including that one take their steps, in order; when every provider answers `None` the result is `None` after all of them ran |
| `AwsLoader.CredentialLoader.Load` | src/aws/credential.rs:77-93 | a cached credential that is valid at `now` is returned unchanged with no provider step; otherwise the result is the ordered env, profile, web-identity chain; the slot becomes `Some(c)` when the result is `Some(c)` and is left unchanged when the result is `None` |
| `AwsLoader.SecondLoadIsCached` | src/aws/credential.rs:79-82 | a second load, at a time when the first load's credential is still valid, returns the same credential and takes no step |
| `AwsLoader.EnvOnly` | src/aws/credential.rs:243-276 | with profile and web identity disabled, a fresh loader takes only the env config step and returns a credential iff both keys are in the environment |
| `AwsImds.TokenExpiry` | services/aws-v4/src/load/imds.rs:43-45 | the self-imposed token expiry is the fetch time plus 21000 seconds (21600 − 600) |
| `AwsImds.IMDSv2Loader.constructor` | services/aws-v4/src/load/imds.rs:12-15 | the token sub-cache starts with the given `(token, expiry)` pair |
| `AwsImds.IMDSv2Loader.LoadEc2MetadataToken` | services/aws-v4/src/load/imds.rs:18-52 | a cached token whose expiry is after `now` is returned with no PUT and no state change; otherwise one PUT (content length 0, TTL 21600) is sent; a transport failure or non-200 status is an error and leaves the sub-cache unchanged; on 200 the sub-cache holds `(body, fetchedAt + 21000)` and the body is returned |
| `AwsImds.Classify` | services/aws-v4/src/load/imds.rs:100-124 | `AssumeRoleUnauthorizedAccess` iff the distinct trust-relationship error; any other code that is not `Success` iff the generic error carrying code and message; `Success` with an unparsable expiration iff the expiration error; otherwise a credential with `session_token = Some(Token)` and `expires_in = Some(parsed Expiration)` |
| `AwsImds.Discover` | services/aws-v4/src/load/imds.rs:62-124 | the role listing is requested first with the session token; a failed or non-200 listing ends the flow with an error and no second request; after a 200 listing the credential URL is the listing URL followed by the listing body verbatim; a failed credential request, a non-200 credential response or an unparsable body is the matching error; after two 200 responses and a parsable body the result is exactly the `Code` check's answer (trust-relationship error, generic code error, expiration error or the credential) |
| `AwsImds.DiscoverSuccess` | services/aws-v4/src/load/imds.rs:117-124 | a credential is produced only for code `Success`; it carries the body's keys, `Some(Token)` and the parsed expiration |
| `AwsImds.IMDSv2Loader.Load` | services/aws-v4/src/load/imds.rs:59-125 | the session token step comes first; if it fails, only the PUT was sent, the result is an error and the sub-cache is unchanged; otherwise discovery runs with the reused or fetched token |
| `AwsImds.TwoLoadsOnePut` | services/aws-v4/src/load/imds.rs:19-24 | two loads on a fresh loader, the first fetching a token and the second within 21000 seconds of that fetch, send exactly one token PUT, for every PUT outcome and clock reading the second call might see |
| `AzureImds.TokenRequestDeterministic` | src/azure/storage/imds_credential.rs:99-129 | request construction is deterministic: the settings and the resource fix the whole request |
| `AzureImds.ImdsManagedIdentityCredential.constructor` | src/azure/storage/imds_credential.rs:32-40 | `new` leaves the endpoint, the secret and all three selectors unset, so at most one selector is set |
| `AzureImds.ImdsManagedIdentityCredential.WithEndpoint` | src/azure/storage/imds_credential.rs:43-49 | only the endpoint changes; the at-most-one-selector invariant is preserved |
| `AzureImds.ImdsManagedIdentityCredential.WithSecret` | src/azure/storage/imds_credential.rs:52-58 | only the secret changes; the at-most-one-selector invariant is preserved |
| `AzureImds.ImdsManagedIdentityCredential.WithObjectId` | src/azure/storage/imds_credential.rs:63-71 | the object id is set, client id and resource id become `None`, exactly one selector is set, endpoint and secret are unchanged |
| `AzureImds.ImdsManagedIdentityCredential.WithClientId` | src/azure/storage/imds_credential.rs:76-84 | the client id is set, object id and resource id become `None`, exactly one selector is set, endpoint and secret are unchanged |
| `AzureImds.ImdsManagedIdentityCredential.WithIdentity` | src/azure/storage/imds_credential.rs:89-97 | the resource id is set, object id and client id become `None`, exactly one selector is set, endpoint and secret are unchanged |
| `AzureImds.ImdsManagedIdentityCredential.BuildRequest` | src/azure/storage/imds_credential.rs:100-129 | the endpoint, or `http://169.254.169.254/metadata/identity/oauth2/token` when unset; query items start with `api-version=2019-08-01` and `resource`, and exactly one selector pair follows iff exactly one selector is set; header `metadata: true` is always present and `x-identity-header` is present iff a secret is configured, carrying that secret |
| `AzureImds.ImdsManagedIdentityCredential.GetToken` | src/azure/storage/imds_credential.rs:99-142 | sends the built request; a transport failure, a non-success status or an unparsable body yields no token; a token comes only from a 2xx status and the parsed body |
| `AzureImds.ClientIdAfterObjectId` | src/azure/storage/imds_credential.rs:63-84 | configuring a client id after an object id gives a request whose only selector is the client id |
| `AzureLoader.LoadViaConfig` | src/azure/storage/loader.rs:69-81 | never fails; a configured SAS token always gives `SharedAccessSignature`, whatever the account name and key; `SharedKey(name, key)` iff there is no SAS token and both name and key are set; `None` iff there is neither a SAS token nor a complete pair |
| `AzureLoader.LoadInner` | src/azure/storage/loader.rs:61-67 | passes the config answer through unchanged, `None` included |
| `AzureLoader.Loader.constructor` | src/azure/storage/loader.rs:20-26 | `new` starts with an empty cache slot |
| `AzureLoader.Loader.Load` | src/azure/storage/loader.rs:29-41 | a cached credential is returned with no validity check; otherwise the resolved answer, `None` included, is stored in the slot and returned |
| `AzureLoader.Loader.LoadWithImds` | src/azure/storage/loader.rs:44-59 | a cached credential is returned with no token request; otherwise exactly one token request is made, for `https://storage.azure.com/`; a failure is an error and the slot is unchanged; a success stores and returns `BearerToken(access_token)` |
| `AzureLoader.LoadTwice` | src/azure/storage/loader.rs:31-40 | a fresh loader's first load is the config answer and a second load returns the same |

## Left out

- HTTP transport, connection pooling and the URL encoding of `Url::parse_with_params`: responses are `(status, body)` inputs and requests are plain values. A URL that fails to parse is not modelled, and neither is a header value `HeaderValue::from_str` would reject.
- XML and JSON deserialization and `parse_rfc3339`: they are function parameters. Absent fields read as empty strings, as `serde(default)` has it.
- Profile-file precedence (the shared-credentials file before the config file): this lives inside `ConfigLoader`, which is not part of this model.
- Backoff durations, jitter and `sleep`: the model keeps only the number of attempts and where each backoff falls.
- Locks, `Arc` and `async`: each cache slot is a single-threaded field. Two callers racing on a cache miss is a concurrency matter and is not modelled.
- Logging (`warn!`) and the text of the error messages. Errors are datatype variants that carry the same data (status, body, code, message).
- `load_via_assume_role` (`todo!()`) and the unused `disable_assume_role` flag.
- `src/aws/constants.rs`: it holds only environment-variable names.
- The Azure `expires_on` field, which the source leaves commented out.
- `imds_credential::get_access_token`, which `Loader::load_with_imds` calls, is not part of this model. Its answer for a resource is the input `getAccessToken`.
- AwsImds.IMDSv2Loader.constructor: the source does not show how the sub-cache starts, so the constructor takes the initial pair as arguments.
- AzureImds.ImdsManagedIdentityCredential.GetToken: a non-success status makes the source panic. The model returns the `Fatal` error instead, so the guarantee is only that no token results.
- AwsCredential.IsValid: `src/credential.rs` is not part of this model, so the expiry rule is assumed: a credential is valid when it has no expiry or its expiry is strictly later than `now`, with no refresh margin.
- AwsCredential.IsComplete: stands for `Credential::check`, whose definition is not part of this model; it is assumed to require a non-empty key id and secret, and a non-empty session token when one is present.
- AwsLoader.Config: `ConfigLoader` is one shared accumulator that `load_via_env` and `load_via_profile` fill in turn, and whose web-identity fields are read after them. The model fixes its answers in advance (after the env step, after the profile step, and the web-identity fields), independent of which steps ran before or how often; for example, with env disabled the profile step would in the source see no env-populated fields. No proved property depends on this.
