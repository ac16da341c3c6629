/** The AWS key material that every AWS loader produces. */
module AwsCredential {
  import opened Wrappers

  /** `expiresIn` is an instant, in seconds on the same clock as `now`. */
  datatype Credential = Credential(
    accessKeyId: string,
    secretAccessKey: string,
    sessionToken: Option<string>,
    expiresIn: Option<int>)

  /** `Credential::is_valid`: usable at `now` when it never expires or expires later. */
  predicate IsValid(c: Credential, now: int) {
    c.expiresIn.None? || c.expiresIn.value > now
  }

  /** `Credential::check`: every field that is present is non-empty. */
  predicate IsComplete(c: Credential) {
    && c.accessKeyId != []
    && c.secretAccessKey != []
    && (c.sessionToken.Some? ==> c.sessionToken.value != [])
  }
}
