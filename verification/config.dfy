/**
 * The configuration policy for the Google client id: which id the sign-in
 * client is given, and whether initialisation may proceed, over two inputs:
 * whether the id is set and whether the build runs in development.
 */
module Config {
  import opened Wrappers

  /** The two environment variables read: the client id and `NODE_ENV`. */
  datatype Env = Env(googleClientId: Option<string>, nodeEnv: string)

  predicate IsDevelopment(env: Env) {
    env.nodeEnv == "development"
  }

  predicate IsProduction(env: Env) {
    env.nodeEnv == "production"
  }

  /** The id counts as set when present and not empty (JavaScript truthiness). */
  predicate ClientIdSet(env: Env) {
    env.googleClientId.Some? && env.googleClientId.value != ""
  }

  const MockClientId: string := "mock-client-id-for-development-only"
  const MissingClientId: string := "missing-client-id"
  const MissingIdError: string := "NEXT_PUBLIC_GOOGLE_CLIENT_ID is required but not found"

  /** The configured id when set, otherwise a substitute chosen by the mode. */
  function GetGoogleClientId(env: Env): (r: string)
    ensures ClientIdSet(env) ==> r == env.googleClientId.value
    ensures !ClientIdSet(env) && IsDevelopment(env) ==> r == MockClientId
    ensures !ClientIdSet(env) && !IsDevelopment(env) ==> r == MissingClientId
    ensures r != ""
  {
    if ClientIdSet(env) then env.googleClientId.value
    else if IsDevelopment(env) then MockClientId
    else MissingClientId
  }

  /** The errors collected outside development. */
  function ConfigErrors(env: Env): seq<string> {
    if !ClientIdSet(env) then [MissingIdError] else []
  }

  /** Development always passes; otherwise the configuration passes when no error was collected. */
  function ValidateConfig(env: Env): (ok: bool)
    ensures IsDevelopment(env) ==> ok
    ensures !IsDevelopment(env) ==> (ok <==> ClientIdSet(env))
  {
    if IsDevelopment(env) then true
    else |ConfigErrors(env)| == 0
  }

  /** `NODE_ENV` cannot be both "development" and "production". */
  lemma ModesExclusive(env: Env)
    ensures !(IsDevelopment(env) && IsProduction(env))
  {
  }

  /**
   * The two functions disagree in production without an id: the
   * configuration is rejected, yet a non-empty substitute id is still handed
   * out.
   */
  lemma ProductionWithoutIdDisagrees(env: Env)
    requires IsProduction(env) && !ClientIdSet(env)
    ensures !ValidateConfig(env)
    ensures GetGoogleClientId(env) == MissingClientId && GetGoogleClientId(env) != ""
  {
  }

  /**
   * A configuration that passes never gets the "missing" substitute unless
   * that is literally the configured id: it gets the configured id or, in
   * development, the mock id.
   */
  lemma ValidConfigHasUsableId(env: Env)
    requires ValidateConfig(env)
    ensures GetGoogleClientId(env) == (if ClientIdSet(env) then env.googleClientId.value else MockClientId)
  {
  }
}
