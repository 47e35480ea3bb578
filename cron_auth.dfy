/**
 * The guard and the database settings shared by the two cron endpoints
 * (`/api/cron/refresh-prices`, `/api/cron/refresh-performance`).
 */
module CronAuth {
  import opened Wrappers

  /** The process environment the cron endpoints read; `None` is an unset variable. */
  datatype Env = Env(
    cronSecret: Option<string>,        // CRON_SECRET
    supabaseUrl: Option<string>,       // SUPABASE_URL
    publicSupabaseUrl: Option<string>, // NEXT_PUBLIC_SUPABASE_URL
    serviceKey: Option<string>,        // SUPABASE_SERVICE_KEY
    anonKey: Option<string>)           // NEXT_PUBLIC_SUPABASE_ANON_KEY

  /**
   * A request passes when no secret is configured (unset or empty), or when
   * its Authorization header is exactly `Bearer <secret>`.
   */
  predicate Authorized(secret: Option<string>, authorization: Option<string>) {
    secret.None? || secret.value == "" || authorization.GetOr("") == "Bearer " + secret.value
  }

  /** With a secret set, a request without the header is refused. */
  lemma MissingHeaderRefused(secret: string)
    requires secret != ""
    ensures !Authorized(Some(secret), None)
  {
    assert |"Bearer " + secret| > 0;
  }

  /** With a secret set, exactly one header value is accepted. */
  lemma OnlyBearerAccepted(secret: string, authorization: Option<string>)
    requires secret != ""
    ensures Authorized(Some(secret), authorization) <==> authorization == Some("Bearer " + secret)
  {
    if authorization.None? {
      MissingHeaderRefused(secret);
    }
  }

  /** `a ?? b ?? ''`: the first variable that is set, even when it is set to the empty string. */
  function FirstSet(a: Option<string>, b: Option<string>): (r: string)
    ensures a.Some? ==> r == a.value
    ensures a.None? && b.Some? ==> r == b.value
    ensures a.None? && b.None? ==> r == ""
  {
    if a.Some? then a.value else b.GetOr("")
  }

  /** The database URL: the runtime variable first, the build-time public one second. */
  function DbUrl(env: Env): string { FirstSet(env.supabaseUrl, env.publicSupabaseUrl) }

  /** The database key: the service key first, the public anonymous key second. */
  function DbKey(env: Env): string { FirstSet(env.serviceKey, env.anonKey) }

  /** Both settings must be non-empty. */
  predicate Configured(env: Env) { DbUrl(env) != "" && DbKey(env) != "" }

  /**
   * `??` only skips an unset variable: a runtime URL set to the empty string
   * hides the public URL and leaves the endpoint unconfigured.
   */
  lemma EmptyRuntimeUrlHidesPublicUrl(env: Env)
    requires env.supabaseUrl == Some("")
    ensures !Configured(env)
  {
  }

  /** The configured URL is one of the two variables. */
  lemma DbUrlSource(env: Env)
    requires Configured(env)
    ensures Some(DbUrl(env)) == env.supabaseUrl || (env.supabaseUrl.None? && Some(DbUrl(env)) == env.publicSupabaseUrl)
  {
  }
}
