/**
 * The process environment the utilities consult, as an explicit value.
 */
module RuntimeEnv {
  import opened Wrappers

  /** NODE_ENV, NETLIFY_DEV and ALLOWED_ORIGINS, each possibly unset. */
  datatype Env = Env(nodeEnv: Option<string>, netlifyDev: Option<string>, allowedOrigins: Option<string>)

  /** `isDevelopment`: NODE_ENV is "development" or NETLIFY_DEV is "true". */
  predicate IsDevelopment(env: Env) {
    env.nodeEnv == Some("development") || env.netlifyDev == Some("true")
  }
}
