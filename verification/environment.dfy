/** Environment resolution: the single flag every other part of the
    configuration consults. The process environment is read once; here its
    `NODE_ENV` entry is a parameter, `None` when the variable is unset. */
module Environment {
  import opened Wrappers

  datatype Env = Development | Production

  /** The only value of NODE_ENV that selects development. */
  const DevelopmentToken: string := "development"

  /** `isDev`: true exactly when NODE_ENV is the development token. */
  predicate IsDev(env: Env) {
    env.Development?
  }

  /** `isProd`: defined in the configuration as the negation of `isDev`. */
  predicate IsProd(env: Env) {
    !IsDev(env)
  }

  /** Resolves the environment from the value of NODE_ENV. A strict string
      comparison: an absent variable and every other string are production. */
  function Resolve(nodeEnv: Option<string>): (env: Env)
    ensures IsDev(env) <==> nodeEnv == Some(DevelopmentToken)
    ensures IsProd(env) <==> nodeEnv != Some(DevelopmentToken)
    ensures nodeEnv.None? ==> env == Production
  {
    if nodeEnv == Some(DevelopmentToken) then Development else Production
  }

  /** A value of NODE_ENV that selects `env`. */
  function Token(env: Env): (s: string)
    ensures s != "" && (IsDev(env) <==> s == DevelopmentToken)
  {
    match env
    case Development => DevelopmentToken
    case Production => "production"
  }

  /** Every environment is reachable from some setting of NODE_ENV, and
      resolution recovers it. */
  lemma ResolveToken(env: Env)
    ensures Resolve(Some(Token(env))) == env
  {
  }
}
