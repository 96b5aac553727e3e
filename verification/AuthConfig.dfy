/** Token lifetimes, configured independently of each other. */
module AuthConfig {

  datatype Config = Config(
    accessTokenExpiresIn: nat,               // JWT lifetime, seconds
    accessTokenCacheExpiresIn: nat,          // access cache entries, ms
    accessTokenBlacklistCacheExpiresIn: int, // blacklist entries, ms; not positive means unset
    refreshTokenCacheExpiresIn: nat          // refresh cache entries, ms
  )

  const Defaults := Config(60 * 60, 60 * 60 * 1000, 60 * 60 * 1000, 60 * 60 * 24 * 14 * 1000)

  /** The blacklist loop's own fallback of one hour. */
  function BlacklistTtl(cfg: Config): (ttl: nat)
    ensures ttl > 0
  {
    if cfg.accessTokenBlacklistCacheExpiresIn > 0 then cfg.accessTokenBlacklistCacheExpiresIn
    else 60 * 60 * 1000
  }

  /** A refresh row expires this many minutes after it is created. */
  const RefreshRowMinutes := 60 * 24 * 14

  /** `addMinutes` of date-fns, on a clock in ms. */
  function AddMinutes(now: nat, minutes: nat): nat {
    now + minutes * 60 * 1000
  }

  /** Lifetimes the store and the signer accept: none is zero. */
  predicate Usable(cfg: Config) {
    cfg.accessTokenExpiresIn > 0 && cfg.accessTokenCacheExpiresIn > 0 && cfg.refreshTokenCacheExpiresIn > 0
  }

  /** The inequalities under which caching and blacklisting outlast every JWT. */
  predicate TtlsCoverJwt(cfg: Config) {
    && cfg.accessTokenCacheExpiresIn >= cfg.accessTokenExpiresIn * 1000
    && BlacklistTtl(cfg) >= cfg.accessTokenExpiresIn * 1000
  }

  /** The shipped defaults meet every inequality; 14 days in minutes and in ms agree exactly. */
  lemma DefaultsSuffice(now: nat)
    ensures Usable(Defaults) && TtlsCoverJwt(Defaults)
    ensures now + Defaults.refreshTokenCacheExpiresIn == AddMinutes(now, RefreshRowMinutes)
  {
  }
}
