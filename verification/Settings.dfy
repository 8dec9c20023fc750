/** The settings the model depends on, and the checks made when they are read. */
module Settings {

  datatype ResetPolicy = Earliest | Latest | Other

  datatype Config = Config(
    maxAttempts: nat,
    retryInitial: real,
    retryMax: real,
    staleAfter: real,
    checkInterval: real,
    healthMaxAge: real,
    reset: ResetPolicy)

  predicate ValidConfig(cfg: Config) {
    && cfg.maxAttempts > 0
    && 0.0 < cfg.retryInitial <= cfg.retryMax
    && cfg.staleAfter > 0.0
    && 0.0 < cfg.checkInterval <= cfg.healthMaxAge
  }
}
