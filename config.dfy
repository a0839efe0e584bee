/**
 * The gateway's settings and the defaulting that `LoadConfig` applies after the
 * JSON has been decoded: every field left at its zero value gets a constant default.
 */
module Configuration {

  datatype Config = Config(
    listenAddr: string,
    proxiesFile: string,
    timeout: int,        // seconds
    workerCount: int,
    metricsAddr: string,
    checkInterval: int,  // seconds
    maxIdleConns: int)

  const DefaultListenAddr: string := ":8082"
  const DefaultProxiesFile: string := "proxies.json"
  const DefaultTimeout: int := 10
  const DefaultWorkerCount: int := 2000
  const DefaultMetricsAddr: string := ":9090"
  const DefaultCheckInterval: int := 30
  const DefaultMaxIdleConns: int := 10000

  /** No field is at its zero value: every string is non-empty, every number non-zero. */
  predicate Complete(c: Config) {
    && c.listenAddr != "" && c.proxiesFile != "" && c.metricsAddr != ""
    && c.timeout != 0 && c.workerCount != 0 && c.checkInterval != 0 && c.maxIdleConns != 0
  }

  /** `r` keeps every field of `c` that is not at its zero value, negative numbers included. */
  predicate KeepsSetFields(c: Config, r: Config) {
    && (c.listenAddr != "" ==> r.listenAddr == c.listenAddr)
    && (c.proxiesFile != "" ==> r.proxiesFile == c.proxiesFile)
    && (c.timeout != 0 ==> r.timeout == c.timeout)
    && (c.workerCount != 0 ==> r.workerCount == c.workerCount)
    && (c.metricsAddr != "" ==> r.metricsAddr == c.metricsAddr)
    && (c.checkInterval != 0 ==> r.checkInterval == c.checkInterval)
    && (c.maxIdleConns != 0 ==> r.maxIdleConns == c.maxIdleConns)
  }

  /** `r` holds the constant default wherever `c` holds a zero value. */
  predicate FillsZeroFields(c: Config, r: Config) {
    && (c.listenAddr == "" ==> r.listenAddr == DefaultListenAddr)
    && (c.proxiesFile == "" ==> r.proxiesFile == DefaultProxiesFile)
    && (c.timeout == 0 ==> r.timeout == DefaultTimeout)
    && (c.workerCount == 0 ==> r.workerCount == DefaultWorkerCount)
    && (c.metricsAddr == "" ==> r.metricsAddr == DefaultMetricsAddr)
    && (c.checkInterval == 0 ==> r.checkInterval == DefaultCheckInterval)
    && (c.maxIdleConns == 0 ==> r.maxIdleConns == DefaultMaxIdleConns)
  }

  /**
   * The defaulting block of `LoadConfig`, one `if` per field in the source's
   * order, each replacing a zero value in the decoded record.
   */
  method ApplyDefaults(decoded: Config) returns (config: Config)
    ensures FillsZeroFields(decoded, config)
    ensures KeepsSetFields(decoded, config)
    ensures Complete(config)
  {
    config := decoded;
    if config.listenAddr == "" {
      config := config.(listenAddr := DefaultListenAddr);
    }
    if config.proxiesFile == "" {
      config := config.(proxiesFile := DefaultProxiesFile);
    }
    if config.timeout == 0 {
      config := config.(timeout := DefaultTimeout);
    }
    if config.workerCount == 0 {
      config := config.(workerCount := DefaultWorkerCount);
    }
    if config.metricsAddr == "" {
      config := config.(metricsAddr := DefaultMetricsAddr);
    }
    if config.checkInterval == 0 {
      config := config.(checkInterval := DefaultCheckInterval);
    }
    if config.maxIdleConns == 0 {
      config := config.(maxIdleConns := DefaultMaxIdleConns);
    }
  }

  /** A record that keeps the set fields and fills the zero ones is unique. */
  lemma DefaultingDetermined(c: Config, r1: Config, r2: Config)
    requires FillsZeroFields(c, r1) && KeepsSetFields(c, r1)
    requires FillsZeroFields(c, r2) && KeepsSetFields(c, r2)
    ensures r1 == r2
  {
  }

  /**
   * Defaulting is idempotent: a record that went through it once (and so is
   * complete) comes out of it again unchanged.
   */
  lemma DefaultingIdempotent(c: Config, r: Config)
    requires Complete(c)
    requires FillsZeroFields(c, r) && KeepsSetFields(c, r)
    ensures r == c
  {
  }
}
