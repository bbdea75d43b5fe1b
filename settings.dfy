/** The anti-detection settings that the timing engine reads. */
module Settings {

  datatype SafetyConfig = SafetyConfig(
    maxSessionDuration: int,  // seconds of continuous play before a long break
    minBreakDuration: int,    // seconds; declared but read by no modelled code
    breakFrequency: int,      // seconds between scheduled breaks
    minClickDelay: real,      // seconds
    maxClickDelay: real,      // seconds
    randomVariance: real,     // fraction of jitter applied to each delay
    enableFatigue: bool)

  /** The values used when no environment variable overrides them. */
  const DefaultSafety := SafetyConfig(14400, 600, 3600, 0.5, 2.0, 0.3, true)

  /** What the delay bounds of the engine rely on: ordered, non-negative
      click bounds and a variance that keeps the jitter factor non-negative. */
  predicate SaneDelays(cfg: SafetyConfig) {
    && 0.0 <= cfg.minClickDelay <= cfg.maxClickDelay
    && 0.0 <= cfg.randomVariance <= 1.0
  }

  lemma DefaultIsSane()
    ensures SaneDelays(DefaultSafety)
    ensures DefaultSafety.breakFrequency < DefaultSafety.maxSessionDuration
  {
  }
}
