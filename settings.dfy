/** The client's configuration, as far as the client's decisions read it. */
module Settings {

  datatype KeyIDSettings = KeyIDSettings(
    loginEnrollment: bool,      // Login evaluates and enrolls instead of only evaluating
    customThreshold: bool,      // Match is decided by the thresholds below, not by the service
    thresholdConfidence: real,
    thresholdFidelity: real)

  /** The defaults a freshly constructed settings object carries. */
  const Defaults := KeyIDSettings(false, false, 70.0, 50.0)
}
