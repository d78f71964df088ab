/** The `[Jenkins]` section of the configuration and the default the exporter
    gives the poll interval when loading it. */
module Settings {

  /** Go's `uint64`. */
  newtype uint64 = x: int | 0 <= x < 0x1_0000_0000_0000_0000

  /** Seconds between two polls when the configuration gives none (30 minutes). */
  const DefaultUpdateInterval: uint64 := 1800

  /** The poll interval in effect for a configured value: the value itself unless it
      is not positive, which for an unsigned field means 0. */
  function EffectiveInterval(configured: uint64): (r: uint64)
    ensures 0 < r
    ensures 0 < configured ==> r == configured
    ensures configured == 0 ==> r == DefaultUpdateInterval
  {
    if configured <= 0 then DefaultUpdateInterval else configured
  }

  /** The configuration as decoded, updated in place when the default is applied. */
  class JenkinsSettings {
    var url: string
    var user: string
    var password: string
    var jobs: seq<string>
    var updateInterval: uint64

    constructor (url: string, user: string, password: string, jobs: seq<string>, updateInterval: uint64)
      ensures this.url == url && this.user == user && this.password == password
      ensures this.jobs == jobs && this.updateInterval == updateInterval
    {
      this.url := url;
      this.user := user;
      this.password := password;
      this.jobs := jobs;
      this.updateInterval := updateInterval;
    }

    /** Gives a non-positive update interval its default; leaves everything else as it was. */
    method ApplyIntervalDefault()
      modifies this`updateInterval
      ensures updateInterval == EffectiveInterval(old(updateInterval))
      ensures 0 < updateInterval
    {
      if updateInterval <= 0 {
        updateInterval := DefaultUpdateInterval;
      }
    }
  }
}
