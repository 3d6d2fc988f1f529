/** The slice of the process-management package that the API server drives:
    the settings of a process, its health check, its argument set and a
    state object with `Init`, `Start` and `Stop`. What these do inside
    (locating binaries, creating directories, launching and polling the
    process) is supplied from outside, as an initialisation function and as
    the outcomes of starting and stopping. */
module Process {
  import opened Results
  import opened Url

  /** Where a process runs and how long starting and stopping may take
      (durations in nanoseconds). */
  datatype Settings = Settings(dir: string, path: string, startTimeout: int, stopTimeout: int)

  /** The endpoint polled to decide that the process is up. */
  datatype HealthCheck = HealthCheck(url: URL, path: string)

  const ZeroHealthCheck := HealthCheck(ZeroURL, "")

  /** What initialisation does to the settings of a named process: fills in
      its defaults, or fails. */
  type Initializer = (string, Settings) -> Result<Settings>

  /** A structured set of command-line flags. */
  class Arguments {
    var values: map<string, seq<string>>

    constructor Empty()
      ensures values == map[]
    {
      values := map[];
    }
  }

  /** A value view of a process state: its settings, health check and final
      argument list. */
  datatype Snapshot = Snapshot(settings: Settings, healthCheck: HealthCheck, args: seq<string>)

  /** The state of one managed process. `starts` and `stops` count the calls
      that reached the process. */
  class State {
    var settings: Settings
    var healthCheck: HealthCheck
    var args: seq<string>
    var starts: nat
    var stops: nat

    /** A state holding only the given settings. */
    constructor (settings: Settings)
      ensures this.settings == settings && healthCheck == ZeroHealthCheck && args == []
      ensures starts == 0 && stops == 0
    {
      this.settings := settings;
      healthCheck := ZeroHealthCheck;
      args := [];
      starts := 0;
      stops := 0;
    }

    function View(): Snapshot
      reads this
    {
      Snapshot(settings, healthCheck, args)
    }

    /** Applies the defaults initialisation chooses for the process `name`;
        on failure the settings are left as they were. */
    method Init(name: string, init: Initializer) returns (err: Option<Error>)
      modifies this
      ensures init(name, old(settings)).Ok? ==>
        settings == init(name, old(settings)).value && err == None
      ensures init(name, old(settings)).Err? ==>
        settings == old(settings) && err == Some(init(name, old(settings)).error)
      ensures healthCheck == old(healthCheck) && args == old(args)
      ensures starts == old(starts) && stops == old(stops)
    {
      var r := init(name, settings);
      if r.Err? {
        return Some(r.error);
      }
      settings := r.value;
      err := None;
    }

    /** Launches the process; `outcome` is what launching and waiting for the
        health check reported. */
    method Start(outcome: Option<Error>) returns (err: Option<Error>)
      modifies this
      ensures err == outcome
      ensures View() == old(View()) && starts == old(starts) + 1 && stops == old(stops)
    {
      starts := starts + 1;
      err := outcome;
    }

    /** Stops the process; `outcome` is what stopping reported. */
    method Stop(outcome: Option<Error>) returns (err: Option<Error>)
      modifies this
      ensures err == outcome
      ensures View() == old(View()) && stops == old(stops) + 1 && starts == old(starts)
    {
      stops := stops + 1;
      err := outcome;
    }
  }
}
