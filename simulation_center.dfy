/**
 * The simulation page: the average-efficiency card, the status chips, the
 * counters, and the "new simulation" dialog with its form. The dialog is a
 * small state machine: opening shows it, every field handler overwrites one
 * field, cancelling or a successful run hides it and restores the default
 * form, and a failed run leaves everything as it was.
 */
module SimulationCenter {
  import opened Common
  import opened Palette

  /** The part of a run's results the page reads; each figure may be missing. */
  datatype Summary = Summary(avgSpeed: Option<real>, congestionLevel: Option<real>)

  datatype Simulation = Simulation(id: string, name: string, status: string, summary: Option<Summary>)

  /** Completed runs that have a summary are the ones averaged. */
  predicate IsScored(s: Simulation) {
    s.status == "completed" && s.summary.Some?
  }

  function Congestion(s: Simulation): real {
    if s.summary.Some? then s.summary.value.congestionLevel.GetOr(0.0) else 0.0
  }

  /** One run's efficiency: `max(0, 100 - congestion)` when it moved at all, else 0. */
  function Efficiency(s: Simulation): (e: real)
    ensures 0.0 <= e
    ensures Congestion(s) >= 0.0 ==> e <= 100.0
  {
    var speed := if s.summary.Some? then s.summary.value.avgSpeed.GetOr(0.0) else 0.0;
    var c := Congestion(s);
    if speed > 0.0 then (if 100.0 - c > 0.0 then 100.0 - c else 0.0) else 0.0
  }

  predicate CongestionNonNegative(sims: seq<Simulation>) {
    forall i :: 0 <= i < |sims| ==> Congestion(sims[i]) >= 0.0
  }

  /** The sum of the efficiencies, as the `reduce` accumulates it. */
  function TotalEfficiency(sims: seq<Simulation>): (t: real)
    ensures 0.0 <= t
    ensures CongestionNonNegative(sims) ==> t <= 100.0 * |sims| as real
  {
    if sims == [] then 0.0 else Efficiency(sims[0]) + TotalEfficiency(sims[1..])
  }

  /** `Math.round`: halves go up. */
  function Round(x: real): (r: int)
    ensures x - 0.5 < r as real <= x + 0.5
  {
    (x + 0.5).Floor
  }

  /** `calculateAverageEfficiency`. */
  function AverageEfficiency(sims: seq<Simulation>): (r: int)
    ensures Filter(sims, IsScored) == [] ==> r == 0
    ensures Filter(sims, IsScored) != [] ==>
      var c := Filter(sims, IsScored);
      var mean := TotalEfficiency(c) / |c| as real;
      mean - 0.5 < r as real <= mean + 0.5
    ensures 0 <= r
    ensures CongestionNonNegative(sims) ==> r <= 100
  {
    var completed := Filter(sims, IsScored);
    if |completed| == 0 then 0
    else
      CongestionOfFiltered(sims);
      var n := |completed| as real;
      var t := TotalEfficiency(completed);
      MeanBounds(t, n);
      Round(t / n)
  }

  /** A mean of values in [0, 100] lies in [0, 100]. */
  lemma MeanBounds(t: real, n: real)
    requires n > 0.0 && t >= 0.0
    ensures t / n >= 0.0
    ensures t <= 100.0 * n ==> t / n <= 100.0
  {
    assert (t / n) * n == t;
  }

  /** Filtering keeps the non-negative-congestion property. */
  lemma CongestionOfFiltered(sims: seq<Simulation>)
    ensures CongestionNonNegative(sims) ==> CongestionNonNegative(Filter(sims, IsScored))
  {
    if CongestionNonNegative(sims) {
      forall i | 0 <= i < |Filter(sims, IsScored)| ensures Congestion(Filter(sims, IsScored)[i]) >= 0.0 {
        var s := Filter(sims, IsScored)[i];
        FilterMembership(sims, IsScored, s);
      }
    }
  }

  /** A run that never moved, or whose congestion is 100 or more, scores 0 however it is counted. */
  lemma StalledRunsScoreZero(s: Simulation)
    ensures s.summary.None? || s.summary.value.avgSpeed.GetOr(0.0) <= 0.0 ==> Efficiency(s) == 0.0
    ensures Congestion(s) >= 100.0 ==> Efficiency(s) == 0.0
  {
  }

  /** `getStatusColor`. */
  function StatusColor(status: string): (c: Color)
    ensures c == Primary <==> status == "running"
    ensures c == Success <==> status == "completed"
    ensures c == Error <==> status == "failed"
    ensures c == Warning <==> status == "pending"
    ensures c == Default <==> status !in {"running", "completed", "failed", "pending"}
  {
    match status
    case "running" => Primary
    case "completed" => Success
    case "failed" => Error
    case "pending" => Warning
    case _ => Default
  }

  predicate IsRunning(s: Simulation) {
    s.status == "running"
  }

  predicate IsCompleted(s: Simulation) {
    s.status == "completed"
  }

  /** The 'Running' and 'Completed' cards never add up to more than 'Total Simulations'. */
  lemma CountersWithinTotal(sims: seq<Simulation>)
    ensures Count(sims, IsRunning) <= |sims| && Count(sims, IsCompleted) <= |sims|
    ensures Count(sims, IsRunning) + Count(sims, IsCompleted) <= |sims|
    ensures |Filter(sims, IsScored)| <= Count(sims, IsCompleted)
  {
    CountDisjoint(sims, IsRunning, IsCompleted);
    ScoredAreCompleted(sims);
  }

  lemma {:induction false} ScoredAreCompleted(sims: seq<Simulation>)
    ensures |Filter(sims, IsScored)| <= Count(sims, IsCompleted)
  {
    if sims != [] {
      ScoredAreCompleted(sims[1..]);
    }
  }

  /** The dialog's form fields. */
  datatype Form = Form(name: string, description: string, scenario: string, duration: int,
                       trafficIncrease: int, weatherConditions: string, timeOfDay: string)

  const DefaultForm := Form("", "", "traffic-increase", 60, 20, "clear", "morning")

  datatype Parameters = Parameters(duration: int, trafficIncrease: int, weatherConditions: string, timeOfDay: string)

  /** The request body sent to run a simulation. */
  datatype CreateRequest = CreateRequest(name: string, description: string, scenario: string, parameters: Parameters)

  function BuildRequest(f: Form): (r: CreateRequest)
    ensures r.name == f.name && r.description == f.description && r.scenario == f.scenario
    ensures r.parameters.duration == f.duration && r.parameters.trafficIncrease == f.trafficIncrease
    ensures r.parameters.weatherConditions == f.weatherConditions && r.parameters.timeOfDay == f.timeOfDay
  {
    CreateRequest(f.name, f.description, f.scenario,
                  Parameters(f.duration, f.trafficIncrease, f.weatherConditions, f.timeOfDay))
  }

  /** The form a request was built from. */
  function FormOf(r: CreateRequest): Form {
    Form(r.name, r.description, r.scenario, r.parameters.duration, r.parameters.trafficIncrease,
         r.parameters.weatherConditions, r.parameters.timeOfDay)
  }

  /** Building a request loses nothing: the form can be read back from it, and different forms give different requests. */
  lemma BuildRequestLossless(f: Form, g: Form)
    ensures FormOf(BuildRequest(f)) == f
    ensures BuildRequest(f) == BuildRequest(g) ==> f == g
  {
  }

  /** 'Run Simulation' is disabled while the name or description is empty, or a run is pending. */
  function RunDisabled(f: Form, pending: bool): (disabled: bool)
    ensures !disabled <==> f.name != "" && f.description != "" && !pending
  {
    f.name == "" || f.description == "" || pending
  }

  /** `parseInt(value) || 0`: a value that does not parse (`None`) or parses to 0 gives 0. */
  function NumberField(parsed: Option<int>): (n: int)
    ensures parsed.Some? ==> n == parsed.value
    ensures parsed.None? ==> n == 0
  {
    parsed.GetOr(0)
  }

  /** The dialog's state. */
  class Dialog {
    var openDialog: bool
    var form: Form

    constructor ()
      ensures !openDialog && form == DefaultForm
    {
      openDialog := false;
      form := DefaultForm;
    }

    method HandleOpenDialog()
      modifies this
      ensures openDialog && form == old(form)
    {
      openDialog := true;
    }

    /** Cancelling hides the dialog and restores every default. */
    method HandleCloseDialog()
      modifies this
      ensures !openDialog && form == DefaultForm
    {
      openDialog := false;
      form := DefaultForm;
    }

    method SetName(value: string)
      modifies this
      ensures form == old(form).(name := value) && openDialog == old(openDialog)
    {
      form := form.(name := value);
    }

    method SetDescription(value: string)
      modifies this
      ensures form == old(form).(description := value) && openDialog == old(openDialog)
    {
      form := form.(description := value);
    }

    method SetScenario(value: string)
      modifies this
      ensures form == old(form).(scenario := value) && openDialog == old(openDialog)
    {
      form := form.(scenario := value);
    }

    method SetDuration(parsed: Option<int>)
      modifies this
      ensures form == old(form).(duration := NumberField(parsed)) && openDialog == old(openDialog)
    {
      form := form.(duration := NumberField(parsed));
    }

    method SetTrafficIncrease(parsed: Option<int>)
      modifies this
      ensures form == old(form).(trafficIncrease := NumberField(parsed)) && openDialog == old(openDialog)
    {
      form := form.(trafficIncrease := NumberField(parsed));
    }

    method SetWeatherConditions(value: string)
      modifies this
      ensures form == old(form).(weatherConditions := value) && openDialog == old(openDialog)
    {
      form := form.(weatherConditions := value);
    }

    method SetTimeOfDay(value: string)
      modifies this
      ensures form == old(form).(timeOfDay := value) && openDialog == old(openDialog)
    {
      form := form.(timeOfDay := value);
    }

    /**
     * Sends the request built from the current form; `succeeded` is the
     * server's answer. Success runs the close handler, failure only logs.
     */
    method HandleRunSimulation(succeeded: bool) returns (request: CreateRequest)
      modifies this
      ensures request == BuildRequest(old(form))
      ensures succeeded ==> !openDialog && form == DefaultForm
      ensures !succeeded ==> openDialog == old(openDialog) && form == old(form)
    {
      request := BuildRequest(form);
      if succeeded {
        HandleCloseDialog();
      }
    }
  }
}
