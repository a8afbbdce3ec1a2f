/**
 * The system-status page, typed build. The status record comes from a
 * polling query; its uptime may arrive as seconds or as an already formatted
 * string, its services carry either the lower-case states of the declared
 * type ('up', 'down', 'maintenance') or the capitalised ones of the untyped
 * page's sample ('Running', 'Warning', 'Error'), and each metric may sit under
 * `metrics` or at the top level. The `services` field may also arrive as a
 * JSON object keyed by service name, which is how the back end's status
 * record serialises its service map; the list code then throws.
 */
module SystemStatus {
  import opened Common
  import opened Palette

  /** The runtime value of an `uptime` field: absent (null or undefined), a number of seconds, or text. */
  datatype UptimeField = Absent | Seconds(n: int) | Text(s: string)

  predicate Truthy(u: UptimeField) {
    match u
    case Absent => false
    case Seconds(n) => n != 0
    case Text(s) => s != ""
  }

  /** What `formatUptime` renders: its text argument as given, 'N/A', or `${days}d ${hours}h ${minutes}m`. */
  datatype UptimeDisplay = AsGiven(field: UptimeField) | NotAvailable | Span(days: int, hours: int, minutes: int) | NotANumber

  /** JavaScript's `%`, whose remainder takes the sign of the dividend. */
  function JsRem(a: int, b: int): (r: int)
    requires b > 0
    ensures a >= 0 ==> 0 <= r < b
    ensures a < 0 ==> -b < r <= 0
  {
    if a >= 0 then a % b else -((-a) % b)
  }

  /** `formatUptime(uptimeSeconds, uptimeString)`; `Math.floor` of a quotient by a positive constant is Euclidean division. */
  function FormatUptime(seconds: UptimeField, text: UptimeField): (r: UptimeDisplay)
    ensures Truthy(text) ==> r == AsGiven(text)
    ensures !Truthy(text) && !Truthy(seconds) ==> r == NotAvailable
    ensures r.Span? <==> !Truthy(text) && Truthy(seconds) && seconds.Seconds?
  {
    if Truthy(text) then AsGiven(text)
    else if !Truthy(seconds) then NotAvailable
    else match seconds
      case Seconds(s) => Span(s / 86400, JsRem(s, 86400) / 3600, JsRem(s, 3600) / 60)
      case _ => NotANumber
  }

  /** Taking the remainder by a day first does not change the remainder by an hour. */
  lemma HourRemainder(s: int)
    requires s >= 0
    ensures (s % 86400) % 3600 == s % 3600
  {
    var q, r := s / 86400, s % 86400;
    var h, t := r / 3600, r % 3600;
    assert s == (q * 24 + h) * 3600 + t;
  }

  /** For a positive number of seconds: fewer than 24 hours, fewer than 60 minutes, and the parts fall short of the total by under a minute. */
  lemma {:induction false} SpanBounds(s: int)
    requires s > 0
    ensures FormatUptime(Seconds(s), Absent).Span?
    ensures var u := FormatUptime(Seconds(s), Absent);
      u.days >= 0 && 0 <= u.hours < 24 && 0 <= u.minutes < 60 &&
      0 <= s - (u.days * 86400 + u.hours * 3600 + u.minutes * 60) < 60
  {
    var u := FormatUptime(Seconds(s), Absent);
    var d, r := s / 86400, s % 86400;
    assert u.days == d && u.hours == r / 3600 && u.minutes == (s % 3600) / 60;
    HourRemainder(s);
    var t := s % 3600;
    assert r == u.hours * 3600 + t;
    assert t == u.minutes * 60 + t % 60;
    assert s == d * 86400 + r;
  }

  /** The page passes the same field as both arguments, so the day/hour/minute rendering never happens there. */
  function UptimeAtCallSite(status: Option<UptimeField>): UptimeDisplay {
    var u := if status.Some? then status.value else Absent;
    FormatUptime(u, u)
  }

  lemma CallSiteNeverSpans(status: Option<UptimeField>)
    ensures !UptimeAtCallSite(status).Span?
    ensures var u := if status.Some? then status.value else Absent;
      UptimeAtCallSite(status) == if Truthy(u) then AsGiven(u) else NotAvailable
  {
  }

  /** `getStatusLabel`: the lower-case states get the capitalised names, anything else is kept. */
  function StatusLabel(status: string): (name: string)
    ensures name != status <==> status in {"up", "down", "maintenance"}
    ensures name in {"Running", "Error", "Warning"} || name == status
  {
    match status
    case "up" => "Running"
    case "down" => "Error"
    case "maintenance" => "Warning"
    case _ => status
  }

  /** `getStatusColor`: both spellings of a state get the same chip colour. */
  function StatusColor(status: string): (c: Color)
    ensures c == Success <==> status in {"up", "Running"}
    ensures c == Warning <==> status in {"maintenance", "Warning"}
    ensures c == Error <==> status in {"down", "Error"}
    ensures c == Default || c == Success || c == Warning || c == Error
  {
    match status
    case "up" => Success
    case "Running" => Success
    case "maintenance" => Warning
    case "Warning" => Warning
    case "down" => Error
    case "Error" => Error
    case _ => Default
  }

  /** Labelling twice is labelling once, and a label has the colour of the state it names. */
  lemma LabelColorAgree(status: string)
    ensures StatusLabel(StatusLabel(status)) == StatusLabel(status)
    ensures StatusColor(StatusLabel(status)) == StatusColor(status)
  {
  }

  datatype Service = Service(name: string, status: string)

  /** Overall verdict: chip colour and text. */
  datatype Overall = Overall(color: Color, text: string)

  predicate IsDown(s: Service) {
    s.status == "down" || s.status == "Error"
  }

  predicate IsDegraded(s: Service) {
    s.status == "maintenance" || s.status == "Warning"
  }

  /**
   * The runtime value of a status record's `services` field: missing (null
   * or undefined), an array of services, or an object keyed by service name
   * (name to state), on which `filter` is not a function.
   */
  datatype ServicesField = Missing | Items(items: seq<Service>) | Keyed(states: map<string, string>)

  /** The verdict, or the type error thrown when `filter` is called on something that is not an array. */
  datatype Verdict = Shown(overall: Overall) | TypeError

  /** `getOverallStatus`: no status is loading; a missing service list counts as empty; an object throws. */
  function OverallStatus(services: Option<ServicesField>): (v: Verdict)
    ensures services.None? <==> v == Shown(Overall(Default, "Loading..."))
    ensures v == TypeError <==> services.Some? && services.value.Keyed?
    ensures var ss := if services.Some? && services.value.Items? then services.value.items else [];
      var listed := services.Some? && !services.value.Keyed?;
      (v.Shown? && v.overall.text == "Critical" <==> listed && exists i :: 0 <= i < |ss| && IsDown(ss[i])) &&
      (v.Shown? && v.overall.text == "Warning" <==>
         listed && (forall i :: 0 <= i < |ss| ==> !IsDown(ss[i])) && exists i :: 0 <= i < |ss| && IsDegraded(ss[i])) &&
      (v.Shown? && v.overall.text == "Healthy" <==> listed && forall i :: 0 <= i < |ss| ==> !IsDown(ss[i]) && !IsDegraded(ss[i]))
  {
    if services.None? then Shown(Overall(Default, "Loading..."))
    else if services.value.Keyed? then TypeError
    else
      var ss := if services.value.Items? then services.value.items else [];
      CountPositiveIff(ss, IsDown);
      CountPositiveIff(ss, IsDegraded);
      if Count(ss, IsDown) > 0 then Shown(Overall(Error, "Critical"))
      else if Count(ss, IsDegraded) > 0 then Shown(Overall(Warning, "Warning"))
      else Shown(Overall(Success, "Healthy"))
  }

  /** A verdict's colour is determined by its text. */
  lemma OverallColorFollowsText(services: Option<ServicesField>)
    ensures var v := OverallStatus(services);
      v.Shown? ==>
        (v.overall.text == "Critical" ==> v.overall.color == Error) && (v.overall.text == "Warning" ==> v.overall.color == Warning) &&
        (v.overall.text == "Healthy" ==> v.overall.color == Success)
  {
  }

  /** The colour of a usage bar. */
  function UsageColor(x: real): (c: Color)
    ensures c == Error <==> x > 80.0
    ensures c == Warning <==> 60.0 < x <= 80.0
    ensures c == Primary <==> x <= 60.0
  {
    if x > 80.0 then Error else if x > 60.0 then Warning else Primary
  }

  function Severity(c: Color): nat {
    match c
    case Error => 2
    case Warning => 1
    case _ => 0
  }

  /** A higher usage never shows a milder colour. */
  lemma UsageColorMonotone(x: real, y: real)
    requires x <= y
    ensures Severity(UsageColor(x)) <= Severity(UsageColor(y))
  {
  }

  /** The four readings, each possibly null or undefined. */
  datatype Metrics = Metrics(cpuUsage: Option<real>, memoryUsage: Option<real>, diskUsage: Option<real>, activeConnections: Option<real>)

  /** The parts of a status record the metric cards read: the nested `metrics` object and the top-level fields. */
  datatype MetricSources = MetricSources(nested: Option<Metrics>, flat: Metrics)

  /** `status?.metrics?.x ?? status?.x ?? 0`: only null and undefined fall through, so a reported 0 is kept. */
  function Pick(nested: Option<real>, flat: Option<real>): (v: real)
    ensures nested.Some? ==> v == nested.value
    ensures nested.None? && flat.Some? ==> v == flat.value
    ensures nested.None? && flat.None? ==> v == 0.0
  {
    nested.GetOr(flat.GetOr(0.0))
  }

  datatype Readings = Readings(cpu: real, memory: real, disk: real, connections: real)

  function Displayed(status: Option<MetricSources>): (r: Readings)
    ensures status.None? ==> r == Readings(0.0, 0.0, 0.0, 0.0)
    ensures status.Some? && status.value.nested.Some? ==> r == Readings(
      Pick(status.value.nested.value.cpuUsage, status.value.flat.cpuUsage),
      Pick(status.value.nested.value.memoryUsage, status.value.flat.memoryUsage),
      Pick(status.value.nested.value.diskUsage, status.value.flat.diskUsage),
      Pick(status.value.nested.value.activeConnections, status.value.flat.activeConnections))
  {
    if status.None? then Readings(0.0, 0.0, 0.0, 0.0)
    else
      var n := status.value.nested.GetOr(Metrics(None, None, None, None));
      var f := status.value.flat;
      Readings(Pick(n.cpuUsage, f.cpuUsage), Pick(n.memoryUsage, f.memoryUsage),
               Pick(n.diskUsage, f.diskUsage), Pick(n.activeConnections, f.activeConnections))
  }

  /** Without a nested object every reading is the top-level one, or 0. */
  lemma FlatFallback(flat: Metrics)
    ensures Displayed(Some(MetricSources(None, flat))) ==
      Readings(flat.cpuUsage.GetOr(0.0), flat.memoryUsage.GetOr(0.0), flat.diskUsage.GetOr(0.0), flat.activeConnections.GetOr(0.0))
  {
  }
}

/**
 * The system-status page, untyped build. It keeps the fetched status in
 * component state, installs a fixed sample when the fetch fails, and reads the
 * capitalised service states and the top-level metric fields only.
 */
module SystemStatusUntyped {
  import opened Common
  import opened Palette
  import SystemStatus

  /** The fields of a status record this page reads; a missing field is `None`. */
  datatype Status = Status(uptime: SystemStatus.UptimeField, cpuUsage: Option<real>, memoryUsage: Option<real>,
                           diskUsage: Option<real>, activeConnections: Option<real>,
                           services: SystemStatus.ServicesField)

  /** `getStatusColor`: only the capitalised states are recognised. */
  function StatusColor(status: string): (c: Color)
    ensures c == Success <==> status == "Running"
    ensures c == Warning <==> status == "Warning"
    ensures c == Error <==> status == "Error"
    ensures c == Default <==> status !in {"Running", "Warning", "Error"}
  {
    match status
    case "Running" => Success
    case "Warning" => Warning
    case "Error" => Error
    case _ => Default
  }

  /** On capitalised states this build colours as the typed one does; the lower-case states get the default colour here. */
  lemma ColorsAgreeOnCapitalised(status: string)
    ensures status in {"Running", "Warning", "Error"} ==> StatusColor(status) == SystemStatus.StatusColor(status)
    ensures status in {"up", "down", "maintenance"} ==> StatusColor(status) == Default != SystemStatus.StatusColor(status)
  {
  }

  predicate IsError(s: SystemStatus.Service) {
    s.status == "Error"
  }

  predicate IsWarning(s: SystemStatus.Service) {
    s.status == "Warning"
  }

  /** `getOverallStatus`: the service list is read without a fallback, so a missing list or an object throws. */
  function OverallStatus(status: Option<Status>): (v: SystemStatus.Verdict)
    ensures v == SystemStatus.TypeError <==> status.Some? && !status.value.services.Items?
    ensures status.None? ==> v == SystemStatus.Shown(SystemStatus.Overall(Default, "Loading..."))
    ensures status.Some? && status.value.services.Items? ==> var ss := status.value.services.items;
      (v == SystemStatus.Shown(SystemStatus.Overall(Error, "Critical")) <==> exists i :: 0 <= i < |ss| && IsError(ss[i])) &&
      (v == SystemStatus.Shown(SystemStatus.Overall(Warning, "Warning")) <==>
         (forall i :: 0 <= i < |ss| ==> !IsError(ss[i])) && exists i :: 0 <= i < |ss| && IsWarning(ss[i])) &&
      (v == SystemStatus.Shown(SystemStatus.Overall(Success, "Healthy")) <==>
         forall i :: 0 <= i < |ss| ==> !IsError(ss[i]) && !IsWarning(ss[i]))
  {
    if status.None? then SystemStatus.Shown(SystemStatus.Overall(Default, "Loading..."))
    else if !status.value.services.Items? then SystemStatus.TypeError
    else
      var ss := status.value.services.items;
      CountPositiveIff(ss, IsError);
      CountPositiveIff(ss, IsWarning);
      if Count(ss, IsError) > 0 then SystemStatus.Shown(SystemStatus.Overall(Error, "Critical"))
      else if Count(ss, IsWarning) > 0 then SystemStatus.Shown(SystemStatus.Overall(Warning, "Warning"))
      else SystemStatus.Shown(SystemStatus.Overall(Success, "Healthy"))
  }

  /** The sample installed when the fetch fails. */
  const MockStatus: Status := Status(
    SystemStatus.Text("15d 7h 32m"), Some(45.0), Some(68.0), Some(52.0), Some(247.0),
    SystemStatus.Items([
      SystemStatus.Service("API Gateway", "Running"),
      SystemStatus.Service("Database", "Running"),
      SystemStatus.Service("Cache Server", "Running"),
      SystemStatus.Service("Message Queue", "Running"),
      SystemStatus.Service("Data Analytics", "Warning"),
      SystemStatus.Service("Notification Service", "Running")
    ]))

  /** The sample has six services, one of them 'Warning' and none 'Error', so its verdict is 'Warning'. */
  lemma {:induction false} MockVerdict()
    ensures OverallStatus(Some(MockStatus)) == SystemStatus.Shown(SystemStatus.Overall(Warning, "Warning"))
    ensures MockStatus.services.Items? && |MockStatus.services.items| == 6
  {
    var ss := MockStatus.services.items;
    assert IsWarning(ss[4]);
    assert forall i :: 0 <= i < |ss| ==> !IsError(ss[i]);
  }

  /** `status?.x > 80 ? 'error' : status?.x > 60 ? 'warning' : 'primary'`: a missing reading compares false and gets 'primary'. */
  function UsageColor(reading: Option<real>): (c: Color)
    ensures reading.None? ==> c == Primary
    ensures reading.Some? ==> c == SystemStatus.UsageColor(reading.value)
  {
    if reading.Some? && reading.value > 80.0 then Error
    else if reading.Some? && reading.value > 60.0 then Warning
    else Primary
  }

  /** `status?.x || 0`: a missing reading shows as 0. */
  function BarValue(reading: Option<real>): (v: real)
    ensures reading.None? ==> v == 0.0
    ensures reading.Some? ==> v == reading.value
  {
    reading.GetOr(0.0)
  }

  /** The bar's colour always matches the value it draws. */
  lemma ColorMatchesBar(reading: Option<real>)
    ensures UsageColor(reading) == SystemStatus.UsageColor(BarValue(reading))
  {
  }

  /** The page's state: the last status (null before the first fetch) and the loading flag. */
  class Page {
    var status: Option<Status>
    var loading: bool

    constructor ()
      ensures status.None? && !loading
    {
      status := None;
      loading := false;
    }

    /** One poll: the server's status, or the sample when the call fails (`response` is `None`). */
    method FetchSystemStatus(response: Option<Status>)
      modifies this
      ensures status == Some(response.GetOr(MockStatus))
      ensures !loading
    {
      loading := true;
      match response {
        case Some(data) => status := Some(data);
        case None => status := Some(MockStatus);
      }
      loading := false;
    }

    function Verdict(): SystemStatus.Verdict
      reads this
    {
      OverallStatus(status)
    }
  }

  /**
   * What the back end's status endpoint answers: the four services as an
   * object keyed by name, each 'healthy', the uptime in seconds (`now` stands
   * for the clock) and no metrics.
   */
  function BackendStatus(now: int): (st: Status)
    ensures st.services.Keyed? && st.services.states.Keys == {"database", "cache", "api", "monitoring"}
    ensures forall k | k in st.services.states :: st.services.states[k] == "healthy"
    ensures st.uptime == SystemStatus.Seconds(now)
  {
    Status(SystemStatus.Seconds(now), None, None, None, None,
           SystemStatus.Keyed(map["database" := "healthy", "cache" := "healthy", "api" := "healthy", "monitoring" := "healthy"]))
  }

  /** Every answer the back end gives makes both builds of the page throw when they compute the verdict. */
  lemma BackendStatusThrows(now: int)
    ensures OverallStatus(Some(BackendStatus(now))) == SystemStatus.TypeError
    ensures SystemStatus.OverallStatus(Some(BackendStatus(now).services)) == SystemStatus.TypeError
  {
  }

  /** After a failed poll the page reports 'Warning'. */
  lemma FailedFetchShowsWarning(p: Page)
    requires p.status == Some(MockStatus)
    ensures p.Verdict() == SystemStatus.Shown(SystemStatus.Overall(Warning, "Warning"))
  {
    MockVerdict();
  }
}
