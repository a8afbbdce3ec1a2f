/**
 * The impact scale shared by the construction and events pages: the same
 * high/medium/low colour and label maps appear in both.
 */
module ImpactScale {
  import opened Palette

  /** `getImpactColor`: high, medium and low are error, warning and success; anything else is info. */
  function ImpactColor(impact: string): (c: Color)
    ensures c == Error <==> impact == "high"
    ensures c == Warning <==> impact == "medium"
    ensures c == Success <==> impact == "low"
    ensures c == Info <==> impact !in {"high", "medium", "low"}
  {
    match impact
    case "high" => Error
    case "medium" => Warning
    case "low" => Success
    case _ => Info
  }

  /** `getImpactLabel`: the three levels capitalised, anything else unchanged. */
  function ImpactLabel(impact: string): (name: string)
    ensures name != impact <==> impact in {"high", "medium", "low"}
    ensures name in {"High", "Medium", "Low"} || name == impact
  {
    match impact
    case "high" => "High"
    case "medium" => "Medium"
    case "low" => "Low"
    case _ => impact
  }

  /** Labelling is idempotent, and the three levels get three different labels. */
  lemma ImpactLabelStable(impact: string, other: string)
    ensures ImpactLabel(ImpactLabel(impact)) == ImpactLabel(impact)
    ensures impact in {"high", "medium", "low"} && other in {"high", "medium", "low"} && impact != other ==>
      ImpactLabel(impact) != ImpactLabel(other)
  {
  }
}

/**
 * The construction page: the projects displayed (the fetched ones, or three
 * samples on error or an empty answer), the colour and label maps, the four
 * metric cards and one map marker per project.
 */
module ConstructionIndicator {
  import opened Common
  import opened Palette
  import opened ImpactScale

  datatype Project = Project(id: string, projectName: string, location: string, status: string,
                             progress: int, impact: string, affectedAreas: seq<string>)

  const MockProjects: seq<Project> := [
    Project("1", "Bridge Repair - North Side", "North Bridge", "in-progress", 65, "high", ["North Bridge", "River Road"]),
    Project("2", "Road Resurfacing - Main St", "Main Street", "planned", 0, "medium", ["Main Street"]),
    Project("3", "Subway Extension", "City Center", "in-progress", 80, "high",
            ["City Center", "Station Plaza", "Underground Tunnel", "Access Roads"])
  ]

  /** `error ? mockProjects : (projects.length > 0 ? projects : mockProjects)`. */
  function DisplayProjects(fetched: seq<Project>, failed: bool): (r: seq<Project>)
    ensures r == fetched || r == MockProjects
    ensures r == fetched <==> (!failed && fetched != []) || fetched == MockProjects
    ensures |r| > 0
  {
    if failed then MockProjects else if |fetched| > 0 then fetched else MockProjects
  }

  /** `getStatusColor`. */
  function StatusColor(status: string): (c: Color)
    ensures c == Primary <==> status == "in-progress"
    ensures c == Warning <==> status == "planned"
    ensures c == Success <==> status == "completed"
    ensures c == Default <==> status !in {"in-progress", "planned", "completed"}
  {
    match status
    case "in-progress" => Primary
    case "planned" => Warning
    case "completed" => Success
    case _ => Default
  }

  /** `getStatusLabel`. */
  function StatusLabel(status: string): (name: string)
    ensures status == "in-progress" ==> name == "In Progress"
    ensures status == "planned" ==> name == "Scheduled"
    ensures status == "completed" ==> name == "Completed"
    ensures status !in {"in-progress", "planned", "completed"} ==> name == status
  {
    match status
    case "in-progress" => "In Progress"
    case "planned" => "Scheduled"
    case "completed" => "Completed"
    case _ => status
  }

  /** Different known states get different labels, and labelling a label changes nothing. */
  lemma StatusLabelsDistinct(a: string, b: string)
    requires a in {"in-progress", "planned", "completed"} && b in {"in-progress", "planned", "completed"} && a != b
    ensures StatusLabel(a) != StatusLabel(b)
    ensures StatusLabel(StatusLabel(a)) == StatusLabel(a)
  {
  }

  predicate InProgress(p: Project) {
    p.status == "in-progress"
  }

  predicate HighImpact(p: Project) {
    p.impact == "high"
  }

  /** 'Areas Affected': the affected-area lists' lengths added up. */
  function AreasAffected(ps: seq<Project>): (n: nat)
    ensures ps == [] ==> n == 0
  {
    if ps == [] then 0 else |ps[0].affectedAreas| + AreasAffected(ps[1..])
  }

  /** Every affected-area entry, project after project. */
  function AllAreas(ps: seq<Project>): seq<string> {
    if ps == [] then [] else ps[0].affectedAreas + AllAreas(ps[1..])
  }

  /** The card counts every entry of the concatenated lists, and adding projects adds their areas. */
  lemma {:induction false} AreasAffectedCounts(ps: seq<Project>, qs: seq<Project>)
    ensures AreasAffected(ps) == |AllAreas(ps)|
    ensures AreasAffected(ps + qs) == AreasAffected(ps) + AreasAffected(qs)
  {
    if ps == [] {
      assert ps + qs == qs;
    } else {
      AreasAffectedCounts(ps[1..], qs);
      assert (ps + qs)[0] == ps[0];
      assert (ps + qs)[1..] == ps[1..] + qs;
    }
  }

  predicate Planned(p: Project) {
    p.status == "planned"
  }

  predicate Completed(p: Project) {
    p.status == "completed"
  }

  /**
   * A project has one status, so the in-progress, planned and completed
   * projects together never outnumber 'Total Projects'; the difference is
   * the projects in a state the page does not know.
   */
  lemma {:induction false} StatusesWithinTotal(ps: seq<Project>)
    ensures Count(ps, InProgress) + Count(ps, Planned) + Count(ps, Completed) <= |ps|
    ensures (forall i :: 0 <= i < |ps| ==> ps[i].status in {"in-progress", "planned", "completed"}) ==>
              Count(ps, InProgress) + Count(ps, Planned) + Count(ps, Completed) == |ps|
  {
    if ps != [] {
      StatusesWithinTotal(ps[1..]);
      assert forall i :: 0 <= i < |ps[1..]| ==> ps[1..][i] == ps[i + 1];
    }
  }

  /** The samples: three projects, two in progress, two high-impact, seven affected areas. */
  lemma MockCards()
    ensures |MockProjects| == 3 && Count(MockProjects, InProgress) == 2 && Count(MockProjects, HighImpact) == 2
    ensures AreasAffected(MockProjects) == 7
  {
    var m := MockProjects;
    assert m[1..][1..] == m[2..] && m[2..][1..] == [];
  }

  /** A map marker: the project's position in the list, which sets the offset, and its popup's contents. */
  datatype Marker = Marker(index: nat, projectName: string, progress: int)

  function Markers(ps: seq<Project>): (ms: seq<Marker>)
    ensures |ms| == |ps|
    ensures forall i :: 0 <= i < |ms| ==> ms[i] == Marker(i, ps[i].projectName, ps[i].progress)
  {
    seq(|ps|, i requires 0 <= i < |ps| => Marker(i, ps[i].projectName, ps[i].progress))
  }

  /**
   * Appending projects leaves the existing markers where they were; the new
   * projects' markers follow, numbered on from the old length.
   */
  lemma MarkersExtend(ps: seq<Project>, qs: seq<Project>)
    ensures Markers(ps) <= Markers(ps + qs)
    ensures Markers(ps + qs) == Markers(ps) + Markers(ps + qs)[|ps|..]
    ensures forall j :: 0 <= j < |qs| ==>
              Markers(ps + qs)[|ps| + j] == Marker(|ps| + j, qs[j].projectName, qs[j].progress)
  {
    var ms := Markers(ps + qs);
    assert ms[..|ps|] == Markers(ps);
    assert ms == ms[..|ps|] + ms[|ps|..];
  }
}

/**
 * The events page: the events displayed (the fetched ones, or three samples
 * on error or an empty answer), the colour and label maps and the count
 * cards. The random attendee estimate is not part of this model.
 */
module EventsIndicator {
  import opened Common
  import opened Palette
  import opened ImpactScale

  datatype Event = Event(id: string, name: string, kind: string, location: string, status: string,
                         expectedImpact: string, affectedRoutes: seq<string>)

  const MockEvents: seq<Event> := [
    Event("1", "Music Festival", "Cultural", "Central Park", "planned", "high", ["Route 1", "Route 2"]),
    Event("2", "Marathon Race", "Sports", "City Center", "planned", "high", ["Route 3", "Route 4", "Route 5"]),
    Event("3", "Street Market", "Commercial", "Main Street", "completed", "medium", ["Route 6"])
  ]

  /** `error ? mockEvents : (events.length > 0 ? events : mockEvents)`. */
  function DisplayEvents(fetched: seq<Event>, failed: bool): (r: seq<Event>)
    ensures r == fetched || r == MockEvents
    ensures r == fetched <==> (!failed && fetched != []) || fetched == MockEvents
    ensures |r| > 0
  {
    if failed then MockEvents else if |fetched| > 0 then fetched else MockEvents
  }

  /** `getStatusColor`: completed and unknown states share the default colour. */
  function StatusColor(status: string): (c: Color)
    ensures c == Primary <==> status == "planned"
    ensures c == Success <==> status == "active"
    ensures c == Default <==> status != "planned" && status != "active"
  {
    match status
    case "planned" => Primary
    case "active" => Success
    case "completed" => Default
    case _ => Default
  }

  /** `getStatusLabel`. */
  function StatusLabel(status: string): (name: string)
    ensures status == "planned" ==> name == "Upcoming"
    ensures status == "active" ==> name == "Active"
    ensures status == "completed" ==> name == "Completed"
    ensures status !in {"planned", "active", "completed"} ==> name == status
  {
    match status
    case "planned" => "Upcoming"
    case "active" => "Active"
    case "completed" => "Completed"
    case _ => status
  }

  /** Different known states get different labels. */
  lemma StatusLabelsDistinct(a: string, b: string)
    requires a in {"planned", "active", "completed"} && b in {"planned", "active", "completed"} && a != b
    ensures StatusLabel(a) != StatusLabel(b)
  {
  }

  predicate Upcoming(e: Event) {
    e.status == "planned"
  }

  predicate HighImpact(e: Event) {
    e.expectedImpact == "high"
  }

  predicate Active(e: Event) {
    e.status == "active"
  }

  predicate Completed(e: Event) {
    e.status == "completed"
  }

  /**
   * An event has one status, so 'Upcoming Events' plus the active and the
   * completed events never outnumber 'Total Events', and make it up exactly
   * when every status is one of the three.
   */
  lemma {:induction false} StatusesWithinTotal(es: seq<Event>)
    ensures Count(es, Upcoming) + Count(es, Active) + Count(es, Completed) <= |es|
    ensures (forall i :: 0 <= i < |es| ==> es[i].status in {"planned", "active", "completed"}) ==>
              Count(es, Upcoming) + Count(es, Active) + Count(es, Completed) == |es|
  {
    if es != [] {
      StatusesWithinTotal(es[1..]);
      assert forall i :: 0 <= i < |es[1..]| ==> es[1..][i] == es[i + 1];
    }
  }

  /** The samples: three events, two upcoming and two high-impact. */
  lemma MockCards()
    ensures |MockEvents| == 3 && Count(MockEvents, Upcoming) == 2 && Count(MockEvents, HighImpact) == 2
  {
    var m := MockEvents;
    assert m[1..][1..] == m[2..] && m[2..][1..] == [];
  }

  /** A map marker: the event's position in the list and its popup's contents. */
  datatype Marker = Marker(index: nat, name: string, location: string)

  function Markers(es: seq<Event>): (ms: seq<Marker>)
    ensures |ms| == |es|
    ensures forall i :: 0 <= i < |ms| ==> ms[i] == Marker(i, es[i].name, es[i].location)
  {
    seq(|es|, i requires 0 <= i < |es| => Marker(i, es[i].name, es[i].location))
  }
}
