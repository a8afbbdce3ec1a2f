/**
 * The back end's in-memory notification and simulation tables, each a map
 * from id to record with its own id counter. Notifications are seeded with
 * ids 1 to 3 and can be marked read one at a time or all at once;
 * simulations are seeded with one completed run, and each new run is stored
 * as running under the next id.
 *
 * As written, the simulation counter starts at 1 although the seeded run
 * already has id 1, so the first new run replaces it. `SeededAsWritten` and
 * `FirstRunReplacesSeed` record that; the service here starts the counter at
 * 2, which keeps every counter above the ids in its table.
 *
 * Timestamps, the seeded run's results and the thread that later completes
 * a run are not part of this model.
 */
module MockData {
  import opened Common

  datatype Notification = Notification(id: int, title: string, message: string, kind: string, read: bool, userId: string)

  /** A run; each parameter value is held as the string its `toString` gives. */
  datatype Simulation = Simulation(id: int, name: string, kind: string, status: string,
                                   parameters: map<string, string>, createdBy: string)

  /** The service's state: the two tables and their counters. */
  datatype Tables = Tables(simulations: map<int, Simulation>, notifications: map<int, Notification>,
                           nextSimulationId: int, nextNotificationId: int)

  /** Every stored id is below its table's counter, so the next id is always fresh. */
  predicate CountersAhead(t: Tables) {
    (forall id :: id in t.simulations ==> id < t.nextSimulationId) &&
    (forall id :: id in t.notifications ==> id < t.nextNotificationId)
  }

  /** Every record is stored under its own id. */
  predicate KeyedById(t: Tables) {
    (forall id :: id in t.simulations ==> t.simulations[id].id == id) &&
    (forall id :: id in t.notifications ==> t.notifications[id].id == id)
  }

  /** `createNotification`: the next id, the given fields, addressed to admin. */
  function AddNotification(t: Tables, title: string, message: string, kind: string, read: bool): Tables {
    var n := Notification(t.nextNotificationId, title, message, kind, read, "admin");
    t.(notifications := t.notifications[n.id := n], nextNotificationId := t.nextNotificationId + 1)
  }

  /** `initNotifications` from empty tables whose simulation counter is `simulationCounter`. */
  function SeedNotifications(simulationCounter: int): Tables {
    var t := Tables(map[], map[], simulationCounter, 1);
    var t := AddNotification(t, "System Update", "System maintenance scheduled for tonight", "info", false);
    var t := AddNotification(t, "Traffic Alert", "Heavy traffic detected on Main Street", "warning", false);
    AddNotification(t, "Simulation Complete", "Traffic simulation #123 has completed", "success", true)
  }

  /** The seeded run, id 1. */
  const SeededRun := Simulation(1, "Morning Traffic Analysis", "traffic", "completed",
                                map["duration" := "60", "trafficDensity" := "high"], "admin")

  /** `initSimulations`. */
  function SeedSimulations(t: Tables): Tables {
    t.(simulations := t.simulations[SeededRun.id := SeededRun])
  }

  /** The constructor as written: the simulation counter is still at 1. */
  function SeededAsWritten(): Tables {
    SeedSimulations(SeedNotifications(1))
  }

  /** The constructor with the simulation counter past the seeded run. */
  function Seeded(): Tables {
    SeedSimulations(SeedNotifications(2))
  }

  /** Both seeds: notifications 1, 2, 3 of which only the third is read, and the one seeded run. */
  lemma SeedContents()
    ensures Seeded().notifications == SeededAsWritten().notifications
    ensures Seeded().notifications.Keys == {1, 2, 3} && Seeded().nextNotificationId == 4
    ensures !Seeded().notifications[1].read && !Seeded().notifications[2].read && Seeded().notifications[3].read
    ensures Seeded().simulations == SeededAsWritten().simulations == map[1 := SeededRun]
    ensures CountersAhead(Seeded()) && KeyedById(Seeded())
    ensures !CountersAhead(SeededAsWritten())
  {
    assert 1 in SeededAsWritten().simulations && SeededAsWritten().nextSimulationId == 1;
  }

  /** `params.getOrDefault("type", "traffic")`. */
  function RunKind(params: map<string, string>): (kind: string)
    ensures "type" in params ==> kind == params["type"]
    ensures "type" !in params ==> kind == "traffic"
  {
    if "type" in params then params["type"] else "traffic"
  }

  /** `runSimulation` up to the start of the completion thread: the tables afterwards and the run stored. */
  function Run(t: Tables, params: map<string, string>, username: string): (Tables, Simulation) {
    var id := t.nextSimulationId;
    var s := Simulation(id, "Simulation " + JavaLong(id), RunKind(params), "running", params, username);
    (t.(simulations := t.simulations[id := s], nextSimulationId := id + 1), s)
  }

  /** Java's decimal rendering of a `long`. */
  function JavaLong(n: int): string {
    if n < 0 then "-" + Decimal(-n) else Decimal(n)
  }

  /**
   * With the counters ahead, a run adds exactly one record under a fresh id,
   * named after that id and running, and changes no stored record; the
   * counters stay ahead.
   */
  lemma RunEffect(t: Tables, params: map<string, string>, username: string)
    requires CountersAhead(t) && KeyedById(t)
    ensures var u, s := Run(t, params, username).0, Run(t, params, username).1;
      && CountersAhead(u) && KeyedById(u)
      && s.id == t.nextSimulationId && s.id !in t.simulations
      && u.simulations.Keys == t.simulations.Keys + {s.id}
      && |u.simulations| == |t.simulations| + 1
      && (forall id :: id in t.simulations ==> u.simulations[id] == t.simulations[id])
      && u.simulations[s.id] == s && s.status == "running" && s.createdBy == username && s.parameters == params
      && u.notifications == t.notifications
  {
    var id := t.nextSimulationId;
    var u, s := Run(t, params, username).0, Run(t, params, username).1;
    assert s.id == id && u.simulations == t.simulations[id := s];
    assert id !in t.simulations;
    forall k | k in u.simulations
      ensures k < u.nextSimulationId && u.simulations[k].id == k
    {
    }
    PutFresh(t.simulations, id, s);
  }

  /** Storing under a fresh key adds exactly that key. */
  lemma PutFresh<V>(m: map<int, V>, k: int, v: V)
    requires k !in m
    ensures m[k := v].Keys == m.Keys + {k}
    ensures |m[k := v]| == |m| + 1
  {
    assert m[k := v].Keys == m.Keys + {k};
  }

  /** Two runs in a row get different ids and names, and both are stored. */
  lemma {:induction false} RunsDistinct(t: Tables, p: map<string, string>, q: map<string, string>, a: string, b: string)
    requires CountersAhead(t) && KeyedById(t) && t.nextSimulationId >= 0
    ensures var (u, s) := Run(t, p, a);
      var (v, s') := Run(u, q, b);
      && s.id != s'.id && s.name != s'.name
      && v.simulations[s.id] == s && v.simulations[s'.id] == s'
  {
    var (u, s) := Run(t, p, a);
    RunEffect(t, p, a);
    var (v, s') := Run(u, q, b);
    RunEffect(u, q, b);
    DecimalInjective(t.nextSimulationId, t.nextSimulationId + 1);
    assert s.name[11..] == Decimal(t.nextSimulationId);
    assert s'.name[11..] == Decimal(t.nextSimulationId + 1);
  }

  /**
   * As written, the first run after start-up takes id 1 and overwrites the
   * seeded run: the table still has one entry, and it is the new run.
   */
  lemma FirstRunReplacesSeed(params: map<string, string>, username: string)
    ensures var (u, s) := Run(SeededAsWritten(), params, username);
      && s.id == SeededRun.id
      && u.simulations == map[1 := s]
      && |u.simulations| == |SeededAsWritten().simulations|
      && SeededRun !in u.simulations.Values
  {
    var (u, s) := Run(SeededAsWritten(), params, username);
    assert u.simulations[1] == s && s.status != SeededRun.status;
  }

  /** With the counter past the seed, the first run keeps the seeded run beside it. */
  lemma FirstRunKeepsSeed(params: map<string, string>, username: string)
    ensures var (u, s) := Run(Seeded(), params, username);
      && s.id == 2
      && u.simulations == map[1 := SeededRun, 2 := s]
  {
  }

  /** `markNotificationAsRead` on the table: the notification with that id, if any, becomes read. */
  function MarkRead(ns: map<int, Notification>, id: int): map<int, Notification> {
    if id in ns then ns[id := ns[id].(read := true)] else ns
  }

  /** Marking one notification read sets only its flag, and repeating it changes nothing further. */
  lemma MarkReadEffect(ns: map<int, Notification>, id: int)
    ensures MarkRead(ns, id).Keys == ns.Keys
    ensures id in ns ==> MarkRead(ns, id)[id] == ns[id].(read := true)
    ensures forall other :: other in ns && other != id ==> MarkRead(ns, id)[other] == ns[other]
    ensures id !in ns ==> MarkRead(ns, id) == ns
    ensures MarkRead(MarkRead(ns, id), id) == MarkRead(ns, id)
  {
  }

  /** `markAllNotificationsAsRead` on the table: every notification read, nothing added or removed. */
  function MarkAll(ns: map<int, Notification>): map<int, Notification> {
    map id | id in ns :: ns[id].(read := true)
  }

  /** Marking all read keeps the ids, clears every unread flag, is idempotent, and subsumes marking any one. */
  lemma MarkAllEffect(ns: map<int, Notification>, id: int)
    ensures MarkAll(ns).Keys == ns.Keys
    ensures forall k :: k in ns ==> MarkAll(ns)[k].read && MarkAll(ns)[k] == ns[k].(read := true)
    ensures MarkAll(MarkAll(ns)) == MarkAll(ns)
    ensures MarkAll(MarkRead(ns, id)) == MarkAll(ns)
    ensures MarkRead(MarkAll(ns), id) == MarkAll(ns)
  {
    if id in ns {
      assert MarkRead(MarkAll(ns), id) == MarkAll(ns) by {
        assert MarkAll(ns)[id].read;
      }
    }
  }

  /** The tables as a Spring service. */
  class MockDataService {
    var simulations: map<int, Simulation>
    var notifications: map<int, Notification>
    var nextSimulationId: int
    var nextNotificationId: int

    function Value(): Tables
      reads this
    {
      Tables(simulations, notifications, nextSimulationId, nextNotificationId)
    }

    predicate Inv()
      reads this
    {
      CountersAhead(Value()) && KeyedById(Value()) && nextSimulationId >= 0
    }

    /** Seeds the notifications, then the run, with the simulation counter past the run. */
    constructor ()
      ensures Value() == Seeded() && Inv()
    {
      simulations := map[];
      notifications := map[];
      nextSimulationId := 2;
      nextNotificationId := 1;
      new;
      CreateNotification("System Update", "System maintenance scheduled for tonight", "info", false);
      CreateNotification("Traffic Alert", "Heavy traffic detected on Main Street", "warning", false);
      CreateNotification("Simulation Complete", "Traffic simulation #123 has completed", "success", true);
      simulations := simulations[SeededRun.id := SeededRun];
      SeedContents();
    }

    method CreateNotification(title: string, message: string, kind: string, read: bool)
      modifies this
      ensures Value() == AddNotification(old(Value()), title, message, kind, read)
    {
      var n := Notification(nextNotificationId, title, message, kind, read, "admin");
      nextNotificationId := nextNotificationId + 1;
      notifications := notifications[n.id := n];
    }

    /** `getAllSimulations`: a copy holding every stored run once. */
    method GetAllSimulations() returns (all: seq<Simulation>)
      ensures |all| == |simulations|
      ensures forall i :: 0 <= i < |all| ==> all[i] in simulations.Values
      ensures forall id :: id in simulations ==> simulations[id] in all
    {
      all := Values(simulations);
    }

    method RunSimulation(params: map<string, string>, username: string) returns (simulation: Simulation)
      requires Inv()
      modifies this
      ensures (Value(), simulation) == Run(old(Value()), params, username)
      ensures Inv()
    {
      RunEffect(Value(), params, username);
      var id := nextSimulationId;
      nextSimulationId := nextSimulationId + 1;
      simulation := Simulation(id, "Simulation " + JavaLong(id), RunKind(params), "running", params, username);
      simulations := simulations[id := simulation];
    }

    /** `deleteSimulation`: true exactly when the id was stored; only that entry goes. */
    method DeleteSimulation(id: int) returns (deleted: bool)
      requires Inv()
      modifies this
      ensures deleted <==> id in old(simulations)
      ensures simulations == old(simulations) - {id}
      ensures notifications == old(notifications) && nextSimulationId == old(nextSimulationId)
      ensures nextNotificationId == old(nextNotificationId)
      ensures Inv()
    {
      deleted := id in simulations;
      simulations := simulations - {id};
    }

    /** `getAllNotifications`: a copy holding every stored notification once. */
    method GetAllNotifications() returns (all: seq<Notification>)
      ensures |all| == |notifications|
      ensures forall i :: 0 <= i < |all| ==> all[i] in notifications.Values
      ensures forall id :: id in notifications ==> notifications[id] in all
    {
      all := Values(notifications);
    }

    method MarkNotificationAsRead(id: int) returns (result: Option<Notification>)
      requires Inv()
      modifies this
      ensures notifications == MarkRead(old(notifications), id)
      ensures simulations == old(simulations) && nextSimulationId == old(nextSimulationId)
      ensures nextNotificationId == old(nextNotificationId)
      ensures result.None? <==> id !in old(notifications)
      ensures result.Some? ==> result.value == notifications[id] && result.value.read && result.value.id == id
      ensures Inv()
    {
      if id in notifications {
        var n := notifications[id].(read := true);
        notifications := notifications[id := n];
        result := Some(n);
      } else {
        result := None;
      }
    }

    /** The `forEach` over the stored notifications, one `setRead(true)` at a time. */
    method MarkAllNotificationsAsRead()
      requires Inv()
      modifies this
      ensures notifications == MarkAll(old(notifications))
      ensures simulations == old(simulations) && nextSimulationId == old(nextSimulationId)
      ensures nextNotificationId == old(nextNotificationId)
      ensures Inv()
    {
      var ns := notifications;
      var pending := ns.Keys;
      while pending != {}
        invariant pending <= ns.Keys
        invariant ns.Keys == notifications.Keys
        invariant unchanged(this)
        invariant forall id :: id in ns ==>
          ns[id] == if id in pending then notifications[id] else notifications[id].(read := true)
        decreases |pending|
      {
        var k := Pick(pending);
        ns := ns[k := ns[k].(read := true)];
        pending := pending - {k};
      }
      assert ns.Keys == MarkAll(notifications).Keys;
      assert forall id :: id in ns ==> ns[id] == MarkAll(notifications)[id];
      notifications := ns;
    }
  }
}
