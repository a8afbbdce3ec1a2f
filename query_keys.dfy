/**
 * Cache keys of the data-fetching hooks. A key is a sequence of parts: fixed
 * words, ids, and filter objects (undefined when omitted). Each mutation names
 * the keys it invalidates in its success callback; a failed mutation
 * invalidates nothing. The cache library matches an invalidated key against
 * every stored key it is a prefix of, which `Covers` expresses.
 */
module QueryKey {
  import opened Common

  /** A filter object: field names to values, or undefined. */
  type Filters = Option<map<string, string>>

  datatype KeyPart = Word(w: string) | FilterPart(f: Filters)

  type Key = seq<KeyPart>

  /** Some invalidated key is a prefix of `k`, so the query stored under `k` is refreshed. */
  predicate Covers(invalidated: set<Key>, k: Key) {
    exists p :: p in invalidated && p <= k
  }

  /** A mutation's invalidations: its success set when it succeeds, nothing otherwise. */
  function Invalidations(onSuccess: set<Key>, succeeded: bool): (r: set<Key>)
    ensures !succeeded ==> r == {}
    ensures r <= onSuccess
  {
    if succeeded then onSuccess else {}
  }

  /** Nothing is refreshed after a failed mutation. */
  lemma FailureCoversNothing(onSuccess: set<Key>, k: Key)
    ensures !Covers(Invalidations(onSuccess, false), k)
  {
  }
}

module UsersQuery {
  import opened Common
  import opened QueryKey

  const All: Key := [Word("users")]
  function Lists(): Key { All + [Word("list")] }
  function List(filters: Filters): Key { Lists() + [FilterPart(filters)] }
  function Details(): Key { All + [Word("detail")] }
  function Detail(id: string): Key { Details() + [Word(id)] }
  function ServiceProviders(): Key { All + [Word("service-providers")] }

  const StaleTime := 60000

  /** The single-user query runs only for a non-empty id. */
  function UserQueryEnabled(id: string): (enabled: bool)
    ensures enabled <==> |id| > 0
  {
    id != ""
  }

  datatype Mutation = CreateUser | UpdateUser(id: string) | DeleteUser(id: string)

  function OnSuccess(m: Mutation): set<Key> {
    match m
    case CreateUser => {Lists(), ServiceProviders()}
    case UpdateUser(id) => {Lists(), Detail(id)}
    case DeleteUser(_) => {Lists()}
  }

  /** `lists()` is a strict prefix of every `list(filters)`, and `all` of every user key. */
  lemma KeyPrefixes(filters: Filters, id: string)
    ensures Lists() < List(filters)
    ensures All < Lists() && All < Details() && All < Detail(id) && All < ServiceProviders()
  {
  }

  /** Detail keys are distinct per id and none lies under `lists()`; the service-provider key is neither. */
  lemma KeysSeparate(a: string, b: string, filters: Filters)
    ensures Detail(a) == Detail(b) <==> a == b
    ensures !(Lists() <= Detail(a)) && !(Lists() <= ServiceProviders())
    ensures ServiceProviders() != Lists() && !(ServiceProviders() <= List(filters))
  {
    if Detail(a) == Detail(b) {
      assert Detail(a)[2] == Detail(b)[2];
    }
    assert Detail(a)[1] == Word("detail");
    assert Lists()[1] == Word("list");
  }

  /** What a successful create, update or delete refreshes, and what it leaves alone. */
  lemma {:induction false} MutationCoverage(id: string, other: string, filters: Filters)
    requires other != id
    ensures Covers(OnSuccess(CreateUser), Lists()) && Covers(OnSuccess(UpdateUser(id)), Lists()) && Covers(OnSuccess(DeleteUser(id)), Lists())
    ensures Covers(OnSuccess(CreateUser), List(filters)) && Covers(OnSuccess(CreateUser), ServiceProviders())
    ensures !Covers(OnSuccess(CreateUser), Detail(id))
    ensures Covers(OnSuccess(UpdateUser(id)), List(filters)) && Covers(OnSuccess(UpdateUser(id)), Detail(id))
    ensures !Covers(OnSuccess(UpdateUser(id)), Detail(other)) && !Covers(OnSuccess(UpdateUser(id)), ServiceProviders())
    ensures Covers(OnSuccess(DeleteUser(id)), List(filters))
    ensures !Covers(OnSuccess(DeleteUser(id)), Detail(id)) && !Covers(OnSuccess(DeleteUser(id)), ServiceProviders())
  {
    assert Lists() <= Lists() && Lists() <= List(filters);
    assert Detail(id) <= Detail(id);
    assert ServiceProviders() <= ServiceProviders();
    KeysSeparate(id, other, filters);
    assert |Detail(id)| == |Detail(other)| == 3;
    assert Detail(id)[2] != Detail(other)[2];
    assert !(ServiceProviders() <= Detail(id)) by { assert ServiceProviders()[1] != Detail(id)[1]; }
    assert !(Detail(id) <= Detail(other)) by { assert Detail(id)[2] != Detail(other)[2]; }
    assert !(Detail(id) <= ServiceProviders()) by { assert |Detail(id)| > |ServiceProviders()|; }
  }
}

module SimulationsQuery {
  import opened Common
  import opened QueryKey

  const All: Key := [Word("simulations")]
  function Lists(): Key { All + [Word("list")] }
  function Details(): Key { All + [Word("detail")] }
  function Detail(id: string): Key { Details() + [Word(id)] }

  /** The per-id query runs only for a non-empty id. */
  function SimulationQueryEnabled(id: string): (enabled: bool)
    ensures enabled <==> |id| > 0
  {
    id != ""
  }

  datatype Mutation = RunSimulation | DeleteSimulation(id: string)

  function OnSuccess(m: Mutation): set<Key> {
    match m
    case RunSimulation => {Lists()}
    case DeleteSimulation(_) => {Lists()}
  }

  /** Both mutations refresh only the list; a deleted simulation's detail entry is not refreshed. */
  lemma MutationCoverage(m: Mutation, id: string)
    ensures OnSuccess(m) == {Lists()}
    ensures Covers(OnSuccess(m), Lists()) && !Covers(OnSuccess(m), Detail(id))
    ensures Lists() == [Word("simulations"), Word("list")] && Detail(id) == [Word("simulations"), Word("detail"), Word(id)]
  {
    assert Lists() <= Lists();
    assert Lists()[1] != Detail(id)[1];
  }
}

module NotificationsQuery {
  import opened Common
  import opened QueryKey

  const All: Key := [Word("notifications")]
  function Lists(): Key { All + [Word("list")] }

  const StaleTime := 30000
  const RefetchInterval := 60000

  datatype Mutation = MarkRead(id: string) | MarkAllRead

  function OnSuccess(m: Mutation): set<Key> {
    {Lists()}
  }

  /** `all` is a prefix of `lists()`; the polled list turns stale before each poll; both mutations refresh only the list. */
  lemma Configuration(m: Mutation)
    ensures All < Lists() && Lists() == [Word("notifications"), Word("list")]
    ensures StaleTime < RefetchInterval
    ensures OnSuccess(m) == {Lists()} && Covers(OnSuccess(m), Lists())
    ensures Invalidations(OnSuccess(m), false) == {}
  {
    assert Lists() <= Lists();
  }
}

module IndicatorsQuery {
  import opened Common
  import opened QueryKey

  const All: Key := [Word("indicators")]
  function Transport(mode: string, filters: Filters): Key { All + [Word("transport"), Word(mode), FilterPart(filters)] }
  function Events(filters: Filters): Key { All + [Word("events"), FilterPart(filters)] }
  function Construction(filters: Filters): Key { All + [Word("construction"), FilterPart(filters)] }

  /** The eight indicator hooks. */
  datatype Hook = Car | Cycle | Bus | Train | Tram | Pedestrian | EventsHook | ConstructionHook

  const StaleTime := 60000

  /** The mode literal each transport hook passes. */
  function Mode(h: Hook): string
    requires h != EventsHook && h != ConstructionHook
  {
    match h
    case Car => "car"
    case Cycle => "cycle"
    case Bus => "bus"
    case Train => "train"
    case Tram => "tram"
    case Pedestrian => "pedestrian"
  }

  function HookKey(h: Hook, filters: Filters): Key {
    match h
    case EventsHook => Events(filters)
    case ConstructionHook => Construction(filters)
    case _ => Transport(Mode(h), filters)
  }

  function HookStaleTime(h: Hook): int {
    StaleTime
  }

  /** Every key starts with 'indicators'; transport keys differ by mode; events and construction differ from all others in the second part. */
  lemma KeyShape(mode: string, mode': string, filters: Filters)
    ensures All <= Transport(mode, filters) && All <= Events(filters) && All <= Construction(filters)
    ensures mode != mode' ==> Transport(mode, filters) != Transport(mode', filters)
    ensures Events(filters)[1] != Construction(filters)[1]
    ensures Events(filters)[1] != Transport(mode, filters)[1] && Construction(filters)[1] != Transport(mode, filters)[1]
  {
    if mode != mode' {
      assert Transport(mode, filters)[2] != Transport(mode', filters)[2];
    }
  }

  /** Different hooks never share a cache entry for the same filters, and all keep data fresh for a minute. */
  lemma {:induction false} HooksDistinct(h: Hook, h': Hook, filters: Filters)
    requires h != h'
    ensures HookKey(h, filters) != HookKey(h', filters)
    ensures HookStaleTime(h) == 60000
  {
    var k, k' := HookKey(h, filters), HookKey(h', filters);
    if k[1] == k'[1] && k[1] == Word("transport") {
      assert Mode(h) != Mode(h');
      assert k[2] != k'[2];
    }
  }
}
