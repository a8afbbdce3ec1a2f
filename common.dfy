/**
 * Shared vocabulary of the model: an optional value, the closed set of user
 * roles, order-preserving filtering with its counting lemmas, and the decimal
 * rendering of natural numbers used when ids are spliced into strings.
 */
module Common {

  datatype Option<T> = None | Some(value: T) {
    function GetOr(default: T): T {
      match this
      case Some(v) => v
      case None => default
    }
  }

  /** The four permission levels of the application. */
  datatype Role = GovernmentAdmin | CityManager | ServiceProviderAdmin | ServiceProviderUser

  /** The role's name without prefix, as the TypeScript `UserRole` enum spells it. */
  function RoleKey(r: Role): string {
    match r
    case GovernmentAdmin => "GOVERNMENT_ADMIN"
    case CityManager => "CITY_MANAGER"
    case ServiceProviderAdmin => "SERVICE_PROVIDER_ADMIN"
    case ServiceProviderUser => "SERVICE_PROVIDER_USER"
  }

  /** The role's name with the `ROLE_` prefix, as the JavaScript constants and the Java enum spell it. */
  function RoleName(r: Role): string {
    match r
    case GovernmentAdmin => "ROLE_GOVERNMENT_ADMIN"
    case CityManager => "ROLE_CITY_MANAGER"
    case ServiceProviderAdmin => "ROLE_SERVICE_PROVIDER_ADMIN"
    case ServiceProviderUser => "ROLE_SERVICE_PROVIDER_USER"
  }

  /** The prefixed name is the unprefixed one behind `ROLE_`. */
  lemma RoleNamePrefixed(r: Role)
    ensures RoleName(r) == "ROLE_" + RoleKey(r)
  {
    match r
    case GovernmentAdmin => PrefixedBy("ROLE_", "GOVERNMENT_ADMIN", "ROLE_GOVERNMENT_ADMIN");
    case CityManager => PrefixedBy("ROLE_", "CITY_MANAGER", "ROLE_CITY_MANAGER");
    case ServiceProviderAdmin => PrefixedBy("ROLE_", "SERVICE_PROVIDER_ADMIN", "ROLE_SERVICE_PROVIDER_ADMIN");
    case ServiceProviderUser => PrefixedBy("ROLE_", "SERVICE_PROVIDER_USER", "ROLE_SERVICE_PROVIDER_USER");
  }

  /** A string that starts with `p` and continues with `k` is `p + k`. */
  lemma PrefixedBy(p: string, k: string, n: string)
    requires |n| == |p| + |k|
    requires forall i :: 0 <= i < |p| ==> n[i] == p[i]
    requires forall i :: 0 <= i < |k| ==> n[|p| + i] == k[i]
    ensures n == p + k
  {
    assert forall i :: 0 <= i < |n| ==> n[i] == (p + k)[i];
  }

  const AllRoles: seq<Role> := [GovernmentAdmin, CityManager, ServiceProviderAdmin, ServiceProviderUser]

  lemma RoleKeyInjective(a: Role, b: Role)
    ensures RoleKey(a) == RoleKey(b) <==> a == b
  {
  }

  lemma RoleNameInjective(a: Role, b: Role)
    ensures RoleName(a) == RoleName(b) <==> a == b
  {
  }

  /** The elements of `s` that satisfy `p`, in their original order (JavaScript's `filter`). */
  function Filter<T>(s: seq<T>, p: T -> bool): (r: seq<T>)
    ensures |r| <= |s|
    ensures forall i :: 0 <= i < |r| ==> p(r[i])
  {
    if s == [] then []
    else if p(s[0]) then [s[0]] + Filter(s[1..], p)
    else Filter(s[1..], p)
  }

  /** `filter(p).length`. */
  function Count<T>(s: seq<T>, p: T -> bool): nat {
    |Filter(s, p)|
  }

  /** `a` is obtained from `b` by deleting elements, without reordering. */
  predicate IsSubsequence<T(==)>(a: seq<T>, b: seq<T>)
    decreases |b|
  {
    a == [] ||
    (b != [] && ((a[0] == b[0] && IsSubsequence(a[1..], b[1..])) || IsSubsequence(a, b[1..])))
  }

  lemma {:induction false} FilterIsSubsequence<T>(s: seq<T>, p: T -> bool)
    ensures IsSubsequence(Filter(s, p), s)
  {
    if s != [] {
      FilterIsSubsequence(s[1..], p);
      if p(s[0]) {
        assert ([s[0]] + Filter(s[1..], p))[1..] == Filter(s[1..], p);
      }
    }
  }

  /** An element survives filtering exactly when it occurs in the input and satisfies the predicate. */
  lemma {:induction false} FilterMembership<T>(s: seq<T>, p: T -> bool, x: T)
    ensures x in Filter(s, p) <==> x in s && p(x)
  {
    if s != [] {
      FilterMembership(s[1..], p, x);
      assert s == [s[0]] + s[1..];
    }
  }

  /** Something is counted exactly when some element satisfies the predicate. */
  lemma {:induction false} CountPositiveIff<T>(s: seq<T>, p: T -> bool)
    ensures Count(s, p) > 0 <==> exists i :: 0 <= i < |s| && p(s[i])
  {
    if s != [] {
      CountPositiveIff(s[1..], p);
      if !p(s[0]) && exists i :: 0 <= i < |s| && p(s[i]) {
        var i :| 0 <= i < |s| && p(s[i]);
        assert s[1..][i - 1] == s[i];
      }
    }
  }

  /** Filtering by a predicate every element satisfies changes nothing. */
  lemma {:induction false} FilterAll<T>(s: seq<T>, p: T -> bool)
    requires forall i :: 0 <= i < |s| ==> p(s[i])
    ensures Filter(s, p) == s
  {
    if s != [] {
      FilterAll(s[1..], p);
      assert s == [s[0]] + s[1..];
    }
  }

  /** Filtering by a predicate and by its negation splits the sequence. */
  lemma {:induction false} FilterPartition<T>(s: seq<T>, p: T -> bool, q: T -> bool)
    requires forall x :: q(x) == !p(x)
    ensures Count(s, p) + Count(s, q) == |s|
  {
    if s != [] {
      FilterPartition(s[1..], p, q);
    }
  }

  /** Two predicates that never hold together count at most the whole sequence. */
  lemma {:induction false} CountDisjoint<T>(s: seq<T>, p: T -> bool, q: T -> bool)
    requires forall x :: !(p(x) && q(x))
    ensures Count(s, p) + Count(s, q) <= |s|
  {
    if s != [] {
      CountDisjoint(s[1..], p, q);
    }
  }

  /** Replacing one element changes a count by what the old and new element contribute. */
  lemma {:induction false} CountUpdate<T>(s: seq<T>, p: T -> bool, i: nat, v: T)
    requires i < |s|
    ensures Count(s[i := v], p) == Count(s, p) - (if p(s[i]) then 1 else 0) + (if p(v) then 1 else 0)
  {
    if i == 0 {
      assert s[i := v][1..] == s[1..];
    } else {
      CountUpdate(s[1..], p, i - 1, v);
      assert s[i := v][1..] == s[1..][i - 1 := v];
    }
  }

  lemma {:induction false} CountPrepend<T>(x: T, s: seq<T>, p: T -> bool)
    ensures Count([x] + s, p) == Count(s, p) + (if p(x) then 1 else 0)
  {
    assert ([x] + s)[1..] == s;
  }

  lemma {:induction false} CountNone<T>(s: seq<T>, p: T -> bool)
    requires forall i :: 0 <= i < |s| ==> !p(s[i])
    ensures Count(s, p) == 0
  {
    if s != [] {
      CountNone(s[1..], p);
    }
  }

  /** Decimal digits of a natural number, as Java and JavaScript render it. */
  function Decimal(n: nat): (r: string)
    ensures |r| >= 1
    ensures forall i :: 0 <= i < |r| ==> '0' <= r[i] <= '9'
  {
    if n < 10 then [Digit(n)] else Decimal(n / 10) + [Digit(n % 10)]
  }

  function Digit(d: nat): (c: char)
    requires d < 10
    ensures '0' <= c <= '9'
  {
    (48 + d) as char
  }

  lemma {:induction false} DecimalInjective(m: nat, n: nat)
    ensures Decimal(m) == Decimal(n) <==> m == n
    decreases m + n
  {
    if Decimal(m) == Decimal(n) && 10 <= m && 10 <= n {
      var dm, dn := Decimal(m), Decimal(n);
      assert Digit(m % 10) == dm[|dm| - 1] == dn[|dn| - 1] == Digit(n % 10);
      assert dm[..|dm| - 1] == Decimal(m / 10);
      assert dn[..|dn| - 1] == Decimal(n / 10);
      DecimalInjective(m / 10, n / 10);
    }
  }

  /** Some element of a non-empty set, for loops that visit a set one element at a time. */
  method Pick<T>(s: set<T>) returns (x: T)
    requires s != {}
    ensures x in s
  {
    x :| x in s;
  }

  /** A key under which a map holds a given value. */
  method KeyOf<K, V(==)>(m: map<K, V>, v: V) returns (k: K)
    requires v in m.Values
    ensures k in m && m[k] == v
  {
    k :| k in m && m[k] == v;
  }

  /** The values of a map copied into a list, one entry per key, in no particular order (`new ArrayList<>(m.values())`). */
  method Values<K, V(==)>(m: map<K, V>) returns (vs: seq<V>)
    ensures |vs| == |m|
    ensures forall i :: 0 <= i < |vs| ==> vs[i] in m.Values
    ensures forall k :: k in m ==> m[k] in vs
  {
    var keys := m.Keys;
    vs := [];
    while keys != {}
      invariant keys <= m.Keys
      invariant |vs| + |keys| == |m|
      invariant forall i :: 0 <= i < |vs| ==> vs[i] in m.Values
      invariant forall k :: k in m.Keys - keys ==> m[k] in vs
      decreases |keys|
    {
      var k :| k in keys;
      vs := vs + [m[k]];
      keys := keys - {k};
    }
  }
}

/** The colour names of the component library's chips and progress bars. */
module Palette {
  datatype Color = Primary | Success | Warning | Error | Info | Default
}
