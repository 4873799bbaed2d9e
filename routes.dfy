/**
 * The route registry: `register` records, under a (version, name) key, the
 * setup function of a route and the versions it overrides; `_setup_route`
 * applies the setups of the overridden versions before the route's own; and
 * `install_routes` mounts every registered key, in sorted order, on a fresh
 * application. An application is modelled as the trace of the setup calls
 * made on it.
 */
module Routes {
  import opened Common
  import PyText

  /** A registry key: (version, name). */
  type Key = (string, string)

  /** A setup function, identified by its name. */
  type Setup = string

  /** What `_ROUTES` holds for a key: the setup function and the overridden versions. */
  datatype Route = Route(setup: Setup, override: seq<string>)

  /** The `override` argument of `register`: a single version string, or an iterable of versions. */
  datatype OverrideArg = Single(parent: string) | Several(parents: seq<string>)

  /** One call `setup(app)`, made while setting up the route `route`. */
  datatype Call = Call(route: Key, setup: Setup)

  /** The KeyError of an unregistered key, or the RecursionError of an override chain that is too deep. */
  datatype RouteError = Unregistered(key: Key) | RecursionLimit

  /** `register` turns a string into a one-element tuple and keeps any other override as given. */
  function Normalize(arg: OverrideArg): (r: seq<string>)
    ensures arg.Single? ==> r == [arg.parent]
    ensures arg.Several? ==> r == arg.parents
  {
    match arg
    case Single(p) => [p]
    case Several(ps) => ps
  }

  // ---------------------------------------------------------------------------
  // _setup_route

  /**
   * `_setup_route(app, key.0, key.1)` with `depth` frames of stack left: the
   * trace of setup calls it makes, or the error it raises.
   */
  function SetupRoute(routes: map<Key, Route>, key: Key, depth: nat): (r: Result<seq<Call>, RouteError>)
    ensures key !in routes && depth > 0 ==> r == Failure(Unregistered(key))
    ensures r.Success? ==> key in routes && |r.value| > 0 && r.value[|r.value| - 1] == Call(key, routes[key].setup)
    ensures r.Success? ==> forall c :: c in r.value ==> c.route in routes && c.route.1 == key.1 && c.setup == routes[c.route].setup
    decreases depth, 0, 0
  {
    if depth == 0 then Failure(RecursionLimit)
    else if key !in routes then Failure(Unregistered(key))
    else
      match SetupParents(routes, routes[key].override, key.1, depth - 1)
      case Failure(e) => Failure(e)
      case Success(t) => Success(t + [Call(key, routes[key].setup)])
  }

  /** The loop `for parent in data['override']: _setup_route(app, parent, name)`. */
  function SetupParents(routes: map<Key, Route>, parents: seq<string>, name: string, depth: nat): (r: Result<seq<Call>, RouteError>)
    ensures r.Success? ==> forall c :: c in r.value ==> c.route in routes && c.route.1 == name && c.setup == routes[c.route].setup
    decreases depth, 1, |parents|
  {
    if parents == [] then Success([])
    else
      match SetupRoute(routes, (parents[0], name), depth)
      case Failure(e) => Failure(e)
      case Success(t) =>
        match SetupParents(routes, parents[1..], name, depth)
        case Failure(e) => Failure(e)
        case Success(u) => Success(t + u)
  }

  /** A route that overrides nothing applies only its own setup. */
  lemma SetupRouteAlone(routes: map<Key, Route>, key: Key, depth: nat)
    requires key in routes && routes[key].override == [] && depth > 0
    ensures SetupRoute(routes, key, depth) == Success([Call(key, routes[key].setup)])
  {
    assert SetupParents(routes, [], key.1, depth - 1) == Success([]);
    assert [] + [Call(key, routes[key].setup)] == [Call(key, routes[key].setup)];
  }

  /** Once the stack is deep enough for `_setup_route` to succeed, more stack changes nothing. */
  lemma {:induction false} SetupRouteMonotone(routes: map<Key, Route>, key: Key, depth: nat, more: nat)
    requires SetupRoute(routes, key, depth).Success? && depth <= more
    ensures SetupRoute(routes, key, more) == SetupRoute(routes, key, depth)
    decreases depth, 0, 0
  {
    SetupParentsMonotone(routes, routes[key].override, key.1, depth - 1, more - 1);
  }

  lemma {:induction false} SetupParentsMonotone(routes: map<Key, Route>, parents: seq<string>, name: string, depth: nat, more: nat)
    requires SetupParents(routes, parents, name, depth).Success? && depth <= more
    ensures SetupParents(routes, parents, name, more) == SetupParents(routes, parents, name, depth)
    decreases depth, 1, |parents|
  {
    if parents != [] {
      SetupRouteMonotone(routes, (parents[0], name), depth, more);
      SetupParentsMonotone(routes, parents[1..], name, depth, more);
    }
  }

  /** Every call in a successful trace comes from a successful `_setup_route` of its route at no greater depth. */
  lemma {:induction false} RouteTraceOrigin(routes: map<Key, Route>, key: Key, depth: nat, c: Call) returns (d: nat)
    requires SetupRoute(routes, key, depth).Success? && c in SetupRoute(routes, key, depth).value
    ensures d <= depth && SetupRoute(routes, c.route, d).Success?
    ensures c.route != key ==> d < depth
    decreases depth, 0, 0
  {
    var t := SetupParents(routes, routes[key].override, key.1, depth - 1).value;
    if c in t {
      d := ParentsTraceOrigin(routes, routes[key].override, key.1, depth - 1, c);
    } else {
      d := depth;
    }
  }

  lemma {:induction false} ParentsTraceOrigin(routes: map<Key, Route>, parents: seq<string>, name: string, depth: nat, c: Call)
    returns (d: nat)
    requires SetupParents(routes, parents, name, depth).Success? && c in SetupParents(routes, parents, name, depth).value
    ensures d <= depth && SetupRoute(routes, c.route, d).Success?
    decreases depth, 1, |parents|
  {
    var t := SetupRoute(routes, (parents[0], name), depth).value;
    if c in t {
      d := RouteTraceOrigin(routes, (parents[0], name), depth, c);
    } else {
      d := ParentsTraceOrigin(routes, parents[1..], name, depth, c);
    }
  }

  /**
   * The setups of the overridden versions all run before the route's own
   * setup, and the route's own setup runs exactly once, last: no call made
   * for a parent is a call for the route itself.
   */
  lemma {:induction false} OwnSetupOnceLast(routes: map<Key, Route>, key: Key, depth: nat)
    requires SetupRoute(routes, key, depth).Success?
    ensures var t := SetupRoute(routes, key, depth).value;
      && t[|t| - 1] == Call(key, routes[key].setup)
      && forall i :: 0 <= i < |t| - 1 ==> t[i].route != key
    decreases depth
  {
    var t := SetupRoute(routes, key, depth).value;
    var p := SetupParents(routes, routes[key].override, key.1, depth - 1).value;
    assert t == p + [Call(key, routes[key].setup)];
    if i :| 0 <= i < |t| - 1 && t[i].route == key {
      assert t[i] in p;
      var d := ParentsTraceOrigin(routes, routes[key].override, key.1, depth - 1, t[i]);
      SetupRouteMonotone(routes, key, d, depth);
      OwnSetupOnceLast(routes, key, d);
      assert false;
    }
  }

  /** A successful parent loop contains the whole trace of each parent, in particular each parent's own call. */
  lemma {:induction false} ParentsIncludeEach(routes: map<Key, Route>, parents: seq<string>, name: string, depth: nat, i: nat)
    requires SetupParents(routes, parents, name, depth).Success? && i < |parents|
    ensures SetupRoute(routes, (parents[i], name), depth).Success?
    ensures forall c :: c in SetupRoute(routes, (parents[i], name), depth).value ==> c in SetupParents(routes, parents, name, depth).value
    decreases |parents|
  {
    if i > 0 {
      ParentsIncludeEach(routes, parents[1..], name, depth, i - 1);
    }
  }

  /** The parents of a route that overrides its own version contain a call for the route itself. */
  lemma SelfInParents(routes: map<Key, Route>, key: Key, depth: nat)
    requires SetupRoute(routes, key, depth).Success? && key.0 in routes[key].override
    ensures var t := SetupRoute(routes, key, depth).value;
      exists i :: 0 <= i < |t| - 1 && t[i].route == key
  {
    var parents := routes[key].override;
    var p := SetupParents(routes, parents, key.1, depth - 1).value;
    var t := SetupRoute(routes, key, depth).value;
    assert t == p + [Call(key, routes[key].setup)];
    var i :| 0 <= i < |parents| && parents[i] == key.0;
    ParentsIncludeEach(routes, parents, key.1, depth - 1, i);
    var own := SetupRoute(routes, key, depth - 1).value;
    assert own[|own| - 1] in own;
    var j :| 0 <= j < |p| && p[j] == own[|own| - 1];
    assert t[j] == p[j];
  }

  /** A route that lists its own version among the versions it overrides can never be set up. */
  lemma SelfOverrideFails(routes: map<Key, Route>, key: Key, depth: nat)
    requires key in routes && key.0 in routes[key].override
    ensures SetupRoute(routes, key, depth).Failure?
  {
    if SetupRoute(routes, key, depth).Success? {
      SelfInParents(routes, key, depth);
      OwnSetupOnceLast(routes, key, depth);
      assert false;
    }
  }

  /**
   * A successful `_setup_route` has set up every version it transitively
   * overrides: the trace is closed under the override lists of its routes,
   * so an unregistered key anywhere among them makes it fail.
   */
  lemma {:induction false} RouteTraceClosed(routes: map<Key, Route>, key: Key, depth: nat)
    requires SetupRoute(routes, key, depth).Success?
    ensures var t := SetupRoute(routes, key, depth).value;
      forall c, p :: c in t && p in routes[c.route].override ==> exists c' :: c' in t && c'.route == (p, key.1)
    decreases depth, 0, 0
  {
    ParentsTraceClosed(routes, routes[key].override, key.1, depth - 1);
  }

  lemma {:induction false} ParentsTraceClosed(routes: map<Key, Route>, parents: seq<string>, name: string, depth: nat)
    requires SetupParents(routes, parents, name, depth).Success?
    ensures var t := SetupParents(routes, parents, name, depth).value;
      && (forall c, p :: c in t && p in routes[c.route].override ==> exists c' :: c' in t && c'.route == (p, name))
      && (forall p :: p in parents ==> exists c' :: c' in t && c'.route == (p, name))
    decreases depth, 1, |parents|
  {
    if parents != [] {
      var t0 := SetupRoute(routes, (parents[0], name), depth).value;
      RouteTraceClosed(routes, (parents[0], name), depth);
      ParentsTraceClosed(routes, parents[1..], name, depth);
      assert t0[|t0| - 1] in t0;
      assert forall p :: p in parents ==> p == parents[0] || p in parents[1..];
    }
  }

  // ---------------------------------------------------------------------------
  // sorted(_ROUTES)

  /** Python's order on (version, name) tuples. */
  predicate KeyLess(a: Key, b: Key) {
    PyText.StrLess(a.0, b.0) || (a.0 == b.0 && PyText.StrLess(a.1, b.1))
  }

  lemma KeyLessIrreflexive(a: Key)
    ensures !KeyLess(a, a)
  {
    PyText.StrLessIrreflexive(a.0);
    PyText.StrLessIrreflexive(a.1);
  }

  lemma KeyLessTransitive(a: Key, b: Key, c: Key)
    requires KeyLess(a, b) && KeyLess(b, c)
    ensures KeyLess(a, c)
  {
    if PyText.StrLess(a.0, b.0) && PyText.StrLess(b.0, c.0) {
      PyText.StrLessTransitive(a.0, b.0, c.0);
    } else if a.0 == b.0 && b.0 == c.0 {
      PyText.StrLessTransitive(a.1, b.1, c.1);
    }
  }

  lemma KeyLessTotal(a: Key, b: Key)
    requires a != b
    ensures KeyLess(a, b) || KeyLess(b, a)
  {
    if a.0 != b.0 {
      PyText.StrLessTotal(a.0, b.0);
    } else {
      PyText.StrLessTotal(a.1, b.1);
    }
  }

  /** `keys` lists the elements of `s` in strictly ascending order. */
  ghost predicate SortedListing(keys: seq<Key>, s: set<Key>) {
    && (forall i, j :: 0 <= i < j < |keys| ==> KeyLess(keys[i], keys[j]))
    && (forall k :: k in keys <==> k in s)
  }

  predicate IsLeast(m: Key, s: set<Key>) {
    m in s && forall k :: k in s && k != m ==> KeyLess(m, k)
  }

  lemma {:induction false} LeastExists(s: set<Key>) returns (m: Key)
    requires s != {}
    ensures IsLeast(m, s)
    decreases |s|
  {
    var x :| x in s;
    if s == {x} {
      m := x;
    } else {
      var m' := LeastExists(s - {x});
      KeyLessTotal(x, m');
      if KeyLess(x, m') {
        m := x;
        forall k | k in s && k != m
          ensures KeyLess(m, k)
        {
          if k != m' {
            assert k in s - {x};
            KeyLessTransitive(x, m', k);
          }
        }
      } else {
        m := m';
      }
    }
  }

  lemma {:induction false} SortedListingExists(s: set<Key>) returns (keys: seq<Key>)
    ensures SortedListing(keys, s)
    decreases |s|
  {
    if s == {} {
      keys := [];
    } else {
      var m := LeastExists(s);
      var rest := SortedListingExists(s - {m});
      keys := [m] + rest;
      forall i, j | 0 <= i < j < |keys|
        ensures KeyLess(keys[i], keys[j])
      {
        if i > 0 {
          assert keys[i] == rest[i - 1] && keys[j] == rest[j - 1];
        } else {
          assert keys[j] == rest[j - 1] && rest[j - 1] in rest;
          assert rest[j - 1] in s - {m};
        }
      }
    }
  }

  lemma ListingEmpty(keys: seq<Key>, s: set<Key>)
    requires SortedListing(keys, s)
    ensures keys == [] <==> s == {}
  {
    if keys != [] {
      assert keys[0] in s;
    }
  }

  /** A set has only one sorted listing. */
  lemma {:induction false} SortedListingUnique(a: seq<Key>, b: seq<Key>, s: set<Key>)
    requires SortedListing(a, s) && SortedListing(b, s)
    ensures a == b
    decreases |a|
  {
    ListingEmpty(a, s);
    ListingEmpty(b, s);
    if a != [] {
      if a[0] != b[0] {
        assert b[0] in a;
        assert a[0] in b;
        var i :| 0 <= i < |a| && a[i] == b[0];
        var j :| 0 <= j < |b| && b[j] == a[0];
        KeyLessTransitive(a[0], b[0], a[0]);
        KeyLessIrreflexive(a[0]);
        assert false;
      }
      forall i | 0 < i < |a|
        ensures a[i] != a[0]
      {
        KeyLessIrreflexive(a[0]);
      }
      forall i | 0 < i < |b|
        ensures b[i] != b[0]
      {
        KeyLessIrreflexive(b[0]);
      }
      assert forall k :: k in a[1..] <==> k in s - {a[0]};
      assert forall k :: k in b[1..] <==> k in s - {a[0]};
      SortedListingUnique(a[1..], b[1..], s - {a[0]});
      assert a == [a[0]] + a[1..] && b == [b[0]] + b[1..];
    }
  }

  /** Every finite set of keys can be listed in ascending order. */
  lemma SortedListingOf(s: set<Key>)
    ensures exists keys :: SortedListing(keys, s)
  {
    var keys := SortedListingExists(s);
  }

  /** `sorted(keys)`: the keys in ascending order. */
  ghost function Sorted(s: set<Key>): (keys: seq<Key>)
    ensures SortedListing(keys, s)
  {
    SortedListingOf(s);
    var keys :| SortedListing(keys, s);
    keys
  }

  /** `sorted`, as a selection of the least remaining key. */
  method SortKeys(s: set<Key>) returns (keys: seq<Key>)
    ensures keys == Sorted(s)
  {
    keys := [];
    var remaining := s;
    while remaining != {}
      invariant forall i, j :: 0 <= i < j < |keys| ==> KeyLess(keys[i], keys[j])
      invariant forall k :: k in s <==> k in keys || k in remaining
      invariant forall i, k :: 0 <= i < |keys| && k in remaining ==> KeyLess(keys[i], k)
      decreases |remaining|
    {
      ghost var least := LeastExists(remaining);
      var m :| m in remaining && IsLeast(m, remaining);
      forall i | 0 <= i < |keys|
        ensures KeyLess(keys[i], m)
      {
      }
      var prev := keys;
      keys := keys + [m];
      forall i, k | 0 <= i < |keys| && k in remaining - {m}
        ensures KeyLess(keys[i], k)
      {
        assert k in remaining;
        if i < |prev| {
          assert keys[i] == prev[i];
          assert KeyLess(prev[i], k);
        } else {
          assert keys[i] == m && k != m;
          assert IsLeast(m, remaining);
          assert KeyLess(m, k);
        }
      }
      remaining := remaining - {m};
    }
    SortedListingUnique(keys, Sorted(s), s);
  }

  // ---------------------------------------------------------------------------
  // install_routes

  /** The mount point of a key: "/<version>/<name>/". */
  function MountPoint(key: Key): (p: string)
    ensures p == "/" + key.0 + "/" + key.1 + "/"
    ensures |p| == |key.0| + |key.1| + 3 && p[0] == '/' && p[|p| - 1] == '/'
  {
    "/" + key.0 + "/" + key.1 + "/"
  }

  /** `root.mount(point, app)`: an application, seen as its setup trace, mounted at a point. */
  datatype Mount = Mount(point: string, app: seq<Call>)

  datatype Installed = Installed(mounts: seq<Mount>, outcome: Result<(), RouteError>)

  /** The loop of `install_routes` over the keys in order: mounts one app per key, stops at the first failing setup. */
  function InstallAll(routes: map<Key, Route>, keys: seq<Key>, depth: nat): Installed
    decreases |keys|
  {
    if keys == [] then Installed([], Success(()))
    else
      match SetupRoute(routes, keys[0], depth)
      case Failure(e) => Installed([], Failure(e))
      case Success(t) =>
        var rest := InstallAll(routes, keys[1..], depth);
        Installed([Mount(MountPoint(keys[0]), t)] + rest.mounts, rest.outcome)
  }

  /**
   * When every route can be set up, `install_routes` mounts exactly one app
   * per key, in the order of the keys, at the key's mount point, each holding
   * the trace of that key's `_setup_route`.
   */
  lemma {:induction false} InstallAllMountsEach(routes: map<Key, Route>, keys: seq<Key>, depth: nat)
    requires InstallAll(routes, keys, depth).outcome.Success?
    ensures |InstallAll(routes, keys, depth).mounts| == |keys|
    ensures forall i :: 0 <= i < |keys| ==>
      && SetupRoute(routes, keys[i], depth).Success?
      && InstallAll(routes, keys, depth).mounts[i] == Mount(MountPoint(keys[i]), SetupRoute(routes, keys[i], depth).value)
    decreases |keys|
  {
    if keys != [] {
      InstallAllMountsEach(routes, keys[1..], depth);
      assert forall i :: 1 <= i < |keys| ==> keys[i] == keys[1..][i - 1];
    }
  }

  /** In the mount point of a version without "/", the second "/" comes right after the version. */
  lemma VersionEndsAtSecondSlash(key: Key)
    requires '/' !in key.0
    ensures MountPoint(key)[1 + |key.0|] == '/'
    ensures forall k :: 1 <= k < 1 + |key.0| ==> MountPoint(key)[k] != '/'
  {
    var p := MountPoint(key);
    forall k | 1 <= k < 1 + |key.0|
      ensures p[k] != '/'
    {
      assert p[k] == key.0[k - 1];
    }
  }

  /**
   * Keys whose version and name hold no "/" have distinct mount points: the
   * second "/" of a mount point marks where the version ends.
   */
  lemma MountPointInjective(a: Key, b: Key)
    requires '/' !in a.0 && '/' !in a.1 && '/' !in b.0 && '/' !in b.1
    ensures MountPoint(a) == MountPoint(b) <==> a == b
  {
    if MountPoint(a) == MountPoint(b) {
      var p := MountPoint(a);
      VersionEndsAtSecondSlash(a);
      VersionEndsAtSecondSlash(b);
      assert |a.0| == |b.0|;
      assert a.0 == p[1..1 + |a.0|] == b.0;
      assert a.1 == p[2 + |a.0|..|p| - 1] == b.1;
    }
  }

  /**
   * When the keys are distinct and hold no "/", `install_routes` mounts every
   * application at a point of its own.
   */
  lemma InstallAllDistinctPoints(routes: map<Key, Route>, keys: seq<Key>, depth: nat)
    requires InstallAll(routes, keys, depth).outcome.Success?
    requires forall i :: 0 <= i < |keys| ==> '/' !in keys[i].0 && '/' !in keys[i].1
    requires forall i, j :: 0 <= i < j < |keys| ==> keys[i] != keys[j]
    ensures forall i, j :: 0 <= i < j < |InstallAll(routes, keys, depth).mounts| ==>
      InstallAll(routes, keys, depth).mounts[i].point != InstallAll(routes, keys, depth).mounts[j].point
  {
    var m := InstallAll(routes, keys, depth).mounts;
    InstallAllMountsEach(routes, keys, depth);
    forall i, j | 0 <= i < j < |m|
      ensures m[i].point != m[j].point
    {
      MountPointInjective(keys[i], keys[j]);
    }
  }

  /** `install_routes` fails exactly when some key's `_setup_route` fails, and then reports the first such failure. */
  lemma {:induction false} InstallAllFailsAtFirst(routes: map<Key, Route>, keys: seq<Key>, depth: nat)
    ensures InstallAll(routes, keys, depth).outcome.Success? <==>
      forall i :: 0 <= i < |keys| ==> SetupRoute(routes, keys[i], depth).Success?
    ensures InstallAll(routes, keys, depth).outcome.Failure? ==>
      exists i :: 0 <= i < |keys| && SetupRoute(routes, keys[i], depth) == Failure(InstallAll(routes, keys, depth).outcome.error) && (forall j :: 0 <= j < i ==> SetupRoute(routes, keys[j], depth).Success?)
    decreases |keys|
  {
    if keys != [] {
      InstallAllFailsAtFirst(routes, keys[1..], depth);
      assert forall i :: 1 <= i < |keys| ==> keys[i] == keys[1..][i - 1];
      if SetupRoute(routes, keys[0], depth).Success? && InstallAll(routes, keys, depth).outcome.Failure? {
        var i :| 0 <= i < |keys[1..]| && SetupRoute(routes, keys[1..][i], depth) == Failure(InstallAll(routes, keys, depth).outcome.error)
          && (forall j :: 0 <= j < i ==> SetupRoute(routes, keys[1..][j], depth).Success?);
        assert SetupRoute(routes, keys[i + 1], depth) == Failure(InstallAll(routes, keys, depth).outcome.error);
      }
    }
  }

  /** `InstallAll` over the keys from position `i` on, counted by index. */
  function InstallFrom(routes: map<Key, Route>, keys: seq<Key>, i: nat, depth: nat): Installed
    requires i <= |keys|
    decreases |keys| - i
  {
    if i == |keys| then Installed([], Success(()))
    else
      match SetupRoute(routes, keys[i], depth)
      case Failure(e) => Installed([], Failure(e))
      case Success(t) =>
        var rest := InstallFrom(routes, keys, i + 1, depth);
        Installed([Mount(MountPoint(keys[i]), t)] + rest.mounts, rest.outcome)
  }

  lemma {:induction false} InstallFromSuffix(routes: map<Key, Route>, keys: seq<Key>, i: nat, depth: nat)
    requires i <= |keys|
    ensures InstallFrom(routes, keys, i, depth) == InstallAll(routes, keys[i..], depth)
    decreases |keys| - i
  {
    if i < |keys| {
      InstallFromSuffix(routes, keys, i + 1, depth);
      assert keys[i..][0] == keys[i];
      assert keys[i..][1..] == keys[i + 1..];
    }
  }

  /** The server application that `install_routes` mounts the route apps on. */
  class Root {
    var mounts: seq<Mount>

    constructor()
      ensures mounts == []
    {
      mounts := [];
    }

    /** `root.mount(point, app)`. */
    method MountApp(point: string, app: seq<Call>)
      modifies this
      ensures mounts == old(mounts) + [Mount(point, app)]
    {
      mounts := mounts + [Mount(point, app)];
    }
  }

  /** The `_ROUTES` table. */
  class Registry {
    var routes: map<Key, Route>

    constructor()
      ensures routes == map[]
    {
      routes := map[];
    }

    /**
     * `register(version, name, override)(setup)`: stores the setup and the
     * normalised override list under (version, name), replacing any earlier entry.
     */
    method Register(version: string, name: string, override: OverrideArg, setup: Setup)
      modifies this
      ensures routes == old(routes)[(version, name) := Route(setup, Normalize(override))]
    {
      routes := routes[(version, name) := Route(setup, Normalize(override))];
    }

    /** `_setup_route(app, version, name)`: the trace of setups run on a fresh app. */
    method SetupRouteOn(version: string, name: string, depth: nat) returns (r: Result<seq<Call>, RouteError>)
      ensures r == SetupRoute(routes, (version, name), depth)
      ensures r.Success? ==> r.value[|r.value| - 1] == Call((version, name), routes[(version, name)].setup)
      ensures r.Success? ==> forall i :: 0 <= i < |r.value| - 1 ==> r.value[i].route != (version, name)
    {
      r := SetupRoute(routes, (version, name), depth);
      if r.Success? {
        OwnSetupOnceLast(routes, (version, name), depth);
      }
    }

    /**
     * `install_routes(root)`: visits the registered keys in sorted order and
     * mounts, for each, the app its `_setup_route` builds; a failing setup
     * stops the loop, keeping the mounts already made.
     */
    method InstallRoutes(root: Root, depth: nat) returns (r: Result<(), RouteError>)
      modifies root
      ensures root.mounts == old(root.mounts) + InstallAll(routes, Sorted(routes.Keys), depth).mounts
      ensures r == InstallAll(routes, Sorted(routes.Keys), depth).outcome
    {
      var keys := SortKeys(routes.Keys);
      r := MountAll(root, keys, depth);
    }

    /** The loop of `install_routes` over the given keys, in order. */
    method MountAll(root: Root, keys: seq<Key>, depth: nat) returns (r: Result<(), RouteError>)
      modifies root
      ensures root.mounts == old(root.mounts) + InstallAll(routes, keys, depth).mounts
      ensures r == InstallAll(routes, keys, depth).outcome
    {
      var table := routes;
      var i := 0;
      ghost var done: seq<Mount> := [];
      ghost var whole := InstallFrom(table, keys, 0, depth);
      while i < |keys|
        invariant 0 <= i <= |keys|
        invariant root.mounts == old(root.mounts) + done
        invariant whole.mounts == done + InstallFrom(table, keys, i, depth).mounts
        invariant whole.outcome == InstallFrom(table, keys, i, depth).outcome
      {
        var key := keys[i];
        var app := SetupRouteOn(key.0, key.1, depth);
        assert (key.0, key.1) == keys[i];
        if app.Failure? {
          InstallFromSuffix(table, keys, 0, depth);
          return Failure(app.error);
        }
        ghost var m := Mount(MountPoint(key), app.value);
        ghost var rest := InstallFrom(table, keys, i + 1, depth);
        assert InstallFrom(table, keys, i, depth) == Installed([m] + rest.mounts, rest.outcome);
        assert done + ([m] + rest.mounts) == (done + [m]) + rest.mounts;
        root.MountApp(MountPoint(key), app.value);
        done := done + [m];
        i := i + 1;
      }
      InstallFromSuffix(table, keys, 0, depth);
      return Success(());
    }
  }
}
