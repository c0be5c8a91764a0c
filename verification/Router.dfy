/** The sensor-path router: a table of routes tried in order, the first one that matches wins. */
module Router {
  import opened Sequences

  datatype Route = Route(prefix: string, exact: bool)

  predicate Matches(r: Route, path: string) { if r.exact then path == r.prefix else r.prefix <= path }

  predicate IsFirst(routes: seq<Route>, path: string, i: nat) {
    i < |routes| && Matches(routes[i], path) && forall j :: 0 <= j < i ==> !Matches(routes[j], path)
  }

  predicate IsLongest(routes: seq<Route>, path: string, i: nat) {
    && i < |routes| && Matches(routes[i], path)
    && forall j :: 0 <= j < |routes| && Matches(routes[j], path) ==> |routes[j].prefix| <= |routes[i].prefix|
  }

  /** The dispatch loop. */
  method FirstMatch(routes: seq<Route>, path: string) returns (hit: Option<nat>)
    ensures hit.Some? ==> IsFirst(routes, path, hit.value)
    ensures hit.None? ==> forall r :: r in routes ==> !Matches(r, path)
  {
    for i := 0 to |routes|
      invariant forall j :: 0 <= j < i ==> !Matches(routes[j], path)
    {
      if routes[i].exact {
        if path != routes[i].prefix {
          continue;
        }
      } else if !(routes[i].prefix <= path) {
        continue;
      }
      return Some(i);
    }
    return None;
  }

  ghost predicate DistinctPrefixes(routes: seq<Route>) {
    forall i, j :: 0 <= i < j < |routes| ==> routes[i].prefix != routes[j].prefix
  }

  /** No entry stands behind a shorter one that swallows its paths. */
  ghost predicate Unshadowed(routes: seq<Route>) {
    forall i, j :: 0 <= i < j < |routes| && !routes[i].exact ==> !(routes[i].prefix < routes[j].prefix)
  }

  ghost predicate FirstIsLongest(routes: seq<Route>) {
    forall path: string, i: nat :: IsFirst(routes, path, i) ==> IsLongest(routes, path, i)
  }

  lemma PrefixesCompare(a: string, b: string, path: string)
    requires a <= path && b <= path && |a| <= |b|
    ensures a <= b
  {
    assert forall k :: 0 <= k < |a| ==> a[k] == path[k] == b[k];
  }

  lemma UnshadowedFirstIsLongest(routes: seq<Route>, path: string, i: nat)
    requires Unshadowed(routes) && IsFirst(routes, path, i)
    ensures IsLongest(routes, path, i)
  {
    forall j | 0 <= j < |routes| && Matches(routes[j], path)
      ensures |routes[j].prefix| <= |routes[i].prefix|
    {
      if |routes[i].prefix| < |routes[j].prefix| {
        PrefixesCompare(routes[i].prefix, routes[j].prefix, path);
      }
    }
  }

  lemma {:induction false} FirstExists(routes: seq<Route>, path: string, j: nat) returns (i: nat)
    requires j < |routes| && Matches(routes[j], path)
    ensures IsFirst(routes, path, i) && i <= j
  {
    if earlier: nat :| earlier < j && Matches(routes[earlier], path) {
      i := FirstExists(routes, path, earlier);
    } else {
      i := j;
    }
  }

  lemma ShadowedNotLongest(routes: seq<Route>, i: nat, j: nat)
    requires DistinctPrefixes(routes)
    requires i < j < |routes| && !routes[i].exact && routes[i].prefix < routes[j].prefix
    ensures !FirstIsLongest(routes)
  {
    var path := routes[j].prefix;
    var first := FirstExists(routes, path, i);
    assert routes[first].prefix <= path && routes[first].prefix != path;
    assert !IsLongest(routes, path, first);
  }

  /** For tables without duplicate prefixes: first match is longest match for every path exactly when no
      prefix entry stands before a longer entry that it is a prefix of. */
  lemma FirstIsLongestIff(routes: seq<Route>)
    requires DistinctPrefixes(routes)
    ensures Unshadowed(routes) <==> FirstIsLongest(routes)
  {
    if Unshadowed(routes) {
      forall path, i | IsFirst(routes, path, i)
        ensures IsLongest(routes, path, i)
      {
        UnshadowedFirstIsLongest(routes, path, i);
      }
    }
    if !Unshadowed(routes) {
      var i: nat, j: nat :| i < j < |routes| && !routes[i].exact && routes[i].prefix < routes[j].prefix;
      ShadowedNotLongest(routes, i, j);
    }
  }

  /** Every entry receives its own path. */
  ghost predicate AllLive(routes: seq<Route>) {
    forall i :: 0 <= i < |routes| ==> IsFirst(routes, routes[i].prefix, i)
  }

  /** The same condition decides whether every entry can be reached at all, by its own path. */
  lemma AllLiveIff(routes: seq<Route>)
    requires DistinctPrefixes(routes)
    ensures Unshadowed(routes) <==> AllLive(routes)
  {
    if AllLive(routes) {
      forall i, j | 0 <= i < j < |routes| && !routes[i].exact
        ensures !(routes[i].prefix < routes[j].prefix)
      {
        assert IsFirst(routes, routes[j].prefix, j) && !Matches(routes[i], routes[j].prefix);
      }
    }
  }

  // Reordering.

  /** Where a path is sent: the first route that matches. */
  ghost predicate SentTo(routes: seq<Route>, path: string, r: Route) {
    exists i: nat :: IsFirst(routes, path, i) && routes[i] == r
  }

  lemma LongestUnique(a: seq<Route>, path: string, r: Route, q: Route)
    requires DistinctPrefixes(a) && r in a && q in a && Matches(r, path) && Matches(q, path) && |r.prefix| == |q.prefix|
    ensures r == q
  {
    PrefixesCompare(r.prefix, q.prefix, path);
    var i :| 0 <= i < |a| && a[i] == r;
    var j :| 0 <= j < |a| && a[j] == q;
    assert i == j;
  }

  lemma SentToMaximum(routes: seq<Route>, path: string, r: Route)
    requires Unshadowed(routes) && SentTo(routes, path, r)
    ensures r in routes && Matches(r, path)
    ensures forall q :: q in routes && Matches(q, path) ==> |q.prefix| <= |r.prefix|
  {
    var i: nat :| IsFirst(routes, path, i) && routes[i] == r;
    UnshadowedFirstIsLongest(routes, path, i);
  }

  /** Any two orders of the same entries that satisfy the condition send every path to the same route. */
  lemma OrderIrrelevant(a: seq<Route>, b: seq<Route>, path: string, r: Route)
    requires DistinctPrefixes(a) && Unshadowed(a) && Unshadowed(b)
    requires forall q :: q in a <==> q in b
    ensures SentTo(a, path, r) <==> SentTo(b, path, r)
  {
    if SentTo(a, path, r) {
      SameDestination(a, b, path, r);
    }
    if SentTo(b, path, r) {
      SentToMaximum(b, path, r);
      var j: nat :| j < |a| && a[j] == r;
      var i := FirstExists(a, path, j);
      SentToMaximum(a, path, a[i]);
      LongestUnique(a, path, r, a[i]);
    }
  }

  lemma SameDestination(a: seq<Route>, b: seq<Route>, path: string, r: Route)
    requires DistinctPrefixes(a) && Unshadowed(a) && Unshadowed(b) && SentTo(a, path, r)
    requires forall q :: q in a <==> q in b
    ensures SentTo(b, path, r)
  {
    SentToMaximum(a, path, r);
    var j: nat :| j < |b| && b[j] == r;
    var i := FirstExists(b, path, j);
    SentToMaximum(b, path, b[i]);
    LongestUnique(a, path, r, b[i]);
  }

  function Swapped(routes: seq<Route>, i: nat): seq<Route>
    requires i + 1 < |routes|
  {
    routes[i := routes[i + 1]][i + 1 := routes[i]]
  }

  lemma SwapKeeps(routes: seq<Route>, i: nat, path: string, r: Route)
    requires i + 1 < |routes|
    requires !(routes[i].prefix <= routes[i + 1].prefix) && !(routes[i + 1].prefix <= routes[i].prefix)
    ensures SentTo(routes, path, r) ==> SentTo(Swapped(routes, i), path, r)
  {
    if SentTo(routes, path, r) {
      var f: nat :| IsFirst(routes, path, f) && routes[f] == r;
      var both := Matches(routes[i], path) && Matches(routes[i + 1], path);
      if both {
        if |routes[i].prefix| <= |routes[i + 1].prefix| {
          PrefixesCompare(routes[i].prefix, routes[i + 1].prefix, path);
        } else {
          PrefixesCompare(routes[i + 1].prefix, routes[i].prefix, path);
        }
      }
      assert IsFirst(Swapped(routes, i), path, if f == i then i + 1 else if f == i + 1 then i else f);
    }
  }

  /** Swapping neighbours neither of which is a prefix of the other changes no dispatch, in any table. */
  lemma SwapIrrelevant(routes: seq<Route>, i: nat, path: string, r: Route)
    requires i + 1 < |routes|
    requires !(routes[i].prefix <= routes[i + 1].prefix) && !(routes[i + 1].prefix <= routes[i].prefix)
    ensures SentTo(routes, path, r) <==> SentTo(Swapped(routes, i), path, r)
  {
    SwapKeeps(routes, i, path, r);
    SwapKeeps(Swapped(routes, i), i, path, r);
    assert Swapped(Swapped(routes, i), i) == routes;
  }

  // The table of the parser.

  const PLATFORM_STEM := "oc-platform:components/component"
  const INTERFACE_STEM := "oc-if:interfaces/interface"

  const PLATFORM_TAILS := [
    "/oc-transceiver:transceiver/state", "/cpu/oc-cpu:utilization/state", "/oc-linecard:linecard/state",
    "/power-supply/state", "/fan/state", "/state/memory", "/state/storage", "/state/temperature", "/state"]

  const INTERFACE_TAILS := [
    "/subinterfaces/subinterface/state/counters", "/subinterfaces/subinterface/zte-if:state-period",
    "/subinterfaces/subinterface/state", "/state/counters", "/zte-if:state-period", "/state"]

  function Under(stem: string, tails: seq<string>): seq<Route> {
    seq(|tails|, i requires 0 <= i < |tails| => Route(stem + tails[i], false))
  }

  const ROUTES: seq<Route> :=
    [Route(PLATFORM_STEM, true)] + Under(PLATFORM_STEM, PLATFORM_TAILS) + Under(INTERFACE_STEM, INTERFACE_TAILS)

  /** No string of the list is a prefix of a later one. */
  ghost predicate TailsInOrder(tails: seq<string>) {
    forall i, j :: 0 <= i < j < |tails| ==> !(tails[i] <= tails[j])
  }

  lemma PlatformTailsInOrder()
    ensures TailsInOrder(PLATFORM_TAILS)
  {
    var t := PLATFORM_TAILS;
    // One position at which the tails that could be confused differ.
    assert t[0][1] == t[2][1] == 'o' && t[1][1] == 'c' && t[3][1] == 'p' && t[4][1] == 'f';
    assert t[5][1] == t[6][1] == t[7][1] == t[8][1] == 's';
    assert t[0][4] == 't' && t[2][4] == 'l';
    assert t[5][7] == 'm' && t[6][7] == 's' && t[7][7] == 't' && |t[8]| == 6;
  }

  lemma InterfaceTailsInOrder()
    ensures TailsInOrder(INTERFACE_TAILS)
  {
    var t := INTERFACE_TAILS;
    assert t[0][2] == t[1][2] == t[2][2] == 'u' && t[3][2] == t[5][2] == 't' && t[4][2] == 't';
    assert t[4][1] == 'z' && t[3][1] == t[5][1] == 's';
    assert t[0][28] == t[2][28] == 's' && t[1][28] == 'z';
    assert |t[0]| > |t[2]| && |t[3]| > |t[5]|;
  }

  lemma StemKeepsOrder(stem: string, a: string, b: string)
    requires !(a <= b)
    ensures !(stem + a <= stem + b)
  {
    if |a| <= |b| {
      var k :| 0 <= k < |a| && a[k] != b[k];
      assert (stem + a)[|stem| + k] != (stem + b)[|stem| + k];
    }
  }

  lemma GroupInOrder(stem: string, tails: seq<string>)
    requires TailsInOrder(tails)
    ensures var g := Under(stem, tails); forall i, j :: 0 <= i < j < |g| ==> !(g[i].prefix <= g[j].prefix)
  {
    var g := Under(stem, tails);
    forall i, j | 0 <= i < j < |g|
      ensures !(g[i].prefix <= g[j].prefix)
    {
      StemKeepsOrder(stem, tails[i], tails[j]);
    }
  }

  lemma StemsApart(a: string, b: string)
    ensures !(PLATFORM_STEM + a <= INTERFACE_STEM + b)
  {
    assert (PLATFORM_STEM + a)[3] == 'p' && (INTERFACE_STEM + b)[3] == 'i';
  }

  lemma LaterNotExtended(i: nat, j: nat)
    requires 1 <= i < j < |ROUTES|
    ensures !(ROUTES[i].prefix <= ROUTES[j].prefix)
  {
    PlatformTailsInOrder();
    InterfaceTailsInOrder();
    var p, q := Under(PLATFORM_STEM, PLATFORM_TAILS), Under(INTERFACE_STEM, INTERFACE_TAILS);
    GroupInOrder(PLATFORM_STEM, PLATFORM_TAILS);
    GroupInOrder(INTERFACE_STEM, INTERFACE_TAILS);
    if i <= |p| < j {
      StemsApart(PLATFORM_TAILS[i - 1], INTERFACE_TAILS[j - 1 - |p|]);
    } else if j <= |p| {
      assert ROUTES[i] == p[i - 1] && ROUTES[j] == p[j - 1];
    } else {
      assert ROUTES[i] == q[i - 1 - |p|] && ROUTES[j] == q[j - 1 - |p|];
    }
  }

  lemma StemOnlyFirst(j: nat)
    requires 1 <= j < |ROUTES|
    ensures ROUTES[0].prefix != ROUTES[j].prefix
  {
    if j <= 9 {
      assert |ROUTES[j].prefix| > |PLATFORM_STEM|;
    } else {
      StemsApart("", INTERFACE_TAILS[j - 10]);
      assert PLATFORM_STEM + "" == PLATFORM_STEM;
    }
  }

  lemma ParserRoutesUnshadowed()
    ensures DistinctPrefixes(ROUTES) && Unshadowed(ROUTES)
  {
    forall i, j | 0 <= i < j < |ROUTES|
      ensures ROUTES[i].prefix != ROUTES[j].prefix && (!ROUTES[i].exact ==> !(ROUTES[i].prefix < ROUTES[j].prefix))
    {
      if i == 0 {
        StemOnlyFirst(j);
      } else {
        LaterNotExtended(i, j);
      }
    }
  }

  /** The parser's table meets the condition, so it always dispatches to the longest matching entry, and its
      exact entry receives its own path and no other. */
  lemma ParserRoutesLongest(path: string, i: nat)
    requires IsFirst(ROUTES, path, i)
    ensures IsLongest(ROUTES, path, i)
    ensures i == 0 <==> path == "oc-platform:components/component"
  {
    ParserRoutesUnshadowed();
    UnshadowedFirstIsLongest(ROUTES, path, i);
    assert Matches(ROUTES[0], PLATFORM_STEM);
  }

  /** Each of its sixteen entries receives its own path. */
  lemma ParserRoutesLive()
    ensures AllLive(ROUTES)
  {
    ParserRoutesUnshadowed();
    AllLiveIff(ROUTES);
  }

  /** The table is not sorted by descending length, and need not be. */
  lemma NotSortedByLength()
    ensures exists i, j :: 0 <= i < j < |ROUTES| && |ROUTES[i].prefix| < |ROUTES[j].prefix|
  {
    assert |ROUTES[0].prefix| < |ROUTES[1].prefix|;
  }
}
