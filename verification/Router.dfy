/**
  internal/router: a tree of routers, assembled leaf first, flattened into one table keyed by "METHOD path".
*/
module Router {
  type Action = nat

  // ----- patterns -----------------------------------------------------------------------------------------------

  /** strings.Cut at the first space; without one everything is before it. */
  function Cut(s: string): (string, string) {
    if s == "" then ("", "")
    else if s[0] == ' ' then ("", s[1..])
    else var (before, after) := Cut(s[1..]); ([s[0]] + before, after)
  }

  /** "METHOD path", the method without a space. */
  function Pattern(verb: string, path: string): string { verb + " " + path }

  predicate IsMethod(m: string) { ' ' !in m }

  lemma {:induction false} CutPattern(m: string, path: string)
    requires IsMethod(m)
    ensures Cut(Pattern(m, path)) == (m, path)
  {
    var s := Pattern(m, path);
    if m == "" {
      assert s[1..] == path;
    } else {
      assert s[0] == m[0] && s[1..] == Pattern(m[1..], path);
      CutPattern(m[1..], path);
      assert [m[0]] + m[1..] == m;
    }
  }

  /** The pattern as add writes it: its method, and prefix before its path. */
  function Rekey(prefix: string, pattern: string): string {
    var (m, path) := Cut(pattern);
    Pattern(m, prefix + path)
  }

  /** Prefixing is injective: no two routes of a router can collide. */
  lemma RekeyInjective(prefix: string, a: Route, b: Route)
    requires IsMethod(a.verb) && IsMethod(b.verb)
    requires Rekey(prefix, Key(a)) == Rekey(prefix, Key(b))
    ensures a.verb == b.verb && a.path == b.path
  {
    CutPattern(a.verb, a.path);
    CutPattern(b.verb, b.path);
    CutPattern(a.verb, prefix + a.path);
    CutPattern(b.verb, prefix + b.path);
    assert (prefix + a.path)[|prefix|..] == a.path && (prefix + b.path)[|prefix|..] == b.path;
  }

  // ----- the tree and what it declares --------------------------------------------------------------------------

  datatype Route = Route(verb: string, path: string, action: Action)

  function Key(r: Route): string { Pattern(r.verb, r.path) }

  /** A router: its prefix, the routes given relative to it, and the routers mounted on it. */
  datatype Tree = Node(prefix: string, routes: seq<Route>, children: seq<Tree>)

  /** A route as seen from behind a prefix. */
  function Behind(prefix: string, r: Route): Route { Route(r.verb, prefix + r.path, r.action) }

  function AllBehind(prefix: string, routes: seq<Route>): seq<Route> {
    seq(|routes|, i requires 0 <= i < |routes| => Behind(prefix, routes[i]))
  }

  /** Every route the tree declares, its path the concatenation of the prefixes from the root down and its own. */
  function Declared(t: Tree): seq<Route>
    decreases t, 1
  {
    AllBehind(t.prefix, t.routes + DeclaredByAll(t.children))
  }

  function DeclaredByAll(ts: seq<Tree>): seq<Route>
    decreases ts, 0
  {
    if ts == [] then [] else Declared(ts[0]) + DeclaredByAll(ts[1..])
  }

  predicate Proper(routes: seq<Route>) { forall i | 0 <= i < |routes| :: IsMethod(routes[i].verb) }

  predicate ProperTree(t: Tree)
    decreases t, 1
  {
    Proper(t.routes) && ProperTrees(t.children)
  }

  predicate ProperTrees(ts: seq<Tree>)
    decreases ts, 0
  {
    ts == [] || (ProperTree(ts[0]) && ProperTrees(ts[1..]))
  }

  lemma {:induction false} DeclaredProper(t: Tree)
    requires ProperTree(t)
    ensures Proper(t.routes + DeclaredByAll(t.children)) && Proper(Declared(t))
    decreases t, 1
  {
    AllDeclaredProper(t.children);
  }

  lemma {:induction false} AllDeclaredProper(ts: seq<Tree>)
    requires ProperTrees(ts)
    ensures Proper(DeclaredByAll(ts))
    decreases ts, 0
  {
    if ts != [] {
      DeclaredProper(ts[0]);
      AllDeclaredProper(ts[1..]);
    }
  }

  // ----- the table ----------------------------------------------------------------------------------------------

  /** The table of a list of routes, a later one replacing an earlier one of the same key. */
  function MapOf(routes: seq<Route>): map<string, Action> {
    if routes == [] then map[]
    else MapOf(routes[..|routes| - 1])[Key(routes[|routes| - 1]) := routes[|routes| - 1].action]
  }

  lemma {:induction false} MapOfAppend(a: seq<Route>, b: seq<Route>)
    ensures MapOf(a + b) == MapOf(a) + MapOf(b)
  {
    if b == [] {
      assert a + b == a;
    } else {
      MapOfAppend(a, b[..|b| - 1]);
      assert (a + b)[..|a + b| - 1] == a + b[..|b| - 1];
    }
  }

  /** A pattern of the table is written under k, with its action. */
  ghost predicate Written(prefix: string, table: map<string, Action>, k: string, action: Action) {
    exists p | p in table :: Rekey(prefix, p) == k && table[p] == action
  }

  /** What copying a table behind a prefix into another makes of it. */
  ghost predicate Copies(before: map<string, Action>, prefix: string, table: map<string, Action>, after: map<string, Action>) {
    && (forall p | p in table :: Rekey(prefix, p) in after)
    && (forall k | k in before :: k in after)
    && (forall k | k in after ::
          || Written(prefix, table, k, after[k])
          || (k in before && after[k] == before[k] && forall p | p in table :: Rekey(prefix, p) != k))
  }

  /** Rekeying a route's pattern is putting the route behind the prefix. */
  lemma RekeyKey(prefix: string, r: Route)
    requires IsMethod(r.verb)
    ensures Rekey(prefix, Key(r)) == Key(Behind(prefix, r))
  {
    CutPattern(r.verb, r.path);
  }

  lemma {:induction false} MapOfKeys(routes: seq<Route>, k: string)
    ensures k in MapOf(routes) <==> exists i | 0 <= i < |routes| :: Key(routes[i]) == k
  {
    if routes != [] {
      var n := |routes| - 1;
      MapOfKeys(routes[..n], k);
      if k in MapOf(routes[..n]) {
        var i :| 0 <= i < |routes[..n]| && Key(routes[..n][i]) == k;
        assert Key(routes[i]) == k;
      }
      if i :| 0 <= i < |routes| && Key(routes[i]) == k && i < n { assert Key(routes[..n][i]) == k; }
    }
  }

  /** An entry is the action of the last route of its key. */
  lemma {:induction false} LastRouteWins(routes: seq<Route>, i: nat)
    requires i < |routes| && forall j | i < j < |routes| :: Key(routes[j]) != Key(routes[i])
    ensures Key(routes[i]) in MapOf(routes) && MapOf(routes)[Key(routes[i])] == routes[i].action
  {
    var n := |routes| - 1;
    if i < n {
      assert forall j | i < j < n :: routes[..n][j] == routes[j];
      LastRouteWins(routes[..n], i);
    }
  }

  /** The table of the routes behind a prefix is the table, every pattern rekeyed. */
  lemma {:induction false} BehindCopies(prefix: string, routes: seq<Route>)
    requires Proper(routes)
    ensures forall p | p in MapOf(routes) ::
      && Rekey(prefix, p) in MapOf(AllBehind(prefix, routes))
      && MapOf(AllBehind(prefix, routes))[Rekey(prefix, p)] == MapOf(routes)[p]
    ensures forall k | k in MapOf(AllBehind(prefix, routes)) :: exists p | p in MapOf(routes) :: Rekey(prefix, p) == k
  {
    if routes != [] {
      var n := |routes| - 1;
      BehindCopies(prefix, routes[..n]);
      assert AllBehind(prefix, routes)[..n] == AllBehind(prefix, routes[..n]);
      RekeyKey(prefix, routes[n]);
      var k := Key(routes[n]);
      forall p | p in MapOf(routes[..n]) && p != k ensures Rekey(prefix, p) != Rekey(prefix, k) {
        MapOfKeys(routes[..n], p);
        var i :| 0 <= i < |routes[..n]| && Key(routes[..n][i]) == p;
        if Rekey(prefix, p) == Rekey(prefix, k) { RekeyInjective(prefix, routes[i], routes[n]); }
      }
    }
  }

  /** So a copy is determined, whatever order the table is iterated in. */
  lemma CopyIsDetermined(before: map<string, Action>, prefix: string, routes: seq<Route>, after: map<string, Action>)
    requires Proper(routes) && Copies(before, prefix, MapOf(routes), after)
    ensures after == before + MapOf(AllBehind(prefix, routes))
  {
    BehindCopies(prefix, routes);
    var shifted := MapOf(AllBehind(prefix, routes));
    forall k | k in after ensures k in before + shifted && after[k] == (before + shifted)[k] {
      if Written(prefix, MapOf(routes), k, after[k]) {
        var p :| p in MapOf(routes) && Rekey(prefix, p) == k && MapOf(routes)[p] == after[k];
      }
    }
  }

  // ----- one entry per route ------------------------------------------------------------------------------------

  /** No two declared routes share a method and a full path. */
  predicate NoCollision(routes: seq<Route>) {
    forall i, j | 0 <= i < j < |routes| :: Key(routes[i]) != Key(routes[j])
  }

  /** Without collisions each route has its own entry, mapped to its own action. */
  lemma {:induction false} OneEntryEach(routes: seq<Route>)
    requires NoCollision(routes)
    ensures forall i | 0 <= i < |routes| :: Key(routes[i]) in MapOf(routes) && MapOf(routes)[Key(routes[i])] == routes[i].action
    ensures |MapOf(routes)| == |routes|
  {
    if routes != [] {
      var n := |routes| - 1;
      OneEntryEach(routes[..n]);
      MapOfKeys(routes[..n], Key(routes[n]));
      forall i | 0 <= i < n ensures Key(routes[i]) in MapOf(routes) && MapOf(routes)[Key(routes[i])] == routes[i].action {
        assert routes[..n][i] == routes[i];
      }
    }
  }

  lemma {:induction false} AtMostOneEntryEach(routes: seq<Route>)
    ensures |MapOf(routes)| <= |routes|
  {
    if routes != [] { AtMostOneEntryEach(routes[..|routes| - 1]); }
  }

  lemma LastCollides(routes: seq<Route>, n: nat)
    requires |routes| == n + 1 && NoCollision(routes[..n])
    ensures NoCollision(routes) <==> forall i | 0 <= i < n :: Key(routes[i]) != Key(routes[n])
  {
    if forall i | 0 <= i < n :: Key(routes[i]) != Key(routes[n]) {
      forall i, j | 0 <= i < j < |routes| ensures Key(routes[i]) != Key(routes[j]) {
        if j < n { assert routes[..n][i] == routes[i] && routes[..n][j] == routes[j]; }
      }
    }
  }

  /** The table has an entry for every declared route exactly if no two collide. */
  lemma {:induction false} EntriesCountRoutes(routes: seq<Route>)
    ensures |MapOf(routes)| == |routes| <==> NoCollision(routes)
  {
    if NoCollision(routes) {
      OneEntryEach(routes);
    } else if routes != [] {
      var n := |routes| - 1;
      EntriesCountRoutes(routes[..n]);
      AtMostOneEntryEach(routes[..n]);
      if NoCollision(routes[..n]) {
        LastCollides(routes, n);
        MapOfKeys(routes[..n], Key(routes[n]));
        var i :| 0 <= i < n && Key(routes[i]) == Key(routes[n]);
        assert Key(routes[..n][i]) == Key(routes[n]);
      }
    }
  }

  // ----- the tree, route by route -------------------------------------------------------------------------------

  /** at walks down from the root, child by child, to a router that is given an i-th route. */
  predicate IsPlace(t: Tree, at: seq<nat>, i: nat)
    decreases t
  {
    if at == [] then i < |t.routes|
    else at[0] < |t.children| && IsPlace(t.children[at[0]], at[1..], i)
  }

  /** The prefixes from the root down, concatenated. */
  function PrefixTo(t: Tree, at: seq<nat>, i: nat): string
    requires IsPlace(t, at, i)
    decreases t
  {
    if at == [] then t.prefix else t.prefix + PrefixTo(t.children[at[0]], at[1..], i)
  }

  function Given(t: Tree, at: seq<nat>, i: nat): Route
    requires IsPlace(t, at, i)
    decreases t
  {
    if at == [] then t.routes[i] else Given(t.children[at[0]], at[1..], i)
  }

  /** The method and action of a route as given, and its path behind every prefix above it. */
  function Placed(t: Tree, at: seq<nat>, i: nat): Route
    requires IsPlace(t, at, i)
  {
    Behind(PrefixTo(t, at, i), Given(t, at, i))
  }

  lemma {:induction false} DeclaredByEach(ts: seq<Tree>, r: Route)
    ensures r in DeclaredByAll(ts) <==> exists c | 0 <= c < |ts| :: r in Declared(ts[c])
  {
    if ts != [] {
      DeclaredByEach(ts[1..], r);
      if r in DeclaredByAll(ts[1..]) {
        var c :| 0 <= c < |ts[1..]| && r in Declared(ts[1..][c]);
        assert r in Declared(ts[c + 1]);
      }
      if c :| 0 < c < |ts| && r in Declared(ts[c]) { assert r in Declared(ts[1..][c - 1]); }
    }
  }

  lemma {:induction false} PlacedIsDeclared(t: Tree, at: seq<nat>, i: nat)
    requires IsPlace(t, at, i)
    ensures Placed(t, at, i) in Declared(t)
    decreases t
  {
    var inner := t.routes + DeclaredByAll(t.children);
    if at == [] {
      assert AllBehind(t.prefix, inner)[i] == Placed(t, at, i);
    } else {
      var child := t.children[at[0]];
      PlacedIsDeclared(child, at[1..], i);
      var r := Placed(child, at[1..], i);
      DeclaredByEach(t.children, r);
      assert r in DeclaredByAll(t.children);
      var k :| 0 <= k < |DeclaredByAll(t.children)| && DeclaredByAll(t.children)[k] == r;
      var j := |t.routes| + k;
      assert Behind(t.prefix, r).path == Placed(t, at, i).path;
      assert AllBehind(t.prefix, inner)[j] == Placed(t, at, i);
    }
  }

  lemma {:induction false} DeclaredIsPlaced(t: Tree, r: Route) returns (at: seq<nat>, i: nat)
    requires r in Declared(t)
    ensures IsPlace(t, at, i) && Placed(t, at, i) == r
    decreases t
  {
    var inner := t.routes + DeclaredByAll(t.children);
    var j :| 0 <= j < |inner| && AllBehind(t.prefix, inner)[j] == r;
    if j < |t.routes| {
      at, i := [], j;
    } else {
      DeclaredByEach(t.children, inner[j]);
      var c :| 0 <= c < |t.children| && inner[j] in Declared(t.children[c]);
      var below, k := DeclaredIsPlaced(t.children[c], inner[j]);
      at, i := [c] + below, k;
      assert at[1..] == below;
      assert t.prefix + (PrefixTo(t.children[c], below, k) + Given(t, at, i).path) == PrefixTo(t, at, i) + Given(t, at, i).path;
    }
  }

  /** The pattern of a placed route: its method, a space, the prefixes from the root down, and its path. */
  function PlacedKey(t: Tree, at: seq<nat>, i: nat): string
    requires IsPlace(t, at, i)
  {
    Given(t, at, i).verb + " " + PrefixTo(t, at, i) + Given(t, at, i).path
  }

  lemma PlacedKeyIsKey(t: Tree, at: seq<nat>, i: nat)
    requires IsPlace(t, at, i)
    ensures PlacedKey(t, at, i) == Key(Placed(t, at, i)) && Placed(t, at, i).action == Given(t, at, i).action
  {
    var g, prefix := Given(t, at, i), PrefixTo(t, at, i);
    assert g.verb + " " + prefix + g.path == g.verb + " " + (prefix + g.path);
  }

  /** The flattened table has exactly the keys of the placed routes and, without collisions, maps each to its own action. */
  lemma TableOfTree(t: Tree, k: string)
    ensures k in MapOf(Declared(t)) <==> exists at, i | IsPlace(t, at, i) :: PlacedKey(t, at, i) == k
    ensures NoCollision(Declared(t)) ==>
      forall at, i | IsPlace(t, at, i) && PlacedKey(t, at, i) == k :: MapOf(Declared(t))[k] == Given(t, at, i).action
  {
    MapOfKeys(Declared(t), k);
    if k in MapOf(Declared(t)) {
      var j :| 0 <= j < |Declared(t)| && Key(Declared(t)[j]) == k;
      var at, i := DeclaredIsPlaced(t, Declared(t)[j]);
      PlacedKeyIsKey(t, at, i);
    }
    forall at, i | IsPlace(t, at, i) && PlacedKey(t, at, i) == k
      ensures k in MapOf(Declared(t))
      ensures NoCollision(Declared(t)) ==> MapOf(Declared(t))[k] == Given(t, at, i).action
    {
      PlacedKeyIsKey(t, at, i);
      PlacedIsDeclared(t, at, i);
      if NoCollision(Declared(t)) { OneEntryEach(Declared(t)); }
    }
  }

  // ----- the code -----------------------------------------------------------------------------------------------

  class Table {
    const Prefix: string
    var Routes: map<string, Action>

    /** New. */
    constructor (prefix: string, ghost given: seq<Route>, routes: map<string, Action>)
      requires Proper(given) && routes == MapOf(given)
      ensures Prefix == prefix && Routes == MapOf(AllBehind(prefix, given))
    {
      Prefix := prefix;
      Routes := map[];
      new;
      Add(routes);
      CopyIsDetermined(map[], prefix, given, Routes);
    }

    /** add: the routes are taken in the order the map is iterated in. */
    method Add(routes: map<string, Action>)
      modifies this
      ensures Copies(old(Routes), Prefix, routes, Routes)
    {
      var left := routes.Keys;
      while left != {}
        invariant left <= routes.Keys
        invariant forall p | p in routes && p !in left :: Rekey(Prefix, p) in Routes
        invariant forall k | k in old(Routes) :: k in Routes
        invariant forall k | k in Routes ::
          || Written(Prefix, routes, k, Routes[k])
          || (k in old(Routes) && Routes[k] == old(Routes)[k] && forall p | p in routes && p !in left :: Rekey(Prefix, p) != k)
        decreases |left|
      {
        var pattern :| pattern in left;
        var (m, path) := Cut(pattern);
        Routes := Routes[m + " " + (Prefix + path) := routes[pattern]];
        left := left - {pattern};
      }
    }

    /** Mount. */
    method Mount(child: Table, ghost declared: seq<Route>)
      requires child != this && Proper(declared) && child.Routes == MapOf(declared)
      modifies this
      ensures Routes == old(Routes) + MapOf(AllBehind(Prefix, declared))
    {
      Add(child.Routes);
      CopyIsDetermined(old(Routes), Prefix, declared, Routes);
    }
  }

  /** A tree assembled leaf first: its root's table is the table of everything the tree declares. */
  method Assemble(t: Tree) returns (root: Table)
    requires ProperTree(t)
    ensures fresh(root) && root.Prefix == t.prefix && root.Routes == MapOf(Declared(t))
    decreases t
  {
    DeclaredProper(t);
    assert Proper(t.routes);
    root := new Table(t.prefix, t.routes, MapOf(t.routes));
    var i := 0;
    assert t.routes + DeclaredByAll(t.children[..0]) == t.routes;
    while i < |t.children|
      invariant 0 <= i <= |t.children| && fresh(root) && root.Prefix == t.prefix
      invariant root.Routes == MapOf(AllBehind(t.prefix, t.routes + DeclaredByAll(t.children[..i])))
    {
      ProperChild(t.children, i);
      DeclaredProper(t.children[i]);
      var child := Assemble(t.children[i]);
      root.Mount(child, Declared(t.children[i]));
      MountAdds(t, i);
      i := i + 1;
    }
    assert t.children[..|t.children|] == t.children;
  }

  lemma {:induction false} ProperChild(ts: seq<Tree>, i: nat)
    requires ProperTrees(ts) && i < |ts|
    ensures ProperTree(ts[i])
  {
    if i > 0 { ProperChild(ts[1..], i - 1); }
  }

  lemma {:induction false} DeclaredByMore(ts: seq<Tree>, i: nat)
    requires i < |ts|
    ensures DeclaredByAll(ts[..i + 1]) == DeclaredByAll(ts[..i]) + Declared(ts[i])
  {
    if i == 0 {
      assert ts[..1][1..] == [];
    } else {
      DeclaredByMore(ts[1..], i - 1);
      assert ts[..i + 1][1..] == ts[1..][..i] && ts[..i][1..] == ts[1..][..i - 1];
    }
  }

  lemma MountAdds(t: Tree, i: nat)
    requires i < |t.children|
    ensures MapOf(AllBehind(t.prefix, t.routes + DeclaredByAll(t.children[..i + 1])))
         == MapOf(AllBehind(t.prefix, t.routes + DeclaredByAll(t.children[..i])))
            + MapOf(AllBehind(t.prefix, Declared(t.children[i])))
  {
    DeclaredByMore(t.children, i);
    var a, b := t.routes + DeclaredByAll(t.children[..i]), Declared(t.children[i]);
    assert t.routes + DeclaredByAll(t.children[..i + 1]) == a + b;
    assert AllBehind(t.prefix, a + b) == AllBehind(t.prefix, a) + AllBehind(t.prefix, b);
    MapOfAppend(AllBehind(t.prefix, a), AllBehind(t.prefix, b));
  }
}
