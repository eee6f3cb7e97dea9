/**
 options.go: the check that provider options can be marshalled to JSON.

 The values reachable from an option form a graph. Values are numbered nodes; a pointer
 or a map also has the machine address under which the walk remembers it. A panic is the
 answer false.
 */
module Serializable {
  import opened Wrappers

  datatype Field = Field(exported: bool, embedded: bool, dashTag: bool, value: nat)

  datatype Node =
    | Scalar                                                  // also nil pointers, interfaces and maps
    | Opaque                                                  // chan, func, unsafe pointer
    | Marshaler(succeeds: bool)
    | Pointer(addr: nat, target: nat)
    | Interface(target: nat)
    | Mapping(goodKeys: bool, addr: nat, values: seq<nat>)
    | Sequence(elements: seq<nat>)                            // slice or array
    | Struct(fields: seq<Field>)

  type Graph = seq<Node>

  const MAX_DEPTH: nat := 1000

  /** The fields json.Marshal looks at. */
  function Marshalled(fields: seq<Field>): seq<nat> {
    if fields == [] then []
    else
      var f := fields[0];
      (if (!f.exported && !f.embedded) || f.dashTag then [] else [f.value]) + Marshalled(fields[1..])
  }

  function Edges(n: Node): seq<nat> {
    match n
    case Pointer(_, t) => [t]
    case Interface(t) => [t]
    case Mapping(_, _, vs) => vs
    case Sequence(es) => es
    case Struct(fs) => Marshalled(fs)
    case _ => []
  }

  predicate Bad(n: Node) {
    match n
    case Opaque => true
    case Marshaler(ok) => !ok
    case Mapping(goodKeys, _, _) => !goodKeys
    case _ => false
  }

  predicate Tracked(n: Node) {
    n.Pointer? || n.Mapping?
  }

  predicate Closed(g: Graph) {
    forall n, w | 0 <= n < |g| && w in Edges(g[n]) :: w < |g|
  }

  // ------------------------------------------------- what the check is about

  ghost predicate Path(g: Graph, p: seq<nat>) {
    && p != []
    && (forall i | 0 <= i < |p| :: p[i] < |g|)
    && (forall i | 0 < i < |p| :: p[i] in Edges(g[p[i - 1]]))
  }

  ghost predicate PathFrom(g: Graph, v: nat, p: seq<nat>) {
    Path(g, p) && p[0] == v
  }

  ghost predicate Simple(p: seq<nat>) {
    forall i, j | 0 <= i < j < |p| :: p[i] != p[j]
  }

  ghost predicate Reaches(g: Graph, v: nat, n: nat) {
    exists p :: PathFrom(g, v, p) && p[|p| - 1] == n
  }

  predicate SameAddress(g: Graph, m: nat, n: nat) {
    m < |g| && n < |g| && Tracked(g[m]) && Tracked(g[n]) && g[m].addr == g[n].addr
  }

  /** No reachable value is one json.Marshal rejects, and no path comes back. */
  ghost predicate Serializes(g: Graph, v: nat) {
    && (forall p | PathFrom(g, v, p) :: !Bad(g[p[|p| - 1]]))
    && (forall p | PathFrom(g, v, p) :: Simple(p))
  }

  ghost predicate NoDeepPath(g: Graph, v: nat) {
    forall p | PathFrom(g, v, p) && Simple(p) :: |p| - 1 <= MAX_DEPTH
  }

  // ----------------------------------------------------- the walk as a function

  datatype Mark = InProgress | Done

  type Seen = map<nat, Mark>

  function Check(g: Graph, v: nat, seen: Seen, depth: nat): Option<Seen>
    requires Closed(g) && v < |g| && depth <= MAX_DEPTH + 1
    decreases MAX_DEPTH + 1 - depth, 0, 0
  {
    var n := g[v];
    if depth > MAX_DEPTH || Bad(n) then None
    else if n.Marshaler? then Some(seen)
    else if Tracked(n) then
      if n.addr in seen && seen[n.addr] == InProgress then None
      else if n.addr in seen then Some(seen)
      else
        match CheckAll(g, Edges(n), seen[n.addr := InProgress], depth + 1)
        case None => None
        case Some(s) => Some(s[n.addr := Done])
    else CheckAll(g, Edges(n), seen, depth + 1)
  }

  function CheckAll(g: Graph, vs: seq<nat>, seen: Seen, depth: nat): Option<Seen>
    requires Closed(g) && (forall w | w in vs :: w < |g|) && depth <= MAX_DEPTH + 1
    decreases MAX_DEPTH + 1 - depth, 1, |vs|
  {
    if vs == [] then Some(seen)
    else
      assert vs[0] in vs && forall w | w in vs[1..] :: w in vs;
      match Check(g, vs[0], seen, depth)
      case None => None
      case Some(s) => CheckAll(g, vs[1..], s, depth)
  }

  // -------------------------------------------------------------- heights

  /** Nothing bad is reachable from v, and no path from v has more than k edges. */
  ghost predicate CleanWithin(g: Graph, v: nat, k: nat)
    requires Closed(g) && v < |g|
    decreases k
  {
    !Bad(g[v]) && forall w | w in Edges(g[v]) :: k > 0 && CleanWithin(g, w, k - 1)
  }

  ghost predicate HasHeight(g: Graph, v: nat)
    requires Closed(g) && v < |g|
  {
    exists k: nat :: CleanWithin(g, v, k)
  }

  lemma {:induction false} Higher(g: Graph, v: nat, k: nat, m: nat)
    requires Closed(g) && v < |g| && CleanWithin(g, v, k) && k <= m
    ensures CleanWithin(g, v, m)
    decreases k
  {
    forall w | w in Edges(g[v]) ensures m > 0 && CleanWithin(g, w, m - 1) {
      Higher(g, w, k - 1, m - 1);
    }
  }

  lemma {:induction false} Least(g: Graph, v: nat, k: nat) returns (h: nat)
    requires Closed(g) && v < |g| && CleanWithin(g, v, k)
    ensures h <= k && CleanWithin(g, v, h) && (h > 0 ==> !CleanWithin(g, v, h - 1))
  {
    h := k;
    while h > 0 && CleanWithin(g, v, h - 1)
      invariant h <= k && CleanWithin(g, v, h)
    {
      h := h - 1;
    }
  }

  lemma {:induction false} HeightBoundsPaths(g: Graph, v: nat, k: nat, p: seq<nat>)
    requires Closed(g) && v < |g| && CleanWithin(g, v, k) && PathFrom(g, v, p)
    ensures |p| - 1 <= k && CleanWithin(g, p[|p| - 1], k - (|p| - 1))
    decreases |p|
  {
    if |p| > 1 {
      var q := p[..|p| - 1];
      HeightBoundsPaths(g, v, k, q);
      assert p[|p| - 1] in Edges(g[q[|q| - 1]]);
    }
  }

  lemma PrefixPath(g: Graph, v: nat, w: nat, p: seq<nat>)
    requires Closed(g) && v < |g| && w in Edges(g[v]) && PathFrom(g, w, p)
    ensures PathFrom(g, v, [v] + p)
  {
    var q := [v] + p;
    forall i | 0 < i < |q| ensures q[i] in Edges(g[q[i - 1]]) {
      if i > 1 { assert p[i - 1] in Edges(g[p[i - 1 - 1]]); }
    }
  }

  ghost predicate PathsWithin(g: Graph, v: nat, k: int)
    requires Closed(g)
  {
    forall p | PathFrom(g, v, p) :: !Bad(g[p[|p| - 1]]) && |p| - 1 <= k
  }

  lemma NextPathsWithin(g: Graph, v: nat, w: nat, k: nat)
    requires Closed(g) && v < |g| && w in Edges(g[v]) && PathsWithin(g, v, k)
    ensures k > 0 && PathsWithin(g, w, k - 1)
  {
    PrefixPath(g, v, w, [w]);
    assert |[v] + [w]| == 2;
    forall p | PathFrom(g, w, p) ensures !Bad(g[p[|p| - 1]]) && |p| - 1 <= k - 1 {
      PrefixPath(g, v, w, p);
      assert ([v] + p)[|p|] == p[|p| - 1];
    }
  }

  lemma {:induction false} PathsBoundHeight(g: Graph, v: nat, k: nat)
    requires Closed(g) && v < |g| && PathsWithin(g, v, k)
    ensures CleanWithin(g, v, k)
    decreases k
  {
    assert PathFrom(g, v, [v]);
    forall w | w in Edges(g[v]) ensures k > 0 && CleanWithin(g, w, k - 1) {
      NextPathsWithin(g, v, w, k);
      PathsBoundHeight(g, w, k - 1);
    }
  }

  lemma PartOfPath(g: Graph, p: seq<nat>, i: nat, j: nat) returns (part: seq<nat>)
    requires Path(g, p) && i <= j < |p|
    ensures PathFrom(g, p[i], part) && |part| == j - i + 1 && part[|part| - 1] == p[j]
  {
    part := p[i..j + 1];
    forall m | 0 < m < |part| ensures part[m] in Edges(g[part[m - 1]]) {
      assert p[i + m] in Edges(g[p[i + m - 1]]);
    }
  }

  /** A path that returns would bring the same node a smaller height. */
  lemma CleanIsSimple(g: Graph, v: nat, k: nat, p: seq<nat>)
    requires Closed(g) && v < |g| && CleanWithin(g, v, k) && PathFrom(g, v, p)
    ensures Simple(p)
  {
    forall i, j | 0 <= i < j < |p| ensures p[i] != p[j] {
      var head := PartOfPath(g, p, 0, i);
      var loop := PartOfPath(g, p, i, j);
      HeightBoundsPaths(g, v, k, head);
      var h := Least(g, p[i], k - i);
      HeightBoundsPaths(g, p[i], h, loop);
      if p[i] == p[j] {
        Higher(g, p[i], h - (j - i), h - 1);
      }
    }
  }

  ghost function Elements(p: seq<nat>): set<nat> {
    set x | x in p
  }

  lemma {:induction false} SimpleIsShort(p: seq<nat>, n: nat)
    requires Simple(p) && forall i | 0 <= i < |p| :: p[i] < n
    ensures |p| <= n
  {
    Cardinality(p);
    SetBelow(n);
    SubsetSize(Elements(p), Below(n));
  }

  lemma {:induction false} Cardinality(p: seq<nat>)
    requires Simple(p)
    ensures |Elements(p)| == |p|
  {
    if p != [] {
      var q, x := p[..|p| - 1], p[|p| - 1];
      Cardinality(q);
      assert p == q + [x];
      assert Elements(p) == Elements(q) + {x};
    }
  }

  ghost function Below(n: nat): set<nat> {
    if n == 0 then {} else Below(n - 1) + {n - 1}
  }

  lemma {:induction false} SetBelow(n: nat)
    ensures |Below(n)| == n && forall x: nat :: x in Below(n) <==> x < n
  {
    if n > 0 {
      SetBelow(n - 1);
    }
  }

  lemma SubsetSize(t: set<nat>, s: set<nat>)
    requires t <= s
    ensures |t| <= |s|
  {
    assert s == t + (s - t);
  }

  /** A value serializes exactly when it has a height, and its height is then the
      length of its longest path. */
  lemma SerializesIsHeight(g: Graph, v: nat)
    requires Closed(g) && v < |g|
    ensures Serializes(g, v) <==> HasHeight(g, v)
    ensures Serializes(g, v) && NoDeepPath(g, v) ==> CleanWithin(g, v, MAX_DEPTH)
  {
    if Serializes(g, v) {
      forall p | PathFrom(g, v, p) ensures |p| - 1 <= |g| {
        SimpleIsShort(p, |g|);
      }
      PathsBoundHeight(g, v, |g|);
      assert HasHeight(g, v);
      if NoDeepPath(g, v) {
        PathsBoundHeight(g, v, MAX_DEPTH);
      }
    }
    if HasHeight(g, v) {
      var k: nat :| CleanWithin(g, v, k);
      forall p | PathFrom(g, v, p) ensures !Bad(g[p[|p| - 1]]) {
        HeightBoundsPaths(g, v, k, p);
      }
      forall p | PathFrom(g, v, p) ensures Simple(p) {
        CleanIsSimple(g, v, k, p);
      }
    }
  }

  // ------------------------------------------------------- the walk is exact

  /** Reachable objects at one address, such as a struct and its first field, serialize
      both or neither. */
  ghost predicate AlikeWhereShared(g: Graph, root: nat) {
    forall m: nat, n: nat | Reaches(g, root, m) && Reaches(g, root, n) && SameAddress(g, m, n) ::
      Serializes(g, m) <==> Serializes(g, n)
  }

  /** No reachable object is inside another one at its address. */
  ghost predicate ApartWhereShared(g: Graph, root: nat) {
    forall m: nat, n: nat | Reaches(g, root, m) && Reaches(g, m, n) && SameAddress(g, m, n) :: g[m] == g[n]
  }

  /** One address stands for one object. */
  predicate DistinctAddresses(g: Graph) {
    forall m, n | 0 <= m < |g| && 0 <= n < |g| :: SameAddress(g, m, n) ==> g[m] == g[n]
  }

  /** A done mark means that everything reachable from the object is clean. */
  ghost predicate DoneIsClean(g: Graph, root: nat, seen: Seen)
    requires Closed(g)
  {
    forall n | 0 <= n < |g| && Reaches(g, root, n) && Tracked(g[n]) && g[n].addr in seen && seen[g[n].addr] == Done ::
      HasHeight(g, n)
  }

  /** The marks after a call: nothing is lost, and what was in progress still is. */
  ghost predicate Extends(after: Seen, before: Seen) {
    && (forall a | a in before :: a in after && after[a] == before[a])
    && (forall a | a in after && a !in before :: after[a] == Done)
  }

  lemma ReachesItself(g: Graph, v: nat)
    requires v < |g|
    ensures Reaches(g, v, v)
  {
    assert PathFrom(g, v, [v]);
  }

  lemma ReachesOn(g: Graph, root: nat, v: nat, w: nat)
    requires Closed(g) && v < |g| && Reaches(g, root, v) && w in Edges(g[v])
    ensures Reaches(g, root, w)
  {
    var p :| PathFrom(g, root, p) && p[|p| - 1] == v;
    assert PathFrom(g, root, p + [w]);
  }

  lemma ReachesBelow(g: Graph, v: nat, w: nat, n: nat)
    requires Closed(g) && v < |g| && w in Edges(g[v]) && Reaches(g, w, n)
    ensures Reaches(g, v, n)
  {
    var p :| PathFrom(g, w, p) && p[|p| - 1] == n;
    PrefixPath(g, v, w, p);
  }

  lemma AlikeHeights(g: Graph, root: nat, m: nat, n: nat)
    requires Closed(g) && AlikeWhereShared(g, root) && Reaches(g, root, m) && Reaches(g, root, n)
    requires SameAddress(g, m, n) && HasHeight(g, m)
    ensures HasHeight(g, n)
  {
    SerializesIsHeight(g, m);
    SerializesIsHeight(g, n);
  }

  lemma {:induction false} CheckSound(g: Graph, root: nat, v: nat, seen: Seen, depth: nat)
    requires Closed(g) && AlikeWhereShared(g, root) && v < |g| && Reaches(g, root, v) && depth <= MAX_DEPTH + 1
    requires DoneIsClean(g, root, seen) && Check(g, v, seen, depth).Some?
    ensures HasHeight(g, v)
    ensures var s := Check(g, v, seen, depth).value; DoneIsClean(g, root, s) && Extends(s, seen)
    decreases MAX_DEPTH + 1 - depth, 0, 0
  {
    var n := g[v];
    forall w | w in Edges(n) ensures Reaches(g, root, w) { ReachesOn(g, root, v, w); }
    if n.Marshaler? {
      assert Edges(n) == [];
      assert CleanWithin(g, v, 0);
    } else if Tracked(n) {
      if n.addr !in seen {
        var marked := seen[n.addr := InProgress];
        CheckAllSound(g, root, Edges(n), marked, depth + 1);
        EdgesGiveHeight(g, v);
        var s := CheckAll(g, Edges(n), marked, depth + 1).value;
        assert marked[n.addr] == InProgress && s[n.addr] == InProgress;
        forall m | 0 <= m < |g| && Reaches(g, root, m) && Tracked(g[m]) && g[m].addr == n.addr ensures HasHeight(g, m) {
          AlikeHeights(g, root, v, m);
        }
      }
    } else {
      CheckAllSound(g, root, Edges(n), seen, depth + 1);
      EdgesGiveHeight(g, v);
    }
  }

  lemma {:induction false} CheckAllSound(g: Graph, root: nat, vs: seq<nat>, seen: Seen, depth: nat)
    requires Closed(g) && AlikeWhereShared(g, root) && depth <= MAX_DEPTH + 1
    requires forall w | w in vs :: w < |g| && Reaches(g, root, w)
    requires DoneIsClean(g, root, seen) && CheckAll(g, vs, seen, depth).Some?
    ensures forall w | w in vs :: HasHeight(g, w)
    ensures var s := CheckAll(g, vs, seen, depth).value; DoneIsClean(g, root, s) && Extends(s, seen)
    decreases MAX_DEPTH + 1 - depth, 1, |vs|
  {
    if vs != [] {
      assert vs[0] in vs && forall w | w in vs[1..] :: w in vs;
      CheckSound(g, root, vs[0], seen, depth);
      CheckAllSound(g, root, vs[1..], Check(g, vs[0], seen, depth).value, depth);
    }
  }

  lemma EdgesGiveHeight(g: Graph, v: nat)
    requires Closed(g) && v < |g| && !Bad(g[v])
    requires forall w | w in Edges(g[v]) :: HasHeight(g, w)
    ensures HasHeight(g, v)
  {
    var k := CommonHeight(g, Edges(g[v]));
    assert CleanWithin(g, v, k + 1);
  }

  lemma {:induction false} CommonHeight(g: Graph, vs: seq<nat>) returns (k: nat)
    requires Closed(g) && forall w | w in vs :: w < |g| && HasHeight(g, w)
    ensures forall w | w in vs :: CleanWithin(g, w, k)
  {
    if vs == [] {
      k := 0;
    } else {
      var m := CommonHeight(g, vs[1..]);
      assert forall w | w in vs[1..] :: w in vs;
      assert vs[0] in vs && HasHeight(g, vs[0]);
      var h: nat :| CleanWithin(g, vs[0], h);
      k := m + h;
      forall w | w in vs ensures CleanWithin(g, w, k) {
        Higher(g, w, if w in vs[1..] then m else h, k);
      }
    }
  }

  /** No object in progress can be met from v on. */
  ghost predicate ClearBelow(g: Graph, v: nat, seen: Seen) {
    forall n | 0 <= n < |g| && Reaches(g, v, n) && Tracked(g[n]) && g[n].addr in seen :: seen[g[n].addr] == Done
  }

  /** A clean object is not met again below itself, under no other number either. */
  lemma NoReturn(g: Graph, v: nat, h: nat, w: nat, n: nat)
    requires Closed(g) && v < |g| && CleanWithin(g, v, h) && w in Edges(g[v]) && Reaches(g, w, n)
    ensures n < |g| && g[n] != g[v]
  {
    var p :| PathFrom(g, w, p) && p[|p| - 1] == n;
    if g[n] == g[v] {
      var q := p + [w];
      assert PathFrom(g, w, q) && q[0] == q[|q| - 1];
      CleanIsSimple(g, w, h - 1, q);
      assert false;
    }
  }

  lemma ClearOfEdge(g: Graph, root: nat, v: nat, h: nat, w: nat, seen: Seen)
    requires Closed(g) && ApartWhereShared(g, root) && v < |g| && Reaches(g, root, v)
    requires CleanWithin(g, v, h) && w in Edges(g[v]) && ClearBelow(g, v, seen)
    ensures ClearBelow(g, w, seen)
    ensures Tracked(g[v]) ==> ClearBelow(g, w, seen[g[v].addr := InProgress])
  {
    forall n | 0 <= n < |g| && Reaches(g, w, n) && Tracked(g[n])
      ensures g[n].addr in seen ==> seen[g[n].addr] == Done
      ensures Tracked(g[v]) ==> g[n].addr != g[v].addr
    {
      ReachesBelow(g, v, w, n);
      NoReturn(g, v, h, w, n);
      if Tracked(g[v]) && g[n].addr == g[v].addr {
        assert SameAddress(g, v, n);
      }
    }
  }

  /** Other marks that are made on the way are done ones. */
  lemma ClearStays(g: Graph, v: nat, before: Seen, after: Seen)
    requires ClearBelow(g, v, before) && Extends(after, before)
    ensures ClearBelow(g, v, after)
  {
  }

  lemma {:induction false} CheckExtends(g: Graph, v: nat, seen: Seen, depth: nat)
    requires Closed(g) && v < |g| && depth <= MAX_DEPTH + 1 && Check(g, v, seen, depth).Some?
    ensures Extends(Check(g, v, seen, depth).value, seen)
    decreases MAX_DEPTH + 1 - depth, 0, 0
  {
    var n := g[v];
    if !n.Marshaler? && !(Tracked(n) && n.addr in seen) {
      CheckAllExtends(g, Edges(n), if Tracked(n) then seen[n.addr := InProgress] else seen, depth + 1);
    }
  }

  lemma {:induction false} CheckAllExtends(g: Graph, vs: seq<nat>, seen: Seen, depth: nat)
    requires Closed(g) && (forall w | w in vs :: w < |g|) && depth <= MAX_DEPTH + 1
    requires CheckAll(g, vs, seen, depth).Some?
    ensures Extends(CheckAll(g, vs, seen, depth).value, seen)
    decreases MAX_DEPTH + 1 - depth, 1, |vs|
  {
    if vs != [] {
      assert vs[0] in vs && forall w | w in vs[1..] :: w in vs;
      CheckExtends(g, vs[0], seen, depth);
      CheckAllExtends(g, vs[1..], Check(g, vs[0], seen, depth).value, depth);
    }
  }

  lemma {:induction false} CheckComplete(g: Graph, root: nat, v: nat, seen: Seen, depth: nat, h: nat)
    requires Closed(g) && ApartWhereShared(g, root) && v < |g| && Reaches(g, root, v)
    requires CleanWithin(g, v, h) && depth + h <= MAX_DEPTH && ClearBelow(g, v, seen)
    ensures Check(g, v, seen, depth).Some?
    decreases h, 0, 0
  {
    var n := g[v];
    ReachesItself(g, v);
    if !n.Marshaler? && !(Tracked(n) && n.addr in seen) && Edges(n) != [] {
      assert Edges(n)[0] in Edges(n);
      var marked := if Tracked(n) then seen[n.addr := InProgress] else seen;
      forall w | w in Edges(n) ensures Reaches(g, root, w) && ClearBelow(g, w, marked) {
        ReachesOn(g, root, v, w);
        ClearOfEdge(g, root, v, h, w, seen);
      }
      CheckAllComplete(g, root, Edges(n), marked, depth + 1, h - 1);
    }
  }

  lemma {:induction false} CheckAllComplete(g: Graph, root: nat, vs: seq<nat>, seen: Seen, depth: nat, h: nat)
    requires Closed(g) && ApartWhereShared(g, root) && depth + h <= MAX_DEPTH
    requires forall w | w in vs :: w < |g| && Reaches(g, root, w) && CleanWithin(g, w, h) && ClearBelow(g, w, seen)
    ensures CheckAll(g, vs, seen, depth).Some?
    decreases h, 1, |vs|
  {
    if vs != [] {
      assert vs[0] in vs && forall w | w in vs[1..] :: w in vs;
      CheckComplete(g, root, vs[0], seen, depth, h);
      CheckExtends(g, vs[0], seen, depth);
      var s := Check(g, vs[0], seen, depth).value;
      forall w | w in vs[1..] ensures ClearBelow(g, w, s) {
        ClearStays(g, w, seen, s);
      }
      CheckAllComplete(g, root, vs[1..], s, depth, h);
    }
  }

  /** The walk accepts only values that serialize, whatever their depth, if objects that
      share an address are alike; and it accepts all of those that have no path deeper than
      the bound, if none is inside another at its address. */
  lemma CheckIsExact(g: Graph, v: nat)
    requires Closed(g) && v < |g|
    ensures AlikeWhereShared(g, v) ==> (Check(g, v, map[], 0).Some? ==> Serializes(g, v))
    ensures ApartWhereShared(g, v) && NoDeepPath(g, v) ==> (Serializes(g, v) ==> Check(g, v, map[], 0).Some?)
  {
    SerializesIsHeight(g, v);
    ReachesItself(g, v);
    if AlikeWhereShared(g, v) && Check(g, v, map[], 0).Some? {
      CheckSound(g, v, v, map[], 0);
    }
    if ApartWhereShared(g, v) && Serializes(g, v) && NoDeepPath(g, v) {
      CheckComplete(g, v, v, map[], 0, MAX_DEPTH);
    }
  }

  /** One object to an address is more than enough. */
  lemma DistinctIsEnough(g: Graph, v: nat)
    requires Closed(g) && DistinctAddresses(g) && v < |g|
    ensures AlikeWhereShared(g, v) && ApartWhereShared(g, v)
  {
    forall m: nat, n: nat | Reaches(g, v, m) && Reaches(g, v, n) && SameAddress(g, m, n)
      ensures Serializes(g, m) <==> Serializes(g, n)
    {
      SerializesIsHeight(g, m);
      SerializesIsHeight(g, n);
      SameNodeSameHeight(g, m, n);
      SameNodeSameHeight(g, n, m);
    }
  }

  lemma SameNodeSameHeight(g: Graph, v: nat, m: nat)
    requires Closed(g) && v < |g| && m < |g| && g[v] == g[m]
    ensures HasHeight(g, v) ==> HasHeight(g, m)
  {
    if HasHeight(g, v) {
      var k: nat :| CleanWithin(g, v, k);
      assert CleanWithin(g, m, k);
    }
  }

  // ----------------------------------------------------- when addresses are shared

  function InnerPointer(): Graph {
    [Pointer(7, 1), Struct([Field(true, false, false, 2), Field(true, false, false, 3)]), Scalar, Pointer(7, 2)]
  }

  lemma InnerPointerEdges(g: Graph)
    requires g == InnerPointer()
    ensures Closed(g) && Edges(g[0]) == [1] && Edges(g[1]) == [2, 3] && Edges(g[2]) == [] && Edges(g[3]) == [2]
  {
    var fields := [Field(true, false, false, 2), Field(true, false, false, 3)];
    assert fields[1..] == [fields[1]] && fields[1..][1..] == [];
    assert Marshalled(fields[1..]) == [3] && Marshalled(fields) == [2, 3];
  }

  lemma InnerPointerHeight(g: Graph)
    requires g == InnerPointer() && Closed(g)
    ensures Serializes(g, 0)
  {
    InnerPointerEdges(g);
    assert CleanWithin(g, 2, 0) && CleanWithin(g, 2, 1) && CleanWithin(g, 3, 1);
    assert CleanWithin(g, 1, 2) && CleanWithin(g, 0, 3);
    SerializesIsHeight(g, 0);
  }

  /** A struct and its first field have one address: a pointer to the field inside the
      struct is taken for a cycle. */
  lemma SharedAddressLooksCyclic()
    ensures Closed(InnerPointer()) && Serializes(InnerPointer(), 0) && Check(InnerPointer(), 0, map[], 0).None?
  {
    var g := InnerPointer();
    InnerPointerEdges(g);
    InnerPointerHeight(g);
    InnerPointerCheck(g, map[7 := InProgress]);
  }

  lemma InnerPointerCheck(g: Graph, s: Seen)
    requires g == InnerPointer() && Closed(g) && 7 in s && s[7] == InProgress
    ensures CheckAll(g, [1], s, 1).None?
  {
    InnerPointerEdges(g);
    assert [2, 3][1..] == [3];
    assert Check(g, 2, s, 2) == Some(s);
    assert CheckAll(g, [3], s, 2).None?;
    assert CheckAll(g, [2, 3], s, 2).None?;
    assert Check(g, 1, s, 1).None?;
  }

  /** A struct that holds a channel after its first field, and pointers to that field and
      to the struct. */
  function FieldAndStruct(order: seq<nat>): Graph {
    [Sequence(order), Pointer(7, 3), Pointer(7, 4), Scalar,
     Struct([Field(true, false, false, 3), Field(true, false, false, 5)]), Opaque]
  }

  lemma FieldAndStructEdges(g: Graph, order: seq<nat>)
    requires g == FieldAndStruct(order) && order in {[1, 2], [2, 1]}
    ensures Closed(g) && Edges(g[0]) == order && Edges(g[1]) == [3] && Edges(g[2]) == [4] && Edges(g[4]) == [3, 5]
  {
    var fields := [Field(true, false, false, 3), Field(true, false, false, 5)];
    assert fields[1..] == [fields[1]] && fields[1..][1..] == [];
    assert Marshalled(fields[1..]) == [5] && Marshalled(fields) == [3, 5];
  }

  /** A pointer to the field, walked first, hides what the struct holds; walked in the
      other order, the same value is refused. So sharing an address has no condition on
      the value alone that would be exact. */
  lemma SharedAddressHidesAValue()
    ensures var g := FieldAndStruct([1, 2]); Closed(g) && !Serializes(g, 0) && Check(g, 0, map[], 0).Some?
    ensures var g := FieldAndStruct([2, 1]); Closed(g) && !Serializes(g, 0) && Check(g, 0, map[], 0).None?
  {
    FieldFirst(FieldAndStruct([1, 2]));
    StructFirst(FieldAndStruct([2, 1]));
  }

  lemma HoldsAChannel(g: Graph, order: seq<nat>)
    requires g == FieldAndStruct(order) && order in {[1, 2], [2, 1]}
    ensures Closed(g) && !Serializes(g, 0)
  {
    FieldAndStructEdges(g, order);
    var p := [0, 2, 4, 5];
    assert PathFrom(g, 0, p) && Bad(g[p[|p| - 1]]);
  }

  lemma FieldFirst(g: Graph)
    requires g == FieldAndStruct([1, 2])
    ensures Closed(g) && !Serializes(g, 0) && Check(g, 0, map[], 0).Some?
  {
    HoldsAChannel(g, [1, 2]);
    FieldAndStructEdges(g, [1, 2]);
    var e: Seen := map[];
    var s := e[7 := InProgress];
    var d := s[7 := Done];
    assert [1, 2][1..] == [2] && [3][1..] == [] && [2][1..] == [];
    assert Check(g, 3, s, 2) == Some(s) && CheckAll(g, [3], s, 2) == Some(s);
    assert Check(g, 1, e, 1) == Some(d) && Check(g, 2, d, 1) == Some(d);
    assert CheckAll(g, [2], d, 1) == Some(d);
    assert CheckAll(g, [1, 2], e, 1) == Some(d);
  }

  lemma StructFirst(g: Graph)
    requires g == FieldAndStruct([2, 1])
    ensures Closed(g) && !Serializes(g, 0) && Check(g, 0, map[], 0).None?
  {
    HoldsAChannel(g, [2, 1]);
    FieldAndStructEdges(g, [2, 1]);
    var e: Seen := map[];
    var s := e[7 := InProgress];
    assert [3, 5][1..] == [5];
    assert Check(g, 3, s, 3) == Some(s) && Check(g, 5, s, 3).None?;
    assert CheckAll(g, [5], s, 3).None? && CheckAll(g, [3, 5], s, 3).None?;
    assert Check(g, 4, s, 2).None? && CheckAll(g, [4], s, 2).None?;
    assert Check(g, 2, e, 1).None? && CheckAll(g, [2, 1], e, 1).None?;
  }

  // --------------------------------------------------------------- the program

  class Checker {
    const g: Graph
    var seen: Seen

    constructor (g: Graph)
      ensures this.g == g && seen == map[]
    {
      this.g := g;
      seen := map[];
    }

    /** checkJSONSerializable; false stands for its panics. */
    method CheckValue(v: nat, depth: nat) returns (ok: bool)
      requires Closed(g) && v < |g| && depth <= MAX_DEPTH + 1
      modifies this
      ensures ok == Check(g, v, old(seen), depth).Some?
      ensures ok ==> seen == Check(g, v, old(seen), depth).value
      decreases MAX_DEPTH + 1 - depth, 0, 0
    {
      var n := g[v];
      if depth > MAX_DEPTH || Bad(n) {
        return false;
      }
      assert forall w | w in Edges(n) :: w < |g|;
      match n {
        case Pointer(addr, target) =>
          if addr in seen {
            return seen[addr] == Done;
          }
          seen := seen[addr := InProgress];
          ok := CheckEach([target], depth + 1);
          seen := seen[addr := Done];
        case Interface(target) =>
          ok := CheckEach([target], depth + 1);
        case Mapping(_, addr, values) =>
          if addr in seen {
            return seen[addr] == Done;
          }
          seen := seen[addr := InProgress];
          ok := CheckEach(values, depth + 1);
          seen := seen[addr := Done];
        case Sequence(elements) =>
          ok := CheckEach(elements, depth + 1);
        case Struct(fields) =>
          ok := CheckEach(Marshalled(fields), depth + 1);
        case _ =>
          ok := true;
      }
    }

    method CheckEach(vs: seq<nat>, depth: nat) returns (ok: bool)
      requires Closed(g) && (forall w | w in vs :: w < |g|) && depth <= MAX_DEPTH + 1
      modifies this
      ensures ok == CheckAll(g, vs, old(seen), depth).Some?
      ensures ok ==> seen == CheckAll(g, vs, old(seen), depth).value
      decreases MAX_DEPTH + 1 - depth, 1, 0
    {
      var i := 0;
      while i < |vs|
        invariant 0 <= i <= |vs| && forall w | w in vs[i..] :: w in vs
        invariant CheckAll(g, vs, old(seen), depth) == CheckAll(g, vs[i..], seen, depth)
      {
        assert vs[i] in vs && vs[i..][1..] == vs[i + 1..];
        ok := CheckValue(vs[i], depth);
        if !ok {
          return false;
        }
        i := i + 1;
      }
      return true;
    }
  }

  method ValidateOption(g: Graph, v: nat) returns (ok: bool)
    requires Closed(g) && v < |g|
    ensures ok == Check(g, v, map[], 0).Some?
    ensures AlikeWhereShared(g, v) && ok ==> Serializes(g, v)
    ensures ApartWhereShared(g, v) && NoDeepPath(g, v) && Serializes(g, v) ==> ok
  {
    var checker := new Checker(g);
    CheckIsExact(g, v);
    ok := checker.CheckValue(v, 0);
  }

  /** validateProviderOptions: every option value, each with marks of its own. */
  method ValidateProviderOptions(g: Graph, options: seq<nat>) returns (ok: bool)
    requires Closed(g) && forall v | v in options :: v < |g|
    ensures ok <==> forall v | v in options :: Check(g, v, map[], 0).Some?
    ensures ok && (forall v | v in options :: AlikeWhereShared(g, v)) ==> forall v | v in options :: Serializes(g, v)
    ensures (forall v | v in options :: ApartWhereShared(g, v) && NoDeepPath(g, v) && Serializes(g, v)) ==> ok
  {
    forall v | v in options
      ensures AlikeWhereShared(g, v) ==> (Check(g, v, map[], 0).Some? ==> Serializes(g, v))
      ensures ApartWhereShared(g, v) && NoDeepPath(g, v) && Serializes(g, v) ==> Check(g, v, map[], 0).Some?
    {
      CheckIsExact(g, v);
    }
    for i := 0 to |options|
      invariant forall v | v in options[..i] :: v < |g| && Check(g, v, map[], 0).Some?
    {
      var v := options[i];
      assert v in options && options[..i + 1] == options[..i] + [v];
      ok := ValidateOption(g, v);
      if !ok {
        return false;
      }
    }
    assert options[..|options|] == options;
    return true;
  }
}
