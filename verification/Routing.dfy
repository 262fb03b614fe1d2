// The journey of one event through a settled overlay that forms a tree: every
// interested client gets it exactly once (src/agent/ftb_agent.c:63-88).
module Routing {
  import opened Masks
  import opened Names
  import opened Tables
  import opened Overlay
  import opened OverlayInvariant
  import opened Forests

  /** Every link joins a node and its parent. */
  ghost predicate Tree(n: Net, parent: map<Location, Location>, level: map<Location, nat>) {
    && Levelled(parent, level)
    && n.tabs.Keys <= level.Keys
    && forall p <- n.links :: IsParent(parent, p.0, p.1) || IsParent(parent, p.1, p.0)
  }

  ghost predicate IsParent(parent: map<Location, Location>, child: Location, p: Location) {
    child in parent && parent[child] == p
  }

  /** inflight: copies on their way, as (sender, agent); handled: the agents that
      have run the dispatch, once per copy; delivered: copies sent to clients. */
  datatype Flow = Flow(
    inflight: multiset<(Location, Location)>,
    handled: multiset<Location>,
    delivered: multiset<(Location, Id)>)

  ghost function Onward(n: Net, u: Location, source: Location, e: Event): set<(Location, Location)>
    requires u in n.tabs
  {
    set c <- Targets(n.tabs[u], source, e) | IsAgent(c) :: (u, c.loc)
  }

  ghost function ToClients(n: Net, u: Location, source: Location, e: Event): set<(Location, Id)>
    requires u in n.tabs
  {
    set c <- Targets(n.tabs[u], source, e) | !IsAgent(c) :: (u, c)
  }

  /** Agent u handles the copy that came from source. */
  ghost function Handle(n: Net, e: Event, f: Flow, source: Location, u: Location): Flow
    requires u in n.tabs
  {
    Flow(f.inflight - multiset{(source, u)} + multiset(Onward(n, u, source, e)),
         f.handled + multiset{u},
         f.delivered + multiset(ToClients(n, u, source, e)))
  }

  ghost predicate FlowStep(n: Net, e: Event, f: Flow, f': Flow) {
    exists source, u ::
      (source, u) in f.inflight && u in n.tabs && f' == Handle(n, e, f, source, u)
  }

  /** A client process publishes at agent r. */
  ghost function Published(source: Location, r: Location): Flow {
    Flow(multiset{(source, r)}, multiset{}, multiset{})
  }

  // ---- the set of agents reached is a subtree that grows by leaves

  /** The agents that have handled the event or have it on its way. */
  ghost predicate Touched(f: Flow, x: Location) {
    x in f.handled || exists a :: (a, x) in f.inflight
  }

  ghost predicate Adjacent(parent: map<Location, Location>, a: Location, b: Location) {
    IsParent(parent, a, b) || IsParent(parent, b, a)
  }

  /** s has one topmost node, and is closed under parents up to it. */
  ghost predicate Rooted(s: set<Location>, top: Location, parent: map<Location, Location>, level: map<Location, nat>) {
    && top in s && top in level
    && (forall x <- s :: x in level && level[top] <= level[x])
    && (forall x <- s :: x != top ==> x in parent && parent[x] in s)
  }

  /** Growing a subtree at u by neighbours of u outside it. */
  ghost predicate Grows(s: set<Location>, u: Location, w: set<Location>, parent: map<Location, Location>) {
    && u in s && s !! w
    && forall x <- w :: Adjacent(parent, u, x)
  }

  lemma GrownIsRooted(s: set<Location>, top: Location, u: Location, w: set<Location>,
                      parent: map<Location, Location>, level: map<Location, nat>) returns (top': Location)
    requires Levelled(parent, level) && Rooted(s, top, parent, level) && Grows(s, u, w, parent)
    ensures Rooted(s + w, top', parent, level)
  {
    if u in parent && parent[u] in w {
      top' := parent[u];
      assert u == top;
    } else {
      top' := top;
    }
  }

  /** A new leaf touches the grown subtree only where it was attached. */
  lemma NewLeafHasOneNeighbour(s: set<Location>, top: Location, u: Location, w: set<Location>, y: Location, x: Location,
                               parent: map<Location, Location>, level: map<Location, nat>)
    requires Levelled(parent, level) && Rooted(s, top, parent, level) && Grows(s, u, w, parent)
    requires y in w && x in s + w && Adjacent(parent, x, y)
    ensures x == u
  {
  }

  // ---- the invariant of the journey

  /** A settled overlay in the form of a tree, and an event some client publishes. */
  datatype World = World(n: Net, src: Location, e: Event, parent: map<Location, Location>, level: map<Location, nat>)

  ghost predicate Ground(w: World) {
    Inv(w.n) && Settled(w.n) && Tree(w.n, w.parent, w.level) && w.src !in w.n.tabs
  }

  ghost predicate FlowInv(w: World, f: Flow, s: set<Location>, top: Location) {
    && s <= w.n.tabs.Keys && (forall x :: x in s <==> Touched(f, x))
    && Rooted(s, top, w.parent, w.level)
    && OnceEach(w.src, f)
    && Attached(f, s, w.parent)
    && Closed(w.n, w.e, f, s)
    && Tally(w.n, w.e, f)
  }

  /** No agent handles the event twice, or has two copies coming. */
  ghost predicate OnceEach(src: Location, f: Flow) {
    && (forall x :: f.handled[x] <= 1)
    && (forall a, b :: f.inflight[(a, b)] <= 1)
    && (forall a, b :: (a, b) in f.inflight ==> b !in f.handled && (a in f.handled || a == src))
    && (forall a, b, c :: (a, c) in f.inflight && (b, c) in f.inflight ==> a == b)
  }

  /** An agent about to get the event borders on those it has reached only at its sender. */
  ghost predicate Attached(f: Flow, s: set<Location>, parent: map<Location, Location>) {
    forall a, b, x :: (a, b) in f.inflight && x in s && Adjacent(parent, x, b) ==> x == a
  }

  /** Every neighbour an agent lists for the event has been reached once it has handled it. */
  ghost predicate Closed(n: Net, e: Event, f: Flow, s: set<Location>) {
    forall u <- n.tabs, v :: u in f.handled && Catches(n.tabs[u], AgentId(v), e) ==> v in s
  }

  /** The component is due a copy from agent u. */
  ghost predicate Due(n: Net, u: Location, c: Id, e: Event) {
    u in n.tabs && c in n.tabs[u].ids && !IsAgent(c) && Catches(n.tabs[u], c, e)
  }

  ghost predicate Tally(n: Net, e: Event, f: Flow) {
    forall u, c :: !ManagerName(c) ==>
      f.delivered[(u, c)] == if u in f.handled && Due(n, u, c, e) then 1 else 0
  }

  lemma PublishedInv(w: World, r: Location)
    requires Ground(w) && r in w.n.tabs
    ensures FlowInv(w, Published(w.src, r), {r}, r)
  {
    var f := Published(w.src, r);
    assert (w.src, r) in f.inflight;
    assert forall x :: !Adjacent(w.parent, x, x);
  }

  /** Where agent u sends the event on to. */
  ghost function NextHops(n: Net, u: Location, source: Location, e: Event): set<Location>
    requires u in n.tabs
  {
    set p <- Onward(n, u, source, e) :: p.1
  }

  /** The copies u sends on, and the hops they go to. */
  ghost predicate Outgoing(onward: set<(Location, Location)>, hops: set<Location>, source: Location, u: Location) {
    && (forall a, b :: (a, b) in onward ==> a == u && b in hops)
    && (forall v <- hops :: (u, v) in onward && v != source)
  }

  lemma HopsAreNeighbours(n: Net, u: Location, source: Location, e: Event)
    requires Inv(n) && Settled(n) && u in n.tabs
    ensures var hops := NextHops(n, u, source, e);
            && Outgoing(Onward(n, u, source, e), hops, source, u)
            && hops <= n.tabs.Keys
            && (forall v <- hops :: (u, v) in n.links)
            && (forall v :: Catches(n.tabs[u], AgentId(v), e) && v != source ==> v in hops)
  {
    assert IdsInv(n, u);
    forall a, b | (a, b) in Onward(n, u, source, e)
      ensures a == u && b in n.tabs && b != source && (u, b) in n.links && b in NextHops(n, u, source, e)
    {
      var c :| c in Targets(n.tabs[u], source, e) && IsAgent(c) && (a, b) == (u, c.loc);
      assert c == AgentId(b);
      SettledKnows(n, u, b);
      assert (a, b).1 in NextHops(n, u, source, e);
    }
    forall v | Catches(n.tabs[u], AgentId(v), e) && v != source ensures v in NextHops(n, u, source, e) {
      var m :| Subscribes(n.tabs[u], AgentId(v), m) && Match(e, m);
      assert AgentId(v) in Targets(n.tabs[u], source, e);
      assert (u, v) in Onward(n, u, source, e);
    }
  }

  /** The hops border on the reached agents at u only. */
  ghost predicate Buds(s: set<Location>, u: Location, hops: set<Location>, parent: map<Location, Location>) {
    && Grows(s, u, hops, parent)
    && forall y, x :: y in hops && x in s + hops && Adjacent(parent, x, y) ==> x == u
  }

  lemma HopsAreNew(w: World, f: Flow, s: set<Location>, top: Location, source: Location, u: Location)
    requires Ground(w) && FlowInv(w, f, s, top) && (source, u) in f.inflight && u in w.n.tabs
    ensures Buds(s, u, NextHops(w.n, u, source, w.e), w.parent)
  {
    var hops := NextHops(w.n, u, source, w.e);
    HopsAreNeighbours(w.n, u, source, w.e);
    assert Touched(f, u);
    forall v | v in hops ensures Adjacent(w.parent, u, v) && v !in s {
      assert (u, v) in w.n.links;
    }
    forall y, x | y in hops && x in s + hops && Adjacent(w.parent, x, y) ensures x == u {
      NewLeafHasOneNeighbour(s, top, u, hops, y, x, w.parent, w.level);
    }
  }

  /** The copies in flight after u has handled its own. */
  ghost predicate Moves(f: Flow, f': Flow, onward: set<(Location, Location)>, source: Location, u: Location) {
    && f'.handled == f.handled + multiset{u}
    && forall a, b :: f'.inflight[(a, b)] + (if (a, b) == (source, u) then 1 else 0) ==
                      f.inflight[(a, b)] + (if (a, b) in onward then 1 else 0)
  }

  lemma HandleMoves(n: Net, e: Event, f: Flow, source: Location, u: Location)
    requires u in n.tabs && (source, u) in f.inflight
    ensures Moves(f, Handle(n, e, f, source, u), Onward(n, u, source, e), source, u)
  {
  }

  lemma OnceEachKept(src: Location, f: Flow, f': Flow, s: set<Location>, hops: set<Location>,
                     onward: set<(Location, Location)>, source: Location, u: Location)
    requires OnceEach(src, f) && (forall x :: x in s <==> Touched(f, x)) && s !! hops
    requires (source, u) in f.inflight && Outgoing(onward, hops, source, u) && Moves(f, f', onward, source, u)
    ensures OnceEach(src, f')
  {
    forall a, b | (a, b) in f'.inflight
      ensures (a, b) in onward || ((a, b) in f.inflight && b != u) {
      assert f'.inflight[(a, b)] > 0;
    }
    forall a, b | (a, b) in onward ensures !Touched(f, b) && a == u && b != u {
      assert Touched(f, u);
    }
    forall a, b | (a, b) in f.inflight ensures Touched(f, b) {
    }
  }

  lemma TouchedKept(f: Flow, f': Flow, s: set<Location>, hops: set<Location>,
                    onward: set<(Location, Location)>, source: Location, u: Location)
    requires forall x :: x in s <==> Touched(f, x)
    requires (source, u) in f.inflight && Outgoing(onward, hops, source, u) && Moves(f, f', onward, source, u)
    ensures forall x :: x in s + hops <==> Touched(f', x)
  {
    forall x ensures x in s + hops <==> Touched(f', x) {
      if x in hops {
        assert (u, x) in f'.inflight;
      } else if Touched(f, x) && x !in f.handled && x != u {
        var a :| (a, x) in f.inflight;
        assert f'.inflight[(a, x)] > 0;
      }
      if Touched(f', x) && x !in f'.handled {
        var a :| (a, x) in f'.inflight;
        assert (a, x) in f.inflight || (a, x) in onward;
      }
      assert Touched(f, u);
    }
  }

  lemma AttachedKept(src: Location, f: Flow, f': Flow, s: set<Location>, hops: set<Location>,
                     onward: set<(Location, Location)>, source: Location, u: Location, parent: map<Location, Location>)
    requires OnceEach(src, f) && (forall x :: x in s <==> Touched(f, x))
    requires Attached(f, s, parent) && Buds(s, u, hops, parent)
    requires (source, u) in f.inflight && Outgoing(onward, hops, source, u) && Moves(f, f', onward, source, u)
    ensures Attached(f', s + hops, parent)
  {
    forall a, b, x | (a, b) in f'.inflight && x in s + hops && Adjacent(parent, x, b) ensures x == a {
      if (a, b) !in onward {
        assert f.inflight[(a, b)] > 0 && (a, b) != (source, u);
        assert Touched(f, b) && b != u;
        assert x in hops ==> Adjacent(parent, b, x);
      }
    }
  }

  lemma ClosedKept(w: World, f: Flow, s: set<Location>, source: Location, u: Location)
    requires Ground(w) && (forall x :: x in s <==> Touched(f, x)) && OnceEach(w.src, f) && Closed(w.n, w.e, f, s)
    requires (source, u) in f.inflight && u in w.n.tabs
    ensures Closed(w.n, w.e, Handle(w.n, w.e, f, source, u), s + NextHops(w.n, u, source, w.e))
  {
    HopsAreNeighbours(w.n, u, source, w.e);
    var f', hops := Handle(w.n, w.e, f, source, u), NextHops(w.n, u, source, w.e);
    forall v <- w.n.tabs, x | v in f'.handled && Catches(w.n.tabs[v], AgentId(x), w.e) ensures x in s + hops {
      if v == u && x == source {
        assert IdsInv(w.n, u);
        var m :| Subscribes(w.n.tabs[u], AgentId(x), m) && Match(w.e, m);
        assert AgentId(x) in w.n.tabs[u].ids;
        assert Touched(f, source);
      }
    }
  }

  lemma TallyKept(w: World, f: Flow, source: Location, u: Location)
    requires Tally(w.n, w.e, f) && OnceEach(w.src, f) && (source, u) in f.inflight && u in w.n.tabs
    ensures Tally(w.n, w.e, Handle(w.n, w.e, f, source, u))
  {
    var f' := Handle(w.n, w.e, f, source, u);
    forall v, c | !ManagerName(c)
      ensures f'.delivered[(v, c)] == if v in f'.handled && Due(w.n, v, c, w.e) then 1 else 0
    {
      assert (v, c) in ToClients(w.n, u, source, w.e) <==> v == u && Due(w.n, v, c, w.e);
    }
  }

  lemma HandleKeeps(w: World, f: Flow, s: set<Location>, top: Location, source: Location, u: Location)
    returns (top': Location)
    requires Ground(w) && FlowInv(w, f, s, top) && (source, u) in f.inflight && u in w.n.tabs
    ensures FlowInv(w, Handle(w.n, w.e, f, source, u), s + NextHops(w.n, u, source, w.e), top')
  {
    var f', hops := Handle(w.n, w.e, f, source, u), NextHops(w.n, u, source, w.e);
    var onward := Onward(w.n, u, source, w.e);
    HopsAreNew(w, f, s, top, source, u);
    HopsAreNeighbours(w.n, u, source, w.e);
    HandleMoves(w.n, w.e, f, source, u);
    top' := GrownIsRooted(s, top, u, hops, w.parent, w.level);
    OnceEachKept(w.src, f, f', s, hops, onward, source, u);
    TouchedKept(f, f', s, hops, onward, source, u);
    AttachedKept(w.src, f, f', s, hops, onward, source, u, w.parent);
    ClosedKept(w, f, s, source, u);
    TallyKept(w, f, source, u);
  }

  // ---- whole journeys

  /** The copies of the event, published at r, being handled in any order. */
  ghost predicate Journey(w: World, r: Location, fs: seq<Flow>) {
    && fs != [] && fs[0] == Published(w.src, r)
    && forall i :: 0 <= i < |fs| - 1 ==> FlowStep(w.n, w.e, fs[i], fs[i + 1])
  }

  /** k copies have been handled, and the agents reached are a subtree around r. */
  ghost predicate Spread(w: World, r: Location, f: Flow, k: nat) {
    exists s, top :: FlowInv(w, f, s, top) && r in s && |f.handled| == k
  }

  lemma FlowStepKeeps(w: World, r: Location, f: Flow, f': Flow, k: nat)
    requires Ground(w) && Spread(w, r, f, k) && FlowStep(w.n, w.e, f, f')
    ensures Spread(w, r, f', k + 1)
  {
    var s, top :| FlowInv(w, f, s, top) && r in s && |f.handled| == k;
    var source, u :| (source, u) in f.inflight && u in w.n.tabs && f' == Handle(w.n, w.e, f, source, u);
    HandleSpreads(w, r, f, s, top, source, u);
  }

  lemma HandleSpreads(w: World, r: Location, f: Flow, s: set<Location>, top: Location, source: Location, u: Location)
    requires Ground(w) && FlowInv(w, f, s, top) && r in s && (source, u) in f.inflight && u in w.n.tabs
    ensures Spread(w, r, Handle(w.n, w.e, f, source, u), |f.handled| + 1)
  {
    var top' := HandleKeeps(w, f, s, top, source, u);
    HandleCounts(w.n, w.e, f, source, u);
    SpreadBy(w, r, Handle(w.n, w.e, f, source, u), s + NextHops(w.n, u, source, w.e), top');
  }

  lemma HandleCounts(n: Net, e: Event, f: Flow, source: Location, u: Location)
    requires (source, u) in f.inflight && u in n.tabs
    ensures |Handle(n, e, f, source, u).handled| == |f.handled| + 1
  {
  }

  lemma SpreadBy(w: World, r: Location, f: Flow, s: set<Location>, top: Location)
    requires FlowInv(w, f, s, top) && r in s
    ensures Spread(w, r, f, |f.handled|)
  {
  }

  lemma {:induction false} StepByStep(w: World, r: Location, fs: seq<Flow>, k: nat)
    requires k < |fs| && Spread(w, r, fs[0], 0)
    requires forall i :: 0 <= i < |fs| - 1 ==> FlowStep(w.n, w.e, fs[i], fs[i + 1])
    requires forall f, f', j: nat ::
               Spread(w, r, f, j) && FlowStep(w.n, w.e, f, f') ==> Spread(w, r, f', j + 1)
    ensures Spread(w, r, fs[k], k)
  {
    if k > 0 {
      StepByStep(w, r, fs, k - 1);
      assert FlowStep(w.n, w.e, fs[k - 1], fs[k - 1 + 1]);
      assert Spread(w, r, fs[k], k - 1 + 1);
    }
  }

  lemma JourneyInv(w: World, r: Location, fs: seq<Flow>, k: nat)
    requires Ground(w) && r in w.n.tabs && Journey(w, r, fs) && k < |fs|
    ensures Spread(w, r, fs[k], k)
  {
    PublishedInv(w, r);
    forall f, f', j: nat | Spread(w, r, f, j) && FlowStep(w.n, w.e, f, f') ensures Spread(w, r, f', j + 1) {
      FlowStepKeeps(w, r, f, f', j);
    }
    StepByStep(w, r, fs, k);
  }

  lemma SmallMultiset<T>(m: multiset<T>, s: set<T>)
    requires forall x :: m[x] <= if x in s then 1 else 0
    ensures |m| <= |s|
  {
    var rest := multiset(s) - m;
    assert multiset(s) == m + rest;
    assert |multiset(s)| == |m| + |rest|;
    assert |multiset(s)| == |s|;
  }

  /** A journey ends after at most as many steps as there are agents. */
  lemma JourneyIsShort(w: World, r: Location, fs: seq<Flow>)
    requires Ground(w) && r in w.n.tabs && Journey(w, r, fs)
    ensures |fs| - 1 <= |w.n.tabs|
  {
    var f := fs[|fs| - 1];
    JourneyInv(w, r, fs, |fs| - 1);
    var s, top :| FlowInv(w, f, s, top) && r in s && |f.handled| == |fs| - 1;
    HandledOnce(w, f, s, top);
  }

  lemma HandledOnce(w: World, f: Flow, s: set<Location>, top: Location)
    requires Ground(w) && FlowInv(w, f, s, top)
    ensures |f.handled| <= |w.n.tabs|
  {
    forall x ensures f.handled[x] <= if x in w.n.tabs.Keys then 1 else 0 {
      assert x in f.handled ==> Touched(f, x);
    }
    SmallMultiset(f.handled, w.n.tabs.Keys);
  }

  lemma JourneyGoesOn(w: World, r: Location, fs: seq<Flow>) returns (longer: seq<Flow>)
    requires Ground(w) && r in w.n.tabs && Journey(w, r, fs) && fs[|fs| - 1].inflight != multiset{}
    ensures Journey(w, r, longer) && |longer| == |fs| + 1 && fs <= longer
  {
    var f := fs[|fs| - 1];
    JourneyInv(w, r, fs, |fs| - 1);
    var s, top :| FlowInv(w, f, s, top) && r in s;
    var copy :| copy in f.inflight;
    assert (copy.0, copy.1) in f.inflight && Touched(f, copy.1);
    var next := Handle(w.n, w.e, f, copy.0, copy.1);
    assert FlowStep(w.n, w.e, f, next);
    longer := fs + [next];
    forall i | 0 <= i < |longer| - 1 ensures FlowStep(w.n, w.e, longer[i], longer[i + 1]) {
      if i < |fs| - 1 {
        assert FlowStep(w.n, w.e, fs[i], fs[i + 1]);
      }
    }
  }

  /** Every journey can be completed, and is after a step for each agent it reaches. */
  lemma {:induction false} JourneyEnds(w: World, r: Location, fs: seq<Flow>) returns (whole: seq<Flow>)
    requires Ground(w) && r in w.n.tabs && Journey(w, r, fs)
    ensures Journey(w, r, whole) && fs <= whole && whole[|whole| - 1].inflight == multiset{}
    ensures |whole| - 1 <= |w.n.tabs|
    decreases |w.n.tabs| + 1 - |fs|
  {
    JourneyIsShort(w, r, fs);
    if fs[|fs| - 1].inflight == multiset{} {
      whole := fs;
    } else {
      var longer := JourneyGoesOn(w, r, fs);
      JourneyIsShort(w, r, longer);
      whole := JourneyEnds(w, r, longer);
    }
  }

  /** Along the way no agent handles the event twice, and no client is sent a second
      copy, or one it did not ask for. */
  lemma AtMostOnce(w: World, r: Location, fs: seq<Flow>, k: nat, x: Location, c: Id)
    requires Ground(w) && r in w.n.tabs && Journey(w, r, fs) && k < |fs|
    requires !ManagerName(c)
    ensures fs[k].handled[x] <= 1
    ensures fs[k].delivered[(x, c)] <= if Due(w.n, x, c, w.e) then 1 else 0
  {
    JourneyInv(w, r, fs, k);
    var s, top :| FlowInv(w, fs[k], s, top);
  }

  // ---- paths

  ghost predicate Walk(n: Net, p: seq<Location>, a: Location, b: Location) {
    && p != [] && p[0] == a && p[|p| - 1] == b
    && forall i :: 0 <= i < |p| - 1 ==> (p[i], p[i + 1]) in n.links
  }

  ghost predicate TurnsBack(p: seq<Location>, i: int) {
    0 <= i && i + 2 < |p| && p[i] == p[i + 2]
  }

  /** Cutting out each step that is at once undone leaves a walk that never turns back. */
  lemma {:induction false} Straighten(n: Net, p: seq<Location>, a: Location, b: Location) returns (q: seq<Location>)
    requires Walk(n, p, a, b)
    ensures Walk(n, q, a, b) && forall i :: !TurnsBack(q, i)
    decreases |p|
  {
    if i :| TurnsBack(p, i) {
      var cut := p[..i + 1] + p[i + 3..];
      forall k | 0 <= k < |cut| - 1 ensures (cut[k], cut[k + 1]) in n.links {
        if k >= i {
          assert (p[k + 2], p[k + 2 + 1]) in n.links;
        }
      }
      q := Straighten(n, cut, a, b);
    } else {
      q := p;
    }
  }

  /** Each agent on a straight path towards an interested component lists the next. */
  lemma {:induction false} InterestAlongPath(n: Net, p: seq<Location>, a: Location, b: Location, c: Id, m: Mask, i: nat)
    requires Inv(n) && Settled(n) && Walk(n, p, a, b) && (forall j :: !TurnsBack(p, j))
    requires b in n.tabs && Subscribes(n.tabs[b], c, m) && c.loc !in n.tabs
    requires i < |p| - 1
    ensures p[i] in n.tabs && Subscribes(n.tabs[p[i]], AgentId(p[i + 1]), m)
    decreases |p| - i
  {
    assert (p[i], p[i + 1]) in n.links;
    assert (p[i + 1], p[i]) in n.links;
    SettledKnows(n, p[i + 1], p[i]);
    if i + 1 < |p| - 1 {
      InterestAlongPath(n, p, a, b, c, m, i + 1);
      assert !TurnsBack(p, i);
    }
  }

  lemma {:induction false} ReachedAlongPath(w: World, f: Flow, s: set<Location>, top: Location,
                                            p: seq<Location>, a: Location, b: Location, c: Id, m: Mask, i: nat)
    requires Ground(w) && FlowInv(w, f, s, top) && f.inflight == multiset{} && a in s
    requires Walk(w.n, p, a, b) && (forall j :: !TurnsBack(p, j))
    requires b in w.n.tabs && Subscribes(w.n.tabs[b], c, m) && c.loc !in w.n.tabs && Match(w.e, m)
    requires i < |p|
    ensures p[i] in f.handled
    decreases i
  {
    if i > 0 {
      ReachedAlongPath(w, f, s, top, p, a, b, c, m, i - 1);
      InterestAlongPath(w.n, p, a, b, c, m, i - 1);
      assert Catches(w.n.tabs[p[i - 1]], AgentId(p[i]), w.e);
    }
    assert p[i] in s;
    assert Touched(f, p[i]);
  }

  lemma InterestedAgentIsReached(w: World, f: Flow, s: set<Location>, top: Location, r: Location,
                                 b: Location, c: Id, m: Mask, p: seq<Location>)
    requires Ground(w) && FlowInv(w, f, s, top) && f.inflight == multiset{} && r in s
    requires b in w.n.tabs && Subscribes(w.n.tabs[b], c, m) && c.loc !in w.n.tabs && Match(w.e, m)
    requires Walk(w.n, p, r, b)
    ensures b in f.handled
  {
    var q := Straighten(w.n, p, r, b);
    ReachedAlongPath(w, f, s, top, q, r, b, c, m, |q| - 1);
  }

  lemma DeliveredInTheEnd(w: World, f: Flow, s: set<Location>, top: Location, r: Location,
                          b: Location, c: Id, p: seq<Location>)
    requires Ground(w) && FlowInv(w, f, s, top) && f.inflight == multiset{} && r in s
    requires b in w.n.tabs && c in w.n.tabs[b].ids && !ManagerName(c)
    requires Walk(w.n, p, r, b)
    ensures f.delivered[(b, c)] == if Catches(w.n.tabs[b], c, w.e) then 1 else 0
  {
    assert IdsInv(w.n, b);
    if Catches(w.n.tabs[b], c, w.e) {
      var m :| Subscribes(w.n.tabs[b], c, m) && Match(w.e, m);
      InterestedAgentIsReached(w, f, s, top, r, b, c, m, p);
    }
  }

  /** Exactly-once delivery. In a settled overlay whose links form a tree, once no copy
      of an event published at r is on its way, every client at an agent joined to r
      has been sent one copy if a mask of its own accepts the event, and none if not. */
  lemma ExactlyOnce(w: World, r: Location, fs: seq<Flow>, b: Location, c: Id, p: seq<Location>)
    requires Ground(w) && r in w.n.tabs && Journey(w, r, fs)
    requires fs[|fs| - 1].inflight == multiset{}
    requires b in w.n.tabs && c in w.n.tabs[b].ids && !ManagerName(c)
    requires Walk(w.n, p, r, b)
    ensures fs[|fs| - 1].delivered[(b, c)] == if Catches(w.n.tabs[b], c, w.e) then 1 else 0
  {
    var f := fs[|fs| - 1];
    JourneyInv(w, r, fs, |fs| - 1);
    var s, top :| FlowInv(w, f, s, top) && r in s;
    DeliveredInTheEnd(w, f, s, top, r, b, c, p);
  }

  // ---- without a tree

  function After(i: nat, k: nat): nat
    requires i < k
  {
    if i + 1 < k then i + 1 else 0
  }

  /** The i-th of the agents lists the next one, in a circle, for the event. */
  ghost predicate ListsNext(n: Net, e: Event, p: seq<Location>, i: nat) {
    i < |p| && p[i] in n.tabs
    && var next := p[After(i, |p|)];
       AgentId(next) in n.tabs[p[i]].ids && Catches(n.tabs[p[i]], AgentId(next), e)
  }

  /** Three or more agents in a circle, each of which lists the next. */
  ghost predicate Circle(n: Net, e: Event, p: seq<Location>) {
    |p| >= 3 && NoDup(p) && forall i: nat :: i < |p| ==> ListsNext(n, e, p, i)
  }

  /** A copy is on its way from the i-th of them to the next. */
  ghost predicate CopyAt(f: Flow, p: seq<Location>, i: nat) {
    i < |p| && (p[i], p[After(i, |p|)]) in f.inflight
  }

  ghost predicate Circling(f: Flow, p: seq<Location>) {
    exists i: nat :: CopyAt(f, p, i)
  }

  /** A copy that is not the one handled stays on its way. */
  lemma OthersStay(n: Net, e: Event, f: Flow, source: Location, u: Location, a: Location, b: Location)
    requires u in n.tabs && (source, u) in f.inflight && (a, b) in f.inflight && (a, b) != (source, u)
    ensures (a, b) in Handle(n, e, f, source, u).inflight
  {
    HandleMoves(n, e, f, source, u);
    assert Handle(n, e, f, source, u).inflight[(a, b)] > 0;
  }

  lemma GoesOnTo(n: Net, e: Event, f: Flow, source: Location, u: Location, v: Location)
    requires u in n.tabs && (source, u) in f.inflight && v != source
    requires AgentId(v) in n.tabs[u].ids && Catches(n.tabs[u], AgentId(v), e)
    ensures (u, v) in Handle(n, e, f, source, u).inflight
  {
    HandleMoves(n, e, f, source, u);
    assert AgentId(v) in Targets(n.tabs[u], source, e);
    assert (u, v) in Onward(n, u, source, e);
    assert (u, v) != (source, u) ==> Handle(n, e, f, source, u).inflight[(u, v)] > 0;
  }

  lemma CircleGoesOn(n: Net, e: Event, p: seq<Location>, f: Flow, f': Flow)
    requires Circle(n, e, p) && Circling(f, p) && FlowStep(n, e, f, f')
    ensures Circling(f', p)
  {
    var i: nat :| CopyAt(f, p, i);
    var source, u :| (source, u) in f.inflight && u in n.tabs && f' == Handle(n, e, f, source, u);
    if (source, u) == (p[i], p[After(i, |p|)]) {
      CopyIsPassedOn(n, e, p, f, i);
    } else {
      OthersStay(n, e, f, source, u, p[i], p[After(i, |p|)]);
      assert CopyAt(f', p, i);
    }
  }

  lemma CopyIsPassedOn(n: Net, e: Event, p: seq<Location>, f: Flow, i: nat)
    requires Circle(n, e, p) && CopyAt(f, p, i) && p[After(i, |p|)] in n.tabs
    ensures Circling(Handle(n, e, f, p[i], p[After(i, |p|)]), p)
  {
    var j := After(i, |p|);
    assert ListsNext(n, e, p, j);
    GoesOnTo(n, e, f, p[i], p[j], p[After(j, |p|)]);
    assert CopyAt(Handle(n, e, f, p[i], p[j]), p, j);
  }

  /** Where agents that list each other form a circle, a tree is needed: an event that has
      got into the circle is on its way for ever. */
  lemma {:induction false} CircleNeverEnds(n: Net, e: Event, p: seq<Location>, fs: seq<Flow>, k: nat)
    requires Circle(n, e, p) && fs != [] && Circling(fs[0], p) && k < |fs|
    requires forall i :: 0 <= i < |fs| - 1 ==> FlowStep(n, e, fs[i], fs[i + 1])
    ensures Circling(fs[k], p) && fs[k].inflight != multiset{}
  {
    if k > 0 {
      CircleNeverEnds(n, e, p, fs, k - 1);
      assert FlowStep(n, e, fs[k - 1], fs[k - 1 + 1]);
      CircleGoesOn(n, e, p, fs[k - 1], fs[k]);
    }
  }
}
