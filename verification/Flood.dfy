// Flooding a subscription through any network of agents, with or without cycles,
// comes to an end, because only a new subscriber is passed on.
module Flood {
  import opened Masks
  import opened Names
  import opened Tables
  import opened Overlay

  /** The messages waiting between agents, each by its place in its queue. */
  ghost function InFlight(n: Net): set<(Location, Location, int)> {
    set u <- n.tabs, v <- n.tabs, i | 0 <= i < |Chan(n, u, v)| :: (u, v, i)
  }

  /** The entries the flood can still make. */
  ghost function Missing(n: Net, masks: set<Mask>): set<(Location, Id, Mask)> {
    set u <- n.tabs, c <- n.tabs[u].ids, m <- masks | !Subscribes(n.tabs[u], c, m) :: (u, c, m)
  }

  ghost predicate RegsOnly(q: seq<Body>, masks: set<Mask>) {
    forall b <- q :: b.Reg? && b.mask in masks
  }

  /** Only registrations of the given masks are on their way. */
  ghost predicate OnlyRegs(n: Net, masks: set<Mask>) {
    forall u <- n.tabs, v <- n.tabs :: RegsOnly(Chan(n, u, v), masks)
  }

  ghost predicate FloodStep(n: Net, n': Net) {
    exists v, u, order, t', sent :: Next(n, Deliver(v, u, order), t', sent, n')
  }

  /** A bound on the deliveries still to come. */
  ghost function Budget(n: Net, masks: set<Mask>): nat {
    |InFlight(n)| + |n.tabs| * |Missing(n, masks)|
  }

  /** Agent u read one message of v's, and every queue of u's own grew by at most one. */
  ghost predicate Handled(n: Net, n': Net, v: Location, u: Location) {
    && u in n.tabs && v in n.tabs && u != v && n'.tabs.Keys == n.tabs.Keys
    && |Chan(n, v, u)| == |Chan(n', v, u)| + 1
    && (forall a, b :: a != u && (a, b) != (v, u) ==> |Chan(n', a, b)| == |Chan(n, a, b)|)
    && (forall b :: |Chan(n, u, b)| <= |Chan(n', u, b)| <= |Chan(n, u, b)| + 1)
  }

  /** The new messages of agent u. */
  ghost function Added(n: Net, n': Net, u: Location): set<(Location, Location, int)> {
    set w <- n.tabs | |Chan(n', u, w)| > |Chan(n, u, w)| :: (u, w, |Chan(n, u, w)|)
  }

  lemma InFlightAfter(n: Net, n': Net, v: Location, u: Location)
    requires Handled(n, n', v, u)
    ensures InFlight(n') == (InFlight(n) - {(v, u, |Chan(n, v, u)| - 1)}) + Added(n, n', u)
    ensures (v, u, |Chan(n, v, u)| - 1) in InFlight(n)
  {
    var last := (v, u, |Chan(n, v, u)| - 1);
    forall a, b, i
      ensures (a, b, i) in InFlight(n') <==> (a, b, i) in (InFlight(n) - {last}) + Added(n, n', u)
    {
      assert (a, b, i) in InFlight(n') <==> a in n.tabs && b in n.tabs && 0 <= i < |Chan(n', a, b)|;
      assert (a, b, i) in InFlight(n) <==> a in n.tabs && b in n.tabs && 0 <= i < |Chan(n, a, b)|;
    }
  }

  /** At most one new message to each agent. */
  lemma NewMessages(n: Net, n': Net, v: Location, u: Location)
    requires Handled(n, n', v, u)
    ensures |InFlight(n')| <= |InFlight(n)| - 1 + |n.tabs|
    ensures (forall b :: Chan(n', u, b) == Chan(n, u, b)) ==> |InFlight(n')| == |InFlight(n)| - 1
  {
    InFlightAfter(n, n', v, u);
    FewerThan(u, n.tabs.Keys, Added(n, n', u));
    assert (forall b :: Chan(n', u, b) == Chan(n, u, b)) ==> Added(n, n', u) == {};
  }

  lemma DeliveryHandles(n: Net, n': Net, v: Location, u: Location, t': Table, sent: seq<Packet>)
    requires u in n.tabs && v in n.tabs && u != v && Chan(n, v, u) != []
    requires Sends(Put(n, v, u, Chan(n, v, u)[1..]), u, t', sent, n')
    requires forall d :: |Bodies(sent, d)| <= 1
    ensures Handled(n, n', v, u)
  {
  }

  lemma {:induction false} FewerThan(u: Location, locations: set<Location>, s: set<(Location, Location, int)>)
    requires forall p <- s :: p.0 == u && p.1 in locations
    requires forall p <- s, q <- s :: p.1 == q.1 ==> p == q
    ensures |s| <= |locations|
    decreases locations
  {
    if s != {} {
      var p :| p in s;
      FewerThan(u, locations - {p.1}, s - {p});
      assert |locations| == |locations - {p.1}| + 1;
    }
  }

  /** What is left to be entered, once one entry is made. */
  lemma MissingAfter(n: Net, n': Net, u: Location, c: Id, m: Mask, masks: set<Mask>)
    requires u in n.tabs && c in n.tabs[u].ids && m in masks && !Subscribes(n.tabs[u], c, m)
    requires n'.tabs == n.tabs[u := n.tabs[u].(pairs := n.tabs[u].pairs + {(c, m)})]
    ensures |Missing(n', masks)| == |Missing(n, masks)| - 1
  {
    var entry := (u, c, m);
    assert entry in Missing(n, masks);
    forall a, d, k ensures (a, d, k) in Missing(n', masks) <==> (a, d, k) in Missing(n, masks) - {entry} {
      assert a in n.tabs ==> n'.tabs[a].ids == n.tabs[a].ids;
      assert a in n.tabs ==> (Subscribes(n'.tabs[a], d, k) <==> Subscribes(n.tabs[a], d, k) || (a, d, k) == entry);
    }
    assert Missing(n', masks) == Missing(n, masks) - {entry};
  }

  /** The delivery of one registration, as a subscription by its sender. */
  ghost predicate Enters(n: Net, n': Net, v: Location, u: Location, m: Mask, t': Table, sent: seq<Packet>) {
    && u in n.tabs && v in n.tabs && u != v && Chan(n, v, u) != []
    && Sends(Put(n, v, u, Chan(n, v, u)[1..]), u, t', sent, n')
    && SubscribeStep(n.tabs[u], AgentId(v), m, t', sent)
  }

  lemma DeliveryEnters(n: Net, n': Net, masks: set<Mask>)
    returns (v: Location, u: Location, m: Mask, t': Table, sent: seq<Packet>)
    requires OnlyRegs(n, masks) && FloodStep(n, n')
    ensures Enters(n, n', v, u, m, t', sent) && m in masks
  {
    var order;
    v, u, order, t', sent :| Next(n, Deliver(v, u, order), t', sent, n');
    var head := Chan(n, v, u)[0];
    assert head in Chan(n, v, u);
    m := head.mask;
  }

  lemma EnteringShrinks(n: Net, n': Net, v: Location, u: Location, m: Mask, t': Table, sent: seq<Packet>,
                        masks: set<Mask>)
    requires Enters(n, n', v, u, m, t', sent) && m in masks
    ensures || (|Missing(n', masks)| < |Missing(n, masks)| && |InFlight(n')| < |InFlight(n)| + |n.tabs|)
            || (|Missing(n', masks)| == |Missing(n, masks)| && |InFlight(n')| < |InFlight(n)|)
  {
    DeliveryHandles(n, n', v, u, t', sent);
    NewMessages(n, n', v, u);
    if AgentId(v) !in n.tabs[u].ids || Subscribes(n.tabs[u], AgentId(v), m) {
      SameTables(n, n', masks);
    } else {
      MissingAfter(n, n', u, AgentId(v), m, masks);
    }
  }

  /** A delivery makes a missing entry, or else leaves one message fewer. */
  lemma FloodStepShrinks(n: Net, n': Net, masks: set<Mask>)
    requires OnlyRegs(n, masks) && FloodStep(n, n')
    ensures OnlyRegs(n', masks) && n'.tabs.Keys == n.tabs.Keys
    ensures || (|Missing(n', masks)| < |Missing(n, masks)| && |InFlight(n')| < |InFlight(n)| + |n.tabs|)
            || (|Missing(n', masks)| == |Missing(n, masks)| && |InFlight(n')| < |InFlight(n)|)
  {
    var v, u, m, t', sent := DeliveryEnters(n, n', masks);
    EnteringShrinks(n, n', v, u, m, t', sent, masks);
    OnlyRegsKept(n, n', v, u, t', sent, m, masks);
  }

  lemma SameTables(n: Net, n': Net, masks: set<Mask>)
    requires n'.tabs == n.tabs
    ensures Missing(n', masks) == Missing(n, masks)
  {
  }

  lemma OnlyRegsKept(n: Net, n': Net, v: Location, u: Location, t': Table, sent: seq<Packet>, m: Mask, masks: set<Mask>)
    requires OnlyRegs(n, masks) && m in masks && u in n.tabs && v in n.tabs && Chan(n, v, u) != []
    requires Sends(Put(n, v, u, Chan(n, v, u)[1..]), u, t', sent, n')
    requires forall d :: Bodies(sent, d) == [] || Bodies(sent, d) == [Reg(m)]
    ensures OnlyRegs(n', masks)
  {
    forall a <- n'.tabs, b <- n'.tabs ensures RegsOnly(Chan(n', a, b), masks) {
      assert RegsOnly(Chan(n, a, b), masks);
    }
  }

  lemma Weighs(agents: nat, missing: nat, missing': nat, waiting: nat, waiting': nat)
    requires || (missing' < missing && waiting' < waiting + agents)
             || (missing' == missing && waiting' < waiting)
    ensures waiting' + agents * missing' < waiting + agents * missing
  {
    if missing' < missing {
      assert agents * missing' <= agents * (missing - 1) == agents * missing - agents;
    }
  }

  lemma BudgetShrinks(n: Net, n': Net, masks: set<Mask>)
    requires OnlyRegs(n, masks) && FloodStep(n, n')
    ensures OnlyRegs(n', masks) && Budget(n', masks) < Budget(n, masks)
  {
    FloodStepShrinks(n, n', masks);
    assert |n'.tabs| == |n'.tabs.Keys| == |n.tabs.Keys| == |n.tabs|;
    Weighs(|n.tabs|, |Missing(n, masks)|, |Missing(n', masks)|, |InFlight(n)|, |InFlight(n')|);
  }

  /** On any graph of agents, no run of deliveries that starts with registrations
      only is longer than the messages in flight plus, for every entry the tables
      still lack, one message to each agent. */
  lemma {:induction false} FloodTerminates(run: seq<Net>, masks: set<Mask>)
    requires run != [] && OnlyRegs(run[0], masks)
    requires forall i :: 0 <= i < |run| - 1 ==> FloodStep(run[i], run[i + 1])
    ensures |run| - 1 <= Budget(run[0], masks)
    decreases |run|
  {
    if |run| > 1 {
      assert FloodStep(run[0], run[0 + 1]);
      BudgetShrinks(run[0], run[1], masks);
      forall i | 0 <= i < |run[1..]| - 1 ensures FloodStep(run[1..][i], run[1..][i + 1]) {
        assert FloodStep(run[i + 1], run[i + 1 + 1]);
      }
      FloodTerminates(run[1..], masks);
    }
  }
}
