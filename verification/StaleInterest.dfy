// Why interest listed at a neighbour is only an over-approximation: two
// neighbours can keep each other's interest alive after every client has gone.
module StaleInterest {
  import opened Masks
  import opened Names
  import opened Tables
  import opened Overlay
  import opened OverlayInvariant

  /** Neither the queue's sender nor a lost connection takes back m. */
  ghost predicate Standing(q: seq<Body>, m: Mask) {
    Cancel(m) !in q && Lost !in q
  }

  /** u and v list each other under m, and nothing on its way between them changes it. */
  ghost predicate Stale(n: Net, u: Location, v: Location, m: Mask) {
    && u in n.tabs && v in n.tabs && u != v
    && (u, v) in n.links && (v, u) in n.links
    && Subscribes(n.tabs[u], AgentId(v), m) && Subscribes(n.tabs[v], AgentId(u), m)
    && Standing(Chan(n, u, v), m) && Standing(Chan(n, v, u), m)
  }

  ghost predicate Cuts(s: Step, u: Location, v: Location) {
    (s.Break? || s.Drop?) && ((s.u == u && s.v == v) || (s.u == v && s.v == u))
  }

  /** An agent that lists neighbour v under m keeps doing so, and cancels m nowhere. */
  ghost predicate Holds(t: Table, t': Table, sent: seq<Packet>, v: Location, m: Mask) {
    && Subscribes(t', AgentId(v), m)
    && forall d :: Standing(Bodies(sent, d), m)
  }

  lemma UnsubscribeHolds(t: Table, id: Id, k: Mask, t': Table, sent: seq<Packet>, v: Location, m: Mask)
    requires UnsubscribeStep(t, id, k, t', sent) && Subscribes(t, AgentId(v), m)
    requires id != AgentId(v) || k != m
    ensures Holds(t, t', sent, v, m)
  {
    if k == m {
      assert !SoleSubscriber(t, id, m);
    }
  }

  lemma DropHolds(t: Table, gone: set<Id>, loc: Location, t': Table, sent: seq<Packet>, order: seq<Mask>,
                  v: Location, m: Mask)
    requires DropStep(t, gone, loc, t', sent, order) && Subscribes(t, AgentId(v), m) && loc != v
    ensures Holds(t, t', sent, v, m)
  {
    assert !Orphaned(t, gone, m);
    forall d ensures Standing(Bodies(sent, d), m) {
      assert Bodies(sent, d) == if Eligible(t, d, loc) then Cancels(order) else [];
    }
  }

  lemma ReceiveHolds(t: Table, x: Location, body: Body, t': Table, sent: seq<Packet>, order: seq<Mask>,
                     v: Location, m: Mask)
    requires Receive(t, x, body, t', sent, order) && Subscribes(t, AgentId(v), m)
    requires x == v ==> body != Cancel(m) && body != Lost
    ensures Holds(t, t', sent, v, m)
  {
    match body
    case Cancel(k) =>
      if x == v {
        assert k != m;
      } else {
        assert AgentId(x) != AgentId(v);
      }
      UnsubscribeHolds(t, AgentId(x), k, t', sent, v, m);
    case Lost => DropHolds(t, At(t, x), x, t', sent, order, v, m);
    case _ =>
  }

  /** The step changes no agent's tables. */
  predicate InNetwork(s: Step) {
    s.Break? || s.Overtake? || s.Overlook?
  }

  /** The agent whose tables a step changes. */
  function Actor(s: Step): Location {
    if s.Connect? then s.w else s.u
  }

  lemma RegisterHolds(t: Table, id: Id, t': Table, sent: seq<Packet>, order: seq<Mask>, v: Location, m: Mask)
    requires RegisterStep(t, id, t', sent, order) && Subscribes(t, AgentId(v), m)
    ensures Holds(t, t', sent, v, m)
  {
  }

  lemma DeliverHolds(n: Net, x: Location, u: Location, order: seq<Mask>, t': Table, sent: seq<Packet>, n': Net,
                     v: Location, m: Mask)
    requires Next(n, Deliver(x, u, order), t', sent, n') && Stale(n, u, v, m)
    ensures Holds(n.tabs[u], t', sent, v, m)
  {
    assert Chan(n, x, u)[0] in Chan(n, x, u);
    ReceiveHolds(n.tabs[u], x, Chan(n, x, u)[0], t', sent, order, v, m);
  }

  lemma RefuseHolds(n: Net, u: Location, x: Location, order: seq<Mask>, t': Table, sent: seq<Packet>, n': Net,
                    v: Location, m: Mask)
    requires Next(n, Refuse(u, x, order), t', sent, n') && Stale(n, u, v, m)
    ensures Holds(n.tabs[u], t', sent, v, m)
  {
    DropHolds(n.tabs[u], {AgentId(x)}, x, t', sent, order, v, m);
  }

  lemma DropOtherHolds(n: Net, u: Location, x: Location, k: nat, j: nat, order: seq<Mask>, t': Table,
                       sent: seq<Packet>, n': Net, v: Location, m: Mask)
    requires Next(n, Drop(u, x, k, j, order), t', sent, n') && Stale(n, u, v, m) && x != v
    ensures Holds(n.tabs[u], t', sent, v, m)
  {
    DropHolds(n.tabs[u], {AgentId(x)}, x, t', sent, order, v, m);
  }

  lemma ClientStepHolds(n: Net, s: Step, t': Table, sent: seq<Packet>, n': Net, v: Location, m: Mask)
    requires s.Join? || s.Subscribe? || s.Unsubscribe? || s.Leave?
    requires Next(n, s, t', sent, n') && Stale(n, s.u, v, m)
    ensures Holds(n.tabs[s.u], t', sent, v, m)
  {
    match s
    case Join(u, c) => RegisterHolds(n.tabs[u], c, t', sent, [], v, m);
    case Subscribe(u, c, k) => assert forall d :: Bodies(sent, d) == [] || Bodies(sent, d) == [Reg(k)];
    case Unsubscribe(u, c, k) => UnsubscribeHolds(n.tabs[u], c, k, t', sent, v, m);
    case Leave(u, gone, loc, order) => DropHolds(n.tabs[u], gone, loc, t', sent, order, v, m);
  }

  /** A step of agent u itself, other than losing the link to v. */
  lemma OwnStepHolds(n: Net, s: Step, t': Table, sent: seq<Packet>, n': Net, v: Location, m: Mask)
    requires Next(n, s, t', sent, n') && !InNetwork(s)
    requires Stale(n, Actor(s), v, m) && !Cuts(s, Actor(s), v)
    ensures Holds(n.tabs[Actor(s)], t', sent, v, m)
  {
    match s
    case Deliver(x, u, order) => DeliverHolds(n, x, u, order, t', sent, n', v, m);
    case Connect(w, u, order) => RegisterHolds(n.tabs[w], AgentId(u), t', sent, order, v, m);
    case Drop(u, x, k, j, order) => DropOtherHolds(n, u, x, k, j, order, t', sent, n', v, m);
    case Refuse(u, x, order) => RefuseHolds(n, u, x, order, t', sent, n', v, m);
    case _ => ClientStepHolds(n, s, t', sent, n', v, m);
  }

  /** The net in which a step's agent sends: the message read is gone from its queue,
      and the link made or lost is there or not. */
  ghost function Base(n: Net, s: Step): Net
    requires s.Deliver? ==> Chan(n, s.v, s.u) != []
    requires s.Drop? ==> s.k <= |Chan(n, s.u, s.v)| && s.j <= |Chan(n, s.v, s.u)|
  {
    match s
    case Deliver(v, u, _) => Put(n, v, u, Chan(n, v, u)[1..])
    case Connect(w, u, _) => Linked(n, w, u)
    case Drop(u, v, k, j, _) => Unlinked(n, u, v, Chan(n, u, v)[..k] + [Lost], Chan(n, v, u)[..j])
    case _ => n
  }

  lemma StaleInBase(n: Net, s: Step, t': Table, sent: seq<Packet>, n': Net, u: Location, v: Location, m: Mask)
    requires Next(n, s, t', sent, n') && !InNetwork(s) && Stale(n, u, v, m) && !Cuts(s, u, v)
    ensures Stale(Base(n, s), u, v, m) && Sends(Base(n, s), Actor(s), t', sent, n')
  {
  }

  lemma StaleAfterSending(n: Net, x: Location, t': Table, sent: seq<Packet>, n': Net, u: Location, v: Location, m: Mask)
    requires Sends(n, x, t', sent, n') && Stale(n, u, v, m)
    requires x == u ==> Holds(n.tabs[u], t', sent, v, m)
    requires x == v ==> Holds(n.tabs[v], t', sent, u, m)
    ensures Stale(n', u, v, m)
  {
  }

  lemma StaleInNetwork(n: Net, s: Step, t': Table, sent: seq<Packet>, n': Net, u: Location, v: Location, m: Mask)
    requires Next(n, s, t', sent, n') && InNetwork(s) && Stale(n, u, v, m) && !Cuts(s, u, v)
    ensures Stale(n', u, v, m)
  {
  }

  /** Until the link between them breaks, no step of anybody ends it. */
  lemma StaleStep(n: Net, s: Step, t': Table, sent: seq<Packet>, n': Net, u: Location, v: Location, m: Mask)
    requires Next(n, s, t', sent, n') && Stale(n, u, v, m) && !Cuts(s, u, v)
    ensures Stale(n', u, v, m)
  {
    if InNetwork(s) {
      StaleInNetwork(n, s, t', sent, n', u, v, m);
    } else {
      if Actor(s) == u {
        OwnStepHolds(n, s, t', sent, n', v, m);
      } else if Actor(s) == v {
        assert Stale(n, v, u, m);
        OwnStepHolds(n, s, t', sent, n', u, m);
      }
      StaleInBase(n, s, t', sent, n', u, v, m);
      StaleAfterSending(Base(n, s), Actor(s), t', sent, n', u, v, m);
    }
  }

  ghost predicate CanStepKeeping(n: Net, n': Net, u: Location, v: Location) {
    exists s, t', sent :: Next(n, s, t', sent, n') && !Cuts(s, u, v)
  }

  /** Stale interest lasts as long as the link does, whatever steps are made. */
  lemma {:induction false} StaleInterestLasts(run: seq<Net>, u: Location, v: Location, m: Mask)
    requires run != [] && Stale(run[0], u, v, m)
    requires forall i :: 0 <= i < |run| - 1 ==> CanStepKeeping(run[i], run[i + 1], u, v)
    ensures Stale(run[|run| - 1], u, v, m)
    decreases |run|
  {
    if |run| > 1 {
      assert CanStepKeeping(run[0], run[0 + 1], u, v);
      var s, t', sent :| Next(run[0], s, t', sent, run[1]) && !Cuts(s, u, v);
      StaleStep(run[0], s, t', sent, run[1], u, v, m);
      forall i | 0 <= i < |run[1..]| - 1 ensures CanStepKeeping(run[1..][i], run[1..][i + 1], u, v) {
        assert CanStepKeeping(run[i + 1], run[i + 1 + 1], u, v);
      }
      StaleInterestLasts(run[1..], u, v, m);
    }
  }

  // ---- such a state is reached: two agents, one client each

  function Two(a: Location, b: Location, ta: Table, tb: Table, q: seq<Body>, r: seq<Body>): Net {
    Net(map[a := ta, b := tb], {(a, b), (b, a)}, map[(a, b) := q, (b, a) := r])
  }

  lemma StepOfA(a: Location, b: Location, ta: Table, tb: Table, q: seq<Body>, r: seq<Body>,
                t': Table, sent: seq<Packet>)
    requires a != b
    ensures Sends(Two(a, b, ta, tb, q, r), a, t', sent, Two(a, b, t', tb, q + Bodies(sent, AgentId(b)), r))
  {
  }

  lemma StepOfB(a: Location, b: Location, ta: Table, tb: Table, q: seq<Body>, r: seq<Body>,
                t': Table, sent: seq<Packet>)
    requires a != b
    ensures Sends(Two(a, b, ta, tb, q, r), b, t', sent, Two(a, b, ta, t', q, r + Bodies(sent, AgentId(a))))
  {
  }

  /** The cast of the story: two agents, and a client at each. */
  ghost predicate Cast(a: Location, b: Location, ca: Id, cb: Id) {
    a != b && !IsAgent(ca) && !IsAgent(cb) && ca.loc !in {a, b} && cb.loc !in {a, b}
  }

  function ToNeighbour(c: Location, body: Body): seq<Packet> {
    [Packet(AgentId(c), body)]
  }

  lemma ToNeighbourBodies(c: Location, body: Body)
    ensures forall d :: Bodies(ToNeighbour(c, body), d) == if d == AgentId(c) then [body] else []
  {
    assert ToNeighbour(c, body)[1..] == [];
  }

  lemma Introduced(a: Location, b: Location)
    requires a != b
    ensures var t0 := Table({}, {});
            CanStep(iset{}, Net(map[a := t0, b := t0], {}, map[(a, b) := [], (b, a) := []]),
                    Two(a, b, Table({AgentId(b)}, {}), t0, [ClientReg], []))
  {
    var t0, ta := Table({}, {}), Table({AgentId(b)}, {});
    var n := Net(map[a := t0, b := t0], {}, map[(a, b) := [], (b, a) := []]);
    assert OnlyTo(AgentId(b), Regs([]), []);
    assert Chan(n, a, b) + [ClientReg] == [ClientReg];
    assert Linked(n, a, b) == Two(a, b, t0, t0, [ClientReg], []);
    StepOfA(a, b, t0, t0, [ClientReg], [], ta, []);
    assert Next(n, Connect(a, b, []), ta, [], Two(a, b, ta, t0, [ClientReg], []));
  }

  lemma Welcomed(a: Location, b: Location)
    requires a != b
    ensures var ta := Table({AgentId(b)}, {});
            CanStep(iset{}, Two(a, b, ta, Table({}, {}), [ClientReg], []),
                    Two(a, b, ta, Table({AgentId(a)}, {}), [], []))
  {
    var t0, ta, tb := Table({}, {}), Table({AgentId(b)}, {}), Table({AgentId(a)}, {});
    var n := Two(a, b, ta, t0, [ClientReg], []);
    assert OnlyTo(AgentId(a), Regs([]), []);
    assert Put(n, a, b, []) == Two(a, b, ta, t0, [], []);
    StepOfB(a, b, ta, t0, [], [], tb, []);
    assert Next(n, Deliver(a, b, []), tb, [], Two(a, b, ta, tb, [], []));
  }

  lemma Joined(a: Location, b: Location, ca: Id, ta: Table, tb: Table)
    requires a != b && !IsAgent(ca) && ca.loc !in {a, b} && ca !in ta.ids
    ensures CanStep(iset{}, Two(a, b, ta, tb, [], []), Two(a, b, ta.(ids := ta.ids + {ca}), tb, [], []))
  {
    var n, t' := Two(a, b, ta, tb, [], []), ta.(ids := ta.ids + {ca});
    StepOfA(a, b, ta, tb, [], [], t', []);
    assert Next(n, Join(a, ca), t', [], Two(a, b, t', tb, [], []));
  }

  /** A client's first subscription is passed on to the neighbour. */
  lemma Asked(a: Location, b: Location, ca: Id, ta: Table, tb: Table, r: seq<Body>, m: Mask)
    requires a != b && !IsAgent(ca) && ca.loc !in {a, b}
    requires ta == Table({AgentId(b), ca}, {})
    ensures CanStep(iset{}, Two(a, b, ta, tb, [], r), Two(a, b, ta.(pairs := {(ca, m)}), tb, [Reg(m)], r))
  {
    var n, t', sent := Two(a, b, ta, tb, [], r), ta.(pairs := {(ca, m)}), ToNeighbour(b, Reg(m));
    ToNeighbourBodies(b, Reg(m));
    forall d: Id ensures Bodies(sent, d) == if Eligible(ta, d, ca.loc) then [Reg(m)] else [] {
    }
    StepOfA(a, b, ta, tb, [], r, t', sent);
    assert Next(n, Subscribe(a, ca, m), t', sent, Two(a, b, t', tb, [Reg(m)], r));
  }

  /** The neighbour lists it, and has nobody else to tell. */
  lemma Heard(a: Location, b: Location, cb: Id, ta: Table, tb: Table, r: seq<Body>, m: Mask)
    requires a != b && !IsAgent(cb) && tb.ids == {AgentId(a), cb} && !Subscribes(tb, AgentId(a), m)
    ensures CanStep(iset{}, Two(a, b, ta, tb, [Reg(m)], r),
                    Two(a, b, ta, tb.(pairs := tb.pairs + {(AgentId(a), m)}), [], r))
  {
    var n, t' := Two(a, b, ta, tb, [Reg(m)], r), tb.(pairs := tb.pairs + {(AgentId(a), m)});
    assert Put(n, a, b, []) == Two(a, b, ta, tb, [], r);
    StepOfB(a, b, ta, tb, [], r, t', []);
    assert Next(n, Deliver(a, b, []), t', [], Two(a, b, ta, t', [], r));
  }

  /** A client that is not the last subscriber withdraws in silence. */
  lemma Withdrawn(a: Location, b: Location, ca: Id, tb: Table, m: Mask)
    requires a != b && !IsAgent(ca) && ca.loc !in {a, b}
    ensures CanStep(iset{}, Two(a, b, Table({AgentId(b), ca}, {(ca, m), (AgentId(b), m)}), tb, [], []),
                    Two(a, b, Table({AgentId(b), ca}, {(AgentId(b), m)}), tb, [], []))
  {
    var ta := Table({AgentId(b), ca}, {(ca, m), (AgentId(b), m)});
    var t' := Table({AgentId(b), ca}, {(AgentId(b), m)});
    assert Subscribes(ta, AgentId(b), m) && !SoleSubscriber(ta, ca, m);
    assert ta.pairs - {(ca, m)} == t'.pairs;
    StepOfA(a, b, ta, tb, [], [], t', []);
    assert Next(Two(a, b, ta, tb, [], []), Unsubscribe(a, ca, m), t', [], Two(a, b, t', tb, [], []));
  }

  lemma Swap(a: Location, b: Location, ta: Table, tb: Table, q: seq<Body>, r: seq<Body>)
    requires a != b
    ensures Two(a, b, ta, tb, q, r) == Two(b, a, tb, ta, r, q)
  {
  }

  ghost predicate Reaches(run: seq<Net>, n: Net) {
    Run(iset{}, run) && run[|run| - 1] == n
  }

  lemma Extend(run: seq<Net>, n: Net, n': Net) returns (longer: seq<Net>)
    requires Reaches(run, n) && CanStep(iset{}, n, n')
    ensures Reaches(longer, n')
  {
    longer := run + [n'];
    forall i | 0 <= i < |longer| - 1 ensures CanStep(iset{}, longer[i], longer[i + 1]) {
      if i < |run| - 1 {
        assert CanStep(iset{}, run[i], run[i + 1]);
      }
    }
  }

  lemma Started(a: Location, b: Location) returns (n: Net)
    requires a != b
    ensures n == Net(map[a := Table({}, {}), b := Table({}, {})], {}, map[(a, b) := [], (b, a) := []])
    ensures Reaches([n], n)
  {
    n := Net(map[a := Table({}, {}), b := Table({}, {})], {}, map[(a, b) := [], (b, a) := []]);
  }

  lemma Opened(a: Location, b: Location) returns (run: seq<Net>)
    requires a != b
    ensures Reaches(run, Two(a, b, Table({AgentId(b)}, {}), Table({AgentId(a)}, {}), [], []))
  {
    var n := Started(a, b);
    Introduced(a, b);
    Welcomed(a, b);
    run := Extend([n], n, Two(a, b, Table({AgentId(b)}, {}), Table({}, {}), [ClientReg], []));
    run := Extend(run, Two(a, b, Table({AgentId(b)}, {}), Table({}, {}), [ClientReg], []),
                  Two(a, b, Table({AgentId(b)}, {}), Table({AgentId(a)}, {}), [], []));
  }

  lemma Subscribed(a: Location, b: Location, ca: Id, cb: Id, m: Mask) returns (run: seq<Net>)
    requires Cast(a, b, ca, cb)
    ensures Reaches(run, Two(a, b, Table({AgentId(b), ca}, {(ca, m)}), Table({AgentId(a), cb}, {(cb, m)}),
                             [Reg(m)], [Reg(m)]))
  {
    var A, B := AgentId(a), AgentId(b);
    var ta, tb, ja, jb := Table({B}, {}), Table({A}, {}), Table({B, ca}, {}), Table({A, cb}, {});
    var sa, sb := Table({B, ca}, {(ca, m)}), Table({A, cb}, {(cb, m)});
    run := Opened(a, b);
    JoinsAndAsks(a, b, ca, cb, m);
    run := Extend(run, Two(a, b, ta, tb, [], []), Two(a, b, ja, tb, [], []));
    run := Extend(run, Two(a, b, ja, tb, [], []), Two(a, b, ja, jb, [], []));
    run := Extend(run, Two(a, b, ja, jb, [], []), Two(a, b, sa, jb, [Reg(m)], []));
    run := Extend(run, Two(a, b, sa, jb, [Reg(m)], []), Two(a, b, sa, sb, [Reg(m)], [Reg(m)]));
  }

  lemma Forgotten(a: Location, b: Location, ca: Id, cb: Id, m: Mask) returns (run: seq<Net>)
    requires Cast(a, b, ca, cb)
    ensures Reaches(run, Two(a, b, Table({AgentId(b), ca}, {(AgentId(b), m)}),
                             Table({AgentId(a), cb}, {(AgentId(a), m)}), [], []))
  {
    var A, B := AgentId(a), AgentId(b);
    var sa, sb := Table({B, ca}, {(ca, m)}), Table({A, cb}, {(cb, m)});
    var fa, fb := Table({B, ca}, {(ca, m), (B, m)}), Table({A, cb}, {(cb, m), (A, m)});
    var wa, wb := Table({B, ca}, {(B, m)}), Table({A, cb}, {(A, m)});
    run := Subscribed(a, b, ca, cb, m);
    HearsAndWithdraws(a, b, ca, cb, m);
    run := Extend(run, Two(a, b, sa, sb, [Reg(m)], [Reg(m)]), Two(a, b, sa, fb, [], [Reg(m)]));
    run := Extend(run, Two(a, b, sa, fb, [], [Reg(m)]), Two(a, b, fa, fb, [], []));
    run := Extend(run, Two(a, b, fa, fb, [], []), Two(a, b, wa, fb, [], []));
    run := Extend(run, Two(a, b, wa, fb, [], []), Two(a, b, wa, wb, [], []));
  }

  /** Any two agents, with any client at each and any mask, have a run after which
      no client subscribes, nothing is in flight, and each lists the other. */
  lemma StaleInterestArises(a: Location, b: Location, ca: Id, cb: Id, m: Mask) returns (run: seq<Net>)
    requires Cast(a, b, ca, cb)
    ensures Run(iset{}, run)
    ensures var n := run[|run| - 1];
            && Stale(n, a, b, m) && Settled(n)
            && forall u <- n.tabs, c, k :: Subscribes(n.tabs[u], c, k) ==> IsAgent(c)
  {
    run := Forgotten(a, b, ca, cb, m);
  }

  lemma JoinsAndAsks(a: Location, b: Location, ca: Id, cb: Id, m: Mask)
    requires Cast(a, b, ca, cb)
    ensures var A, B := AgentId(a), AgentId(b);
            var ta, tb, ja, jb := Table({B}, {}), Table({A}, {}), Table({B, ca}, {}), Table({A, cb}, {});
            var sa, sb := Table({B, ca}, {(ca, m)}), Table({A, cb}, {(cb, m)});
            && CanStep(iset{}, Two(a, b, ta, tb, [], []), Two(a, b, ja, tb, [], []))
            && CanStep(iset{}, Two(a, b, ja, tb, [], []), Two(a, b, ja, jb, [], []))
            && CanStep(iset{}, Two(a, b, ja, jb, [], []), Two(a, b, sa, jb, [Reg(m)], []))
            && CanStep(iset{}, Two(a, b, sa, jb, [Reg(m)], []), Two(a, b, sa, sb, [Reg(m)], [Reg(m)]))
  {
    var A, B := AgentId(a), AgentId(b);
    var ta, tb, ja, jb := Table({B}, {}), Table({A}, {}), Table({B, ca}, {}), Table({A, cb}, {});
    var sa, sb := Table({B, ca}, {(ca, m)}), Table({A, cb}, {(cb, m)});
    assert ta.ids + {ca} == ja.ids && tb.ids + {cb} == jb.ids;
    Joined(a, b, ca, ta, tb);
    Swap(a, b, ja, tb, [], []);
    Swap(a, b, ja, jb, [], []);
    Joined(b, a, cb, tb, ja);
    Asked(a, b, ca, ja, jb, [], m);
    Swap(a, b, sa, jb, [Reg(m)], []);
    Swap(a, b, sa, sb, [Reg(m)], [Reg(m)]);
    Asked(b, a, cb, jb, sa, [Reg(m)], m);
  }

  lemma HearsAndWithdraws(a: Location, b: Location, ca: Id, cb: Id, m: Mask)
    requires Cast(a, b, ca, cb)
    ensures var A, B := AgentId(a), AgentId(b);
            var sa, sb := Table({B, ca}, {(ca, m)}), Table({A, cb}, {(cb, m)});
            var fa, fb := Table({B, ca}, {(ca, m), (B, m)}), Table({A, cb}, {(cb, m), (A, m)});
            var wa, wb := Table({B, ca}, {(B, m)}), Table({A, cb}, {(A, m)});
            && CanStep(iset{}, Two(a, b, sa, sb, [Reg(m)], [Reg(m)]), Two(a, b, sa, fb, [], [Reg(m)]))
            && CanStep(iset{}, Two(a, b, sa, fb, [], [Reg(m)]), Two(a, b, fa, fb, [], []))
            && CanStep(iset{}, Two(a, b, fa, fb, [], []), Two(a, b, wa, fb, [], []))
            && CanStep(iset{}, Two(a, b, wa, fb, [], []), Two(a, b, wa, wb, [], []))
  {
    var A, B := AgentId(a), AgentId(b);
    var sa, sb := Table({B, ca}, {(ca, m)}), Table({A, cb}, {(cb, m)});
    var fa, fb := Table({B, ca}, {(ca, m), (B, m)}), Table({A, cb}, {(cb, m), (A, m)});
    var wa, wb := Table({B, ca}, {(B, m)}), Table({A, cb}, {(A, m)});
    assert sb.pairs + {(A, m)} == fb.pairs && sa.pairs + {(B, m)} == fa.pairs;
    Heard(a, b, cb, sa, sb, [Reg(m)], m);
    Swap(a, b, sa, fb, [], [Reg(m)]);
    Swap(a, b, fa, fb, [], []);
    Heard(b, a, ca, fb, sa, [], m);
    Withdrawn(a, b, ca, fb, m);
    Swap(a, b, wa, fb, [], []);
    Swap(a, b, wa, wb, [], []);
    Withdrawn(b, a, cb, wa, m);
  }
}
