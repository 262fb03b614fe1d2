// Which resets of an agent's level lead to a cycle, and which sets of agents can form
// one: exact answers beside the theorem of Topology.dfy.
module TopologyCycles {
  import opened BootstrapServer
  import opened Forests
  import opened Topology

  // ---- courses of steps

  ghost predicate May(w: World, w': World, resets: bool) {
    exists s :: Next(w, s, w') && (s.Reset? ==> resets)
  }

  ghost predicate Course(run: seq<World>, w: World, w': World, resets: bool) {
    && run != [] && run[0] == w && run[|run| - 1] == w'
    && forall i :: 0 <= i < |run| - 1 ==> May(run[i], run[i + 1], resets)
  }

  /** Some steps lead from w to w'; whether there may be resets among them is said. */
  ghost predicate Leads(w: World, w': World, resets: bool) {
    exists run :: Course(run, w, w', resets)
  }

  lemma Stay(w: World, resets: bool)
    ensures Leads(w, w, resets)
  {
    assert Course([w], w, w, resets);
  }

  lemma Go(w: World, mid: World, s: Step, w': World, resets: bool)
    requires Leads(w, mid, resets) && Next(mid, s, w') && (s.Reset? ==> resets)
    ensures Leads(w, w', resets)
  {
    var run :| Course(run, w, mid, resets);
    var longer := run + [w'];
    assert May(mid, w', resets);
    forall i | 0 <= i < |longer| - 1 ensures May(longer[i], longer[i + 1], resets) {
      if i < |run| - 1 {
        assert May(run[i], run[i + 1], resets);
      }
    }
    assert Course(longer, w, w', resets);
  }

  ghost predicate Cyclic(w: World) {
    !Acyclic(Parents(w))
  }

  ghost predicate CycleAhead(w: World, resets: bool) {
    exists w' :: Leads(w, w', resets) && Cyclic(w')
  }

  // ---- what an agent may do

  /** An agent between two rounds, without a parent, that gives the server no name. */
  ghost predicate Resting(w: World, a: Addr) {
    && a in w.nodes && w.nodes[a].phase == Idle && w.nodes[a].parent == None
    && w.nodes[a].parentAddr.port == 0
  }

  /** From w to w', agent a has changed and nobody else; packets may have been added. */
  ghost predicate Only(w: World, w': World, a: Addr) {
    && a in w.nodes && a in w'.nodes && w'.nodes == w.nodes[a := w'.nodes[a]]
    && w'.server == w.server && w.reqs <= w'.reqs && w.reps <= w'.reps
  }

  /** An agent that is registering below its parent leaves the loop. */
  lemma BecomesIdle(w0: World, w: World, b: Addr, resets: bool) returns (w': World)
    requires Leads(w0, w, resets) && b in w.nodes && w.nodes[b].parent.Some?
    requires w.nodes[b].phase.Idle? || (w.nodes[b].phase.Registering? && !w.nodes[b].phase.asRoot)
    ensures Leads(w0, w', resets) && Only(w, w', b)
    ensures w'.nodes[b] == if w.nodes[b].phase.Idle? then w.nodes[b] else Settled(w.nodes[b])
  {
    if w.nodes[b].phase.Registering? {
      w' := SetNode(w, b, Settled(w.nodes[b]));
      Go(w0, w, Unconfirmed(b), w', resets);
    } else {
      w' := w;
      assert w.nodes[b := w.nodes[b]] == w.nodes;
    }
  }

  /** The server hears of an agent's level, and forgets of an agent. */
  lemma Records(w0: World, w: World, q: ReqPkt, resets: bool) returns (w': World)
    requires Leads(w0, w, resets) && q in w.reqs && q.req.RegReq? && q.req.addr.port != 0
    requires q.req.level != 1 || !HasRoot(w.server)
    ensures Leads(w0, w', resets)
    ensures w' == World(w.server[q.req.addr := q.req.level], w.nodes, w.reqs,
                        w.reps + {RepPkt(q.sender, q.xid, RegRep)})
  {
    w' := World(w.server[q.req.addr := q.req.level], w.nodes, w.reqs, w.reps + {RepPkt(q.sender, q.xid, RegRep)});
    Go(w0, w, Serve(q, true, RegRep), w', resets);
  }

  lemma Forgets(w0: World, w: World, r: Addr, resets: bool) returns (w': World)
    requires Leads(w0, w, resets) && r.port != 0
    ensures Leads(w0, w', resets) && w'.server == w.server - {r} && w'.nodes == w.nodes
    ensures w.reqs <= w'.reqs && w.reps <= w'.reps
  {
    var q := ReqPkt(r, 0, DeregReq(r));
    var asked := w.(reqs := w.reqs + {q});
    Go(w0, w, Farewell(r), asked, resets);
    w' := World(w.server - {r}, w.nodes, asked.reqs, w.reps + {RepPkt(r, 0, DeregRep)});
    Go(w0, asked, Serve(q, true, DeregRep), w', resets);
  }

  /** Agent a asks, and the server's answer is on its way to it. */
  lemma Asks(w0: World, w: World, a: Addr, rep: Reply, resets: bool) returns (w': World)
    requires Leads(w0, w, resets) && a in w.nodes && w.nodes[a].phase == Idle && w.nodes[a].parent == None
    requires GoodOffer(CrossOut(w.server, w.nodes[a].parentAddr), a, w.nodes[a].level, rep)
    ensures Leads(w0, w', resets) && w'.server == CrossOut(w.server, w.nodes[a].parentAddr)
    ensures var x := w.nodes[a].lastXid + 1;
            && w'.nodes == w.nodes[a := w.nodes[a].(phase := Asking(x), lastXid := x)]
            && RepPkt(a, x, rep) in w'.reps
    ensures w.reqs <= w'.reqs && w.reps <= w'.reps
  {
    var n, t := w.nodes[a], CrossOut(w.server, w.nodes[a].parentAddr);
    var xid := n.lastXid + 1;
    var q := ReqPkt(a, xid, AddrReq(a, n.parentAddr, n.level));
    var asking := w.(nodes := w.nodes[a := n.(phase := Asking(xid), lastXid := xid)], reqs := w.reqs + {q});
    Go(w0, w, Ask(a), asking, resets);
    w' := World(t, asking.nodes, asking.reqs, w.reps + {RepPkt(a, xid, rep)});
    Go(w0, asking, Serve(q, true, rep), w', resets);
  }

  /** Agent a is offered p, which the server may offer it, and dials it. */
  lemma GetsOffer(w0: World, w: World, a: Addr, p: Addr, resets: bool) returns (w': World)
    requires Leads(w0, w, resets) && a in w.nodes && w.nodes[a].phase == Idle && w.nodes[a].parent == None
    requires p.port != 0 && Suitable(CrossOut(w.server, w.nodes[a].parentAddr), p, a, w.nodes[a].level)
    ensures Leads(w0, w', resets) && w'.server == CrossOut(w.server, w.nodes[a].parentAddr)
    ensures var n := w.nodes[a];
            w'.nodes == w.nodes[a := n.(parentAddr := p, phase := Dialing(p, w'.server[p]), lastXid := n.lastXid + 1)]
    ensures w.reqs <= w'.reqs && w.reps <= w'.reps
  {
    var l := CrossOut(w.server, w.nodes[a].parentAddr)[p];
    var asking := Asks(w0, w, a, AddrRep(p, l), resets);
    w' := SetNode(asking, a, asking.nodes[a].(parentAddr := p, phase := Dialing(p, l)));
    Go(w0, asking, Offered(a, p, l), w', resets);
  }

  /** There is nobody to offer, and agent a registers as the root. */
  lemma FindsNobody(w0: World, w: World, a: Addr, resets: bool) returns (w': World)
    requires Leads(w0, w, resets) && a in w.nodes && w.nodes[a].phase == Idle && w.nodes[a].parent == None
    requires forall p :: !Suitable(CrossOut(w.server, w.nodes[a].parentAddr), p, a, w.nodes[a].level)
    ensures Leads(w0, w', resets) && w'.server == CrossOut(w.server, w.nodes[a].parentAddr)
    ensures var n := w.nodes[a];
            var x := n.lastXid + 2;
            && w'.nodes == w.nodes[a := Node(1, NOBODY, None, Registering(x, true), x, n.up, n.retried)]
            && ReqPkt(a, x, RegReq(a, 1)) in w'.reqs
    ensures w.reqs <= w'.reqs && w.reps <= w'.reps
  {
    var asking := Asks(w0, w, a, AddrRep(NOBODY, 0), resets);
    w' := Register(asking, a, AsRoot(asking.nodes[a], NOBODY, 0), true);
    Go(w0, asking, Offered(a, NOBODY, 0), w', resets);
    assert w'.nodes == w.nodes[a := w'.nodes[a]];
  }

  /** The agent dialled accepts, and agent a registers one level above it. */
  lemma DialsIn(w0: World, w: World, a: Addr, p: Addr, l: int, resets: bool) returns (w': World)
    requires Leads(w0, w, resets) && a in w.nodes && w.nodes[a].phase == Dialing(p, l)
    requires p in w.nodes && w.nodes[p].up && 0 <= l < MAX_LEVEL
    ensures Leads(w0, w', resets) && Only(w, w', a)
    ensures var n := w.nodes[a];
            var x := n.lastXid + 1;
            && w'.nodes[a] == n.(level := l + 1, parent := Some(p), phase := Registering(x, false), lastXid := x)
            && ReqPkt(a, x, RegReq(a, l + 1)) in w'.reqs
  {
    w' := Register(w, a, Attached(w.nodes[a], p, l), false);
    Go(w0, w, Dialled(a), w', resets);
  }

  // ---- who can be led to an agent

  /** Agent b has asked the server for a parent, and named some other agent than a. */
  ghost predicate HasAsked(w: World, a: Addr, b: Addr, q: ReqPkt)
    requires b in w.nodes
  {
    && q in w.reqs && w.nodes[b].phase == Asking(q.xid) && q.sender == b && q.req.AddrReq?
    && q.req == AddrReq(b, q.req.parentAddr, w.nodes[b].level) && q.req.parentAddr != a
  }

  /** Agent b can come to ask the server for a parent without naming a, or has done so:
      one failure that counts is one too many only past the first round of its loop. */
  ghost predicate Free(w: World, a: Addr, b: Addr)
    requires b in w.nodes
  {
    var n := w.nodes[b];
    match n.phase
    case Idle => n.parent.Some? || !n.retried || n.parentAddr != a
    case Registering(_, asRoot) => !asRoot
    case Asking(_) => !n.retried || exists q :: HasAsked(w, a, b, q)
    case Dialing(_, _) => (!n.retried && n.parentAddr != a) || Unreachable(n).parentAddr != a
    case _ => false
  }

  /** The agent is at the start of a round, without a parent, and will not name a. */
  ghost predicate Asker(w: World, a: Addr, b: Addr) {
    && b in w.nodes && w.nodes[b].phase == Idle && w.nodes[b].parent == None
    && w.nodes[b].parentAddr != a
  }

  /** From w to w', agent b has moved on in its loop without a new level. */
  ghost predicate Moved(w: World, w': World, b: Addr) {
    Only(w, w', b) && w'.nodes[b].level == w.nodes[b].level && (w.nodes[b].up ==> w'.nodes[b].up)
  }

  lemma AsksInVain(w0: World, w: World, b: Addr, a: Addr) returns (w': World)
    requires Leads(w0, w, false) && b in w.nodes && w.nodes[b].phase == Idle && w.nodes[b].parent == None
    requires !w.nodes[b].retried && a.port != 0
    ensures Leads(w0, w', false) && Moved(w, w', b) && Asker(w', a, b)
  {
    var n := w.nodes[b];
    var xid := n.lastXid + 1;
    var asking := w.(nodes := w.nodes[b := n.(phase := Asking(xid), lastXid := xid)],
                     reqs := w.reqs + {ReqPkt(b, xid, AddrReq(b, n.parentAddr, n.level))});
    Go(w0, w, Ask(b), asking, false);
    w' := SetNode(asking, b, Again(Unheard(asking.nodes[b])));
    Go(w0, asking, Unanswered(b), w', false);
  }

  lemma LosesParent(w0: World, w: World, b: Addr, a: Addr) returns (w': World)
    requires Leads(w0, w, false) && b in w.nodes && LocalInv(w, b) && w.nodes[b].parent.Some? && a.port != 0
    ensures Leads(w0, w', false) && Moved(w, w', b) && Asker(w', a, b)
  {
    var idle := BecomesIdle(w0, w, b, false);
    var orphan := SetNode(idle, b, idle.nodes[b].(parent := None));
    Go(w0, idle, LoseParent(b), orphan, false);
    w' := AsksInVain(w0, orphan, b, a);
  }

  lemma ComesToAsk(w0: World, w: World, b: Addr, a: Addr) returns (w': World)
    requires Leads(w0, w, false) && b in w.nodes && LocalInv(w, b) && a.port != 0
    requires Free(w, a, b) && !(w.nodes[b].phase.Asking? && w.nodes[b].retried)
    ensures Leads(w0, w', false) && Moved(w, w', b) && Asker(w', a, b)
  {
    var n := w.nodes[b];
    if n.parent.Some? {
      w' := LosesParent(w0, w, b, a);
    } else if n.phase.Asking? {
      w' := SetNode(w, b, Again(Unheard(n)));
      Go(w0, w, Unanswered(b), w', false);
    } else if n.phase.Dialing? {
      w' := StopsDialing(w0, w, b, a);
    } else if n.retried {
      w' := w;
      assert w.nodes[b := w.nodes[b]] == w.nodes;
    } else {
      w' := AsksInVain(w0, w, b, a);
    }
  }

  lemma StopsDialing(w0: World, w: World, b: Addr, a: Addr) returns (w': World)
    requires Leads(w0, w, false) && b in w.nodes && LocalInv(w, b)
    requires w.nodes[b].phase.Dialing? && Free(w, a, b)
    ensures Leads(w0, w', false) && Moved(w, w', b) && Asker(w', a, b)
  {
    var n := w.nodes[b];
    if Unreachable(n).parentAddr != a {
      w' := SetNode(w, b, Again(Unreachable(n))).(reqs := w.reqs + {ReqPkt(b, 0, ConnFail(NOBODY))});
      Go(w0, w, NoRoute(b, NOBODY), w', false);
    } else {
      w' := SetNode(w, b, Again(n));
      Go(w0, w, DialError(b), w', false);
    }
  }

  /** Agent b dials a, of which the server has said that it is of level l. */
  ghost predicate Dials(w: World, w': World, b: Addr, a: Addr, l: int) {
    && b in w.nodes && b in w'.nodes && w'.nodes == w.nodes[b := w'.nodes[b]]
    && w'.nodes[b].phase == Dialing(a, l) && w'.nodes[b].parent == None
    && w'.nodes[b].level == w.nodes[b].level && (w.nodes[b].up ==> w'.nodes[b].up)
    && w.reqs <= w'.reqs && w.reps <= w'.reps
  }

  /** If the server has a at a lower level, a free agent can be led to it. */
  lemma IsLedTo(w0: World, w: World, b: Addr, a: Addr) returns (w': World)
    requires Leads(w0, w, false) && b in w.nodes && LocalInv(w, b) && a != b && a.port != 0 && Free(w, a, b)
    requires a in w.server && 0 <= w.server[a] < w.nodes[b].level
    ensures Leads(w0, w', false) && Dials(w, w', b, a, w.server[a])
  {
    if w.nodes[b].phase.Asking? && w.nodes[b].retried {
      w' := IsAnswered(w0, w, b, a);
    } else {
      var asker := ComesToAsk(w0, w, b, a);
      w' := GetsOffer(w0, asker, b, a, false);
    }
  }

  lemma IsAnswered(w0: World, w: World, b: Addr, a: Addr) returns (w': World)
    requires Leads(w0, w, false) && b in w.nodes && LocalInv(w, b) && a != b && a.port != 0
    requires exists q :: HasAsked(w, a, b, q)
    requires a in w.server && 0 <= w.server[a] < w.nodes[b].level
    ensures Leads(w0, w', false) && Dials(w, w', b, a, w.server[a])
  {
    var q :| HasAsked(w, a, b, q);
    var l := w.server[a];
    var reps := w.reps + {RepPkt(b, q.xid, AddrRep(a, l))};
    var told := World(CrossOut(w.server, q.req.parentAddr), w.nodes, w.reqs, reps);
    Go(w0, w, Serve(q, true, AddrRep(a, l)), told, false);
    w' := SetNode(told, b, w.nodes[b].(parentAddr := a, phase := Dialing(a, l)));
    Go(w0, told, Offered(b, a, l), w', false);
  }

  // ---- how a cycle comes about after a reset

  /** An agent that has reset its level. */
  ghost predicate Reborn(w: World, a: Addr) {
    Resting(w, a) && w.nodes[a].level == MAX_LEVEL && a.port != 0
  }

  /** Agent d stands below a, and can take connections as soon as it has settled. */
  ghost predicate Hangs(w: World, d: Addr, k: nat, a: Addr) {
    && d in w.nodes && k > 0 && d != a && d.port != 0 && Path(Parents(w), d, k, a)
    && w.nodes[d].parent.Some?
    && ((w.nodes[d].phase == Idle && w.nodes[d].up) || (w.nodes[d].phase.Registering? && !w.nodes[d].phase.asRoot))
  }

  lemma Settles(w0: World, w: World, d: Addr, k: nat, a: Addr) returns (w': World)
    requires Leads(w0, w, false) && Hangs(w, d, k, a)
    ensures Leads(w0, w', false) && Only(w, w', d) && Hangs(w', d, k, a) && w'.nodes[d].up
    ensures w'.nodes[d].level == w.nodes[d].level && Parents(w') == Parents(w)
  {
    w' := BecomesIdle(w0, w, d, false);
    assert Parents(w') == Parents(w);
  }

  /** A cycle closes when an agent takes one below it for its parent. */
  lemma CycleCloses(w: World, w': World, d: Addr, k: nat, a: Addr)
    requires Hangs(w, d, k, a) && a in w.nodes && w.nodes[a].parent == None
    requires a in w'.nodes && w'.nodes == w.nodes[a := w'.nodes[a]] && w'.nodes[a].parent == Some(d)
    ensures Cyclic(w')
  {
    PathWithin(Parents(w), Parents(w'), d, k, a);
    assert Parents(w')[a] == d;
    assert Path(Parents(w'), a, k + 1, a);
  }

  /** One below it is at the server. */
  lemma TakesOneBelow(w0: World, w: World, d: Addr, k: nat, a: Addr)
    requires Leads(w0, w, false) && Reborn(w, a) && Hangs(w, d, k, a)
    requires d in w.server && 0 <= w.server[d] < MAX_LEVEL
    ensures CycleAhead(w0, false)
  {
    var w1 := Settles(w0, w, d, k, a);
    var w2 := GetsOffer(w0, w1, a, d, false);
    var w3 := DialsIn(w0, w2, a, d, w2.server[d], false);
    assert w3.nodes == w1.nodes[a := w3.nodes[a]];
    CycleCloses(w1, w3, d, k, a);
  }

  lemma OneBelowRegisters(w0: World, w: World, q: ReqPkt, d: Addr, k: nat, a: Addr)
    requires Leads(w0, w, false) && Reborn(w, a) && Hangs(w, d, k, a)
    requires q in w.reqs && q.req.RegReq? && q.req.addr == d && 2 <= q.req.level < MAX_LEVEL
    ensures CycleAhead(w0, false)
  {
    var w' := Records(w0, w, q, false);
    TakesOneBelow(w0, w', d, k, a);
  }

  /** Somebody dials the agent, or one below it, and comes to stand below it too. */
  lemma NewcomerBelow(w0: World, w: World, y: Addr, d: Addr, l: int, k: nat, a: Addr)
    requires Leads(w0, w, false) && Reborn(w, a) && ((d == a && k == 0 && w.nodes[a].up) || Hangs(w, d, k, a))
    requires y in w.nodes && y != a && y != d && y.port != 0 && w.nodes[y].phase == Dialing(d, l)
    requires w.nodes[y].parent == None && 1 <= l < MAX_LEVEL - 1
    ensures CycleAhead(w0, false)
  {
    var w1 := w;
    if k > 0 {
      w1 := Settles(w0, w, d, k, a);
    }
    var w2 := DialsIn(w0, w1, y, d, l, false);
    assert Parents(w2)[y] == d;
    assert Path(Parents(w1), d, k, a);
    PathWithin(Parents(w1), Parents(w2), d, k, a);
    assert Path(Parents(w2), y, k + 1, a);
    var q := ReqPkt(y, w1.nodes[y].lastXid + 1, RegReq(y, l + 1));
    OneBelowRegisters(w0, w2, q, y, k + 1, a);
  }

  /** Somebody that is taking an offer comes to dial. */
  lemma TakerDials(w0: World, w: World, y: Addr, d: Addr, l: int) returns (w': World)
    requires Leads(w0, w, false) && Takes(w, y, d, l) && LocalInv(w, y)
    ensures Leads(w0, w', false) && Dials(w, w', y, d, l) && w'.server == w.server && Parents(w') == Parents(w)
  {
    if w.nodes[y].phase == Dialing(d, l) {
      w' := w;
      assert w.nodes[y := w.nodes[y]] == w.nodes;
    } else {
      var r :| LiveReply(w, r) && r.receiver == y && r.rep == AddrRep(d, l);
      w' := SetNode(w, y, w.nodes[y].(parentAddr := d, phase := Dialing(d, l)));
      Go(w0, w, Offered(y, d, l), w', false);
    }
    assert Parents(w') == Parents(w);
  }

  /** Somebody is taking an offer of the agent, or of one below it. */
  lemma TakerComesBelow(w0: World, w: World, y: Addr, d: Addr, l: int, k: nat, a: Addr)
    requires Leads(w0, w, false) && Reborn(w, a) && ((d == a && k == 0 && w.nodes[a].up) || Hangs(w, d, k, a))
    requires Takes(w, y, d, l) && LocalInv(w, y) && y != a && y != d && 1 <= l < MAX_LEVEL - 1
    ensures CycleAhead(w0, false)
  {
    var w' := TakerDials(w0, w, y, d, l);
    NewcomerBelow(w0, w', y, d, l, k, a);
  }

  /** The server has an entry of the agent that is below another agent's level. */
  lemma EntryIsTaken(w0: World, w: World, a: Addr, b: Addr)
    requires Leads(w0, w, false) && Reborn(w, a) && w.nodes[a].up && a in w.server && 1 <= w.server[a] < MAX_LEVEL - 1
    requires b in w.nodes && b != a && LocalInv(w, b) && w.server[a] < w.nodes[b].level && Free(w, a, b)
    ensures CycleAhead(w0, false)
  {
    var w' := IsLedTo(w0, w, b, a);
    NewcomerBelow(w0, w', b, a, w.server[a], 0, a);
  }

  /** The level l of agent p, which is on record, comes to the server. */
  lemma ComesToServer(w0: World, w: World, p: Addr, l: int) returns (w': World)
    requires Leads(w0, w, false) && TableOk(w.server) && OnRecord(w, p, l) && 1 <= l <= MAX_LEVEL && p.port != 0
    ensures Leads(w0, w', false) && p in w'.server && w'.server[p] == l && TableOk(w'.server)
    ensures w'.nodes == w.nodes && w.reqs <= w'.reqs && w.reps <= w'.reps
    ensures l != 1 ==> forall a :: a != p && a in w.server ==> a in w'.server && w'.server[a] == w.server[a]
  {
    w' := w;
    if !(p in w.server && w.server[p] == l) {
      var q :| q in w.reqs && q.req == RegReq(p, l);
      if l == 1 {
        if r :| r in w.server && w.server[r] == 1 {
          w' := Forgets(w0, w, r, false);
        }
      }
      w' := Records(w0, w', q, false);
    }
  }

  /** The agent's level is on record, below that of another agent. */
  lemma RecordIsTaken(w0: World, w: World, a: Addr, l: int, b: Addr)
    requires Leads(w0, w, false) && Reborn(w, a) && w.nodes[a].up
    requires TableOk(w.server) && OnRecord(w, a, l) && 1 <= l < MAX_LEVEL - 1
    requires b in w.nodes && b != a && LocalInv(w, b) && l < w.nodes[b].level && Free(w, a, b)
    ensures CycleAhead(w0, false)
  {
    var w' := ComesToServer(w0, w, a, l);
    StaysFree(w, w', a, b);
    EntryIsTaken(w0, w', a, b);
  }

  lemma StaysFree(w: World, w': World, a: Addr, b: Addr)
    requires b in w.nodes && Free(w, a, b) && b in w'.nodes && w'.nodes[b] == w.nodes[b] && w.reqs <= w'.reqs
    ensures Free(w', a, b)
  {
    if q :| HasAsked(w, a, b, q) {
      assert HasAsked(w', a, b, q);
    }
  }

  // ---- a reset inside the first FTBN_Connect

  /** Agent a is not up: it first becomes a child of b, which is, and is up then. */
  lemma BecomesChildOf(w0: World, w: World, a: Addr, b: Addr, k: int) returns (w': World)
    requires Leads(w0, w, false) && Reborn(w, a) && TableOk(w.server) && OnRecord(w, b, k) && 2 <= k < MAX_LEVEL
    requires b in w.nodes && b != a && w.nodes[b].up && b.port != 0
    ensures Leads(w0, w', false) && a in w'.nodes && w'.nodes == w.nodes[a := w'.nodes[a]]
    ensures w'.nodes[a].parent == Some(b) && w'.nodes[a].up
    ensures w.reqs <= w'.reqs && w.reps <= w'.reps && TableOk(w'.server)
    ensures a in w.server ==> a in w'.server && w'.server[a] == w.server[a]
  {
    var heard := ComesToServer(w0, w, b, k);
    var dialing := GetsOffer(w0, heard, a, b, false);
    var there := DialsIn(w0, dialing, a, b, k, false);
    w' := BecomesIdle(w0, there, a, false);
    assert w'.nodes == w.nodes[a := w'.nodes[a]];
  }

  /** What is said of the agent reaches b, to which the agent has attached itself. */
  lemma ParentIsTempted(w0: World, w: World, a: Addr, b: Addr, k: int, l: int)
    requires Leads(w0, w, false) && Reborn(w, a) && TableOk(w.server) && OnRecord(w, b, k) && 2 <= k < MAX_LEVEL
    requires b in w.nodes && b != a && LocalInv(w, b) && w.nodes[b].up && 1 <= l < MAX_LEVEL - 1
    requires Takes(w, b, a, l) || (OnRecord(w, a, l) && Free(w, a, b) && l < w.nodes[b].level)
    ensures CycleAhead(w0, false)
  {
    var w1 := BecomesChildOf(w0, w, a, b, k);
    var w2: World;
    if Takes(w, b, a, l) {
      StillTakes(w, w1, b, a, l);
      w2 := TakerDials(w0, w1, b, a, l);
    } else {
      assert OnRecord(w1, a, l);
      w2 := ComesToServer(w0, w1, a, l);
      StaysFree(w, w2, a, b);
      w2 := IsLedTo(w0, w2, b, a);
    }
    var w3 := DialsIn(w0, w2, b, a, l, false);
    assert Parents(w3)[b] == a && Parents(w3)[a] == b;
    assert Path(Parents(w3), b, 0, b) && Path(Parents(w3), a, 1, b) && Path(Parents(w3), b, 2, b);
  }

  lemma StillTakes(w: World, w': World, y: Addr, p: Addr, l: int)
    requires Takes(w, y, p, l) && y in w'.nodes && w'.nodes[y] == w.nodes[y] && w.reps <= w'.reps
    ensures Takes(w', y, p, l)
  {
    if r :| LiveReply(w, r) && r.receiver == y && r.rep == AddrRep(p, l) {
      assert LiveReply(w', r);
    }
  }

  // ---- exactly which resets do harm

  /** Something that a reset leaves lets the agent come to stand below itself: a child
      that is, or has below it somebody, on offer; or a level of its own, on record or on
      offer, that is below the level of somebody else. */
  ghost predicate Tempting(w: World, a: Addr) {
    || !ChildrenHidden(w, a)
    || exists b, l :: b in w.nodes && b != a && Carries(w, a, l) && !NotAbove(w.nodes[b], l)
  }

  /** Level l, said of the agent, reaches agent b: it is dialling already, or it is free to
      ask, and above that level. */
  ghost predicate Reaches(w: World, a: Addr, l: int, b: Addr)
    requires b in w.nodes
  {
    b != a && (Takes(w, b, a, l) || (OnRecord(w, a, l) && l < w.nodes[b].level && Free(w, a, b)))
  }

  /** Agent b is up, and at the server or on its way there. */
  ghost predicate Established(w: World, b: Addr)
    requires b in w.nodes
  {
    w.nodes[b].up && exists k :: k < MAX_LEVEL && OnRecord(w, b, k)
  }

  /** What is left tempts the agent itself, by one below it; or it reaches another agent,
      which is established if the agent is not up and has to find a parent first. */
  ghost predicate Harmful(w: World, a: Addr)
    requires a in w.nodes
  {
    || !ChildrenHidden(w, a)
    || exists b, l :: b in w.nodes && Reaches(w, a, l, b) && (w.nodes[a].up || Established(w, b))
  }

  /** Agent b is not past the first round of a loop, or at its end. */
  ghost predicate Fresh(w: World, b: Addr)
    requires b in w.nodes
  {
    !w.nodes[b].retried || w.nodes[b].parent.Some? || w.nodes[b].phase.Over?
  }

  /** Nothing speaks of the level 65534, whose successor is the level of the reset. */
  ghost predicate Shallow(w: World) {
    forall p, l :: Carries(w, p, l) ==> l != MAX_LEVEL - 1
  }

  /** Resets that do no harm are followed by no cycle, until there is another reset. */
  lemma {:induction false} HarmlessFor(run: seq<World>, w: World, w': World, exempt: set<Addr>)
    requires Course(run, w, w', false) && InvBut(w, exempt)
    ensures InvBut(w', exempt)
    decreases |run|
  {
    if |run| > 1 {
      assert May(run[0], run[0 + 1], false);
      var s :| Next(w, s, run[1]) && !s.Reset?;
      OtherStepKeeps(w, s, run[1], exempt);
      forall i | 0 <= i < |run[1..]| - 1 ensures May(run[1..][i], run[1..][i + 1], false) {
        assert May(run[i + 1], run[i + 1 + 1], false);
      }
      HarmlessFor(run[1..], run[1], w', exempt);
    }
  }

  lemma UntemptingIsHarmless(w: World, a: Addr, w': World)
    requires Inv(w) && Next(w, Reset(a), w') && !Tempting(w, a)
    ensures !CycleAhead(w', false)
  {
    forall l | Carries(w, a, l) ensures Truthful(w', {a}, a, l) {
      forall b <- w'.nodes | b != a ensures NotAbove(w'.nodes[b], l) {
      }
    }
    HiddenResetKeeps(w, a, w', {a});
    forall v | Leads(w', v, false) ensures !Cyclic(v) {
      var run :| Course(run, w', v, false);
      HarmlessFor(run, w', v, {a});
    }
  }

  lemma ExposedChildIsHarmful(w: World, a: Addr, w': World)
    requires Inv(w) && Next(w, Reset(a), w') && Shallow(w) && !ChildrenHidden(w, a)
    ensures CycleAhead(w', false)
  {
    var d := ChildOnOffer(w, a);
    var k: nat :| Path(Parents(w), d, k, a);
    var l :| l < MAX_LEVEL && Carries(w, d, l);
    HangsBelow(w, a, w', d, k, l);
    ResetSaysTheSame(w, a, w');
    forall y | Takes(w', y, d, l) ensures TakerOf(w', y, d, l, a) {
      TakerKept(w, a, w', y, d, l);
    }
    OfferIsTaken(w', d, k, l, a);
  }

  /** Agent y takes up an offer of d, and is neither d nor a. */
  ghost predicate TakerOf(w: World, y: Addr, d: Addr, l: int, a: Addr) {
    Takes(w, y, d, l) && y != a && y != d && y in w.nodes && LocalInv(w, y)
  }

  lemma TakerKept(w: World, a: Addr, w': World, y: Addr, d: Addr, l: int)
    requires Inv(w) && Next(w, Reset(a), w') && Takes(w', y, d, l)
    ensures TakerOf(w', y, d, l, a) && Takes(w, y, d, l)
  {
    assert LocalInv(w, y) && LocalInv(w, a);
    if r :| LiveReply(w', r) && r.receiver == y && r.rep == AddrRep(d, l) {
      assert LiveReply(w, r) && OffersLower(w, r);
    }
  }

  /** One below the agent is on offer, in one way or another. */
  lemma OfferIsTaken(w: World, d: Addr, k: nat, l: int, a: Addr)
    requires Reborn(w, a) && Hangs(w, d, k, a) && Carries(w, d, l) && 2 <= l < MAX_LEVEL - 1
    requires forall y :: Takes(w, y, d, l) ==> TakerOf(w, y, d, l, a)
    ensures CycleAhead(w, false)
  {
    Stay(w, false);
    if d in w.server && w.server[d] == l {
      TakesOneBelow(w, w, d, k, a);
    } else if q :| q in w.reqs && q.req == RegReq(d, l) {
      OneBelowRegisters(w, w, q, d, k, a);
    } else {
      var y :| Takes(w, y, d, l);
      TakerComesBelow(w, w, y, d, l, k, a);
    }
  }

  /** Agent d stands below a, and is on offer. */
  ghost predicate BelowOnOffer(w: World, a: Addr, d: Addr) {
    OnOffer(w, d) && d != a && Under(Parents(w), d, a)
  }

  lemma ChildOnOffer(w: World, a: Addr) returns (d: Addr)
    requires Inv(w) && !ChildrenHidden(w, a)
    ensures BelowOnOffer(w, a, d)
  {
    var x :| x in w.nodes && w.nodes[x].parent == Some(a) && Exposed(w, x);
    d :| OnOffer(w, d) && Under(Parents(w), d, x);
    var k: nat :| Path(Parents(w), d, k, x);
    assert Parents(w)[x] == a && Path(Parents(w), a, 0, a) && Path(Parents(w), x, 1, a);
    PathConcat(Parents(w), d, k, x, 1, a);
    assert d != a;
  }

  lemma HangsBelow(w: World, a: Addr, w': World, d: Addr, k: nat, l: int)
    requires Inv(w) && Next(w, Reset(a), w') && Shallow(w)
    requires d != a && Path(Parents(w), d, k, a) && l < MAX_LEVEL && Carries(w, d, l)
    ensures Reborn(w', a) && Hangs(w', d, k, a) && 2 <= l < MAX_LEVEL - 1
  {
    ResetSaysTheSame(w, a, w');
    assert LocalInv(w, a) && Truthful(w, {}, d, l);
    assert k > 0 && d in Parents(w) && LocalInv(w, d) && Tower(w, d) && LocalInv(w, Parents(w)[d]);
    assert OnOffer(w, d);
    ExposedByParentage(w, d, 0, d);
  }

  /** The resets a cycle can follow, without any other reset, are tempting; and harmful
      ones can be followed by one. */
  lemma HarmfulResetCycles(w: World, a: Addr, w': World)
    requires Inv(w) && Next(w, Reset(a), w') && Shallow(w)
    ensures Harmful(w, a) ==> CycleAhead(w', false)
    ensures CycleAhead(w', false) ==> Tempting(w, a)
  {
    if !Tempting(w, a) {
      UntemptingIsHarmless(w, a, w');
    }
    if !ChildrenHidden(w, a) {
      ExposedChildIsHarmful(w, a, w');
    } else if b, l :| b in w.nodes && Reaches(w, a, l, b) && (w.nodes[a].up || Established(w, b)) {
      OwnLevelIsHarmful(w, a, w', b, l);
    }
  }

  lemma OwnLevelIsHarmful(w: World, a: Addr, w': World, b: Addr, l: int)
    requires Inv(w) && Next(w, Reset(a), w') && Shallow(w)
    requires b in w.nodes && Reaches(w, a, l, b) && (w.nodes[a].up || Established(w, b))
    ensures CycleAhead(w', false)
  {
    Stay(w', false);
    ReachedStill(w, a, w', b, l);
    if w.nodes[a].up {
      if Takes(w', b, a, l) {
        TakerComesBelow(w', w', b, a, l, 0, a);
      } else {
        RecordIsTaken(w', w', a, l, b);
      }
    } else {
      var k :| k < MAX_LEVEL && OnRecord(w, b, k);
      assert Carries(w, b, k) && Truthful(w, {}, b, k);
      assert OnRecord(w', b, k);
      ParentIsTempted(w', w', a, b, k, l);
    }
  }

  lemma ReachedStill(w: World, a: Addr, w': World, b: Addr, l: int)
    requires Inv(w) && Next(w, Reset(a), w') && Shallow(w) && b in w.nodes && Reaches(w, a, l, b)
    ensures Reborn(w', a) && b in w'.nodes && w'.nodes[b] == w.nodes[b] && LocalInv(w', b)
    ensures Reaches(w', a, l, b) && 1 <= l < MAX_LEVEL - 1 && l < w'.nodes[b].level && TableOk(w'.server)
  {
    assert LocalInv(w, a) && LocalInv(w, b) && Carries(w, a, l) && Truthful(w, {}, a, l);
    if Takes(w, b, a, l) {
      StillTakes(w, w', b, a, l);
      if r :| LiveReply(w, r) && r.receiver == b && r.rep == AddrRep(a, l) {
        assert OffersLower(w, r);
      }
    } else {
      assert OnRecord(w', a, l);
      StaysFree(w, w', a, b);
    }
  }

  /** Exactly which resets do harm: if nobody is tempted but those that can be led to the
      agent, a cycle can follow, without any other reset, if and only if somebody is. */
  lemma ResetCyclesExactly(w: World, a: Addr, w': World)
    requires Inv(w) && Next(w, Reset(a), w') && Shallow(w) && (Tempting(w, a) ==> Harmful(w, a))
    ensures CycleAhead(w', false) <==> Tempting(w, a)
  {
    HarmfulResetCycles(w, a, w');
  }

  /** So it is while no other agent is past the first round of its loop, for an agent that
      reconnects, and for a new one among agents that are all established. */
  lemma TemptingIsHarmful(w: World, a: Addr)
    requires Inv(w) && a in w.nodes && w.nodes[a].phase.Registering? && w.nodes[a].phase.asRoot
    requires forall b <- w.nodes :: b != a ==> Fresh(w, b)
    requires w.nodes[a].up || forall b <- w.nodes :: b != a ==> w.nodes[b].phase.Over? || Established(w, b)
    ensures Tempting(w, a) <==> Harmful(w, a)
  {
    assert LocalInv(w, a);
    if b, l :| b in w.nodes && b != a && Carries(w, a, l) && !NotAbove(w.nodes[b], l) {
      TemptedIsReached(w, a, b, l);
    }
    if b, l :| b in w.nodes && Reaches(w, a, l, b) {
      assert LocalInv(w, b) && Carries(w, a, l);
      if r :| LiveReply(w, r) && r.receiver == b && r.rep == AddrRep(a, l) {
        assert OffersLower(w, r);
      }
    }
  }

  lemma TemptedIsReached(w: World, a: Addr, b: Addr, l: int)
    requires Inv(w) && a in w.nodes && w.nodes[a].phase.Registering? && b in w.nodes && Fresh(w, b)
    requires b != a && Carries(w, a, l) && !NotAbove(w.nodes[b], l)
    ensures exists y, k :: y in w.nodes && Reaches(w, a, k, y)
  {
    assert LocalInv(w, a) && LocalInv(w, b) && Truthful(w, {}, a, l);
    if y :| Takes(w, y, a, l) {
      assert Reaches(w, a, l, y);
    } else if w.nodes[b].phase.Dialing? && w.nodes[b].parentAddr == a {
      assert Reaches(w, a, w.nodes[b].phase.offerLevel, b);
    } else {
      assert Free(w, a, b);
      assert Reaches(w, a, l, b);
    }
  }
}
