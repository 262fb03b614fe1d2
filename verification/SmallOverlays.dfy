// Which sets of agents can come to form a cycle: those with at least three agents.
module SmallOverlays {
  import opened BootstrapServer
  import opened Forests
  import opened Topology
  import opened TopologyCycles

  /** The agents start, all at once or one by one, with an empty server. */
  function Start(agents: set<Addr>): World {
    World(map[], map a | a in agents :: Node(MAX_LEVEL, NOBODY, None, Idle, 0, false, false), {}, {})
  }

  // ---- two agents

  /** A parent is another agent, and the root, and so is the agent about to be one. */
  ghost predicate RootedAt(w: World, a: Addr)
    requires a in w.nodes
  {
    var n := w.nodes[a];
    && (n.parent.Some? ==> n.parent.value in w.nodes && n.parent.value != a && w.nodes[n.parent.value].phase.Root?)
    && (n.phase.Registering? && !n.phase.asRoot ==> n.parent.Some?)
    && (n.phase.Asking? || n.phase.Dialing? || n.phase.Root? ==> n.parent.None?)
    && (n.phase.Registering? && n.phase.asRoot ==> n.parent.None?)
    && (n.phase.Dialing? ==> n.phase.offer != a)
    && (n.up && !n.phase.Root? ==> forall b <- w.nodes :: b != a ==> w.nodes[b].phase.Root?)
  }

  ghost predicate PairInv(w: World) {
    && (forall a <- w.nodes :: RootedAt(w, a))
    && (forall q <- w.reqs :: q.req.AddrReq? ==> q.req.addr == q.sender)
    && (forall r <- w.reps :: r.rep.AddrRep? && r.rep.parentAddr.port != 0 ==> r.rep.parentAddr != r.receiver)
  }

  ghost predicate AtMostTwo(agents: set<Addr>) {
    forall a <- agents, b <- agents, c <- agents :: a == b || b == c || a == c
  }

  lemma PairStep(w: World, s: Step, w': World)
    requires PairInv(w) && AtMostTwo(w.nodes.Keys) && Next(w, s, w')
    ensures PairInv(w') && w'.nodes.Keys == w.nodes.Keys
  {
    forall x <- w'.nodes ensures RootedAt(w', x) {
      RootedKept(w, s, w', x);
    }
  }

  lemma RootsStay(w: World, s: Step, w': World, x: Addr)
    requires Next(w, s, w') && x in w.nodes && w.nodes[x].phase.Root?
    ensures x in w'.nodes && w'.nodes[x] == w.nodes[x]
  {
  }

  lemma RootedKept(w: World, s: Step, w': World, x: Addr)
    requires PairInv(w) && AtMostTwo(w.nodes.Keys) && Next(w, s, w') && x in w'.nodes
    ensures RootedAt(w', x)
  {
    assert w'.nodes.Keys == w.nodes.Keys;
    assert RootedAt(w, x);
    forall b <- w.nodes | w.nodes[b].phase.Root? ensures w'.nodes[b] == w.nodes[b] {
      RootsStay(w, s, w', b);
    }
    if Actor(s) != Some(x) {
      OthersStay(w, s, w', x);
    } else if s.Dialled? {
      NewcomerIsRooted(w, x, w');
    } else {
      OwnStepIsRooted(w, s, w', x);
    }
  }

  lemma OwnStepIsRooted(w: World, s: Step, w': World, x: Addr)
    requires x in w.nodes && RootedAt(w, x) && AtMostTwo(w.nodes.Keys)
    requires Next(w, s, w') && Actor(s) == Some(x) && !s.Dialled?
    requires forall r <- w.reps :: r.rep.AddrRep? && r.rep.parentAddr.port != 0 ==> r.rep.parentAddr != r.receiver
    ensures x in w'.nodes && RootedAt(w', x)
  {
  }

  /** With two agents, whoever accepts a connection is the root. */
  lemma NewcomerIsRooted(w: World, x: Addr, w': World)
    requires x in w.nodes && RootedAt(w, x) && Next(w, Dialled(x), w')
    requires RootedAt(w, w.nodes[x].phase.offer)
    ensures RootedAt(w', x)
  {
  }

  lemma PairIsAcyclic(w: World)
    requires PairInv(w)
    ensures Acyclic(Parents(w))
  {
    forall x <- Parents(w) ensures Parents(w)[x] !in Parents(w) {
      assert RootedAt(w, x) && RootedAt(w, Parents(w)[x]);
    }
    FlatIsAcyclic(Parents(w));
  }

  lemma {:induction false} PairCourse(run: seq<World>, w: World, w': World)
    requires Course(run, w, w', true) && PairInv(w) && AtMostTwo(w.nodes.Keys)
    ensures PairInv(w')
    decreases |run|
  {
    if |run| > 1 {
      assert May(run[0], run[0 + 1], true);
      var s :| Next(w, s, run[1]);
      PairStep(w, s, run[1]);
      forall i | 0 <= i < |run[1..]| - 1 ensures May(run[1..][i], run[1..][i + 1], true) {
        assert May(run[i + 1], run[i + 1 + 1], true);
      }
      PairCourse(run[1..], run[1], w');
    }
  }

  // ---- three agents

  /** Agent r becomes the root. */
  lemma BecomesRoot(w0: World, w: World, r: Addr) returns (w': World)
    requires Leads(w0, w, true) && w == w0 && w.server == map[] && r.port != 0
    requires r in w.nodes && w.nodes[r] == Node(MAX_LEVEL, NOBODY, None, Idle, 0, false, false)
    ensures Leads(w0, w', true) && w'.server == map[r := 1]
    ensures r in w'.nodes && w'.nodes == w.nodes[r := w'.nodes[r]] && w'.nodes[r].up
  {
    var asked := FindsNobody(w0, w, r, true);
    var heard := Records(w0, asked, ReqPkt(r, 2, RegReq(r, 1)), true);
    w' := SetNode(heard, r, Settled(heard.nodes[r]));
    Go(w0, heard, Confirmed(r), w', true);
  }

  /** An agent that has just started becomes a child of p, and is up. */
  lemma BecomesChild(w0: World, w: World, a: Addr, p: Addr) returns (w': World)
    requires Leads(w0, w, true) && a in w.nodes && w.nodes[a] == Node(MAX_LEVEL, NOBODY, None, Idle, 0, false, false)
    requires p in w.nodes && w.nodes[p].up && a != p && p.port != 0 && NOBODY !in w.server
    requires p in w.server && 0 <= w.server[p] < MAX_LEVEL
    ensures Leads(w0, w', true) && w'.server == w.server && w.reqs <= w'.reqs
    ensures w'.nodes == w.nodes[a := Node(w.server[p] + 1, p, Some(p), Idle, 2, true, false)]
    ensures ReqPkt(a, 2, RegReq(a, w.server[p] + 1)) in w'.reqs
  {
    var dialing := GetsOffer(w0, w, a, p, true);
    var there := DialsIn(w0, dialing, a, p, w.server[p], true);
    w' := BecomesIdle(w0, there, a, true);
    assert w'.nodes == w.nodes[a := w'.nodes[a]];
  }

  /** Two agents have become children of the root, and one of them the root's heir: it
      has lost the root, found nobody else, and given up being the root itself. */
  lemma Bereft(w0: World, w: World, r: Addr, a: Addr) returns (w': World)
    requires Leads(w0, w, true) && a in w.nodes && r != a && r.port != 0 && a.port != 0
    requires w.nodes[a] == Node(2, r, Some(r), Idle, 2, true, false)
    requires r in w.server && forall p :: p in w.server && p != r && p != a ==> w.server[p] >= 2
    ensures Leads(w0, w', true) && a in w'.nodes && w'.nodes == w.nodes[a := w'.nodes[a]]
    ensures Reborn(w', a) && w'.nodes[a].up
    ensures w'.server == w.server[r := CROSSED_OUT][a := 1]
    ensures w.reqs <= w'.reqs
  {
    var orphan := SetNode(w, a, w.nodes[a].(parent := None));
    Go(w0, w, LoseParent(a), orphan, true);
    assert forall p :: !Suitable(CrossOut(orphan.server, r), p, a, 2);
    var asked := FindsNobody(w0, orphan, a, true);
    assert asked.server == w.server[r := CROSSED_OUT];
    var heard: World;
    if HasRoot(asked.server) {
      heard := Forgets(w0, asked, a, true);
      heard := Records(w0, heard, ReqPkt(a, 4, RegReq(a, 1)), true);
    } else {
      heard := Records(w0, asked, ReqPkt(a, 4, RegReq(a, 1)), true);
    }
    assert heard.server == w.server[r := CROSSED_OUT][a := 1];
    w' := SetNode(heard, a, Again(Refused(heard.nodes[a])));
    Go(w0, heard, Reset(a), w', true);
    assert w'.nodes == w.nodes[a := w'.nodes[a]];
  }

  /** Only an answer need be lost. Root r, its children a and b; a loses r and registers
      as the root; the answer is lost, and a resets its level; b takes a for its parent,
      and a takes b. */
  lemma LostAnswerCanCycle(agents: set<Addr>, r: Addr, a: Addr, b: Addr)
    requires (forall x <- agents :: x.port != 0) && {r, a, b} <= agents && r != a && a != b && r != b
    ensures CycleAhead(Start(agents), true)
  {
    var w0 := Start(agents);
    Stay(w0, true);
    var w1 := BecomesRoot(w0, w0, r);
    var w2 := BecomesChild(w0, w1, a, r);
    var w3 := BecomesChild(w0, w2, b, r);
    var w4 := Bereft(w0, w3, r, a);
    Stay(w4, false);
    EntryIsTaken(w4, w4, a, b);
    ThenCycle(w0, w4);
  }

  /** Nor is there any need of a second child of the root. Root r, its child a, and a's
      child c; a loses r, gives up becoming the root, and takes c for its parent. */
  lemma ResetWithChildCanCycle(agents: set<Addr>, r: Addr, a: Addr, c: Addr)
    requires (forall x <- agents :: x.port != 0) && {r, a, c} <= agents && r != a && a != c && r != c
    ensures CycleAhead(Start(agents), true)
  {
    var w0 := Start(agents);
    Stay(w0, true);
    var w1 := BecomesRoot(w0, w0, r);
    var w2 := BecomesChild(w0, w1, a, r);
    var w3 := Records(w0, w2, ReqPkt(a, 2, RegReq(a, 2)), true);
    var w4 := BecomesChild(w0, w3, c, a);
    var w5 := Bereft(w0, w4, r, a);
    Stay(w5, false);
    assert Parents(w5)[c] == a && Path(Parents(w5), a, 0, a) && Path(Parents(w5), c, 1, a);
    OneBelowRegisters(w5, w5, ReqPkt(c, 2, RegReq(c, 3)), c, 1, a);
    ThenCycle(w0, w5);
  }

  lemma ThenCycle(w0: World, w: World)
    requires Leads(w0, w, true) && CycleAhead(w, false)
    ensures CycleAhead(w0, true)
  {
    var v :| Leads(w, v, false) && Cyclic(v);
    LeadsOn(w0, w, v);
  }

  lemma LeadsOn(w0: World, w: World, v: World)
    requires Leads(w0, w, true) && Leads(w, v, false)
    ensures Leads(w0, v, true)
  {
    var first :| Course(first, w0, w, true);
    var second :| Course(second, w, v, false);
    var run := first + second[1..];
    forall i | 0 <= i < |run| - 1 ensures May(run[i], run[i + 1], true) {
      if i < |first| - 1 {
        assert May(first[i], first[i + 1], true);
      } else {
        var j := i - (|first| - 1);
        assert run[i] == second[j] && run[i + 1] == second[j + 1];
        assert May(second[j], second[j + 1], false);
      }
    }
    assert Course(run, w0, v, true);
  }

  /** A set of agents can come to form a cycle if and only if there are three of them. */
  lemma AgentsCanCycleExactly(agents: set<Addr>)
    requires forall x <- agents :: x.port != 0
    ensures CycleAhead(Start(agents), true) <==> |agents| >= 3
  {
    if |agents| >= 3 {
      var r, a, b := ThreeOf(agents);
      LostAnswerCanCycle(agents, r, a, b);
    } else {
      FewAreAtMostTwo(agents);
      forall v | Leads(Start(agents), v, true) ensures !Cyclic(v) {
        var run :| Course(run, Start(agents), v, true);
        PairCourse(run, Start(agents), v);
        PairIsAcyclic(v);
      }
    }
  }

  lemma ThreeOf(s: set<Addr>) returns (x: Addr, y: Addr, z: Addr)
    requires |s| >= 3
    ensures {x, y, z} <= s && x != y && y != z && x != z
  {
    x :| x in s;
    assert |s - {x}| == |s| - 1;
    y :| y in s - {x};
    assert |s - {x} - {y}| == |s| - 2;
    z :| z in s - {x} - {y};
  }

  lemma ThreeAreThree(s: set<Addr>, a: Addr, b: Addr, c: Addr)
    requires {a, b, c} <= s && a != b && b != c && a != c
    ensures |s| >= 3
  {
    assert |s| == |s - {a} - {b} - {c}| + 3;
  }

  lemma FewAreAtMostTwo(s: set<Addr>)
    requires |s| < 3
    ensures AtMostTwo(s)
  {
    forall a <- s, b <- s, c <- s ensures a == b || b == c || a == c {
      if a != b && b != c && a != c {
        ThreeAreThree(s, a, b, c);
        assert false;
      }
    }
  }
}
