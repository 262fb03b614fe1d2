// How agents find their parents: the retry loop of FTBN_Connect
// (src/manager_lib/network/network_sock/ftb_network_tcp.c:279-393), the packets it
// exchanges, and the bootstrap server, as one system of steps.
module Topology {
  import opened BootstrapServer
  import opened Forests

  datatype Option<T> = None | Some(value: T)

  /** Where an agent is in the loop. Each exchange with the server has its own socket,
      whose number is xid; a root that is registered leaves the loop for good, and so
      does an agent whose process ends because the server is silent. */
  datatype Phase =
    | Idle
    | Asking(xid: nat)
    | Dialing(offer: Addr, offerLevel: int)
    | Registering(xid: nat, asRoot: bool)
    | Root
    | Over

  /** FTBN_my_level, FTBN_parent_addr, and the agent at the other end of the parent
      connection; lastXid is the last socket used. The agent is up once it has left its
      first FTBN_Connect: only then is there a thread that answers new connections. It
      has retried once its present FTBN_Connect is past the first round. */
  datatype Node = Node(level: int, parentAddr: Addr, parent: Option<Addr>, phase: Phase, lastXid: nat, up: bool,
                       retried: bool)

  datatype ReqPkt = ReqPkt(sender: Addr, xid: nat, req: Request)
  datatype RepPkt = RepPkt(receiver: Addr, xid: nat, rep: Reply)

  /** The packets on their way; each may be lost, and a request handled repeatedly. */
  datatype World = World(server: map<Addr, int>, nodes: map<Addr, Node>, reqs: set<ReqPkt>, reps: set<RepPkt>)

  datatype Step =
    | Ask(a: Addr)
    | Serve(pkt: ReqPkt, keep: bool, rep: Reply)
    | LoseRequest(pkt: ReqPkt)
    | LoseReply(reply: RepPkt)
    | Unanswered(a: Addr)
    | Offered(a: Addr, p: Addr, l: int)
    | Dialled(a: Addr)
    | NoRoute(a: Addr, key: Addr)
    | DialError(a: Addr)
    | Confirmed(a: Addr)
    | Unconfirmed(a: Addr)
    | Reset(a: Addr)
    | LoseParent(a: Addr)
    | Farewell(key: Addr)

  /** Addition in 16 bits. */
  function Succ16(l: int): int {
    (l + 1) % 0x1_0000
  }

  // what the rounds of the loop do to an agent's variables

  /** The server did not answer. */
  function Unheard(n: Node): Node {
    n.(parentAddr := n.parentAddr.(port := 0))
  }

  /** There is no parent to be had: it is the root, of the level after l. */
  function AsRoot(n: Node, p: Addr, l: int): Node {
    n.(parentAddr := p, level := Succ16(l))
  }

  /** The offered parent p, of level l, accepted the connection. */
  function Attached(n: Node, p: Addr, l: int): Node {
    n.(parent := Some(p), level := Succ16(l))
  }

  /** Nobody was there. */
  function Unreachable(n: Node): Node {
    n.(parentAddr := n.parentAddr.(port := 2))
  }

  /** The registration as root was refused, or not answered. */
  function Refused(n: Node): Node {
    n.(level := MAX_LEVEL)
  }

  /** The loop goes on. */
  function Again(n: Node): Node {
    n.(phase := Idle, retried := true)
  }

  /** The loop is left, with success. */
  function Settled(n: Node): Node {
    n.(phase := if n.phase.Registering? && n.phase.asRoot then Root else Idle, up := true, retried := false)
  }

  /** The loop is left because the offered parent broke the connection off: the agent
      stops listening, and may be made to connect anew. */
  function GivenUp(n: Node): Node {
    n.(phase := Idle, up := false, retried := false)
  }

  function SetNode(w: World, a: Addr, n: Node): World {
    w.(nodes := w.nodes[a := n])
  }

  /** Agent a sends its level to the server, on a new socket. */
  function Register(w: World, a: Addr, n: Node, asRoot: bool): World {
    var xid := n.lastXid + 1;
    w.(nodes := w.nodes[a := n.(phase := Registering(xid, asRoot), lastXid := xid)],
       reqs := w.reqs + {ReqPkt(a, xid, RegReq(a, n.level))})
  }

  ghost predicate Next(w: World, s: Step, w': World) {
    match s
    case Ask(a) =>
      && a in w.nodes && w.nodes[a].phase == Idle && w.nodes[a].parent == None
      && var n := w.nodes[a];
         var xid := n.lastXid + 1;
         w' == w.(nodes := w.nodes[a := n.(phase := Asking(xid), lastXid := xid)],
                  reqs := w.reqs + {ReqPkt(a, xid, AddrReq(a, n.parentAddr, n.level))})
    case Serve(pkt, keep, rep) =>
      && pkt in w.reqs
      && ServerStep(w.server, pkt.req, w'.server, rep)
      && w' == World(w'.server, w.nodes,
                     if keep then w.reqs else w.reqs - {pkt},
                     if rep == NoReply then w.reps else w.reps + {RepPkt(pkt.sender, pkt.xid, rep)})
    case LoseRequest(pkt) => w' == w.(reqs := w.reqs - {pkt})
    case LoseReply(reply) => w' == w.(reps := w.reps - {reply})
    case Unanswered(a) =>
      && a in w.nodes && w.nodes[a].phase.Asking?
      && var n := Unheard(w.nodes[a]);
         w' == SetNode(w, a, if n.retried then n.(phase := Over, up := false) else Again(n))
    case Offered(a, p, l) =>
      && a in w.nodes && w.nodes[a].phase.Asking?
      && RepPkt(a, w.nodes[a].phase.xid, AddrRep(p, l)) in w.reps
      && if p.port == 0 then w' == Register(w, a, AsRoot(w.nodes[a], p, l), true)
         else w' == SetNode(w, a, w.nodes[a].(parentAddr := p, phase := Dialing(p, l)))
    case Dialled(a) =>
      && a in w.nodes && w.nodes[a].phase.Dialing?
      && w.nodes[a].phase.offer in w.nodes && w.nodes[w.nodes[a].phase.offer].up
      && var n := w.nodes[a];
         w' == Register(w, a, Attached(n, n.phase.offer, n.phase.offerLevel), false)
    case NoRoute(a, key) =>
      // the packet names the parent in a field the server does not read
      && a in w.nodes && w.nodes[a].phase.Dialing?
      && w' == SetNode(w, a, Again(Unreachable(w.nodes[a])))
               .(reqs := w.reqs + {ReqPkt(a, 0, ConnFail(key))})
    case DialError(a) =>
      && a in w.nodes && w.nodes[a].phase.Dialing?
      && w' == SetNode(w, a, if w.nodes[a].retried then GivenUp(w.nodes[a]) else Again(w.nodes[a]))
    case Confirmed(a) =>
      && a in w.nodes && w.nodes[a].phase.Registering?
      && RepPkt(a, w.nodes[a].phase.xid, RegRep) in w.reps
      && w' == SetNode(w, a, Settled(w.nodes[a]))
    case Unconfirmed(a) =>
      && a in w.nodes && w.nodes[a].phase.Registering? && !w.nodes[a].phase.asRoot
      && w' == SetNode(w, a, Settled(w.nodes[a]))
    case Reset(a) =>
      // refused, or without an answer
      && a in w.nodes && w.nodes[a].phase.Registering? && w.nodes[a].phase.asRoot
      && w' == SetNode(w, a, Again(Refused(w.nodes[a])))
    case LoseParent(a) =>
      && a in w.nodes && w.nodes[a].phase == Idle
      && w' == SetNode(w, a, w.nodes[a].(parent := None))
    case Farewell(key) =>
      w' == w.(reqs := w.reqs + {ReqPkt(key, 0, DeregReq(key))})
  }

  /** Agents start at the highest level, without a parent, and the server is empty. */
  ghost predicate Init(w: World) {
    && w.server == map[] && w.reqs == {} && w.reps == {}
    && forall a <- w.nodes ::
         a.port != 0 && w.nodes[a] == Node(MAX_LEVEL, NOBODY, None, Idle, 0, false, false)
  }

  // ---- the tree

  ghost function Parents(w: World): map<Addr, Addr> {
    map a | a in w.nodes && w.nodes[a].parent.Some? :: w.nodes[a].parent.value
  }

  ghost function Levels(w: World): map<Addr, nat> {
    map a | a in w.nodes && w.nodes[a].level >= 0 :: w.nodes[a].level
  }

  // ---- what the system says of an agent

  /** A reply its receiver is still waiting for. */
  ghost predicate LiveReply(w: World, r: RepPkt) {
    r in w.reps && r.receiver in w.nodes && w.nodes[r.receiver].phase == Asking(r.xid)
  }

  /** The server has, or may yet get, level l for agent p. */
  ghost predicate OnRecord(w: World, p: Addr, l: int) {
    || (p in w.server && w.server[p] == l && l != CROSSED_OUT)
    || (exists q :: q in w.reqs && q.req == RegReq(p, l))
  }

  /** Agent y is reading an offer of p with level l, or dialling p. */
  ghost predicate Takes(w: World, y: Addr, p: Addr, l: int) {
    && y in w.nodes
    && ((p.port != 0 && exists r :: LiveReply(w, r) && r.receiver == y && r.rep == AddrRep(p, l))
        || w.nodes[y].phase == Dialing(p, l))
  }

  /** Something the system may yet act on says that agent p has level l. */
  ghost predicate Carries(w: World, p: Addr, l: int) {
    OnRecord(w, p, l) || exists y :: Takes(w, y, p, l)
  }

  ghost predicate OnOffer(w: World, p: Addr) {
    exists l :: l < MAX_LEVEL && Carries(w, p, l)
  }

  /** The agent, or one that stands below it, may be offered to others. */
  ghost predicate Exposed(w: World, a: Addr) {
    exists d :: OnOffer(w, d) && Under(Parents(w), d, a)
  }

  // ---- the invariant

  ghost predicate LocalInv(w: World, a: Addr)
    requires a in w.nodes
  {
    var n := w.nodes[a];
    && 1 <= n.level <= MAX_LEVEL && a.port != 0
    && (n.parent.Some? ==> n.phase.Idle? || (n.phase.Registering? && !n.phase.asRoot))
    && (n.phase.Registering? && !n.phase.asRoot ==> n.parent.Some?)
    && (n.parent.Some? && n.phase.Idle? ==> n.up && !n.retried)
    && ((n.phase.Asking? || n.phase.Registering?) ==> n.phase.xid == n.lastXid)
    && (n.phase.Dialing? ==> n.phase.offerLevel < n.level && n.phase.offer == n.parentAddr != a)
    && (n.phase.Root? || (n.phase.Registering? && n.phase.asRoot) ==> n.level == 1)
    && (n.phase.Registering? && n.phase.asRoot ==> n.parentAddr.port == 0)
  }

  /** As long as the agent or one below it is on offer, its parent is of a lower level. */
  ghost predicate Tower(w: World, a: Addr)
    requires a in w.nodes
  {
    w.nodes[a].parent.Some? ==>
      var p := w.nodes[a].parent.value;
      p in w.nodes && (Exposed(w, a) ==> w.nodes[p].level < w.nodes[a].level)
  }

  /** An agent that is waiting asked with the level it still has. */
  ghost predicate AsksTruly(w: World, q: ReqPkt) {
    && RequestOk(q.req)
    && (q.sender in w.nodes ==> q.xid <= w.nodes[q.sender].lastXid)
    && (q.req.AddrReq? ==>
          && q.sender in w.nodes && q.req.addr == q.sender
          && (w.nodes[q.sender].phase == Asking(q.xid) ==> q.req.level == w.nodes[q.sender].level))
  }

  /** An offer that can still be taken up is of somebody else, and of a lower level. */
  ghost predicate OffersLower(w: World, r: RepPkt) {
    && (r.receiver in w.nodes ==> r.xid <= w.nodes[r.receiver].lastXid)
    && (LiveReply(w, r) && r.rep.AddrRep? ==>
          if r.rep.parentAddr.port == 0 then r.rep.level == 0
          else r.rep.level < w.nodes[r.receiver].level && r.rep.parentAddr != r.receiver)
  }

  /** An offer of level l is of no use to the agent. */
  ghost predicate NotAbove(n: Node, l: int) {
    n.level <= l || n.phase.Over?
  }

  /** What is said of agent p is no less than its level; or p is one of the exempt, and
      its level is of no use to anybody else. */
  ghost predicate Truthful(w: World, exempt: set<Addr>, p: Addr, l: int) {
    && p in w.nodes
    && (w.nodes[p].level <= l || (p in exempt && forall b <- w.nodes :: b != p ==> NotAbove(w.nodes[b], l)))
  }

  ghost predicate InvBut(w: World, exempt: set<Addr>) {
    && Acyclic(Parents(w)) && TableOk(w.server)
    && (forall a <- w.nodes :: LocalInv(w, a) && Tower(w, a))
    && (forall p, l :: Carries(w, p, l) ==> Truthful(w, exempt, p, l))
    && (forall q <- w.reqs :: AsksTruly(w, q))
    && (forall r <- w.reps :: OffersLower(w, r))
  }

  ghost predicate Inv(w: World) {
    InvBut(w, {})
  }

  lemma InitInv(w: World)
    requires Init(w)
    ensures Inv(w)
  {
    assert Parents(w) == map[];
    forall x, k: nat | Path(Parents(w), x, k, x) ensures k == 0 {
    }
  }

  // ---- what a step adds to what is said

  /** A step of agent a: its level does not rise, and no packet but its own is new. */
  ghost predicate NodeStep(w: World, w': World, a: Addr) {
    && a in w.nodes && a in w'.nodes && w'.nodes == w.nodes[a := w'.nodes[a]]
    && w'.server == w.server && w'.reps == w.reps && w.reqs <= w'.reqs
    && w'.nodes[a].level <= w.nodes[a].level && w.nodes[a].lastXid <= w'.nodes[a].lastXid
    && (w.nodes[a].phase.Over? ==> w'.nodes[a].phase.Over?)
    && (w'.nodes[a].phase.Asking? ==> w'.nodes[a].phase.xid > w.nodes[a].lastXid)
    && (w'.nodes[a].phase.Dialing? ==> Carries(w, w'.nodes[a].phase.offer, w'.nodes[a].phase.offerLevel))
    && forall q <- w'.reqs :: q in w.reqs ||
         (AsksTruly(w', q) && q.sender == a && (q.req.RegReq? ==> q.req == RegReq(a, w'.nodes[a].level)))
  }

  lemma CarriersComeFrom(w: World, w': World, a: Addr, p: Addr, l: int)
    requires NodeStep(w, w', a) && (forall r <- w.reps :: OffersLower(w, r)) && Carries(w', p, l)
    ensures Carries(w, p, l) || (p == a && l == w'.nodes[a].level && exists q :: q in w'.reqs && q.req == RegReq(p, l))
  {
    if q :| q in w'.reqs && q.req == RegReq(p, l) {
      assert q in w.reqs ==> OnRecord(w, p, l);
    } else if y :| Takes(w', y, p, l) {
      if r :| LiveReply(w', r) && r.receiver == y && r.rep == AddrRep(p, l) && p.port != 0 {
        assert OffersLower(w, r) && r.receiver != a && LiveReply(w, r);
        assert Takes(w, y, p, l);
      } else if y != a {
        assert Takes(w, y, p, l);
      }
    }
  }

  /** Nothing is said in w' that was not said in w, and nobody has a new parent. */
  ghost predicate SaysLess(w: World, w': World) {
    && Within(Parents(w'), Parents(w))
    && forall p, l :: Carries(w', p, l) ==> Carries(w, p, l)
  }

  lemma LessExposed(w: World, w': World, a: Addr)
    requires SaysLess(w, w') && Exposed(w', a)
    ensures Exposed(w, a)
  {
    var d :| OnOffer(w', d) && Under(Parents(w'), d, a);
    var l :| l < MAX_LEVEL && Carries(w', d, l);
    assert OnOffer(w, d);
    var k: nat :| Path(Parents(w'), d, k, a);
    PathWithin(Parents(w'), Parents(w), d, k, a);
  }

  lemma ExposedByParentage(w: World, d: Addr, k: nat, x: Addr)
    requires OnOffer(w, d) && Path(Parents(w), d, k, x)
    ensures Exposed(w, x)
  {
  }

  /** Up from an agent on offer, levels fall. */
  lemma {:induction false} LevelsFallUpwards(w: World, exempt: set<Addr>, d: Addr, k: nat, x: Addr)
    requires InvBut(w, exempt) && OnOffer(w, d) && d in w.nodes && Path(Parents(w), d, k, x)
    ensures x in w.nodes && w.nodes[x].level + k <= w.nodes[d].level
    decreases k
  {
    if k > 0 {
      var c := PathLast(Parents(w), d, k, x);
      LevelsFallUpwards(w, exempt, d, k - 1, c);
      ExposedByParentage(w, d, k - 1, c);
      assert Tower(w, c);
    }
  }

  // ---- steps that lower or keep levels

  /** What an agent says of itself does not concern others, unless they are below it. */
  lemma NodeExposes(w: World, w': World, a: Addr, x: Addr)
    requires NodeStep(w, w', a) && (forall r <- w.reps :: OffersLower(w, r))
    requires Within(Parents(w'), Parents(w)) && (w'.nodes[a].parent.None? || w'.nodes[a].phase.Idle?)
    requires (forall q <- w'.reqs :: q !in w.reqs && q.req.RegReq? ==> w'.nodes[a].parent.None?)
    requires Exposed(w', x)
    ensures Exposed(w, x) || (x == a && w'.nodes[a].parent.None?)
  {
    var d :| OnOffer(w', d) && Under(Parents(w'), d, x);
    var l :| l < MAX_LEVEL && Carries(w', d, l);
    var k: nat :| Path(Parents(w'), d, k, x);
    PathWithin(Parents(w'), Parents(w), d, k, x);
    CarriersComeFrom(w, w', a, d, l);
    if Carries(w, d, l) {
      assert OnOffer(w, d);
    }
  }

  /** The common part: one agent changes, takes no parent, and its level does not rise. */
  lemma NodeStepKeeps(w: World, w': World, a: Addr, exempt: set<Addr>)
    requires InvBut(w, exempt) && NodeStep(w, w', a) && LocalInv(w', a)
    requires w'.nodes[a].parent == w.nodes[a].parent || w'.nodes[a].parent == None
    requires w'.nodes[a].parent.Some? ==> w'.nodes[a].level == w.nodes[a].level && w'.nodes[a].phase.Idle?
    requires forall q <- w'.reqs :: q !in w.reqs && q.req.RegReq? ==> w'.nodes[a].parent.None?
    ensures InvBut(w', exempt)
  {
    AcyclicWithin(Parents(w'), Parents(w));
    forall x <- w'.nodes ensures LocalInv(w', x) && Tower(w', x) {
      assert LocalInv(w, x) && Tower(w, x);
      if Exposed(w', x) {
        NodeExposes(w, w', a, x);
      }
    }
    SaysTheSame(w, w', a, exempt);
  }

  lemma SaysTheSame(w: World, w': World, a: Addr, exempt: set<Addr>)
    requires InvBut(w, exempt) && NodeStep(w, w', a)
    ensures forall p, l :: Carries(w', p, l) ==> Truthful(w', exempt, p, l)
    ensures (forall q <- w'.reqs :: AsksTruly(w', q)) && (forall r <- w'.reps :: OffersLower(w', r))
  {
    forall p, l | Carries(w', p, l) ensures Truthful(w', exempt, p, l) {
      CarriersComeFrom(w, w', a, p, l);
      assert Carries(w, p, l) ==> Truthful(w, exempt, p, l);
    }
    forall r <- w'.reps ensures OffersLower(w', r) {
      assert OffersLower(w, r);
      assert LiveReply(w', r) ==> LiveReply(w, r) && r.receiver != a;
    }
    forall q <- w'.reqs ensures AsksTruly(w', q) {
      if q in w.reqs {
        assert AsksTruly(w, q);
      }
    }
  }

  lemma AskKeeps(w: World, a: Addr, w': World, exempt: set<Addr>)
    requires InvBut(w, exempt) && Next(w, Ask(a), w')
    ensures InvBut(w', exempt)
  {
    assert LocalInv(w, a);
    NodeStepKeeps(w, w', a, exempt);
  }

  lemma OfferedKeeps(w: World, a: Addr, p: Addr, l: int, w': World, exempt: set<Addr>)
    requires InvBut(w, exempt) && Next(w, Offered(a, p, l), w')
    ensures InvBut(w', exempt)
  {
    assert LocalInv(w, a);
    var r := RepPkt(a, w.nodes[a].phase.xid, AddrRep(p, l));
    assert OffersLower(w, r) && LiveReply(w, r);
    if p.port != 0 {
      assert Takes(w, a, p, l);
    }
    NodeStepKeeps(w, w', a, exempt);
  }

  /** An agent that takes p is not above it. */
  lemma TakenIsNotBelow(w: World, a: Addr, p: Addr, l: int, exempt: set<Addr>)
    requires InvBut(w, exempt) && Takes(w, a, p, l) && l < w.nodes[a].level && a != p
    ensures p in w.nodes && w.nodes[p].level <= l && OnOffer(w, p)
    ensures !Under(Parents(w), p, a)
  {
    assert Carries(w, p, l) && Truthful(w, exempt, p, l) && LocalInv(w, a);
    if k: nat :| Path(Parents(w), p, k, a) {
      LevelsFallUpwards(w, exempt, p, k, a);
      assert false;
    }
  }

  lemma DialledKeeps(w: World, a: Addr, w': World, exempt: set<Addr>)
    requires InvBut(w, exempt) && Next(w, Dialled(a), w')
    ensures InvBut(w', exempt)
  {
    var p, l := w.nodes[a].phase.offer, w.nodes[a].phase.offerLevel;
    assert LocalInv(w, a) && Takes(w, a, p, l);
    TakenIsNotBelow(w, a, p, l, exempt);
    assert LocalInv(w, p);
    DialledIsNodeStep(w, a, w');
    AttachingKeepsAcyclic(Parents(w), a, p);
    SaysTheSame(w, w', a, exempt);
    forall x <- w'.nodes ensures LocalInv(w', x) && Tower(w', x) {
      DialledTower(w, a, w', p, l, exempt, x);
    }
  }

  lemma DialledIsNodeStep(w: World, a: Addr, w': World)
    requires Next(w, Dialled(a), w') && LocalInv(w, a) && 0 <= w.nodes[a].phase.offerLevel
    ensures NodeStep(w, w', a) && Parents(w') == Parents(w)[a := w.nodes[a].phase.offer] && a !in Parents(w)
  {
  }

  lemma DialledTower(w: World, a: Addr, w': World, p: Addr, l: int, exempt: set<Addr>, x: Addr)
    requires InvBut(w, exempt) && Next(w, Dialled(a), w') && w.nodes[a].phase == Dialing(p, l)
    requires p in w.nodes && 1 <= w.nodes[p].level <= l && OnOffer(w, p) && !Under(Parents(w), p, a)
    requires NodeStep(w, w', a) && Parents(w') == Parents(w)[a := p] && x in w'.nodes
    ensures LocalInv(w', x) && Tower(w', x)
  {
    assert LocalInv(w, x) && Tower(w, x);
    if x == a {
      NewcomerIsSound(w, a, w', p, l);
    } else if Exposed(w', x) {
      AttachExposes(w, w', a, p, x, exempt);
    }
  }

  lemma NewcomerIsSound(w: World, a: Addr, w': World, p: Addr, l: int)
    requires Next(w, Dialled(a), w') && w.nodes[a].phase == Dialing(p, l) && LocalInv(w, a)
    requires p in w.nodes && 1 <= w.nodes[p].level <= l
    ensures LocalInv(w', a) && Tower(w', a)
  {
  }

  /** Whom an attachment exposes, other than the newcomer, was exposed before. */
  lemma AttachExposes(w: World, w': World, a: Addr, p: Addr, x: Addr, exempt: set<Addr>)
    requires InvBut(w, exempt) && NodeStep(w, w', a) && a !in Parents(w) && Parents(w') == Parents(w)[a := p]
    requires OnOffer(w, p) && !Under(Parents(w), p, a) && Exposed(w', x) && x != a
    ensures Exposed(w, x)
  {
    var d :| OnOffer(w', d) && Under(Parents(w'), d, x);
    var l :| l < MAX_LEVEL && Carries(w', d, l);
    var k: nat :| Path(Parents(w'), d, k, x);
    CarriersComeFrom(w, w', a, d, l);
    PathAfterAttaching(Parents(w), a, p, d, k, x);
    if Path(Parents(w), d, k, x) {
      assert d == a ==> k == 0;
      assert OnOffer(w, d);
    }
  }

  /** The steps in which an agent only moves to another place in the loop. */
  lemma QuietStepKeeps(w: World, s: Step, w': World, exempt: set<Addr>)
    requires InvBut(w, exempt) && Next(w, s, w')
    requires s.Unanswered? || s.NoRoute? || s.DialError? || s.Confirmed? || s.Unconfirmed? || s.LoseParent?
    ensures InvBut(w', exempt)
  {
    assert LocalInv(w, s.a);
    NodeStepKeeps(w, w', s.a, exempt);
  }

  /** What only takes something back keeps everything. */
  lemma SayingLessKeeps(w: World, w': World, exempt: set<Addr>)
    requires InvBut(w, exempt) && SaysLess(w, w') && w'.nodes == w.nodes && TableOk(w'.server)
    requires (forall q <- w'.reqs :: AsksTruly(w', q)) && (forall r <- w'.reps :: OffersLower(w', r))
    ensures InvBut(w', exempt)
  {
    AcyclicWithin(Parents(w'), Parents(w));
    forall x <- w'.nodes ensures LocalInv(w', x) && Tower(w', x) {
      assert LocalInv(w, x) && Tower(w, x);
      if Exposed(w', x) {
        LessExposed(w, w', x);
      }
    }
    forall p, l | Carries(w', p, l) ensures Truthful(w', exempt, p, l) {
      assert Truthful(w, exempt, p, l);
    }
  }

  /** Losing packets, and agents that say goodbye, add nothing to what is said. */
  lemma PacketStepKeeps(w: World, s: Step, w': World, exempt: set<Addr>)
    requires InvBut(w, exempt) && Next(w, s, w')
    requires s.LoseRequest? || s.LoseReply? || s.Farewell?
    ensures InvBut(w', exempt)
  {
    forall p, l | Carries(w', p, l) ensures Carries(w, p, l) {
      if y :| Takes(w', y, p, l) {
        if r :| LiveReply(w', r) && r.receiver == y && r.rep == AddrRep(p, l) {
          assert LiveReply(w, r);
        }
        assert Takes(w, y, p, l);
      }
    }
    forall r <- w'.reps ensures OffersLower(w', r) {
      assert OffersLower(w, r) && (LiveReply(w', r) ==> LiveReply(w, r));
    }
    forall q <- w'.reqs | q in w.reqs ensures AsksTruly(w', q) {
      assert AsksTruly(w, q);
    }
    SayingLessKeeps(w, w', exempt);
  }

  /** What the server says of anybody, it was told. */
  lemma ServeSaysNothingNew(w: World, pkt: ReqPkt, keep: bool, rep: Reply, w': World, p: Addr, l: int)
    requires Next(w, Serve(pkt, keep, rep), w') && Carries(w', p, l)
    ensures Carries(w, p, l)
  {
    if p in w'.server && w'.server[p] == l && l != CROSSED_OUT {
      if pkt.req.RegReq? && p == pkt.req.addr && w'.server != w.server {
        assert pkt.req == RegReq(p, l);
      }
    } else if q :| q in w'.reqs && q.req == RegReq(p, l) {
      assert q in w.reqs;
    } else if y :| Takes(w', y, p, l) {
      if r :| LiveReply(w', r) && r.receiver == y && r.rep == AddrRep(p, l) && p.port != 0 {
        assert r in w.reps ==> LiveReply(w, r);
        assert r in w.reps ==> Takes(w, y, p, l);
      } else {
        assert Takes(w, y, p, l);
      }
    }
  }

  lemma ServeKeeps(w: World, pkt: ReqPkt, keep: bool, rep: Reply, w': World, exempt: set<Addr>)
    requires InvBut(w, exempt) && Next(w, Serve(pkt, keep, rep), w')
    ensures InvBut(w', exempt)
  {
    forall p, l | Carries(w', p, l) ensures Carries(w, p, l) {
      ServeSaysNothingNew(w, pkt, keep, rep, w', p, l);
    }
    assert AsksTruly(w, pkt);
    ServerStepKeepsTable(w.server, pkt.req, w'.server, rep);
    forall q <- w'.reqs ensures AsksTruly(w', q) {
      assert AsksTruly(w, q);
    }
    forall r <- w'.reps ensures OffersLower(w', r) {
      if r in w.reps {
        assert OffersLower(w, r) && (LiveReply(w', r) ==> LiveReply(w, r));
      }
    }
    SayingLessKeeps(w, w', exempt);
  }

  // ---- the step that raises a level

  /** A reset changes nothing but the agent's level. */
  lemma ResetSaysTheSame(w: World, a: Addr, w': World)
    requires Next(w, Reset(a), w')
    ensures Parents(w') == Parents(w)
    ensures forall p, l :: Carries(w', p, l) <==> Carries(w, p, l)
    ensures forall x :: Exposed(w', x) <==> Exposed(w, x)
  {
    forall p, l ensures Carries(w', p, l) <==> Carries(w, p, l) {
      SameCarriers(w, w', a, p, l);
      SameCarriers(w', w, a, p, l);
    }
    assert SaysLess(w, w') && SaysLess(w', w);
    forall x ensures Exposed(w', x) <==> Exposed(w, x) {
      if Exposed(w, x) {
        LessExposed(w', w, x);
      }
      if Exposed(w', x) {
        LessExposed(w, w', x);
      }
    }
  }

  lemma SameCarriers(w: World, w': World, a: Addr, p: Addr, l: int)
    requires a in w.nodes && a in w'.nodes && w'.nodes == w.nodes[a := w'.nodes[a]]
    requires w'.server == w.server && w'.reqs == w.reqs && w'.reps == w.reps
    requires !w.nodes[a].phase.Asking? && !w.nodes[a].phase.Dialing?
    ensures Carries(w, p, l) ==> Carries(w', p, l)
  {
    if y :| Takes(w, y, p, l) {
      if r :| LiveReply(w, r) && r.receiver == y && r.rep == AddrRep(p, l) && p.port != 0 {
        assert LiveReply(w', r);
      }
      assert Takes(w', y, p, l);
    }
  }

  /** No child of a is exposed. */
  ghost predicate ChildrenHidden(w: World, a: Addr) {
    forall x <- w.nodes :: w.nodes[x].parent == Some(a) ==> !Exposed(w, x)
  }

  lemma ExposedExactly(w: World, a: Addr)
    ensures Exposed(w, a) <==> OnOffer(w, a) || !ChildrenHidden(w, a)
  {
    if OnOffer(w, a) {
      ExposedByParentage(w, a, 0, a);
    }
    if x :| x in w.nodes && w.nodes[x].parent == Some(a) && Exposed(w, x) {
      var d :| OnOffer(w, d) && Under(Parents(w), d, x);
      var k: nat :| Path(Parents(w), d, k, x);
      assert Parents(w)[x] == a && Path(Parents(w), a, 0, a);
      assert Path(Parents(w), x, 1, a);
      PathConcat(Parents(w), d, k, x, 1, a);
      ExposedByParentage(w, d, k + 1, a);
    }
    if Exposed(w, a) {
      var d :| OnOffer(w, d) && Under(Parents(w), d, a);
      var k: nat :| Path(Parents(w), d, k, a);
      if k > 0 {
        var c := PathLast(Parents(w), d, k, a);
        ExposedByParentage(w, d, k - 1, c);
      }
    }
  }

  /** A reset by an agent with no exposed child, of which others are told nothing they
      could use, keeps the invariant but for that agent. */
  lemma HiddenResetKeeps(w: World, a: Addr, w': World, exempt: set<Addr>)
    requires Inv(w) && Next(w, Reset(a), w') && ChildrenHidden(w, a)
    requires forall l :: Carries(w, a, l) ==> Truthful(w', exempt, a, l)
    ensures InvBut(w', exempt)
  {
    ResetSaysTheSame(w, a, w');
    forall x <- w'.nodes ensures LocalInv(w', x) && Tower(w', x) {
      assert LocalInv(w, x) && Tower(w, x);
    }
    forall p, l | Carries(w', p, l) ensures Truthful(w', exempt, p, l) {
      assert Truthful(w, {}, p, l);
    }
    forall r <- w'.reps ensures OffersLower(w', r) {
      assert OffersLower(w, r) && (LiveReply(w', r) ==> LiveReply(w, r));
    }
    forall q <- w'.reqs ensures AsksTruly(w', q) {
      assert AsksTruly(w, q);
    }
  }

  /** Resetting a level keeps the invariant exactly when neither the agent nor anybody
      below it may be offered to others. */
  lemma ResetKeepsExactly(w: World, a: Addr, w': World)
    requires Inv(w) && Next(w, Reset(a), w')
    ensures Inv(w') <==> !Exposed(w, a)
  {
    ExposedExactly(w, a);
    if Exposed(w, a) {
      ExposedResetSpoils(w, a, w');
    } else {
      forall l | Carries(w, a, l) ensures Truthful(w', {}, a, l) {
        assert Truthful(w, {}, a, l);
      }
      HiddenResetKeeps(w, a, w', {});
    }
  }

  lemma ExposedResetSpoils(w: World, a: Addr, w': World)
    requires Inv(w) && Next(w, Reset(a), w') && (OnOffer(w, a) || !ChildrenHidden(w, a))
    ensures !Inv(w')
  {
    ResetSaysTheSame(w, a, w');
    if l :| l < MAX_LEVEL && Carries(w, a, l) {
      assert Carries(w', a, l) && !Truthful(w', {}, a, l);
    } else {
      var x :| x in w.nodes && w.nodes[x].parent == Some(a) && Exposed(w, x);
      assert LocalInv(w, x) && LocalInv(w, a);
      assert !Tower(w', x);
    }
  }

  // ---- every run

  /** A step of the kind the theorem is about: no agent resets its level while it, or one
      below it, may be offered to others. */
  ghost predicate CarefulStep(w: World, w': World) {
    exists s :: Next(w, s, w') && (s.Reset? ==> !Exposed(w, s.a))
  }

  lemma OtherStepKeeps(w: World, s: Step, w': World, exempt: set<Addr>)
    requires InvBut(w, exempt) && Next(w, s, w') && !s.Reset?
    ensures InvBut(w', exempt)
  {
    match s
    case Ask(a) => AskKeeps(w, a, w', exempt);
    case Serve(pkt, keep, rep) => ServeKeeps(w, pkt, keep, rep, w', exempt);
    case Offered(a, p, l) => OfferedKeeps(w, a, p, l, w', exempt);
    case Dialled(a) => DialledKeeps(w, a, w', exempt);
    case LoseRequest(_) => PacketStepKeeps(w, s, w', exempt);
    case LoseReply(_) => PacketStepKeeps(w, s, w', exempt);
    case Farewell(_) => PacketStepKeeps(w, s, w', exempt);
    case Reset(_) => assert false;
    case _ => QuietStepKeeps(w, s, w', exempt);
  }

  lemma StepKeeps(w: World, s: Step, w': World)
    requires Inv(w) && Next(w, s, w') && (s.Reset? ==> !Exposed(w, s.a))
    ensures Inv(w')
  {
    if s.Reset? {
      ResetKeepsExactly(w, s.a, w');
    } else {
      OtherStepKeeps(w, s, w', {});
    }
  }

  ghost predicate CarefulRun(run: seq<World>) {
    && run != [] && Init(run[0])
    && forall i :: 0 <= i < |run| - 1 ==> CarefulStep(run[i], run[i + 1])
  }

  lemma {:induction false} CarefulRunInv(run: seq<World>, k: nat)
    requires CarefulRun(run) && k < |run|
    ensures Inv(run[k])
  {
    if k == 0 {
      InitInv(run[0]);
    } else {
      CarefulRunInv(run, k - 1);
      assert CarefulStep(run[k - 1], run[k - 1 + 1]);
      var s :| Next(run[k - 1], s, run[k]) && (s.Reset? ==> !Exposed(run[k - 1], s.a));
      StepKeeps(run[k - 1], s, run[k]);
    }
  }

  /** The overlay stays acyclic in every run in which no agent resets its level while it,
      or one below it, may be offered to others. */
  lemma OverlayStaysAcyclic(run: seq<World>, i: nat, a: Addr, k: nat)
    requires CarefulRun(run) && i < |run| && k > 0 && HasAncestor(Parents(run[i]), a, k)
    ensures Ancestor(Parents(run[i]), a, k) != a
  {
    CarefulRunInv(run, i);
    assert !Path(Parents(run[i]), a, k, a);
  }

  /** Nothing remembers the agent at a lower level than the one it is about to take. */
  ghost predicate Unencumbered(w: World, a: Addr) {
    (forall x <- w.nodes :: w.nodes[x].parent != Some(a)) && !OnOffer(w, a)
  }

  ghost predicate ChildlessRun(run: seq<World>) {
    && run != [] && Init(run[0])
    && forall i :: 0 <= i < |run| - 1 ==> ChildlessStep(run[i], run[i + 1])
  }

  /** A careful step, in which an agent that resets its level has no children at all. */
  ghost predicate ChildlessStep(w: World, w': World) {
    exists s :: Next(w, s, w') && (s.Reset? ==> Unencumbered(w, s.a))
  }

  lemma LevelledKept(w: World, s: Step, w': World)
    requires Inv(w) && Levelled(Parents(w), Levels(w)) && forall a <- w'.nodes :: LocalInv(w', a) && Tower(w', a)
    requires Next(w, s, w') && (s.Reset? ==> Unencumbered(w, s.a))
    ensures Levelled(Parents(w'), Levels(w'))
  {
    forall x | x in Parents(w')
      ensures x in Levels(w') && Parents(w')[x] in Levels(w') && Levels(w')[Parents(w')[x]] < Levels(w')[x] {
      assert LocalInv(w', x) && Tower(w', x) && LocalInv(w', Parents(w')[x]);
      LevelledAt(w, s, w', x);
    }
  }

  lemma LevelledAt(w: World, s: Step, w': World, x: Addr)
    requires Inv(w) && Levelled(Parents(w), Levels(w)) && Next(w, s, w') && (s.Reset? ==> Unencumbered(w, s.a))
    requires x in Parents(w') && Parents(w')[x] in w'.nodes
    ensures w'.nodes[Parents(w')[x]].level < w'.nodes[x].level
  {
    if s == Dialled(x) {
      NewcomerIsHigher(w, x, w');
    } else {
      ChildStays(w, s, w', x);
      LevelsNeverRise(w, s, w', Parents(w')[x]);
    }
  }

  lemma NewcomerIsHigher(w: World, x: Addr, w': World)
    requires Inv(w) && Next(w, Dialled(x), w')
    ensures x in Parents(w') && Parents(w')[x] in w'.nodes && w'.nodes[Parents(w')[x]].level < w'.nodes[x].level
  {
    var p, l := w.nodes[x].phase.offer, w.nodes[x].phase.offerLevel;
    assert LocalInv(w, x) && Takes(w, x, p, l);
    TakenIsNotBelow(w, x, p, l, {});
    assert LocalInv(w, p);
  }

  /** The agent a step is made by, if it is one of the agents' steps. */
  function Actor(s: Step): Option<Addr> {
    match s
    case Ask(a) => Some(a)
    case Unanswered(a) => Some(a)
    case Offered(a, _, _) => Some(a)
    case Dialled(a) => Some(a)
    case NoRoute(a, _) => Some(a)
    case DialError(a) => Some(a)
    case Confirmed(a) => Some(a)
    case Unconfirmed(a) => Some(a)
    case Reset(a) => Some(a)
    case LoseParent(a) => Some(a)
    case _ => None
  }

  lemma OthersStay(w: World, s: Step, w': World, x: Addr)
    requires Next(w, s, w') && Actor(s) != Some(x)
    ensures x in w'.nodes <==> x in w.nodes
    ensures x in w.nodes ==> w'.nodes[x] == w.nodes[x]
  {
  }

  /** An agent with a parent that it had before has its level still, and stands below it. */
  lemma ChildStays(w: World, s: Step, w': World, x: Addr)
    requires Inv(w) && Levelled(Parents(w), Levels(w)) && Next(w, s, w') && x in Parents(w') && s != Dialled(x)
    ensures Parents(w')[x] in w.nodes && w.nodes[Parents(w')[x]].level < w.nodes[x].level == w'.nodes[x].level
    ensures s.Reset? ==> w.nodes[x].parent == Some(Parents(w')[x])
  {
    ParentStays(w, s, w', x);
    assert x in Parents(w) && LocalInv(w, x) && Tower(w, x);
    assert Levels(w)[Parents(w)[x]] < Levels(w)[x];
  }

  lemma ParentStays(w: World, s: Step, w': World, x: Addr)
    requires (forall a <- w.nodes :: LocalInv(w, a)) && Next(w, s, w') && x in Parents(w') && s != Dialled(x)
    ensures x in w.nodes && w.nodes[x].parent == w'.nodes[x].parent && w'.nodes[x].level == w.nodes[x].level
  {
    if Actor(s) != Some(x) {
      OthersStay(w, s, w', x);
    } else {
      assert LocalInv(w, x);
    }
  }

  /** If the agents that reset their level have no children either, each parent is always
      of a strictly lower level than its child. */
  lemma {:induction false} ParentsStayLower(run: seq<World>, k: nat)
    requires ChildlessRun(run) && k < |run|
    ensures Inv(run[k]) && Levelled(Parents(run[k]), Levels(run[k]))
  {
    if k == 0 {
      InitInv(run[0]);
    } else {
      ParentsStayLower(run, k - 1);
      assert ChildlessStep(run[k - 1], run[k - 1 + 1]);
      var s :| Next(run[k - 1], s, run[k]) && (s.Reset? ==> Unencumbered(run[k - 1], s.a));
      if s.Reset? {
        ExposedExactly(run[k - 1], s.a);
      }
      StepKeeps(run[k - 1], s, run[k]);
      LevelledKept(run[k - 1], s, run[k]);
    }
  }

  /** So an agent k steps above another is at least k levels below it. */
  lemma AncestorsStayLower(run: seq<World>, i: nat, a: Addr, k: nat)
    requires ChildlessRun(run) && i < |run| && k > 0 && HasAncestor(Parents(run[i]), a, k)
    ensures var top := Ancestor(Parents(run[i]), a, k);
            && a in run[i].nodes && top in run[i].nodes
            && run[i].nodes[top].level + k <= run[i].nodes[a].level
  {
    ParentsStayLower(run, i);
    AncestorsAreLower(Parents(run[i]), Levels(run[i]), a, k);
  }

  /** Apart from resets, levels never rise. */
  lemma LevelsNeverRise(w: World, s: Step, w': World, a: Addr)
    requires Inv(w) && Next(w, s, w') && a in w.nodes && !(s == Reset(a))
    ensures a in w'.nodes && w'.nodes[a].level <= w.nodes[a].level
  {
    assert LocalInv(w, a);
    if s.Offered? && s.a == a {
      var r := RepPkt(a, w.nodes[a].phase.xid, AddrRep(s.p, s.l));
      assert OffersLower(w, r) && LiveReply(w, r);
    }
    if s == Dialled(a) {
      DialledIsLower(w, a, w');
    }
  }

  lemma DialledIsLower(w: World, a: Addr, w': World)
    requires Inv(w) && Next(w, Dialled(a), w')
    ensures a in w'.nodes && w'.nodes[a].level <= w.nodes[a].level
  {
    var p, l := w.nodes[a].phase.offer, w.nodes[a].phase.offerLevel;
    assert LocalInv(w, a) && Takes(w, a, p, l);
    TakenIsNotBelow(w, a, p, l, {});
    assert LocalInv(w, p);
  }
}
