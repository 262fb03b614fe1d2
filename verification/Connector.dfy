// The retry loop of FTBN_Connect itself, for an agent, with the network's behaviour as
// a script (src/manager_lib/network/network_sock/ftb_network_tcp.c:320-392).
module Connector {
  import opened BootstrapServer
  import opened Topology

  datatype Dial = NoSuchRoute | Broken | Accepted

  /** What the network does in one round: the server is silent; or offers nobody, and
      takes the registration as root or not; or offers p of level l, who is dialled. */
  datatype Round =
    | Silence
    | Nobody(registered: bool)
    | Offer(p: Addr, l: int, dial: Dial)

  datatype Outcome = Connected | GaveUp | Pending

  /** The variables after a round, as the steps of Topology.dfy change them. */
  function After(n: Node, r: Round): Node {
    match r
    case Silence => Unheard(n)
    case Nobody(registered) =>
      var root := AsRoot(n, NOBODY, 0);
      if registered then root else Refused(root)
    case Offer(p, l, dial) =>
      var told := n.(parentAddr := p);
      match dial
      case NoSuchRoute => Unreachable(told)
      case Broken => told
      case Accepted => Attached(told, p, l)
  }

  function Play(n: Node, rounds: seq<Round>): Node
    decreases |rounds|
  {
    if rounds == [] then n else Play(After(n, rounds[0]), rounds[1..])
  }

  predicate Succeeds(r: Round) {
    (r.Nobody? && r.registered) || (r.Offer? && r.dial == Accepted)
  }

  /** A failure the retry counter is not reset for. */
  predicate CountsAgainst(r: Round) {
    r.Silence? || (r.Offer? && r.dial == Broken)
  }

  /** Round k ends the loop: by success, or as a counted failure that is not the first
      round of all. */
  predicate Ends(rounds: seq<Round>, k: nat)
    requires k < |rounds|
  {
    Succeeds(rounds[k]) || (k > 0 && CountsAgainst(rounds[k]))
  }

  // ---- the rounds as steps of the topology

  /** Agent a, whose variables are n, makes step s in some surroundings, and then they
      are n'. */
  ghost predicate Own(a: Addr, n: Node, s: Step, n': Node) {
    exists w, w' :: OwnIn(a, n, s, n', w, w')
  }

  ghost predicate OwnIn(a: Addr, n: Node, s: Step, n': Node, w: World, w': World) {
    && a in w.nodes && w.nodes[a] == n && a in w'.nodes && w'.nodes[a] == n' && Next(w, s, w')
  }

  /** Agent a asks, and the answer is an offer of p with level l. */
  ghost predicate Told(a: Addr, n: Node, p: Addr, l: int, n': Node) {
    exists mid :: Own(a, n, Ask(a), mid) && Own(a, mid, Offered(a, p, l), n')
  }

  /** The steps of agent a that make a round; others may make steps in between. The
      registration below a parent may fail, and the parent reported lost may be any. */
  ghost predicate Makes(a: Addr, n: Node, r: Round, n': Node) {
    match r
    case Silence => exists mid :: Own(a, n, Ask(a), mid) && Own(a, mid, Unanswered(a), n')
    case Nobody(true) => exists mid :: Told(a, n, NOBODY, 0, mid) && Own(a, mid, Confirmed(a), n')
    case Nobody(false) => exists mid :: Told(a, n, NOBODY, 0, mid) && Own(a, mid, Reset(a), n')
    case Offer(p, l, NoSuchRoute) => exists mid, key :: Told(a, n, p, l, mid) && Own(a, mid, NoRoute(a, key), n')
    case Offer(p, l, Broken) => exists mid :: Told(a, n, p, l, mid) && Own(a, mid, DialError(a), n')
    case Offer(p, l, Accepted) =>
      exists mid, child :: Told(a, n, p, l, mid) && Own(a, mid, Dialled(a), child) && Leaves(a, child, n')
  }

  ghost predicate Leaves(a: Addr, n: Node, n': Node) {
    Own(a, n, Confirmed(a), n') || Own(a, n, Unconfirmed(a), n')
  }

  /** What a round makes of an agent that is in the loop. */
  function Through(n: Node, r: Round): Node {
    match r
    case Silence => if n.retried then Unheard(n).(phase := Over, up := false) else Again(Unheard(n))
    case Nobody(registered) =>
      var root := AsRoot(n, NOBODY, 0).(phase := Registering(0, true));
      if registered then Settled(root) else Again(Refused(root))
    case Offer(p, l, dial) =>
      var told := n.(parentAddr := p);
      match dial
      case NoSuchRoute => Again(Unreachable(told))
      case Broken => if told.retried then GivenUp(told) else Again(told)
      case Accepted => Settled(Attached(told, p, l))
  }

  /** The same but for the number of the last socket. */
  ghost predicate Same(n: Node, m: Node) {
    n == m.(lastXid := n.lastXid)
  }

  ghost predicate Entering(n: Node) {
    n.phase == Idle && n.parent == None
  }

  /** A server's offer has a port to dial. */
  ghost predicate Dialable(r: Round) {
    r.Offer? ==> r.p.port != 0
  }

  /** Exactly that is what the steps of the topology make of it. */
  lemma RoundIsThrough(a: Addr, n: Node, r: Round, n': Node)
    requires Entering(n) && Dialable(r) && Makes(a, n, r, n')
    ensures Same(n', Through(n, r))
  {
    match r
    case Silence =>
      var mid :| Own(a, n, Ask(a), mid) && Own(a, mid, Unanswered(a), n');
      AskOwn(a, n, mid);
      UnansweredOwn(a, mid, n');
    case Nobody(true) => RootIsThrough(a, n, n');
    case Nobody(false) => RefusalIsThrough(a, n, n');
    case Offer(p, l, dial) =>
      if dial.Accepted? {
        ChildIsThrough(a, n, p, l, n');
      } else {
        MissIsThrough(a, n, p, l, dial, n');
      }
  }

  lemma RootIsThrough(a: Addr, n: Node, n': Node)
    requires Entering(n) && Makes(a, n, Nobody(true), n')
    ensures Same(n', Through(n, Nobody(true)))
  {
    var mid :| Told(a, n, NOBODY, 0, mid) && Own(a, mid, Confirmed(a), n');
    ToldOwn(a, n, NOBODY, 0, mid);
    assert Leaves(a, mid, n');
    LeavesOwn(a, mid, n');
  }

  lemma RefusalIsThrough(a: Addr, n: Node, n': Node)
    requires Entering(n) && Makes(a, n, Nobody(false), n')
    ensures Same(n', Through(n, Nobody(false)))
  {
    var mid :| Told(a, n, NOBODY, 0, mid) && Own(a, mid, Reset(a), n');
    ToldOwn(a, n, NOBODY, 0, mid);
    ResetOwn(a, mid, n');
  }

  lemma MissIsThrough(a: Addr, n: Node, p: Addr, l: int, dial: Dial, n': Node)
    requires Entering(n) && p.port != 0 && !dial.Accepted? && Makes(a, n, Offer(p, l, dial), n')
    ensures Same(n', Through(n, Offer(p, l, dial)))
  {
    if dial.NoSuchRoute? {
      var mid, key :| Told(a, n, p, l, mid) && Own(a, mid, NoRoute(a, key), n');
      ToldOwn(a, n, p, l, mid);
      NoRouteOwn(a, mid, key, n');
    } else {
      var mid :| Told(a, n, p, l, mid) && Own(a, mid, DialError(a), n');
      ToldOwn(a, n, p, l, mid);
      DialErrorOwn(a, mid, n');
    }
  }

  lemma ChildIsThrough(a: Addr, n: Node, p: Addr, l: int, n': Node)
    requires Entering(n) && p.port != 0 && Makes(a, n, Offer(p, l, Accepted), n')
    ensures Same(n', Through(n, Offer(p, l, Accepted)))
  {
    var mid, child :| Told(a, n, p, l, mid) && Own(a, mid, Dialled(a), child) && Leaves(a, child, n');
    ToldOwn(a, n, p, l, mid);
    DialledOwn(a, mid, child);
    LeavesOwn(a, child, n');
  }

  lemma ToldOwn(a: Addr, n: Node, p: Addr, l: int, n': Node)
    requires Told(a, n, p, l, n')
    ensures Same(n', if p.port == 0 then AsRoot(n, p, l).(phase := Registering(n.lastXid + 2, true))
                     else n.(parentAddr := p, phase := Dialing(p, l)))
  {
    var mid :| Own(a, n, Ask(a), mid) && Own(a, mid, Offered(a, p, l), n');
    AskOwn(a, n, mid);
    OfferedOwn(a, mid, p, l, n');
  }

  lemma AskOwn(a: Addr, n: Node, n': Node)
    requires Own(a, n, Ask(a), n')
    ensures n' == n.(phase := Asking(n.lastXid + 1), lastXid := n.lastXid + 1)
  {
    var w, w' :| OwnIn(a, n, Ask(a), n', w, w');
  }

  lemma OfferedOwn(a: Addr, n: Node, p: Addr, l: int, n': Node)
    requires Own(a, n, Offered(a, p, l), n')
    ensures n.phase.Asking?
    ensures Same(n', if p.port == 0 then AsRoot(n, p, l).(phase := Registering(n.lastXid + 1, true))
                     else n.(parentAddr := p, phase := Dialing(p, l)))
  {
    var w, w' :| OwnIn(a, n, Offered(a, p, l), n', w, w');
  }

  lemma UnansweredOwn(a: Addr, n: Node, n': Node)
    requires Own(a, n, Unanswered(a), n')
    ensures n' == if n.retried then Unheard(n).(phase := Over, up := false) else Again(Unheard(n))
  {
    var w, w' :| OwnIn(a, n, Unanswered(a), n', w, w');
  }

  lemma NoRouteOwn(a: Addr, n: Node, key: Addr, n': Node)
    requires Own(a, n, NoRoute(a, key), n')
    ensures n' == Again(Unreachable(n))
  {
    var w, w' :| OwnIn(a, n, NoRoute(a, key), n', w, w');
  }

  lemma DialErrorOwn(a: Addr, n: Node, n': Node)
    requires Own(a, n, DialError(a), n')
    ensures n' == if n.retried then GivenUp(n) else Again(n)
  {
    var w, w' :| OwnIn(a, n, DialError(a), n', w, w');
  }

  lemma DialledOwn(a: Addr, n: Node, n': Node)
    requires Own(a, n, Dialled(a), n') && n.phase.Dialing?
    ensures n' == Attached(n, n.phase.offer, n.phase.offerLevel)
                  .(phase := Registering(n.lastXid + 1, false), lastXid := n.lastXid + 1)
  {
    var w, w' :| OwnIn(a, n, Dialled(a), n', w, w');
  }

  lemma LeavesOwn(a: Addr, n: Node, n': Node)
    requires Leaves(a, n, n')
    ensures n' == Settled(n)
  {
    if Own(a, n, Confirmed(a), n') {
      var w, w' :| OwnIn(a, n, Confirmed(a), n', w, w');
    } else {
      var w, w' :| OwnIn(a, n, Unconfirmed(a), n', w, w');
    }
  }

  lemma ResetOwn(a: Addr, n: Node, n': Node)
    requires Own(a, n, Reset(a), n')
    ensures n' == Again(Refused(n))
  {
    var w, w' :| OwnIn(a, n, Reset(a), n', w, w');
  }

  /** The rounds one after another. */
  function Follow(n: Node, rounds: seq<Round>): Node
    decreases |rounds|
  {
    if rounds == [] then n else Through(Follow(n, rounds[..|rounds| - 1]), rounds[|rounds| - 1])
  }

  /** The agent has a parent, or is the root. */
  predicate Joined(n: Node) {
    n.parent.Some? || n.phase.Root?
  }

  /** The agent is past the first round of its loop, and goes on. */
  predicate Looping(n: Node) {
    n.phase == Idle && n.parent == None && n.retried
  }

  /** One of three things follows a round: the agent has joined, it goes on, or its attempt
      has failed for good, which the topology shows as the end of the process, or as an
      agent that no longer listens and is not past any round. */
  lemma WaysOn(n: Node, r: Round)
    requires Entering(n)
    ensures var n' := Through(n, r);
            && !(Joined(n') && Looping(n'))
            && (Joined(n') ==> !n'.phase.Over? && !Entering(n'))
            && (!Joined(n') && !Looping(n') ==> n.retried)
            && (!Joined(n') && !Looping(n') <==> !n'.up && (n'.phase.Over? || (Entering(n') && !n'.retried)))
  {
  }

  /** The loop after these rounds: its variables are those of the topology's node; it has
      ended in the last round if the node has left the loop, as it shows, and not before;
      and it goes on if the node is in the loop. */
  ghost predicate EndsAs(n: Node, rounds: seq<Round>, view: Node, outcome: Outcome) {
    var last := Follow(n, rounds);
    && view.level == last.level && view.parentAddr == last.parentAddr && view.parent == last.parent
    && (forall k :: 0 < k < |rounds| ==> Looping(Follow(n, rounds[..k])))
    && match outcome
       case Connected => rounds != [] && Joined(last)
       case GaveUp => rounds != [] && !Joined(last) && !Looping(last)
       case Pending => rounds == [] || Looping(last)
  }

  /** What one more round makes of a loop that goes on. */
  lemma NextRound(n: Node, rounds: seq<Round>, view: Node, r: Round)
    requires Entering(n) && !n.retried && EndsAs(n, rounds, view, Pending)
    ensures EndsAs(n, rounds + [r], After(view, r),
                   if Succeeds(r) then Connected
                   else if rounds != [] && CountsAgainst(r) then GaveUp
                   else Pending)
  {
    var all, m := rounds + [r], Follow(n, rounds);
    FollowSnoc(n, rounds, r);
    RetriedFrom(n, rounds);
    ThroughShows(m, view, r);
    forall k | 0 < k < |all| ensures Looping(Follow(n, all[..k])) {
      assert all[..k] == rounds[..k];
      assert rounds[..|rounds|] == rounds;
    }
  }

  lemma FollowSnoc(n: Node, rounds: seq<Round>, r: Round)
    ensures Follow(n, rounds + [r]) == Through(Follow(n, rounds), r)
  {
    assert (rounds + [r])[..|rounds|] == rounds;
  }

  lemma RetriedFrom(n: Node, rounds: seq<Round>)
    requires Entering(n) && !n.retried && (rounds == [] || Looping(Follow(n, rounds)))
    ensures Entering(Follow(n, rounds)) && (Follow(n, rounds).retried <==> rounds != [])
  {
  }

  /** What a round makes of the variables, and how the loop takes it. */
  lemma ThroughShows(m: Node, view: Node, r: Round)
    requires Entering(m)
    requires view.level == m.level && view.parentAddr == m.parentAddr && view.parent == m.parent
    ensures var m', after := Through(m, r), After(view, r);
            && after.level == m'.level && after.parentAddr == m'.parentAddr && after.parent == m'.parent
            && (Joined(m') <==> Succeeds(r))
            && (Looping(m') <==> !Succeeds(r) && !(m.retried && CountsAgainst(r)))
  {
  }

  class Agent {
    var level: int
    var parentAddr: Addr
    var parent: Option<Addr>

    ghost function View(): Node
      reads this
    {
      Node(level, parentAddr, parent, Idle, 0, false, false)
    }

    constructor ()
      ensures View() == Node(MAX_LEVEL, NOBODY, None, Idle, 0, false, false) && level == 65535
    {
      level, parentAddr, parent := MAX_LEVEL, NOBODY, None;
    }

    /** The body of the loop; ok is whether ret is FTB_SUCCESS at its end. */
    method OneRound(r: Round) returns (ok: bool)
      modifies this
      ensures View() == After(old(View()), r) && ok == Succeeds(r)
      ensures match r
              case Silence =>
                !ok && level == old(level) && parent == old(parent) && parentAddr == Addr(old(parentAddr).name, 0)
              case Nobody(true) => ok && level == 1 && parent == old(parent) && parentAddr == Addr("", 0)
              case Nobody(false) => !ok && level == 65535 && parent == old(parent) && parentAddr == Addr("", 0)
              case Offer(p, l, NoSuchRoute) =>
                !ok && level == old(level) && parent == old(parent) && parentAddr == Addr(p.name, 2)
              case Offer(p, l, Broken) => !ok && level == old(level) && parent == old(parent) && parentAddr == p
              case Offer(p, l, Accepted) => ok && level == (l + 1) % 65536 && parent == Some(p) && parentAddr == p
    {
      match r
      case Silence =>
        parentAddr := parentAddr.(port := 0);
        ok := false;
      case Nobody(registered) =>
        parentAddr := NOBODY;
        level := Succ16(0);
        ok := registered;
        if !registered {
          level := MAX_LEVEL;
        }
      case Offer(p, l, dial) =>
        parentAddr := p;
        ok := dial == Accepted;
        match dial {
          case NoSuchRoute => parentAddr := parentAddr.(port := 2);
          case Broken =>
          case Accepted => parent, level := Some(p), Succ16(l);
        }
    }

    /** FTBN_Connect. After a refused root, or a parent that is not there, the counter
        starts anew; so the loop ends with the first success, or with the first silence
        or broken connection that is not in the very first round. */
    method Connect(rounds: seq<Round>) returns (outcome: Outcome, used: nat)
      modifies this
      ensures used <= |rounds| && View() == Play(old(View()), rounds[..used])
      ensures forall k :: 0 <= k < used - 1 ==> !Ends(rounds, k)
      ensures outcome == Connected <==> used > 0 && Succeeds(rounds[used - 1])
      ensures outcome == GaveUp <==> used > 1 && CountsAgainst(rounds[used - 1])
      ensures outcome == Pending ==> used == |rounds|
      ensures old(parent) == None ==> EndsAs(old(View()), rounds[..used], View(), outcome)
    {
      var retry := 0;
      used := 0;
      while used < |rounds|
        invariant used <= |rounds| && View() == Play(old(View()), rounds[..used])
        invariant retry == if used == 0 then 0 else 1
        invariant forall k :: 0 <= k < used ==> !Ends(rounds, k)
        invariant old(parent) == None ==> EndsAs(old(View()), rounds[..used], View(), Pending)
      {
        var r := rounds[used];
        if old(parent) == None {
          NextRound(old(View()), rounds[..used], View(), r);
        }
        PlayAppend(old(View()), rounds[..used], r);
        assert rounds[..used + 1] == rounds[..used] + [r];
        var ok := OneRound(r);
        used := used + 1;
        if ok {
          return Connected, used;
        }
        if !CountsAgainst(r) {
          retry := 0;
        }
        if retry >= 1 {
          return GaveUp, used;
        }
        retry := retry + 1;
      }
      assert used > 0 ==> !Ends(rounds, used - 1);
      outcome := Pending;
    }
  }

  lemma {:induction false} PlayAppend(n: Node, rounds: seq<Round>, r: Round)
    ensures Play(n, rounds + [r]) == After(Play(n, rounds), r)
    decreases |rounds|
  {
    if rounds == [] {
      assert ([] + [r])[1..] == [];
      assert rounds + [r] == [r];
    } else {
      assert (rounds + [r])[1..] == rounds[1..] + [r];
      PlayAppend(After(n, rounds[0]), rounds[1..], r);
    }
  }

  /** The server offers parents of a lower level only, as seen from the agent. */
  predicate FairOffers(n: Node, rounds: seq<Round>)
    decreases |rounds|
  {
    rounds == [] ||
    ((rounds[0].Offer? ==> 0 <= rounds[0].l < n.level) && FairOffers(After(n, rounds[0]), rounds[1..]))
  }

  /** As long as no registration as root fails, the level does not rise, and whoever
      becomes the parent is strictly below it. */
  lemma {:induction false} LevelFalls(n: Node, rounds: seq<Round>)
    requires 1 <= n.level <= MAX_LEVEL && FairOffers(n, rounds)
    requires forall r <- rounds :: r != Nobody(false)
    ensures 1 <= Play(n, rounds).level <= n.level
    decreases |rounds|
  {
    if rounds != [] {
      assert rounds[0] in rounds;
      assert forall r <- rounds[1..] :: r in rounds;
      LevelFalls(After(n, rounds[0]), rounds[1..]);
    }
  }

  /** Surroundings in which a step is made. */
  lemma InWorld(a: Addr, n: Node, s: Step, n': Node, w: World, w': World)
    requires OwnIn(a, n, s, n', w, w')
    ensures Own(a, n, s, n')
  {
  }

  /** The agent alone, with one reply for it, and perhaps another agent that is up. */
  ghost function Around(a: Addr, n: Node, reply: RepPkt, p: Addr): World {
    World(map[], map[p := Node(1, NOBODY, None, Root, 0, true, false)][a := n], {}, {reply})
  }

  lemma CanAsk(a: Addr, n: Node) returns (n': Node)
    requires Entering(n)
    ensures Own(a, n, Ask(a), n') && n' == n.(phase := Asking(n.lastXid + 1), lastXid := n.lastXid + 1)
  {
    var x := n.lastXid + 1;
    n' := n.(phase := Asking(x), lastXid := x);
    var w := Around(a, n, RepPkt(a, x, RegRep), a);
    var w' := w.(nodes := w.nodes[a := n'], reqs := w.reqs + {ReqPkt(a, x, AddrReq(a, n.parentAddr, n.level))});
    InWorld(a, n, Ask(a), n', w, w');
  }

  /** A step that ends a round, or attaches the agent to p. */
  lemma CanEnd(a: Addr, n: Node, s: Step, p: Addr) returns (n': Node)
    requires match s
             case Unanswered(b) => b == a && n.phase.Asking?
             case NoRoute(b, _) => b == a && n.phase.Dialing?
             case DialError(b) => b == a && n.phase.Dialing?
             case Dialled(b) => b == a && n.phase.Dialing? && n.phase.offer == p != a
             case Confirmed(b) => b == a && n.phase.Registering?
             case Unconfirmed(b) => b == a && n.phase.Registering? && !n.phase.asRoot
             case Reset(b) => b == a && n.phase.Registering? && n.phase.asRoot
             case _ => false
    ensures Own(a, n, s, n')
  {
    var w := Around(a, n, RepPkt(a, if n.phase.Registering? then n.phase.xid else 0, RegRep), p);
    var w': World;
    match s {
      case Unanswered(_) =>
        w' := SetNode(w, a, if n.retried then Unheard(n).(phase := Over, up := false) else Again(Unheard(n)));
      case NoRoute(_, key) =>
        w' := SetNode(w, a, Again(Unreachable(n))).(reqs := w.reqs + {ReqPkt(a, 0, ConnFail(key))});
      case DialError(_) => w' := SetNode(w, a, if n.retried then GivenUp(n) else Again(n));
      case Dialled(_) => w' := Register(w, a, Attached(n, n.phase.offer, n.phase.offerLevel), false);
      case Reset(_) => w' := SetNode(w, a, Again(Refused(n)));
      case _ => w' := SetNode(w, a, Settled(n));
    }
    n' := w'.nodes[a];
    InWorld(a, n, s, n', w, w');
  }

  lemma CanBeTold(a: Addr, n: Node, p: Addr, l: int) returns (n': Node)
    requires Entering(n)
    ensures Told(a, n, p, l, n')
    ensures var x := n.lastXid;
            n' == if p.port == 0 then AsRoot(n, p, l).(phase := Registering(x + 2, true), lastXid := x + 2)
                  else n.(parentAddr := p, phase := Dialing(p, l), lastXid := x + 1)
  {
    var mid := CanAsk(a, n);
    var w1 := Around(a, mid, RepPkt(a, mid.lastXid, AddrRep(p, l)), a);
    var w2: World;
    if p.port == 0 {
      w2 := Register(w1, a, AsRoot(mid, p, l), true);
    } else {
      w2 := SetNode(w1, a, mid.(parentAddr := p, phase := Dialing(p, l)));
    }
    n' := w2.nodes[a];
    InWorld(a, mid, Offered(a, p, l), n', w1, w2);
  }

  /** Every round can happen in the topology. */
  lemma RoundHappens(a: Addr, n: Node, r: Round) returns (n': Node)
    requires Entering(n) && Dialable(r) && (r.Offer? ==> r.p != a)
    ensures Makes(a, n, r, n')
  {
    match r
    case Silence =>
      var mid := CanAsk(a, n);
      n' := CanEnd(a, mid, Unanswered(a), a);
    case Nobody(true) =>
      var mid := CanBeTold(a, n, NOBODY, 0);
      n' := CanEnd(a, mid, Confirmed(a), a);
    case Nobody(false) =>
      var mid := CanBeTold(a, n, NOBODY, 0);
      n' := CanEnd(a, mid, Reset(a), a);
    case Offer(p, l, NoSuchRoute) =>
      var mid := CanBeTold(a, n, p, l);
      n' := CanEnd(a, mid, NoRoute(a, p), a);
    case Offer(p, l, Broken) =>
      var mid := CanBeTold(a, n, p, l);
      n' := CanEnd(a, mid, DialError(a), a);
    case Offer(p, l, Accepted) => n' := CanJoin(a, n, p, l);
  }

  lemma CanJoin(a: Addr, n: Node, p: Addr, l: int) returns (n': Node)
    requires Entering(n) && p.port != 0 && p != a
    ensures Makes(a, n, Offer(p, l, Accepted), n')
  {
    var mid := CanBeTold(a, n, p, l);
    var child := CanEnd(a, mid, Dialled(a), p);
    DialledOwn(a, mid, child);
    n' := CanEnd(a, child, Unconfirmed(a), a);
    assert Leaves(a, child, n');
  }

  /** A call that begins in the topology at node n, and makes the rounds there: its nodes. */
  ghost predicate Calls(a: Addr, n: Node, rounds: seq<Round>, ns: seq<Node>) {
    && |ns| == |rounds| + 1 && ns[0] == n && Entering(n) && !n.retried
    && forall k :: 0 <= k < |rounds| ==> Dialable(rounds[k]) && Makes(a, ns[k], rounds[k], ns[k + 1])
  }

  /** The loop ends as the topology does: it has joined exactly when the node has a parent
      or is the root, and given up exactly when the node is over, or no longer listens and
      is past no round; and its variables are the node's. */
  lemma LoopIsTopology(a: Addr, n: Node, rounds: seq<Round>, ns: seq<Node>, view: Node, outcome: Outcome)
    requires Calls(a, n, rounds, ns) && EndsAs(n, rounds, view, outcome) && rounds != []
    ensures var last := ns[|rounds|];
            && view.level == last.level && view.parentAddr == last.parentAddr && view.parent == last.parent
            && (outcome == Connected <==> last.parent.Some? || last.phase.Root?)
            && (outcome == GaveUp <==> last.phase.Over? || (Entering(last) && !last.retried))
            && (outcome == GaveUp ==> !last.up)
            && (outcome == Pending <==> Entering(last) && last.retried)
  {
    var init := rounds[..|rounds| - 1];
    FollowsTopology(a, n, rounds, ns, |rounds| - 1);
    FollowsTopology(a, n, rounds, ns, |rounds|);
    assert rounds[..|rounds|] == rounds;
    WaysOn(Follow(n, init), rounds[|rounds| - 1]);
    EndShows(Follow(n, rounds), ns[|rounds|], outcome);
  }

  lemma EndShows(end: Node, last: Node, outcome: Outcome)
    requires Same(last, end) && !(Joined(end) && Looping(end))
    requires !Joined(end) && !Looping(end) <==> !end.up && (end.phase.Over? || (Entering(end) && !end.retried))
    requires Joined(end) ==> !end.phase.Over? && !Entering(end)
    requires match outcome
             case Connected => Joined(end)
             case GaveUp => !Joined(end) && !Looping(end)
             case Pending => Looping(end)
    ensures outcome == Connected <==> last.parent.Some? || last.phase.Root?
    ensures outcome == GaveUp <==> last.phase.Over? || (Entering(last) && !last.retried)
    ensures outcome == GaveUp ==> !last.up
    ensures outcome == Pending <==> Entering(last) && last.retried
  {
  }

  lemma {:induction false} FollowsTopology(a: Addr, n: Node, rounds: seq<Round>, ns: seq<Node>, k: nat)
    requires Calls(a, n, rounds, ns) && k <= |rounds|
    requires forall j :: 0 < j < |rounds| ==> Looping(Follow(n, rounds[..j]))
    ensures Same(ns[k], Follow(n, rounds[..k]))
    ensures k < |rounds| ==> Entering(Follow(n, rounds[..k]))
  {
    if k > 0 {
      FollowsTopology(a, n, rounds, ns, k - 1);
      FollowsOnce(a, ns[k - 1], Follow(n, rounds[..k - 1]), rounds[k - 1], ns[k - 1 + 1]);
      assert rounds[..k] == rounds[..k - 1] + [rounds[k - 1]];
      FollowSnoc(n, rounds[..k - 1], rounds[k - 1]);
    }
  }

  lemma FollowsOnce(a: Addr, n: Node, m: Node, r: Round, n': Node)
    requires Same(n, m) && Entering(m) && Dialable(r) && Makes(a, n, r, n')
    ensures Same(n', Through(m, r))
  {
    RoundIsThrough(a, n, r, n');
  }

  /** Two silences in a row end a call, and so do two broken connections, or one of each. */
  lemma SecondFailureEnds(n: Node, r1: Round, r2: Round)
    requires Entering(n) && !n.retried
    requires r1 == Silence || (r1.Offer? && r1.dial == Broken)
    requires r2 == Silence || (r2.Offer? && r2.dial == Broken)
    ensures !Joined(Follow(n, [r1, r2])) && !Looping(Follow(n, [r1, r2]))
  {
    assert [r1, r2][..1] == [r1] && [r1][..0] == [];
    assert Follow(n, [r1]) == Through(n, r1);
  }

  /** No number of refused roots and of parents that are not there ends it. */
  lemma {:induction false} OthersNeverEnd(n: Node, rounds: seq<Round>)
    requires Entering(n) && rounds != []
    requires forall r <- rounds :: r == Nobody(false) || (r.Offer? && r.dial == NoSuchRoute)
    ensures Looping(Follow(n, rounds))
    decreases |rounds|
  {
    var init, last := rounds[..|rounds| - 1], rounds[|rounds| - 1];
    assert last in rounds;
    if init != [] {
      assert forall r <- init :: r in rounds;
      OthersNeverEnd(n, init);
    }
  }
}
