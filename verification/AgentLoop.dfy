// One turn of the agent's progress_loop: a message is taken from the queue and
// handled (src/agent/ftb_agent.c:44-135). The second half of this file says that the
// turns of the loop are steps of the overlay.
module AgentLoop {
  import opened Masks
  import opened Names
  import opened Tables
  import opened AgentTables
  import opened Overlay

  /** The message types of ftb_manager_lib.h with what the loop reads of each. The
      registration of publishable events and its cancellation change nothing. */
  datatype Message =
    | Notify(event: Event)
    | Register(src: Id)
    | Deregister(src: Id)
    | CleanupConn
    | Subscription(src: Id, mask: Mask)
    | Cancellation(src: Id, mask: Mask)
    | Other

  // ---- sends that are refused

  /** FTBM_Send when the network refuses what is sent to id. */
  ghost predicate LossStep(t: Table, parent: Location, id: Id, newParent: Location,
                           t': Table, parent': Location, sent: seq<Packet>)
  {
    && DropThenRejoin(t, {id}, id.loc, id.loc == parent, newParent, t', sent)
    && parent' == if id.loc == parent then newParent else parent
  }

  /** Components lost one after another, with the parent found by each reconnection. */
  ghost predicate Losses(t: Table, parent: Location, lost: seq<Id>, reconnect: Id -> Location,
                         t': Table, parent': Location, sent: seq<Packet>)
    decreases |lost|
  {
    if lost == [] then t' == t && parent' == parent && sent == []
    else
      var id := lost[|lost| - 1];
      exists mid, p, s1, s2 ::
        && Losses(t, parent, lost[..|lost| - 1], reconnect, mid, p, s1)
        && LossStep(mid, p, id, reconnect(id), t', parent', s2)
        && sent == s1 + s2
  }

  lemma LossesSnoc(t: Table, parent: Location, lost: seq<Id>, reconnect: Id -> Location, mid: Table, p: Location,
                   s1: seq<Packet>, id: Id, t': Table, parent': Location, s2: seq<Packet>)
    requires Losses(t, parent, lost, reconnect, mid, p, s1)
    requires LossStep(mid, p, id, reconnect(id), t', parent', s2)
    ensures Losses(t, parent, lost + [id], reconnect, t', parent', s1 + s2)
  {
    var all := lost + [id];
    assert all[..|all| - 1] == lost && all[|all| - 1] == id;
    assert Losses(t, parent, all[..|all| - 1], reconnect, mid, p, s1);
    assert LossStep(mid, p, all[|all| - 1], reconnect(all[|all| - 1]), t', parent', s2);
  }

  lemma LossKeepsOthers(t: Table, parent: Location, id: Id, newParent: Location,
                        t': Table, parent': Location, sent: seq<Packet>)
    requires LossStep(t, parent, id, newParent, t', parent', sent)
    ensures t'.pairs == Without(t, {id}).pairs && t.ids - {id} <= t'.ids
  {
  }

  /** A refused component costs itself its entries, and nobody else any. */
  lemma {:induction false} LossesKeepOthers(t: Table, parent: Location, lost: seq<Id>, reconnect: Id -> Location,
                                            t': Table, parent': Location, sent: seq<Packet>)
    requires Losses(t, parent, lost, reconnect, t', parent', sent)
    ensures t'.pairs == Without(t, set c <- lost).pairs
    ensures forall c :: c in t.ids && c !in lost ==> c in t'.ids
    decreases |lost|
  {
    if lost != [] {
      var init, id := lost[..|lost| - 1], lost[|lost| - 1];
      var mid, p, s1, s2 :| Losses(t, parent, init, reconnect, mid, p, s1) &&
                            LossStep(mid, p, id, reconnect(id), t', parent', s2) && sent == s1 + s2;
      LossesKeepOthers(t, parent, init, reconnect, mid, p, s1);
      LossKeepsOthers(mid, p, id, reconnect(id), t', parent', s2);
      assert forall c :: c in lost <==> c in init || c == id;
    }
  }

  /** Those of the attempts that are refused, in order. */
  function Those(attempts: seq<Id>, refused: set<Id>): (r: seq<Id>)
    ensures forall c :: c in r <==> c in attempts && c in refused
  {
    if attempts == [] then []
    else
      var last := attempts[|attempts| - 1];
      Those(attempts[..|attempts| - 1], refused) + if last in refused then [last] else []
  }

  lemma ThoseSnoc(attempts: seq<Id>, id: Id, refused: set<Id>)
    ensures Those(attempts + [id], refused) == Those(attempts, refused) + if id in refused then [id] else []
  {
    assert (attempts + [id])[..|attempts|] == attempts;
  }

  /** FTBM_Send of the event to one component. */
  method SendTo(agent: Agent, id: Id, refused: set<Id>, newParent: Location) returns (ghost sent: seq<Packet>)
    requires agent.Valid() && id in agent.View().ids
    modifies agent
    ensures agent.Valid() && agent.outbox == old(agent.outbox) + sent
    ensures if id in refused then
              LossStep(old(agent.View()), old(agent.parent), id, newParent, agent.View(), agent.parent, sent)
            else
              agent.View() == old(agent.View()) && agent.parent == old(agent.parent) && sent == []
  {
    sent := [];
    if id in refused {
      sent := agent.SendFailed(id, newParent);
    }
  }

  /** The event has been offered to the components of the list, except back to where it
      came from, and the refused ones are lost. */
  ghost predicate Offered(t: Table, parent: Location, list: seq<Id>, incoming: Location, attempts: seq<Id>,
                          refused: set<Id>, reconnect: Id -> Location,
                          t': Table, parent': Location, sent: seq<Packet>)
  {
    && NoDup(attempts)
    && (forall c :: c in attempts <==> c in list && !(ManagerName(c) && c.loc == incoming))
    && Losses(t, parent, Those(attempts, refused), reconnect, t', parent', sent)
  }

  /** One turn of the forwarding loop. */
  method OfferTo(agent: Agent, list: seq<Id>, i: nat, incoming: Location, refused: set<Id>, reconnect: Id -> Location,
                 attempts: seq<Id>, ghost t: Table, ghost parent: Location, ghost s1: seq<Packet>)
    returns (attempts': seq<Id>, ghost s: seq<Packet>)
    requires agent.Valid() && i < |list| && NoDup(list) && list[i] in t.ids
    requires Offered(t, parent, list[..i], incoming, attempts, refused, reconnect, agent.View(), agent.parent, s1)
    modifies agent
    ensures agent.Valid() && s1 <= s && agent.outbox == old(agent.outbox) + s[|s1|..]
    ensures Offered(t, parent, list[..i + 1], incoming, attempts', refused, reconnect, agent.View(), agent.parent, s)
  {
    var id := list[i];
    attempts', s := attempts, s1;
    assert list[..i + 1] == list[..i] + [id];
    if ManagerName(id) && id.loc == incoming {
      assert agent.outbox + [] == agent.outbox;
    } else {
      ghost var mid, p := agent.View(), agent.parent;
      LossesKeepOthers(t, parent, Those(attempts, refused), reconnect, mid, p, s1);
      ghost var s2 := SendTo(agent, id, refused, reconnect(id));
      s := s1 + s2;
      NextOffered(t, parent, list[..i], incoming, attempts, refused, reconnect, mid, p, s1, id,
                  agent.View(), agent.parent, s2);
      attempts' := attempts + [id];
    }
  }

  /** The forwarding of an event. The network refuses what is sent to the components
      in refused; reconnect says which parent FTBN_Connect finds if it has to. The
      sends are made to exactly the targets of the tables as they were, once each,
      and a refused send costs the refused component its own entries only. */
  method Forward(agent: Agent, e: Event, incoming: Location, refused: set<Id>, reconnect: Id -> Location)
    returns (attempts: seq<Id>, ghost sent: seq<Packet>)
    requires agent.Valid()
    modifies agent
    ensures agent.Valid() && agent.outbox == old(agent.outbox) + sent
    ensures NoDup(attempts)
    ensures forall c :: c in attempts <==> c in Targets(old(agent.View()), incoming, e)
    ensures Losses(old(agent.View()), old(agent.parent), Those(attempts, refused), reconnect,
                   agent.View(), agent.parent, sent)
    ensures agent.View().pairs == Without(old(agent.View()), set c <- Those(attempts, refused)).pairs
  {
    ghost var t, parent := agent.View(), agent.parent;
    var ids := agent.GetCatchers(e);
    var list := ids[..];
    CatchersAreKnown(agent, e);
    attempts, sent := OfferAll(agent, list, incoming, refused, reconnect);
    OfferedToTargets(t, parent, list, incoming, attempts, refused, reconnect, agent.View(), agent.parent, sent, e);
  }

  /** The forwarding loop. */
  method OfferAll(agent: Agent, list: seq<Id>, incoming: Location, refused: set<Id>, reconnect: Id -> Location)
    returns (attempts: seq<Id>, ghost sent: seq<Packet>)
    requires agent.Valid() && NoDup(list) && forall c <- list :: c in agent.View().ids
    modifies agent
    ensures agent.Valid() && agent.outbox == old(agent.outbox) + sent
    ensures Offered(old(agent.View()), old(agent.parent), list, incoming, attempts, refused, reconnect,
                    agent.View(), agent.parent, sent)
  {
    ghost var t, parent := agent.View(), agent.parent;
    attempts, sent := [], [];
    NothingOffered(t, parent, incoming, refused, reconnect);
    assert list[..0] == [];
    var i := 0;
    while i < |list|
      invariant i <= |list| && agent.Valid() && agent.outbox == old(agent.outbox) + sent
      invariant Offered(t, parent, list[..i], incoming, attempts, refused, reconnect, agent.View(), agent.parent, sent)
    {
      attempts, sent := OfferTo(agent, list, i, incoming, refused, reconnect, attempts, t, parent, sent);
      i := i + 1;
    }
    assert list[..i] == list;
  }

  lemma OfferedToTargets(t: Table, parent: Location, list: seq<Id>, incoming: Location, attempts: seq<Id>,
                         refused: set<Id>, reconnect: Id -> Location, t': Table, parent': Location,
                         sent: seq<Packet>, e: Event)
    requires Offered(t, parent, list, incoming, attempts, refused, reconnect, t', parent', sent)
    requires forall c :: c in list <==> c in t.ids && Catches(t, c, e)
    ensures forall c :: c in attempts <==> c in Targets(t, incoming, e)
    ensures t'.pairs == Without(t, set c <- Those(attempts, refused)).pairs
  {
    LossesKeepOthers(t, parent, Those(attempts, refused), reconnect, t', parent', sent);
  }

  lemma NothingOffered(t: Table, parent: Location, incoming: Location, refused: set<Id>, reconnect: Id -> Location)
    ensures Offered(t, parent, [], incoming, [], refused, reconnect, t, parent, [])
  {
  }

  lemma NextOffered(t: Table, parent: Location, list: seq<Id>, incoming: Location, attempts: seq<Id>,
                    refused: set<Id>, reconnect: Id -> Location, mid: Table, p: Location, s1: seq<Packet>, id: Id,
                    t': Table, parent': Location, s2: seq<Packet>)
    requires Offered(t, parent, list, incoming, attempts, refused, reconnect, mid, p, s1)
    requires id !in list && !(ManagerName(id) && id.loc == incoming)
    requires if id in refused then LossStep(mid, p, id, reconnect(id), t', parent', s2)
             else t' == mid && parent' == p && s2 == []
    ensures Offered(t, parent, list + [id], incoming, attempts + [id], refused, reconnect, t', parent', s1 + s2)
  {
    ThoseSnoc(attempts, id, refused);
    if id in refused {
      LossesSnoc(t, parent, Those(attempts, refused), reconnect, mid, p, s1, id, t', parent', s2);
    } else {
      assert Those(attempts, refused) + [] == Those(attempts, refused) && s1 + [] == s1;
    }
  }

  lemma CatchersAreKnown(agent: Agent, e: Event)
    requires agent.Valid()
    ensures forall c :: Catches(agent.View(), c, e) ==> c in agent.View().ids
  {
    forall c | Catches(agent.View(), c, e) ensures c in agent.View().ids {
      var m :| Subscribes(agent.View(), c, m) && Match(e, m);
      var k :| 0 <= k < |agent.peers| && m in agent.peers[k].masks && agent.peers[k].id == c;
    }
  }

  // ---- the dispatch

  /** What a turn of the loop does, when it is not about an event. */
  ghost predicate Turn(t: Table, parent: Location, msg: Message, incoming: Location, newParent: Location,
                       t': Table, parent': Location, sent: seq<Packet>)
    requires !msg.Notify?
  {
    match msg
    case Register(src) => parent' == parent && exists order :: RegisterStep(t, src, t', sent, order)
    case Deregister(src) =>
      var lost := ManagerName(src) && src.loc == parent;
      if src in t.ids then
        DropThenRejoin(t, {src}, src.loc, lost, newParent, t', sent) && parent' == if lost then newParent else parent
      else t' == t && sent == [] && parent' == parent
    case CleanupConn =>
      && DropThenRejoin(t, At(t, incoming), incoming, incoming == parent, newParent, t', sent)
      && parent' == if incoming == parent then newParent else parent
    case Subscription(src, m) => SubscribeStep(t, src, m, t', sent) && parent' == parent
    case Cancellation(src, m) => UnsubscribeStep(t, src, m, t', sent) && parent' == parent
    case Other => t' == t && sent == [] && parent' == parent
  }

  /** What a turn does that is about an event: the targets of the tables as they were are
      tried once each, and the refused ones are lost. */
  ghost predicate EventTurn(t: Table, parent: Location, e: Event, incoming: Location, refused: set<Id>,
                            reconnect: Id -> Location, attempts: seq<Id>,
                            t': Table, parent': Location, sent: seq<Packet>)
  {
    && NoDup(attempts)
    && (forall c :: c in attempts <==> c in Targets(t, incoming, e))
    && Losses(t, parent, Those(attempts, refused), reconnect, t', parent', sent)
    && t'.pairs == Without(t, set c <- Those(attempts, refused)).pairs
  }

  method Dispatch(agent: Agent, msg: Message, incoming: Location, newParent: Location,
                  refused: set<Id>, reconnect: Id -> Location)
    returns (attempts: seq<Id>, ghost sent: seq<Packet>)
    requires agent.Valid()
    modifies agent
    ensures agent.Valid() && agent.outbox == old(agent.outbox) + sent
    ensures if msg.Notify? then
              EventTurn(old(agent.View()), old(agent.parent), msg.event, incoming, refused, reconnect,
                        attempts, agent.View(), agent.parent, sent)
            else
              && attempts == []
              && Turn(old(agent.View()), old(agent.parent), msg, incoming, newParent, agent.View(), agent.parent, sent)
  {
    attempts, sent := [], [];
    if msg.Notify? {
      attempts, sent := Forward(agent, msg.event, incoming, refused, reconnect);
    } else {
      sent := Answer(agent, msg, incoming, newParent);
    }
  }

  /** The dispatch of the messages that are not about an event. */
  method Answer(agent: Agent, msg: Message, incoming: Location, newParent: Location) returns (ghost sent: seq<Packet>)
    requires agent.Valid() && !msg.Notify?
    modifies agent
    ensures agent.Valid() && agent.outbox == old(agent.outbox) + sent
    ensures Turn(old(agent.View()), old(agent.parent), msg, incoming, newParent, agent.View(), agent.parent, sent)
  {
    sent := [];
    var status;
    match msg
    case Register(src) => status, sent := agent.ClientRegister(src);
    case Deregister(src) => status, sent := agent.ClientDeregister(src, newParent);
    case CleanupConn => status, sent := agent.CleanupConnection(incoming, newParent);
    case Subscription(src, m) => status, sent := agent.RegisterSubscription(src, m);
    case Cancellation(src, m) => status, sent := agent.CancelSubscription(src, m);
    case Other =>
  }

  // ---- the loop makes the steps of the overlay

  /** What a message between agents becomes in the receiver's queue. */
  function MessageOf(v: Location, body: Body): (msg: Message)
    ensures !msg.Notify?
  {
    match body
    case ClientReg => Register(AgentId(v))
    case Reg(m) => Subscription(AgentId(v), m)
    case Cancel(m) => Cancellation(AgentId(v), m)
    case Lost => CleanupConn
  }

  /** The net in which agent u has made a step of its own. */
  ghost function Sending(n: Net, u: Location, t': Table, sent: seq<Packet>): Net {
    n.(tabs := n.tabs[u := t'],
       chans := map p | p in n.chans.Keys + n.links ::
         Chan(n, p.0, p.1) + if p.0 == u && p in n.links then Bodies(sent, AgentId(p.1)) else [])
  }

  lemma SendingSends(n: Net, u: Location, t': Table, sent: seq<Packet>)
    requires u in n.tabs
    ensures Sends(n, u, t', sent, Sending(n, u, t', sent))
  {
    var n' := Sending(n, u, t', sent);
    forall a, b
      ensures Chan(n', a, b) == Chan(n, a, b) + if a == u && (a, b) in n.links then Bodies(sent, AgentId(b)) else []
    {
      assert (a, b) in n'.chans <==> (a, b) in n.chans.Keys + n.links;
    }
  }

  /** The network refuses what u sends to v in a propagation: of what was under way, the
      first i messages to v are still read, and the first j to u. */
  datatype Refusal = Refusal(v: Location, i: nat, j: nat)

  function UpTo(q: seq<Body>, i: nat): (r: seq<Body>)
    ensures r <= q
  {
    if i <= |q| then q[..i] else q
  }

  /** The connection is lost, and v is told; or it was lost before, and was to be found. */
  ghost function Cut(n: Net, u: Location, r: Refusal): Net {
    if (u, r.v) in n.links then
      Unlinked(n, u, r.v, UpTo(Chan(n, u, r.v), r.i) + [Lost], UpTo(Chan(n, r.v, u), r.j))
    else if r.j < |Chan(n, r.v, u)| && Chan(n, r.v, u)[r.j] == Lost then
      Put(n, r.v, u, Removed(Chan(n, r.v, u), r.j))
    else n
  }

  ghost function CutAll(n: Net, u: Location, refusals: seq<Refusal>): Net
    decreases |refusals|
  {
    if refusals == [] then n else CutAll(Cut(n, u, refusals[0]), u, refusals[1..])
  }

  /** A refused propagation is a break of the link, if there is one still, of which the
      sender overlooks its end. */
  lemma RefusedPropagation(n: Net, u: Location, r: Refusal) returns (broken: Net, i: nat, j: nat)
    requires u in n.tabs && r.v in n.tabs && u != r.v
    ensures if (u, r.v) in n.links then Next(n, Break(u, r.v, i, j), n.tabs[u], [], broken) else broken == n
    ensures Next(broken, Overlook(u, r.v, j), n.tabs[u], [], Cut(n, u, r)) || Cut(n, u, r) == broken == n
    ensures i == if r.i <= |Chan(n, u, r.v)| then r.i else |Chan(n, u, r.v)|
    ensures j == if r.j <= |Chan(n, r.v, u)| then r.j else |Chan(n, r.v, u)|
  {
    var q, w := UpTo(Chan(n, u, r.v), r.i), UpTo(Chan(n, r.v, u), r.j);
    broken, i, j := n, |q|, |w|;
    if (u, r.v) in n.links {
      assert q == Chan(n, u, r.v)[..i] && w == Chan(n, r.v, u)[..j];
      broken := Unlinked(n, u, r.v, q + [Lost], w + [Lost]);
      MarkerTakenBack(n, u, r.v, q + [Lost], w);
    }
  }

  /** A break of which one end's marker is taken back is a cut with a marker at the other. */
  lemma MarkerTakenBack(n: Net, u: Location, v: Location, q: seq<Body>, w: seq<Body>)
    requires u in n.tabs && v in n.tabs && u != v
    ensures Next(Unlinked(n, u, v, q, w + [Lost]), Overlook(u, v, |w|), n.tabs[u], [], Unlinked(n, u, v, q, w))
  {
    var broken := Unlinked(n, u, v, q, w + [Lost]);
    assert Removed(w + [Lost], |w|) == w;
    assert Put(broken, v, u, w) == Unlinked(n, u, v, q, w);
  }

  lemma {:induction false} CutAllLinks(n: Net, u: Location, refusals: seq<Refusal>, p: Location)
    ensures CutAll(n, u, refusals).tabs == n.tabs
    ensures (u, p) in CutAll(n, u, refusals).links <==> (u, p) in n.links && forall r <- refusals :: r.v != p
    decreases |refusals|
  {
    if refusals != [] {
      assert refusals == [refusals[0]] + refusals[1..];
      CutAllLinks(Cut(n, u, refusals[0]), u, refusals[1..], p);
    }
  }

  /** Agent u may take p for its parent: it is some other agent, and not linked to u any
      more once the connections of the refused propagations are lost. */
  ghost predicate MayJoin(n: Net, u: Location, refusals: seq<Refusal>, p: Location) {
    p.pid != 0 ==> p in n.tabs && p != u && ((u, p) in n.links ==> exists r <- refusals :: r.v == p)
  }

  /** The second half of a turn: if the parent was lost, agent u connects to its new parent,
      if there is one. */
  ghost predicate Rejoins(n1: Net, u: Location, lost: bool, newParent: Location,
                          t': Table, sent: seq<Packet>, n2: Net)
  {
    if lost && newParent.pid != 0 then exists order :: Next(n1, Connect(u, newParent, order), t', sent, n2)
    else n2 == n1 && sent == []
  }

  lemma RejoinIsConnect(n1: Net, u: Location, lost: bool, newParent: Location, t': Table, sent: seq<Packet>,
                        order: seq<Mask>)
    returns (n2: Net)
    requires u in n1.tabs && RejoinStep(n1.tabs[u], lost, newParent, t', sent, order)
    requires lost ==> MayJoin(n1, u, [], newParent)
    ensures Rejoins(n1, u, lost, newParent, t', sent, n2) && n2.tabs == n1.tabs[u := t']
  {
    if lost && newParent.pid != 0 {
      n2 := Sending(Linked(n1, u, newParent), u, t', sent);
      SendingSends(Linked(n1, u, newParent), u, t', sent);
      assert Next(n1, Connect(u, newParent, order), t', sent, n2);
    } else {
      n2 := n1;
    }
  }

  /** One turn, from n to n'. A step of agent u comes first, in which s1 is sent, some of
      it in vain; then u rejoins, if it has to, and sends s2, some of it in vain. */
  datatype Course = Course(s: Step, s1: seq<Packet>, n1: Net, lost: bool, s2: seq<Packet>, n2: Net)

  /** The network refuses the propagations of refusals.0 in the first half of the turn, and
      those of refusals.1 in the second. */
  ghost predicate Takes(n: Net, u: Location, c: Course, refusals: (seq<Refusal>, seq<Refusal>), newParent: Location,
                        t': Table, n': Net)
  {
    && (exists mid :: Next(n, c.s, mid, c.s1, c.n1))
    && Rejoins(CutAll(c.n1, u, refusals.0), u, c.lost, newParent, t', c.s2, c.n2)
    && n' == CutAll(c.n2, u, refusals.1)
    && u in n'.tabs && n'.tabs[u] == t'
  }

  /** The second half of a turn follows the first. */
  lemma Completed(n: Net, u: Location, s: Step, mid: Table, s1: seq<Packet>, n1: Net, lost: bool,
                  refusals: (seq<Refusal>, seq<Refusal>), newParent: Location,
                  t': Table, s2: seq<Packet>, order: seq<Mask>)
    returns (c: Course, n': Net)
    requires Next(n, s, mid, s1, n1) && u in n1.tabs && n1.tabs[u] == mid
    requires RejoinStep(mid, lost, newParent, t', s2, order) && (lost ==> MayJoin(n1, u, refusals.0, newParent))
    ensures Takes(n, u, c, refusals, newParent, t', n')
    ensures c.s == s && c.s1 == s1 && c.lost == lost && c.s2 == s2
  {
    var cut := CutAll(n1, u, refusals.0);
    CutAllLinks(n1, u, refusals.0, newParent);
    var n2 := RejoinIsConnect(cut, u, lost, newParent, t', s2, order);
    CutAllLinks(n2, u, refusals.1, newParent);
    c, n' := Course(s, s1, n1, lost, s2, n2), CutAll(n2, u, refusals.1);
  }

  /** A turn on a message from another agent is its delivery; if that says that the
      connection to the parent is lost, the agent then connects to a new one. */
  lemma AgentTurn(n: Net, u: Location, v: Location, parent: Location, newParent: Location,
                  refusals: (seq<Refusal>, seq<Refusal>), t': Table, parent': Location, sent: seq<Packet>)
    returns (order: seq<Mask>, c: Course, n': Net)
    requires u in n.tabs && v in n.tabs && u != v && Chan(n, v, u) != [] && MayJoin(n, u, refusals.0, newParent)
    requires Turn(n.tabs[u], parent, MessageOf(v, Chan(n, v, u)[0]), v, newParent, t', parent', sent)
    ensures Takes(n, u, c, refusals, newParent, t', n') && sent == c.s1 + c.s2
    ensures c.s == Deliver(v, u, order) && c.lost == (Chan(n, v, u)[0].Lost? && v == parent)
  {
    var body := Chan(n, v, u)[0];
    var mid, s1, s2, o2;
    mid, s1, order, s2, o2 := Halves(n.tabs[u], v, body, parent, newParent, t', parent', sent);
    var n1 := Delivered(n, u, v, mid, s1, order);
    c, n' := Completed(n, u, Deliver(v, u, order), mid, s1, n1, body.Lost? && v == parent, refusals, newParent,
                       t', s2, o2);
  }

  lemma Halves(t: Table, v: Location, body: Body, parent: Location, newParent: Location,
               t': Table, parent': Location, sent: seq<Packet>)
    returns (mid: Table, s1: seq<Packet>, order: seq<Mask>, s2: seq<Packet>, o2: seq<Mask>)
    requires Turn(t, parent, MessageOf(v, body), v, newParent, t', parent', sent)
    ensures Receive(t, v, body, mid, s1, order) && sent == s1 + s2
    ensures RejoinStep(mid, body.Lost? && v == parent, newParent, t', s2, o2)
  {
    mid, s1, order, s2, o2 := t', sent, [], [], [];
    if body.ClientReg? {
      order :| RegisterStep(t, AgentId(v), t', sent, order);
    } else if body.Lost? {
      mid, s1, s2, order, o2 :| DropStep(t, At(t, v), v, mid, s1, order) &&
                                RejoinStep(mid, v == parent, newParent, t', s2, o2) && sent == s1 + s2;
    }
    assert sent == s1 + s2;
  }

  lemma Delivered(n: Net, u: Location, v: Location, t': Table, sent: seq<Packet>, order: seq<Mask>) returns (n1: Net)
    requires u in n.tabs && v in n.tabs && u != v && Chan(n, v, u) != []
    requires Receive(n.tabs[u], v, Chan(n, v, u)[0], t', sent, order)
    ensures Next(n, Deliver(v, u, order), t', sent, n1) && n1.tabs == n.tabs[u := t'] && n1.links == n.links
  {
    var popped := Put(n, v, u, Chan(n, v, u)[1..]);
    n1 := Sending(popped, u, t', sent);
    SendingSends(popped, u, t', sent);
  }

  /** The client step that a message of a client, or the loss of a client, is. */
  ghost predicate IsClientStep(t: Table, u: Location, msg: Message, incoming: Location, s: Step)
    requires !msg.Notify?
  {
    match msg
    case Register(src) => s == Join(u, src)
    case Subscription(src, m) => s == Subscribe(u, src, m)
    case Cancellation(src, m) => s == Unsubscribe(u, src, m)
    case CleanupConn => s.Leave? && s.gone == At(t, incoming)
    case Deregister(src) => s.Leave? && s.gone == {src} * t.ids
    case Other => s.Leave? && s.gone == {}
  }

  /** A turn on a message from a client component, or on the loss of a client process, is
      a client step of the overlay. */
  lemma ClientTurn(n: Net, u: Location, msg: Message, incoming: Location, parent: Location, newParent: Location,
                   refusals: seq<Refusal>, t': Table, parent': Location, sent: seq<Packet>)
    returns (c: Course, n': Net)
    requires u in n.tabs && !msg.Notify? && incoming !in n.tabs && incoming != parent
    requires msg.Register? || msg.Deregister? || msg.Subscription? || msg.Cancellation? ==>
               IsClient(n, msg.src) && msg.src.loc == incoming
    requires Turn(n.tabs[u], parent, msg, incoming, newParent, t', parent', sent)
    ensures Takes(n, u, c, (refusals, []), newParent, t', n') && c.s1 == sent && c.s2 == [] && !c.lost
    ensures IsClientStep(n.tabs[u], u, msg, incoming, c.s)
  {
    var s := ClientStep(n, u, msg, incoming, parent, newParent, t', parent', sent);
    c, n' := Completed(n, u, s, t', sent, Sending(n, u, t', sent), false, (refusals, []), newParent, t', [], []);
  }

  lemma ClientStep(n: Net, u: Location, msg: Message, incoming: Location, parent: Location, newParent: Location,
                   t': Table, parent': Location, sent: seq<Packet>)
    returns (s: Step)
    requires u in n.tabs && !msg.Notify? && incoming !in n.tabs && incoming != parent
    requires msg.Register? || msg.Deregister? || msg.Subscription? || msg.Cancellation? ==>
               IsClient(n, msg.src) && msg.src.loc == incoming
    requires Turn(n.tabs[u], parent, msg, incoming, newParent, t', parent', sent)
    ensures Next(n, s, t', sent, Sending(n, u, t', sent)) && IsClientStep(n.tabs[u], u, msg, incoming, s)
  {
    var t := n.tabs[u];
    SendingSends(n, u, t', sent);
    match msg
    case Register(src) => s := Join(u, src);
    case Subscription(src, m) => s := Subscribe(u, src, m);
    case Cancellation(src, m) => s := Unsubscribe(u, src, m);
    case CleanupConn => s := Left(n, u, At(t, incoming), incoming, newParent, t', sent);
    case Deregister(src) =>
      if src in t.ids {
        s := Left(n, u, {src}, incoming, newParent, t', sent);
      } else {
        s := NobodyLeft(n, u, incoming);
      }
    case Other => s := NobodyLeft(n, u, incoming);
  }

  lemma Left(n: Net, u: Location, gone: set<Id>, loc: Location, newParent: Location, t': Table, sent: seq<Packet>)
    returns (s: Step)
    requires u in n.tabs && loc !in n.tabs && DropThenRejoin(n.tabs[u], gone, loc, false, newParent, t', sent)
    ensures s.Leave? && s.gone == gone && Next(n, s, t', sent, Sending(n, u, t', sent))
  {
    var mid, s1, s2, o1, o2 :| DropStep(n.tabs[u], gone, loc, mid, s1, o1) &&
                               RejoinStep(mid, false, newParent, t', s2, o2) && sent == s1 + s2;
    assert s1 + [] == s1;
    SendingSends(n, u, t', sent);
    s := Leave(u, gone, loc, o1);
  }

  lemma NobodyLeft(n: Net, u: Location, loc: Location) returns (s: Step)
    requires u in n.tabs && loc !in n.tabs
    ensures s.Leave? && s.gone == {} && Next(n, s, n.tabs[u], [], Sending(n, u, n.tabs[u], []))
  {
    SendingSends(n, u, n.tabs[u], []);
    assert Without(n.tabs[u], {}) == n.tabs[u];
    assert Fanned(n.tabs[u], loc, Cancels([]), []);
    s := Leave(u, {}, loc, []);
  }

  /** A refused event is the loss of a client, of a neighbour, or of one whose connection
      is gone already; if that was the parent, the agent connects to a new one. The
      network decides how much of what was under way is still read. */
  lemma RefusedSend(n: Net, u: Location, id: Id, k: nat, j: nat, parent: Location, newParent: Location,
                    refusals: (seq<Refusal>, seq<Refusal>), t': Table, parent': Location, sent: seq<Packet>)
    returns (c: Course, n': Net)
    requires u in n.tabs && IdsInv(n, u)
    requires MayJoin(n.(links := n.links - {(u, id.loc), (id.loc, u)}), u, refusals.0, newParent)
    requires k <= |Chan(n, u, id.loc)| && j <= |Chan(n, id.loc, u)|
    requires LossStep(n.tabs[u], parent, id, newParent, t', parent', sent)
    ensures Takes(n, u, c, refusals, newParent, t', n') && sent == c.s1 + c.s2 && c.lost == (id.loc == parent)
    ensures if !IsAgent(id) then c.s.Leave? && c.s.gone == {id}
            else if (u, id.loc) in n.links then c.s.Drop? && c.s.v == id.loc && c.s.k == k && c.s.j == j
            else c.s.Refuse? && c.s.v == id.loc
  {
    var v := id.loc;
    var mid, s1, s2, o1, o2 :| DropStep(n.tabs[u], {id}, v, mid, s1, o1) &&
                               RejoinStep(mid, v == parent, newParent, t', s2, o2) && sent == s1 + s2;
    var s, n1 := Parted(n, u, id, k, j, mid, s1, o1);
    c, n' := Completed(n, u, s, mid, s1, n1, v == parent, refusals, newParent, t', s2, o2);
  }

  lemma Parted(n: Net, u: Location, id: Id, k: nat, j: nat, t': Table, sent: seq<Packet>, order: seq<Mask>)
    returns (s: Step, n1: Net)
    requires u in n.tabs && IdsInv(n, u) && k <= |Chan(n, u, id.loc)| && j <= |Chan(n, id.loc, u)|
    requires DropStep(n.tabs[u], {id}, id.loc, t', sent, order)
    ensures Next(n, s, t', sent, n1) && n1.tabs == n.tabs[u := t']
    ensures forall p :: p in n.tabs && (u, p) in n1.links ==> p != id.loc && (u, p) in n.links
    ensures if !IsAgent(id) then s.Leave? && s.gone == {id}
            else if (u, id.loc) in n.links then s.Drop? && s.v == id.loc && s.k == k && s.j == j
            else s.Refuse? && s.v == id.loc
  {
    var v := id.loc;
    if IsAgent(id) && (u, v) in n.links {
      s := Drop(u, v, k, j, order);
      n1 := Dropped(n, u, v, k, j, t', sent, order);
    } else {
      s := if IsAgent(id) then Refuse(u, v, order) else Leave(u, {id}, v, order);
      n1 := Sending(n, u, t', sent);
      SendingSends(n, u, t', sent);
    }
  }

  lemma Dropped(n: Net, u: Location, v: Location, k: nat, j: nat, t': Table, sent: seq<Packet>, order: seq<Mask>)
    returns (n1: Net)
    requires u in n.tabs && (u, v) in n.links && k <= |Chan(n, u, v)| && j <= |Chan(n, v, u)|
    requires DropStep(n.tabs[u], {AgentId(v)}, v, t', sent, order)
    ensures Next(n, Drop(u, v, k, j, order), t', sent, n1)
    ensures n1.tabs == n.tabs[u := t'] && n1.links == n.links - {(u, v), (v, u)}
  {
    var cut := Unlinked(n, u, v, Chan(n, u, v)[..k] + [Lost], Chan(n, v, u)[..j]);
    n1 := Sending(cut, u, t', sent);
    SendingSends(cut, u, t', sent);
  }

  /** The agent of the class, on a message that is next in a queue of the overlay, does
      what the overlay says, whatever propagations the network refuses: its tables are
      those of u before and after. */
  method TakeTurn(agent: Agent, ghost n: Net, ghost u: Location, v: Location, body: Body, newParent: Location,
                  ghost refusals: (seq<Refusal>, seq<Refusal>))
    returns (ghost order: seq<Mask>, ghost c: Course, ghost n': Net)
    requires agent.Valid() && u in n.tabs && agent.View() == n.tabs[u]
    requires v in n.tabs && u != v && Chan(n, v, u) != [] && Chan(n, v, u)[0] == body
    requires MayJoin(n, u, refusals.0, newParent)
    modifies agent
    ensures agent.Valid() && agent.outbox == old(agent.outbox) + (c.s1 + c.s2)
    ensures Takes(n, u, c, refusals, newParent, agent.View(), n')
    ensures c.s == Deliver(v, u, order) && c.lost == (body.Lost? && v == old(agent.parent))
    ensures agent.parent == if c.lost then newParent else old(agent.parent)
  {
    ghost var parent := agent.parent;
    var attempts;
    ghost var sent;
    attempts, sent := Dispatch(agent, MessageOf(v, body), v, newParent, {}, _ => newParent);
    order, c, n' := AgentTurn(n, u, v, parent, newParent, refusals, agent.View(), agent.parent, sent);
  }
}
