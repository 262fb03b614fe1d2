// What an agent's subscription tables mean, and what each table operation may
// do to them and send to the neighbouring agents. The class in AgentTables.dfy
// is proved to make exactly these steps; Overlay.dfy composes them into a network.
module Tables {
  import opened Text
  import opened Masks
  import opened Names

  /** The known components, and who subscribes to what. */
  datatype Table = Table(ids: set<Id>, pairs: set<(Id, Mask)>)

  /** The control messages agents exchange, and the marker a broken connection
      leaves behind in the message queue (CLEANUP_CONN). */
  datatype Body = ClientReg | Reg(mask: Mask) | Cancel(mask: Mask) | Lost

  datatype Packet = Packet(dst: Id, body: Body)

  ghost predicate NoDup<T>(s: seq<T>) {
    forall i, j :: 0 <= i < j < |s| ==> s[i] != s[j]
  }

  ghost predicate TableOk(t: Table) {
    forall p <- t.pairs :: p.0 in t.ids
  }

  ghost predicate Subscribes(t: Table, c: Id, m: Mask) {
    (c, m) in t.pairs
  }

  /** Somebody subscribes to the mask: it is a key of catch_event_map. */
  ghost predicate Held(t: Table, m: Mask) {
    exists c :: Subscribes(t, c, m)
  }

  /** The component is listed under a mask that accepts the event. */
  ghost predicate Catches(t: Table, c: Id, e: Event) {
    exists m :: Subscribes(t, c, m) && Match(e, m)
  }

  /** The bodies of the packets sent to d, in order. */
  function Bodies(sent: seq<Packet>, d: Id): seq<Body> {
    if sent == [] then []
    else if sent[0].dst == d then [sent[0].body] + Bodies(sent[1..], d)
    else Bodies(sent[1..], d)
  }

  lemma {:induction false} BodiesConcat(a: seq<Packet>, b: seq<Packet>, d: Id)
    ensures Bodies(a + b, d) == Bodies(a, d) + Bodies(b, d)
  {
    if a == [] {
      assert a + b == b;
    } else {
      BodiesConcat(a[1..], b, d);
      assert (a + b)[1..] == a[1..] + b;
    }
  }

  function Regs(order: seq<Mask>): (r: seq<Body>)
    ensures |r| == |order|
  {
    seq(|order|, i requires 0 <= i < |order| => Reg(order[i]))
  }

  function Cancels(order: seq<Mask>): (r: seq<Body>)
    ensures |r| == |order|
  {
    seq(|order|, i requires 0 <= i < |order| => Cancel(order[i]))
  }

  /** A neighbour agent that news from location incoming is passed on to. */
  predicate Eligible(t: Table, d: Id, incoming: Location) {
    d in t.ids && IsAgent(d) && d.loc != incoming
  }

  /** Every eligible neighbour is sent the same bodies, and nobody else anything. */
  ghost predicate Fanned(t: Table, incoming: Location, bodies: seq<Body>, sent: seq<Packet>) {
    forall d: Id :: Bodies(sent, d) == if Eligible(t, d, incoming) then bodies else []
  }

  ghost predicate OnlyTo(id: Id, bodies: seq<Body>, sent: seq<Packet>) {
    forall d: Id :: Bodies(sent, d) == if d == id then bodies else []
  }

  ghost predicate ListsHeld(order: seq<Mask>, t: Table) {
    NoDup(order) && forall m :: m in order <==> Held(t, m)
  }

  /** FTBM_Client_register: a new agent is told every mask held. */
  ghost predicate RegisterStep(t: Table, id: Id, t': Table, sent: seq<Packet>, order: seq<Mask>) {
    if id in t.ids then t' == t && sent == []
    else
      && t' == t.(ids := t.ids + {id})
      && if IsAgent(id) then ListsHeld(order, t) && OnlyTo(id, Regs(order), sent)
         else sent == []
  }

  /** FTBM_Register_subscription */
  ghost predicate SubscribeStep(t: Table, id: Id, m: Mask, t': Table, sent: seq<Packet>) {
    if id !in t.ids || Subscribes(t, id, m) then t' == t && sent == []
    else
      && t' == t.(pairs := t.pairs + {(id, m)})
      && Fanned(t, id.loc, [Reg(m)], sent)
  }

  ghost predicate SoleSubscriber(t: Table, id: Id, m: Mask) {
    Subscribes(t, id, m) && forall c :: Subscribes(t, c, m) ==> c == id
  }

  /** FTBM_Cancel_subscription: neighbours hear of it only from the last subscriber. */
  ghost predicate UnsubscribeStep(t: Table, id: Id, m: Mask, t': Table, sent: seq<Packet>) {
    if !Subscribes(t, id, m) then t' == t && sent == []
    else
      && t' == t.(pairs := t.pairs - {(id, m)})
      && Fanned(t, id.loc, if SoleSubscriber(t, id, m) then [Cancel(m)] else [], sent)
  }

  /** The mask has subscribers, and all of them are leaving. */
  ghost predicate Orphaned(t: Table, gone: set<Id>, m: Mask) {
    Held(t, m) && forall c :: Subscribes(t, c, m) ==> c in gone
  }

  ghost function Without(t: Table, gone: set<Id>): Table {
    Table(t.ids - gone, set p <- t.pairs | p.0 !in gone)
  }

  ghost predicate ListsOrphans(order: seq<Mask>, t: Table, gone: set<Id>) {
    NoDup(order) && forall m :: m in order <==> Orphaned(t, gone, m)
  }

  /** Components at location loc leave: with each mask they were the last to hold,
      one cancellation goes to every neighbour agent elsewhere. */
  ghost predicate DropStep(t: Table, gone: set<Id>, loc: Location, t': Table,
                           sent: seq<Packet>, order: seq<Mask>)
  {
    && gone <= t.ids
    && (forall c <- gone :: c.loc == loc)
    && t' == Without(t, gone)
    && ListsOrphans(order, t, gone)
    && Fanned(t, loc, Cancels(order), sent)
  }

  /** An agent that takes a new parent registers with it and sends it every mask
      held; a process id of zero means that it became the root. */
  ghost predicate RejoinStep(t: Table, lost: bool, parent: Location, t': Table,
                             sent: seq<Packet>, order: seq<Mask>)
  {
    if lost && parent.pid != 0 then RegisterStep(t, AgentId(parent), t', sent, order)
    else t' == t && sent == []
  }

  ghost predicate DropThenRejoin(t: Table, gone: set<Id>, loc: Location, lost: bool,
                                 parent: Location, t': Table, sent: seq<Packet>)
  {
    exists mid, s1, s2, o1, o2 ::
      DropStep(t, gone, loc, mid, s1, o1) && RejoinStep(mid, lost, parent, t', s2, o2) && sent == s1 + s2
  }

  /** The catchers an agent sends the event on to: not back to the agent it came from. */
  ghost function Targets(t: Table, source: Location, e: Event): set<Id> {
    set c <- t.ids | Catches(t, c, e) && !(ManagerName(c) && c.loc == source)
  }

  /** The components of one process. */
  ghost function At(t: Table, loc: Location): set<Id> {
    set c <- t.ids | c.loc == loc
  }

  // ---- consequences of the steps

  lemma CancelsConcat(a: seq<Mask>, b: seq<Mask>)
    ensures Cancels(a + b) == Cancels(a) + Cancels(b)
  {
  }

  lemma FannedConcat(t: Table, u: Table, loc: Location, a: seq<Body>, b: seq<Body>,
                     sent1: seq<Packet>, sent2: seq<Packet>)
    requires Fanned(t, loc, a, sent1) && Fanned(u, loc, b, sent2)
    requires forall d :: Eligible(t, d, loc) <==> Eligible(u, d, loc)
    ensures Fanned(t, loc, a + b, sent1 + sent2)
  {
    forall d: Id ensures Bodies(sent1 + sent2, d) == if Eligible(t, d, loc) then a + b else [] {
      BodiesConcat(sent1, sent2, d);
    }
  }

  lemma OrphansInTwoSteps(t: Table, g: set<Id>, h: set<Id>, m: Mask)
    ensures Orphaned(t, g + h, m) <==> Orphaned(t, g, m) || Orphaned(Without(t, g), h, m)
  {
    var u := Without(t, g);
    if Orphaned(t, g + h, m) && !Orphaned(t, g, m) {
      var c :| Subscribes(t, c, m) && c !in g;
      assert Subscribes(u, c, m);
      forall d | Subscribes(u, d, m) ensures d in h {
        assert Subscribes(t, d, m);
      }
    }
    if Orphaned(u, h, m) {
      var c :| Subscribes(u, c, m);
      assert Subscribes(t, c, m);
      forall d | Subscribes(t, d, m) ensures d in g + h {
        if d !in g {
          assert Subscribes(u, d, m);
        }
      }
    }
  }

  lemma NoOrphanTwice(t: Table, g: set<Id>, h: set<Id>, m: Mask)
    requires Orphaned(t, g, m)
    ensures !Orphaned(Without(t, g), h, m)
  {
  }

  /** Dropping two groups at one location is dropping them together: the same
      tables, and the same one cancellation for each orphaned mask. */
  lemma DropsCompose(t: Table, g: set<Id>, h: set<Id>, loc: Location, u: Table, v: Table,
                     sent1: seq<Packet>, sent2: seq<Packet>, o1: seq<Mask>, o2: seq<Mask>)
    requires DropStep(t, g, loc, u, sent1, o1)
    requires DropStep(u, h, loc, v, sent2, o2)
    ensures DropStep(t, g + h, loc, v, sent1 + sent2, o1 + o2)
  {
    var o := o1 + o2;
    forall m ensures m in o <==> Orphaned(t, g + h, m) {
      OrphansInTwoSteps(t, g, h, m);
    }
    forall i, j | 0 <= i < |o1| && 0 <= j < |o2| ensures o1[i] != o2[j] {
      assert o1[i] in o1 && o2[j] in o2;
      NoOrphanTwice(t, g, h, o1[i]);
    }
    assert NoDup(o);
    CancelsConcat(o1, o2);
    FannedConcat(t, u, loc, Cancels(o1), Cancels(o2), sent1, sent2);
  }

  /** An agent that reconnects sends its new parent every mask it holds exactly when
      that parent is not already in its table, or there is no mask to send. */
  lemma RejoinResendsExactly(t: Table, parent: Location, t': Table, sent: seq<Packet>, order: seq<Mask>)
    requires RejoinStep(t, true, parent, t', sent, order) && parent.pid != 0
    ensures (forall m :: Held(t, m) ==> Reg(m) in Bodies(sent, AgentId(parent))) <==>
            AgentId(parent) !in t.ids || forall m :: !Held(t, m)
  {
    if AgentId(parent) !in t.ids {
      forall m | Held(t, m) ensures Reg(m) in Bodies(sent, AgentId(parent)) {
        var i :| 0 <= i < |order| && order[i] == m;
        assert Regs(order)[i] == Reg(m);
      }
    }
  }

  // ---- who hears of changes: agents, and not the manager libraries of client processes

  /** The manager library of the process at loc, as tables list it. */
  function Manager(loc: Location, leaf: int): Id {
    FoldId(Self(loc, leaf))
  }

  /** News from elsewhere goes once to the agent of a process that is listed, and never to
      the library of a client process. */
  lemma NewsGoesToAgents(t: Table, from: Location, bodies: seq<Body>, sent: seq<Packet>, loc: Location)
    requires Fanned(t, from, bodies, sent)
    ensures Bodies(sent, Manager(loc, 1)) == []
    ensures Bodies(sent, Manager(loc, 0)) ==
            if Manager(loc, 0) in t.ids && FoldLocation(loc) != from then bodies else []
  {
    SelfIsAgentExactly(loc, 0);
    SelfIsAgentExactly(loc, 1);
  }

  /** A client library that registers is told nothing; an agent is told every mask held. */
  lemma OnlyAgentsAreWelcomed(t: Table, loc: Location, leaf: int, t': Table, sent: seq<Packet>, order: seq<Mask>)
    requires RegisterStep(t, Manager(loc, leaf), t', sent, order)
    ensures leaf != 0 || Manager(loc, leaf) in t.ids ==> sent == []
    ensures leaf == 0 && Manager(loc, leaf) !in t.ids ==>
              forall m :: Reg(m) in Bodies(sent, Manager(loc, leaf)) <==> Held(t, m)
  {
    SelfIsAgentExactly(loc, leaf);
    if leaf == 0 && Manager(loc, leaf) !in t.ids {
      assert Bodies(sent, Manager(loc, leaf)) == Regs(order);
      forall m ensures Reg(m) in Regs(order) <==> m in order {
        if m in order {
          var i :| 0 <= i < |order| && order[i] == m;
          assert Regs(order)[i] == Reg(m);
        }
      }
    }
  }

  /** A subscription that is new is told once to every agent listed elsewhere, an old one
      to nobody, and neither to the library of a client process. */
  lemma SubscriptionGoesToAgents(t: Table, id: Id, m: Mask, t': Table, sent: seq<Packet>, loc: Location)
    requires SubscribeStep(t, id, m, t', sent)
    ensures Bodies(sent, Manager(loc, 1)) == []
    ensures Bodies(sent, Manager(loc, 0)) ==
            if id in t.ids && (id, m) !in t.pairs && Manager(loc, 0) in t.ids && FoldLocation(loc) != id.loc
            then [Reg(m)] else []
  {
    if id in t.ids && !Subscribes(t, id, m) {
      NewsGoesToAgents(t, id.loc, [Reg(m)], sent, loc);
    }
  }

  /** A subscription that is withdrawn is cancelled once at every agent listed elsewhere if
      nobody else holds the mask, and at nobody otherwise. */
  lemma CancellationGoesToAgents(t: Table, id: Id, m: Mask, t': Table, sent: seq<Packet>, loc: Location)
    requires UnsubscribeStep(t, id, m, t', sent)
    ensures Bodies(sent, Manager(loc, 1)) == []
    ensures Bodies(sent, Manager(loc, 0)) ==
            if (id, m) in t.pairs && (forall c :: (c, m) in t.pairs ==> c == id)
               && Manager(loc, 0) in t.ids && FoldLocation(loc) != id.loc
            then [Cancel(m)] else []
  {
    if Subscribes(t, id, m) {
      assert SoleSubscriber(t, id, m) <==> forall c :: (c, m) in t.pairs ==> c == id by {
        assert forall c :: Subscribes(t, c, m) <==> (c, m) in t.pairs;
      }
      NewsGoesToAgents(t, id.loc, if SoleSubscriber(t, id, m) then [Cancel(m)] else [], sent, loc);
    }
  }

  /** When components of a process go, a mask is cancelled at the agents elsewhere exactly
      if somebody held it and nobody who stays does. */
  lemma DropIsToldToAgents(t: Table, gone: set<Id>, from: Location, t': Table, sent: seq<Packet>, order: seq<Mask>,
                           loc: Location, m: Mask)
    requires DropStep(t, gone, from, t', sent, order)
    ensures Bodies(sent, Manager(loc, 1)) == []
    ensures Cancel(m) in Bodies(sent, Manager(loc, 0)) <==>
            && Manager(loc, 0) in t.ids && FoldLocation(loc) != from
            && (exists c :: Subscribes(t, c, m)) && (forall c :: Subscribes(t, c, m) ==> c in gone)
  {
    NewsGoesToAgents(t, from, Cancels(order), sent, loc);
    assert m in order <==> Orphaned(t, gone, m);
    if m in order {
      var i :| 0 <= i < |order| && order[i] == m;
      assert Cancels(order)[i] == Cancel(m);
    }
  }

  /** An event is not sent back to the manager of the process it came from, be that an
      agent or a client; every other catcher, in that process or elsewhere, is sent it. */
  lemma NotBackToItsManager(t: Table, loc: Location, leaf: int, e: Event, id: Id)
    ensures Manager(loc, leaf) !in Targets(t, FoldLocation(loc), e)
    ensures !EqFold(id.comp, "FTB_COMP_MANAGER") || FoldLocation(id.loc) != FoldLocation(loc) ==>
              (FoldId(id) in Targets(t, FoldLocation(loc), e) <==> FoldId(id) in t.ids && Catches(t, FoldId(id), e))
  {
    SelfIsAgentExactly(loc, leaf);
    ManagersExactly(id);
  }
}
