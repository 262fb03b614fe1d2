// Every careful step of the overlay keeps its invariant, so no interest is ever lost; and
// which steps are careful, exactly.
module OverlayInvariant {
  import opened Masks
  import opened Names
  import opened Tables
  import opened Overlay

  // ---- who is listed after reading

  lemma {:induction false} ListedIsKnown(e: Entry, q: seq<Body>, m: Mask)
    ensures ApplyAll(e, q, m).known == Listed(e.known, q)
    decreases |q|
  {
    if q != [] {
      ListedIsKnown(Apply(e, q[0], m), q[1..], m);
    }
  }

  lemma {:induction false} ListedConcat(known: bool, a: seq<Body>, b: seq<Body>)
    ensures Listed(known, a + b) == Listed(Listed(known, a), b)
    decreases |a|
  {
    if a == [] {
      assert a + b == b;
    } else {
      assert (a + b)[1..] == a[1..] + b;
      ListedConcat(a[0] == ClientReg || (known && a[0] != Lost), a[1..], b);
    }
  }

  /** An announcement that no marker of a lost connection follows. */
  ghost predicate Introduces(q: seq<Body>) {
    exists i: nat :: IntroducesAt(q, i)
  }

  ghost predicate IntroducesAt(q: seq<Body>, i: nat) {
    i < |q| && q[i] == ClientReg && Lost !in q[i + 1..]
  }

  lemma IntroducesNext(q: seq<Body>)
    requires q != []
    ensures Introduces(q) <==> (q[0] == ClientReg && Lost !in q[1..]) || Introduces(q[1..])
  {
    if i: nat :| IntroducesAt(q, i) {
      if i > 0 {
        assert q[1..][i..] == q[i + 1..];
        assert IntroducesAt(q[1..], i - 1);
      }
    }
    if q[0] == ClientReg && Lost !in q[1..] {
      assert IntroducesAt(q, 0);
    }
    if i: nat :| IntroducesAt(q[1..], i) {
      assert q[1..][i + 1..] == q[i + 2..];
      assert IntroducesAt(q, i + 1);
    }
  }

  /** A sender is listed in the end exactly when it was and no marker comes, or when it
      announces itself with no marker behind that. */
  lemma {:induction false} ListedExactly(known: bool, q: seq<Body>)
    ensures Listed(known, q) <==> (known && Lost !in q) || Introduces(q)
    decreases |q|
  {
    if q != [] {
      IntroducesNext(q);
      assert Lost in q <==> q[0] == Lost || Lost in q[1..];
      ListedExactly(q[0] == ClientReg || (known && q[0] != Lost), q[1..]);
    }
  }

  lemma QuietKeeps(known: bool, q: seq<Body>)
    requires Quiet(q)
    ensures Listed(known, q) == known
  {
    ListedExactly(known, q);
  }

  /** Reading one message does to the listing what the rest expects. */
  lemma ReadsOn(known: bool, q: seq<Body>, known': bool)
    requires q != [] && known' == (q[0] == ClientReg || (known && q[0] != Lost))
    ensures Listed(known', q[1..]) == Listed(known, q)
  {
  }

  /** Over a working link, the other end is listed once everything is read. */
  lemma WillBeListed(n: Net, u: Location, v: Location)
    requires u in n.tabs && v in n.tabs && LinkInv(n, u, v) && LinkInv(n, v, u)
    ensures Listed(Knows(n, v, u), Chan(n, u, v))
  {
    var q := Chan(n, u, v);
    if ClientReg in q {
      var i: nat :| Greets(n, u, v, i);
      assert q == q[..i] + ([ClientReg] + q[i + 1..]);
      ListedConcat(Knows(n, v, u), q[..i], [ClientReg] + q[i + 1..]);
      QuietKeeps(true, q[i + 1..]);
      assert ([ClientReg] + q[i + 1..])[1..] == q[i + 1..];
    } else {
      QuietKeeps(true, q);
    }
  }

  // ---- the directions of a link that a step of u keeps

  /** What u has promised v, when u makes a step. */
  lemma OutgoingKept(n: Net, n': Net, u: Location, v: Location, q: seq<Body>)
    requires u in n.tabs && v in n.tabs && u in n'.tabs && v in n'.tabs && n'.tabs[v] == n.tabs[v]
    requires Chan(n', u, v) == Chan(n, u, v) + q
    requires ClientReg in Chan(n', v, u) <==> ClientReg in Chan(n, v, u)
    requires Quiet(Chan(n, v, u)) ==> Quiet(Chan(n', v, u))
    requires Faithful(n.tabs[u], n'.tabs[u], v, q)
    requires LinkInv(n, u, v) && LinkInv(n, v, u)
    ensures LinkInv(n', u, v)
  {
    GreetingKept(n, n', u, v, q);
    WillBeListed(n, u, v);
    if ClientReg !in Chan(n, v, u) {
      forall m | Wants(n'.tabs[u], v, m) ensures Promised(n', u, v, m) {
        var e := EntryOf(n.tabs[v], u, m);
        ApplyConcat(e, Chan(n, u, v), q, m);
        ListedIsKnown(e, Chan(n, u, v), m);
        var h := ApplyAll(e, Chan(n, u, v), m).has;
        assert Wants(n.tabs[u], v, m) ==> Promised(n, u, v, m);
        assert ApplyAll(Entry(true, h), q, m) == Entry(true, true);
      }
    }
  }

  lemma GreetingKept(n: Net, n': Net, u: Location, v: Location, q: seq<Body>)
    requires v in n.tabs && v in n'.tabs && n'.tabs[v] == n.tabs[v]
    requires Chan(n', u, v) == Chan(n, u, v) + q && Quiet(q)
    ensures ClientReg in Chan(n', u, v) <==> ClientReg in Chan(n, u, v)
    ensures Lost in Chan(n', u, v) <==> Lost in Chan(n, u, v)
    ensures (exists i: nat :: Greets(n, u, v, i)) ==> exists i: nat :: Greets(n', u, v, i)
  {
    if i: nat :| Greets(n, u, v, i) {
      assert Chan(n', u, v)[..i] == Chan(n, u, v)[..i];
      assert Chan(n', u, v)[i + 1..] == Chan(n, u, v)[i + 1..] + q;
      assert Greets(n', u, v, i);
    }
  }

  /** What v has promised u, when u makes a step that leaves v's entry alone. */
  lemma IncomingKept(n: Net, n': Net, u: Location, v: Location, q: seq<Body>)
    requires u in n.tabs && v in n.tabs && u in n'.tabs && v in n'.tabs && n'.tabs[v] == n.tabs[v]
    requires Chan(n', v, u) == Chan(n, v, u) && Chan(n', u, v) == Chan(n, u, v) + q && Quiet(q)
    requires Steady(n.tabs[u], n'.tabs[u], v)
    requires LinkInv(n, v, u)
    ensures LinkInv(n', v, u)
  {
    SteadyKnows(n, n', u, v);
    if i: nat :| Greets(n, v, u, i) {
      assert Greets(n', v, u, i);
    }
    forall m | Wants(n'.tabs[v], u, m) && ClientReg !in Chan(n', u, v) ensures Promised(n', v, u, m) {
      assert Promised(n, v, u, m);
      assert EntryOf(n.tabs[u], v, m) == EntryOf(n'.tabs[u], v, m);
    }
  }

  lemma SteadyKnows(n: Net, n': Net, u: Location, v: Location)
    requires u in n.tabs && u in n'.tabs && Steady(n.tabs[u], n'.tabs[u], v)
    ensures Knows(n', u, v) <==> Knows(n, u, v)
  {
    var anyMask := Event("", "", "", "", "", "", "", "");
    assert EntryOf(n.tabs[u], v, anyMask) == EntryOf(n'.tabs[u], v, anyMask);
  }

  lemma DownKept(n: Net, n': Net, u: Location, v: Location)
    requires u in n.tabs && u in n'.tabs && Steady(n.tabs[u], n'.tabs[u], v)
    requires Chan(n', v, u) == Chan(n, v, u) && DownInv(n, u, v)
    ensures DownInv(n', u, v)
  {
    SteadyKnows(n, n', u, v);
  }

  ghost predicate PairsInv(ghosts: Pairs, n: Net, u: Location, x: Location) {
    forall a <- n.tabs, b <- n.tabs :: a != b && {a, b} != {u, x} ==> PairInv(ghosts, n, a, b)
  }

  /** What keeps agent u's side of things with every agent but x. */
  ghost predicate GoodSends(n: Net, u: Location, x: Location, t': Table, sent: seq<Packet>)
    requires u in n.tabs
  {
    forall v <- n.tabs :: v != u && v != x ==>
      Faithful(n.tabs[u], t', v, Bodies(sent, AgentId(v))) && Steady(n.tabs[u], t', v)
  }

  /** A step of agent u keeps every pair but the one with x, the agent it is
      dealing with (x is u when there is none). */
  lemma SendsKeepsPairs(ghosts: Pairs, n: Net, u: Location, x: Location, t': Table, sent: seq<Packet>, n': Net)
    requires LinksOk(n) && PairsInv(ghosts, n, u, x) && Sends(n, u, t', sent, n')
    requires GoodSends(n, u, x, t', sent)
    ensures LinksOk(n') && PairsInv(ghosts, n', u, x)
  {
    forall a <- n'.tabs, b <- n'.tabs | a != b && {a, b} != {u, x} ensures PairInv(ghosts, n', a, b) {
      assert PairInv(ghosts, n, a, b) && PairInv(ghosts, n, b, a);
      assert (a, b) in n.links <==> (b, a) in n.links;
      if (a, b) !in n.links {
        assert Chan(n', b, a) == Chan(n, b, a);
        if DownInv(n, a, b) {
          DownKept(n, n', a, b);
        }
      } else if a == u {
        OutgoingKept(n, n', u, b, Bodies(sent, AgentId(b)));
      } else if b == u {
        IncomingKept(n, n', u, a, Bodies(sent, AgentId(a)));
      } else {
        OutgoingKept(n, n', a, b, []);
      }
    }
  }

  /** The pair of an agent with itself does not exist. */
  lemma AllPairs(ghosts: Pairs, n: Net, u: Location)
    ensures PairsInv(ghosts, n, u, u) <==> forall a <- n.tabs, b <- n.tabs :: a != b ==> PairInv(ghosts, n, a, b)
  {
    forall a <- n.tabs, b <- n.tabs | a != b ensures {a, b} != {u, u} {
      assert a in {a, b} && b in {a, b};
    }
  }

  ghost predicate AllIdsInv(n: Net) {
    forall u <- n.tabs :: IdsInv(n, u)
  }

  ghost predicate IdAllowed(n: Net, c: Id) {
    if IsAgent(c) then c == AgentId(c.loc) && c.loc in n.tabs else c.loc !in n.tabs
  }

  lemma SendsKeepsIds(n: Net, u: Location, t': Table, sent: seq<Packet>, n': Net)
    requires AllIdsInv(n) && Sends(n, u, t', sent, n') && TableOk(t')
    requires forall c <- t'.ids :: c in n.tabs[u].ids || (IdAllowed(n, c) && c != AgentId(u))
    ensures AllIdsInv(n')
  {
    forall w <- n'.tabs ensures IdsInv(n', w) {
      assert IdsInv(n, w) && IdsInv(n, u);
    }
  }

  // ---- clients come, go and change their minds

  lemma GoodClientSends(n: Net, s: Step, t': Table, sent: seq<Packet>, n': Net)
    requires s.Join? || s.Subscribe? || s.Unsubscribe? || s.Leave?
    requires Next(n, s, t', sent, n')
    ensures GoodSends(n, s.u, s.u, t', sent)
  {
    forall v <- n.tabs | v != s.u
      ensures Faithful(n.tabs[s.u], t', v, Bodies(sent, AgentId(v))) && Steady(n.tabs[s.u], t', v)
    {
      match s
      case Join(u, c) => RegisterIsFaithful(n.tabs[u], c, t', sent, [], v);
      case Subscribe(u, c, m) => SubscribeIsFaithful(n.tabs[u], c, m, t', sent, v);
      case Unsubscribe(u, c, m) => UnsubscribeIsFaithful(n.tabs[u], c, m, t', sent, v);
      case Leave(u, gone, loc, order) => DropIsFaithful(n.tabs[u], gone, loc, t', sent, order, v);
      case _ => assert false;
    }
  }

  lemma ClientStepKeeps(ghosts: Pairs, n: Net, s: Step, t': Table, sent: seq<Packet>, n': Net)
    requires s.Join? || s.Subscribe? || s.Unsubscribe? || s.Leave?
    requires InvBut(ghosts, n) && Next(n, s, t', sent, n')
    ensures InvBut(ghosts, n')
  {
    assert IdsInv(n, s.u);
    GoodClientSends(n, s, t', sent, n');
    AllPairs(ghosts, n, s.u);
    SendsKeepsPairs(ghosts, n, s.u, s.u, t', sent, n');
    AllPairs(ghosts, n', s.u);
    SendsKeepsIds(n, s.u, t', sent, n');
  }

  // ---- a message between agents is handled

  /** Handling a message does to the sender's entry what Apply says. */
  lemma ReceiveApplies(t: Table, v: Location, body: Body, t': Table, sent: seq<Packet>, order: seq<Mask>, m: Mask)
    requires TableOk(t) && Receive(t, v, body, t', sent, order)
    requires body.Lost? ==> forall c <- t.ids :: c.loc == v ==> c == AgentId(v)
    ensures EntryOf(t', v, m) == Apply(EntryOf(t, v, m), body, m)
  {
  }

  lemma ReceiveIsGood(n: Net, v: Location, u: Location, body: Body, t': Table, sent: seq<Packet>, order: seq<Mask>)
    requires u in n.tabs && Receive(n.tabs[u], v, body, t', sent, order)
    ensures GoodSends(n, u, v, t', sent)
  {
    forall w <- n.tabs | w != u && w != v
      ensures Faithful(n.tabs[u], t', w, Bodies(sent, AgentId(w))) && Steady(n.tabs[u], t', w)
    {
      assert AgentId(w) != AgentId(v);
      match body
      case ClientReg => RegisterIsFaithful(n.tabs[u], AgentId(v), t', sent, order, w);
      case Reg(m) => SubscribeIsFaithful(n.tabs[u], AgentId(v), m, t', sent, w);
      case Cancel(m) => UnsubscribeIsFaithful(n.tabs[u], AgentId(v), m, t', sent, w);
      case Lost => DropIsFaithful(n.tabs[u], At(n.tabs[u], v), v, t', sent, order, w);
    }
  }

  lemma ReceiveLists(n: Net, n': Net, v: Location, u: Location, sent: seq<Packet>, order: seq<Mask>)
    requires u in n.tabs && u in n'.tabs && IdsInv(n, u) && v in n.tabs && Chan(n, v, u) != []
    requires Receive(n.tabs[u], v, Chan(n, v, u)[0], n'.tabs[u], sent, order)
    ensures forall m :: EntryOf(n'.tabs[u], v, m) == Apply(EntryOf(n.tabs[u], v, m), Chan(n, v, u)[0], m)
    ensures Listed(Knows(n', u, v), Chan(n, v, u)[1..]) == Listed(Knows(n, u, v), Chan(n, v, u))
  {
    var q := Chan(n, v, u);
    forall m ensures EntryOf(n'.tabs[u], v, m) == Apply(EntryOf(n.tabs[u], v, m), q[0], m) {
      ReceiveApplies(n.tabs[u], v, q[0], n'.tabs[u], sent, order, m);
    }
    var anyMask := Event("", "", "", "", "", "", "", "");
    assert EntryOf(n'.tabs[u], v, anyMask) == Apply(EntryOf(n.tabs[u], v, anyMask), q[0], anyMask);
    ReadsOn(Knows(n, u, v), q, Knows(n', u, v));
  }

  /** What an agent answers to a message of v's announces nothing and loses nothing. */
  lemma ReplyIsQuiet(t: Table, v: Location, body: Body, t': Table, sent: seq<Packet>, order: seq<Mask>)
    requires Receive(t, v, body, t', sent, order)
    ensures Quiet(Bodies(sent, AgentId(v)))
  {
    assert !body.ClientReg? ==> Bodies(sent, AgentId(v)) == [];
  }

  /** The receiving direction: the queue got shorter by what was applied. */
  lemma ReadKept(n: Net, n': Net, v: Location, u: Location, sent: seq<Packet>, order: seq<Mask>)
    requires u in n.tabs && v in n.tabs && u in n'.tabs && v in n'.tabs
    requires n'.tabs[v] == n.tabs[v] && IdsInv(n, u)
    requires Chan(n, v, u) != [] && Chan(n', v, u) == Chan(n, v, u)[1..]
    requires Chan(n', u, v) == Chan(n, u, v) + Bodies(sent, AgentId(v))
    requires Receive(n.tabs[u], v, Chan(n, v, u)[0], n'.tabs[u], sent, order)
    requires LinkInv(n, v, u)
    ensures LinkInv(n', v, u)
  {
    ReceiveLists(n, n', v, u, sent, order);
    ReplyIsQuiet(n.tabs[u], v, Chan(n, v, u)[0], n'.tabs[u], sent, order);
    GreetingRead(n, n', v, u);
    forall m | Wants(n'.tabs[v], u, m) && ClientReg !in Chan(n', u, v) ensures Promised(n', v, u, m) {
      assert Promised(n, v, u, m);
    }
  }

  lemma GreetingRead(n: Net, n': Net, v: Location, u: Location)
    requires u in n.tabs && u in n'.tabs && Chan(n, v, u) != [] && Chan(n', v, u) == Chan(n, v, u)[1..]
    requires Knows(n', u, v) <==> Chan(n, v, u)[0] == ClientReg || (Knows(n, u, v) && Chan(n, v, u)[0] != Lost)
    requires if ClientReg in Chan(n, v, u) then exists i: nat :: Greets(n, v, u, i) else Lost !in Chan(n, v, u)
    ensures if ClientReg in Chan(n', v, u) then exists i: nat :: Greets(n', v, u, i) else Lost !in Chan(n', v, u)
  {
    var q := Chan(n, v, u);
    if ClientReg in q {
      var i: nat :| Greets(n, v, u, i);
      if i > 0 {
        assert q[..i][1..] == q[1..][..i - 1] && q[1..][i..] == q[i + 1..];
        ReadsOn(Knows(n, u, v), q[..i], Knows(n', u, v));
        assert Greets(n', v, u, i - 1);
      }
    }
  }

  /** A newly registered agent is told every mask held. */
  lemma WelcomeKept(n: Net, n': Net, u: Location, v: Location, sent: seq<Packet>, order: seq<Mask>)
    requires u in n.tabs && v in n.tabs && u in n'.tabs && v in n'.tabs && n'.tabs[v] == n.tabs[v]
    requires !Knows(n, u, v) && Quiet(Chan(n, u, v)) && Knows(n, v, u)
    requires RegisterStep(n.tabs[u], AgentId(v), n'.tabs[u], sent, order)
    requires Chan(n', u, v) == Chan(n, u, v) + Bodies(sent, AgentId(v))
    ensures Knows(n', u, v) && Interest(n', u, v) && Quiet(Chan(n', u, v))
  {
    var q := Chan(n, u, v);
    assert Bodies(sent, AgentId(v)) == Regs(order);
    QuietKeeps(true, q);
    forall m | Wants(n'.tabs[u], v, m) ensures Promised(n', u, v, m) {
      var c :| Subscribes(n'.tabs[u], c, m) && c.loc != v;
      assert Subscribes(n.tabs[u], c, m);
      var e := EntryOf(n.tabs[v], u, m);
      ListedIsKnown(e, q, m);
      ApplyConcat(e, q, Regs(order), m);
      ApplyRegs(ApplyAll(e, q, m).has, order, m);
    }
  }

  /** The answering direction of the same link. */
  lemma ReplyKept(n: Net, n': Net, v: Location, u: Location, sent: seq<Packet>, order: seq<Mask>)
    requires u in n.tabs && v in n.tabs && u in n'.tabs && v in n'.tabs && n'.tabs[v] == n.tabs[v]
    requires Chan(n, v, u) != [] && Chan(n', v, u) == Chan(n, v, u)[1..]
    requires Receive(n.tabs[u], v, Chan(n, v, u)[0], n'.tabs[u], sent, order)
    requires Chan(n', u, v) == Chan(n, u, v) + Bodies(sent, AgentId(v))
    requires LinkInv(n, v, u) && LinkInv(n, u, v)
    ensures LinkInv(n', u, v)
  {
    var q := Chan(n, v, u);
    ReplyIsQuiet(n.tabs[u], v, q[0], n'.tabs[u], sent, order);
    if ClientReg in q {
      assert Quiet(Chan(n', u, v));
      if ClientReg !in q[1..] {
        var i: nat :| Greets(n, v, u, i);
        assert q[..i] == [];
        WelcomeKept(n, n', u, v, sent, order);
      }
    } else {
      assert q[0] in q && Quiet(q) && Quiet(q[1..]);
      match q[0] {
        case Reg(m) => SubscribeIsFaithful(n.tabs[u], AgentId(v), m, n'.tabs[u], sent, v);
        case Cancel(m) => UnsubscribeIsFaithful(n.tabs[u], AgentId(v), m, n'.tabs[u], sent, v);
      }
      OutgoingKept(n, n', u, v, Bodies(sent, AgentId(v)));
    }
  }

  /** Agent u reads a message of v's, and what it answers goes over the link, if any. */
  ghost predicate Reads(n: Net, n': Net, v: Location, u: Location, sent: seq<Packet>, order: seq<Mask>) {
    && u in n.tabs && v in n.tabs && u in n'.tabs && v in n'.tabs && u != v
    && n'.tabs[v] == n.tabs[v] && n'.links == n.links
    && Chan(n, v, u) != [] && Chan(n', v, u) == Chan(n, v, u)[1..]
    && Chan(n', u, v) == Chan(n, u, v) + (if (u, v) in n.links then Bodies(sent, AgentId(v)) else [])
    && Receive(n.tabs[u], v, Chan(n, v, u)[0], n'.tabs[u], sent, order)
  }

  lemma ReadingKeepsPair(ghosts: Pairs, n: Net, n': Net, v: Location, u: Location, sent: seq<Packet>, order: seq<Mask>)
    requires Reads(n, n', v, u, sent, order) && IdsInv(n, u)
    requires PairInv(ghosts, n, u, v) && PairInv(ghosts, n, v, u) && ((u, v) in n.links <==> (v, u) in n.links)
    ensures PairInv(ghosts, n', u, v) && PairInv(ghosts, n', v, u)
  {
    if (u, v) in n.links {
      ReadKept(n, n', v, u, sent, order);
      ReplyKept(n, n', v, u, sent, order);
    } else {
      ReceiveLists(n, n', v, u, sent, order);
      assert Chan(n', u, v) == Chan(n, u, v);
    }
  }

  lemma DeliverKeepsOthers(ghosts: Pairs, n: Net, v: Location, u: Location, order: seq<Mask>,
                           t': Table, sent: seq<Packet>, n': Net)
    requires InvBut(ghosts, n) && Next(n, Deliver(v, u, order), t', sent, n')
    ensures LinksOk(n') && PairsInv(ghosts, n', u, v) && AllIdsInv(n')
  {
    var popped := Put(n, v, u, Chan(n, v, u)[1..]);
    assert IdsInv(n, u);
    PoppedPairs(ghosts, n, v, u);
    ReceiveIsGood(n, v, u, Chan(n, v, u)[0], t', sent, order);
    SendsKeepsPairs(ghosts, popped, u, v, t', sent, n');
    SendsKeepsIds(popped, u, t', sent, n');
  }

  lemma DeliverKeeps(ghosts: Pairs, n: Net, v: Location, u: Location, order: seq<Mask>,
                     t': Table, sent: seq<Packet>, n': Net)
    requires InvBut(ghosts, n) && Next(n, Deliver(v, u, order), t', sent, n')
    ensures InvBut(ghosts, n')
  {
    assert PairInv(ghosts, n, u, v) && PairInv(ghosts, n, v, u) && IdsInv(n, u);
    assert (u, v) in n.links <==> (v, u) in n.links;
    DeliverKeepsOthers(ghosts, n, v, u, order, t', sent, n');
    ReadingKeepsPair(ghosts, n, n', v, u, sent, order);
    Rejoined(ghosts, n', u, v);
  }

  lemma PoppedPairs(ghosts: Pairs, n: Net, v: Location, u: Location)
    requires InvBut(ghosts, n) && Chan(n, v, u) != []
    ensures PairsInv(ghosts, Put(n, v, u, Chan(n, v, u)[1..]), u, v)
    ensures AllIdsInv(Put(n, v, u, Chan(n, v, u)[1..]))
  {
    var popped := Put(n, v, u, Chan(n, v, u)[1..]);
    OthersKept(ghosts, n, popped, u, v);
    forall x <- popped.tabs ensures IdsInv(popped, x) {
      assert IdsInv(n, x);
    }
  }

  /** Nets that differ only in what concerns the pair of u and v. */
  lemma OthersKept(ghosts: Pairs, n: Net, n': Net, u: Location, v: Location)
    requires InvBut(ghosts, n) && n'.tabs == n.tabs
    requires forall a, b :: {a, b} != {u, v} ==>
               Chan(n', a, b) == Chan(n, a, b) && ((a, b) in n'.links <==> (a, b) in n.links)
    ensures PairsInv(ghosts, n', u, v)
  {
    forall a <- n'.tabs, b <- n'.tabs | a != b && {a, b} != {u, v} ensures PairInv(ghosts, n', a, b) {
      assert PairInv(ghosts, n, a, b) && {b, a} == {a, b};
      if (a, b) in n.links {
        OutgoingKept(n, n', a, b, []);
      }
    }
  }

  lemma Rejoined(ghosts: Pairs, n: Net, u: Location, v: Location)
    requires u != v && u in n.tabs && v in n.tabs
    requires PairsInv(ghosts, n, u, v) && PairInv(ghosts, n, u, v) && PairInv(ghosts, n, v, u)
    ensures forall a <- n.tabs, b <- n.tabs :: a != b ==> PairInv(ghosts, n, a, b)
  {
    forall a <- n.tabs, b <- n.tabs | a != b && {a, b} == {u, v} ensures PairInv(ghosts, n, a, b) {
      assert a in {u, v} && b in {u, v};
    }
  }

  // ---- links come and go

  lemma GreetingIsGood(n: Net, w: Location, u: Location, t': Table, sent: seq<Packet>, order: seq<Mask>)
    requires w in n.tabs && RegisterStep(n.tabs[w], AgentId(u), t', sent, order)
    ensures GoodSends(n, w, u, t', sent)
  {
    forall v <- n.tabs | v != w && v != u
      ensures Faithful(n.tabs[w], t', v, Bodies(sent, AgentId(v))) && Steady(n.tabs[w], t', v)
    {
      assert AgentId(v) != AgentId(u);
      RegisterIsFaithful(n.tabs[w], AgentId(u), t', sent, order, v);
    }
  }

  lemma LinkedPairs(ghosts: Pairs, n: Net, w: Location, u: Location)
    requires InvBut(ghosts, n) && w in n.tabs && u in n.tabs && w != u
    ensures PairsInv(ghosts, Linked(n, w, u), w, u) && LinksOk(Linked(n, w, u)) && AllIdsInv(Linked(n, w, u))
  {
    var linked := Linked(n, w, u);
    forall a, b | {a, b} != {w, u}
      ensures ((a, b) in linked.links <==> (a, b) in n.links) && Chan(linked, a, b) == Chan(n, a, b) {
      assert {b, a} == {a, b};
    }
    OthersKept(ghosts, n, linked, w, u);
    forall x <- linked.tabs ensures IdsInv(linked, x) {
      assert IdsInv(n, x);
    }
  }

  /** The past of w and u does not get in the way of a connection of w to u: what w has
      to read says neither that u is gone nor that it is there, u will not list w when it
      reads the announcement, and if w lists u, there is nothing to tell it. */
  ghost predicate FreshStart(n: Net, w: Location, u: Location)
    requires w in n.tabs
  {
    && Quiet(Chan(n, u, w)) && !Listed(Knows(n, u, w), Chan(n, w, u))
    && (Knows(n, w, u) ==> forall m :: !Wants(n.tabs[w], u, m))
  }

  lemma ConnectKeepsOthers(ghosts: Pairs, n: Net, w: Location, u: Location, order: seq<Mask>,
                           t': Table, sent: seq<Packet>, n': Net)
    requires InvBut(ghosts, n) && Next(n, Connect(w, u, order), t', sent, n')
    ensures LinksOk(n') && PairsInv(ghosts, n', w, u) && AllIdsInv(n')
  {
    var linked := Linked(n, w, u);
    assert IdsInv(n, w) && IdsInv(n, u);
    LinkedPairs(ghosts, n, w, u);
    GreetingIsGood(n, w, u, t', sent, order);
    SendsKeepsPairs(ghosts, linked, w, u, t', sent, n');
    SendsKeepsIds(linked, w, t', sent, n');
  }

  lemma ConnectKeeps(ghosts: Pairs, n: Net, w: Location, u: Location, order: seq<Mask>,
                     t': Table, sent: seq<Packet>, n': Net)
    requires InvBut(ghosts, n) && Next(n, Connect(w, u, order), t', sent, n') && FreshStart(n, w, u)
    ensures InvBut(ghosts, n')
  {
    assert PairInv(ghosts, n, u, w) && PairInv(ghosts, n, w, u) && IdsInv(n, u);
    assert (u, w) !in n.links;
    ConnectKeepsOthers(ghosts, n, w, u, order, t', sent, n');
    IntroductionHolds(n, n', w, u, sent, order);
    Rejoined(ghosts, n', w, u);
  }

  /** The new child announces itself, and behind that sends every mask it holds; what is
      left of an earlier connection does no harm. */
  lemma IntroductionHolds(n: Net, n': Net, w: Location, u: Location, sent: seq<Packet>, order: seq<Mask>)
    requires w in n.tabs && u in n.tabs && w in n'.tabs && u in n'.tabs && w != u
    requires n'.tabs[u] == n.tabs[u] && TableOk(n.tabs[u])
    requires FreshStart(n, w, u)
    requires RegisterStep(n.tabs[w], AgentId(u), n'.tabs[w], sent, order)
    requires Chan(n', w, u) == Chan(n, w, u) + [ClientReg] + Bodies(sent, AgentId(u))
    requires Chan(n', u, w) == Chan(n, u, w)
    ensures LinkInv(n', w, u) && LinkInv(n', u, w)
  {
    var q := Chan(n, w, u);
    var news := Bodies(sent, AgentId(u));
    assert news == if Knows(n, w, u) then [] else Regs(order);
    assert Chan(n', w, u)[..|q|] == q && Chan(n', w, u)[|q| + 1..] == news;
    assert Greets(n', w, u, |q|);
    forall m | Wants(n'.tabs[w], u, m) ensures Promised(n', w, u, m) {
      assert !Knows(n, w, u);
      var c :| Subscribes(n'.tabs[w], c, m) && c.loc != u;
      assert Subscribes(n.tabs[w], c, m);
      var e := EntryOf(n.tabs[u], w, m);
      ListedIsKnown(e, q, m);
      ApplyConcat(e, q + [ClientReg], Regs(order), m);
      ApplyConcat(e, q, [ClientReg], m);
      ApplyOne(ApplyAll(e, q, m), ClientReg, m);
      ApplyRegs(false, order, m);
    }
  }

  /** Without a marker, whoever is not listed in the end was not and does not announce
      itself. */
  lemma QuietRest(known: bool, q: seq<Body>)
    requires !Listed(known, q) && Lost !in q
    ensures !known && Quiet(q)
  {
    ListedExactly(known, q);
    if ClientReg in q {
      var i :| 0 <= i < |q| && q[i] == ClientReg;
      assert IntroducesAt(q, i);
    }
  }

  lemma BreakKeeps(ghosts: Pairs, n: Net, u: Location, v: Location, i: nat, j: nat,
                   t': Table, sent: seq<Packet>, n': Net)
    requires InvBut(ghosts, n) && Next(n, Break(u, v, i, j), t', sent, n')
    ensures InvBut(ghosts, n')
  {
    UnlinkedPairs(ghosts, n, u, v, Chan(n, u, v)[..i] + [Lost], Chan(n, v, u)[..j] + [Lost]);
    MarkerForgets(Knows(n', u, v), Chan(n, v, u)[..j]);
    MarkerForgets(Knows(n', v, u), Chan(n, u, v)[..i]);
    Rejoined(ghosts, n', u, v);
  }

  lemma MarkerForgets(known: bool, q: seq<Body>)
    ensures !Listed(known, q + [Lost])
  {
    ListedConcat(known, q, [Lost]);
    assert [Lost][1..] == [];
  }

  lemma SymmetricPairs(n: Net, n': Net, u: Location, v: Location)
    requires n'.links == n.links - {(u, v), (v, u)}
    ensures forall a, b :: {a, b} != {u, v} ==> ((a, b) in n'.links <==> (a, b) in n.links)
  {
    forall a, b | {a, b} != {u, v} ensures (a, b) in n'.links <==> (a, b) in n.links {
      assert {b, a} == {a, b};
    }
  }

  lemma PartingIsGood(n: Net, u: Location, v: Location, t': Table, sent: seq<Packet>, order: seq<Mask>)
    requires u in n.tabs && DropStep(n.tabs[u], {AgentId(v)}, v, t', sent, order)
    ensures GoodSends(n, u, v, t', sent)
  {
    forall w <- n.tabs | w != u && w != v
      ensures Faithful(n.tabs[u], t', w, Bodies(sent, AgentId(w))) && Steady(n.tabs[u], t', w)
    {
      DropIsFaithful(n.tabs[u], {AgentId(v)}, v, t', sent, order, w);
    }
  }

  lemma UnlinkedPairs(ghosts: Pairs, n: Net, u: Location, v: Location, q: seq<Body>, r: seq<Body>)
    requires InvBut(ghosts, n)
    ensures var cut := Unlinked(n, u, v, q, r);
            PairsInv(ghosts, cut, u, v) && LinksOk(cut) && AllIdsInv(cut)
  {
    var cut := Unlinked(n, u, v, q, r);
    SymmetricPairs(n, cut, u, v);
    OthersKept(ghosts, n, cut, u, v);
    forall x <- cut.tabs ensures IdsInv(cut, x) {
      assert IdsInv(n, x);
    }
  }

  /** What u has already queued of v's does not bring v back. */
  ghost predicate NothingNew(n: Net, u: Location, v: Location, j: nat) {
    j <= |Chan(n, v, u)| && !Introduces(Chan(n, v, u)[..j])
  }

  lemma DropKeeps(ghosts: Pairs, n: Net, u: Location, v: Location, k: nat, j: nat, order: seq<Mask>,
                  t': Table, sent: seq<Packet>, n': Net)
    requires InvBut(ghosts, n) && Next(n, Drop(u, v, k, j, order), t', sent, n')
    requires (u, v) in ghosts || NothingNew(n, u, v, j)
    ensures InvBut(ghosts, n')
  {
    var q, r := Chan(n, u, v)[..k], Chan(n, v, u)[..j];
    var cut := Unlinked(n, u, v, q + [Lost], r);
    assert PairInv(ghosts, n, v, u) && IdsInv(n, u) && (v, u) in n.links;
    UnlinkedPairs(ghosts, n, u, v, q + [Lost], r);
    PartingIsGood(n, u, v, t', sent, order);
    SendsKeepsPairs(ghosts, cut, u, v, t', sent, n');
    assert Chan(n', u, v) == q + [Lost];
    MarkerForgets(Knows(n', v, u), q);
    DropLastsExactly(n, u, v, k, j, order, t', sent, n');
    Rejoined(ghosts, n', u, v);
    SendsKeepsIds(cut, u, t', sent, n');
  }

  /** A refused send before the loss is found: the marker, when it is read, finds the
      neighbour gone. */
  lemma RefuseKeeps(ghosts: Pairs, n: Net, u: Location, v: Location, order: seq<Mask>,
                    t': Table, sent: seq<Packet>, n': Net)
    requires InvBut(ghosts, n) && Next(n, Refuse(u, v, order), t', sent, n')
    ensures InvBut(ghosts, n')
  {
    assert PairInv(ghosts, n, u, v) && PairInv(ghosts, n, v, u);
    RefuseKeepsOthers(ghosts, n, u, v, order, t', sent, n');
    assert (Knows(n', v, u) <==> Knows(n, v, u)) && !Knows(n', u, v);
    ListedExactly(Knows(n, u, v), Chan(n, v, u));
    ListedExactly(false, Chan(n, v, u));
    Rejoined(ghosts, n', u, v);
  }

  lemma RefuseKeepsOthers(ghosts: Pairs, n: Net, u: Location, v: Location, order: seq<Mask>,
                          t': Table, sent: seq<Packet>, n': Net)
    requires InvBut(ghosts, n) && Next(n, Refuse(u, v, order), t', sent, n')
    ensures LinksOk(n') && PairsInv(ghosts, n', u, v) && AllIdsInv(n')
    ensures (v, u) !in n'.links && Chan(n', u, v) == Chan(n, u, v) && Chan(n', v, u) == Chan(n, v, u)
  {
    assert IdsInv(n, u) && (v, u) !in n.links;
    PartingIsGood(n, u, v, t', sent, order);
    AllPairs(ghosts, n, u);
    SendsKeepsPairs(ghosts, n, u, v, t', sent, n');
    SendsKeepsIds(n, u, t', sent, n');
  }

  // ---- a loss that an agent is not told of

  /** Without its i-th message, what v has queued for u still leaves v forgotten. */
  ghost predicate Dispensable(n: Net, u: Location, v: Location, i: nat) {
    && i < |Chan(n, v, u)| && !Introduces(Removed(Chan(n, v, u), i))
    && (Knows(n, u, v) ==> Lost in Removed(Chan(n, v, u), i))
  }

  lemma OverlookKeeps(ghosts: Pairs, n: Net, u: Location, v: Location, i: nat, t': Table, sent: seq<Packet>, n': Net)
    requires InvBut(ghosts, n) && Next(n, Overlook(u, v, i), t', sent, n')
    requires (u, v) in ghosts || Dispensable(n, u, v, i)
    ensures InvBut(ghosts, n')
  {
    assert PairInv(ghosts, n, v, u) && ((v, u) in n.links ==> (u, v) in n.links);
    OthersKept(ghosts, n, n', u, v);
    ListedExactly(Knows(n, u, v), Removed(Chan(n, v, u), i));
    Rejoined(ghosts, n', u, v);
    SameIds(ghosts, n, n');
  }

  // ---- an announcement overtakes a marker

  ghost function Swapped(q: seq<Body>, i: nat): seq<Body>
    requires i + 1 < |q|
  {
    q[..i] + [q[i + 1], Lost] + q[i + 2..]
  }

  /** What is read before an announcement of a stranger makes no difference. */
  lemma AfterGreeting(n: Net, u: Location, v: Location, i: nat, m: Mask)
    requires v in n.tabs && Greets(n, u, v, i)
    ensures ApplyAll(EntryOf(n.tabs[v], u, m), Chan(n, u, v), m) ==
            ApplyAll(Entry(true, false), Chan(n, u, v)[i + 1..], m)
  {
    var e, q := EntryOf(n.tabs[v], u, m), Chan(n, u, v);
    assert q == q[..i] + ([ClientReg] + q[i + 1..]);
    ApplyConcat(e, q[..i], [ClientReg] + q[i + 1..], m);
    ListedIsKnown(e, q[..i], m);
    assert ([ClientReg] + q[i + 1..])[1..] == q[i + 1..];
  }

  /** If the greeting is further behind, the marker may change places. */
  lemma SwapKeepsGreeting(n: Net, n': Net, u: Location, v: Location, i: nat, g: nat)
    requires v in n.tabs && n'.tabs == n.tabs && Greets(n, u, v, g)
    requires i + 1 < g && Chan(n, u, v)[i] == Lost && Chan(n', u, v) == Swapped(Chan(n, u, v), i)
    ensures Greets(n', u, v, g)
  {
    var q, q' := Chan(n, u, v), Chan(n', u, v);
    var known, rest := Knows(n, v, u), q[i + 2..g];
    assert q[..g] == (q[..i] + [Lost, q[i + 1]]) + rest;
    assert q'[..g] == (q[..i] + [q[i + 1]] + [Lost]) + rest;
    assert q'[g + 1..] == q[g + 1..];
    ListedConcat(known, q[..i] + [Lost, q[i + 1]], rest);
    ListedConcat(known, q[..i] + [q[i + 1]] + [Lost], rest);
    MarkerForgets(known, q[..i] + [q[i + 1]]);
    ListedExactly(Listed(known, q[..i] + [Lost, q[i + 1]]), rest);
    ListedExactly(false, rest);
  }

  /** Another announcement is still to come. */
  ghost predicate GreetsAgain(n: Net, u: Location, v: Location, i: nat) {
    i + 2 <= |Chan(n, u, v)| && ClientReg in Chan(n, u, v)[i + 2..]
  }

  lemma OvertakeKeepsExactly(ghosts: Pairs, n: Net, u: Location, v: Location, i: nat,
                             t': Table, sent: seq<Packet>, n': Net)
    requires InvBut(ghosts, n) && Next(n, Overtake(u, v, i), t', sent, n')
    ensures InvBut(ghosts, n') <==> GreetsAgain(n, u, v, i)
  {
    var q := Chan(n, u, v);
    assert PairInv(ghosts, n, u, v) && PairInv(ghosts, n, v, u);
    assert q[i] in q;
    var g: nat :| Greets(n, u, v, g);
    assert i < g;
    if GreetsAgain(n, u, v, i) {
      SwapKeepsGreeting(n, n', u, v, i, g);
      SwapKeepsPairs(ghosts, n, n', u, v, i, g);
      SameIds(ghosts, n, n');
    } else {
      SwapSpoils(ghosts, n, n', u, v, i);
    }
  }

  lemma SameIds(ghosts: Pairs, n: Net, n': Net)
    requires InvBut(ghosts, n) && n'.tabs == n.tabs && n'.links == n.links
    ensures LinksOk(n') && AllIdsInv(n')
  {
    forall x <- n'.tabs ensures IdsInv(n', x) {
      assert IdsInv(n, x);
    }
  }

  lemma SwapKeepsPairs(ghosts: Pairs, n: Net, n': Net, u: Location, v: Location, i: nat, g: nat)
    requires InvBut(ghosts, n) && (u, v) in n.links && i + 1 < |Chan(n, u, v)|
    requires n' == Put(n, u, v, Swapped(Chan(n, u, v), i))
    requires Greets(n, u, v, g) && Greets(n', u, v, g) && i + 1 < g
    ensures forall a <- n'.tabs, b <- n'.tabs :: a != b ==> PairInv(ghosts, n', a, b)
  {
    var q, q' := Chan(n, u, v), Chan(n', u, v);
    assert u != v && PairInv(ghosts, n, u, v) && PairInv(ghosts, n, v, u);
    OthersKept(ghosts, n, n', u, v);
    assert q[g] in q && q'[g] in q' && q'[g + 1..] == q[g + 1..];
    forall m | Wants(n'.tabs[u], v, m) && ClientReg !in Chan(n', v, u) ensures Promised(n', u, v, m) {
      assert Promised(n, u, v, m);
      AfterGreeting(n, u, v, g, m);
      AfterGreeting(n', u, v, g, m);
    }
    Rejoined(ghosts, n', u, v);
  }

  lemma SwapSpoils(ghosts: Pairs, n: Net, n': Net, u: Location, v: Location, i: nat)
    requires InvBut(ghosts, n) && (u, v) in n.links && i + 1 < |Chan(n, u, v)| && Chan(n, u, v)[i + 1] == ClientReg
    requires Quiet(Chan(n, u, v)[i + 2..])
    requires n' == Put(n, u, v, Swapped(Chan(n, u, v), i))
    ensures !InvBut(ghosts, n')
  {
    var q' := Chan(n', u, v);
    assert q'[i] == ClientReg && q'[i + 1] == Lost && q'[i + 2..] == Chan(n, u, v)[i + 2..];
    assert q'[i] in q' && u != v && PairInv(ghosts, n, u, v);
    forall g: nat ensures !Greets(n', u, v, g) {
    }
    assert !PairInv(ghosts, n', u, v);
  }

  // ---- every run

  /** The steps that keep the invariant: connections that the past does not get in the way
      of; losses after which an agent forgets the other, unless that is not asked for; and
      announcements overtaking markers only if other announcements follow. */
  ghost predicate Careful(ghosts: Pairs, n: Net, s: Step) {
    match s
    case Connect(w, u, _) => w in n.tabs && FreshStart(n, w, u)
    case Drop(u, v, _, j, _) => (u, v) in ghosts || NothingNew(n, u, v, j)
    case Overtake(u, v, i) => GreetsAgain(n, u, v, i)
    case Overlook(u, v, i) => (u, v) in ghosts || Dispensable(n, u, v, i)
    case _ => true
  }

  lemma LossKeeps(ghosts: Pairs, n: Net, s: Step, t': Table, sent: seq<Packet>, n': Net)
    requires s.Break? || s.Drop? || s.Refuse? || s.Overlook?
    requires InvBut(ghosts, n) && Next(n, s, t', sent, n') && Careful(ghosts, n, s)
    ensures InvBut(ghosts, n')
  {
    if s.Break? {
      BreakKeeps(ghosts, n, s.u, s.v, s.i, s.j, t', sent, n');
    } else if s.Drop? {
      DropKeeps(ghosts, n, s.u, s.v, s.k, s.j, s.order, t', sent, n');
    } else if s.Refuse? {
      RefuseKeeps(ghosts, n, s.u, s.v, s.order, t', sent, n');
    } else {
      OverlookKeeps(ghosts, n, s.u, s.v, s.i, t', sent, n');
    }
  }

  lemma StepKeeps(ghosts: Pairs, n: Net, s: Step, t': Table, sent: seq<Packet>, n': Net)
    requires InvBut(ghosts, n) && Next(n, s, t', sent, n') && Careful(ghosts, n, s)
    ensures InvBut(ghosts, n')
  {
    if s.Deliver? {
      DeliverKeeps(ghosts, n, s.v, s.u, s.order, t', sent, n');
    } else if s.Connect? {
      ConnectKeeps(ghosts, n, s.w, s.u, s.order, t', sent, n');
    } else if s.Overtake? {
      OvertakeKeepsExactly(ghosts, n, s.u, s.v, s.i, t', sent, n');
    } else if s.Break? || s.Drop? || s.Refuse? || s.Overlook? {
      LossKeeps(ghosts, n, s, t', sent, n');
    } else {
      ClientStepKeeps(ghosts, n, s, t', sent, n');
    }
  }

  ghost predicate CanStep(ghosts: Pairs, n: Net, n': Net) {
    exists s, t', sent :: Next(n, s, t', sent, n') && Careful(ghosts, n, s)
  }

  ghost predicate Steps(ghosts: Pairs, run: seq<Net>) {
    run != [] && forall i :: 0 <= i < |run| - 1 ==> CanStep(ghosts, run[i], run[i + 1])
  }

  /** Agents start, and make careful steps. */
  ghost predicate Run(ghosts: Pairs, run: seq<Net>) {
    Steps(ghosts, run) && Init(run[0])
  }

  lemma InitInv(ghosts: Pairs, n: Net)
    requires Init(n)
    ensures InvBut(ghosts, n)
  {
  }

  lemma {:induction false} StepsKeepInv(ghosts: Pairs, run: seq<Net>, k: nat)
    requires Steps(ghosts, run) && InvBut(ghosts, run[0]) && k < |run|
    ensures InvBut(ghosts, run[k])
  {
    if k > 0 {
      StepsKeepInv(ghosts, run, k - 1);
      assert CanStep(ghosts, run[k - 1], run[k - 1 + 1]);
      var s, t', sent :| Next(run[k - 1], s, t', sent, run[k]) && Careful(ghosts, run[k - 1], s);
      StepKeeps(ghosts, run[k - 1], s, t', sent, run[k]);
    }
  }

  lemma RunKeepsInv(ghosts: Pairs, run: seq<Net>, k: nat)
    requires Run(ghosts, run) && k < |run|
    ensures InvBut(ghosts, run[k])
  {
    InitInv(ghosts, run[0]);
    StepsKeepInv(ghosts, run, k);
  }

  /** No interest is lost in any run: while a link works, and v's announcement to u, if
      there was one, has been read, u lists v, and every mask wanted at u by anyone but
      v is a mask under which v will list u once it has handled what u has sent. With
      ghosts everywhere, only connecting and overtaking need care. */
  lemma NoInterestIsLost(ghosts: Pairs, run: seq<Net>, k: nat, u: Location, v: Location, c: Id, m: Mask)
    requires Run(ghosts, run) && k < |run|
    requires u in run[k].tabs && (u, v) in run[k].links && ClientReg !in Chan(run[k], v, u)
    requires Subscribes(run[k].tabs[u], c, m) && c.loc != v
    ensures v in run[k].tabs && Knows(run[k], u, v) && Promised(run[k], u, v, m)
  {
    RunKeepsInv(ghosts, run, k);
    assert PairInv(ghosts, run[k], u, v);
    assert Wants(run[k].tabs[u], v, m);
  }

  ghost predicate Settled(n: Net) {
    forall a, b :: Chan(n, a, b) == []
  }

  /** When all messages are handled, agents know each other exactly when they are
      linked, but for the ghosts, and every interest is listed at every neighbour. */
  lemma SettledRun(ghosts: Pairs, run: seq<Net>, k: nat, u: Location, v: Location)
    requires Run(ghosts, run) && k < |run| && Settled(run[k])
    requires u in run[k].tabs && v in run[k].tabs && u != v
    ensures (u, v) in run[k].links ==> Knows(run[k], u, v)
    ensures Knows(run[k], u, v) ==> (u, v) in run[k].links || (u, v) in ghosts
    ensures (u, v) in run[k].links ==>
              forall c, m :: Subscribes(run[k].tabs[u], c, m) && c.loc != v ==>
                             Subscribes(run[k].tabs[v], AgentId(u), m)
  {
    RunKeepsInv(ghosts, run, k);
    SettledPair(ghosts, run[k], u, v);
  }

  lemma SettledPair(ghosts: Pairs, n: Net, u: Location, v: Location)
    requires InvBut(ghosts, n) && Settled(n) && u in n.tabs && v in n.tabs && u != v
    ensures (u, v) in n.links ==> Knows(n, u, v)
    ensures Knows(n, u, v) ==> (u, v) in n.links || (u, v) in ghosts
    ensures (u, v) in n.links ==>
              forall c, m :: Subscribes(n.tabs[u], c, m) && c.loc != v ==> Subscribes(n.tabs[v], AgentId(u), m)
  {
    assert PairInv(ghosts, n, u, v);
    if (u, v) in n.links {
      forall c, m | Subscribes(n.tabs[u], c, m) && c.loc != v
        ensures Subscribes(n.tabs[v], AgentId(u), m) {
        assert Wants(n.tabs[u], v, m);
        assert Promised(n, u, v, m);
      }
    }
  }

  lemma SettledKnows(n: Net, u: Location, v: Location)
    requires Inv(n) && Settled(n) && u in n.tabs && v in n.tabs && u != v
    ensures Knows(n, u, v) <==> (u, v) in n.links
    ensures (u, v) in n.links ==>
              forall c, m :: Subscribes(n.tabs[u], c, m) && c.loc != v ==> Subscribes(n.tabs[v], AgentId(u), m)
  {
    SettledPair(iset{}, n, u, v);
  }

  // ---- what exactly the careful steps avoid

  /** No step but a careful one keeps the invariant. */
  lemma StepKeepsExactly(ghosts: Pairs, n: Net, s: Step, t': Table, sent: seq<Packet>, n': Net)
    requires InvBut(ghosts, n) && Next(n, s, t', sent, n')
    ensures InvBut(ghosts, n') <==> Careful(ghosts, n, s)
  {
    if Careful(ghosts, n, s) {
      StepKeeps(ghosts, n, s, t', sent, n');
    } else if s.Overtake? {
      OvertakeKeepsExactly(ghosts, n, s.u, s.v, s.i, t', sent, n');
    } else if s.Connect? {
      PoorStartSpoils(ghosts, n, s.w, s.u, s.order, t', sent, n');
    } else if s.Overlook? {
      OverlookLastsExactly(n, s.u, s.v, s.i, t', sent, n');
      assert !PairInv(ghosts, n', s.u, s.v);
    } else {
      assert s.u != s.v;
      DropLastsExactly(n, s.u, s.v, s.k, s.j, s.order, t', sent, n');
      assert !PairInv(ghosts, n', s.u, s.v);
    }
  }

  lemma PoorStartSpoils(ghosts: Pairs, n: Net, w: Location, u: Location, order: seq<Mask>,
                        t': Table, sent: seq<Packet>, n': Net)
    requires InvBut(ghosts, n) && Next(n, Connect(w, u, order), t', sent, n') && !FreshStart(n, w, u)
    ensures !InvBut(ghosts, n')
  {
    if PairInv(ghosts, n', u, w) && PairInv(ghosts, n', w, u) {
      assert Chan(n', w, u)[|Chan(n, w, u)|] == ClientReg;
      var i: nat :| Greets(n', w, u, i);
      GreetingIsLast(n, n', w, u, sent, order, i);
      var m :| Wants(n.tabs[w], u, m) && Knows(n, w, u);
      TellsNothing(n, n', w, u, m);
      assert false;
    }
  }

  /** An announcement alone promises nothing. */
  lemma TellsNothing(n: Net, n': Net, w: Location, u: Location, m: Mask)
    requires u in n.tabs && u in n'.tabs && n'.tabs[u] == n.tabs[u]
    requires Chan(n', w, u) == Chan(n, w, u) + [ClientReg] && !Listed(Knows(n, u, w), Chan(n, w, u))
    ensures !Promised(n', w, u, m)
  {
    var e, q := EntryOf(n.tabs[u], w, m), Chan(n, w, u);
    ListedIsKnown(e, q, m);
    ApplyConcat(e, q, [ClientReg], m);
    ApplyOne(ApplyAll(e, q, m), ClientReg, m);
  }

  lemma AnnouncedBehind(q: seq<Body>, rest: seq<Body>, i: nat)
    requires i < |q|
    ensures ClientReg in (q + [ClientReg] + rest)[i + 1..]
  {
    assert (q + [ClientReg] + rest)[i + 1..][|q| - i - 1] == ClientReg;
  }

  /** An announcement with nothing but registrations behind it is the one just sent. */
  lemma GreetingIsLast(n: Net, n': Net, w: Location, u: Location, sent: seq<Packet>, order: seq<Mask>, i: nat)
    requires w in n.tabs && u in n.tabs && w in n'.tabs && u in n'.tabs && n'.tabs[u] == n.tabs[u]
    requires RegisterStep(n.tabs[w], AgentId(u), n'.tabs[w], sent, order)
    requires Chan(n', w, u) == Chan(n, w, u) + [ClientReg] + Bodies(sent, AgentId(u))
    requires Greets(n', w, u, i)
    ensures i == |Chan(n, w, u)| && Chan(n', w, u)[..i] == Chan(n, w, u)
  {
    var q := Chan(n, w, u);
    if i < |q| {
      AnnouncedBehind(q, Bodies(sent, AgentId(u)), i);
      assert false;
    }
    assert Bodies(sent, AgentId(u)) == [] || Bodies(sent, AgentId(u)) == Regs(order);
  }

  /** An agent that connects lists its new parent for good exactly when it has no marker
      of an earlier connection to read; the parent will list it in any case. */
  lemma ConnectLastsExactly(n: Net, w: Location, u: Location, order: seq<Mask>, t': Table, sent: seq<Packet>, n': Net)
    requires Inv(n) && Next(n, Connect(w, u, order), t', sent, n')
    ensures Listed(Knows(n', w, u), Chan(n', u, w)) <==> Lost !in Chan(n, u, w)
    ensures Listed(Knows(n', u, w), Chan(n', w, u))
  {
    var q, r := Chan(n, w, u), Chan(n, u, w);
    assert PairInv(iset{}, n, w, u) && DownInv(n, w, u);
    assert Chan(n', u, w) == r && Knows(n', w, u);
    ListedExactly(Knows(n, w, u), r);
    ListedExactly(true, r);
    assert Lost !in Bodies(sent, AgentId(u)) by {
      assert Bodies(sent, AgentId(u)) == [] || Bodies(sent, AgentId(u)) == Regs(order);
    }
    assert Chan(n', w, u) == q + [ClientReg] + Bodies(sent, AgentId(u));
    assert IntroducesAt(Chan(n', w, u), |q|);
    ListedExactly(Knows(n', u, w), Chan(n', w, u));
  }

  /** Without ghosts, the past gets in the way only through a marker. */
  lemma FreshExactly(n: Net, w: Location, u: Location)
    requires Inv(n) && w in n.tabs && u in n.tabs && w != u && (w, u) !in n.links
    ensures FreshStart(n, w, u) <==> Lost !in Chan(n, u, w)
  {
    assert PairInv(iset{}, n, w, u) && PairInv(iset{}, n, u, w);
    assert (u, w) !in n.links;
    if Lost !in Chan(n, u, w) {
      QuietRest(Knows(n, w, u), Chan(n, u, w));
    }
  }

  /** An agent that drops another has forgotten it for good exactly when it has no
      announcement of its to read that no marker follows. */
  lemma DropLastsExactly(n: Net, u: Location, v: Location, k: nat, j: nat, order: seq<Mask>,
                         t': Table, sent: seq<Packet>, n': Net)
    requires u != v && Next(n, Drop(u, v, k, j, order), t', sent, n')
    ensures !Listed(Knows(n', u, v), Chan(n', v, u)) <==> NothingNew(n, u, v, j)
  {
    assert Chan(n', v, u) == Chan(n, v, u)[..j];
    assert !Knows(n', u, v);
    ListedExactly(false, Chan(n, v, u)[..j]);
  }

  /** An agent that overlooks a loss forgets the other exactly when some other marker
      tells it, and no announcement comes after that. */
  lemma OverlookLastsExactly(n: Net, u: Location, v: Location, i: nat, t': Table, sent: seq<Packet>, n': Net)
    requires Next(n, Overlook(u, v, i), t', sent, n')
    ensures !Listed(Knows(n', u, v), Chan(n', v, u)) <==> Dispensable(n, u, v, i)
  {
    ListedExactly(Knows(n, u, v), Removed(Chan(n, v, u), i));
  }

  /** Once everything sent between them is read, agents list each other exactly when they
      are linked. */
  ghost predicate ListedWhenLinked(n: Net) {
    forall u <- n.tabs, v <- n.tabs :: u != v ==> (Listed(Knows(n, u, v), Chan(n, v, u)) <==> (u, v) in n.links)
  }

  lemma InvLists(n: Net)
    requires Inv(n)
    ensures ListedWhenLinked(n)
  {
    forall u <- n.tabs, v <- n.tabs | u != v
      ensures Listed(Knows(n, u, v), Chan(n, v, u)) <==> (u, v) in n.links {
      assert PairInv(iset{}, n, u, v) && PairInv(iset{}, n, v, u);
      if (u, v) in n.links {
        assert (v, u) in n.links;
        WillBeListed(n, v, u);
      }
    }
  }

  /** The careful steps are exactly those after which agents will list each other when
      they are linked, and only then. */
  lemma StepListsExactly(n: Net, s: Step, t': Table, sent: seq<Packet>, n': Net)
    requires Inv(n) && Next(n, s, t', sent, n')
    ensures ListedWhenLinked(n') <==> Careful(iset{}, n, s)
  {
    if Careful(iset{}, n, s) {
      StepKeeps(iset{}, n, s, t', sent, n');
      InvLists(n');
    } else if s.Connect? {
      PoorStartForgets(n, s.w, s.u, s.order, t', sent, n');
    } else if s.Overtake? {
      OvertakenForgets(n, s.u, s.v, s.i, t', sent, n');
    } else if s.Drop? {
      DroppedReturns(n, s.u, s.v, s.k, s.j, s.order, t', sent, n');
    } else {
      OverlookLastsExactly(n, s.u, s.v, s.i, t', sent, n');
    }
  }

  lemma PoorStartForgets(n: Net, w: Location, u: Location, order: seq<Mask>, t': Table, sent: seq<Packet>, n': Net)
    requires Inv(n) && Next(n, Connect(w, u, order), t', sent, n') && !FreshStart(n, w, u)
    ensures !ListedWhenLinked(n')
  {
    FreshExactly(n, w, u);
    ConnectLastsExactly(n, w, u, order, t', sent, n');
    assert (w, u) in n'.links;
  }

  lemma DroppedReturns(n: Net, u: Location, v: Location, k: nat, j: nat, order: seq<Mask>,
                       t': Table, sent: seq<Packet>, n': Net)
    requires Inv(n) && Next(n, Drop(u, v, k, j, order), t', sent, n') && !NothingNew(n, u, v, j)
    ensures !ListedWhenLinked(n')
  {
    assert u != v && u in n.tabs && v in n.tabs;
    DropLastsExactly(n, u, v, k, j, order, t', sent, n');
    assert (u, v) !in n'.links;
  }

  lemma OvertakenForgets(n: Net, u: Location, v: Location, i: nat, t': Table, sent: seq<Packet>, n': Net)
    requires Inv(n) && Next(n, Overtake(u, v, i), t', sent, n') && !GreetsAgain(n, u, v, i)
    ensures !ListedWhenLinked(n')
  {
    var q, rest := Chan(n, u, v), Chan(n, u, v)[i + 2..];
    var front := q[..i] + [q[i + 1]];
    assert (v, u) in n.links && PairInv(iset{}, n, u, v);
    assert q[i] in q;
    var g: nat :| Greets(n, u, v, g);
    assert g <= i + 1;
    assert Chan(n', u, v) == (front + [Lost]) + rest;
    MarkerForgets(Knows(n, v, u), front);
    ListedConcat(Knows(n, v, u), front + [Lost], rest);
    QuietKeeps(false, rest);
  }

  // ---- what a refused send repairs

  /** Agent u has no announcement of v's to read that no marker follows. */
  ghost predicate NoNews(n: Net, u: Location, v: Location) {
    !Introduces(Chan(n, v, u))
  }

  /** An event refused on its way to a ghost lays the ghost, exactly if the ghost does not
      come back with an announcement that is queued. */
  lemma RefusalMendsExactly(ghosts: Pairs, n: Net, u: Location, v: Location, order: seq<Mask>,
                            t': Table, sent: seq<Packet>, n': Net)
    requires InvBut(ghosts, n) && Next(n, Refuse(u, v, order), t', sent, n')
    ensures InvBut(ghosts - iset{(u, v)}, n') <==> NoNews(n, u, v)
  {
    var fewer := ghosts - iset{(u, v)};
    RefuseKeeps(ghosts, n, u, v, order, t', sent, n');
    RefuseKeepsOthers(ghosts, n, u, v, order, t', sent, n');
    assert !Knows(n', u, v);
    ListedExactly(false, Chan(n, v, u));
    assert PairInv(fewer, n', u, v) <==> NoNews(n, u, v);
    assert PairInv(ghosts, n', v, u);
    if NoNews(n, u, v) {
      forall a <- n'.tabs, b <- n'.tabs | a != b ensures PairInv(fewer, n', a, b) {
        assert PairInv(ghosts, n', a, b);
      }
    }
  }

  /** Whatever agent u overlooks of the loss of v, and whatever careful steps follow, once
      an event of u's is refused on its way to v, all is as if u had been told. */
  lemma GhostIsLaid(run: seq<Net>, u: Location, v: Location, order: seq<Mask>, t': Table, sent: seq<Packet>, n': Net)
    requires Steps(iset{(u, v)}, run) && Inv(run[0])
    requires Next(run[|run| - 1], Refuse(u, v, order), t', sent, n') && NoNews(run[|run| - 1], u, v)
    ensures Inv(n')
  {
    var ghosts := iset{(u, v)};
    forall a <- run[0].tabs, b <- run[0].tabs | a != b ensures PairInv(ghosts, run[0], a, b) {
      assert PairInv(iset{}, run[0], a, b);
    }
    StepsKeepInv(ghosts, run, |run| - 1);
    RefusalMendsExactly(ghosts, run[|run| - 1], u, v, order, t', sent, n');
    assert ghosts - iset{(u, v)} == iset{};
  }

  /** The welcome of a new child works exactly when the agent does not list the child
      already: if an announcement comes before the marker of the old connection, the
      child is told nothing, and misses whatever is wanted here. */
  lemma WelcomeWorksExactly(n: Net, w: Location, u: Location, order: seq<Mask>, t': Table, sent: seq<Packet>, n': Net)
    requires Next(n, Deliver(w, u, order), t', sent, n') && (u, w) in n.links
    requires Chan(n, w, u)[0] == ClientReg && Chan(n, u, w) == []
    requires Knows(n, w, u) && forall m :: !Subscribes(n.tabs[w], AgentId(u), m)
    ensures Interest(n', u, w) <==> !Knows(n, u, w) || forall m :: !Wants(n.tabs[u], w, m)
  {
    if Knows(n, u, w) {
      assert n'.tabs[u] == n.tabs[u] && Chan(n', u, w) == [];
      forall m | Wants(n.tabs[u], w, m) ensures !Promised(n', u, w, m) {
        assert EntryOf(n'.tabs[w], u, m) == Entry(true, false);
      }
    } else {
      WelcomeKept(n, n', u, w, sent, order);
    }
  }
}
