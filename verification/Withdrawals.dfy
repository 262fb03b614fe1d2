// Interest is not only kept, but also ended: exactly when the last subscriber at an
// agent goes, its neighbours stop listing it, once they have read what it sends
// (src/manager_lib/ftb_manager_lib.c:174-222, 894-931).
module Withdrawals {
  import opened Masks
  import opened Names
  import opened Tables
  import opened Overlay
  import opened OverlayInvariant

  /** What is sent to v makes it list the sender on under a mask it listed it under
      exactly if somebody still subscribes to the mask. */
  ghost predicate Ends(t: Table, t': Table, v: Location, q: seq<Body>) {
    forall m :: Wants(t, v, m) ==> ApplyAll(Entry(true, true), q, m) == Entry(true, Held(t', m))
  }

  lemma UnsubscribeEnds(t: Table, id: Id, k: Mask, t': Table, sent: seq<Packet>, v: Location)
    requires UnsubscribeStep(t, id, k, t', sent) && id.loc != v && AgentId(v) in t.ids
    ensures Ends(t, t', v, Bodies(sent, AgentId(v)))
  {
    var q := Bodies(sent, AgentId(v));
    forall m | Wants(t, v, m) ensures ApplyAll(Entry(true, true), q, m) == Entry(true, Held(t', m)) {
      var c :| Subscribes(t, c, m) && c.loc != v;
      if q == [] {
        OthersHold(t, id, k, t', m, c);
      } else {
        assert q == [Cancel(k)];
        ApplyOne(Entry(true, true), Cancel(k), m);
        assert forall d :: Subscribes(t', d, m) ==> Subscribes(t, d, m);
        assert m != k ==> Subscribes(t', c, m);
      }
    }
  }

  /** Without a cancellation, somebody holds the mask still. */
  lemma OthersHold(t: Table, id: Id, k: Mask, t': Table, m: Mask, c: Id)
    requires Subscribes(t, c, m)
    requires t' == t || (t' == t.(pairs := t.pairs - {(id, k)}) && !SoleSubscriber(t, id, k) && Subscribes(t, id, k))
    ensures Held(t', m)
  {
    if t' == t || m != k || c != id {
      assert Subscribes(t', c, m);
    } else {
      var d :| Subscribes(t, d, k) && d != id;
      assert Subscribes(t', d, m);
    }
  }

  lemma DropEnds(t: Table, gone: set<Id>, loc: Location, t': Table, sent: seq<Packet>, order: seq<Mask>, v: Location)
    requires DropStep(t, gone, loc, t', sent, order) && loc != v && AgentId(v) in t.ids
    ensures Ends(t, t', v, Bodies(sent, AgentId(v)))
  {
    assert Bodies(sent, AgentId(v)) == Cancels(order);
    forall m | Wants(t, v, m) ensures ApplyAll(Entry(true, true), Cancels(order), m) == Entry(true, Held(t', m)) {
      ApplyCancels(true, order, m);
      var c :| Subscribes(t, c, m) && c.loc != v;
      if Orphaned(t, gone, m) {
        assert forall d :: Subscribes(t', d, m) ==> Subscribes(t, d, m);
      } else {
        var d :| Subscribes(t, d, m) && d !in gone;
        assert Subscribes(t', d, m);
      }
    }
  }

  /** The step takes interest of others than v from agent s.u. */
  ghost predicate TakesAway(n: Net, s: Step, v: Location) {
    match s
    case Unsubscribe(_, _, _) => true
    case Leave(_, _, _, _) => true
    case Deliver(x, u, _) => x != v && Chan(n, x, u) != [] && (Chan(n, x, u)[0].Cancel? || Chan(n, x, u)[0].Lost?)
    case _ => false
  }

  lemma StepEnds(n: Net, s: Step, t': Table, sent: seq<Packet>, n': Net, v: Location)
    requires Next(n, s, t', sent, n') && TakesAway(n, s, v) && v in n.tabs && AgentId(v) in n.tabs[s.u].ids
    ensures Ends(n.tabs[s.u], t', v, Bodies(sent, AgentId(v)))
  {
    if s.Unsubscribe? {
      UnsubscribeEnds(n.tabs[s.u], s.c, s.m, t', sent, v);
    } else if s.Leave? {
      DropEnds(n.tabs[s.u], s.gone, s.loc, t', sent, s.order, v);
    } else {
      var body := Chan(n, s.v, s.u)[0];
      if body.Cancel? {
        UnsubscribeEnds(n.tabs[s.u], AgentId(s.v), body.mask, t', sent, v);
      } else {
        DropEnds(n.tabs[s.u], At(n.tabs[s.u], s.v), s.v, t', sent, s.order, v);
      }
    }
  }

  /** A subscription is withdrawn, a client goes, or a neighbour cancels or is lost, at
      agent u: of the masks wanted there before, neighbour v will list u under those that
      somebody still subscribes to there, and under no others. */
  lemma InterestEndsExactly(ghosts: Pairs, n: Net, s: Step, t': Table, sent: seq<Packet>, n': Net,
                            v: Location, m: Mask)
    requires InvBut(ghosts, n) && Next(n, s, t', sent, n') && TakesAway(n, s, v) && v != s.u
    requires (s.u, v) in n.links && ClientReg !in Chan(n, v, s.u) && Wants(n.tabs[s.u], v, m)
    ensures v in n'.tabs && s.u in n'.tabs
    ensures Promised(n', s.u, v, m) <==> Held(n'.tabs[s.u], m)
  {
    var u, q := s.u, Bodies(sent, AgentId(v));
    assert PairInv(ghosts, n, u, v);
    StepEnds(n, s, t', sent, n', v);
    assert Promised(n, u, v, m);
    assert n'.tabs[v] == n.tabs[v] && Chan(n', u, v) == Chan(n, u, v) + q;
    ApplyConcat(EntryOf(n.tabs[v], u, m), Chan(n, u, v), q, m);
  }
}
