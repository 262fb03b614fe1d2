// A network of agents: each agent's tables, and a FIFO channel in each direction
// of every link. The steps are those of Tables.dfy, made by agents in any order
// (src/agent/ftb_agent.c and src/manager_lib/ftb_manager_lib.c).
module Overlay {
  import opened Masks
  import opened Names
  import opened Tables

  /** links holds each link in both directions; chans holds what is queued from the
      first location of a pair to the second. */
  datatype Net = Net(
    tabs: map<Location, Table>,
    links: set<(Location, Location)>,
    chans: map<(Location, Location), seq<Body>>)

  function Chan(n: Net, u: Location, v: Location): seq<Body> {
    if (u, v) in n.chans then n.chans[(u, v)] else []
  }

  function Put(n: Net, u: Location, v: Location, q: seq<Body>): (r: Net)
    ensures forall a, b :: Chan(r, a, b) == if (a, b) == (u, v) then q else Chan(n, a, b)
  {
    n.(chans := n.chans[(u, v) := q])
  }

  datatype Step =
    | Join(u: Location, c: Id)
    | Subscribe(u: Location, c: Id, m: Mask)
    | Unsubscribe(u: Location, c: Id, m: Mask)
    | Leave(u: Location, gone: set<Id>, loc: Location, order: seq<Mask>)
    | Deliver(v: Location, u: Location, order: seq<Mask>)
    | Connect(w: Location, u: Location, order: seq<Mask>)
    | Break(u: Location, v: Location, i: nat, j: nat)
    | Drop(u: Location, v: Location, k: nat, j: nat, order: seq<Mask>)
    | Refuse(u: Location, v: Location, order: seq<Mask>)
    | Overtake(u: Location, v: Location, i: nat)
    | Overlook(u: Location, v: Location, i: nat)

  /** Agent u's tables become t', and what it sends reaches the ends of its links. */
  ghost predicate Sends(n: Net, u: Location, t': Table, sent: seq<Packet>, n': Net) {
    && u in n.tabs
    && n'.tabs == n.tabs[u := t']
    && n'.links == n.links
    && forall a, b :: Chan(n', a, b) ==
         Chan(n, a, b) + if a == u && (a, b) in n.links then Bodies(sent, AgentId(b)) else []
  }

  /** Client components run in processes of their own and do not pose as agents. */
  ghost predicate IsClient(n: Net, c: Id) {
    !IsAgent(c) && c.loc !in n.tabs
  }

  /** The dispatch of progress_loop on a message from agent v. */
  ghost predicate Receive(t: Table, v: Location, body: Body, t': Table, sent: seq<Packet>, order: seq<Mask>) {
    match body
    case ClientReg => RegisterStep(t, AgentId(v), t', sent, order)
    case Reg(m) => SubscribeStep(t, AgentId(v), m, t', sent)
    case Cancel(m) => UnsubscribeStep(t, AgentId(v), m, t', sent)
    case Lost => DropStep(t, At(t, v), v, t', sent, order)
  }

  ghost function Linked(n: Net, w: Location, u: Location): Net {
    Put(n.(links := n.links + {(w, u), (u, w)}), w, u, Chan(n, w, u) + [ClientReg])
  }

  ghost function Unlinked(n: Net, u: Location, v: Location, q: seq<Body>, r: seq<Body>): Net {
    Put(Put(n.(links := n.links - {(u, v), (v, u)}), u, v, q), v, u, r)
  }

  ghost predicate Next(n: Net, s: Step, t': Table, sent: seq<Packet>, n': Net) {
    match s
    case Join(u, c) =>
      && IsClient(n, c) && Sends(n, u, t', sent, n')
      && RegisterStep(n.tabs[u], c, t', sent, [])
    case Subscribe(u, c, m) =>
      && IsClient(n, c) && Sends(n, u, t', sent, n')
      && SubscribeStep(n.tabs[u], c, m, t', sent)
    case Unsubscribe(u, c, m) =>
      && IsClient(n, c) && Sends(n, u, t', sent, n')
      && UnsubscribeStep(n.tabs[u], c, m, t', sent)
    case Leave(u, gone, loc, order) =>
      && loc !in n.tabs && Sends(n, u, t', sent, n')
      && DropStep(n.tabs[u], gone, loc, t', sent, order)
    case Deliver(v, u, order) =>
      && v in n.tabs && u in n.tabs && v != u && Chan(n, v, u) != []
      && Sends(Put(n, v, u, Chan(n, v, u)[1..]), u, t', sent, n')
      && Receive(n.tabs[u], v, Chan(n, v, u)[0], t', sent, order)
    case Connect(w, u, order) =>
      // both may still have messages of an earlier connection to read
      && w in n.tabs && u in n.tabs && w != u && (w, u) !in n.links
      && Sends(Linked(n, w, u), w, t', sent, n')
      && RegisterStep(n.tabs[w], AgentId(u), t', sent, order)
    case Break(u, v, i, j) =>
      && (u, v) in n.links && i <= |Chan(n, u, v)| && j <= |Chan(n, v, u)|
      && n' == Unlinked(n, u, v, Chan(n, u, v)[..i] + [Lost], Chan(n, v, u)[..j] + [Lost])
    case Drop(u, v, k, j, order) =>
      // u closes the connection; some of what v sent may be in its queue already
      && (u, v) in n.links && k <= |Chan(n, u, v)| && j <= |Chan(n, v, u)|
      && Sends(Unlinked(n, u, v, Chan(n, u, v)[..k] + [Lost], Chan(n, v, u)[..j]), u, t', sent, n')
      && DropStep(n.tabs[u], {AgentId(v)}, v, t', sent, order)
    case Refuse(u, v, order) =>
      // a send finds the connection gone before the marker of its loss is read
      && v in n.tabs && u != v && (u, v) !in n.links
      && Sends(n, u, t', sent, n')
      && DropStep(n.tabs[u], {AgentId(v)}, v, t', sent, order)
    case Overtake(u, v, i) =>
      // the loss of an old connection is noticed after a message of the new one
      && (u, v) in n.links && i + 1 < |Chan(n, u, v)| && Chan(n, u, v)[i] == Lost
      && n' == Put(n, u, v, Chan(n, u, v)[..i] + [Chan(n, u, v)[i + 1], Lost] + Chan(n, u, v)[i + 2..])
    case Overlook(u, v, i) =>
      // a propagation finds the connection gone: it closes u's end of it with no more than
      // a warning, and the marker that u would have read never comes
      && u in n.tabs && v in n.tabs && u != v && (u, v) !in n.links
      && i < |Chan(n, v, u)| && Chan(n, v, u)[i] == Lost
      && n' == Put(n, v, u, Removed(Chan(n, v, u), i))
  }

  function Removed(q: seq<Body>, i: nat): (r: seq<Body>)
    requires i < |q|
  {
    q[..i] + q[i + 1..]
  }

  // ---- what the far end of a channel will know

  /** One end's entry for the other: is it listed, and is it listed under mask m. */
  datatype Entry = Entry(known: bool, has: bool)

  function Apply(e: Entry, body: Body, m: Mask): Entry {
    match body
    case ClientReg => if e.known then e else Entry(true, false)
    case Reg(k) => if e.known && k == m then Entry(true, true) else e
    case Cancel(k) => if k == m then e.(has := false) else e
    case Lost => Entry(false, false)
  }

  function ApplyAll(e: Entry, q: seq<Body>, m: Mask): Entry
    decreases |q|
  {
    if q == [] then e else ApplyAll(Apply(e, q[0], m), q[1..], m)
  }

  lemma {:induction false} ApplyConcat(e: Entry, a: seq<Body>, b: seq<Body>, m: Mask)
    ensures ApplyAll(e, a + b, m) == ApplyAll(ApplyAll(e, a, m), b, m)
    decreases |a|
  {
    if a == [] {
      assert a + b == b;
    } else {
      assert (a + b)[1..] == a[1..] + b;
      ApplyConcat(Apply(e, a[0], m), a[1..], b, m);
    }
  }

  lemma {:induction false} ApplyRegs(h: bool, order: seq<Mask>, m: Mask)
    ensures ApplyAll(Entry(true, h), Regs(order), m) == Entry(true, h || m in order)
    decreases |order|
  {
    if order != [] {
      assert Regs(order)[1..] == Regs(order[1..]);
      ApplyRegs(h || order[0] == m, order[1..], m);
    }
  }

  lemma {:induction false} ApplyCancels(h: bool, order: seq<Mask>, m: Mask)
    ensures ApplyAll(Entry(true, h), Cancels(order), m) == Entry(true, h && m !in order)
    decreases |order|
  {
    if order != [] {
      assert Cancels(order)[1..] == Cancels(order[1..]);
      ApplyCancels(h && order[0] != m, order[1..], m);
    }
  }

  lemma ApplyOne(e: Entry, body: Body, m: Mask)
    ensures ApplyAll(e, [body], m) == Apply(e, body, m)
  {
    assert [body][1..] == [];
    assert ApplyAll(Apply(e, body, m), [], m) == Apply(e, body, m);
  }

  // ---- the invariant

  ghost predicate Knows(n: Net, u: Location, v: Location) {
    u in n.tabs && AgentId(v) in n.tabs[u].ids
  }

  /** Somebody other than agent v itself wants mask m at the agent with table t. */
  ghost predicate Wants(t: Table, v: Location, m: Mask) {
    exists c :: Subscribes(t, c, m) && c.loc != v
  }

  ghost function EntryOf(t: Table, u: Location, m: Mask): Entry {
    Entry(AgentId(u) in t.ids, Subscribes(t, AgentId(u), m))
  }

  /** Once v has handled what u has queued for it, v lists u under m. */
  ghost predicate Promised(n: Net, u: Location, v: Location, m: Mask)
    requires v in n.tabs
  {
    ApplyAll(EntryOf(n.tabs[v], u, m), Chan(n, u, v), m) == Entry(true, true)
  }

  ghost predicate Interest(n: Net, u: Location, v: Location)
    requires u in n.tabs && v in n.tabs
  {
    forall m :: Wants(n.tabs[u], v, m) ==> Promised(n, u, v, m)
  }

  /** Whether a reader who lists the sender, or not, does so once it has read q. */
  predicate Listed(known: bool, q: seq<Body>)
    decreases |q|
  {
    if q == [] then known
    else Listed(q[0] == ClientReg || (known && q[0] != Lost), q[1..])
  }

  ghost predicate Quiet(q: seq<Body>) {
    Lost !in q && ClientReg !in q
  }

  /** The i-th message from u to v announces u: v will not list u when it reads it, and
      nothing behind it takes it back. */
  ghost predicate Greets(n: Net, u: Location, v: Location, i: nat) {
    && i < |Chan(n, u, v)| && Chan(n, u, v)[i] == ClientReg
    && !Listed(Knows(n, v, u), Chan(n, u, v)[..i])
    && Quiet(Chan(n, u, v)[i + 1..])
  }

  /** The direction u to v of a working link. Until u has read v's announcement, it owes
      v nothing; from then on, it lists v and has promised it whatever is wanted. */
  ghost predicate LinkInv(n: Net, u: Location, v: Location)
    requires u in n.tabs && v in n.tabs
  {
    && (if ClientReg in Chan(n, u, v) then Quiet(Chan(n, v, u)) && exists i: nat :: Greets(n, u, v, i)
        else Lost !in Chan(n, u, v))
    && (ClientReg !in Chan(n, v, u) ==> Knows(n, u, v) && Interest(n, u, v))
  }

  /** The pairs (u, v) of which it is not claimed that u forgets v when their link is lost. */
  type Pairs = iset<(Location, Location)>

  /** What u still has to read from v, when there is no link, leaves v forgotten. */
  ghost predicate DownInv(n: Net, u: Location, v: Location) {
    !Listed(Knows(n, u, v), Chan(n, v, u))
  }

  ghost predicate IdsInv(n: Net, u: Location)
    requires u in n.tabs
  {
    && TableOk(n.tabs[u]) && !Knows(n, u, u)
    && forall c <- n.tabs[u].ids ::
         if IsAgent(c) then c == AgentId(c.loc) && c.loc in n.tabs else c.loc !in n.tabs
  }

  ghost predicate LinksOk(n: Net) {
    forall p <- n.links ::
      (p.1, p.0) in n.links && p.0 != p.1 && p.0 in n.tabs && p.1 in n.tabs
  }

  ghost predicate PairInv(ghosts: Pairs, n: Net, u: Location, v: Location)
    requires u in n.tabs && v in n.tabs
  {
    if (u, v) in n.links then LinkInv(n, u, v) else (u, v) in ghosts || DownInv(n, u, v)
  }

  ghost predicate InvBut(ghosts: Pairs, n: Net) {
    && LinksOk(n)
    && (forall u <- n.tabs :: IdsInv(n, u))
    && (forall u <- n.tabs, v <- n.tabs :: u != v ==> PairInv(ghosts, n, u, v))
  }

  ghost predicate Inv(n: Net) {
    InvBut(iset{}, n)
  }

  /** Agents start with empty tables and without links. */
  ghost predicate Init(n: Net) {
    && n.links == {}
    && (forall u <- n.tabs :: n.tabs[u] == Table({}, {}))
    && (forall a, b :: Chan(n, a, b) == [])
  }

  // ---- a table step keeps an agent's promises to a neighbour

  /** What u sends v makes up for what changed in u's table. */
  ghost predicate Faithful(t: Table, t': Table, v: Location, q: seq<Body>) {
    && (AgentId(v) in t.ids <==> AgentId(v) in t'.ids)
    && Lost !in q && ClientReg !in q
    && (AgentId(v) !in t.ids ==> q == [])
    && (AgentId(v) in t.ids ==> forall m, h ::
         (Wants(t, v, m) ==> h) && Wants(t', v, m) ==> ApplyAll(Entry(true, h), q, m) == Entry(true, true))
  }

  /** The step leaves v's own entry alone. */
  ghost predicate Steady(t: Table, t': Table, v: Location) {
    forall m :: EntryOf(t, v, m) == EntryOf(t', v, m)
  }

  lemma NoNewsIsFaithful(t: Table, t': Table, v: Location)
    requires AgentId(v) in t.ids <==> AgentId(v) in t'.ids
    requires AgentId(v) in t.ids ==> forall c, m :: Subscribes(t', c, m) && c.loc != v ==> Subscribes(t, c, m)
    ensures Faithful(t, t', v, [])
  {
    forall m, h | AgentId(v) in t.ids && (Wants(t, v, m) ==> h) && Wants(t', v, m)
      ensures ApplyAll(Entry(true, h), [], m) == Entry(true, true)
    {
      var c :| Subscribes(t', c, m) && c.loc != v;
      assert Subscribes(t, c, m);
    }
  }

  lemma SubscribeIsFaithful(t: Table, id: Id, m: Mask, t': Table, sent: seq<Packet>, v: Location)
    requires SubscribeStep(t, id, m, t', sent)
    ensures Faithful(t, t', v, Bodies(sent, AgentId(v)))
    ensures AgentId(v) != id ==> Steady(t, t', v)
  {
    var q := Bodies(sent, AgentId(v));
    if q == [] {
      NoNewsIsFaithful(t, t', v);
    } else {
      assert q == [Reg(m)];
      forall k, h | (Wants(t, v, k) ==> h) && Wants(t', v, k)
        ensures ApplyAll(Entry(true, h), q, k) == Entry(true, true)
      {
        ApplyOne(Entry(true, h), Reg(m), k);
        var c :| Subscribes(t', c, k) && c.loc != v;
        assert k != m ==> Subscribes(t, c, k);
      }
    }
  }

  lemma UnsubscribeIsFaithful(t: Table, id: Id, m: Mask, t': Table, sent: seq<Packet>, v: Location)
    requires UnsubscribeStep(t, id, m, t', sent)
    ensures Faithful(t, t', v, Bodies(sent, AgentId(v)))
    ensures AgentId(v) != id ==> Steady(t, t', v)
  {
    var q := Bodies(sent, AgentId(v));
    if q == [] {
      NoNewsIsFaithful(t, t', v);
    } else {
      assert q == [Cancel(m)];
      forall k, h | (Wants(t, v, k) ==> h) && Wants(t', v, k)
        ensures ApplyAll(Entry(true, h), q, k) == Entry(true, true)
      {
        ApplyOne(Entry(true, h), Cancel(m), k);
        var c :| Subscribes(t', c, k) && c.loc != v;
        assert Subscribes(t, c, k);
      }
    }
  }

  lemma DropIsFaithful(t: Table, gone: set<Id>, loc: Location, t': Table, sent: seq<Packet>,
                       order: seq<Mask>, v: Location)
    requires DropStep(t, gone, loc, t', sent, order) && v != loc
    ensures Faithful(t, t', v, Bodies(sent, AgentId(v)))
    ensures Steady(t, t', v)
  {
    var q := Bodies(sent, AgentId(v));
    assert AgentId(v) !in gone;
    assert q == if AgentId(v) in t.ids then Cancels(order) else [];
    if q == [] {
      NoNewsIsFaithful(t, t', v);
    } else {
      forall k, h | (Wants(t, v, k) ==> h) && Wants(t', v, k)
        ensures ApplyAll(Entry(true, h), q, k) == Entry(true, true)
      {
        ApplyCancels(h, order, k);
        var c :| Subscribes(t', c, k) && c.loc != v;
        assert Subscribes(t, c, k) && c !in gone;
        assert !Orphaned(t, gone, k);
      }
    }
  }

  lemma RegisterIsFaithful(t: Table, id: Id, t': Table, sent: seq<Packet>, order: seq<Mask>, v: Location)
    requires RegisterStep(t, id, t', sent, order) && AgentId(v) != id
    ensures Faithful(t, t', v, Bodies(sent, AgentId(v)))
    ensures Steady(t, t', v)
    ensures Bodies(sent, AgentId(v)) == []
  {
    NoNewsIsFaithful(t, t', v);
  }
}
