// Why the theorems of OverlayInvariant.dfy are about careful steps: for each kind of
// careless step, a run after which an interest is lost over a working link.
module Reunions {
  import opened Masks
  import opened Names
  import opened Tables
  import opened Overlay
  import opened OverlayInvariant

  ghost predicate Move(n: Net, n': Net) {
    exists s, t', sent :: Next(n, s, t', sent, n')
  }

  /** Agents start, and make any steps. */
  ghost predicate Reaches(run: seq<Net>, n: Net) {
    && run != [] && Init(run[0]) && run[|run| - 1] == n
    && forall i :: 0 <= i < |run| - 1 ==> Move(run[i], run[i + 1])
  }

  lemma Extend(run: seq<Net>, n: Net, s: Step, t': Table, sent: seq<Packet>, n': Net) returns (longer: seq<Net>)
    requires Reaches(run, n) && Next(n, s, t', sent, n')
    ensures run <= longer && Reaches(longer, n')
  {
    longer := run + [n'];
    assert Move(n, n');
    forall i | 0 <= i < |longer| - 1 ensures Move(longer[i], longer[i + 1]) {
      if i < |run| - 1 {
        assert Move(run[i], run[i + 1]);
      }
    }
  }

  /** Two agents, linked or not, with their tables and the queues between them. */
  function Pair(a: Location, b: Location, up: bool, ta: Table, tb: Table, q: seq<Body>, r: seq<Body>): Net {
    Net(map[a := ta, b := tb], if up then {(a, b), (b, a)} else {}, map[(a, b) := q, (b, a) := r])
  }

  lemma SentByA(a: Location, b: Location, up: bool, ta: Table, tb: Table, q: seq<Body>, r: seq<Body>,
                t': Table, sent: seq<Packet>)
    requires a != b
    ensures Sends(Pair(a, b, up, ta, tb, q, r), a, t', sent,
                  Pair(a, b, up, t', tb, q + if up then Bodies(sent, AgentId(b)) else [], r))
  {
  }

  lemma SentByB(a: Location, b: Location, up: bool, ta: Table, tb: Table, q: seq<Body>, r: seq<Body>,
                t': Table, sent: seq<Packet>)
    requires a != b
    ensures Sends(Pair(a, b, up, ta, tb, q, r), b, t', sent,
                  Pair(a, b, up, ta, t', q, r + if up then Bodies(sent, AgentId(a)) else []))
  {
  }

  /** One client's one interest, at agent b. */
  ghost predicate Cast(a: Location, b: Location, c: Id) {
    a != b && !IsAgent(c) && c.loc !in {a, b}
  }

  /** The tables of agent b with its client's interest, listing a or not. */
  function Wanting(a: Location, c: Id, m: Mask, listed: bool): Table {
    Table(if listed then {AgentId(a), c} else {c}, {(c, m)})
  }

  /** The tables of agent a, which has no clients, listing b or not. */
  function Idle(b: Location, listed: bool): Table {
    Table(if listed then {AgentId(b)} else {}, {})
  }

  function ToA(a: Location, m: Mask): seq<Packet> {
    [Packet(AgentId(a), Reg(m))]
  }

  lemma ToABodies(a: Location, m: Mask)
    ensures forall d :: Bodies(ToA(a, m), d) == if d == AgentId(a) then [Reg(m)] else []
  {
    assert ToA(a, m)[1..] == [];
  }

  lemma OnlyInterest(a: Location, c: Id, m: Mask, listed: bool)
    requires !IsAgent(c)
    ensures ListsHeld([m], Wanting(a, c, m, listed))
    ensures forall k :: Held(Wanting(a, c, m, listed), k) <==> k == m
  {
    assert Subscribes(Wanting(a, c, m, listed), c, m);
    assert [m][0] == m;
  }

  // ---- the steps of the stories

  /** Agent a, which lists b or not, connects to b. */
  lemma Connects(run: seq<Net>, a: Location, b: Location, tb: Table, q: seq<Body>, r: seq<Body>)
    returns (longer: seq<Net>)
    requires a != b && Reaches(run, Pair(a, b, false, Idle(b, false), tb, q, r))
    ensures run <= longer && Reaches(longer, Pair(a, b, true, Idle(b, true), tb, q + [ClientReg], r))
  {
    var n, n' := Pair(a, b, false, Idle(b, false), tb, q, r), Pair(a, b, true, Idle(b, true), tb, q + [ClientReg], r);
    assert Linked(n, a, b) == Pair(a, b, true, Idle(b, false), tb, q + [ClientReg], r);
    SentByA(a, b, true, Idle(b, false), tb, q + [ClientReg], r, Idle(b, true), []);
    assert OnlyTo(AgentId(b), Regs([]), []);
    assert RegisterStep(Idle(b, false), AgentId(b), Idle(b, true), [], []);
    longer := Extend(run, n, Connect(a, b, []), Idle(b, true), [], n');
  }

  /** Agent b reads a's announcement: a is new to it and is told the interest, if there
      is a link, or is listed already and told nothing. */
  lemma Welcomes(run: seq<Net>, a: Location, b: Location, c: Id, m: Mask, up: bool, listed: bool, ta: Table,
                 q: seq<Body>, r: seq<Body>)
    returns (longer: seq<Net>)
    requires Cast(a, b, c)
    requires Reaches(run, Pair(a, b, up, ta, Wanting(a, c, m, listed), [ClientReg] + q, r))
    ensures run <= longer
    ensures Reaches(longer, Pair(a, b, up, ta, Wanting(a, c, m, true), q,
                                 r + if up && !listed then [Reg(m)] else []))
  {
    var t, t' := Wanting(a, c, m, listed), Wanting(a, c, m, true);
    var n := Pair(a, b, up, ta, t, [ClientReg] + q, r);
    var sent := if listed then [] else ToA(a, m);
    ToABodies(a, m);
    OnlyInterest(a, c, m, listed);
    assert ([ClientReg] + q)[1..] == q;
    assert Put(n, a, b, q) == Pair(a, b, up, ta, t, q, r);
    SentByB(a, b, up, ta, t, q, r, t', sent);
    assert Regs([m]) == [Reg(m)];
    assert t.ids + {AgentId(a)} == t'.ids;
    assert Bodies([], AgentId(a)) == [];
    assert r + [] == r;
    longer := Extend(run, n, Deliver(a, b, [m]), t', sent,
                     Pair(a, b, up, ta, t', q, r + if up && !listed then [Reg(m)] else []));
  }

  /** Agent b reads the marker of a lost connection. */
  lemma BForgets(run: seq<Net>, a: Location, b: Location, c: Id, m: Mask, up: bool, listed: bool, ta: Table,
                 q: seq<Body>, r: seq<Body>)
    returns (longer: seq<Net>)
    requires Cast(a, b, c)
    requires Reaches(run, Pair(a, b, up, ta, Wanting(a, c, m, listed), [Lost] + q, r))
    ensures Reaches(longer, Pair(a, b, up, ta, Wanting(a, c, m, false), q, r))
  {
    var t, t' := Wanting(a, c, m, listed), Wanting(a, c, m, false);
    var n := Pair(a, b, up, ta, t, [Lost] + q, r);
    assert ([Lost] + q)[1..] == q;
    assert Put(n, a, b, q) == Pair(a, b, up, ta, t, q, r);
    SentByB(a, b, up, ta, t, q, r, t', []);
    BDrops(a, b, c, m, listed);
    assert Bodies([], AgentId(a)) == [] && r + [] == r;
    longer := Extend(run, n, Deliver(a, b, []), t', [], Pair(a, b, up, ta, t', q, r));
  }

  lemma BDrops(a: Location, b: Location, c: Id, m: Mask, listed: bool)
    requires Cast(a, b, c)
    ensures At(Wanting(a, c, m, listed), a) == if listed then {AgentId(a)} else {}
    ensures DropStep(Wanting(a, c, m, listed), At(Wanting(a, c, m, listed), a), a, Wanting(a, c, m, false), [], [])
  {
    var t := Wanting(a, c, m, listed);
    assert Without(t, At(t, a)) == Wanting(a, c, m, false);
    assert Subscribes(t, c, m) && c !in At(t, a);
    assert Cancels([]) == [];
  }

  lemma ADrops(b: Location)
    ensures DropStep(Idle(b, true), {AgentId(b)}, b, Idle(b, false), [], [])
    ensures At(Idle(b, true), b) == {AgentId(b)}
  {
    assert Without(Idle(b, true), {AgentId(b)}) == Idle(b, false);
    assert Cancels([]) == [];
  }

  /** Agent a, which lists b, reads the marker. */
  lemma AForgets(run: seq<Net>, a: Location, b: Location, up: bool, tb: Table, q: seq<Body>, r: seq<Body>)
    returns (longer: seq<Net>)
    requires a != b && Reaches(run, Pair(a, b, up, Idle(b, true), tb, q, [Lost] + r))
    ensures Reaches(longer, Pair(a, b, up, Idle(b, false), tb, q, r))
  {
    var n := Pair(a, b, up, Idle(b, true), tb, q, [Lost] + r);
    assert ([Lost] + r)[1..] == r;
    assert Put(n, b, a, r) == Pair(a, b, up, Idle(b, true), tb, q, r);
    SentByA(a, b, up, Idle(b, true), tb, q, r, Idle(b, false), []);
    ADrops(b);
    assert Bodies([], AgentId(b)) == [] && q + [] == q;
    longer := Extend(run, n, Deliver(b, a, []), Idle(b, false), [], Pair(a, b, up, Idle(b, false), tb, q, r));
  }

  /** The connection breaks before anything queued is read. */
  lemma Breaks(run: seq<Net>, a: Location, b: Location, ta: Table, tb: Table, q: seq<Body>, r: seq<Body>)
    returns (longer: seq<Net>)
    requires a != b && Reaches(run, Pair(a, b, true, ta, tb, q, r))
    ensures Reaches(longer, Pair(a, b, false, ta, tb, [Lost], [Lost]))
  {
    var n := Pair(a, b, true, ta, tb, q, r);
    assert q[..0] + [Lost] == [Lost] && r[..0] + [Lost] == [Lost];
    assert Unlinked(n, a, b, [Lost], [Lost]) == Pair(a, b, false, ta, tb, [Lost], [Lost]);
    longer := Extend(run, n, Break(a, b, 0, 0), ta, [], Pair(a, b, false, ta, tb, [Lost], [Lost]));
  }

  /** Before the two meet, b has a client with an interest. */
  lemma Prepared(a: Location, b: Location, c: Id, m: Mask) returns (run: seq<Net>)
    requires Cast(a, b, c)
    ensures Reaches(run, Pair(a, b, false, Idle(b, false), Wanting(a, c, m, false), [], []))
  {
    var t0, t1, t2 := Table({}, {}), Table({c}, {}), Wanting(a, c, m, false);
    var n0, n1 := Pair(a, b, false, t0, t0, [], []), Pair(a, b, false, t0, t1, [], []);
    assert Reaches([n0], n0);
    SentByB(a, b, false, t0, t0, [], [], t1, []);
    run := Extend([n0], n0, Join(b, c), t1, [], n1);
    SentByB(a, b, false, t0, t1, [], [], t2, []);
    assert t2.pairs == t1.pairs + {(c, m)};
    run := Extend(run, n1, Subscribe(b, c, m), t2, [], Pair(a, b, false, t0, t2, [], []));
  }

  /** They have met, b has welcomed a, and the connection has broken. */
  lemma Broken(a: Location, b: Location, c: Id, m: Mask) returns (run: seq<Net>)
    requires Cast(a, b, c)
    ensures Reaches(run, Pair(a, b, false, Idle(b, true), Wanting(a, c, m, true), [Lost], [Lost]))
  {
    run := Prepared(a, b, c, m);
    run := Connects(run, a, b, Wanting(a, c, m, false), [], []);
    assert [] + [ClientReg] == [ClientReg] + [];
    run := Welcomes(run, a, b, c, m, true, false, Idle(b, true), [], []);
    run := Breaks(run, a, b, Idle(b, true), Wanting(a, c, m, true), [], [] + [Reg(m)]);
  }

  // ---- how they end

  /** All is read, the link works, and v does not list u under a mask wanted at u. */
  ghost predicate Unserved(n: Net, u: Location, v: Location, m: Mask) {
    && Settled(n) && u in n.tabs && v in n.tabs && (u, v) in n.links
    && Wants(n.tabs[u], v, m) && !Subscribes(n.tabs[v], AgentId(u), m)
  }

  lemma EndsUnserved(a: Location, b: Location, c: Id, m: Mask, x: bool, y: bool)
    requires Cast(a, b, c)
    ensures Unserved(Pair(a, b, true, Idle(b, x), Wanting(a, c, m, y), [], []), b, a, m)
  {
    var n := Pair(a, b, true, Idle(b, x), Wanting(a, c, m, y), [], []);
    assert Subscribes(n.tabs[b], c, m);
  }

  /** The loss of a's old connection is found after its new announcement. */
  lemma Overtakes(run: seq<Net>, a: Location, b: Location, ta: Table, tb: Table, r: seq<Body>)
    returns (longer: seq<Net>)
    requires a != b && Reaches(run, Pair(a, b, true, ta, tb, [Lost] + [ClientReg], r))
    ensures Reaches(longer, Pair(a, b, true, ta, tb, [ClientReg] + [Lost], r))
  {
    var met := Pair(a, b, true, ta, tb, [Lost] + [ClientReg], r);
    var late := Pair(a, b, true, ta, tb, [ClientReg] + [Lost], r);
    assert Chan(met, a, b)[..0] + [Chan(met, a, b)[1], Lost] + Chan(met, a, b)[2..] == [ClientReg] + [Lost];
    assert Put(met, a, b, [ClientReg] + [Lost]) == late;
    longer := Extend(run, met, Overtake(a, b, 0), ta, [], late);
  }

  /** A child whose new announcement is read before the loss of its old connection is
      found gets no welcome, and its parent's interest stays unknown to it. */
  lemma WelcomedWithNothing(a: Location, b: Location, c: Id, m: Mask) returns (run: seq<Net>, n: Net)
    requires Cast(a, b, c)
    ensures Reaches(run, n) && Unserved(n, b, a, m)
  {
    run := Broken(a, b, c, m);
    assert [Lost] == [Lost] + [];
    run := AForgets(run, a, b, false, Wanting(a, c, m, true), [Lost], []);
    run := Connects(run, a, b, Wanting(a, c, m, true), [Lost], []);
    run := Overtakes(run, a, b, Idle(b, true), Wanting(a, c, m, true), []);
    run := Welcomes(run, a, b, c, m, true, true, Idle(b, true), [Lost], []);
    assert [Lost] == [Lost] + [];
    run := BForgets(run, a, b, c, m, true, true, Idle(b, true), [], [] + []);
    n := Pair(a, b, true, Idle(b, true), Wanting(a, c, m, false), [], []);
    EndsUnserved(a, b, c, m, true, false);
  }

  /** An agent that a refused send makes reconnect, before it has read the marker of the
      old connection, takes that marker for the new one. */
  lemma ForgetsItsNewParent(a: Location, b: Location, c: Id, m: Mask) returns (run: seq<Net>, n: Net)
    requires Cast(a, b, c)
    ensures Reaches(run, n) && Unserved(n, b, a, m)
  {
    var tb := Wanting(a, c, m, true);
    run := Broken(a, b, c, m);
    var parted := Pair(a, b, false, Idle(b, true), tb, [Lost], [Lost]);
    SentByA(a, b, false, Idle(b, true), tb, [Lost], [Lost], Idle(b, false), []);
    ADrops(b);
    run := Extend(run, parted, Refuse(a, b, []), Idle(b, false), [],
                  Pair(a, b, false, Idle(b, false), tb, [Lost], [Lost]));
    assert [Lost] == [Lost] + [];
    run := BForgets(run, a, b, c, m, false, true, Idle(b, false), [], [Lost]);
    run := Connects(run, a, b, Wanting(a, c, m, false), [], [Lost]);
    run := AForgets(run, a, b, true, Wanting(a, c, m, false), [] + [ClientReg], []);
    assert [] + [ClientReg] == [ClientReg] + [];
    run := Welcomes(run, a, b, c, m, true, false, Idle(b, false), [], []);
    n := Pair(a, b, true, Idle(b, false), tb, [], []);
    run := IgnoresReg(run, a, b, tb, m);
    EndsUnserved(a, b, c, m, false, true);
  }

  lemma IgnoresReg(run: seq<Net>, a: Location, b: Location, tb: Table, m: Mask) returns (longer: seq<Net>)
    requires a != b && Reaches(run, Pair(a, b, true, Idle(b, false), tb, [], [] + [Reg(m)]))
    ensures Reaches(longer, Pair(a, b, true, Idle(b, false), tb, [], []))
  {
    var n := Pair(a, b, true, Idle(b, false), tb, [], [] + [Reg(m)]);
    assert ([] + [Reg(m)])[1..] == [];
    assert Put(n, b, a, []) == Pair(a, b, true, Idle(b, false), tb, [], []);
    SentByA(a, b, true, Idle(b, false), tb, [], [], Idle(b, false), []);
    longer := Extend(run, n, Deliver(b, a, []), Idle(b, false), [], Pair(a, b, true, Idle(b, false), tb, [], []));
  }

  /** An agent that drops a child whose new announcement is already queued lists it again
      without a connection; when it then takes it for its parent, it sends it nothing. */
  lemma ListsAGhost(a: Location, b: Location, c: Id, m: Mask) returns (run: seq<Net>, n: Net)
    requires Cast(a, b, c)
    ensures Reaches(run, n) && Unserved(n, b, a, m)
  {
    run := Broken(a, b, c, m);
    assert [Lost] == [Lost] + [];
    run := AForgets(run, a, b, false, Wanting(a, c, m, true), [Lost], []);
    run := Connects(run, a, b, Wanting(a, c, m, true), [Lost], []);
    run := BDropsLate(run, a, b, c, m, Idle(b, true), [Lost] + [ClientReg], []);
    run := BForgets(run, a, b, c, m, false, false, Idle(b, true), [ClientReg], [Lost]);
    assert [ClientReg] == [ClientReg] + [];
    run := Welcomes(run, a, b, c, m, false, false, Idle(b, true), [], [Lost]);
    assert [Lost] + [] == [Lost];
    run := AForgets(run, a, b, false, Wanting(a, c, m, true), [], []);
    run := BConnects(run, a, b, c, m);
    n := Pair(a, b, true, Idle(b, true), Wanting(a, c, m, true), [], []);
    EndsUnserved(a, b, c, m, true, true);
  }

  /** A send of b's fails, and it drops a; what a has sent is in its queue. */
  lemma BDropsLate(run: seq<Net>, a: Location, b: Location, c: Id, m: Mask, ta: Table, q: seq<Body>, r: seq<Body>)
    returns (longer: seq<Net>)
    requires Cast(a, b, c) && Reaches(run, Pair(a, b, true, ta, Wanting(a, c, m, true), q, r))
    ensures Reaches(longer, Pair(a, b, false, ta, Wanting(a, c, m, false), q, [Lost]))
  {
    var tb, t' := Wanting(a, c, m, true), Wanting(a, c, m, false);
    var n := Pair(a, b, true, ta, tb, q, r);
    CutByB(a, b, ta, tb, q, r);
    SentByB(a, b, false, ta, tb, q, [Lost], t', []);
    BDrops(a, b, c, m, true);
    longer := Extend(run, n, Drop(b, a, 0, |q|, []), t', [], Pair(a, b, false, ta, t', q, [Lost]));
  }

  lemma CutByB(a: Location, b: Location, ta: Table, tb: Table, q: seq<Body>, r: seq<Body>)
    requires a != b
    ensures var n := Pair(a, b, true, ta, tb, q, r);
            Unlinked(n, b, a, Chan(n, b, a)[..0] + [Lost], Chan(n, a, b)[..|q|]) == Pair(a, b, false, ta, tb, q, [Lost])
  {
    assert q[..|q|] == q && r[..0] + [Lost] == [Lost];
  }

  /** Agent b connects to a, which it still lists, and a reads the announcement. */
  lemma BConnects(run: seq<Net>, a: Location, b: Location, c: Id, m: Mask) returns (longer: seq<Net>)
    requires Cast(a, b, c)
    requires Reaches(run, Pair(a, b, false, Idle(b, false), Wanting(a, c, m, true), [], []))
    ensures Reaches(longer, Pair(a, b, true, Idle(b, true), Wanting(a, c, m, true), [], []))
  {
    var ta, tb := Idle(b, false), Wanting(a, c, m, true);
    var n, mid := Pair(a, b, false, ta, tb, [], []), Pair(a, b, true, ta, tb, [], [ClientReg]);
    assert Chan(n, b, a) + [ClientReg] == [ClientReg];
    assert Linked(n, b, a) == mid;
    SentByB(a, b, true, ta, tb, [], [ClientReg], tb, []);
    longer := Extend(run, n, Connect(b, a, []), tb, [], mid);
    longer := AWelcomes(longer, a, b, tb);
  }

  lemma AWelcomes(run: seq<Net>, a: Location, b: Location, tb: Table) returns (longer: seq<Net>)
    requires a != b && Reaches(run, Pair(a, b, true, Idle(b, false), tb, [], [ClientReg]))
    ensures Reaches(longer, Pair(a, b, true, Idle(b, true), tb, [], []))
  {
    var n := Pair(a, b, true, Idle(b, false), tb, [], [ClientReg]);
    assert Put(n, b, a, []) == Pair(a, b, true, Idle(b, false), tb, [], []);
    SentByA(a, b, true, Idle(b, false), tb, [], [], Idle(b, true), []);
    assert OnlyTo(AgentId(b), Regs([]), []);
    longer := Extend(run, n, Deliver(b, a, []), Idle(b, true), [], Pair(a, b, true, Idle(b, true), tb, [], []));
  }

  // ---- a loss that nobody is told of

  /** The tables of agent b when its client has withdrawn its interest. */
  function Content(a: Location, c: Id): Table {
    Table({AgentId(a), c}, {})
  }

  /** The client at b withdraws its interest, when the connection is gone already. */
  lemma BWithdraws(run: seq<Net>, a: Location, b: Location, c: Id, m: Mask, q: seq<Body>, r: seq<Body>)
    returns (longer: seq<Net>)
    requires Cast(a, b, c)
    requires Reaches(run, Pair(a, b, false, Idle(b, true), Wanting(a, c, m, true), q, r))
    ensures Reaches(longer, Pair(a, b, false, Idle(b, true), Content(a, c), q, r))
  {
    var ta, t, t' := Idle(b, true), Wanting(a, c, m, true), Content(a, c);
    var sent := [Packet(AgentId(a), Cancel(m))];
    LastWithdraws(a, c, m, sent);
    SentByB(a, b, false, ta, t, q, r, t', sent);
    assert r + [] == r;
    longer := Extend(run, Pair(a, b, false, ta, t, q, r), Unsubscribe(b, c, m), t', sent,
                     Pair(a, b, false, ta, t', q, r));
  }

  lemma LastWithdraws(a: Location, c: Id, m: Mask, sent: seq<Packet>)
    requires !IsAgent(c) && a != c.loc && sent == [Packet(AgentId(a), Cancel(m))]
    ensures UnsubscribeStep(Wanting(a, c, m, true), c, m, Content(a, c), sent)
  {
    var t := Wanting(a, c, m, true);
    assert sent[1..] == [];
    assert SoleSubscriber(t, c, m) && t.pairs - {(c, m)} == Content(a, c).pairs;
    assert Fanned(t, c.loc, [Cancel(m)], sent);
  }

  /** The cancellation finds the connection gone, so b closes its end and is not told of
      the loss. */
  lemma BOverlooks(run: seq<Net>, a: Location, b: Location, ta: Table, tb: Table, r: seq<Body>)
    returns (longer: seq<Net>)
    requires a != b && Reaches(run, Pair(a, b, false, ta, tb, [Lost], r))
    ensures Reaches(longer, Pair(a, b, false, ta, tb, [], r))
  {
    var n := Pair(a, b, false, ta, tb, [Lost], r);
    assert Removed([Lost], 0) == [];
    assert Put(n, a, b, []) == Pair(a, b, false, ta, tb, [], r);
    longer := Extend(run, n, Overlook(b, a, 0), tb, [], Pair(a, b, false, ta, tb, [], r));
  }

  /** The client at b asks again; there is no connection to tell a by. */
  lemma BAsksAgain(run: seq<Net>, a: Location, b: Location, c: Id, m: Mask) returns (longer: seq<Net>)
    requires Cast(a, b, c)
    requires Reaches(run, Pair(a, b, false, Idle(b, false), Content(a, c), [], []))
    ensures run <= longer && Reaches(longer, Pair(a, b, false, Idle(b, false), Wanting(a, c, m, true), [], []))
  {
    var ta, t, t' := Idle(b, false), Content(a, c), Wanting(a, c, m, true);
    ToABodies(a, m);
    assert Fanned(t, c.loc, [Reg(m)], ToA(a, m));
    SentByB(a, b, false, ta, t, [], [], t', ToA(a, m));
    longer := Extend(run, Pair(a, b, false, ta, t, [], []), Subscribe(b, c, m), t', ToA(a, m),
                     Pair(a, b, false, ta, t', [], []));
  }

  /** An agent whose cancellation finds the connection gone lists the other for good, with
      nothing left to read; when the other comes back, it is told nothing. */
  lemma NeverToldOfTheLoss(a: Location, b: Location, c: Id, m: Mask)
    returns (run: seq<Net>, haunted: Net, longer: seq<Net>, n: Net)
    requires Cast(a, b, c)
    ensures Reaches(run, haunted) && Settled(haunted) && Knows(haunted, b, a) && (b, a) !in haunted.links
    ensures run <= longer && Reaches(longer, n) && Unserved(n, b, a, m)
  {
    run := Broken(a, b, c, m);
    run := BWithdraws(run, a, b, c, m, [Lost], [Lost]);
    run := BOverlooks(run, a, b, Idle(b, true), Content(a, c), [Lost]);
    assert [Lost] == [Lost] + [];
    run := AForgets(run, a, b, false, Content(a, c), [], []);
    haunted := Pair(a, b, false, Idle(b, false), Content(a, c), [], []);
    longer := BAsksAgain(run, a, b, c, m);
    longer := Connects(longer, a, b, Wanting(a, c, m, true), [], []);
    assert [] + [ClientReg] == [ClientReg] + [];
    longer := Welcomes(longer, a, b, c, m, true, true, Idle(b, true), [], []);
    n := Pair(a, b, true, Idle(b, true), Wanting(a, c, m, true), [], []);
    EndsUnserved(a, b, c, m, true, true);
  }
}
