// The agent's doubly indexed subscription tables and the operations on them
// (src/manager_lib/ftb_manager_lib.c). Every message given to FTBN_Send_msg is
// appended to outbox; whether the network delivers it is decided in Overlay.dfy.
module AgentTables {
  import opened Masks
  import opened Names
  import opened Tables

  /** FTBMI_comp_info_t: a component and its catch_event_set. */
  datatype Peer = Peer(id: Id, masks: seq<Mask>)

  /** A node of catch_event_map: a mask and the components listed under it. */
  datatype Row = Row(mask: Mask, subs: seq<Id>)

  datatype Status = Success | InvalidParameter | GeneralError

  // ---- the two indexes as sets

  ghost function PeerIds(peers: seq<Peer>): set<Id> {
    set i | 0 <= i < |peers| :: peers[i].id
  }

  ghost function PeerPairs(peers: seq<Peer>): set<(Id, Mask)> {
    set i, m | 0 <= i < |peers| && m in peers[i].masks :: (peers[i].id, m)
  }

  ghost function RowPairs(rows: seq<Row>): set<(Id, Mask)> {
    set i, c | 0 <= i < |rows| && c in rows[i].subs :: (c, rows[i].mask)
  }

  ghost predicate PeersOk(peers: seq<Peer>) {
    && (forall i, j :: 0 <= i < j < |peers| ==> peers[i].id != peers[j].id)
    && (forall i :: 0 <= i < |peers| ==> NoDup(peers[i].masks))
  }

  ghost predicate RowsOk(rows: seq<Row>) {
    && (forall i, j :: 0 <= i < j < |rows| ==> rows[i].mask != rows[j].mask)
    && (forall i :: 0 <= i < |rows| ==> NoDup(rows[i].subs) && rows[i].subs != [])
  }

  // ---- what edits of one index do to its pairs

  function RemoveAt<T>(s: seq<T>, i: nat): (r: seq<T>)
    requires i < |s|
    ensures |r| == |s| - 1
  {
    s[..i] + s[i + 1..]
  }

  function IndexIn<T(==)>(s: seq<T>, x: T): (i: nat)
    requires x in s
    ensures i < |s| && s[i] == x && x !in s[..i]
  {
    if s[0] == x then 0 else 1 + IndexIn(s[1..], x)
  }

  function Delete<T(==)>(s: seq<T>, x: T): seq<T>
    requires x in s
  {
    RemoveAt(s, IndexIn(s, x))
  }

  lemma DeleteFromDistinct<T>(s: seq<T>, x: T)
    requires NoDup(s) && x in s
    ensures NoDup(Delete(s, x))
    ensures forall y :: y in Delete(s, x) <==> y in s && y != x
  {
    var i := IndexIn(s, x);
    forall y | y in s && y != x ensures y in Delete(s, x) {
      var j :| 0 <= j < |s| && s[j] == y;
      assert y == if j < i then Delete(s, x)[j] else Delete(s, x)[j - 1];
    }
  }

  lemma PeerMasksChange(peers: seq<Peer>, i: nat, masks: seq<Mask>)
    requires PeersOk(peers) && i < |peers| && NoDup(masks)
    ensures var after := peers[i := peers[i].(masks := masks)];
            && PeersOk(after)
            && PeerIds(after) == PeerIds(peers)
            && (forall c, m :: (c, m) in PeerPairs(after) <==>
                 if c == peers[i].id then m in masks else (c, m) in PeerPairs(peers))
  {
    var after := peers[i := peers[i].(masks := masks)];
    assert forall k :: 0 <= k < |peers| ==> after[k].id == peers[k].id;
    forall c, m ensures (c, m) in PeerPairs(after) <==>
                        if c == peers[i].id then m in masks else (c, m) in PeerPairs(peers) {
      if c == peers[i].id && m in masks {
        assert after[i].id == c && m in after[i].masks;
      } else if c != peers[i].id && (c, m) in PeerPairs(peers) {
        var k :| 0 <= k < |peers| && m in peers[k].masks && peers[k].id == c;
        assert after[k] == peers[k];
      }
    }
  }

  lemma RowSubsChange(rows: seq<Row>, i: nat, subs: seq<Id>)
    requires RowsOk(rows) && i < |rows| && NoDup(subs) && subs != []
    ensures var after := rows[i := rows[i].(subs := subs)];
            && RowsOk(after)
            && (forall c, m :: (c, m) in RowPairs(after) <==>
                 if m == rows[i].mask then c in subs else (c, m) in RowPairs(rows))
  {
    var after := rows[i := rows[i].(subs := subs)];
    assert forall k :: 0 <= k < |rows| ==> after[k].mask == rows[k].mask;
    forall c, m ensures (c, m) in RowPairs(after) <==>
                        if m == rows[i].mask then c in subs else (c, m) in RowPairs(rows) {
      if m == rows[i].mask && c in subs {
        assert after[i].mask == m && c in after[i].subs;
      } else if m != rows[i].mask && (c, m) in RowPairs(rows) {
        var k :| 0 <= k < |rows| && c in rows[k].subs && rows[k].mask == m;
        assert after[k] == rows[k];
      }
    }
  }

  lemma RowAppend(rows: seq<Row>, m: Mask, c: Id)
    requires RowsOk(rows) && forall i :: 0 <= i < |rows| ==> rows[i].mask != m
    ensures var after := rows + [Row(m, [c])];
            RowsOk(after) && RowPairs(after) == RowPairs(rows) + {(c, m)}
  {
    var after := rows + [Row(m, [c])];
    assert after[|rows|] == Row(m, [c]);
    forall d, n | (d, n) in RowPairs(rows) ensures (d, n) in RowPairs(after) {
      var k :| 0 <= k < |rows| && d in rows[k].subs && rows[k].mask == n;
      assert after[k] == rows[k];
    }
    assert c in after[|rows|].subs;
  }

  lemma RowRemove(rows: seq<Row>, i: nat)
    requires RowsOk(rows) && i < |rows|
    ensures RowsOk(RemoveAt(rows, i))
    ensures forall c, m :: (c, m) in RowPairs(RemoveAt(rows, i)) <==>
                           (c, m) in RowPairs(rows) && m != rows[i].mask
  {
    var after := RemoveAt(rows, i);
    forall c, m | (c, m) in RowPairs(rows) && m != rows[i].mask ensures (c, m) in RowPairs(after) {
      var k :| 0 <= k < |rows| && c in rows[k].subs && rows[k].mask == m;
      assert rows[k] == if k < i then after[k] else after[k - 1];
    }
  }

  lemma PeerAppend(peers: seq<Peer>, id: Id)
    requires PeersOk(peers) && id !in PeerIds(peers)
    ensures var after := peers + [Peer(id, [])];
            && PeersOk(after)
            && PeerIds(after) == PeerIds(peers) + {id}
            && PeerPairs(after) == PeerPairs(peers)
  {
    var after := peers + [Peer(id, [])];
    assert after[|peers|] == Peer(id, []);
    assert forall k :: 0 <= k < |peers| ==> after[k] == peers[k] && peers[k].id in PeerIds(peers);
    assert forall k :: 0 <= k < |peers| ==> after[k].id in PeerIds(after);
    assert after[|peers|].id in PeerIds(after);
    forall c, m | (c, m) in PeerPairs(peers) ensures (c, m) in PeerPairs(after) {
      var k :| 0 <= k < |peers| && m in peers[k].masks && peers[k].id == c;
      assert m in after[k].masks;
    }
  }

  lemma PeerRemove(peers: seq<Peer>, i: nat)
    requires PeersOk(peers) && i < |peers|
    ensures PeersOk(RemoveAt(peers, i))
    ensures PeerIds(RemoveAt(peers, i)) == PeerIds(peers) - {peers[i].id}
    ensures forall c, m :: (c, m) in PeerPairs(RemoveAt(peers, i)) <==>
                           (c, m) in PeerPairs(peers) && c != peers[i].id
  {
    OtherPeersStay(peers, i);
    OtherPairsStay(peers, i);
  }

  lemma OtherPeersStay(peers: seq<Peer>, i: nat)
    requires PeersOk(peers) && i < |peers|
    ensures PeersOk(RemoveAt(peers, i))
    ensures PeerIds(RemoveAt(peers, i)) == PeerIds(peers) - {peers[i].id}
  {
    var after := RemoveAt(peers, i);
    assert forall k :: 0 <= k < |after| ==> after[k] == if k < i then peers[k] else peers[k + 1];
    forall c ensures c in PeerIds(after) <==> c in PeerIds(peers) && c != peers[i].id {
      OtherPeerStays(peers, i, c);
    }
  }

  lemma OtherPeerStays(peers: seq<Peer>, i: nat, c: Id)
    requires PeersOk(peers) && i < |peers|
    ensures c in PeerIds(RemoveAt(peers, i)) <==> c in PeerIds(peers) && c != peers[i].id
  {
    var after := RemoveAt(peers, i);
    if k :| 0 <= k < |peers| && peers[k].id == c {
      if k != i {
        assert after[if k < i then k else k - 1].id == c;
      }
    }
    if k :| 0 <= k < |after| && after[k].id == c {
      assert peers[if k < i then k else k + 1].id == c;
    }
  }

  lemma OtherPairsStay(peers: seq<Peer>, i: nat)
    requires PeersOk(peers) && i < |peers|
    ensures forall c, m :: (c, m) in PeerPairs(RemoveAt(peers, i)) <==>
                           (c, m) in PeerPairs(peers) && c != peers[i].id
  {
    var after := RemoveAt(peers, i);
    assert forall k :: 0 <= k < |after| ==> after[k] == if k < i then peers[k] else peers[k + 1];
    forall c, m | (c, m) in PeerPairs(peers) && c != peers[i].id ensures (c, m) in PeerPairs(after) {
      var k :| 0 <= k < |peers| && m in peers[k].masks && peers[k].id == c;
      assert peers[k] == if k < i then after[k] else after[k - 1];
    }
  }

  // ---- propagation to the neighbour agents

  /** What one pass of FTBMI_util_reg_propagation over the peers sends. */
  function Fanout(peers: seq<Peer>, body: Body, incoming: Location): seq<Packet> {
    if peers == [] then []
    else if !IsAgent(peers[0].id) || peers[0].id.loc == incoming then Fanout(peers[1..], body, incoming)
    else [Packet(peers[0].id, body)] + Fanout(peers[1..], body, incoming)
  }

  lemma {:induction false} FanoutReaches(peers: seq<Peer>, body: Body, incoming: Location, d: Id)
    requires PeersOk(peers)
    ensures Bodies(Fanout(peers, body, incoming), d) ==
            if d in PeerIds(peers) && IsAgent(d) && d.loc != incoming then [body] else []
  {
    if peers != [] {
      var rest := peers[1..];
      assert forall i :: 0 <= i < |rest| ==> rest[i] == peers[i + 1];
      FanoutReaches(rest, body, incoming, d);
      assert PeerIds(peers) == PeerIds(rest) + {peers[0].id} by {
        forall c | c in PeerIds(peers) ensures c in PeerIds(rest) + {peers[0].id} {
          var k :| 0 <= k < |peers| && peers[k].id == c;
          assert k > 0 ==> rest[k - 1].id == c;
        }
      }
      assert peers[0].id !in PeerIds(rest);
    }
  }

  /** One pass reaches the agents of processes elsewhere, and no library of a client. */
  lemma FanoutReachesManagers(peers: seq<Peer>, body: Body, incoming: Location, loc: Location)
    requires PeersOk(peers)
    ensures Bodies(Fanout(peers, body, incoming), Manager(loc, 1)) == []
    ensures Bodies(Fanout(peers, body, incoming), Manager(loc, 0)) ==
            if Manager(loc, 0) in PeerIds(peers) && FoldLocation(loc) != incoming then [body] else []
  {
    SelfIsAgentExactly(loc, 0);
    SelfIsAgentExactly(loc, 1);
    FanoutReaches(peers, body, incoming, Manager(loc, 0));
    FanoutReaches(peers, body, incoming, Manager(loc, 1));
  }

  lemma FanoutIsFanned(peers: seq<Peer>, pairs: set<(Id, Mask)>, body: Body, incoming: Location)
    requires PeersOk(peers)
    ensures Fanned(Table(PeerIds(peers), pairs), incoming, [body], Fanout(peers, body, incoming))
  {
    forall d: Id
      ensures Bodies(Fanout(peers, body, incoming), d) ==
              if Eligible(Table(PeerIds(peers), pairs), d, incoming) then [body] else []
    {
      FanoutReaches(peers, body, incoming, d);
    }
  }

  lemma NothingIsFanned(t: Table, incoming: Location)
    ensures Fanned(t, incoming, [], [])
  {
  }

  /** The masks of a table of rows, in order. */
  function RowMasks(rows: seq<Row>): (r: seq<Mask>)
    ensures |r| == |rows|
  {
    seq(|rows|, i requires 0 <= i < |rows| => rows[i].mask)
  }

  lemma RowsListHeld(rows: seq<Row>, t: Table)
    requires RowsOk(rows) && t.pairs == RowPairs(rows)
    ensures ListsHeld(RowMasks(rows), t)
  {
    var order := RowMasks(rows);
    forall m ensures m in order <==> Held(t, m) {
      if m in order {
        var i :| 0 <= i < |order| && order[i] == m;
        assert rows[i].subs[0] in rows[i].subs;
        assert Subscribes(t, rows[i].subs[0], m);
      }
      if Held(t, m) {
        var c :| Subscribes(t, c, m);
        var i :| 0 <= i < |rows| && c in rows[i].subs && rows[i].mask == m;
        assert order[i] == m;
      }
    }
  }

  /** Everything sent to one destination, as one run of packets. */
  function AllTo(d: Id, masks: seq<Mask>): (r: seq<Packet>)
    ensures |r| == |masks|
  {
    seq(|masks|, i requires 0 <= i < |masks| => Packet(d, Reg(masks[i])))
  }

  lemma {:induction false} AllToIsOnlyTo(d: Id, masks: seq<Mask>, e: Id)
    ensures Bodies(AllTo(d, masks), e) == if e == d then Regs(masks) else []
  {
    if masks != [] {
      assert AllTo(d, masks)[1..] == AllTo(d, masks[1..]);
      AllToIsOnlyTo(d, masks[1..], e);
      assert Regs(masks) == [Reg(masks[0])] + Regs(masks[1..]);
    }
  }

  lemma RemovingLastSub(rows: seq<Row>, i: nat, c: Id, ids: set<Id>)
    requires RowsOk(rows) && i < |rows| && c in rows[i].subs
    ensures SoleSubscriber(Table(ids, RowPairs(rows)), c, rows[i].mask) <==> Delete(rows[i].subs, c) == []
  {
    var t, m, subs := Table(ids, RowPairs(rows)), rows[i].mask, rows[i].subs;
    DeleteFromDistinct(subs, c);
    assert Subscribes(t, c, m);
    if Delete(subs, c) == [] {
      forall d | Subscribes(t, d, m) ensures d == c {
        var k :| 0 <= k < |rows| && d in rows[k].subs && rows[k].mask == m;
        assert k == i;
      }
    } else {
      var d := Delete(subs, c)[0];
      assert d in Delete(subs, c);
      assert Subscribes(t, d, m);
    }
  }

  lemma IdsAreFinds(peers: seq<Peer>, id: Id)
    ensures id in PeerIds(peers) <==> exists i :: 0 <= i < |peers| && peers[i].id == id
  {
  }

  /** The tables of one agent, with the location of its parent. */
  class Agent {
    var parent: Location
    var peers: seq<Peer>
    var rows: seq<Row>
    var outbox: seq<Packet>

    /** The two indexes list the same subscriptions, each once. */
    ghost predicate Valid()
      reads this
    {
      PeersOk(peers) && RowsOk(rows) && PeerPairs(peers) == RowPairs(rows)
    }

    ghost function View(): Table
      reads this
    {
      Table(PeerIds(peers), RowPairs(rows))
    }

    /** FTBM_Init before it connects: no component and no subscription is known. */
    constructor ()
      ensures Valid() && View() == Table({}, {}) && outbox == [] && parent.pid == 0
    {
      parent := Location("", "", 0);
      peers, rows, outbox := [], [], [];
    }

    /** FTBU_map_find_key on peers: the first match, or the length for the head. */
    method FindPeer(id: Id) returns (i: nat)
      ensures i <= |peers|
      ensures forall k :: 0 <= k < i ==> peers[k].id != id
      ensures i < |peers| ==> peers[i].id == id
    {
      i := 0;
      while i < |peers| && peers[i].id != id
        invariant i <= |peers|
        invariant forall k :: 0 <= k < i ==> peers[k].id != id
      {
        i := i + 1;
      }
    }

    /** FTBU_map_find_key on catch_event_map. */
    method FindRow(m: Mask) returns (i: nat)
      ensures i <= |rows|
      ensures forall k :: 0 <= k < i ==> rows[k].mask != m
      ensures i < |rows| ==> rows[i].mask == m
    {
      i := 0;
      while i < |rows| && rows[i].mask != m
        invariant i <= |rows|
        invariant forall k :: 0 <= k < i ==> rows[k].mask != m
      {
        i := i + 1;
      }
    }

    /** FTBMI_util_reg_propagation */
    method Propagate(body: Body, incoming: Location)
      modifies `outbox
      ensures outbox == old(outbox) + Fanout(peers, body, incoming)
    {
      var i := 0;
      assert peers[0..] == peers;
      while i < |peers|
        invariant i <= |peers|
        invariant outbox + Fanout(peers[i..], body, incoming) == old(outbox) + Fanout(peers, body, incoming)
      {
        assert peers[i..][1..] == peers[i + 1..];
        if IsAgent(peers[i].id) && peers[i].id.loc != incoming {
          outbox := outbox + [Packet(peers[i].id, body)];
        }
        i := i + 1;
      }
    }

    /** The loops that send every held mask to one new agent. */
    method SendEveryMask(d: Id)
      modifies `outbox
      ensures outbox == old(outbox) + AllTo(d, RowMasks(rows))
    {
      var i := 0;
      while i < |rows|
        invariant i <= |rows|
        invariant outbox == old(outbox) + AllTo(d, RowMasks(rows[..i]))
      {
        assert rows[..i + 1] == rows[..i] + [rows[i]];
        assert RowMasks(rows[..i + 1]) == RowMasks(rows[..i]) + [rows[i].mask];
        assert AllTo(d, RowMasks(rows[..i + 1])) == AllTo(d, RowMasks(rows[..i])) + [Packet(d, Reg(rows[i].mask))];
        outbox := outbox + [Packet(d, Reg(rows[i].mask))];
        i := i + 1;
      }
      assert rows[..|rows|] == rows;
    }

    /** FTBM_Client_register */
    method ClientRegister(id: Id) returns (status: Status, ghost sent: seq<Packet>)
      requires Valid()
      modifies `peers, `outbox
      ensures Valid() && outbox == old(outbox) + sent
      ensures RegisterStep(old(View()), id, View(), sent, RowMasks(old(rows)))
      ensures status == if id in old(View()).ids then InvalidParameter else Success
    {
      sent := [];
      IdsAreFinds(peers, id);
      var i := FindPeer(id);
      if i < |peers| {
        return InvalidParameter, [];
      }
      PeerAppend(peers, id);
      peers := peers + [Peer(id, [])];
      if IsAgent(id) {
        SendEveryMask(id);
        sent := AllTo(id, RowMasks(rows));
        RowsListHeld(rows, old(View()));
        forall d ensures Bodies(sent, d) == if d == id then Regs(RowMasks(rows)) else [] {
          AllToIsOnlyTo(id, RowMasks(rows), d);
        }
      }
      return Success, sent;
    }

    /** Lists a component under a mask in catch_event_map, in a new row if need be. */
    method ListInCatchMap(id: Id, m: Mask) returns (inserted: bool)
      requires RowsOk(rows)
      modifies `rows
      ensures RowsOk(rows) && RowPairs(rows) == old(RowPairs(rows)) + {(id, m)}
      ensures inserted <==> (id, m) !in old(RowPairs(rows))
    {
      var j := FindRow(m);
      if j == |rows| {
        RowAppend(rows, m, id);
        rows := rows + [Row(m, [id])];
        return true;
      }
      RowSubsFollow(rows, j);
      if id in rows[j].subs {
        return false;
      }
      RowSubsChange(rows, j, rows[j].subs + [id]);
      rows := rows[j := rows[j].(subs := rows[j].subs + [id])];
      return true;
    }

    /** FTBM_Register_subscription: passed on for every new subscriber, whether or
        not the mask was already held. */
    method RegisterSubscription(id: Id, m: Mask) returns (status: Status, ghost sent: seq<Packet>)
      requires Valid()
      modifies `peers, `rows, `outbox
      ensures Valid() && outbox == old(outbox) + sent
      ensures SubscribeStep(old(View()), id, m, View(), sent)
      ensures status == if id in old(View()).ids then Success else InvalidParameter
    {
      sent := [];
      IdsAreFinds(peers, id);
      var i := FindPeer(id);
      if i == |peers| {
        return InvalidParameter, [];
      }
      PeerMasksFollow(peers, i);
      if m !in peers[i].masks {
        PeerMasksChange(peers, i, peers[i].masks + [m]);
        peers := peers[i := peers[i].(masks := peers[i].masks + [m])];
      }
      var inserted := ListInCatchMap(id, m);
      if inserted {
        FanoutIsFanned(peers, old(View()).pairs, Reg(m), id.loc);
        Propagate(Reg(m), id.loc);
        sent := Fanout(peers, Reg(m), id.loc);
      }
      status := Success;
    }

    /** FTBMI_util_remove_com_from_catch_map */
    method RemoveFromCatchMap(id: Id, m: Mask) returns (ghost sent: seq<Packet>)
      requires PeersOk(peers) && RowsOk(rows)
      modifies `rows, `outbox
      ensures RowsOk(rows) && RowPairs(rows) == old(RowPairs(rows)) - {(id, m)}
      ensures outbox == old(outbox) + sent
      ensures Fanned(old(View()), id.loc,
                     if SoleSubscriber(old(View()), id, m) then [Cancel(m)] else [], sent)
    {
      sent := [];
      NothingIsFanned(View(), id.loc);
      var j := FindRow(m);
      if j == |rows| {
        return;
      }
      RowSubsFollow(rows, j);
      if id !in rows[j].subs {
        return;
      }
      var left := Delete(rows[j].subs, id);
      DeleteFromDistinct(rows[j].subs, id);
      RemovingLastSub(rows, j, id, PeerIds(peers));
      if left == [] {
        RowRemove(rows, j);
        rows := RemoveAt(rows, j);
        FanoutIsFanned(peers, old(View()).pairs, Cancel(m), id.loc);
        Propagate(Cancel(m), id.loc);
        sent := Fanout(peers, Cancel(m), id.loc);
      } else {
        RowSubsChange(rows, j, left);
        rows := rows[j := rows[j].(subs := left)];
      }
    }

    /** FTBM_Cancel_subscription */
    method CancelSubscription(id: Id, m: Mask) returns (status: Status, ghost sent: seq<Packet>)
      requires Valid()
      modifies `peers, `rows, `outbox
      ensures Valid() && outbox == old(outbox) + sent
      ensures UnsubscribeStep(old(View()), id, m, View(), sent)
      ensures status == if id in old(View()).ids then Success else InvalidParameter
    {
      sent := [];
      IdsAreFinds(peers, id);
      var i := FindPeer(id);
      if i == |peers| {
        assert !Subscribes(View(), id, m);
        return InvalidParameter, [];
      }
      PeerMasksFollow(peers, i);
      if m !in peers[i].masks {
        return Success, [];
      }
      var left := Delete(peers[i].masks, m);
      DeleteFromDistinct(peers[i].masks, m);
      PeerMasksChange(peers, i, left);
      peers := peers[i := peers[i].(masks := left)];
      sent := RemoveFromCatchMap(id, m);
      status := Success;
    }

    /** FTBMI_util_clean_component: the component's interest leaves the inverse
        index, mask by mask; the component itself is still listed. */
    method CleanComponent(i: nat) returns (ghost sent: seq<Packet>, ghost order: seq<Mask>)
      requires Valid() && i < |peers|
      modifies `rows, `outbox
      ensures PeersOk(peers) && RowsOk(rows)
      ensures RowPairs(rows) == Without(old(View()), {peers[i].id}).pairs
      ensures outbox == old(outbox) + sent
      ensures ListsOrphans(order, old(View()), {peers[i].id})
      ensures Fanned(old(View()), peers[i].id.loc, Cancels(order), sent)
    {
      var id, masks := peers[i].id, peers[i].masks;
      ghost var t := View();
      PeerMasksFollow(peers, i);
      sent, order := [], [];
      NothingIsFanned(t, id.loc);
      var k := 0;
      while k < |masks|
        invariant k <= |masks| && PeersOk(peers) && RowsOk(rows)
        invariant outbox == old(outbox) + sent
        invariant RowPairs(rows) == t.pairs - Taken(id, masks[..k])
        invariant Cleaned(order, t, id, masks[..k])
        invariant Fanned(t, id.loc, Cancels(order), sent)
      {
        var m := masks[k];
        ghost var u := View();
        assert masks[..k + 1] == masks[..k] + [m];
        assert m !in masks[..k];
        SoleAfterTaking(t, id, masks[..k], m);
        ghost var more := RemoveFromCatchMap(id, m);
        ghost var last := if SoleSubscriber(t, id, m) then [m] else [];
        FannedConcat(t, u, id.loc, Cancels(order), Cancels(last), sent, more);
        CancelsConcat(order, last);
        sent, order := sent + more, order + last;
        k := k + 1;
      }
      assert masks[..|masks|] == masks;
      CleanedAll(order, t, id, masks);
    }

    /** Cleaning a component and removing it from peers, as deregistration, a failed
        send and a lost connection all do. */
    method DropPeer(i: nat) returns (ghost sent: seq<Packet>, ghost order: seq<Mask>)
      requires Valid() && i < |peers|
      modifies `peers, `rows, `outbox
      ensures Valid() && outbox == old(outbox) + sent && peers == RemoveAt(old(peers), i)
      ensures DropStep(old(View()), {old(peers)[i].id}, old(peers)[i].id.loc, View(), sent, order)
    {
      sent, order := CleanComponent(i);
      PeerRemove(peers, i);
      peers := RemoveAt(peers, i);
    }

    /** FTBMI_util_reconnect, where newParent is what FTBN_Connect leaves in
        FTBMI_info.parent; a parent already listed is sent nothing. */
    method Reconnect(newParent: Location) returns (ghost sent: seq<Packet>, ghost order: seq<Mask>)
      requires Valid()
      modifies `parent, `peers, `outbox
      ensures Valid() && outbox == old(outbox) + sent && parent == newParent
      ensures RejoinStep(old(View()), true, newParent, View(), sent, order)
    {
      parent := newParent;
      sent, order := [], [];
      if newParent.pid != 0 {
        order := RowMasks(rows);
        var status;
        status, sent := ClientRegister(AgentId(newParent));
      }
    }

    /** FTBM_Client_deregister */
    method ClientDeregister(id: Id, newParent: Location) returns (status: Status, ghost sent: seq<Packet>)
      requires Valid()
      modifies this
      ensures Valid() && outbox == old(outbox) + sent
      ensures var lost := ManagerName(id) && id.loc == old(parent);
              if id in old(View()).ids then
                && status == Success
                && DropThenRejoin(old(View()), {id}, id.loc, lost, newParent, View(), sent)
                && parent == (if lost then newParent else old(parent))
              else
                status == InvalidParameter && sent == [] && View() == old(View()) && parent == old(parent)
    {
      sent := [];
      IdsAreFinds(peers, id);
      var i := FindPeer(id);
      if i == |peers| {
        return InvalidParameter, [];
      }
      ghost var t := View();
      ghost var dropped, order := DropPeer(i);
      ghost var mid, rejoined, order2 := View(), [], [];
      if ManagerName(id) && id.loc == parent {
        rejoined, order2 := Reconnect(newParent);
      }
      sent := dropped + rejoined;
      status := Success;
      Chain(t, {id}, id.loc, mid, dropped, order, ManagerName(id) && id.loc == old(parent), newParent,
            View(), rejoined, order2);
    }

    /** What FTBM_Send does when the network refuses a message to dst, which the
        source takes from its own tables. */
    method SendFailed(dst: Id, newParent: Location) returns (ghost sent: seq<Packet>)
      requires Valid() && dst in View().ids
      modifies this
      ensures Valid() && outbox == old(outbox) + sent
      ensures DropThenRejoin(old(View()), {dst}, dst.loc, dst.loc == old(parent), newParent, View(), sent)
      ensures parent == if dst.loc == old(parent) then newParent else old(parent)
    {
      IdsAreFinds(peers, dst);
      var i := FindPeer(dst);
      ghost var t := View();
      ghost var dropped, order := DropPeer(i);
      ghost var mid, rejoined, order2 := View(), [], [];
      if dst.loc == parent {
        rejoined, order2 := Reconnect(newParent);
      }
      sent := dropped + rejoined;
      Chain(t, {dst}, dst.loc, mid, dropped, order, dst.loc == old(parent), newParent,
            View(), rejoined, order2);
    }

    /** The loop of FTBM_Cleanup_connection over the peers. */
    method DropLocation(loc: Location)
      returns (count: nat, ghost sent: seq<Packet>, ghost order: seq<Mask>)
      requires Valid()
      modifies `peers, `rows, `outbox
      ensures Valid() && outbox == old(outbox) + sent
      ensures DropStep(old(View()), At(old(View()), loc), loc, View(), sent, order)
      ensures count == |At(old(View()), loc)|
      ensures forall c :: c in View().ids <==> c in old(View()).ids && c.loc != loc
    {
      ghost var t := View();
      ghost var gone: set<Id> := {};
      sent, order, count := [], [], 0;
      NothingIsFanned(t, loc);
      assert Without(t, {}) == t;
      var i := 0;
      while i < |peers|
        invariant i <= |peers| && Valid()
        invariant outbox == old(outbox) + sent
        invariant forall k :: 0 <= k < i ==> peers[k].id.loc != loc
        invariant DropStep(t, gone, loc, View(), sent, order)
        invariant count == |gone|
        decreases |peers| - i
      {
        if peers[i].id.loc == loc {
          ghost var id, u := peers[i].id, View();
          assert id in PeerIds(peers);
          ghost var more, orphans := DropPeer(i);
          DropsCompose(t, gone, {id}, loc, u, View(), sent, more, order, orphans);
          gone, sent, order := gone + {id}, sent + more, order + orphans;
          count := count + 1;
        } else {
          i := i + 1;
        }
      }
      AllGone(peers, t, gone, loc);
    }

    /** FTBM_Cleanup_connection */
    method CleanupConnection(loc: Location, newParent: Location)
      returns (status: Status, ghost sent: seq<Packet>)
      requires Valid()
      modifies this
      ensures Valid() && outbox == old(outbox) + sent
      ensures DropThenRejoin(old(View()), At(old(View()), loc), loc, loc == old(parent), newParent, View(), sent)
      ensures parent == if loc == old(parent) then newParent else old(parent)
      ensures status == if At(old(View()), loc) == {} then GeneralError else Success
    {
      ghost var t := View();
      var count;
      ghost var dropped, order, rejoined, order2;
      count, dropped, order := DropLocation(loc);
      ghost var mid := View();
      rejoined, order2 := [], [];
      if parent == loc {
        rejoined, order2 := Reconnect(newParent);
      }
      sent := dropped + rejoined;
      status := if count > 0 then Success else GeneralError;
      Chain(t, At(t, loc), loc, mid, dropped, order, loc == old(parent), newParent, View(), rejoined, order2);
    }

    /** FTBM_Get_catcher_comp_list: one pass over catch_event_map collects the
        catchers, a second fills the result from its last slot to its first. */
    method GetCatchers(e: Event) returns (list: array<Id>)
      requires Valid()
      ensures NoDup(list[..])
      ensures forall c :: c in list[..] <==> Catches(View(), c, e)
    {
      var found: seq<Id> := [];
      var i := 0;
      while i < |rows|
        invariant i <= |rows| && NoDup(found)
        invariant forall c :: c in found <==> ListedBelow(rows, i, c, e)
      {
        if Match(e, rows[i].mask) {
          var j, subs := 0, rows[i].subs;
          ghost var before := found;
          while j < |subs|
            invariant j <= |subs| && NoDup(found)
            invariant forall c :: c in found <==> c in before || c in subs[..j]
          {
            assert subs[..j + 1] == subs[..j] + [subs[j]];
            if subs[j] !in found {
              found := found + [subs[j]];
            }
            j := j + 1;
          }
          assert subs[..|subs|] == subs;
        }
        ListedBelowNext(rows, i, e);
        i := i + 1;
      }
      ListedIsCatching(this.View(), rows, e);
      list := Fill(found);
    }

    /** The second pass: slot temp_len - 1 first, every slot once. */
    method Fill(found: seq<Id>) returns (list: array<Id>)
      requires NoDup(found)
      ensures fresh(list) && |list[..]| == |found|
      ensures forall k :: 0 <= k < |found| ==> list[k] == found[|found| - 1 - k]
      ensures NoDup(list[..])
      ensures forall c :: c in list[..] <==> c in found
    {
      var nobody := Id(Location("", "", 0), "", "", "", 0);
      list := new Id[|found|](_ => nobody);
      var left, k := |found|, 0;
      while k < |found|
        invariant k <= |found| && left == |found| - k
        invariant forall n :: left <= n < |found| ==> list[n] == found[|found| - 1 - n]
      {
        left := left - 1;
        list[left] := found[k];
        k := k + 1;
      }
      forall c | c in found ensures c in list[..] {
        var n :| 0 <= n < |found| && found[n] == c;
        assert list[|found| - 1 - n] == c;
      }
    }
  }

  // ---- facts the methods use

  ghost function Taken(id: Id, masks: seq<Mask>): set<(Id, Mask)> {
    set m <- masks :: (id, m)
  }

  ghost predicate Cleaned(order: seq<Mask>, t: Table, id: Id, masks: seq<Mask>) {
    && NoDup(order)
    && forall m :: m in order <==> m in masks && SoleSubscriber(t, id, m)
  }

  lemma SoleAfterTaking(t: Table, id: Id, masks: seq<Mask>, m: Mask)
    requires m !in masks
    ensures SoleSubscriber(Table(t.ids, t.pairs - Taken(id, masks)), id, m) <==> SoleSubscriber(t, id, m)
  {
    var u := Table(t.ids, t.pairs - Taken(id, masks));
    forall c ensures Subscribes(u, c, m) <==> Subscribes(t, c, m) {
    }
  }

  lemma CleanedAll(order: seq<Mask>, t: Table, id: Id, masks: seq<Mask>)
    requires Cleaned(order, t, id, masks)
    requires forall m :: m in masks <==> Subscribes(t, id, m)
    ensures ListsOrphans(order, t, {id})
    ensures t.pairs - Taken(id, masks) == Without(t, {id}).pairs
  {
    forall m ensures Orphaned(t, {id}, m) <==> m in masks && SoleSubscriber(t, id, m) {
      if Orphaned(t, {id}, m) {
        var c :| Subscribes(t, c, m);
        assert c == id;
      }
    }
    forall p ensures p in t.pairs - Taken(id, masks) <==> p in Without(t, {id}).pairs {
      if p in t.pairs && p.0 == id {
        assert Subscribes(t, id, p.1);
        assert p == (id, p.1);
      }
    }
  }

  lemma PeerMasksFollow(peers: seq<Peer>, i: nat)
    requires PeersOk(peers) && i < |peers|
    ensures forall m :: m in peers[i].masks <==> (peers[i].id, m) in PeerPairs(peers)
  {
    forall m | (peers[i].id, m) in PeerPairs(peers) ensures m in peers[i].masks {
      var k :| 0 <= k < |peers| && m in peers[k].masks && peers[k].id == peers[i].id;
      assert k == i;
    }
  }

  lemma Chain(t: Table, gone: set<Id>, loc: Location, mid: Table, s1: seq<Packet>, o1: seq<Mask>,
              lost: bool, parent: Location, t': Table, s2: seq<Packet>, o2: seq<Mask>)
    requires DropStep(t, gone, loc, mid, s1, o1) && RejoinStep(mid, lost, parent, t', s2, o2)
    ensures DropThenRejoin(t, gone, loc, lost, parent, t', s1 + s2)
  {
  }

  /** When nobody left is at loc, everybody who was there is gone. */
  lemma AllGone(peers: seq<Peer>, t: Table, gone: set<Id>, loc: Location)
    requires PeerIds(peers) == t.ids - gone && gone <= t.ids && forall c <- gone :: c.loc == loc
    requires forall i :: 0 <= i < |peers| ==> peers[i].id.loc != loc
    ensures gone == At(t, loc)
  {
    assert forall c :: c in PeerIds(peers) ==> c.loc != loc;
  }

  ghost predicate ListedBelow(rows: seq<Row>, n: nat, c: Id, e: Event)
    requires n <= |rows|
  {
    exists i :: 0 <= i < n && Match(e, rows[i].mask) && c in rows[i].subs
  }

  lemma ListedBelowNext(rows: seq<Row>, n: nat, e: Event)
    requires n < |rows|
    ensures forall c :: ListedBelow(rows, n + 1, c, e) <==>
                        ListedBelow(rows, n, c, e) || (Match(e, rows[n].mask) && c in rows[n].subs)
  {
  }

  lemma ListedIsCatching(t: Table, rows: seq<Row>, e: Event)
    requires t.pairs == RowPairs(rows)
    ensures forall c :: ListedBelow(rows, |rows|, c, e) <==> Catches(t, c, e)
  {
    forall c ensures ListedBelow(rows, |rows|, c, e) <==> Catches(t, c, e) {
      if ListedBelow(rows, |rows|, c, e) {
        var i :| 0 <= i < |rows| && Match(e, rows[i].mask) && c in rows[i].subs;
        assert Subscribes(t, c, rows[i].mask);
      }
      if Catches(t, c, e) {
        var m :| Subscribes(t, c, m) && Match(e, m);
        var i :| 0 <= i < |rows| && c in rows[i].subs && rows[i].mask == m;
      }
    }
  }

  /** The subscribers of a row are the subscribers of its mask. */
  lemma RowSubsFollow(rows: seq<Row>, j: nat)
    requires RowsOk(rows) && j < |rows|
    ensures forall c :: c in rows[j].subs <==> (c, rows[j].mask) in RowPairs(rows)
  {
    forall c | (c, rows[j].mask) in RowPairs(rows) ensures c in rows[j].subs {
      var k :| 0 <= k < |rows| && c in rows[k].subs && rows[k].mask == rows[j].mask;
      assert k == j;
    }
  }
}
