// The bootstrap server that hands out parents
// (src/manager_lib/network/network_sock/ftb_database_server_udp.c).
module BootstrapServer {

  /** FTBN_addr_sock_t; addresses are compared exactly, port and name. */
  datatype Addr = Addr(name: string, port: int)

  /** FTBNI_bootstrap_entry_t. The level is 32 bits wide, so that the -1 given to a
      crossed-out entry is above every level a packet can carry in its 16 bits. */
  datatype Entry = Entry(addr: Addr, level: int)

  const CROSSED_OUT := 0xFFFF_FFFF
  const MAX_LEVEL := 0xFFFF

  datatype Request =
    | AddrReq(addr: Addr, parentAddr: Addr, level: int)
    | RegReq(addr: Addr, level: int)
    | DeregReq(addr: Addr)
    | ConnFail(parentAddr: Addr)

  datatype Reply =
    | AddrRep(parentAddr: Addr, level: int)
    | RegRep
    | RegInvalid
    | DeregRep
    | NoReply

  const NOBODY := Addr("", 0)

  // ---- the table as a map, and what each request does to it

  ghost predicate TableOk(t: map<Addr, int>) {
    && (forall a <- t :: a.port != 0 && (0 <= t[a] <= MAX_LEVEL || t[a] == CROSSED_OUT))
    && (forall a <- t, b <- t :: t[a] == 1 && t[b] == 1 ==> a == b)
  }

  ghost predicate HasRoot(t: map<Addr, int>) {
    exists a :: a in t && t[a] == 1
  }

  ghost function CrossOut(t: map<Addr, int>, p: Addr): map<Addr, int> {
    if p in t then t[p := CROSSED_OUT] else t
  }

  /** p may be offered as a parent to the agent at addr, which has the given level. */
  ghost predicate Suitable(t: map<Addr, int>, p: Addr, addr: Addr, level: int) {
    p in t && t[p] < level && t[p] != CROSSED_OUT && p != addr
  }

  ghost predicate GoodOffer(t: map<Addr, int>, addr: Addr, level: int, rep: Reply) {
    && rep.AddrRep?
    && if rep.parentAddr.port == 0 then rep == AddrRep(NOBODY, 0) && forall p :: !Suitable(t, p, addr, level)
       else Suitable(t, rep.parentAddr, addr, level) && rep.level == t[rep.parentAddr]
  }

  ghost predicate ServerStep(t: map<Addr, int>, req: Request, t': map<Addr, int>, rep: Reply) {
    match req
    case AddrReq(addr, parentAddr, level) =>
      t' == CrossOut(t, parentAddr) && GoodOffer(t', addr, level, rep)
    case RegReq(addr, level) =>
      if addr.port == 0 then t' == t && rep == NoReply
      else if level == 1 && HasRoot(t) then t' == t && rep == RegInvalid
      else t' == t[addr := level] && rep == RegRep
    case DeregReq(addr) =>
      if addr.port == 0 then t' == t && rep == NoReply
      else t' == t - {addr} && rep == DeregRep
    case ConnFail(parentAddr) =>
      t' == t - {parentAddr} && rep == NoReply
  }

  ghost predicate RequestOk(req: Request) {
    (req.AddrReq? || req.RegReq?) ==> 0 <= req.level <= MAX_LEVEL
  }

  lemma ServerStepKeepsTable(t: map<Addr, int>, req: Request, t': map<Addr, int>, rep: Reply)
    requires TableOk(t) && RequestOk(req) && ServerStep(t, req, t', rep)
    ensures TableOk(t')
  {
  }

  // ---- the server itself

  ghost predicate Distinct(es: seq<Entry>) {
    forall i, j :: 0 <= i < j < |es| ==> es[i].addr != es[j].addr
  }

  ghost function TableOf(es: seq<Entry>): map<Addr, int> {
    if es == [] then map[] else TableOf(es[1..])[es[0].addr := es[0].level]
  }

  /** The table holds exactly the entries of the list. */
  lemma {:induction false} TableHolds(es: seq<Entry>)
    requires Distinct(es)
    ensures forall e :: e in es <==> e.addr in TableOf(es) && TableOf(es)[e.addr] == e.level
  {
    if es != [] {
      TableHolds(es[1..]);
      assert forall e :: e in es <==> e == es[0] || e in es[1..];
      forall e | e in es[1..] ensures e.addr != es[0].addr {
        var k :| 0 <= k < |es[1..]| && es[1..][k] == e;
        assert es[k + 1] == e;
      }
    }
  }

  /** A list with the entries of a table has that table. */
  lemma SameTable(es: seq<Entry>, t: map<Addr, int>)
    requires Distinct(es)
    requires forall e: Entry :: e in es <==> e.addr in t && t[e.addr] == e.level
    ensures TableOf(es) == t
  {
    TableHolds(es);
    forall a ensures a in TableOf(es) <==> a in t {
      assert a in TableOf(es) ==> Entry(a, TableOf(es)[a]) in es;
      assert a in t ==> Entry(a, t[a]) in es;
    }
    forall a | a in t ensures TableOf(es)[a] == t[a] {
      assert Entry(a, t[a]) in es;
    }
  }

  lemma RemovedTable(es: seq<Entry>, i: nat)
    requires Distinct(es) && i < |es|
    ensures var left := es[..i] + es[i + 1..];
            Distinct(left) && TableOf(left) == TableOf(es) - {es[i].addr}
  {
    var left := es[..i] + es[i + 1..];
    assert forall k :: 0 <= k < |left| ==> left[k] == if k < i then es[k] else es[k + 1];
    forall e: Entry ensures e in left <==> e in es && e.addr != es[i].addr {
      if e in es && e.addr != es[i].addr {
        var k :| 0 <= k < |es| && es[k] == e;
        assert e == if k < i then left[k] else left[k - 1];
      }
    }
    TableHolds(es);
    SameTable(left, TableOf(es) - {es[i].addr});
  }

  class Server {
    var entries: seq<Entry>
    var count: int

    ghost predicate Valid()
      reads this
    {
      count == |entries| && Distinct(entries) && TableOk(TableOf(entries))
    }

    constructor ()
      ensures Valid() && TableOf(entries) == map[]
    {
      entries, count := [], 0;
    }

    /** FTBU_map_find_key */
    method Find(addr: Addr) returns (i: nat)
      requires Distinct(entries)
      ensures i <= |entries|
      ensures i < |entries| ==> entries[i].addr == addr
      ensures i < |entries| <==> addr in TableOf(entries)
    {
      i := 0;
      while i < |entries| && entries[i].addr != addr
        invariant i <= |entries|
        invariant forall k :: 0 <= k < i ==> entries[k].addr != addr
      {
        i := i + 1;
      }
      TableHolds(entries);
      assert i < |entries| ==> entries[i] in entries;
      assert addr in TableOf(entries) ==> Entry(addr, TableOf(entries)[addr]) in entries;
    }

    /** FTBNI_util_find_root_entry, as a test */
    method FindRootEntry() returns (found: bool)
      requires Distinct(entries)
      ensures found <==> HasRoot(TableOf(entries))
    {
      var i := 0;
      while i < |entries|
        invariant i <= |entries|
        invariant forall k :: 0 <= k < i ==> entries[k].level != 1
      {
        if entries[i].level == 1 {
          TableHolds(entries);
          assert entries[i] in entries;
          return true;
        }
        i := i + 1;
      }
      TableHolds(entries);
      assert forall a :: a in TableOf(entries) ==> Entry(a, TableOf(entries)[a]) in entries;
      return false;
    }

    /** FTBNI_util_cross_out_parent_entry */
    method CrossOutParentEntry(parentAddr: Addr)
      requires Valid()
      modifies `entries
      ensures Valid() && TableOf(entries) == CrossOut(old(TableOf(entries)), parentAddr)
    {
      var i := Find(parentAddr);
      if i < |entries| {
        SetLevel(i, CROSSED_OUT);
      }
    }

    method SetLevel(i: nat, level: int)
      requires Distinct(entries) && i < |entries|
      modifies `entries
      ensures Distinct(entries) && |entries| == old(|entries|)
      ensures TableOf(entries) == old(TableOf(entries))[old(entries)[i].addr := level]
    {
      ghost var before := entries;
      entries := entries[i := entries[i].(level := level)];
      TableHolds(before);
      assert forall k :: 0 <= k < |entries| ==> entries[k].addr == before[k].addr;
      forall e: Entry
        ensures e in entries <==> e == Entry(before[i].addr, level) || (e in before && e.addr != before[i].addr) {
        if e in before && e.addr != before[i].addr {
          var k :| 0 <= k < |before| && before[k] == e;
          assert entries[k] == e;
        }
        assert entries[i] == Entry(before[i].addr, level);
      }
      SameTable(entries, TableOf(before)[before[i].addr := level]);
    }

    predicate SuitableAt(k: nat, addr: Addr, level: int)
      reads this
      requires k < |entries|
    {
      entries[k].level < level && entries[k].level != CROSSED_OUT && entries[k].addr != addr
    }

    /** FTBNI_util_find_parent_addr: the last suitable entry of a random prefix, or
        else the first suitable one of the rest; the length stands for none. */
    method FindParentAddr(addr: Addr, level: int, draw: nat) returns (found: nat)
      requires Valid()
      ensures found <= |entries|
      ensures if found < |entries| then SuitableAt(found, addr, level)
              else forall k :: 0 <= k < |entries| ==> !SuitableAt(k, addr, level)
      ensures found < |entries| ==>
                var x := draw % |entries|;
                if exists k :: 0 <= k <= x && SuitableAt(k, addr, level) then
                  found <= x && forall k :: found < k <= x ==> !SuitableAt(k, addr, level)
                else
                  forall k :: 0 <= k < found ==> !SuitableAt(k, addr, level)
    {
      found := |entries|;
      if count == 0 {
        return;
      }
      var x := draw % count;
      var i := 0;
      while i <= x
        invariant i <= x + 1 <= |entries|
        invariant found == |entries| ==> forall k :: 0 <= k < i ==> !SuitableAt(k, addr, level)
        invariant found != |entries| ==>
                    found < i && SuitableAt(found, addr, level) &&
                    forall k :: found < k < i ==> !SuitableAt(k, addr, level)
      {
        if SuitableAt(i, addr, level) {
          found := i;
        }
        i := i + 1;
      }
      if found == |entries| {
        while i < |entries|
          invariant x < i <= |entries|
          invariant forall k :: 0 <= k < i ==> !SuitableAt(k, addr, level)
        {
          if SuitableAt(i, addr, level) {
            return i;
          }
          i := i + 1;
        }
      }
    }

    method Insert(addr: Addr, level: int)
      requires Distinct(entries) && count == |entries| && addr !in TableOf(entries)
      modifies this
      ensures Distinct(entries) && count == |entries|
      ensures TableOf(entries) == old(TableOf(entries))[addr := level]
    {
      ghost var before := entries;
      entries := entries + [Entry(addr, level)];
      count := count + 1;
      TableHolds(before);
      assert forall k :: 0 <= k < |before| ==> before[k] in before;
      assert forall e :: e in entries <==> e in before || e == Entry(addr, level);
      SameTable(entries, TableOf(before)[addr := level]);
    }

    method RemoveAt(i: nat)
      requires Distinct(entries) && count == |entries| && i < |entries|
      modifies this
      ensures Distinct(entries) && count == |entries|
      ensures TableOf(entries) == old(TableOf(entries)) - {old(entries)[i].addr}
    {
      RemovedTable(entries, i);
      count := count - 1;
      entries := entries[..i] + entries[i + 1..];
    }

    /** The handlers for the four requests; draw is what rand() returns. */
    method HandleAddrReq(addr: Addr, parentAddr: Addr, level: int, draw: nat) returns (rep: Reply)
      requires Valid()
      modifies this
      ensures Valid()
      ensures ServerStep(old(TableOf(entries)), AddrReq(addr, parentAddr, level), TableOf(entries), rep)
    {
      CrossOutParentEntry(parentAddr);
      var i := FindParentAddr(addr, level, draw);
      SuitableIsSuitable(addr, level);
      TableHolds(entries);
      if i < |entries| {
        assert entries[i] in entries;
        rep := AddrRep(entries[i].addr, entries[i].level);
      } else {
        rep := AddrRep(NOBODY, 0);
      }
    }

    method HandleRegReq(addr: Addr, level: int) returns (rep: Reply)
      requires Valid() && 0 <= level <= MAX_LEVEL
      modifies this
      ensures Valid()
      ensures ServerStep(old(TableOf(entries)), RegReq(addr, level), TableOf(entries), rep)
    {
      if addr.port == 0 {
        return NoReply;
      }
      var root := FindRootEntry();
      if level == 1 && root {
        return RegInvalid;
      }
      ghost var t := TableOf(entries);
      var i := Find(addr);
      if i == |entries| {
        Insert(addr, level);
      } else {
        SetLevel(i, level);
      }
      ServerStepKeepsTable(t, RegReq(addr, level), TableOf(entries), RegRep);
      return RegRep;
    }

    method Forget(addr: Addr)
      requires Valid()
      modifies this
      ensures Valid() && TableOf(entries) == old(TableOf(entries)) - {addr}
    {
      ghost var t := TableOf(entries);
      var i := Find(addr);
      if i < |entries| {
        RemoveAt(i);
      }
      ServerStepKeepsTable(t, ConnFail(addr), t - {addr}, NoReply);
    }

    /** One turn of the server's loop. */
    method Handle(req: Request, draw: nat) returns (rep: Reply)
      requires Valid() && RequestOk(req)
      modifies this
      ensures Valid()
      ensures ServerStep(old(TableOf(entries)), req, TableOf(entries), rep)
    {
      match req
      case AddrReq(addr, parentAddr, level) =>
        rep := HandleAddrReq(addr, parentAddr, level, draw);
      case RegReq(addr, level) =>
        rep := HandleRegReq(addr, level);
      case DeregReq(addr) =>
        if addr.port == 0 {
          return NoReply;
        }
        Forget(addr);
        rep := DeregRep;
      case ConnFail(parentAddr) =>
        Forget(parentAddr);
        rep := NoReply;
    }

    lemma SuitableIsSuitable(addr: Addr, level: int)
      requires Valid()
      ensures forall k: nat :: k < |entries| ==>
                (SuitableAt(k, addr, level) <==> Suitable(TableOf(entries), entries[k].addr, addr, level))
      ensures forall p :: Suitable(TableOf(entries), p, addr, level) ==>
                exists k: nat :: k < |entries| && entries[k].addr == p && SuitableAt(k, addr, level)
    {
      TableHolds(entries);
      forall k: nat | k < |entries|
        ensures SuitableAt(k, addr, level) <==> Suitable(TableOf(entries), entries[k].addr, addr, level) {
        assert entries[k] in entries;
      }
      forall p | Suitable(TableOf(entries), p, addr, level)
        ensures exists k: nat :: k < |entries| && entries[k].addr == p && SuitableAt(k, addr, level) {
        assert Entry(p, TableOf(entries)[p]) in entries;
        var k :| 0 <= k < |entries| && entries[k] == Entry(p, TableOf(entries)[p]);
      }
    }
  }

  // ---- runs of the server

  datatype Exchange = Exchange(before: map<Addr, int>, req: Request, after: map<Addr, int>, rep: Reply)

  ghost predicate Service(xs: seq<Exchange>) {
    && (forall i :: 0 <= i < |xs| ==>
         RequestOk(xs[i].req) && ServerStep(xs[i].before, xs[i].req, xs[i].after, xs[i].rep))
    && (forall i :: 0 <= i < |xs| - 1 ==> xs[i].after == xs[i + 1].before)
  }

  lemma {:induction false} ServiceKeepsTable(xs: seq<Exchange>, k: nat)
    requires Service(xs) && k < |xs| && xs[0].before == map[]
    ensures TableOk(xs[k].before) && TableOk(xs[k].after)
  {
    if k > 0 {
      ServiceKeepsTable(xs, k - 1);
      assert xs[k - 1].after == xs[k - 1 + 1].before;
    }
    ServerStepKeepsTable(xs[k].before, xs[k].req, xs[k].after, xs[k].rep);
  }

  ghost predicate OutOfUse(t: map<Addr, int>, p: Addr) {
    p in t ==> t[p] == CROSSED_OUT
  }

  lemma {:induction false} StaysOutOfUse(xs: seq<Exchange>, k: nat, p: Addr)
    requires Service(xs) && k < |xs| && OutOfUse(xs[0].before, p)
    requires forall i :: 0 <= i <= k ==> !(xs[i].req.RegReq? && xs[i].req.addr == p)
    ensures OutOfUse(xs[k].before, p) && OutOfUse(xs[k].after, p)
  {
    if k > 0 {
      StaysOutOfUse(xs, k - 1, p);
      assert xs[k - 1].after == xs[k - 1 + 1].before;
    }
  }

  /** A parent that somebody reported as lost is offered to nobody, from that very
      request on, until it registers again. */
  lemma CrossedOutIsNotOffered(xs: seq<Exchange>, k: nat, p: Addr)
    requires Service(xs) && k < |xs| && p.port != 0
    requires xs[0].req.AddrReq? && xs[0].req.parentAddr == p
    requires forall i :: 0 <= i <= k ==> !(xs[i].req.RegReq? && xs[i].req.addr == p)
    ensures xs[k].rep.AddrRep? ==> xs[k].rep.parentAddr != p
  {
    if k > 0 {
      forall i | 0 <= i < |xs[1..]| - 1 ensures xs[1..][i].after == xs[1..][i + 1].before {
        assert xs[i + 1].after == xs[i + 1 + 1].before;
      }
      assert xs[0].after == xs[0 + 1].before;
      StaysOutOfUse(xs[1..], k - 1, p);
    }
  }

  // ---- what the server answers, by what it was told

  /** Agent p registers, and is told that it is registered. */
  ghost predicate Speaks(x: Exchange, p: Addr) {
    x.req.RegReq? && x.req.addr == p && x.rep == RegRep
  }

  /** Agent p is reported lost or unreachable, or takes its leave. */
  ghost predicate Silences(x: Exchange, p: Addr) {
    match x.req
    case AddrReq(_, parentAddr, _) => parentAddr == p
    case RegReq(_, _) => false
    case DeregReq(addr) => addr == p
    case ConnFail(parentAddr) => parentAddr == p
  }

  /** The i-th exchange is the last that is about p, and in it p registered with level l. */
  ghost predicate StandsSince(xs: seq<Exchange>, k: nat, p: Addr, l: int, i: nat)
    requires k <= |xs|
  {
    && i < k && Speaks(xs[i], p) && xs[i].req.level == l
    && forall j :: i < j < k ==> !Speaks(xs[j], p) && !Silences(xs[j], p)
  }

  /** After k exchanges, the last word about p is that it has level l. */
  ghost predicate Stands(xs: seq<Exchange>, k: nat, p: Addr, l: int)
    requires k <= |xs|
  {
    exists i: nat :: StandsSince(xs, k, p, l, i)
  }

  lemma StandsNext(xs: seq<Exchange>, k: nat, p: Addr, l: int)
    requires k < |xs|
    ensures Stands(xs, k + 1, p, l) <==>
            || (Speaks(xs[k], p) && xs[k].req.level == l)
            || (Stands(xs, k, p, l) && !Speaks(xs[k], p) && !Silences(xs[k], p))
  {
    var next := k + 1;
    if i: nat :| StandsSince(xs, next, p, l, i) {
      assert i < k ==> StandsSince(xs, k, p, l, i);
    }
    if Speaks(xs[k], p) && xs[k].req.level == l {
      assert StandsSince(xs, k + 1, p, l, k);
    }
    if i: nat :| StandsSince(xs, k, p, l, i) {
      assert !Speaks(xs[k], p) && !Silences(xs[k], p) ==> StandsSince(xs, k + 1, p, l, i);
    }
  }

  ghost predicate InUse(t: map<Addr, int>, p: Addr, l: int) {
    p in t && t[p] == l && l != CROSSED_OUT
  }

  lemma StepUses(x: Exchange, p: Addr, l: int)
    requires RequestOk(x.req) && ServerStep(x.before, x.req, x.after, x.rep) && TableOk(x.before)
    ensures InUse(x.after, p, l) <==>
            (Speaks(x, p) && x.req.level == l) || (InUse(x.before, p, l) && !Speaks(x, p) && !Silences(x, p))
  {
  }

  /** The entries in use are exactly those that stand by what the server was told. */
  lemma {:induction false} TableIsLastWord(xs: seq<Exchange>, k: nat, p: Addr, l: int)
    requires Service(xs) && k < |xs| && xs[0].before == map[]
    ensures InUse(xs[k].before, p, l) <==> Stands(xs, k, p, l)
    ensures InUse(xs[k].after, p, l) <==> Stands(xs, k + 1, p, l)
  {
    if k > 0 {
      TableIsLastWord(xs, k - 1, p, l);
      assert xs[k - 1].after == xs[k - 1 + 1].before;
    }
    ServiceKeepsTable(xs, k);
    StepUses(xs[k], p, l);
    StandsNext(xs, k, p, l);
  }

  /** Agent p may be offered in the k-th exchange: it stands there at a level below the
      asker's, is not the asker, and is not the parent the asker has lost. */
  ghost predicate MayBeOffered(xs: seq<Exchange>, k: nat, p: Addr, l: int)
    requires k < |xs| && xs[k].req.AddrReq?
  {
    Stands(xs, k, p, l) && l < xs[k].req.level && p != xs[k].req.addr && p != xs[k].req.parentAddr
  }

  /** Who asks for a parent is told of one that may be offered, and of its level, or, with
      port 0, of none, and then there is none. */
  lemma OffersExactly(xs: seq<Exchange>, k: nat)
    requires Service(xs) && k < |xs| && xs[0].before == map[] && xs[k].req.AddrReq?
    ensures xs[k].rep.AddrRep?
    ensures xs[k].rep.parentAddr.port != 0 ==> MayBeOffered(xs, k, xs[k].rep.parentAddr, xs[k].rep.level)
    ensures xs[k].rep.parentAddr.port == 0 ==> forall p, l :: !MayBeOffered(xs, k, p, l)
  {
    var x := xs[k];
    var p := x.rep.parentAddr;
    ServiceKeepsTable(xs, k);
    if p.port != 0 {
      TableIsLastWord(xs, k, p, x.rep.level);
      assert Suitable(x.after, p, x.req.addr, x.req.level);
    } else {
      forall q, l ensures !MayBeOffered(xs, k, q, l) {
        TableIsLastWord(xs, k, q, l);
        assert !Suitable(x.after, q, x.req.addr, x.req.level);
      }
    }
  }

  /** A registration as root is refused exactly if somebody stands as the root, and every
      other registration is accepted. */
  lemma RefusesExactly(xs: seq<Exchange>, k: nat)
    requires Service(xs) && k < |xs| && xs[0].before == map[] && xs[k].req.RegReq? && xs[k].req.addr.port != 0
    ensures xs[k].rep == RegInvalid <==> xs[k].req.level == 1 && exists r :: Stands(xs, k, r, 1)
    ensures xs[k].rep != RegInvalid <==> xs[k].rep == RegRep
  {
    forall r ensures InUse(xs[k].before, r, 1) <==> Stands(xs, k, r, 1) {
      TableIsLastWord(xs, k, r, 1);
    }
    if r :| r in xs[k].before && xs[k].before[r] == 1 {
      assert InUse(xs[k].before, r, 1);
    }
  }
}
