// The agent's message queue: a singly linked list with head and tail pointers, filled
// in batches by one thread and emptied by another (src/manager_lib/ftb_manager_lib.c:
// 1053-1117, src/manager_lib/network/network_sock/ftb_network_tcp.c:585-717).
module MessageQueue {

  datatype Option<T> = None | Some(value: T)

  /** FTBM_msg_node_t */
  class MsgNode<T> {
    var next: MsgNode?<T>
    const msg: T

    constructor (msg: T)
      ensures this.msg == msg && next == null
    {
      this.msg := msg;
      next := null;
    }
  }

  /** The nodes are linked in this order, and the last is linked to nothing. */
  ghost predicate Chain<T>(nodes: seq<MsgNode<T>>)
    reads nodes
  {
    && (forall i, j :: 0 <= i < j < |nodes| ==> nodes[i] != nodes[j])
    && (forall i :: 0 <= i < |nodes| - 1 ==> nodes[i].next == nodes[i + 1])
    && (nodes != [] ==> nodes[|nodes| - 1].next == null)
  }

  ghost function Messages<T>(nodes: seq<MsgNode<T>>): (s: seq<T>)
    ensures |s| == |nodes|
    ensures forall i :: 0 <= i < |s| ==> s[i] == nodes[i].msg
  {
    seq(|nodes|, i requires 0 <= i < |nodes| => nodes[i].msg)
  }

  ghost function First<T>(nodes: seq<MsgNode<T>>): MsgNode?<T> {
    if nodes == [] then null else nodes[0]
  }

  ghost function Last<T>(nodes: seq<MsgNode<T>>): MsgNode?<T> {
    if nodes == [] then null else nodes[|nodes| - 1]
  }

  /** FTBN_Grab_messages: one node for each message read, linked in the order read. */
  method Grab<T>(read: seq<T>) returns (head: MsgNode?<T>, tail: MsgNode?<T>, ghost nodes: seq<MsgNode<T>>)
    ensures Chain(nodes) && fresh(nodes)
    ensures head == First(nodes) && tail == Last(nodes) && Messages(nodes) == read
  {
    head, tail, nodes := null, null, [];
    var i := 0;
    while i < |read|
      invariant i <= |read| && Chain(nodes) && fresh(nodes)
      invariant head == First(nodes) && tail == Last(nodes) && Messages(nodes) == read[..i]
    {
      var node := new MsgNode(read[i]);
      if head == null {
        head := node;
      } else {
        tail.next := node;
      }
      node.next := null;
      tail := node;
      nodes := nodes + [node];
      i := i + 1;
    }
  }

  /** The first half of a turn of FTBM_Fill_message_queue: read is what arrived, and lost
      the marker for a connection found broken, which goes first. A marker that comes
      alone leaves the tail unset. */
  method MakeBatch<T>(read: seq<T>, lost: Option<T>)
    returns (first: MsgNode?<T>, last: MsgNode?<T>, ghost batch: seq<MsgNode<T>>)
    ensures Chain(batch) && fresh(batch)
    ensures first == First(batch) && last == if read == [] then null else Last(batch)
    ensures Messages(batch) == Batch(read, lost)
  {
    first, last, batch := Grab(read);
    if lost.Some? {
      var node := new MsgNode(lost.value);
      node.next := first;
      first, batch := node, [node] + batch;
    }
  }

  /** The queue as a value: what Recv can still reach, and whether the tail pointer has
      been lost. While it has, whatever arrives cannot be reached. */
  datatype State<T> = State(contents: seq<T>, broken: bool)

  datatype Turn<T> = Arrive(read: seq<T>, lost: Option<T>) | Take

  function Batch<T>(read: seq<T>, lost: Option<T>): seq<T> {
    (if lost.Some? then [lost.value] else []) + read
  }

  /** A marker for a broken connection, and no message along with it. */
  predicate MarkerOnly<T>(t: Turn<T>) {
    t.Arrive? && t.lost.Some? && t.read == []
  }

  function Step<T>(s: State<T>, t: Turn<T>): State<T> {
    match t
    case Arrive(read, lost) =>
      if s.broken then s else State(s.contents + Batch(read, lost), MarkerOnly(t))
    case Take =>
      if s.contents == [] then s else State(s.contents[1..], s.broken && |s.contents| > 1)
  }

  /** if (message_queue_tail != NULL) message_queue_tail->next = head: joins a batch to
      the list, if the tail is its end, and to what cannot be reached otherwise. */
  method Splice<T>(tail: MsgNode?<T>, first: MsgNode<T>, ghost nodes: seq<MsgNode<T>>, ghost batch: seq<MsgNode<T>>)
    returns (ghost linked: seq<MsgNode<T>>)
    requires Chain(nodes) && Chain(batch) && batch != [] && first == batch[0]
    requires forall n <- batch :: n !in nodes && n != tail
    requires tail == Last(nodes) || tail == null || tail !in nodes
    modifies tail
    ensures linked == if tail == Last(nodes) then nodes + batch else nodes
    ensures Chain(linked)
  {
    linked := if tail == Last(nodes) then nodes + batch else nodes;
    assert forall k :: 0 <= k < |batch| ==> batch[k] in batch;
    if tail != null {
      tail.next := first;
    } else {
      assert nodes == [] ==> linked == batch;
    }
  }

  lemma Ends<T>(nodes: seq<MsgNode<T>>, batch: seq<MsgNode<T>>)
    requires batch != [] && forall n <- batch :: n !in nodes
    ensures First(nodes + batch) == if nodes == [] then First(batch) else First(nodes)
    ensures Last(nodes + batch) == Last(batch) && Last(batch) != Last(nodes)
    ensures nodes + batch != [] && Last(batch) !in nodes && First(batch) !in nodes
    ensures nodes == [] ==> nodes + batch == batch
  {
    assert First(batch) in batch && Last(batch) in batch;
    assert nodes != [] ==> Last(nodes) in nodes;
  }

  /** The list after a batch has come that is not empty. */
  method Joined<T>(head: MsgNode?<T>, tail: MsgNode?<T>, first: MsgNode<T>,
                   ghost nodes: seq<MsgNode<T>>, ghost batch: seq<MsgNode<T>>)
    returns (start: MsgNode?<T>, ghost linked: seq<MsgNode<T>>)
    requires Chain(nodes) && Chain(batch) && batch != [] && first == batch[0] && head == First(nodes)
    requires forall n <- batch :: n !in nodes && n != tail
    requires tail == Last(nodes) || (nodes != [] && (tail == null || tail !in nodes))
    modifies tail
    ensures Chain(linked) && start == First(linked) && linked != [] && Last(linked) != null
    ensures if tail == Last(nodes) then linked == nodes + batch && Last(linked) == Last(batch)
            else linked == nodes && Last(batch) !in linked
  {
    Ends(nodes, batch);
    linked := Splice(tail, first, nodes, batch);
    start := if head == null then first else head;
  }

  class Queue<T> {
    var head: MsgNode?<T>
    var tail: MsgNode?<T>
    ghost var nodes: seq<MsgNode<T>>

    ghost predicate Valid()
      reads this, nodes
    {
      Chain(nodes) && head == First(nodes) && tail == Last(nodes)
    }

    /** The list from head is sound, but the tail pointer is not on it. */
    ghost predicate Broken()
      reads this, nodes
    {
      Chain(nodes) && head == First(nodes) && nodes != [] && (tail == null || tail !in nodes)
    }

    ghost predicate Is(s: State<T>)
      reads this, nodes
    {
      Messages(nodes) == s.contents && if s.broken then Broken() else Valid()
    }

    constructor ()
      ensures Is(State([], false))
    {
      head, tail, nodes := null, null, [];
    }

    /** FTBM_Recv; None is the case that the wait ends with no message. */
    method Recv(ghost s: State<T>) returns (r: Option<T>)
      requires Is(s)
      modifies this
      ensures Is(Step(s, Take))
      ensures r == if s.contents == [] then None else Some(s.contents[0])
    {
      if head == null {
        return None;
      }
      r := Some(head.msg);
      head := head.next;
      if head == null {
        tail := null;
      }
      nodes := nodes[1..];
    }

    /** The critical section of FTBM_Fill_message_queue. A batch that is not empty has
        to come with its last node as tail: exactly then the queue stays sound. */
    method Append(first: MsgNode?<T>, last: MsgNode?<T>, ghost batch: seq<MsgNode<T>>)
      requires Valid() || Broken()
      requires Chain(batch) && first == First(batch) && (last == Last(batch) || last == null)
      requires forall n <- batch :: n !in nodes && n != tail
      modifies this, tail
      ensures old(Valid()) ==> nodes == old(nodes) + batch && (Valid() || Broken())
      ensures old(Valid()) ==> (Valid() <==> batch == [] || last == Last(batch))
      ensures old(Broken()) ==> nodes == old(nodes) && Broken()
    {
      assert nodes + [] == nodes;
      if first != null {
        var start;
        ghost var linked;
        start, linked := Joined(head, tail, first, nodes, batch);
        head, tail, nodes := start, last, linked;
      }
    }

    /** One turn of FTBM_Fill_message_queue. */
    method Fill(read: seq<T>, lost: Option<T>, ghost s: State<T>)
      requires Is(s)
      modifies this, tail
      ensures Is(Step(s, Arrive(read, lost)))
    {
      var first, last;
      ghost var batch;
      first, last, batch := MakeBatch(read, lost);
      ghost var before := nodes;
      Append(first, last, batch);
      assert Messages(before + batch) == Messages(before) + Messages(batch);
    }
  }

  // ---- whole runs

  function Play<T>(s: State<T>, turns: seq<Turn<T>>): State<T>
    decreases |turns|
  {
    if turns == [] then s else Play(Step(s, turns[0]), turns[1..])
  }

  function TakenBy<T>(s: State<T>, t: Turn<T>): seq<T> {
    if t.Take? && s.contents != [] then [s.contents[0]] else []
  }

  function ArrivedBy<T>(t: Turn<T>): seq<T> {
    if t.Arrive? then Batch(t.read, t.lost) else []
  }

  function Taken<T>(s: State<T>, turns: seq<Turn<T>>): seq<T>
    decreases |turns|
  {
    if turns == [] then [] else TakenBy(s, turns[0]) + Taken(Step(s, turns[0]), turns[1..])
  }

  function Arrived<T>(turns: seq<Turn<T>>): seq<T> {
    if turns == [] then [] else ArrivedBy(turns[0]) + Arrived(turns[1..])
  }

  lemma StepConserves<T>(s: State<T>, t: Turn<T>)
    ensures TakenBy(s, t) + Step(s, t).contents == s.contents + if s.broken then [] else ArrivedBy(t)
  {
  }

  lemma Regroup<T>(a: seq<T>, b: seq<T>, c: seq<T>)
    ensures (a + b) + c == a + (b + c)
  {
  }

  /** The messages that arrive while the queue is broken. */
  function Missed<T>(s: State<T>, turns: seq<Turn<T>>): nat
    decreases |turns|
  {
    if turns == [] then 0
    else (if s.broken then |ArrivedBy(turns[0])| else 0) + Missed(Step(s, turns[0]), turns[1..])
  }

  /** Every message that arrives is taken, queued or missed; and when none is missed,
      what was taken and then what is queued is what arrived, in its order. */
  lemma {:induction false} Accounted<T>(s: State<T>, turns: seq<Turn<T>>)
    ensures |Taken(s, turns)| + |Play(s, turns).contents| + Missed(s, turns) == |s.contents| + |Arrived(turns)|
    ensures Missed(s, turns) == 0 ==> Taken(s, turns) + Play(s, turns).contents == s.contents + Arrived(turns)
    decreases |turns|
  {
    if turns != [] {
      var t, rest := turns[0], turns[1..];
      var s', left := Step(s, t), Play(s, turns).contents;
      Accounted(s', rest);
      StepConserves(s, t);
      Regroup(TakenBy(s, t), Taken(s', rest), left);
      Regroup(TakenBy(s, t), s'.contents, Arrived(rest));
      Regroup(s.contents, ArrivedBy(t), Arrived(rest));
    }
  }

  /** First in, first out, with nothing lost and nothing twice, exactly in the runs
      in which nothing arrives between a marker that came alone and the moment the
      queue is empty again. */
  lemma QueueIsFifoExactly<T>(s: State<T>, turns: seq<Turn<T>>)
    ensures Taken(s, turns) + Play(s, turns).contents == s.contents + Arrived(turns) <==> Missed(s, turns) == 0
  {
    Accounted(s, turns);
    if Taken(s, turns) + Play(s, turns).contents == s.contents + Arrived(turns) {
      assert |Taken(s, turns) + Play(s, turns).contents| == |s.contents + Arrived(turns)|;
    }
  }

  // ---- the same condition, on the turns alone

  /** How many messages n grow to, when none is missed. */
  function LoadAfter<T>(n: nat, t: Turn<T>): nat {
    if t.Arrive? then n + |ArrivedBy(t)| else if n == 0 then 0 else n - 1
  }

  function Load<T>(n: nat, turns: seq<Turn<T>>): nat
    decreases |turns|
  {
    if turns == [] then n else LoadAfter(Load(n, turns[..|turns| - 1]), turns[|turns| - 1])
  }

  /** Turn i brought a marker alone, and the queue has not been empty from then to turn j. */
  ghost predicate MarkedSince<T>(n: nat, turns: seq<Turn<T>>, i: nat, j: nat)
    requires j <= |turns|
  {
    i < j && MarkerOnly(turns[i]) && forall k :: i < k <= j ==> Load(n, turns[..k]) > 0
  }

  ghost predicate Marked<T>(n: nat, turns: seq<Turn<T>>, j: nat)
    requires j <= |turns|
  {
    exists i: nat :: MarkedSince(n, turns, i, j)
  }

  /** Nothing arrives from a marker that came alone until the queue is empty. */
  ghost predicate Undisturbed<T>(n: nat, turns: seq<Turn<T>>, m: nat)
    requires m <= |turns|
  {
    forall j :: 0 <= j < m && ArrivedBy(turns[j]) != [] ==> !Marked(n, turns, j)
  }

  lemma MarkedNext<T>(n: nat, turns: seq<Turn<T>>, j: nat)
    requires j < |turns|
    ensures Marked(n, turns, j + 1) <==>
            Load(n, turns[..j + 1]) > 0 && (MarkerOnly(turns[j]) || Marked(n, turns, j))
  {
    if Load(n, turns[..j + 1]) > 0 {
      if MarkerOnly(turns[j]) {
        assert MarkedSince(n, turns, j, j + 1);
      }
      if i: nat :| MarkedSince(n, turns, i, j) {
        assert MarkedSince(n, turns, i, j + 1);
      }
    }
    var next := j + 1;
    if i: nat :| MarkedSince(n, turns, i, next) {
      assert i < j ==> MarkedSince(n, turns, i, j);
    }
  }

  lemma {:induction false} PlayConcat<T>(s: State<T>, a: seq<Turn<T>>, b: seq<Turn<T>>)
    ensures Play(s, a + b) == Play(Play(s, a), b)
    ensures Missed(s, a + b) == Missed(s, a) + Missed(Play(s, a), b)
    decreases |a|
  {
    if a == [] {
      assert a + b == b;
    } else {
      assert (a + b)[1..] == a[1..] + b;
      PlayConcat(Step(s, a[0]), a[1..], b);
    }
  }

  lemma TurnAt<T>(s: State<T>, turns: seq<Turn<T>>, j: nat)
    requires j < |turns|
    ensures Play(s, turns[..j + 1]) == Step(Play(s, turns[..j]), turns[j])
    ensures Missed(s, turns[..j + 1]) ==
            Missed(s, turns[..j]) + if Play(s, turns[..j]).broken then |ArrivedBy(turns[j])| else 0
    ensures Load(|s.contents|, turns[..j + 1]) == LoadAfter(Load(|s.contents|, turns[..j]), turns[j])
  {
    assert turns[..j + 1] == turns[..j] + [turns[j]] && turns[..j + 1][..j] == turns[..j];
    assert [turns[j]][1..] == [];
    PlayConcat(s, turns[..j], [turns[j]]);
  }

  /** While nothing has arrived in between, the markers tell when the queue is broken. */
  lemma {:induction false} MarkersTell<T>(s: State<T>, turns: seq<Turn<T>>, j: nat)
    requires !s.broken && j <= |turns| && Undisturbed(|s.contents|, turns, j)
    ensures Missed(s, turns[..j]) == 0 && |Play(s, turns[..j]).contents| == Load(|s.contents|, turns[..j])
    ensures Play(s, turns[..j]).broken <==> Marked(|s.contents|, turns, j)
    ensures Play(s, turns[..j]).broken ==> Play(s, turns[..j]).contents != []
    decreases j
  {
    if j > 0 {
      MarkersTell(s, turns, j - 1);
      TurnAt(s, turns, j - 1);
      MarkedNext(|s.contents|, turns, j - 1);
    }
  }

  lemma {:induction false} FirstDisturbance<T>(n: nat, turns: seq<Turn<T>>, m: nat) returns (j: nat)
    requires m <= |turns| && !Undisturbed(n, turns, m)
    ensures j < m && Undisturbed(n, turns, j) && ArrivedBy(turns[j]) != [] && Marked(n, turns, j)
    decreases m
  {
    if Undisturbed(n, turns, m - 1) {
      j := m - 1;
    } else {
      j := FirstDisturbance(n, turns, m - 1);
    }
  }

  /** A sound queue is first in, first out exactly in the runs in which nothing arrives
      from a marker that comes alone until the queue is empty. */
  lemma QueueIsFifoByTurns<T>(s: State<T>, turns: seq<Turn<T>>)
    requires !s.broken
    ensures Taken(s, turns) + Play(s, turns).contents == s.contents + Arrived(turns) <==>
            Undisturbed(|s.contents|, turns, |turns|)
  {
    QueueIsFifoExactly(s, turns);
    assert turns[..|turns|] == turns;
    if Undisturbed(|s.contents|, turns, |turns|) {
      MarkersTell(s, turns, |turns|);
    } else {
      var j := FirstDisturbance(|s.contents|, turns, |turns|);
      MarkersTell(s, turns, j);
      TurnAt(s, turns, j);
      assert turns == turns[..j + 1] + turns[j + 1..];
      PlayConcat(s, turns[..j + 1], turns[j + 1..]);
    }
  }

  /** In particular, if no marker comes alone, the queue is never broken. */
  lemma {:induction false} SoundWithoutLoneMarkers<T>(s: State<T>, turns: seq<Turn<T>>)
    requires !s.broken && forall t <- turns :: !MarkerOnly(t)
    ensures !Play(s, turns).broken && Missed(s, turns) == 0
    decreases |turns|
  {
    if turns != [] {
      SoundWithoutLoneMarkers(Step(s, turns[0]), turns[1..]);
    }
  }

  /** A marker goes before what was read along with it: what came in on connections that
      still stand is handled after the cleanup of the one that broke. */
  lemma MarkerGoesFirst<T>(s: State<T>, read: seq<T>, marker: T)
    requires !s.broken
    ensures Step(s, Arrive(read, Some(marker))).contents == s.contents + [marker] + read
    ensures Step(s, Arrive(read, None)).contents == s.contents + read
    ensures Step(s, Arrive(read, Some(marker))).broken <==> read == []
  {
    assert s.contents + ([marker] + read) == s.contents + [marker] + read;
  }

  function Grabs<T>(n: nat): (turns: seq<Turn<T>>)
    ensures |turns| == n
  {
    if n == 0 then [] else [Take] + Grabs(n - 1)
  }

  lemma {:induction false} GrabsInOrder<T>(s: State<T>, n: nat)
    requires n <= |s.contents|
    ensures Taken(s, Grabs(n)) == s.contents[..n]
    decreases n
  {
    if n > 0 {
      assert Grabs<T>(n)[1..] == Grabs(n - 1);
      GrabsInOrder(Step(s, Take), n - 1);
      assert s.contents[..n] == [s.contents[0]] + s.contents[1..][..n - 1];
    }
  }

  /** So the first message handed out after what was queued is the marker, and what was
      read along with it comes next, in the order it was read. */
  lemma MarkerIsTakenFirst<T>(s: State<T>, read: seq<T>, marker: T, k: nat)
    requires !s.broken && k <= |read|
    ensures var turns := [Arrive(read, Some(marker))] + Grabs(|s.contents| + 1 + k);
            Taken(s, turns) == s.contents + [marker] + read[..k]
  {
    var n := |s.contents| + 1 + k;
    var turns := [Arrive(read, Some(marker))] + Grabs(n);
    var next := Step(s, Arrive(read, Some(marker)));
    MarkerGoesFirst(s, read, marker);
    GrabsInOrder(next, n);
    assert turns[1..] == Grabs(n);
    assert next.contents[..n] == s.contents + [marker] + read[..k];
  }

  /** A marker that comes alone to an empty queue costs the message after it. */
  lemma LoneMarkerLosesMessages<T>(marker: T, message: T)
    ensures var turns := [Arrive([], Some(marker)), Arrive([message], None), Take, Take];
            Taken(State([], false), turns) == [marker] && Play(State([], false), turns) == State([], false)
  {
    var turns := [Arrive([], Some(marker)), Arrive([message], None), Take, Take];
    var s0: State<T> := State([], false);
    var s1 := State([marker], true);
    assert turns[1..] == [Arrive([message], None), Take, Take];
    var last: seq<Turn<T>> := [Take];
    assert turns[1..][1..] == [Take, Take] && turns[1..][1..][1..] == last && last[1..] == [];
    assert Step(s0, turns[0]) == s1 && Step(s1, turns[1]) == s1 && Step(s1, Take) == s0 && Step(s0, Take) == s0;
    assert Taken(s0, last) == [] && Play(s0, last) == s0;
    assert Taken(s1, [Take, Take]) == [marker] && Play(s1, [Take, Take]) == s0;
  }

  function Takes<T>(turns: seq<Turn<T>>): nat {
    if turns == [] then 0 else (if turns[0].Take? then 1 else 0) + Takes(turns[1..])
  }

  /** Once broken, the queue takes nothing in until the last message it has is taken. */
  lemma {:induction false} BrokenUntilDrained<T>(s: State<T>, turns: seq<Turn<T>>)
    requires s.broken && |s.contents| > Takes(turns)
    ensures Play(s, turns).broken
    ensures Taken(s, turns) + Play(s, turns).contents == s.contents
    decreases |turns|
  {
    if turns != [] {
      var t, rest := turns[0], turns[1..];
      var s', left := Step(s, t), Play(s, turns).contents;
      BrokenUntilDrained(s', rest);
      Regroup(TakenBy(s, t), Taken(s', rest), left);
    }
  }
}
