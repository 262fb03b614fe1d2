// The bounded queue of events a client polls (src/client_lib/ftb_client_lib.c:564-587,
// 1542-1624). A full queue drops its oldest event for a new one.
module PollingQueue {

  datatype Option<T> = None | Some(value: T)

  /** What became of every event that arrived, by its place in the order of arrival. */
  datatype History<T> = History(arrived: seq<T>, queued: seq<nat>, polled: seq<nat>, evicted: seq<nat>)

  function Without<T>(s: seq<T>, i: nat): seq<T>
    requires i < |s|
  {
    s[..i] + s[i + 1..]
  }

  function Arrive<T>(h: History<T>, max: nat, x: T): History<T>
    requires max > 0
  {
    var n := |h.arrived|;
    if |h.queued| == max then
      History(h.arrived + [x], h.queued[1..] + [n], h.polled, h.evicted + [h.queued[0]])
    else
      History(h.arrived + [x], h.queued + [n], h.polled, h.evicted)
  }

  function ArriveAll<T>(h: History<T>, max: nat, xs: seq<T>): History<T>
    requires max > 0
    decreases |xs|
  {
    if xs == [] then h else ArriveAll(Arrive(h, max, xs[0]), max, xs[1..])
  }

  ghost predicate InRange<T>(h: History<T>) {
    forall k :: 0 <= k < |h.queued| ==> h.queued[k] < |h.arrived|
  }

  /** The queued events themselves. */
  ghost function Items<T>(h: History<T>): (s: seq<T>)
    requires InRange(h)
    ensures |s| == |h.queued|
    ensures forall k :: 0 <= k < |s| ==> s[k] == h.arrived[h.queued[k]]
  {
    seq(|h.queued|, k requires 0 <= k < |h.queued| && InRange(h) => h.arrived[h.queued[k]])
  }

  /** The place in the queue of the oldest event that matches, or the queue's length. */
  ghost predicate OldestMatch<T>(h: History<T>, matches: T -> bool, i: nat)
    requires InRange(h)
  {
    && i <= |h.queued|
    && (forall k :: 0 <= k < i ==> !matches(Items(h)[k]))
    && (i < |h.queued| ==> matches(Items(h)[i]))
  }

  /** A poll that found event x. */
  ghost predicate Finds<T>(h: History<T>, matches: T -> bool, h': History<T>, x: T) {
    InRange(h) && exists i: nat ::
      i < |h.queued| && OldestMatch(h, matches, i) && h' == Poll(h, i) && x == Items(h)[i]
  }

  /** A poll that found nothing. */
  ghost predicate FindsNothing<T>(h: History<T>, matches: T -> bool) {
    InRange(h) && forall k :: 0 <= k < |h.queued| ==> !matches(Items(h)[k])
  }

  function Poll<T>(h: History<T>, i: nat): History<T> {
    if i < |h.queued| then h.(queued := Without(h.queued, i), polled := h.polled + [h.queued[i]]) else h
  }

  /** What a poll hands out matches, and arrived before every other match that is queued;
      a poll that hands out nothing leaves no match. */
  lemma OldestMatchIsOldest<T>(h: History<T>, max: nat, matches: T -> bool, i: nat, k: nat)
    requires Ordered(h, max) && OldestMatch(h, matches, i) && k < |h.queued| && matches(h.arrived[h.queued[k]])
    ensures i < |h.queued| && matches(h.arrived[h.queued[i]]) && h.queued[i] <= h.queued[k]
  {
    assert matches(Items(h)[k]);
    assert i < |h.queued| && matches(Items(h)[i]);
  }

  // ---- conservation

  ghost predicate Rising(s: seq<nat>) {
    forall i, j :: 0 <= i < j < |s| ==> s[i] < s[j]
  }

  function Upto(n: nat): (s: seq<nat>)
    ensures |s| == n
    ensures forall i :: 0 <= i < n ==> s[i] == i
  {
    seq(n, i requires 0 <= i < n => i)
  }

  ghost predicate Below(s: seq<nat>, n: nat) {
    forall i :: 0 <= i < |s| ==> s[i] < n
  }

  ghost predicate Older(s: seq<nat>, t: seq<nat>) {
    forall i, j :: 0 <= i < |s| && 0 <= j < |t| ==> s[i] < t[j]
  }

  /** The queue keeps the order of arrival and its bound, and whatever was evicted is
      older than what is queued. */
  ghost predicate Ordered<T>(h: History<T>, max: nat) {
    && InRange(h) && |h.queued| <= max
    && Rising(h.queued) && Rising(h.evicted)
    && Older(h.evicted, h.queued) && Below(h.evicted, |h.arrived|)
  }

  /** Every arrival is queued, polled or evicted, once. */
  ghost predicate Counted<T>(h: History<T>) {
    multiset(h.queued) + multiset(h.polled) + multiset(h.evicted) == multiset(Upto(|h.arrived|))
  }

  ghost predicate Conserves<T>(h: History<T>, max: nat) {
    Ordered(h, max) && Counted(h)
  }

  lemma RisingTail(s: seq<nat>)
    requires Rising(s) && s != []
    ensures Rising(s[1..]) && Older([s[0]], s[1..])
  {
  }

  lemma RisingSnoc(s: seq<nat>, n: nat)
    requires Rising(s) && Older(s, [n])
    ensures Rising(s + [n])
  {
    forall i, j | 0 <= i < j < |s + [n]| ensures (s + [n])[i] < (s + [n])[j] {
      assert j == |s| ==> s[i] < [n][0];
    }
  }

  lemma OlderSnoc(s: seq<nat>, t: seq<nat>, n: nat)
    requires Older(s, t) && Below(s, n)
    ensures Older(s, t + [n])
  {
  }

  /** A full queue gives its oldest event up. */
  lemma EvictKeepsOrder<T>(h: History<T>, max: nat)
    requires Ordered(h, max) && h.queued != []
    ensures var h' := h.(queued := h.queued[1..], evicted := h.evicted + [h.queued[0]]);
            Ordered(h', max) && Items(h') == Items(h)[1..]
  {
    var first, rest := h.queued[0], h.queued[1..];
    RisingTail(h.queued);
    forall i | 0 <= i < |h.evicted| ensures h.evicted[i] < [first][0] {
      assert h.evicted[i] < h.queued[0];
    }
    RisingSnoc(h.evicted, first);
    forall i, j | 0 <= i < |h.evicted + [first]| && 0 <= j < |rest| ensures (h.evicted + [first])[i] < rest[j] {
      assert rest[j] == h.queued[j + 1];
    }
  }

  lemma JoinKeepsOrder<T>(h: History<T>, max: nat, x: T)
    requires Ordered(h, max) && |h.queued| < max
    ensures var h' := h.(arrived := h.arrived + [x], queued := h.queued + [|h.arrived|]);
            Ordered(h', max) && Items(h') == Items(h) + [x]
  {
    RisingSnoc(h.queued, |h.arrived|);
    OlderSnoc(h.evicted, h.queued, |h.arrived|);
  }

  lemma ArriveKeepsOrder<T>(h: History<T>, max: nat, x: T)
    requires max > 0 && Ordered(h, max)
    ensures Ordered(Arrive(h, max, x), max)
    ensures Items(Arrive(h, max, x)) == (if |h.queued| == max then Items(h)[1..] else Items(h)) + [x]
  {
    if |h.queued| == max {
      EvictKeepsOrder(h, max);
      JoinKeepsOrder(h.(queued := h.queued[1..], evicted := h.evicted + [h.queued[0]]), max, x);
    } else {
      JoinKeepsOrder(h, max, x);
    }
  }

  /** An arrival finds everybody accounted for, and is itself queued. */
  lemma ArriveIsCounted<T>(h: History<T>, max: nat, x: T)
    requires max > 0 && Counted(h)
    ensures Counted(Arrive(h, max, x))
  {
    if |h.queued| == max {
      EvictIsCounted(h);
      JoinIsCounted(h.(queued := h.queued[1..], evicted := h.evicted + [h.queued[0]]), x);
    } else {
      JoinIsCounted(h, x);
    }
  }

  lemma EvictIsCounted<T>(h: History<T>)
    requires Counted(h) && h.queued != []
    ensures Counted(h.(queued := h.queued[1..], evicted := h.evicted + [h.queued[0]]))
  {
    assert h.queued == [h.queued[0]] + h.queued[1..];
    assert multiset(h.queued) == multiset{h.queued[0]} + multiset(h.queued[1..]);
  }

  lemma JoinIsCounted<T>(h: History<T>, x: T)
    requires Counted(h)
    ensures Counted(h.(arrived := h.arrived + [x], queued := h.queued + [|h.arrived|]))
  {
    var n := |h.arrived|;
    assert Upto(n + 1) == Upto(n) + [n];
  }

  lemma TakeOne<T>(s: seq<T>, i: nat)
    requires i < |s|
    ensures multiset(s) == multiset(Without(s, i)) + multiset{s[i]}
  {
    assert s == s[..i] + [s[i]] + s[i + 1..];
  }

  lemma PollIsCounted<T>(h: History<T>, i: nat)
    requires Counted(h)
    ensures Counted(Poll(h, i))
  {
    if i < |h.queued| {
      TakeOne(h.queued, i);
    }
  }

  lemma PlaceBefore<T>(s: seq<T>, i: nat, k: nat)
    requires i < |s| && k < |s| - 1
    ensures Without(s, i)[k] == if k < i then s[k] else s[k + 1]
  {
  }

  lemma WithoutRises(s: seq<nat>, i: nat)
    requires i < |s| && Rising(s)
    ensures Rising(Without(s, i))
  {
    forall a, b | 0 <= a < b < |s| - 1 ensures Without(s, i)[a] < Without(s, i)[b] {
      PlaceBefore(s, i, a);
      PlaceBefore(s, i, b);
    }
  }

  lemma PollKeepsItems<T>(h: History<T>, i: nat)
    requires InRange(h) && i < |h.queued|
    ensures InRange(Poll(h, i)) && Items(Poll(h, i)) == Without(Items(h), i)
  {
    forall k: nat | k < |h.queued| - 1
      ensures Without(h.queued, i)[k] < |h.arrived| && h.arrived[Without(h.queued, i)[k]] == Without(Items(h), i)[k] {
      PlaceBefore(h.queued, i, k);
      PlaceBefore(Items(h), i, k);
    }
  }

  lemma PollKeepsOrder<T>(h: History<T>, max: nat, i: nat)
    requires Ordered(h, max)
    ensures Ordered(Poll(h, i), max)
    ensures Items(Poll(h, i)) == if i < |h.queued| then Without(Items(h), i) else Items(h)
  {
    if i < |h.queued| {
      PollKeepsItems(h, i);
      WithoutRises(h.queued, i);
      forall a, b: nat | 0 <= a < |h.evicted| && b < |h.queued| - 1 ensures h.evicted[a] < Without(h.queued, i)[b] {
        PlaceBefore(h.queued, i, b);
      }
    }
  }

  lemma PollConserves<T>(h: History<T>, max: nat, i: nat)
    requires Conserves(h, max)
    ensures Conserves(Poll(h, i), max)
    ensures Items(Poll(h, i)) == if i < |h.queued| then Without(Items(h), i) else Items(h)
  {
    PollKeepsOrder(h, max, i);
    PollIsCounted(h, i);
  }

  lemma ArriveConserves<T>(h: History<T>, max: nat, x: T)
    requires max > 0 && Conserves(h, max)
    ensures Conserves(Arrive(h, max, x), max)
    ensures Items(Arrive(h, max, x)) == (if |h.queued| == max then Items(h)[1..] else Items(h)) + [x]
  {
    ArriveKeepsOrder(h, max, x);
    ArriveIsCounted(h, max, x);
  }

  lemma {:induction false} ArriveAllConserves<T>(h: History<T>, max: nat, xs: seq<T>)
    requires max > 0 && Conserves(h, max)
    ensures Conserves(ArriveAll(h, max, xs), max)
    ensures ArriveAll(h, max, xs).arrived == h.arrived + xs
    decreases |xs|
  {
    if xs != [] {
      ArriveConserves(h, max, xs[0]);
      ArriveAllConserves(Arrive(h, max, xs[0]), max, xs[1..]);
      assert h.arrived + [xs[0]] + xs[1..] == h.arrived + xs;
    } else {
      assert h.arrived + [] == h.arrived;
    }
  }

  datatype Action<!T> = Arrival(x: T) | Polling(matches: T -> bool)

  /** One history after another, with each poll taking the oldest match. */
  ghost predicate Run<T>(hs: seq<History<T>>, max: nat, actions: seq<Action<T>>) {
    && max > 0 && |hs| == |actions| + 1 && hs[0] == History([], [], [], [])
    && forall k :: 0 <= k < |actions| ==> Acts(hs[k], max, actions[k], hs[k + 1])
  }

  ghost predicate Acts<T>(h: History<T>, max: nat, action: Action<T>, h': History<T>)
    requires max > 0
  {
    match action
    case Arrival(x) => h' == Arrive(h, max, x)
    case Polling(matches) => InRange(h) && exists i :: OldestMatch(h, matches, i) && h' == Poll(h, i)
  }

  /** Over any arrivals and polls, every event is still queued, was handed out once, or
      was dropped for being the oldest in a full queue. */
  lemma {:induction false} RunConserves<T>(hs: seq<History<T>>, max: nat, actions: seq<Action<T>>, k: nat)
    requires Run(hs, max, actions) && k < |hs|
    ensures Conserves(hs[k], max)
    ensures |hs[k].arrived| == |hs[k].queued| + |hs[k].polled| + |hs[k].evicted|
  {
    if k == 0 {
      assert Upto(0) == [];
    } else {
      RunConserves(hs, max, actions, k - 1);
      var h, a := hs[k - 1], actions[k - 1];
      assert Acts(h, max, a, hs[k - 1 + 1]);
      match a {
        case Arrival(x) => ArriveConserves(h, max, x);
        case Polling(matches) =>
          var i :| OldestMatch(h, matches, i) && hs[k] == Poll(h, i);
          PollConserves(h, max, i);
      }
    }
    var h := hs[k];
    assert |multiset(h.queued) + multiset(h.polled) + multiset(h.evicted)| == |multiset(Upto(|h.arrived|))|;
  }

  // ---- the client's queue

  class EventQueue<T> {
    var queue: seq<T>
    var size: int
    const max: nat
    ghost var h: History<T>

    ghost predicate Valid()
      reads this
    {
      max > 0 && size == |queue| && Conserves(h, max) && queue == Items(h)
    }

    /** As FTBC_Connect sets it up: a length that is not positive means the default. */
    constructor (len: int)
      ensures Valid() && max == (if len > 0 then len else 64) && h == History([], [], [], [])
    {
      max := if len > 0 then len else 64;
      queue, size := [], 0;
      h := History([], [], [], []);
    }

    /** FTBCI_util_push_to_comp_polling_list */
    method Push(x: T)
      requires Valid()
      modifies this
      ensures Valid() && h == Arrive(old(h), max, x)
    {
      ArriveConserves(h, max, x);
      h := Arrive(h, max, x);
      if size == max {
        queue := queue[1..];
        size := size - 1;
      }
      queue := queue + [x];
      size := size + 1;
    }

    /** FTBCI_Check_progress hands over what has come in meanwhile. */
    method CheckProgress(xs: seq<T>)
      requires Valid()
      modifies this
      ensures Valid() && h == ArriveAll(old(h), max, xs)
    {
      var i := 0;
      while i < |xs|
        invariant i <= |xs| && Valid()
        invariant ArriveAll(h, max, xs[i..]) == ArriveAll(old(h), max, xs)
      {
        assert xs[i..][0] == xs[i] && xs[i..][1..] == xs[i + 1..];
        Push(xs[i]);
        i := i + 1;
      }
    }

    /** The search of one round of FTBC_Poll_event. */
    method FindMatch(matches: T -> bool) returns (k: nat)
      requires Valid()
      ensures OldestMatch(h, matches, k)
    {
      k := 0;
      while k < |queue| && !matches(queue[k])
        invariant k <= |queue|
        invariant forall n :: 0 <= n < k ==> !matches(queue[n])
      {
        k := k + 1;
      }
    }

    /** One round of FTBC_Poll_event, once waiting events are in. */
    method TakeMatch(matches: T -> bool) returns (r: Option<T>, ghost i: nat)
      requires Valid()
      modifies this
      ensures Valid() && OldestMatch(old(h), matches, i) && h == Poll(old(h), i)
      ensures r == if i < |old(queue)| then Some(old(queue)[i]) else None
      ensures queue == if i < |old(queue)| then Without(old(queue), i) else old(queue)
    {
      var k := FindMatch(matches);
      i := k;
      PollConserves(h, max, i);
      h := Poll(h, i);
      if k == |queue| {
        return None, i;
      }
      r := Some(queue[k]);
      queue := Without(queue, k);
      size := size - 1;
    }

    /** FTBC_Poll_event looks twice, each time after letting waiting events in; the
        answer is the oldest match there is then, and without one nothing is lost. */
    method PollEvent(matches: T -> bool, first: seq<T>, second: seq<T>) returns (r: Option<T>)
      requires Valid()
      modifies this
      ensures Valid()
      ensures var before := ArriveAll(old(h), max, first);
              var later := ArriveAll(before, max, second);
              if r.Some? then
                || Finds(before, matches, h, r.value)
                || (FindsNothing(before, matches) && Finds(later, matches, h, r.value))
              else
                FindsNothing(before, matches) && FindsNothing(later, matches) && h == later
    {
      ArriveAllConserves(h, max, first);
      ArriveAllConserves(ArriveAll(h, max, first), max, second);
      CheckProgress(first);
      ghost var i;
      r, i := TakeMatch(matches);
      if r.Some? {
        return;
      }
      CheckProgress(second);
      r, i := TakeMatch(matches);
    }
  }
}
