// The circular doubly linked list under every table of FTB, and the map kept in it
// (src/util/ftb_util.c:264-485).
module LinkedMap {

  /** The head node of a map holds the comparison function instead of an entry. */
  datatype Cell<K, V> = Head | Entry(key: K, data: V)

  class Node<K, V> {
    var next: Node<K, V>
    var prev: Node<K, V>
    const cell: Cell<K, V>

    /** FTBU_list_init: a ring of one. */
    constructor (cell: Cell<K, V>)
      ensures this.cell == cell && next == this && prev == this
    {
      this.cell := cell;
      next, prev := this, this;
    }
  }

  ghost predicate Distinct<T>(s: seq<T>) {
    forall i, j :: 0 <= i < j < |s| ==> s[i] != s[j]
  }

  /** The nodes form a ring in this order, in both directions. */
  ghost predicate Ring<K, V>(ring: seq<Node<K, V>>)
    reads ring
  {
    && ring != []
    && Distinct(ring)
    && (forall i :: 0 <= i < |ring| - 1 ==> ring[i].next == ring[i + 1])
    && (forall i :: 0 < i < |ring| ==> ring[i].prev == ring[i - 1])
    && ring[|ring| - 1].next == ring[0]
    && ring[0].prev == ring[|ring| - 1]
  }

  /** FTBU_list_remove_node */
  method Unlink<K, V>(node: Node<K, V>, ghost ring: seq<Node<K, V>>, ghost i: nat)
    requires Ring(ring) && 0 < i < |ring| && ring[i] == node
    modifies ring
    ensures Ring(ring[..i] + ring[i + 1..])
  {
    assert node.prev == ring[i - 1] && node.next == if i + 1 < |ring| then ring[i + 1] else ring[0];
    node.next.prev := node.prev;
    node.prev.next := node.next;
  }

  /** FTBU_list_add_back: before the head, that is, at the end of the list. */
  method AddBack<K, V>(list: Node<K, V>, node: Node<K, V>, ghost ring: seq<Node<K, V>>)
    requires Ring(ring) && ring[0] == list && node !in ring
    modifies ring, node
    ensures Ring(ring + [node])
  {
    list.prev.next := node;
    node.next := list;
    node.prev := list.prev;
    list.prev := node;
  }

  /** FTBU_list_add_front: right after the head. */
  method AddFront<K, V>(list: Node<K, V>, node: Node<K, V>, ghost ring: seq<Node<K, V>>)
    requires Ring(ring) && ring[0] == list && node !in ring
    modifies ring, node
    ensures Ring([list, node] + ring[1..])
  {
    assert list.next == if |ring| > 1 then ring[1] else list;
    ghost var after := [list, node] + ring[1..];
    assert forall k :: 2 <= k < |after| ==> after[k] == ring[k - 1];
    list.next.prev := node;
    node.next := list.next;
    node.prev := list;
    list.next := node;
  }

  datatype Status = Success | Exist | NotExist

  /** All nodes but the head hold an entry. */
  ghost predicate Filled<K, V>(ring: seq<Node<K, V>>) {
    ring != [] && forall i :: 0 < i < |ring| ==> ring[i].cell.Entry?
  }

  /** The map as the sequence of its entries, oldest first. */
  ghost function Entries<K, V>(ring: seq<Node<K, V>>): (s: seq<(K, V)>)
    requires Filled(ring)
    ensures |s| == |ring| - 1
    ensures forall i :: 0 <= i < |s| ==> s[i] == (ring[i + 1].cell.key, ring[i + 1].cell.data)
  {
    seq(|ring| - 1, i requires 0 <= i < |ring| - 1 => (ring[i + 1].cell.key, ring[i + 1].cell.data))
  }

  datatype Option<T> = None | Some(value: T)

  /** What the map gives for a key: the data of the first entry with an equal key. */
  function Lookup<K, V>(s: seq<(K, V)>, equal: (K, K) -> bool, key: K): Option<V> {
    if s == [] then None
    else if equal(s[0].0, key) then Some(s[0].1)
    else Lookup(s[1..], equal, key)
  }

  lemma {:induction false} LookupIsFirstMatch<K, V>(s: seq<(K, V)>, equal: (K, K) -> bool, key: K, i: nat)
    requires i <= |s| && forall k :: 0 <= k < i ==> !equal(s[k].0, key)
    requires i < |s| ==> equal(s[i].0, key)
    ensures Lookup(s, equal, key) == if i < |s| then Some(s[i].1) else None
  {
    if i > 0 {
      LookupIsFirstMatch(s[1..], equal, key, i - 1);
    }
  }

  ghost predicate Equivalence<K(!new)>(equal: (K, K) -> bool) {
    && (forall a :: equal(a, a))
    && (forall a, b :: equal(a, b) ==> equal(b, a))
    && (forall a, b, c :: equal(a, b) && equal(b, c) ==> equal(a, c))
  }

  ghost predicate DistinctKeys<K, V>(s: seq<(K, V)>, equal: (K, K) -> bool) {
    forall i, j :: 0 <= i < j < |s| ==> !equal(s[i].0, s[j].0)
  }

  /** With an equality that is an equivalence the map is a partial function on its
      classes: appending a new key defines it there and changes nothing else. */
  lemma {:induction false} LookupAfterInsert<K(!new), V>(s: seq<(K, V)>, equal: (K, K) -> bool, key: K, data: V, k: K)
    requires Equivalence(equal) && forall i :: 0 <= i < |s| ==> !equal(s[i].0, key)
    ensures Lookup(s + [(key, data)], equal, k) == if equal(key, k) then Some(data) else Lookup(s, equal, k)
  {
    if s == [] {
      assert ([] + [(key, data)])[1..] == [];
      assert s + [(key, data)] == [(key, data)];
    } else {
      assert (s + [(key, data)])[1..] == s[1..] + [(key, data)];
      LookupAfterInsert(s[1..], equal, key, data, k);
    }
  }

  /** Removing an entry makes its class undefined, and changes nothing else. */
  lemma {:induction false} LookupAfterRemove<K(!new), V>(s: seq<(K, V)>, equal: (K, K) -> bool, i: nat, k: K)
    requires Equivalence(equal) && DistinctKeys(s, equal) && i < |s|
    ensures Lookup(s[..i] + s[i + 1..], equal, k) == if equal(s[i].0, k) then None else Lookup(s, equal, k)
  {
    if i == 0 {
      assert s[..0] + s[1..] == s[1..];
      if equal(s[0].0, k) {
        LookupIsFirstMatch(s[1..], equal, k, |s| - 1);
      }
    } else {
      assert (s[..i] + s[i + 1..])[1..] == s[1..][..i - 1] + s[1..][i..];
      LookupAfterRemove(s[1..], equal, i - 1, k);
    }
  }

  lemma DistinctKeysAppend<K, V>(s: seq<(K, V)>, equal: (K, K) -> bool, key: K, data: V)
    requires DistinctKeys(s, equal) && forall i :: 0 <= i < |s| ==> !equal(s[i].0, key)
    ensures DistinctKeys(s + [(key, data)], equal)
  {
  }

  lemma EntriesAppend<K, V>(ring: seq<Node<K, V>>, node: Node<K, V>)
    requires Filled(ring) && node.cell.Entry?
    ensures Filled(ring + [node]) && Entries(ring + [node]) == Entries(ring) + [(node.cell.key, node.cell.data)]
  {
  }

  class Map<K, V> {
    const head: Node<K, V>
    const equal: (K, K) -> bool
    ghost var ring: seq<Node<K, V>>

    ghost predicate Valid()
      reads this, ring
    {
      && Ring(ring) && ring[0] == head
      && Filled(ring)
      && DistinctKeys(Entries(ring), equal)
    }

    ghost function Contents(): (s: seq<(K, V)>)
      reads this, ring
      requires Valid()
    {
      Entries(ring)
    }

    /** FTBU_map_init */
    constructor (equal: (K, K) -> bool)
      ensures Valid() && fresh(ring) && Contents() == [] && this.equal == equal
    {
      var node := new Node(Head);
      head := node;
      this.equal := equal;
      ring := [node];
    }

    /** FTBU_map_find_key: the first match, or the head. */
    method FindKey(key: K) returns (pos: Node<K, V>, ghost i: nat)
      requires Valid()
      ensures i <= |Contents()|
      ensures forall k :: 0 <= k < i ==> !equal(Contents()[k].0, key)
      ensures i < |Contents()| ==> equal(Contents()[i].0, key) && pos == ring[i + 1]
      ensures i == |Contents()| ==> pos == head
      ensures pos == head <==> i == |Contents()|
      ensures Lookup(Contents(), equal, key) == if pos == head then None else Some(pos.cell.data)
    {
      pos, i := head.next, 0;
      while pos != head
        invariant i < |ring|
        invariant pos == if i + 1 < |ring| then ring[i + 1] else head
        invariant forall k :: 0 <= k < i ==> !equal(Entries(ring)[k].0, key)
        decreases |ring| - i
      {
        if equal(pos.cell.key, key) {
          LookupIsFirstMatch(Contents(), equal, key, i);
          return;
        }
        pos, i := pos.next, i + 1;
      }
      LookupIsFirstMatch(Contents(), equal, key, i);
    }

    /** FTBU_map_insert */
    method Insert(key: K, data: V) returns (status: Status)
      requires Valid()
      modifies this, ring
      ensures Valid() && fresh(set n <- ring | n !in old(ring))
      ensures status == if (exists k :: 0 <= k < |old(Contents())| && equal(old(Contents())[k].0, key))
                        then Exist else Success
      ensures Contents() == if status == Success then old(Contents()) + [(key, data)] else old(Contents())
    {
      var pos, i := FindKey(key);
      if pos != head {
        return Exist;
      }
      var node := new Node(Entry(key, data));
      assert node !in ring;
      EntriesAppend(ring, node);
      DistinctKeysAppend(Entries(ring), equal, key, data);
      AddBack(head, node, ring);
      ring := ring + [node];
      return Success;
    }

    /** FTBU_map_remove_node: any node but the head, wherever it is. */
    method RemoveNode(node: Node<K, V>, ghost i: nat)
      requires Valid() && i < |Contents()| && ring[i + 1] == node
      modifies this, ring
      ensures Valid() && ring == old(ring)[..i + 1] + old(ring)[i + 2..]
      ensures Contents() == old(Contents())[..i] + old(Contents())[i + 1..]
    {
      ghost var left := ring[..i + 1] + ring[i + 2..];
      assert Entries(left) == Entries(ring)[..i] + Entries(ring)[i + 1..];
      Unlink(node, ring, i + 1);
      ring := left;
    }

    /** FTBU_map_remove_key: the first match goes, and nothing else. */
    method RemoveKey(key: K) returns (status: Status, ghost i: nat)
      requires Valid()
      modifies this, ring
      ensures Valid()
      ensures i <= |old(Contents())|
      ensures forall k :: 0 <= k < i ==> !equal(old(Contents())[k].0, key)
      ensures i < |old(Contents())| ==>
                && equal(old(Contents())[i].0, key) && status == Success
                && Contents() == old(Contents())[..i] + old(Contents())[i + 1..]
      ensures i == |old(Contents())| ==> status == NotExist && Contents() == old(Contents())
    {
      var pos;
      pos, i := FindKey(key);
      if pos == head {
        return NotExist, i;
      }
      RemoveNode(pos, i);
      status := Success;
    }

    /** FTBU_map_is_empty */
    method IsEmpty() returns (b: bool)
      requires Valid()
      ensures b <==> Contents() == []
    {
      b := head.next == head;
      assert |ring| > 1 ==> head.next == ring[1] && ring[1] != ring[0];
    }

    /** FTBU_map_finalize: every node is freed once, the head last; used[k] are the nodes
        looked at or written to in turn k, when k nodes have been freed, and none of
        them is one of those. */
    method Finalize() returns (ghost freed: seq<Node<K, V>>, ghost used: seq<set<Node<K, V>>>)
      requires Valid()
      modifies this, ring
      ensures freed == old(ring)[1..] + [head]
      ensures |used| == |freed|
      ensures forall k :: 0 <= k < |used| ==> freed[k] in used[k] && forall n <- used[k] :: n !in freed[..k]
    {
      ghost var all, k := ring, 1;
      freed, used := [], [];
      var pos, temp := head.next, head.next.next;
      assert [all[0]] + all[1..] == all;
      while pos != head
        invariant 1 <= k <= |all| && freed == all[1..k] && Distinct(all) && all[0] == head
        invariant all == old(ring) && Ring([head] + all[k..])
        invariant pos == After(all, k)
        invariant temp == if k < |all| then After(all, k + 1) else head.next
        invariant SafeUse(all, used, k)
        decreases |all| - k
      {
        ghost var touched;
        pos, temp, touched := FreeNext(pos, temp, all, k);
        SafeUseNext(all, used, k, touched);
        freed, used, k := freed + [all[k]], used + [touched], k + 1;
      }
      SafeUseEnds(all, used);
      freed, used := freed + [head], used + [{head}];
    }
  }

  lemma SafeUseNext<K, V>(all: seq<Node<K, V>>, used: seq<set<Node<K, V>>>, k: nat, touched: set<Node<K, V>>)
    requires SafeUse(all, used, k) && k < |all| && all[k] in touched && forall n <- touched :: n !in all[1..k]
    ensures SafeUse(all, used + [touched], k + 1)
    ensures all[1..k + 1] == all[1..k] + [all[k]]
  {
  }

  lemma SafeUseEnds<K, V>(all: seq<Node<K, V>>, used: seq<set<Node<K, V>>>)
    requires SafeUse(all, used, |all|) && Distinct(all)
    ensures var freed, ever := all[1..] + [all[0]], used + [{all[0]}];
            && |ever| == |freed|
            && forall k :: 0 <= k < |ever| ==> freed[k] in ever[k] && forall n <- ever[k] :: n !in freed[..k]
  {
    var freed, ever := all[1..] + [all[0]], used + [{all[0]}];
    forall k | 0 <= k < |used| ensures freed[..k] == all[1..k + 1] {
    }
    assert freed[..|used|] == all[1..];
  }

  /** In each turn so far the node freed was used, and none freed before. */
  ghost predicate SafeUse<K, V>(all: seq<Node<K, V>>, used: seq<set<Node<K, V>>>, k: nat) {
    && 1 <= k <= |all| && |used| == k - 1
    && forall i :: 0 <= i < |used| ==> all[i + 1] in used[i] && forall n <- used[i] :: n !in all[1..i + 1]
  }

  /** The node at place k of a ring, or the head beyond the last. */
  ghost function After<K, V>(all: seq<Node<K, V>>, k: nat): Node<K, V>
    requires all != []
  {
    if k < |all| then all[k] else all[0]
  }

  /** One turn of FTBU_map_finalize's loop. */
  method FreeNext<K, V>(pos: Node<K, V>, temp: Node<K, V>, ghost all: seq<Node<K, V>>, ghost k: nat)
    returns (pos': Node<K, V>, temp': Node<K, V>, ghost used: set<Node<K, V>>)
    requires 1 <= k < |all| && Distinct(all) && Ring([all[0]] + all[k..])
    requires pos == all[k] && temp == After(all, k + 1)
    modifies all
    ensures Ring([all[0]] + all[k + 1..])
    ensures pos' == After(all, k + 1)
    ensures temp' == if k + 1 < |all| then After(all, k + 2) else all[0].next
    ensures used == old({pos, pos.next, pos.prev, temp}) && forall n <- used :: n !in all[1..k]
  {
    ghost var left := [all[0]] + all[k..];
    assert forall n <- left :: n in all;
    assert pos == left[1] && pos.prev == left[0] && pos.next == After(all, k + 1) by {
      assert k + 1 < |all| ==> left[2] == all[k + 1];
    }
    used := {pos, pos.next, pos.prev, temp};
    Unlink(pos, left, 1);
    ghost var rest := [all[0]] + all[k + 1..];
    assert left[..1] + left[2..] == rest;
    pos' := temp;
    assert k + 1 < |all| ==> pos' == rest[1];
    assert k + 2 < |all| ==> rest[1].next == rest[2];
    temp' := temp.next;
  }
}
