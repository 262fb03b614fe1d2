// Tags a client attaches to its events, and their encoding in the event
// (src/client_lib/ftb_client_lib.c:1735-1872, include/ftb_def.h:101-109).
module DynamicTags {

  newtype byte = x: int | 0 <= x < 256

  /** What is left of the 720 bytes of an event after its other fields. */
  const MAX_DYNAMIC_DATA_SIZE := 720 - 64 - 32 - 16 - 16 - 16 - 64 - 4 - 1 - 369

  datatype Option<T> = None | Some(value: T)

  datatype Status = Success | NoSpace | Conflict | NotFound | OutOfBounds

  /** FTB_client_handle_t; handles are compared as values. */
  datatype Handle = Handle(region: string, compCat: string, comp: string, clientName: string, ext: byte)

  /** FTBCI_tag_entry_t */
  datatype TagEntry = TagEntry(tag: byte, owner: Handle, data: seq<byte>)

  // ---- the encoding: a count, then tag, length and data of each entry

  function EncodeEntry(e: TagEntry): (s: seq<byte>)
    requires |e.data| < 256
    ensures |s| == 2 + |e.data|
  {
    [e.tag, |e.data| as byte] + e.data
  }

  ghost predicate ShortData(es: seq<TagEntry>) {
    forall i :: 0 <= i < |es| ==> |es[i].data| < 256
  }

  ghost function EncodeAll(es: seq<TagEntry>): (s: seq<byte>)
    requires ShortData(es)
    ensures |s| == Size(es)
  {
    if es == [] then [] else EncodeAll(es[..|es| - 1]) + EncodeEntry(es[|es| - 1])
  }

  ghost function Size(es: seq<TagEntry>): nat {
    if es == [] then 0 else Size(es[..|es| - 1]) + 2 + |es[|es| - 1].data|
  }

  ghost predicate DistinctTags(es: seq<TagEntry>) {
    forall i, j :: 0 <= i < j < |es| ==> es[i].tag != es[j].tag
  }

  /** The data stored under a tag: the tags as a partial function. */
  function DataOf(es: seq<TagEntry>, tag: byte): Option<seq<byte>> {
    if es == [] then None
    else if es[0].tag == tag then Some(es[0].data)
    else DataOf(es[1..], tag)
  }

  lemma {:induction false} SizeAppend(a: seq<TagEntry>, b: seq<TagEntry>)
    ensures Size(a + b) == Size(a) + Size(b)
  {
    if b == [] {
      assert a + b == a;
    } else {
      assert (a + b)[..|a + b| - 1] == a + b[..|b| - 1];
      SizeAppend(a, b[..|b| - 1]);
    }
  }

  lemma {:induction false} EncodeAppend(a: seq<TagEntry>, b: seq<TagEntry>)
    requires ShortData(a) && ShortData(b)
    ensures ShortData(a + b) && EncodeAll(a + b) == EncodeAll(a) + EncodeAll(b)
    decreases |b|
  {
    if b == [] {
      assert a + b == a;
    } else {
      var init, last := b[..|b| - 1], b[|b| - 1];
      assert (a + b)[..|a + b| - 1] == a + init && (a + b)[|a + b| - 1] == last;
      EncodeAppend(a, init);
      Regroup(EncodeAll(a), EncodeAll(init), EncodeEntry(last));
    }
  }

  lemma Regroup(a: seq<byte>, b: seq<byte>, c: seq<byte>)
    ensures (a + b) + c == a + (b + c)
  {
  }

  lemma {:induction false} CountIsBounded(es: seq<TagEntry>)
    ensures 2 * |es| <= Size(es)
  {
    if es != [] {
      CountIsBounded(es[..|es| - 1]);
    }
  }

  // ---- reading

  /** The scan of FTBC_Read_dynamic_tag, with left entries to go; a read beyond the
      buffer, which C leaves undefined, is OutOfBounds. */
  function Scan(bytes: seq<byte>, offset: nat, left: nat, tag: byte, capacity: nat): (Status, seq<byte>)
    decreases left
  {
    if left == 0 then (NotFound, [])
    else if offset + 2 > |bytes| then (OutOfBounds, [])
    else
      var len := bytes[offset + 1] as nat;
      if bytes[offset] != tag then Scan(bytes, offset + 2 + len, left - 1, tag, capacity)
      else if capacity < len then (NoSpace, [])
      else if offset + 2 + len > |bytes| then (OutOfBounds, [])
      else (Success, bytes[offset + 2..offset + 2 + len])
  }

  function ReadTag(bytes: seq<byte>, tag: byte, capacity: nat): (Status, seq<byte>) {
    if bytes == [] then (OutOfBounds, []) else Scan(bytes, 1, bytes[0] as nat, tag, capacity)
  }

  /** FTBC_Read_dynamic_tag */
  method ReadDynamicTag(bytes: seq<byte>, tag: byte, capacity: nat) returns (status: Status, data: seq<byte>)
    ensures (status, data) == ReadTag(bytes, tag, capacity)
  {
    data := [];
    if bytes == [] {
      return OutOfBounds, [];
    }
    var count, offset: nat, i := bytes[0] as nat, 1, 0;
    while i < count
      invariant i <= count
      invariant Scan(bytes, offset, count - i, tag, capacity) == ReadTag(bytes, tag, capacity)
    {
      if offset + 2 > |bytes| {
        return OutOfBounds, [];
      }
      var len := bytes[offset + 1] as nat;
      if bytes[offset] == tag {
        if capacity < len {
          return NoSpace, [];
        }
        if offset + 2 + len > |bytes| {
          return OutOfBounds, [];
        }
        return Success, bytes[offset + 2..offset + 2 + len];
      }
      offset, i := offset + 2 + len, i + 1;
    }
    status := NotFound;
  }

  /** What a reader with room for so many bytes should get. */
  function Answer(data: Option<seq<byte>>, capacity: nat): (Status, seq<byte>) {
    match data
    case None => (NotFound, [])
    case Some(d) => if capacity < |d| then (NoSpace, []) else (Success, d)
  }

  lemma {:induction false} EncodeOne(e: TagEntry)
    requires |e.data| < 256
    ensures ShortData([e]) && EncodeAll([e]) == EncodeEntry(e) && Size([e]) == 2 + |e.data|
  {
    assert [e][..0] == [];
  }

  /** The entries stand in the buffer from offset o on. */
  ghost predicate Holds(bytes: seq<byte>, o: nat, es: seq<TagEntry>) {
    && ShortData(es)
    && o + Size(es) <= |bytes|
    && bytes[o..o + Size(es)] == EncodeAll(es)
  }

  lemma Slices(bytes: seq<byte>, o: nat, p: seq<byte>, r: seq<byte>)
    requires o + |p| + |r| <= |bytes| && bytes[o..o + |p| + |r|] == p + r
    ensures bytes[o..o + |p|] == p
    ensures bytes[o + |p|..o + |p| + |r|] == r
  {
    var whole := bytes[o..o + |p| + |r|];
    assert whole[..|p|] == p && whole[|p|..] == r;
  }

  lemma {:induction false} HoldsNext(bytes: seq<byte>, o: nat, es: seq<TagEntry>)
    requires Holds(bytes, o, es) && es != []
    ensures |es[0].data| < 256
    ensures o + 2 + |es[0].data| <= |bytes| && bytes[o..o + 2 + |es[0].data|] == EncodeEntry(es[0])
    ensures Holds(bytes, o + 2 + |es[0].data|, es[1..])
  {
    var e, rest := es[0], es[1..];
    assert es == [e] + rest;
    EncodeOne(e);
    EncodeAppend([e], rest);
    SizeAppend([e], rest);
    Slices(bytes, o, EncodeEntry(e), EncodeAll(rest));
  }

  /** One turn of the scan, at an encoded entry. */
  lemma ScanEntry(bytes: seq<byte>, o: nat, left: nat, e: TagEntry, tag: byte, capacity: nat)
    requires |e.data| < 256 && left > 0
    requires o + 2 + |e.data| <= |bytes| && bytes[o..o + 2 + |e.data|] == EncodeEntry(e)
    ensures Scan(bytes, o, left, tag, capacity) ==
            if e.tag == tag then Answer(Some(e.data), capacity)
            else Scan(bytes, o + 2 + |e.data|, left - 1, tag, capacity)
  {
    var here := bytes[o..o + 2 + |e.data|];
    assert here[0] == bytes[o] && here[1] == bytes[o + 1] && here[2..] == bytes[o + 2..o + 2 + |e.data|];
    assert EncodeEntry(e)[2..] == e.data;
  }

  /** The scan of encoded entries finds what they hold. */
  lemma {:induction false} ScanFindsEntries(bytes: seq<byte>, o: nat, es: seq<TagEntry>, tag: byte, capacity: nat)
    requires Holds(bytes, o, es)
    ensures Scan(bytes, o, |es|, tag, capacity) == Answer(DataOf(es, tag), capacity)
    decreases |es|
  {
    if es != [] {
      HoldsNext(bytes, o, es);
      ScanEntry(bytes, o, |es|, es[0], tag, capacity);
      ScanFindsEntries(bytes, o + 2 + |es[0].data|, es[1..], tag, capacity);
    }
  }

  /** The buffer begins with the encoding of the entries: their number and then each. */
  ghost predicate Encodes(bytes: seq<byte>, es: seq<TagEntry>) {
    |bytes| > 0 && bytes[0] as int == |es| && Holds(bytes, 1, es)
  }

  /** Reading any tag from an encoded buffer gives exactly what the entries say. */
  lemma {:induction false} ReadingFindsTheData(bytes: seq<byte>, es: seq<TagEntry>, tag: byte, capacity: nat)
    requires Encodes(bytes, es)
    ensures ReadTag(bytes, tag, capacity) ==
            match DataOf(es, tag)
            case None => (NotFound, [])
            case Some(data) => if |data| <= capacity then (Success, data) else (NoSpace, [])
  {
    ScanFindsEntries(bytes, 1, es, tag, capacity);
  }

  // ---- the tags of a client

  function IndexOf(es: seq<TagEntry>, tag: byte): (i: nat)
    ensures i <= |es| && (i < |es| ==> es[i].tag == tag)
    ensures forall k :: 0 <= k < i ==> es[k].tag != tag
  {
    if es == [] || es[0].tag == tag then 0 else 1 + IndexOf(es[1..], tag)
  }

  /** The entries after a successful FTBC_Add_dynamic_tag. */
  function Added(es: seq<TagEntry>, owner: Handle, tag: byte, data: seq<byte>): seq<TagEntry> {
    var i := IndexOf(es, tag);
    if i < |es| then es[i := es[i].(data := data)] else es + [TagEntry(tag, owner, data)]
  }

  /** Who owns a tag. */
  function OwnerOf(es: seq<TagEntry>, tag: byte): Option<Handle> {
    if es == [] then None
    else if es[0].tag == tag then Some(es[0].owner)
    else OwnerOf(es[1..], tag)
  }

  /** A tag is owned exactly if it is there, by the owner of its entry. */
  lemma {:induction false} OwnerIsIndexed(es: seq<TagEntry>, tag: byte)
    ensures var i := IndexOf(es, tag);
            OwnerOf(es, tag) == if i < |es| then Some(es[i].owner) else None
  {
    if es != [] && es[0].tag != tag {
      OwnerIsIndexed(es[1..], tag);
    }
  }

  /** A new tag belongs to who added it; an old one stays with its owner, and so do all
      others. */
  lemma {:induction false} AddedOwner(es: seq<TagEntry>, owner: Handle, tag: byte, data: seq<byte>, t: byte)
    ensures OwnerOf(Added(es, owner, tag, data), t) ==
            if t == tag && OwnerOf(es, t) == None then Some(owner) else OwnerOf(es, t)
  {
    if es == [] {
      assert OwnerOf([TagEntry(tag, owner, data)][1..], t) == None;
    } else if es[0].tag == tag {
      assert Added(es, owner, tag, data)[1..] == es[1..];
    } else {
      AddedOwner(es[1..], owner, tag, data, t);
      assert Added(es, owner, tag, data) == [es[0]] + Added(es[1..], owner, tag, data);
    }
  }

  /** A removed tag has no owner any more, and all others keep theirs. */
  lemma {:induction false} RemovedOwner(es: seq<TagEntry>, tag: byte, t: byte)
    requires DistinctTags(es)
    ensures OwnerOf(Removed(es, tag), t) == if t == tag then None else OwnerOf(es, t)
  {
    if es != [] {
      if es[0].tag == tag {
        assert Removed(es, tag) == es[1..];
        OwnerIsIndexed(es[1..], tag);
      } else {
        RemovedOwner(es[1..], tag, t);
        RemovedLater(es, tag);
      }
    }
  }

  function Removed(es: seq<TagEntry>, tag: byte): seq<TagEntry> {
    var i := IndexOf(es, tag);
    if i < |es| then es[..i] + es[i + 1..] else es
  }

  lemma {:induction false} AddedData(es: seq<TagEntry>, owner: Handle, tag: byte, data: seq<byte>, t: byte)
    ensures DataOf(Added(es, owner, tag, data), t) == if t == tag then Some(data) else DataOf(es, t)
  {
    if es == [] {
      assert DataOf([TagEntry(tag, owner, data)][1..], t) == None;
    } else if es[0].tag == tag {
      assert Added(es, owner, tag, data)[1..] == es[1..];
    } else {
      AddedData(es[1..], owner, tag, data, t);
      assert Added(es, owner, tag, data) == [es[0]] + Added(es[1..], owner, tag, data);
    }
  }

  lemma {:induction false} RemovedData(es: seq<TagEntry>, tag: byte, t: byte)
    requires DistinctTags(es)
    ensures DataOf(Removed(es, tag), t) == if t == tag then None else DataOf(es, t)
  {
    if es != [] {
      if es[0].tag == tag {
        assert Removed(es, tag) == es[1..];
        NoData(es[1..], tag);
      } else {
        RemovedData(es[1..], tag, t);
        RemovedLater(es, tag);
      }
    }
  }

  lemma RemovedLater(es: seq<TagEntry>, tag: byte)
    requires es != [] && es[0].tag != tag
    ensures Removed(es, tag) != [] && Removed(es, tag)[0] == es[0]
    ensures Removed(es, tag)[1..] == Removed(es[1..], tag)
  {
    var i := IndexOf(es[1..], tag);
    assert IndexOf(es, tag) == i + 1;
    if i < |es| - 1 {
      RestWithout(es, i);
    }
  }

  lemma RestWithout(es: seq<TagEntry>, i: nat)
    requires i + 1 < |es|
    ensures (es[..i + 1] + es[i + 2..])[1..] == es[1..][..i] + es[1..][i + 1..]
  {
    var rest, left := es[1..][..i] + es[1..][i + 1..], es[..i + 1] + es[i + 2..];
    forall k | 0 <= k < |rest| ensures left[k + 1] == rest[k] {
    }
  }

  lemma {:induction false} NoData(es: seq<TagEntry>, tag: byte)
    requires forall i :: 0 <= i < |es| ==> es[i].tag != tag
    ensures DataOf(es, tag) == None
  {
    if es != [] {
      NoData(es[1..], tag);
    }
  }

  lemma {:induction false} SizeReplace(es: seq<TagEntry>, i: nat, e: TagEntry)
    requires i < |es|
    ensures Size(es[i := e]) == Size(es) - |es[i].data| + |e.data|
  {
    assert es == es[..i] + ([es[i]] + es[i + 1..]);
    assert es[i := e] == es[..i] + ([e] + es[i + 1..]);
    SizeAppend(es[..i], [es[i]] + es[i + 1..]);
    SizeAppend([es[i]], es[i + 1..]);
    SizeAppend(es[..i], [e] + es[i + 1..]);
    SizeAppend([e], es[i + 1..]);
    assert [e][..0] == [] && [es[i]][..0] == [];
  }

  lemma {:induction false} SizeRemove(es: seq<TagEntry>, i: nat)
    requires i < |es|
    ensures Size(es[..i] + es[i + 1..]) <= Size(es)
  {
    assert es == es[..i] + ([es[i]] + es[i + 1..]);
    SizeAppend(es[..i], [es[i]] + es[i + 1..]);
    SizeAppend([es[i]], es[i + 1..]);
    SizeAppend(es[..i], es[i + 1..]);
  }

  /** The entries have an encoding that fits the buffer. */
  ghost predicate Storable(es: seq<TagEntry>) {
    DistinctTags(es) && ShortData(es) && 1 + Size(es) <= MAX_DYNAMIC_DATA_SIZE
  }

  lemma {:induction false} AddedIsStorable(es: seq<TagEntry>, owner: Handle, tag: byte, data: seq<byte>)
    requires Storable(es) && |data| < 256 && 1 + Size(es) + 2 + |data| <= MAX_DYNAMIC_DATA_SIZE
    ensures Storable(Added(es, owner, tag, data))
  {
    var i := IndexOf(es, tag);
    if i == |es| {
      SizeAppend(es, [TagEntry(tag, owner, data)]);
      EncodeOne(TagEntry(tag, owner, data));
    } else {
      SizeReplace(es, i, es[i].(data := data));
    }
  }

  lemma {:induction false} RemovedIsStorable(es: seq<TagEntry>, i: nat)
    requires i < |es| && Storable(es)
    ensures Storable(es[..i] + es[i + 1..])
  {
    var left := es[..i] + es[i + 1..];
    assert forall k :: 0 <= k < |left| ==> left[k] == if k < i then es[k] else es[k + 1];
    SizeRemove(es, i);
  }

  /** The buffer is too small for 256 entries: the 8-bit count never wraps. */
  lemma {:induction false} CountFitsAByte(es: seq<TagEntry>)
    requires Storable(es)
    ensures |es| < 256
  {
    CountIsBounded(es);
  }

  class TagStore {
    var entries: seq<TagEntry>
    const bytes: array<byte>
    var size: int
    var count: byte

    /** The buffer, the size and the 8-bit count agree with the entries. */
    ghost predicate Valid()
      reads this, bytes
    {
      && bytes.Length == MAX_DYNAMIC_DATA_SIZE
      && Storable(entries)
      && size == 1 + Size(entries)
      && count as int == |entries|
      && Encodes(bytes[..], entries)
    }

    constructor ()
      ensures Valid() && fresh(bytes) && entries == []
    {
      bytes := new byte[MAX_DYNAMIC_DATA_SIZE](_ => 0);
      entries, size, count := [], 1, 0;
    }

    /** FTBCI_util_update_tag_string: the encoding is written anew from the entries. */
    method UpdateTagString()
      requires bytes.Length == MAX_DYNAMIC_DATA_SIZE && Storable(entries) && count as int == |entries|
      modifies bytes, `size
      ensures size == 1 + Size(entries) && Encodes(bytes[..], entries)
    {
      bytes[0] := count;
      var offset, i := 1, 0;
      while i < |entries|
        invariant Written(i, offset) && bytes[0] == count
      {
        offset := WriteNext(i, offset);
        i := i + 1;
      }
      assert entries[..i] == entries;
      size := offset;
      assert bytes[..][1..size] == bytes[1..size];
    }

    ghost predicate Written(i: nat, offset: int)
      reads this, bytes
    {
      && i <= |entries| && ShortData(entries)
      && offset == 1 + Size(entries[..i]) <= bytes.Length
      && bytes[1..offset] == EncodeAll(entries[..i])
    }

    method WriteNext(i: nat, offset: nat) returns (next: nat)
      requires Written(i, offset) && i < |entries| && 1 + Size(entries) <= bytes.Length
      modifies bytes
      ensures Written(i + 1, next) && bytes[0] == old(bytes[0])
    {
      RoomForNext(entries, i);
      WriteEntry(entries[i], offset);
      next := offset + 2 + |entries[i].data|;
    }

    /** The three copies that write one entry. */
    method WriteEntry(e: TagEntry, offset: nat)
      requires 1 <= offset && offset + 2 + |e.data| <= bytes.Length && |e.data| < 256
      modifies bytes
      ensures bytes[0] == old(bytes[0])
      ensures bytes[1..offset + 2 + |e.data|] == old(bytes[1..offset]) + EncodeEntry(e)
    {
      bytes[offset] := e.tag;
      bytes[offset + 1] := |e.data| as byte;
      ghost var before := bytes[..offset + 2];
      CopyData(e.data, offset + 2);
      assert before[1..] == old(bytes[1..offset]) + [e.tag, |e.data| as byte];
      TwoParts(bytes[..], before, e.data);
      assert bytes[..][1..offset + 2 + |e.data|] == bytes[1..offset + 2 + |e.data|];
    }

    static lemma TwoParts(s: seq<byte>, before: seq<byte>, data: seq<byte>)
      requires 1 <= |before| && |before| + |data| <= |s|
      requires s[..|before|] == before && s[|before|..|before| + |data|] == data
      ensures s[1..|before| + |data|] == before[1..] + data && s[0] == before[0]
    {
      assert s[..|before|][0] == s[0];
      assert s[1..|before| + |data|] == s[..|before|][1..] + s[|before|..|before| + |data|];
    }

    /** memcpy of an entry's data */
    method CopyData(data: seq<byte>, offset: nat)
      requires offset + |data| <= bytes.Length
      modifies bytes
      ensures bytes[offset..offset + |data|] == data
      ensures bytes[..offset] == old(bytes[..offset])
    {
      var k := 0;
      while k < |data|
        invariant k <= |data| && bytes[offset..offset + k] == data[..k]
        invariant bytes[..offset] == old(bytes[..offset])
      {
        bytes[offset + k] := data[k];
        k := k + 1;
      }
    }

    /** FTBC_Add_dynamic_tag. The room asked for is that of a new entry, even where an
        old one is to be replaced; and the 8-bit count is increased modulo 256. */
    method AddDynamicTag(owner: Handle, tag: byte, data: seq<byte>) returns (status: Status)
      requires Valid() && |data| < 256
      modifies this, bytes
      ensures Valid()
      ensures status == if 138 - old(size) < |data| + 2 then NoSpace
                        else if OwnerOf(old(entries), tag) !in {None, Some(owner)} then Conflict
                        else Success
      ensures entries == if status == Success then Added(old(entries), owner, tag, data) else old(entries)
      ensures status != Success ==> bytes[..] == old(bytes[..])
    {
      if MAX_DYNAMIC_DATA_SIZE - size < |data| + 2 {
        return NoSpace;
      }
      OwnerIsIndexed(entries, tag);
      AddedIsStorable(entries, owner, tag, data);
      CountFitsAByte(Added(entries, owner, tag, data));
      var i := IndexOf(entries, tag);
      if i == |entries| {
        Store(entries + [TagEntry(tag, owner, data)], ((count as int + 1) % 256) as byte);
      } else if entries[i].owner == owner {
        Store(entries[i := entries[i].(data := data)], count);
      } else {
        return Conflict;
      }
      return Success;
    }

    /** The tags are changed, with their count, and the bytes after them. */
    method Store(es: seq<TagEntry>, n: byte)
      requires bytes.Length == MAX_DYNAMIC_DATA_SIZE && Storable(es) && n as int == |es|
      modifies this, bytes
      ensures Valid() && entries == es
    {
      entries, count := es, n;
      UpdateTagString();
    }

    /** Subtraction of one in 8 bits. */
    static function Pred8(c: byte): (r: byte)
      ensures c > 0 ==> r as int == c as int - 1
    {
      ((c as int + 255) % 256) as byte
    }

    /** FTBC_Remove_dynamic_tag */
    method RemoveDynamicTag(owner: Handle, tag: byte) returns (status: Status)
      requires Valid()
      modifies this, bytes
      ensures Valid()
      ensures status == match OwnerOf(old(entries), tag)
                        case None => NotFound
                        case Some(o) => if o != owner then Conflict else Success
      ensures entries == if status == Success then Removed(old(entries), tag) else old(entries)
      ensures status != Success ==> bytes[..] == old(bytes[..])
    {
      var i := IndexOf(entries, tag);
      OwnerIsIndexed(entries, tag);
      if i == |entries| {
        return NotFound;
      }
      if entries[i].owner != owner {
        return Conflict;
      }
      RemovedIsStorable(entries, i);
      Store(entries[..i] + entries[i + 1..], Pred8(count));
      return Success;
    }
  }

  lemma {:induction false} RoomForNext(es: seq<TagEntry>, i: nat)
    requires i < |es| && ShortData(es)
    ensures Size(es[..i]) + 2 + |es[i].data| == Size(es[..i + 1]) <= Size(es)
    ensures EncodeAll(es[..i + 1]) == EncodeAll(es[..i]) + EncodeEntry(es[i])
  {
    assert es[..i + 1][..i] == es[..i];
    assert es == es[..i + 1] + es[i + 1..];
    SizeAppend(es[..i + 1], es[i + 1..]);
  }
}
