// The handles by which publisher and receiver name the same event
// (src/client_lib/ftb_client_lib.c:1395-1540).
module EventHandles {
  import opened Text
  import opened Names
  import opened Namespaces
  import opened Fields

  const MAX_EVENT_NAME := 32

  /** The fields of a NOTIFY message that matter here. */
  datatype Message = Message(
    region: string, compCat: string, comp: string, eventName: string, severity: string,
    clientName: string, ext: int, loc: Location, seqnum: int)

  /** FTB_receive_event_t */
  datatype Received = Received(
    eventSpace: string, eventName: string, severity: string,
    clientName: string, clientExtension: int, seqnum: int, incomingSrc: Location)

  datatype Handle = Handle(
    eventName: string, severity: string,
    region: string, compCat: string, comp: string, clientName: string, ext: int,
    seqnum: int, loc: Location)

  datatype Status = Success | InvalidEventName | InvalidEventType

  /** The handle FTBC_Publish fills in. */
  function HandleOf(m: Message): Handle {
    Handle(m.eventName, m.severity, m.region, m.compCat, m.comp, m.clientName, m.ext, m.seqnum, m.loc)
  }

  /** FTBC_Compare_event_handles */
  predicate SameEvent(a: Handle, b: Handle) {
    && EqFold(a.region, b.region)
    && EqFold(a.compCat, b.compCat)
    && EqFold(a.comp, b.comp)
    && EqFold(a.clientName, b.clientName)
    && a.ext == b.ext
    && EqualLocation(a.loc, b.loc)
    && EqFold(a.eventName, b.eventName)
    && EqFold(a.severity, b.severity)
    && a.seqnum == b.seqnum
  }

  /** The lower-case representative of a handle. */
  function FoldHandle(h: Handle): Handle {
    Handle(Fold(h.eventName), Fold(h.severity), Fold(h.region), Fold(h.compCat), Fold(h.comp), Fold(h.clientName),
           h.ext, h.seqnum, FoldLocation(h.loc))
  }

  /** Handles name the same event exactly when they have the same representative: no field
      is passed over, and only letter case is. */
  lemma SameEventIsFoldEquality(a: Handle, b: Handle)
    ensures SameEvent(a, b) <==> FoldHandle(a) == FoldHandle(b)
  {
    EqFoldIsFoldEquality(a.region, b.region);
    EqFoldIsFoldEquality(a.compCat, b.compCat);
    EqFoldIsFoldEquality(a.comp, b.comp);
    EqFoldIsFoldEquality(a.clientName, b.clientName);
    EqFoldIsFoldEquality(a.eventName, b.eventName);
    EqFoldIsFoldEquality(a.severity, b.severity);
    EqFoldIsFoldEquality(a.loc.hostname, b.loc.hostname);
    EqFoldIsFoldEquality(a.loc.startTime, b.loc.startTime);
  }

  /** Events of different clients have different handles: of clients in different processes,
      or with different names, or of the same name but with different extensions. */
  lemma ClientsHandlesDiffer(a: Message, b: Message)
    requires !EqualLocation(a.loc, b.loc) || !EqFold(a.clientName, b.clientName) || a.ext != b.ext
             || Fold(Dotted(a.region, a.compCat, a.comp)) != Fold(Dotted(b.region, b.compCat, b.comp))
    ensures !SameEvent(HandleOf(a), HandleOf(b))
  {
    if SameEvent(HandleOf(a), HandleOf(b)) {
      SameEventIsFoldEquality(HandleOf(a), HandleOf(b));
      EqFoldIsFoldEquality(a.loc.hostname, b.loc.hostname);
      EqFoldIsFoldEquality(a.loc.startTime, b.loc.startTime);
      EqFoldIsFoldEquality(a.clientName, b.clientName);
      FoldConcat(a.region, ".", a.compCat, ".", a.comp);
      FoldConcat(b.region, ".", b.compCat, ".", b.comp);
      assert false;
    }
  }

  lemma FoldConcat(a: string, b: string, c: string, d: string, e: string)
    ensures Fold(a + b + c + d + e) == Fold(a) + Fold(b) + Fold(c) + Fold(d) + Fold(e)
  {
  }

  /** What FTBC_Poll_event hands to the receiver. */
  method Receive(m: Message) returns (r: Received)
    ensures r == Received(Dotted(m.region, m.compCat, m.comp), m.eventName, m.severity,
                          m.clientName, m.ext, m.seqnum, m.loc)
  {
    var space := ConcatenateStrings([m.region, ".", m.compCat, ".", m.comp]);
    ConcatIsDotted(m.region, m.compCat, m.comp);
    r := Received(space, m.eventName, m.severity, m.clientName, m.ext, m.seqnum, m.loc);
  }

  /** FTBC_Get_event_handle; None stands for the error of the split. */
  method GetEventHandle(r: Received) returns (h: Option<Handle>)
    ensures h == match Classify(r.eventSpace)
                 case Spaces(region, cat, comp) =>
                   Some(Handle(r.eventName, r.severity, region, cat, comp, r.clientName, r.clientExtension,
                               r.seqnum, r.incomingSrc))
                 case _ => None
  {
    var split := SplitNamespace(r.eventSpace);
    match split
    case Spaces(region, cat, comp) =>
      h := Some(Handle(r.eventName, r.severity, region, cat, comp, r.clientName, r.clientExtension,
                       r.seqnum, r.incomingSrc));
    case _ => h := None;
  }

  /** A receiver rebuilds the publisher's handle, field for field, exactly when the
      publisher's names make an event space; FTBC_Connect admits no others. */
  method Rebuild(m: Message) returns (h: Option<Handle>)
    ensures h == Some(HandleOf(m)) <==> ValidNames(m.region, m.compCat, m.comp)
    ensures h.Some? && ValidNames(m.region, m.compCat, m.comp) ==> SameEvent(h.value, HandleOf(m))
  {
    var r := Receive(m);
    SplitsExactlyJoined(r.eventSpace, m.region, m.compCat, m.comp);
    h := GetEventHandle(r);
  }

  /** One connected client. declared maps the lower-case names of its events to their
      severities; published counts its publications, and the 16-bit seqnum follows. */
  class Client {
    const region: string
    const compCat: string
    const comp: string
    const clientName: string
    const ext: int
    const loc: Location
    const declared: map<string, string>
    var seqnum: int
    ghost var published: nat

    ghost predicate Valid()
      reads this
    {
      ValidNames(region, compCat, comp) && seqnum == published % 0x1_0000
    }

    constructor (region: string, compCat: string, comp: string, clientName: string, ext: int, loc: Location,
                 declared: map<string, string>)
      requires ValidNames(region, compCat, comp)
      ensures Valid() && published == 0
      ensures this.region == region && this.compCat == compCat && this.comp == comp
      ensures this.clientName == clientName && this.ext == ext && this.loc == loc && this.declared == declared
    {
      this.region, this.compCat, this.comp, this.clientName := region, compCat, comp, clientName;
      this.ext, this.loc, this.declared := ext, loc, declared;
      seqnum, published := 0, 0;
    }

    /** The message of this client's n-th publication. */
    ghost function Nth(n: nat, eventName: string, severity: string): Message {
      Message(region, compCat, comp, eventName, severity, clientName, ext, loc, n % 0x1_0000)
    }

    /** FTBC_Publish; eventType is None when no properties are given. */
    method Publish(eventName: string, eventType: Option<int>)
      returns (status: Status, msg: Option<Message>, handle: Option<Handle>)
      requires Valid()
      modifies this
      ensures Valid()
      ensures status ==
                if eventName == "" || |eventName| >= 32 || Fold(eventName) !in declared
                  then InvalidEventName
                else if eventType.Some? && eventType.value !in {1, 2} then InvalidEventType
                else Success
      ensures status == Success ==>
                && published == old(published) + 1
                && msg == Some(Nth(published, eventName, declared[Fold(eventName)]))
                && handle == Some(HandleOf(msg.value))
      ensures status != Success ==> msg == None && handle == None && published == old(published)
    {
      msg, handle := None, None;
      if |eventName| == 0 || |eventName| >= MAX_EVENT_NAME || Fold(eventName) !in declared {
        return InvalidEventName, None, None;
      }
      if eventType.Some? && eventType.value != 1 && eventType.value != 2 {
        return InvalidEventType, None, None;
      }
      seqnum := (seqnum + 1) % 0x1_0000;
      published := published + 1;
      var m := Message(region, compCat, comp, eventName, declared[Fold(eventName)], clientName, ext, loc, seqnum);
      return Success, Some(m), Some(HandleOf(m));
    }

    /** Two publications of one client have the same handle exactly when they agree in
        name and severity and a multiple of 65536 apart. */
    lemma HandlesCollideExactly(i: nat, j: nat, name1: string, sev1: string, name2: string, sev2: string)
      ensures SameEvent(HandleOf(Nth(i, name1, sev1)), HandleOf(Nth(j, name2, sev2))) <==>
              EqFold(name1, name2) && EqFold(sev1, sev2) && (i - j) % 0x1_0000 == 0
    {
      SameRemainder(i, j);
    }

    /** In particular, publications fewer than 65536 apart are told apart. */
    lemma NearHandlesDiffer(i: nat, j: nat, name1: string, sev1: string, name2: string, sev2: string)
      requires i < j < i + 0x1_0000
      ensures !SameEvent(HandleOf(Nth(i, name1, sev1)), HandleOf(Nth(j, name2, sev2)))
    {
      HandlesCollideExactly(j, i, name1, sev1, name2, sev2);
      SameRemainder(i, j);
    }
  }

  lemma SameRemainder(i: nat, j: nat)
    ensures i % 0x1_0000 == j % 0x1_0000 <==> (i - j) % 0x1_0000 == 0
  {
    var a, b := i / 0x1_0000, j / 0x1_0000;
    var d := i % 0x1_0000 - j % 0x1_0000;
    assert i - j == 0x1_0000 * (a - b) + d;
    assert (i - j) / 0x1_0000 == (a - b) + (if d < 0 then -1 else 0);
  }
}
