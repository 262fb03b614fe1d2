// Events, event masks, and the matching of one against the other
// (src/util/ftb_util.c).
module Masks {
  import opened Text

  /** The eight compared fields of an FTB_event_t. An event and a mask have the
      same type; in a mask the value "ALL" of a field is a wildcard. */
  datatype Event = Event(
    region: string,
    compCat: string,
    comp: string,
    eventName: string,
    severity: string,
    jobid: string,
    clientName: string,
    hostname: string)

  type Mask = Event

  predicate IsAll(s: string) {
    EqFold(s, "ALL")
  }

  predicate FieldMatches(value: string, pattern: string) {
    EqFold(value, pattern) || IsAll(pattern)
  }

  /** FTBU_match_mask: a mask that names an event ignores severity and component. */
  predicate Match(event: Event, mask: Mask) {
    && FieldMatches(event.region, mask.region)
    && FieldMatches(event.jobid, mask.jobid)
    && FieldMatches(event.clientName, mask.clientName)
    && FieldMatches(event.hostname, mask.hostname)
    && if !IsAll(mask.eventName) then
         EqFold(event.eventName, mask.eventName)
       else
         && FieldMatches(event.severity, mask.severity)
         && FieldMatches(event.compCat, mask.compCat)
         && FieldMatches(event.comp, mask.comp)
  }

  /** FTBU_is_equal_event_mask */
  predicate EqualMask(a: Mask, b: Mask) {
    && EqFold(a.severity, b.severity)
    && EqFold(a.compCat, b.compCat)
    && EqFold(a.comp, b.comp)
    && EqFold(a.clientName, b.clientName)
    && EqFold(a.jobid, b.jobid)
    && EqFold(a.hostname, b.hostname)
    && EqFold(a.region, b.region)
    && EqFold(a.eventName, b.eventName)
  }

  /** The representative of a mask's class under EqualMask. */
  function FoldMask(m: Mask): Mask {
    Event(Fold(m.region), Fold(m.compCat), Fold(m.comp), Fold(m.eventName),
          Fold(m.severity), Fold(m.jobid), Fold(m.clientName), Fold(m.hostname))
  }

  /** Two masks are the same key of a subscription table exactly when their
      representatives are the same value; the tables of the other modules use
      representatives, and == on them. */
  lemma EqualMaskIsFoldEquality(a: Mask, b: Mask)
    ensures EqualMask(a, b) <==> FoldMask(a) == FoldMask(b)
  {
    EqFoldIsFoldEquality(a.region, b.region);
    EqFoldIsFoldEquality(a.compCat, b.compCat);
    EqFoldIsFoldEquality(a.comp, b.comp);
    EqFoldIsFoldEquality(a.eventName, b.eventName);
    EqFoldIsFoldEquality(a.severity, b.severity);
    EqFoldIsFoldEquality(a.jobid, b.jobid);
    EqFoldIsFoldEquality(a.clientName, b.clientName);
    EqFoldIsFoldEquality(a.hostname, b.hostname);
  }

  /** What a mask says once the fields it ignores are dropped. Two patterns say
      the same when they are equal up to case (two wildcards are). */
  ghost predicate SameSelection(a: Mask, b: Mask) {
    && EqFold(a.region, b.region)
    && EqFold(a.jobid, b.jobid)
    && EqFold(a.clientName, b.clientName)
    && EqFold(a.hostname, b.hostname)
    && EqFold(a.eventName, b.eventName)
    && (IsAll(a.eventName) ==>
          && EqFold(a.severity, b.severity)
          && EqFold(a.compCat, b.compCat)
          && EqFold(a.comp, b.comp))
  }

  ghost predicate SameMatches(a: Mask, b: Mask) {
    forall e: Event :: Match(e, a) <==> Match(e, b)
  }

  lemma FieldCongruence(v: string, w: string, p: string, q: string)
    requires EqFold(v, w) && EqFold(p, q)
    ensures FieldMatches(v, p) <==> FieldMatches(w, q)
  {
  }

  /** Equal masks match exactly the same events, and equal events are matched by
      exactly the same masks: storing one mask per class loses nothing. */
  lemma MatchIsCongruent(e: Event, f: Event, a: Mask, b: Mask)
    requires EqualMask(e, f) && SameSelection(a, b)
    ensures Match(e, a) <==> Match(f, b)
  {
    FieldCongruence(e.region, f.region, a.region, b.region);
    FieldCongruence(e.jobid, f.jobid, a.jobid, b.jobid);
    FieldCongruence(e.clientName, f.clientName, a.clientName, b.clientName);
    FieldCongruence(e.hostname, f.hostname, a.hostname, b.hostname);
    if IsAll(a.eventName) {
      FieldCongruence(e.severity, f.severity, a.severity, b.severity);
      FieldCongruence(e.compCat, f.compCat, a.compCat, b.compCat);
      FieldCongruence(e.comp, f.comp, a.comp, b.comp);
    }
  }

  /** A value that pattern p accepts, and that pattern q accepts only when it
      says the same as p or is a wildcard. */
  function Sample(p: string, q: string): (v: string)
    ensures FieldMatches(v, p)
    ensures FieldMatches(v, q) ==> EqFold(p, q) || IsAll(q)
  {
    if !IsAll(p) then p
    else if q == "" then "x" else ""
  }

  /** An event that mask a accepts and that mask b can accept only if every
      field b looks at says the same as a's, or is a wildcard. */
  function SampleEvent(a: Mask, b: Mask): Event {
    Event(Sample(a.region, b.region), Sample(a.compCat, b.compCat), Sample(a.comp, b.comp),
          if IsAll(a.eventName) then Sample(a.eventName, b.eventName) else a.eventName,
          Sample(a.severity, b.severity), Sample(a.jobid, b.jobid),
          Sample(a.clientName, b.clientName), Sample(a.hostname, b.hostname))
  }

  /** The two sample events tell any two masks with different selections apart. */
  lemma SelectionIsForced(a: Mask, b: Mask)
    requires SameMatches(a, b)
    ensures SameSelection(a, b)
  {
    var e, f := SampleEvent(a, b), SampleEvent(b, a);
    assert Match(e, a) <==> Match(e, b);
    assert Match(f, a) <==> Match(f, b);
  }

  /** Two masks match the same events exactly when they select the same: matching
      sees a mask up to letter case and up to the ignored fields, no coarser. */
  lemma SameMatchesExactly(a: Mask, b: Mask)
    ensures SameMatches(a, b) <==> SameSelection(a, b)
  {
    if SameMatches(a, b) {
      SelectionIsForced(a, b);
    }
    if SameSelection(a, b) {
      forall e: Event ensures Match(e, a) <==> Match(e, b) {
        MatchIsCongruent(e, e, a, b);
      }
    }
  }

  /** Each field of wide is the same pattern as in narrow, or a wildcard. */
  ghost predicate Widens(narrow: Mask, wide: Mask) {
    && (wide.region == narrow.region || IsAll(wide.region))
    && (wide.jobid == narrow.jobid || IsAll(wide.jobid))
    && (wide.clientName == narrow.clientName || IsAll(wide.clientName))
    && (wide.hostname == narrow.hostname || IsAll(wide.hostname))
    && (wide.severity == narrow.severity || IsAll(wide.severity))
    && (wide.compCat == narrow.compCat || IsAll(wide.compCat))
    && (wide.comp == narrow.comp || IsAll(wide.comp))
    && (wide.eventName == narrow.eventName || IsAll(wide.eventName))
  }

  ghost predicate KeepsMatches(narrow: Mask, wide: Mask) {
    forall e: Event :: Match(e, narrow) ==> Match(e, wide)
  }

  /** Widening keeps every match exactly when it leaves a named event named, or
      the severity and component fields it brings into play are all wildcards. */
  lemma WideningKeepsMatchesExactly(narrow: Mask, wide: Mask)
    requires Widens(narrow, wide)
    ensures KeepsMatches(narrow, wide) <==>
            || IsAll(narrow.eventName)
            || !IsAll(wide.eventName)
            || (IsAll(wide.severity) && IsAll(wide.compCat) && IsAll(wide.comp))
  {
    if !IsAll(narrow.eventName) && IsAll(wide.eventName)
       && !(IsAll(wide.severity) && IsAll(wide.compCat) && IsAll(wide.comp)) {
      var e := SampleEvent(narrow, narrow).(
        severity := Reject(wide.severity), compCat := Reject(wide.compCat), comp := Reject(wide.comp));
      assert Match(e, narrow);
      assert !Match(e, wide);
    }
  }

  /** A value the pattern refuses, unless it is a wildcard. */
  function Reject(p: string): (v: string)
    ensures FieldMatches(v, p) ==> IsAll(p)
  {
    if p == "" then "x" else ""
  }

  /** Naming no event can lose matches: an error named "disk" of component "fs"
      is found by name, and missed once the name is widened. */
  lemma WideningTheNameLosesAMatch()
    ensures exists e: Event, narrow: Mask, wide: Mask ::
              && wide == narrow.(eventName := "ALL")
              && Match(e, narrow) && !Match(e, wide)
  {
    var narrow := Event("ALL", "ALL", "ALL", "disk", "fatal", "ALL", "ALL", "ALL");
    var e := Event("r", "c", "fs", "disk", "error", "j", "n", "h");
    var wide := narrow.(eventName := "ALL");
    assert wide.eventName == "ALL";
    assert FoldChar(e.severity[0]) != FoldChar(narrow.severity[0]);
    assert Match(e, narrow) && !Match(e, wide);
  }

  // ---- what a match is

  datatype Field = Region | Category | Component | Name | Gravity | Job | Client | Host

  function FieldOf(e: Event, f: Field): string {
    match f
    case Region => e.region
    case Category => e.compCat
    case Component => e.comp
    case Name => e.eventName
    case Gravity => e.severity
    case Job => e.jobid
    case Client => e.clientName
    case Host => e.hostname
  }

  const Anything: Mask := Event("ALL", "ALL", "ALL", "ALL", "ALL", "ALL", "ALL", "ALL")

  /** The mask that asks for one value of one field. */
  function Only(f: Field, v: string): Mask {
    match f
    case Region => Anything.(region := v)
    case Category => Anything.(compCat := v)
    case Component => Anything.(comp := v)
    case Name => Anything.(eventName := v)
    case Gravity => Anything.(severity := v)
    case Job => Anything.(jobid := v)
    case Client => Anything.(clientName := v)
    case Host => Anything.(hostname := v)
  }

  /** The fields matching looks at: severity and component only if no event is named. */
  ghost predicate Looks(m: Mask, f: Field) {
    match f
    case Gravity => IsAll(m.eventName)
    case Category => IsAll(m.eventName)
    case Component => IsAll(m.eventName)
    case _ => true
  }

  /** A wildcard is the word "all", in any mixture of cases. */
  lemma WildcardIsAll(s: string)
    ensures IsAll(s) <==> |s| == 3 && s[0] in {'a', 'A'} && s[1] in {'l', 'L'} && s[2] in {'l', 'L'}
  {
    assert "ALL"[0] == 'A' && "ALL"[1] == 'L' && "ALL"[2] == 'L';
  }

  /** A mask that asks for one value accepts exactly the events that have it in that
      field, up to letter case, and every event if the value is a wildcard. */
  lemma OneFieldMatchesExactly(e: Event, f: Field, v: string)
    ensures Match(e, Only(f, v)) <==> EqFold(FieldOf(e, f), v) || IsAll(v)
  {
    WildcardIsAll("ALL");
  }

  /** A mask accepts exactly the events that the one-field masks of all the fields it
      looks at accept. */
  lemma MatchesFieldByField(e: Event, m: Mask)
    ensures Match(e, m) <==> forall f :: Looks(m, f) ==> Match(e, Only(f, FieldOf(m, f)))
  {
    forall f ensures Match(e, Only(f, FieldOf(m, f))) <==> FieldMatches(FieldOf(e, f), FieldOf(m, f)) {
      OneFieldMatchesExactly(e, f, FieldOf(m, f));
    }
    forall f | Match(e, m) && Looks(m, f) ensures FieldMatches(FieldOf(e, f), FieldOf(m, f)) {
    }
    if forall f :: Looks(m, f) ==> Match(e, Only(f, FieldOf(m, f))) {
      assert Looks(m, Region) && Looks(m, Job) && Looks(m, Client) && Looks(m, Host) && Looks(m, Name);
      assert IsAll(m.eventName) ==> Looks(m, Gravity) && Looks(m, Category) && Looks(m, Component);
    }
  }
}
