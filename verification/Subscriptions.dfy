// Subscription strings such as "severity=fatal, jobid=42"
// (src/client_lib/ftb_client_lib.c:275-467, src/util/ftb_auxil.c:32-55).
module Subscriptions {
  import opened Text
  import opened Masks
  import opened Fields
  import opened Namespaces

  const MAX_FIELDS := 10

  datatype Attribute = Severity | EventSpace | JobId | HostName | EventName | ClientName

  function AttributeName(a: Attribute): string {
    match a
    case Severity => "severity"
    case EventSpace => "event_space"
    case JobId => "jobid"
    case HostName => "host_name"
    case EventName => "event_name"
    case ClientName => "client_name"
  }

  /** The chain of strcasecmp tests, in order. */
  function AttributeOf(lhs: string): Option<Attribute> {
    if EqFold(lhs, "severity") then Some(Severity)
    else if EqFold(lhs, "event_space") then Some(EventSpace)
    else if EqFold(lhs, "jobid") then Some(JobId)
    else if EqFold(lhs, "host_name") then Some(HostName)
    else if EqFold(lhs, "event_name") then Some(EventName)
    else if EqFold(lhs, "client_name") then Some(ClientName)
    else None
  }

  /** Undefined is where the code runs into a null string, or writes beyond its array
      of ten fields. */
  datatype Error = SubscriptionStr | FilterAttr | FilterValue | EventspaceFormat | Undefined

  datatype Result<T> = Ok(value: T) | Err(error: Error)

  /** The mask so far, and the attributes seen: the bits of the static track. */
  datatype State = State(mask: Mask, seen: set<Attribute>)

  const ALL := "all"

  function Initial(): State {
    State(Event(ALL, ALL, ALL, ALL, ALL, ALL, ALL, ALL), {})
  }

  // ---- one attribute

  predicate SeverityValue(rhs: string) {
    EqFold(rhs, "fatal") || EqFold(rhs, "info") || EqFold(rhs, "warning") || EqFold(rhs, "error") || EqFold(rhs, "all")
  }

  /** The mask with one attribute given, or the error for the value. */
  function Assign(m: Mask, a: Attribute, rhs: string): Result<Mask> {
    match a
    case Severity => if SeverityValue(rhs) then Ok(m.(severity := rhs)) else Err(FilterValue)
    case EventSpace =>
      (match Classify(rhs)
       case Spaces(region, cat, comp) => Ok(m.(region := region, compCat := cat, comp := comp))
       case FormatError => Err(EventspaceFormat)
       case NullString => Err(Undefined))
    case JobId => if |rhs| >= 16 then Err(FilterValue) else Ok(m.(jobid := rhs))
    case HostName => if |rhs| >= 64 then Err(FilterValue) else Ok(m.(hostname := rhs))
    // the character check of the next two looks at the attribute, which passes it
    case EventName => if |rhs| >= 32 then Err(FilterValue) else Ok(m.(eventName := rhs))
    case ClientName => if |rhs| >= 16 then Err(FilterValue) else Ok(m.(clientName := rhs))
  }

  /** FTBCI_check_subscription_value_pair, on a pair that is not the initial one. */
  function CheckPair(st: State, lhs: string, rhs: string): Result<State> {
    match AttributeOf(lhs)
    case None => Err(FilterAttr)
    case Some(a) =>
      if a in st.seen then Err(SubscriptionStr)
      else match Assign(st.mask, a, rhs)
           case Err(e) => Err(e)
           case Ok(m) => Ok(State(m, st.seen + {a}))
  }

  // ---- blanks

  predicate IsBlank(c: char) {
    c == ' ' || c == '\t'
  }

  predicate HasBlank(s: string) {
    exists i :: 0 <= i < |s| && IsBlank(s[i])
  }

  predicate AllBlank(s: string) {
    forall i :: 0 <= i < |s| ==> IsBlank(s[i])
  }

  /** s is r with blanks around it, and r has none at its ends. */
  ghost predicate TrimmedWith(s: string, a: string, r: string, b: string) {
    && AllBlank(a) && AllBlank(b) && s == a + r + b
    && (r != "" ==> !IsBlank(r[0]) && !IsBlank(r[|r| - 1]))
  }

  ghost predicate IsTrimmed(s: string, r: string) {
    exists a, b :: TrimmedWith(s, a, r, b)
  }

  function TrimLeft(s: string): string {
    if s != "" && IsBlank(s[0]) then TrimLeft(s[1..]) else s
  }

  function TrimRight(s: string): string {
    if s != "" && IsBlank(s[|s| - 1]) then TrimRight(s[..|s| - 1]) else s
  }

  function Trim(s: string): string {
    TrimRight(TrimLeft(s))
  }

  /** soft_trim: the start moves over leading blanks, then the end over trailing ones. */
  method SoftTrim(s: string) returns (r: string)
    ensures IsTrimmed(s, r) && r == Trim(s)
  {
    if s == "" {
      TrimmedBetween(s, 0, 0);
      return s;
    }
    var i := 0;
    while i < |s| && IsBlank(s[i])
      invariant i <= |s| && forall k :: 0 <= k < i ==> IsBlank(s[k])
    {
      i := i + 1;
    }
    var j := |s| - i;
    while j > 0 && IsBlank(s[i + j - 1])
      invariant 0 <= j <= |s| - i && forall k :: i + j <= k < |s| ==> IsBlank(s[k])
    {
      j := j - 1;
    }
    r := s[i..i + j];
    TrimmedBetween(s, i, i + j);
  }

  lemma TrimmedBetween(s: string, i: nat, e: nat)
    requires i <= e <= |s| && (forall k :: 0 <= k < i || e <= k < |s| ==> IsBlank(s[k]))
    requires i < e ==> !IsBlank(s[i]) && !IsBlank(s[e - 1])
    ensures IsTrimmed(s, s[i..e]) && s[i..e] == Trim(s)
  {
    assert TrimmedWith(s, s[..i], s[i..e], s[e..]);
    TrimmedIsTrim(s, s[i..e]);
  }

  /** There is only one way to trim a string. */
  lemma TrimmedIsTrim(s: string, r: string)
    ensures IsTrimmed(s, r) ==> r == Trim(s)
  {
    if IsTrimmed(s, r) {
      var a, b :| TrimmedWith(s, a, r, b);
      if r == "" {
        assert s == (a + b) + "";
        TrimLeftStrips(a + b, "");
        assert TrimRight("") == "";
      } else {
        assert s == a + (r + b);
        TrimLeftStrips(a, r + b);
        TrimRightStrips(r, b);
      }
    }
  }

  lemma {:induction false} TrimLeftStrips(a: string, r: string)
    requires AllBlank(a) && (r != "" ==> !IsBlank(r[0]))
    ensures TrimLeft(a + r) == r
    decreases |a|
  {
    if a != "" {
      assert (a + r)[1..] == a[1..] + r;
      TrimLeftStrips(a[1..], r);
    } else {
      assert a + r == r;
    }
  }

  lemma {:induction false} TrimRightStrips(r: string, b: string)
    requires AllBlank(b) && (r != "" ==> !IsBlank(r[|r| - 1]))
    ensures TrimRight(r + b) == r
    decreases |b|
  {
    if b != "" {
      assert (r + b)[..|r + b| - 1] == r + b[..|b| - 1];
      TrimRightStrips(r, b[..|b| - 1]);
    } else {
      assert r + b == r;
    }
  }

  /** A token comes out of the blanks around it. */
  lemma TrimFindsToken(a: string, token: string, b: string)
    requires AllBlank(a) && AllBlank(b) && token != "" && !HasBlank(token)
    ensures Trim(a + token + b) == token
  {
    assert !IsBlank(token[0]) && !IsBlank(token[|token| - 1]);
    assert a + token + b == a + (token + b);
    TrimLeftStrips(a, token + b);
    TrimRightStrips(token, b);
  }

  // ---- one field

  /** The two sides of one field, trimmed; the error when it does not have them. */
  function Sides(field: string): Result<(string, string)> {
    var (left, rest) := Sep(field, '=');
    if rest.None? then Err(SubscriptionStr)
    else
      var lhs, rhs := Trim(left), Trim(Sep(rest.value, '=').0);
      if lhs == "" || rhs == "" then Err(SubscriptionStr)
      else if HasBlank(lhs) then Err(FilterAttr)
      else if HasBlank(rhs) then Err(FilterValue)
      else Ok((lhs, rhs))
  }

  function CheckField(st: State, field: string): Result<State> {
    match Sides(field)
    case Err(e) => Err(e)
    case Ok((lhs, rhs)) => CheckPair(st, lhs, rhs)
  }

  /** The fields in order, up to the first error. */
  function CheckFields(st: State, fields: seq<string>): Result<State>
    decreases |fields|
  {
    if fields == [] then Ok(st)
    else match CheckField(st, fields[0])
         case Err(e) => Err(e)
         case Ok(st') => CheckFields(st', fields[1..])
  }

  function Parse(s: string): Result<Mask> {
    if s == "" then Ok(Initial().mask)
    else if |Split(s, ',')| > MAX_FIELDS then Err(Undefined)
    else match CheckFields(Initial(), Split(s, ','))
         case Err(e) => Err(e)
         case Ok(st) => Ok(st.mask)
  }

  /** The loops that look for blanks inside a token. */
  method FindBlank(s: string) returns (b: bool)
    ensures b <==> HasBlank(s)
  {
    var k := 0;
    while k < |s|
      invariant k <= |s| && forall i :: 0 <= i < k ==> !IsBlank(s[i])
    {
      if IsBlank(s[k]) {
        return true;
      }
      k := k + 1;
    }
    b := false;
  }

  method ReadSides(field: string) returns (r: Result<(string, string)>)
    ensures r == Sides(field)
  {
    var (left, rest) := Sep(field, '=');
    if rest.None? {
      return Err(SubscriptionStr);
    }
    var (right, _) := Sep(rest.value, '=');
    var lhs := SoftTrim(left);
    var rhs := SoftTrim(right);
    if |lhs| == 0 || |rhs| == 0 {
      return Err(SubscriptionStr);
    }
    var blank := FindBlank(lhs);
    if blank {
      return Err(FilterAttr);
    }
    blank := FindBlank(rhs);
    if blank {
      return Err(FilterValue);
    }
    return Ok((lhs, rhs));
  }

  /** The strsep loop that fills the array of fields. */
  method CutFields(s: string) returns (pairs: seq<string>)
    ensures pairs == Split(s, ',')
  {
    pairs := [];
    var temp := Some(s);
    while temp.Some?
      invariant (pairs + if temp.Some? then Split(temp.value, ',') else []) == Split(s, ',')
      decreases if temp.Some? then |temp.value| + 1 else 0
    {
      var (part, rest) := Sep(temp.value, ',');
      assert Split(temp.value, ',') == [part] + if rest.Some? then Split(rest.value, ',') else [];
      pairs, temp := pairs + [part], rest;
    }
  }

  method CheckEach(pairs: seq<string>) returns (r: Result<State>)
    ensures r == CheckFields(Initial(), pairs)
  {
    var st, j := Initial(), 0;
    assert pairs[0..] == pairs;
    while j < |pairs|
      invariant j <= |pairs| && CheckFields(st, pairs[j..]) == CheckFields(Initial(), pairs)
    {
      assert pairs[j..][1..] == pairs[j + 1..];
      var sides := ReadSides(pairs[j]);
      if sides.Err? {
        return Err(sides.error);
      }
      var next := CheckPair(st, sides.value.0, sides.value.1);
      if next.Err? {
        return Err(next.error);
      }
      st, j := next.value, j + 1;
    }
    r := Ok(st);
  }

  /** FTBCI_parse_subscription_string */
  method ParseSubscriptionString(s: string) returns (r: Result<Mask>)
    ensures r == Parse(s)
    ensures |Split(s, ',')| > 10 ==> r == Err(Undefined)
  {
    if |s| == 0 {
      return Ok(Initial().mask);
    }
    var pairs := CutFields(s);
    if |pairs| > MAX_FIELDS {
      return Err(Undefined);
    }
    var checked := CheckEach(pairs);
    r := match checked case Err(e) => Err(e) case Ok(st) => Ok(st.mask);
  }

  // ---- what a successful parse says

  /** The attribute a field gives, if it is well formed. */
  ghost function FieldAttribute(field: string): Option<Attribute> {
    match Sides(field)
    case Err(_) => None
    case Ok((lhs, _)) => AttributeOf(lhs)
  }

  ghost function FieldValue(field: string): string {
    match Sides(field)
    case Err(_) => ""
    case Ok((_, rhs)) => rhs
  }

  /** The attribute and its value are acceptable, whatever the rest of the string. */
  ghost predicate GoodField(field: string) {
    && FieldAttribute(field).Some?
    && Assign(Initial().mask, FieldAttribute(field).value, FieldValue(field)).Ok?
  }

  /** The mask lists this value under the attribute. */
  ghost predicate Gives(m: Mask, a: Attribute, value: string) {
    match a
    case Severity => m.severity == value
    case EventSpace => Classify(value) == Spaces(m.region, m.compCat, m.comp)
    case JobId => m.jobid == value
    case HostName => m.hostname == value
    case EventName => m.eventName == value
    case ClientName => m.clientName == value
  }

  /** Two masks agree in an attribute. */
  ghost predicate Agree(m: Mask, n: Mask, a: Attribute) {
    match a
    case Severity => m.severity == n.severity
    case EventSpace => m.region == n.region && m.compCat == n.compCat && m.comp == n.comp
    case JobId => m.jobid == n.jobid
    case HostName => m.hostname == n.hostname
    case EventName => m.eventName == n.eventName
    case ClientName => m.clientName == n.clientName
  }

  lemma AssignGives(m: Mask, a: Attribute, value: string)
    ensures Assign(m, a, value).Ok? <==> Assign(Initial().mask, a, value).Ok?
    ensures Assign(m, a, value).Ok? ==>
              && Gives(Assign(m, a, value).value, a, value)
              && forall b :: b != a ==> Agree(Assign(m, a, value).value, m, b)
  {
  }

  /** Attributes of the fields are all different. */
  ghost predicate DistinctFields(fields: seq<string>) {
    forall i, j :: 0 <= i < j < |fields| ==> FieldAttribute(fields[i]) != FieldAttribute(fields[j])
  }

  /** The mask is m with what the fields give. */
  ghost predicate Collects(fields: seq<string>, m: Mask, m': Mask) {
    && (forall i :: 0 <= i < |fields| && FieldAttribute(fields[i]).Some? ==>
          Gives(m', FieldAttribute(fields[i]).value, FieldValue(fields[i])))
    && (forall a :: (forall i :: 0 <= i < |fields| ==> FieldAttribute(fields[i]) != Some(a)) ==> Agree(m', m, a))
  }

  /** A field passes exactly when it is good and its attribute new; and then it sets
      that attribute and no other. */
  lemma FieldPassesExactly(st: State, f: string)
    ensures CheckField(st, f).Ok? <==> GoodField(f) && FieldAttribute(f).value !in st.seen
    ensures CheckField(st, f).Ok? ==>
              var a := FieldAttribute(f).value;
              && CheckField(st, f).value.seen == st.seen + {a}
              && Gives(CheckField(st, f).value.mask, a, FieldValue(f))
              && forall b :: b != a ==> Agree(CheckField(st, f).value.mask, st.mask, b)
  {
    if FieldAttribute(f).Some? {
      AssignGives(st.mask, FieldAttribute(f).value, FieldValue(f));
    }
  }

  ghost predicate AllGood(fields: seq<string>, seen: set<Attribute>) {
    forall i :: 0 <= i < |fields| ==> GoodField(fields[i]) && FieldAttribute(fields[i]).value !in seen
  }

  lemma AllGoodSplits(fields: seq<string>, seen: set<Attribute>)
    requires fields != [] && GoodField(fields[0])
    ensures var a, rest := FieldAttribute(fields[0]), fields[1..];
            AllGood(fields, seen) && DistinctFields(fields) <==>
              a.value !in seen && AllGood(rest, seen + {a.value}) && DistinctFields(rest)
  {
    var rest := fields[1..];
    assert forall i :: 0 <= i < |rest| ==> rest[i] == fields[i + 1];
    assert forall i :: 0 < i < |fields| ==> fields[i] == rest[i - 1];
  }

  /** The fields pass exactly when each is good and none repeats an attribute. */
  lemma {:induction false} FieldsPassExactly(st: State, fields: seq<string>)
    ensures CheckFields(st, fields).Ok? <==> AllGood(fields, st.seen) && DistinctFields(fields)
    decreases |fields|
  {
    if fields != [] {
      FieldPassesExactly(st, fields[0]);
      if GoodField(fields[0]) {
        AllGoodSplits(fields, st.seen);
        if CheckField(st, fields[0]).Ok? {
          FieldsPassExactly(CheckField(st, fields[0]).value, fields[1..]);
        }
      }
    }
  }

  lemma GivesAgrees(m: Mask, n: Mask, a: Attribute, value: string)
    requires Gives(m, a, value) && Agree(n, m, a)
    ensures Gives(n, a, value)
  {
  }

  /** When they pass, the mask has what they give, whatever their order. */
  lemma {:induction false} PassingCollects(st: State, fields: seq<string>)
    requires CheckFields(st, fields).Ok?
    ensures Collects(fields, st.mask, CheckFields(st, fields).value.mask)
    decreases |fields|
  {
    if fields != [] {
      var f, rest := fields[0], fields[1..];
      FieldsPassExactly(st, fields);
      FieldPassesExactly(st, f);
      var mid, end := CheckField(st, f).value.mask, CheckFields(st, fields).value.mask;
      PassingCollects(CheckField(st, f).value, rest);
      CollectsMore(fields, st.mask, mid, end);
    }
  }

  lemma CollectsMore(fields: seq<string>, m: Mask, mid: Mask, end: Mask)
    requires fields != [] && DistinctFields(fields) && FieldAttribute(fields[0]).Some?
    requires Gives(mid, FieldAttribute(fields[0]).value, FieldValue(fields[0]))
    requires forall b :: b != FieldAttribute(fields[0]).value ==> Agree(mid, m, b)
    requires Collects(fields[1..], mid, end)
    ensures Collects(fields, m, end)
  {
    var a, rest := FieldAttribute(fields[0]).value, fields[1..];
    assert forall i :: 0 <= i < |rest| ==> rest[i] == fields[i + 1];
    assert Agree(end, mid, a);
    forall i | 0 <= i < |fields| && FieldAttribute(fields[i]).Some?
      ensures Gives(end, FieldAttribute(fields[i]).value, FieldValue(fields[i])) {
      if i == 0 {
        GivesAgrees(mid, end, a, FieldValue(fields[0]));
      } else {
        assert rest[i - 1] == fields[i];
      }
    }
    forall b | forall i :: 0 <= i < |fields| ==> FieldAttribute(fields[i]) != Some(b) ensures Agree(end, m, b) {
      assert Agree(end, mid, b) && Agree(mid, m, b);
    }
  }

  // ---- which strings parse

  const EveryAttribute: set<Attribute> := {Severity, EventSpace, JobId, HostName, EventName, ClientName}

  /** There are only six attributes to tell fields apart by. */
  lemma {:induction false} FewDistinctFields(fields: seq<string>, unseen: set<Attribute>)
    requires DistinctFields(fields)
    requires forall i :: 0 <= i < |fields| ==>
               FieldAttribute(fields[i]).Some? && FieldAttribute(fields[i]).value in unseen
    ensures |fields| <= |unseen|
    decreases |fields|
  {
    if fields != [] {
      var a := FieldAttribute(fields[0]).value;
      assert forall i :: 0 <= i < |fields[1..]| ==> fields[1..][i] == fields[i + 1];
      FewDistinctFields(fields[1..], unseen - {a});
      assert |unseen| == |unseen - {a}| + 1;
    }
  }

  lemma SixAttributes()
    ensures forall a: Attribute :: a in EveryAttribute
    ensures |EveryAttribute| == 6
  {
    forall a: Attribute ensures a in EveryAttribute {
      match a
      case Severity => case EventSpace => case JobId => case HostName => case EventName => case ClientName =>
    }
  }

  /** A string parses exactly when it is empty, or each of its fields is good and no
      attribute comes twice. The array of ten fields is then large enough. */
  lemma ParsesExactly(s: string)
    ensures Parse(s).Ok? <==> s == "" || (AllGood(Split(s, ','), {}) && DistinctFields(Split(s, ',')))
    ensures Parse(s).Ok? && s != "" ==> Collects(Split(s, ','), Initial().mask, Parse(s).value)
  {
    var fields := Split(s, ',');
    FieldsPassExactly(Initial(), fields);
    if AllGood(fields, {}) && DistinctFields(fields) {
      SixAttributes();
      FewDistinctFields(fields, EveryAttribute);
    }
    if CheckFields(Initial(), fields).Ok? {
      PassingCollects(Initial(), fields);
    }
  }

  /** A string that gives an attribute twice is rejected, whatever else it says. */
  lemma RepeatedAttributeIsRejected(s: string, i: nat, j: nat)
    requires i < j < |Split(s, ',')|
    requires FieldAttribute(Split(s, ',')[i]).Some?
    requires FieldAttribute(Split(s, ',')[i]) == FieldAttribute(Split(s, ',')[j])
    ensures Parse(s).Err?
  {
    assert s != "" by {
      assert Split("", ',') == [""];
    }
    ParsesExactly(s);
  }

  // ---- printing a mask, and reading it back

  /** One attribute as it may be written: its name in any case, and blanks anywhere
      around the name and the value. */
  datatype Item = Item(attr: Attribute, name: string, value: string, b1: string, b2: string, b3: string, b4: string)

  function Written(it: Item): string {
    it.b1 + it.name + it.b2 + "=" + it.b3 + it.value + it.b4
  }

  ghost predicate Token(s: string) {
    s != "" && !HasBlank(s) && ',' !in s && '=' !in s
  }

  ghost predicate WellWritten(it: Item) {
    && EqFold(it.name, AttributeName(it.attr))
    && Token(it.value)
    && AllBlank(it.b1) && AllBlank(it.b2) && AllBlank(it.b3) && AllBlank(it.b4)
    && Assign(Initial().mask, it.attr, it.value).Ok?
  }

  ghost predicate WellPrinted(items: seq<Item>) {
    && (forall i :: 0 <= i < |items| ==> WellWritten(items[i]))
    && (forall i, j :: 0 <= i < j < |items| ==> items[i].attr != items[j].attr)
  }

  ghost predicate Names(items: seq<Item>, a: Attribute) {
    exists i :: 0 <= i < |items| && items[i].attr == a
  }

  function Texts(items: seq<Item>): (r: seq<string>)
    ensures |r| == |items|
  {
    seq(|items|, i requires 0 <= i < |items| => Written(items[i]))
  }

  function Print(items: seq<Item>): string {
    if items == [] then "" else Join(Texts(items), ',')
  }

  lemma NamesAreTokens(a: Attribute, name: string)
    requires EqFold(name, AttributeName(a))
    ensures Token(name) && AttributeOf(name) == Some(a)
  {
    var full := AttributeName(a);
    assert forall i :: 0 <= i < |full| ==> full[i] == '_' || 'a' <= full[i] <= 'z';
    assert forall i :: 0 <= i < |name| ==> name[i] == '_' || 'a' <= name[i] <= 'z' || 'A' <= name[i] <= 'Z';
    NamesDiffer(a, name);
  }

  lemma NamesDiffer(a: Attribute, name: string)
    requires EqFold(name, AttributeName(a))
    ensures AttributeOf(name) == Some(a)
  {
    assert |"severity"| == 8 && |"event_space"| == 11 && |"jobid"| == 5;
    assert |"host_name"| == 9 && |"event_name"| == 10 && |"client_name"| == 11;
    if a == ClientName {
      assert FoldChar(name[0]) == 'c';
    }
  }

  /** A well written attribute is read as what it says. */
  lemma ItemIsRead(it: Item)
    requires WellWritten(it)
    ensures ',' !in Written(it) && Written(it) != ""
    ensures Sides(Written(it)) == Ok((it.name, it.value))
    ensures FieldAttribute(Written(it)) == Some(it.attr) && FieldValue(Written(it)) == it.value
    ensures GoodField(Written(it))
  {
    NamesAreTokens(it.attr, it.name);
    var left, right := it.b1 + it.name + it.b2, it.b3 + it.value + it.b4;
    assert Written(it) == left + ['='] + right;
    assert '=' !in left && '=' !in right && ',' !in left && ',' !in right;
    SepOfPart(left, right, '=');
    SepOfPart(right, "", '=');
    TrimFindsToken(it.b1, it.name, it.b2);
    TrimFindsToken(it.b3, it.value, it.b4);
  }

  /** Printing any attributes with acceptable values, each at most once, in any order
      and with any blanks, gives a string that parses to a mask with those values, and
      with "all" for the attributes that were not named. */
  lemma PrintedStringParses(items: seq<Item>)
    requires WellPrinted(items)
    ensures Parse(Print(items)).Ok?
    ensures forall i :: 0 <= i < |items| ==> Gives(Parse(Print(items)).value, items[i].attr, items[i].value)
    ensures forall a :: !Names(items, a) ==> Agree(Parse(Print(items)).value, Initial().mask, a)
  {
    if items != [] {
      var fields, s := Texts(items), Print(items);
      forall i | 0 <= i < |items|
        ensures ',' !in fields[i] && fields[i] != "" && GoodField(fields[i])
        ensures FieldAttribute(fields[i]) == Some(items[i].attr) && FieldValue(fields[i]) == items[i].value {
        ItemIsRead(items[i]);
      }
      SplitOfJoin(fields, ',');
      assert s != "" by {
        assert Split("", ',') == [""];
      }
      ParsesExactly(s);
    }
  }

  /** The items print mask m: they give its values, and what they leave out is "all". */
  ghost predicate Prints(items: seq<Item>, m: Mask) {
    && WellPrinted(items)
    && (forall i :: 0 <= i < |items| ==> Gives(m, items[i].attr, items[i].value))
    && (forall a :: !Names(items, a) ==> Agree(m, Initial().mask, a))
  }

  /** Parsing what prints a mask gives the mask back. */
  lemma ParseOfPrint(items: seq<Item>, m: Mask)
    requires Prints(items, m)
    ensures Parse(Print(items)) == Ok(m)
  {
    PrintedStringParses(items);
    var n := Parse(Print(items)).value;
    forall a ensures Agree(n, m, a) {
      if i :| 0 <= i < |items| && items[i].attr == a {
        SameValue(n, m, a, items[i].value);
      } else {
        assert Agree(n, Initial().mask, a) && Agree(m, Initial().mask, a);
      }
    }
    assert Agree(n, m, Severity) && Agree(n, m, EventSpace) && Agree(n, m, JobId);
    assert Agree(n, m, HostName) && Agree(n, m, EventName) && Agree(n, m, ClientName);
  }

  lemma SameValue(n: Mask, m: Mask, a: Attribute, value: string)
    requires Gives(n, a, value) && Gives(m, a, value)
    ensures Agree(n, m, a)
  {
  }

  /** The masks a subscription string can ask for. */
  ghost predicate Printable(m: Mask) {
    && SeverityValue(m.severity) && Token(m.severity)
    && ValidNames(m.region, m.compCat, m.comp)
    && Token(m.jobid) && |m.jobid| < 16
    && Token(m.hostname) && |m.hostname| < 64
    && Token(m.eventName) && |m.eventName| < 32
    && Token(m.clientName) && |m.clientName| < 16
  }

  function Plain(a: Attribute, value: string): Item {
    Item(a, AttributeName(a), value, "", " ", "\t", "")
  }

  function ValueIn(m: Mask, a: Attribute): string {
    match a
    case Severity => m.severity
    case EventSpace => Dotted(m.region, m.compCat, m.comp)
    case JobId => m.jobid
    case HostName => m.hostname
    case EventName => m.eventName
    case ClientName => m.clientName
  }

  /** Every attribute of the mask, written out. */
  function FullPrint(m: Mask): seq<Item> {
    [Plain(Severity, ValueIn(m, Severity)), Plain(EventSpace, ValueIn(m, EventSpace)),
     Plain(JobId, ValueIn(m, JobId)), Plain(HostName, ValueIn(m, HostName)),
     Plain(EventName, ValueIn(m, EventName)), Plain(ClientName, ValueIn(m, ClientName))]
  }

  lemma PlainIsWellWritten(m: Mask, a: Attribute)
    requires Printable(m)
    ensures WellWritten(Plain(a, ValueIn(m, a))) && Gives(m, a, ValueIn(m, a))
  {
    assert IsBlank(' ') && IsBlank('\t');
    SplitsExactlyJoined(ValueIn(m, EventSpace), m.region, m.compCat, m.comp);
    NamesAreNotDelimiters(m.region, m.compCat, m.comp);
  }

  /** Each of them has a string that gives it back. */
  lemma EveryPrintableMaskParses(m: Mask)
    requires Printable(m)
    ensures Parse(Print(FullPrint(m))) == Ok(m)
  {
    var items := FullPrint(m);
    FullPrintIsFull(m);
    forall i | 0 <= i < |items| ensures WellWritten(items[i]) && Gives(m, items[i].attr, items[i].value) {
      PlainIsWellWritten(m, items[i].attr);
    }
    ParseOfPrint(items, m);
  }

  lemma FullPrintIsFull(m: Mask)
    ensures var items := FullPrint(m);
            && (forall i :: 0 <= i < |items| ==> items[i] == Plain(items[i].attr, ValueIn(m, items[i].attr)))
            && (forall i, j :: 0 <= i < j < |items| ==> items[i].attr != items[j].attr)
            && (forall a :: Names(items, a))
  {
    var items := FullPrint(m);
    assert items[0].attr == Severity && items[1].attr == EventSpace && items[2].attr == JobId;
    assert items[3].attr == HostName && items[4].attr == EventName && items[5].attr == ClientName;
  }

  lemma NamesAreNotDelimiters(a: string, b: string, c: string)
    requires ValidNames(a, b, c)
    ensures Token(Dotted(a, b, c))
  {
    var s := Dotted(a, b, c);
    assert s == a + ['.'] + b + ['.'] + c;
    forall i | 0 <= i < |s| ensures NameChar(s[i]) || s[i] == '.' {
    }
  }

  // ---- which events a subscription string catches

  /** The event has the value asked for under an attribute. If an event is named, severity,
      category and component are not asked for. */
  ghost predicate Meets(e: Event, a: Attribute, value: string, named: bool) {
    match a
    case Severity => named || EqFold(e.severity, value) || IsAll(value)
    case EventSpace => exists r, c, k :: value == Dotted(r, c, k) && ValidNames(r, c, k) && InSpace(e, r, c, k, named)
    case JobId => EqFold(e.jobid, value) || IsAll(value)
    case HostName => EqFold(e.hostname, value) || IsAll(value)
    case EventName => EqFold(e.eventName, value) || IsAll(value)
    case ClientName => EqFold(e.clientName, value) || IsAll(value)
  }

  ghost predicate InSpace(e: Event, r: string, c: string, k: string, named: bool) {
    && (EqFold(e.region, r) || IsAll(r))
    && (named || ((EqFold(e.compCat, c) || IsAll(c)) && (EqFold(e.comp, k) || IsAll(k))))
  }

  /** What a string asks for: attributes with their values. */
  type Wishes = seq<(Attribute, string)>

  ghost predicate NamesEvent(wishes: Wishes) {
    exists i :: 0 <= i < |wishes| && wishes[i].0 == EventName && !IsAll(wishes[i].1)
  }

  ghost predicate MeetsAll(e: Event, wishes: Wishes) {
    forall i :: 0 <= i < |wishes| ==> Meets(e, wishes[i].0, wishes[i].1, NamesEvent(wishes))
  }

  /** The mask has the values wished for, and "all" where nothing is wished for. */
  ghost predicate Grants(m: Mask, wishes: Wishes) {
    && (forall i :: 0 <= i < |wishes| ==> Gives(m, wishes[i].0, wishes[i].1))
    && (forall a :: (forall i :: 0 <= i < |wishes| ==> wishes[i].0 != a) ==> Agree(m, Initial().mask, a))
  }

  /** The event meets what the mask has under one attribute. */
  ghost predicate MeetsMask(e: Event, m: Mask, a: Attribute, named: bool) {
    match a
    case Severity => named || FieldMatches(e.severity, m.severity)
    case EventSpace => InSpace(e, m.region, m.compCat, m.comp, named)
    case JobId => FieldMatches(e.jobid, m.jobid)
    case HostName => FieldMatches(e.hostname, m.hostname)
    case EventName => FieldMatches(e.eventName, m.eventName)
    case ClientName => FieldMatches(e.clientName, m.clientName)
  }

  ghost predicate MeetsWholeMask(e: Event, m: Mask, named: bool) {
    forall a :: MeetsMask(e, m, a, named)
  }

  lemma MatchByAttributes(e: Event, m: Mask)
    ensures Match(e, m) <==> MeetsWholeMask(e, m, !IsAll(m.eventName))
  {
    var named := !IsAll(m.eventName);
    if MeetsWholeMask(e, m, named) {
      assert MeetsMask(e, m, Severity, named) && MeetsMask(e, m, EventSpace, named) && MeetsMask(e, m, JobId, named);
      assert MeetsMask(e, m, HostName, named) && MeetsMask(e, m, EventName, named);
      assert MeetsMask(e, m, ClientName, named);
    }
  }

  lemma GivenIsMet(e: Event, m: Mask, a: Attribute, value: string, named: bool)
    requires Gives(m, a, value)
    ensures Meets(e, a, value, named) <==> MeetsMask(e, m, a, named)
  {
    if a == EventSpace {
      SplitsExactlyJoined(value, m.region, m.compCat, m.comp);
      forall r, c, k | value == Dotted(r, c, k) && ValidNames(r, c, k)
        ensures r == m.region && c == m.compCat && k == m.comp {
        SplitsExactlyJoined(value, r, c, k);
      }
    }
  }

  lemma AllIsMet(e: Event, m: Mask, a: Attribute, named: bool)
    requires Agree(m, Initial().mask, a)
    ensures MeetsMask(e, m, a, named)
  {
    WildcardIsAll(ALL);
  }

  /** A mask that grants wishes accepts exactly the events that meet them all. */
  lemma GrantedMatchesExactly(e: Event, m: Mask, wishes: Wishes)
    requires Grants(m, wishes)
    ensures Match(e, m) <==> MeetsAll(e, wishes)
  {
    NameIsGranted(m, wishes);
    MatchByAttributes(e, m);
    var named := NamesEvent(wishes);
    forall i | 0 <= i < |wishes|
      ensures Meets(e, wishes[i].0, wishes[i].1, named) <==> MeetsMask(e, m, wishes[i].0, named) {
      GivenIsMet(e, m, wishes[i].0, wishes[i].1, named);
    }
    forall a | forall i :: 0 <= i < |wishes| ==> wishes[i].0 != a ensures MeetsMask(e, m, a, named) {
      AllIsMet(e, m, a, named);
    }
  }

  lemma NameIsGranted(m: Mask, wishes: Wishes)
    requires Grants(m, wishes)
    ensures NamesEvent(wishes) <==> !IsAll(m.eventName)
  {
    WildcardIsAll(ALL);
    if forall i :: 0 <= i < |wishes| ==> wishes[i].0 != EventName {
      assert Agree(m, Initial().mask, EventName);
    }
  }

  /** The wishes in a string: none in an empty one, and else those of its fields. */
  ghost function WishesOf(s: string): Wishes {
    if s == "" then []
    else
      var fields := Split(s, ',');
      seq(|fields|, i requires 0 <= i < |fields| =>
        (if FieldAttribute(fields[i]).Some? then FieldAttribute(fields[i]).value else Severity, FieldValue(fields[i])))
  }

  /** A string that parses catches exactly the events that meet what its fields wish for;
      the empty string catches every event. */
  lemma StringCatchesExactly(s: string, e: Event)
    requires Parse(s).Ok?
    ensures Match(e, Parse(s).value) <==> MeetsAll(e, WishesOf(s))
  {
    var m, wishes := Parse(s).value, WishesOf(s);
    ParsesExactly(s);
    if s != "" {
      var fields := Split(s, ',');
      forall i | 0 <= i < |fields| ensures FieldAttribute(fields[i]) == Some(wishes[i].0) {
        assert GoodField(fields[i]);
      }
      assert Grants(m, wishes);
    }
    GrantedMatchesExactly(e, m, wishes);
  }

  lemma EmptyStringCatchesAll(e: Event)
    ensures Parse("").Ok? && Match(e, Parse("").value)
  {
    StringCatchesExactly("", e);
  }

  /** What an event has under attributes that the string does not name makes no difference. */
  lemma UnnamedIsIgnored(s: string, e: Event, f: Event)
    requires Parse(s).Ok?
    requires forall i :: 0 <= i < |WishesOf(s)| ==> Agree(e, f, WishesOf(s)[i].0)
    ensures Match(e, Parse(s).value) <==> Match(f, Parse(s).value)
  {
    StringCatchesExactly(s, e);
    StringCatchesExactly(s, f);
    var wishes := WishesOf(s);
    forall i | 0 <= i < |wishes|
      ensures Meets(e, wishes[i].0, wishes[i].1, NamesEvent(wishes)) <==>
              Meets(f, wishes[i].0, wishes[i].1, NamesEvent(wishes)) {
      AgreeingMeetAlike(e, f, wishes[i].0, wishes[i].1, NamesEvent(wishes));
    }
  }

  lemma AgreeingMeetAlike(e: Event, f: Event, a: Attribute, value: string, named: bool)
    requires Agree(e, f, a)
    ensures Meets(e, a, value, named) <==> Meets(f, a, value, named)
  {
  }

  /** Written attributes catch exactly the events that meet their values, however they are
      written. */
  lemma PrintedCatchExactly(items: seq<Item>, e: Event)
    requires WellPrinted(items)
    ensures Parse(Print(items)).Ok?
    ensures var wishes := seq(|items|, i requires 0 <= i < |items| => (items[i].attr, items[i].value));
            Match(e, Parse(Print(items)).value) <==> MeetsAll(e, wishes)
  {
    PrintedStringParses(items);
    var wishes := seq(|items|, i requires 0 <= i < |items| => (items[i].attr, items[i].value));
    forall a | forall i :: 0 <= i < |wishes| ==> wishes[i].0 != a
      ensures Agree(Parse(Print(items)).value, Initial().mask, a) {
      forall i | 0 <= i < |items| ensures items[i].attr != a {
        assert wishes[i].0 != a;
      }
    }
    GrantedMatchesExactly(e, Parse(Print(items)).value, wishes);
  }

  /** Which values are accepted: one of five severities, an event space, and whatever else
      fits the field of the event it is copied to. */
  lemma AcceptedExactly(m: Mask, a: Attribute, value: string)
    ensures Assign(m, a, value).Ok? <==>
            match a
            case Severity => Fold(value) in {"fatal", "info", "warning", "error", "all"}
            case EventSpace => exists r, c, k :: value == Dotted(r, c, k) && ValidNames(r, c, k)
            case JobId => |value| < 16
            case HostName => |value| < 64
            case EventName => |value| < 32
            case ClientName => |value| < 16
  {
    match a
    case Severity =>
      forall word | word in {"fatal", "info", "warning", "error", "all"}
        ensures EqFold(value, word) <==> Fold(value) == word {
        EqFoldIsFoldEquality(value, word);
        assert Fold(word) == word;
      }
    case EventSpace =>
      forall r, c, k ensures Classify(value) == Spaces(r, c, k) <==> value == Dotted(r, c, k) && ValidNames(r, c, k) {
        SplitsExactlyJoined(value, r, c, k);
      }
    case _ =>
  }

  // ---- which error a string gets

  /** The attributes are known by six names, in any case. */
  lemma NamesExactly(name: string)
    ensures AttributeOf(name) == Some(Severity) <==> Fold(name) == "severity"
    ensures AttributeOf(name) == Some(EventSpace) <==> Fold(name) == "event_space"
    ensures AttributeOf(name) == Some(JobId) <==> Fold(name) == "jobid"
    ensures AttributeOf(name) == Some(HostName) <==> Fold(name) == "host_name"
    ensures AttributeOf(name) == Some(EventName) <==> Fold(name) == "event_name"
    ensures AttributeOf(name) == Some(ClientName) <==> Fold(name) == "client_name"
  {
    LowerIsFolded(name, "severity");
    LowerIsFolded(name, "event_space");
    LowerIsFolded(name, "jobid");
    LowerIsFolded(name, "host_name");
    LowerIsFolded(name, "event_name");
    LowerIsFolded(name, "client_name");
    assert "event_space"[0] != "client_name"[0];
  }

  lemma LowerIsFolded(s: string, word: string)
    requires forall i :: 0 <= i < |word| ==> !('A' <= word[i] <= 'Z')
    ensures EqFold(s, word) <==> Fold(s) == word
  {
    EqFoldIsFoldEquality(s, word);
    assert Fold(word) == word;
  }

  /** One field that is a name and a value: an unknown name is a wrong attribute, a name
      that has come before a wrong string, and a value that does not suit a wrong value, or
      a wrong event space. */
  lemma FieldErrsExactly(st: State, name: string, value: string)
    requires Token(name) && Token(value)
    ensures var r, a := CheckField(st, name + "=" + value), AttributeOf(name);
            && (r == Err(FilterAttr) <==> a == None)
            && (r == Err(SubscriptionStr) <==> a.Some? && a.value in st.seen)
            && (r == Err(FilterValue) <==>
                 a.Some? && a.value !in st.seen && a.value != EventSpace && Assign(st.mask, a.value, value).Err?)
            && (r == Err(EventspaceFormat) <==>
                 a == Some(EventSpace) && EventSpace !in st.seen && Classify(value) == FormatError)
  {
    TokensAreSides(name, value);
    PairErrsExactly(st, name, value);
  }

  lemma TokensAreSides(name: string, value: string)
    requires Token(name) && Token(value)
    ensures Sides(name + "=" + value) == Ok((name, value))
  {
    assert name + "=" + value == name + ['='] + value;
    SepOfPart(name, value, '=');
    SepOfPart(value, "", '=');
    assert "" + name + "" == name && "" + value + "" == value;
    TrimFindsToken("", name, "");
    TrimFindsToken("", value, "");
  }

  lemma PairErrsExactly(st: State, name: string, value: string)
    ensures var r, a := CheckPair(st, name, value), AttributeOf(name);
            && (r == Err(FilterAttr) <==> a == None)
            && (r == Err(SubscriptionStr) <==> a.Some? && a.value in st.seen)
            && (r == Err(FilterValue) <==>
                 a.Some? && a.value !in st.seen && a.value != EventSpace && Assign(st.mask, a.value, value).Err?)
            && (r == Err(EventspaceFormat) <==>
                 a == Some(EventSpace) && EventSpace !in st.seen && Classify(value) == FormatError)
  {
  }

  lemma NoEqualsSign(st: State, f: string)
    requires '=' !in f
    ensures CheckField(st, f) == Err(SubscriptionStr)
  {
    SepOfPart(f, "", '=');
  }

  lemma {:induction false} CheckConcat(st: State, a: seq<string>, b: seq<string>)
    ensures CheckFields(st, a + b) ==
            match CheckFields(st, a) case Err(e) => Err(e) case Ok(next) => CheckFields(next, b)
    decreases |a|
  {
    if a == [] {
      assert a + b == b;
    } else {
      assert (a + b)[1..] == a[1..] + b;
      if CheckField(st, a[0]).Ok? {
        CheckConcat(CheckField(st, a[0]).value, a[1..], b);
      }
    }
  }

  /** The error of a string is that of its first field that does not pass. */
  lemma FirstErrorIsReported(s: string, i: nat, st: State, e: Error)
    requires s != "" && i < |Split(s, ',')| <= 10
    requires CheckFields(Initial(), Split(s, ',')[..i]) == Ok(st) && CheckField(st, Split(s, ',')[i]) == Err(e)
    ensures Parse(s) == Err(e)
  {
    FirstErrorIsTheirs(Initial(), Split(s, ','), i, st, e);
  }

  lemma FirstErrorIsTheirs(start: State, fields: seq<string>, i: nat, st: State, e: Error)
    requires i < |fields| && CheckFields(start, fields[..i]) == Ok(st) && CheckField(st, fields[i]) == Err(e)
    ensures CheckFields(start, fields) == Err(e)
  {
    assert fields == fields[..i] + fields[i..];
    CheckConcat(start, fields[..i], fields[i..]);
  }

  /** Trimming takes spaces and tabs from the ends, one by one, and nothing else. */
  lemma TrimTakesSpacesAndTabs(s: string)
    ensures Trim(" " + s) == Trim(s) && Trim("\t" + s) == Trim(s)
    ensures s != "" && s[0] !in {' ', '\t'} && s[|s| - 1] !in {' ', '\t'} ==> Trim(s) == s
  {
    assert (" " + s)[1..] == s && ("\t" + s)[1..] == s;
  }

  lemma BlanksTrimToNothing(s: string)
    ensures Trim(s) == "" <==> AllBlank(s)
  {
    if AllBlank(s) {
      assert TrimmedWith(s, s, "", "");
      TrimmedIsTrim(s, "");
    } else {
      var i :| 0 <= i < |s| && !IsBlank(s[i]);
      TrimKeeps(s, i);
    }
  }

  lemma {:induction false} TrimKeeps(s: string, i: nat)
    requires i < |s| && !IsBlank(s[i])
    ensures Trim(s) != ""
    decreases |s|
  {
    if IsBlank(s[0]) {
      TrimKeeps(s[1..], i - 1);
      assert TrimLeft(s) == TrimLeft(s[1..]);
    } else {
      RightKeeps(s);
    }
  }

  lemma {:induction false} RightKeeps(s: string)
    requires s != "" && !IsBlank(s[0])
    ensures TrimRight(s) != ""
    decreases |s|
  {
    if IsBlank(s[|s| - 1]) {
      RightKeeps(s[..|s| - 1]);
    }
  }

  /** Which error the two sides of a field get: a side of blanks makes a wrong string, a
      blank inside the name a wrong attribute, and one inside the value a wrong value. */
  lemma SidesErrExactly(left: string, right: string)
    requires '=' !in left && '=' !in right
    ensures var r := Sides(left + "=" + right);
            && (r == Err(SubscriptionStr) <==> AllBlank(left) || AllBlank(right))
            && (r == Err(FilterAttr) <==> !AllBlank(left) && !AllBlank(right) && HasBlank(Trim(left)))
            && (r == Err(FilterValue) <==>
                 !AllBlank(left) && !AllBlank(right) && !HasBlank(Trim(left)) && HasBlank(Trim(right)))
            && (r.Ok? ==> r.value == (Trim(left), Trim(right)))
  {
    assert left + "=" + right == left + ['='] + right;
    SepOfPart(left, right, '=');
    SepOfPart(right, "", '=');
    BlanksTrimToNothing(left);
    BlanksTrimToNothing(right);
  }
}
