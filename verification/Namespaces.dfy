// Event spaces such as region.category.component (src/client_lib/ftb_client_lib.c:
// 213-272, src/util/ftb_auxil.c:77-108).
module Namespaces {
  import opened Text
  import opened Fields

  const MAX_EVENTSPACE := 64

  predicate NameChar(c: char) {
    'A' <= c <= 'Z' || 'a' <= c <= 'z' || c == '_' || '0' <= c <= '9'
  }

  /** The characters of a name: letters, digits and the underscore. */
  lemma NameCharExactly(c: char)
    ensures NameChar(c) <==> c in UPPER || c in LOWER || c in "0123456789" || c == '_'
  {
    UpperExactly(c);
    LowerExactly(c);
    DigitExactly(c);
  }

  lemma UpperExactly(c: char)
    ensures c in UPPER <==> 'A' <= c <= 'Z'
  {
    if k :| 0 <= k < 26 && UPPER[k] == c {
      Alphabets(k);
    }
    if 'A' <= c <= 'Z' {
      Alphabets(c as int - 'A' as int);
    }
  }

  lemma LowerExactly(c: char)
    ensures c in LOWER <==> 'a' <= c <= 'z'
  {
    if k :| 0 <= k < 26 && LOWER[k] == c {
      Alphabets(k);
    }
    if 'a' <= c <= 'z' {
      Alphabets(c as int - 'a' as int);
    }
  }

  lemma DigitExactly(c: char)
    ensures c in "0123456789" <==> '0' <= c <= '9'
  {
    var digits := "0123456789";
    if '0' <= c <= '9' {
      assert c == digits[c as int - '0' as int];
    }
  }

  predicate IsName(s: string) {
    forall i :: 0 <= i < |s| ==> NameChar(s[i])
  }

  /** check_alphanumeric_underscore_format */
  method CheckFormat(s: string) returns (ok: bool)
    ensures ok <==> IsName(s)
  {
    var i := 0;
    while i < |s|
      invariant i <= |s| && IsName(s[..i])
    {
      if !NameChar(s[i]) {
        return false;
      }
      assert s[..i + 1] == s[..i] + [s[i]];
      i := i + 1;
    }
    assert s[..i] == s;
    ok := true;
  }

  ghost function Concat(parts: seq<string>): string {
    if parts == [] then "" else Concat(parts[..|parts| - 1]) + parts[|parts| - 1]
  }

  /** concatenate_strings: the buffer grows at its end, argument by argument. */
  method ConcatenateStrings(parts: seq<string>) returns (str: string)
    requires parts != []
    ensures str == Concat(parts)
  {
    str := parts[0];
    assert parts[..1] == [parts[0]] && Concat(parts[..1][..0]) == "";
    var i := 1;
    while i < |parts|
      invariant 1 <= i <= |parts| && str == Concat(parts[..i])
    {
      assert parts[..i + 1][..i] == parts[..i];
      str := str + parts[i];
      i := i + 1;
    }
    assert parts[..i] == parts;
  }

  /** NullString is where the code compares a string that strsep did not return. */
  datatype SplitResult = Spaces(region: string, category: string, component: string) | FormatError | NullString

  /** strcmp(str, "") == 0 || strcmp(tempstr, "") == 0, where the second may be null. */
  function Blank(str: string, rest: Option<string>): Option<bool> {
    if str == "" then Some(true)
    else if rest.None? then None
    else Some(rest.value == "")
  }

  /** FTBCI_split_namespace */
  method SplitNamespace(eventSpace: string) returns (r: SplitResult)
    ensures r == Classify(eventSpace)
  {
    if |eventSpace| >= MAX_EVENTSPACE {
      return FormatError;
    }
    var (region, temp) := Sep(eventSpace, '.');
    ghost var parts := Split(eventSpace, '.');
    assert parts[0] == region && region in parts;
    assert temp.Some? ==> parts == [region] + Split(temp.value, '.');
    assert temp == Some("") ==> parts[1] == "" && parts[1] in parts;
    var blank := Blank(region, temp);
    if blank != Some(false) {
      return if blank.None? then NullString else FormatError;
    }
    var (category, temp2) := Sep(temp.value, '.');
    blank := Blank(category, temp2);
    if blank != Some(false) {
      return if blank.None? then NullString else FormatError;
    }
    var (component, temp3) := Sep(temp2.value, '.');
    if component == "" {
      return FormatError;
    }
    var ok1 := CheckFormat(region);
    var ok2 := CheckFormat(category);
    var ok3 := CheckFormat(component);
    if temp3.Some? || !ok1 || !ok2 || !ok3 {
      return FormatError;
    }
    return Spaces(region, category, component);
  }

  /** The answer by the parts between the dots: three names make an event space; fewer
      than three parts, none of them empty, lead to a null string. */
  function Classify(eventSpace: string): SplitResult {
    var parts := Split(eventSpace, '.');
    if |eventSpace| >= MAX_EVENTSPACE || "" in parts then FormatError
    else if |parts| < 3 then NullString
    else if |parts| == 3 && IsName(parts[0]) && IsName(parts[1]) && IsName(parts[2]) then
      Spaces(parts[0], parts[1], parts[2])
    else FormatError
  }

  ghost predicate ValidNames(region: string, category: string, component: string) {
    && region != "" && category != "" && component != ""
    && IsName(region) && IsName(category) && IsName(component)
    && |region| + |category| + |component| + 2 < 64
  }

  function Dotted(region: string, category: string, component: string): string {
    region + "." + category + "." + component
  }

  lemma DottedIsJoin(a: string, b: string, c: string)
    ensures Dotted(a, b, c) == Join([a, b, c], '.')
  {
    assert [a, b, c][1..] == [b, c] && [b, c][1..] == [c];
    assert Join([c], '.') == c;
    assert Join([b, c], '.') == b + "." + c;
  }

  /** Splitting and joining are inverses of each other: a string splits into three
      names exactly when it is those names, joined by dots, within the bound. */
  lemma SplitsExactlyJoined(s: string, region: string, category: string, component: string)
    ensures Classify(s) == Spaces(region, category, component) <==>
            s == Dotted(region, category, component) && ValidNames(region, category, component)
  {
    DottedIsJoin(region, category, component);
    var names := [region, category, component];
    if Classify(s) == Spaces(region, category, component) {
      JoinOfSplit(s, '.');
      assert Split(s, '.') == names;
      assert names[0] in names && names[1] in names && names[2] in names;
    }
    if s == Dotted(region, category, component) && ValidNames(region, category, component) {
      assert forall i :: 0 <= i < 3 ==> '.' !in names[i];
      SplitOfJoin(names, '.');
    }
  }

  /** The null string is met exactly with one name, or with two and a dot between them. */
  lemma NullStringExactly(s: string)
    ensures Classify(s) == NullString <==> |s| < 64 && (OneName(s) || exists a, b :: TwoNames(s, a, b))
  {
    var parts := Split(s, '.');
    JoinOfSplit(s, '.');
    if Classify(s) == NullString {
      if |parts| == 1 {
        assert parts[0] == s && s in parts;
      } else {
        assert parts == [parts[0], parts[1]] && parts[0] in parts && parts[1] in parts;
        assert parts[1..] == [parts[1]];
        assert TwoNames(s, parts[0], parts[1]);
      }
    }
    if OneName(s) {
      SepOfPart(s, "", '.');
    }
    if a, b :| TwoNames(s, a, b) {
      SepOfPart(a, b, '.');
      SepOfPart(b, "", '.');
      assert parts == [a] + Split(b, '.');
    }
  }

  ghost predicate OneName(s: string) {
    s != "" && '.' !in s
  }

  ghost predicate TwoNames(s: string, a: string, b: string) {
    OneName(a) && OneName(b) && s == a + "." + b
  }

  /** What a receiver is handed as the event space is the dotted form. */
  lemma ConcatIsDotted(a: string, b: string, c: string)
    ensures Concat([a, ".", b, ".", c]) == Dotted(a, b, c)
  {
    var s := [a, ".", b, ".", c];
    assert s[..4] == [a, ".", b, "."] && s[..4][..3] == [a, ".", b];
    assert [a, ".", b, "."][..3] == [a, ".", b] && [a, ".", b][..2] == [a, "."] && [a, "."][..1] == [a];
    assert [a][..0] == [];
    assert Concat([a]) == a;
    assert Concat([a, "."]) == a + ".";
    assert Concat([a, ".", b]) == a + "." + b;
  }
}
