// Cutting strings at a delimiter as strsep does, and putting them together again.
module Fields {

  datatype Option<T> = None | Some(value: T)

  /** What strsep does to a string: the part before the first delimiter, and what is
      left behind it, which is no string at all when there is no delimiter. */
  function Sep(s: string, c: char): (r: (string, Option<string>))
    ensures c !in r.0
    ensures r.1.None? ==> r.0 == s
    ensures r.1.Some? ==> s == r.0 + [c] + r.1.value && |r.1.value| < |s|
  {
    if s == "" then ("", None)
    else if s[0] == c then ("", Some(s[1..]))
    else
      var r := Sep(s[1..], c);
      ([s[0]] + r.0, r.1)
  }

  /** All the parts strsep would return, called until nothing is left. */
  function Split(s: string, c: char): (r: seq<string>)
    ensures r != [] && |r| <= |s| + 1
    ensures forall i :: 0 <= i < |r| ==> c !in r[i]
    decreases |s|
  {
    var (part, rest) := Sep(s, c);
    if rest.None? then [part] else [part] + Split(rest.value, c)
  }

  function Join(parts: seq<string>, c: char): string
    requires parts != []
  {
    if |parts| == 1 then parts[0] else parts[0] + [c] + Join(parts[1..], c)
  }

  lemma {:induction false} SepOfPart(a: string, b: string, c: char)
    requires c !in a
    ensures Sep(a + [c] + b, c) == (a, Some(b))
    ensures Sep(a, c) == (a, None)
  {
    if a != "" {
      assert (a + [c] + b)[1..] == a[1..] + [c] + b;
      SepOfPart(a[1..], b, c);
      assert a == [a[0]] + a[1..];
    } else {
      assert ([c] + b)[1..] == b;
      assert a + [c] + b == [c] + b;
    }
  }

  lemma {:induction false} JoinOfSplit(s: string, c: char)
    ensures Join(Split(s, c), c) == s
    decreases |s|
  {
    var (part, rest) := Sep(s, c);
    if rest.Some? {
      JoinOfSplit(rest.value, c);
      assert Split(s, c)[1..] == Split(rest.value, c);
    }
  }

  lemma {:induction false} SplitOfJoin(parts: seq<string>, c: char)
    requires parts != [] && forall i :: 0 <= i < |parts| ==> c !in parts[i]
    ensures Split(Join(parts, c), c) == parts
    decreases |parts|
  {
    if |parts| == 1 {
      SepOfPart(parts[0], "", c);
    } else {
      SepOfPart(parts[0], Join(parts[1..], c), c);
      SplitOfJoin(parts[1..], c);
      assert parts == [parts[0]] + parts[1..];
    }
  }
}
