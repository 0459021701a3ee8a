/** strings.Split and strings.Join of Go, for a separator of one character. */
module Text {
  /** The pieces between the separators; always at least one. */
  function Split(s: string, c: char): (parts: seq<string>)
    ensures |parts| >= 1
  {
    if s == "" then [""]
    else
      var rest := Split(s[1..], c);
      if s[0] == c then [""] + rest else [[s[0]] + rest[0]] + rest[1..]
  }

  function Join(parts: seq<string>, c: char): string {
    if parts == [] then ""
    else if |parts| == 1 then parts[0]
    else parts[0] + [c] + Join(parts[1..], c)
  }

  predicate AllFree(parts: seq<string>, c: char) {
    forall i :: 0 <= i < |parts| ==> c !in parts[i]
  }

  /** The pieces are free of the separator, and of every character that the text does not have. */
  lemma {:induction false} SplitFree(s: string, c: char, d: char)
    requires d == c || d !in s
    ensures AllFree(Split(s, c), d)
  {
    if s != "" {
      SplitFree(s[1..], c, d);
      assert forall x :: x in s[1..] ==> x in s;
    }
  }

  /** Joining what was split gives back every text. */
  lemma {:induction false} JoinSplit(s: string, c: char)
    ensures Join(Split(s, c), c) == s
  {
    if s != "" {
      var rest := Split(s[1..], c);
      JoinSplit(s[1..], c);
      assert s == [s[0]] + s[1..];
      if s[0] == c {
        assert ([""] + rest)[1..] == rest;
      } else {
        var parts := [[s[0]] + rest[0]] + rest[1..];
        assert parts[1..] == rest[1..];
        assert Join(parts, c) == [s[0]] + Join(rest, c);
      }
    }
  }

  lemma {:induction false} SplitFirst(a: string, b: string, c: char)
    requires c !in a
    ensures Split(a + [c] + b, c) == [a] + Split(b, c)
  {
    var s := a + [c] + b;
    if a == "" {
      assert s[1..] == b;
    } else {
      assert c !in a[1..] by { assert forall x :: x in a[1..] ==> x in a; }
      SplitFirst(a[1..], b, c);
      assert s[1..] == a[1..] + [c] + b;
      assert a == [a[0]] + a[1..];
      assert a[0] in a;
    }
  }

  lemma {:induction false} SplitWhole(s: string, c: char)
    requires c !in s
    ensures Split(s, c) == [s]
  {
    if s != "" {
      assert c !in s[1..] by { assert forall x :: x in s[1..] ==> x in s; }
      SplitWhole(s[1..], c);
      assert s == [s[0]] + s[1..];
      assert s[0] in s;
    }
  }

  lemma JoinPair(a: string, b: string, c: char)
    ensures Join([a, b], c) == a + [c] + b
  {
    assert [a, b][1..] == [b];
  }

  /** There are two pieces exactly if there is one separator. */
  lemma SplitPair(s: string, a: string, b: string, c: char)
    ensures Split(s, c) == [a, b] <==> s == a + [c] + b && c !in a && c !in b
  {
    if s == a + [c] + b && c !in a && c !in b {
      SplitFirst(a, b, c);
      SplitWhole(b, c);
    }
    JoinSplit(s, c);
    SplitFree(s, c, c);
    JoinPair(a, b, c);
    assert AllFree([a, b], c) ==> c !in [a, b][0] && c !in [a, b][1];
  }

  lemma {:induction false} SplitJoinFree(parts: seq<string>, c: char)
    requires parts != [] && AllFree(parts, c)
    ensures Split(Join(parts, c), c) == parts
  {
    if |parts| == 1 {
      SplitWhole(parts[0], c);
    } else {
      SplitFirst(parts[0], Join(parts[1..], c), c);
      SplitJoinFree(parts[1..], c);
    }
  }

  /** Splitting what was joined gives back the parts exactly when there is a part and no part has the
      separator. */
  lemma SplitJoin(parts: seq<string>, c: char)
    ensures Split(Join(parts, c), c) == parts <==> parts != [] && AllFree(parts, c)
  {
    if parts != [] && AllFree(parts, c) { SplitJoinFree(parts, c); }
    SplitFree(Join(parts, c), c, c);
  }
}
