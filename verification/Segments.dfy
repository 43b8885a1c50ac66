/** Slash-separated names and their segments. */
module Segments {
  predicate Segment(s: string) { '/' !in s }

  function Split(s: string): (r: seq<string>)
    ensures |r| > 0
  {
    if s == "" then [""]
    else
      var rest := Split(s[1..]);
      if s[0] == '/' then [""] + rest else [[s[0]] + rest[0]] + rest[1..]
  }

  lemma {:induction false} SplitCut(a: string, x: string)
    requires Segment(a)
    ensures Split(a + "/" + x) == [a] + Split(x)
    decreases |a|
  {
    var s := a + "/" + x;
    if a == "" {
      assert s == "/" + x && s[1..] == x;
    } else {
      assert a[0] in a && forall c | c in a[1..] :: c in a;
      SplitCut(a[1..], x);
      assert s[1..] == a[1..] + "/" + x && s[0] == a[0];
      assert [a[0]] + a[1..] == a;
      assert ([a[1..]] + Split(x))[1..] == Split(x);
    }
  }

  lemma {:induction false} SplitSegment(a: string)
    ensures |Split(a)| == 1 <==> Segment(a)
    ensures Segment(a) ==> Split(a) == [a]
    decreases |a|
  {
    if a != "" {
      SplitSegment(a[1..]);
      assert a == [a[0]] + a[1..];
    }
  }

  function Join(parts: seq<string>): string {
    if parts == [] then "" else if |parts| == 1 then parts[0] else parts[0] + "/" + Join(parts[1..])
  }

  lemma {:induction false} JoinSplit(s: string)
    ensures Join(Split(s)) == s && forall p | p in Split(s) :: Segment(p)
    decreases |s|
  {
    if s != "" {
      var rest := Split(s[1..]);
      JoinSplit(s[1..]);
      assert s == [s[0]] + s[1..];
      assert rest[0] in rest;
      if s[0] == '/' {
        assert Split(s)[1..] == rest;
      } else {
        assert Split(s)[1..] == rest[1..];
        if |rest| > 1 { assert Join(rest) == rest[0] + "/" + Join(rest[1..]); }
      }
    }
  }

  lemma SplitInjective(a: string, b: string)
    requires Split(a) == Split(b)
    ensures a == b
  {
    JoinSplit(a);
    JoinSplit(b);
  }

  lemma {:induction false} SplitConcat(a: string, b: string)
    ensures Split(a + "/" + b) == Split(a) + Split(b)
    decreases |a|
  {
    var s := a + "/" + b;
    if a == "" {
      assert s[1..] == b;
    } else {
      assert s[1..] == a[1..] + "/" + b;
      SplitConcat(a[1..], b);
    }
  }
}
