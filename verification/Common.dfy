/** Result types and the string ordering every sorted traversal in the program relies on. */
module Common {

  datatype Option<+T> = None | Some(value: T)

  datatype Result<+T> = Ok(value: T) | Err(error: string)

  /** Byte-wise lexicographic order: what `sort.Strings` and `sort` both use. */
  predicate StringLe(a: string, b: string)
    decreases |a|
  {
    |a| == 0 || (|b| > 0 && (a[0] < b[0] || (a[0] == b[0] && StringLe(a[1..], b[1..]))))
  }

  lemma {:induction false} StringLeTotal(a: string, b: string)
    ensures StringLe(a, b) || StringLe(b, a)
    decreases |a|
  {
    if |a| > 0 && |b| > 0 {
      StringLeTotal(a[1..], b[1..]);
    }
  }

  lemma {:induction false} StringLeAntisymmetric(a: string, b: string)
    requires StringLe(a, b) && StringLe(b, a)
    ensures a == b
    decreases |a|
  {
    if |a| > 0 && |b| > 0 {
      StringLeAntisymmetric(a[1..], b[1..]);
      assert a == [a[0]] + a[1..] && b == [b[0]] + b[1..];
    }
  }

  lemma {:induction false} StringLeTransitive(a: string, b: string, c: string)
    requires StringLe(a, b) && StringLe(b, c)
    ensures StringLe(a, c)
    decreases |a|
  {
    if |a| > 0 && a[0] == b[0] && b[0] == c[0] {
      StringLeTransitive(a[1..], b[1..], c[1..]);
    }
  }

  predicate IsLeast(x: string, s: set<string>) {
    x in s && forall y | y in s :: StringLe(x, y)
  }

  lemma {:induction false} LeastExists(s: set<string>) returns (x: string)
    requires s != {}
    ensures IsLeast(x, s)
    decreases |s|
  {
    x :| x in s;
    if s == {x} {
      StringLeTotal(x, x);
    } else {
      var rest := s - {x};
      var y := LeastExists(rest);
      StringLeTotal(x, y);
      if StringLe(x, y) {
        StringLeTotal(x, x);
        forall z | z in s ensures StringLe(x, z) {
          if z != x { StringLeTransitive(x, y, z); }
        }
      } else {
        x := y;
      }
    }
  }

  lemma LeastUnique(x: string, y: string, s: set<string>)
    requires IsLeast(x, s) && IsLeast(y, s)
    ensures x == y
  {
    StringLeAntisymmetric(x, y);
  }

  /** The first key of a sorted traversal. */
  function Least(s: set<string>): (m: string)
    requires s != {}
    ensures IsLeast(m, s)
  {
    assert exists m :: IsLeast(m, s) by { var w := LeastExists(s); }
    assert forall m, n | IsLeast(m, s) && IsLeast(n, s) :: m == n by {
      forall m, n | IsLeast(m, s) && IsLeast(n, s) ensures m == n { LeastUnique(m, n, s); }
    }
    var m :| m in s && IsLeast(m, s);
    m
  }

  /** The keys of a set in sorted order: collect, then `sort.Strings`. */
  function Sorted(s: set<string>): (r: seq<string>)
    ensures forall x :: x in r <==> x in s
    ensures |r| == |s|
    decreases |s|
  {
    if s == {} then [] else [Least(s)] + Sorted(s - {Least(s)})
  }

  ghost predicate NoDuplicates<T>(xs: seq<T>) {
    forall i, j | 0 <= i < j < |xs| :: xs[i] != xs[j]
  }

  lemma {:induction false} SortedOrder(s: set<string>, i: nat, j: nat)
    requires i < j < |Sorted(s)|
    ensures StringLe(Sorted(s)[i], Sorted(s)[j]) && Sorted(s)[i] != Sorted(s)[j]
    decreases |s|
  {
    var m := Sorted(s)[0];
    var rest := Sorted(s - {m});
    assert Sorted(s) == [m] + rest;
    assert rest[j - 1] in rest;
    if i > 0 { SortedOrder(s - {m}, i - 1, j - 1); }
  }

  ghost predicate Ascending(keys: seq<string>) {
    forall i, j | 0 <= i < j < |keys| :: StringLe(keys[i], keys[j]) && keys[i] != keys[j]
  }

  lemma SortedAscending(s: set<string>)
    ensures Ascending(Sorted(s))
  {
    forall i, j | 0 <= i < j < |Sorted(s)|
      ensures StringLe(Sorted(s)[i], Sorted(s)[j]) && Sorted(s)[i] != Sorted(s)[j]
    {
      SortedOrder(s, i, j);
    }
  }

  lemma SortedNoDuplicates(s: set<string>)
    ensures NoDuplicates(Sorted(s))
  {
    forall i, j | 0 <= i < j < |Sorted(s)| ensures Sorted(s)[i] != Sorted(s)[j] {
      SortedOrder(s, i, j);
    }
  }

  // ---- Case ----

  function Lower(c: char): char { if 'A' <= c <= 'Z' then c - 'A' + 'a' else c }

  /** ASCII letters in lower case. */
  function Fold(s: string): (r: string)
    ensures |r| == |s| && forall i | 0 <= i < |s| :: r[i] == Lower(s[i])
  {
    if s == "" then "" else [Lower(s[0])] + Fold(s[1..])
  }

  /** Equal but for ASCII letters in the other case. */
  predicate SameUpToCase(a: string, b: string) {
    |a| == |b| && forall i | 0 <= i < |a| :: a[i] == b[i] || OtherCase(a[i], b[i]) || OtherCase(b[i], a[i])
  }

  predicate OtherCase(upper: char, lower: char) { 'A' <= upper <= 'Z' && lower as int == upper as int + 32 }

  lemma FoldEqualIff(a: string, b: string)
    ensures Fold(a) == Fold(b) <==> SameUpToCase(a, b)
  {
    forall i | 0 <= i < |a| && i < |b|
      ensures Fold(a)[i] == Fold(b)[i] <==> a[i] == b[i] || OtherCase(a[i], b[i]) || OtherCase(b[i], a[i])
    {
      LowerEqualIff(a[i], b[i]);
    }
    if SameUpToCase(a, b) { forall i | 0 <= i < |a| ensures Fold(a)[i] == Fold(b)[i] {} }
  }

  lemma LowerEqualIff(c: char, d: char)
    ensures Lower(c) == Lower(d) <==> c == d || OtherCase(c, d) || OtherCase(d, c)
  {
  }
}
