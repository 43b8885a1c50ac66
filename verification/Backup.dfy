/** Backup keys, their time order, and the retention that relies on it (internal/dbbackup). */
module Backup {
  import opened Common
  import opened Segments

  // ---- Fixed-width timestamps ----

  function Digit(n: nat): char { '0' + (n % 10) as char }

  function Digits(n: nat, width: nat): string {
    if width == 0 then "" else Digits(n / 10, width - 1) + [Digit(n)]
  }

  function Pow10(w: nat): nat { if w == 0 then 1 else 10 * Pow10(w - 1) }

  lemma {:induction false} DigitsLength(n: nat, width: nat)
    ensures |Digits(n, width)| == width
    decreases width
  {
    if width > 0 { DigitsLength(n / 10, width - 1); }
  }

  /** Ordering strings of one length: the first part decides, the rest breaks a tie. */
  lemma {:induction false} ConcatOrder(a: string, x: string, b: string, y: string)
    requires |a| == |b|
    ensures StringLe(a + x, b + y) <==> if a == b then StringLe(x, y) else StringLe(a, b)
    decreases |a|
  {
    var s, t := a + x, b + y;
    if a == "" {
      assert s == x && t == y;
    } else {
      assert s[0] == a[0] && t[0] == b[0] && s[1..] == a[1..] + x && t[1..] == b[1..] + y;
      assert a == [a[0]] + a[1..] && b == [b[0]] + b[1..];
      ConcatOrder(a[1..], x, b[1..], y);
    }
  }

  lemma {:induction false} DigitsOrder(m: nat, n: nat, width: nat)
    requires m < Pow10(width) && n < Pow10(width)
    ensures StringLe(Digits(m, width), Digits(n, width)) <==> m <= n
    ensures Digits(m, width) == Digits(n, width) <==> m == n
    decreases width
  {
    if width > 0 {
      var p, q := Digits(m / 10, width - 1), Digits(n / 10, width - 1);
      DigitsOrder(m / 10, n / 10, width - 1);
      DigitsLength(m / 10, width - 1);
      DigitsLength(n / 10, width - 1);
      ConcatOrder(p, [Digit(m)], q, [Digit(n)]);
      assert (p + [Digit(m)])[..width - 1] == p && (q + [Digit(n)])[..width - 1] == q;
      assert (p + [Digit(m)])[width - 1] == Digit(m) && (q + [Digit(n)])[width - 1] == Digit(n);
      assert m == 10 * (m / 10) + m % 10 && n == 10 * (n / 10) + n % 10;
    }
  }

  /** One field of a timestamp: its width, and what follows it. */
  datatype Part = Part(width: nat, after: string)

  /** %Y%m%dT%H%M%SZ, the basic format of section 4.3.2 of ISO 8601:2004. */
  const LAYOUT := [Part(4, ""), Part(2, ""), Part(2, "T"), Part(2, ""), Part(2, ""), Part(2, "Z")]

  /** Each of these has a number for every part of the layout. */
  predicate AllMoments(times: seq<seq<nat>>) { forall i | 0 <= i < |times| :: |times[i]| == |LAYOUT| }

  predicate Fits(layout: seq<Part>, t: seq<nat>) {
    |t| == |layout| && (layout == [] || (t[0] < Pow10(layout[0].width) && Fits(layout[1..], t[1..])))
  }

  function Render(layout: seq<Part>, t: seq<nat>): string
    requires |t| == |layout|
  {
    if layout == [] then "" else Digits(t[0], layout[0].width) + (layout[0].after + Render(layout[1..], t[1..]))
  }

  /** Earlier or equal: year first, then month, and so on. */
  predicate TimeLe(a: seq<nat>, b: seq<nat>)
    requires |a| == |b|
  {
    a == [] || a[0] < b[0] || (a[0] == b[0] && TimeLe(a[1..], b[1..]))
  }

  lemma {:induction false} RenderLength(layout: seq<Part>, a: seq<nat>, b: seq<nat>)
    requires |a| == |layout| == |b|
    ensures |Render(layout, a)| == |Render(layout, b)|
    decreases |layout|
  {
    if layout != [] {
      DigitsLength(a[0], layout[0].width);
      DigitsLength(b[0], layout[0].width);
      RenderLength(layout[1..], a[1..], b[1..]);
    }
  }

  /** Rendered timestamps sort exactly in time order, and distinct times never render alike. */
  lemma {:induction false} RenderOrder(layout: seq<Part>, a: seq<nat>, b: seq<nat>)
    requires Fits(layout, a) && Fits(layout, b)
    ensures StringLe(Render(layout, a), Render(layout, b)) <==> TimeLe(a, b)
    ensures Render(layout, a) == Render(layout, b) <==> a == b
    decreases |layout|
  {
    if layout == [] {
      assert a == b;
    } else {
      var w, sep := layout[0].width, layout[0].after;
      var p, q := Digits(a[0], w), Digits(b[0], w);
      var x, y := Render(layout[1..], a[1..]), Render(layout[1..], b[1..]);
      DigitsLength(a[0], w);
      DigitsLength(b[0], w);
      DigitsOrder(a[0], b[0], w);
      RenderOrder(layout[1..], a[1..], b[1..]);
      ConcatOrder(p, sep + x, q, sep + y);
      ConcatOrder(sep, x, sep, y);
      ConcatEqual(p, sep + x, q, sep + y);
      ConcatEqual(sep, x, sep, y);
      assert a == [a[0]] + a[1..] && b == [b[0]] + b[1..];
    }
  }

  lemma ConcatEqual(a: string, x: string, b: string, y: string)
    requires |a| == |b|
    ensures a + x == b + y <==> a == b && x == y
  {
    if a + x == b + y {
      assert a == (a + x)[..|a|] && x == (a + x)[|a|..];
    }
  }

  // ---- Keys ----

  const SUFFIX := ".dump.gz"

  function ObjectPrefix(env: string, region: string, cluster: string, database: string): string {
    env + "/" + (region + "/" + (cluster + "/" + (database + "/")))
  }

  function Key(prefix: string, t: seq<nat>): string
    requires |t| == |LAYOUT|
  {
    prefix + (Render(LAYOUT, t) + SUFFIX)
  }

  /** Under one prefix, keys list exactly in the order the backups were taken. */
  lemma KeyOrder(prefix: string, a: seq<nat>, b: seq<nat>)
    requires Fits(LAYOUT, a) && Fits(LAYOUT, b)
    ensures StringLe(Key(prefix, a), Key(prefix, b)) <==> TimeLe(a, b)
    ensures Key(prefix, a) == Key(prefix, b) <==> a == b
  {
    var x, y := Render(LAYOUT, a), Render(LAYOUT, b);
    RenderLength(LAYOUT, a, b);
    RenderOrder(LAYOUT, a, b);
    ConcatOrder(prefix, x + SUFFIX, prefix, y + SUFFIX);
    ConcatOrder(x, SUFFIX, y, SUFFIX);
    ConcatEqual(prefix, x + SUFFIX, prefix, y + SUFFIX);
    ConcatEqual(x, SUFFIX, y, SUFFIX);
    StringLeTotal(SUFFIX, SUFFIX);
    StringLeTotal(x, x);
  }

  // ---- Segments of a key ----

  lemma FirstSegment(a: string, x: string, b: string, y: string)
    requires Segment(a) && Segment(b) && a + "/" + x == b + "/" + y
    ensures a == b && x == y
  {
    SplitCut(a, x);
    SplitCut(b, y);
    assert ([a] + Split(x))[0] == a && ([b] + Split(y))[0] == b;
    assert x == (a + "/" + x)[|a| + 1..] && y == (b + "/" + y)[|b| + 1..];
  }

  lemma PrefixParts(e: string, r: string, c: string, d: string, x: string)
    ensures ObjectPrefix(e, r, c, d) + x == e + "/" + (r + "/" + (c + "/" + (d + "/" + x)))
  {
  }

  /** Distinct databases own disjoint key sets: no key starts with both prefixes. */
  lemma PrefixesDisjoint(e1: string, r1: string, c1: string, d1: string, e2: string, r2: string, c2: string, d2: string,
                         key: string)
    requires Segment(e1) && Segment(r1) && Segment(c1) && Segment(d1) && Segment(e2) && Segment(r2) && Segment(c2)
          && Segment(d2)
    requires ObjectPrefix(e1, r1, c1, d1) <= key && ObjectPrefix(e2, r2, c2, d2) <= key
    ensures e1 == e2 && r1 == r2 && c1 == c2 && d1 == d2
  {
    var x := key[|ObjectPrefix(e1, r1, c1, d1)|..];
    var y := key[|ObjectPrefix(e2, r2, c2, d2)|..];
    var k1, k2 := c1 + "/" + (d1 + "/" + x), c2 + "/" + (d2 + "/" + y);
    PrefixParts(e1, r1, c1, d1, x);
    PrefixParts(e2, r2, c2, d2, y);
    assert key == ObjectPrefix(e1, r1, c1, d1) + x && key == ObjectPrefix(e2, r2, c2, d2) + y;
    FirstSegment(e1, r1 + "/" + k1, e2, r2 + "/" + k2);
    FirstSegment(r1, k1, r2, k2);
    FirstSegment(c1, d1 + "/" + x, c2, d2 + "/" + y);
    FirstSegment(d1, x, d2, y);
  }

  // ---- Parsing a key ----

  datatype ObjectKey = ObjectKey(env: string, region: string, cluster: string, database: string, name: string)

  /** Exactly five non-empty segments. */
  method ParseObjectKey(key: string) returns (r: Option<ObjectKey>)
    ensures r == Parsed(key)
  {
    var parts := Split(key);
    if |parts| != 5 {
      return None;
    }
    for i := 0 to 5
      invariant forall j | 0 <= j < i :: parts[j] != ""
    {
      if parts[i] == "" {
        return None;
      }
    }
    r := Some(ObjectKey(parts[0], parts[1], parts[2], parts[3], parts[4]));
  }

  function Parsed(key: string): Option<ObjectKey> {
    var parts := Split(key);
    if |parts| != 5 || parts[0] == "" || parts[1] == "" || parts[2] == "" || parts[3] == "" || parts[4] == "" then None
    else Some(ObjectKey(parts[0], parts[1], parts[2], parts[3], parts[4]))
  }

  predicate Proper(s: string) { s != "" && Segment(s) }

  lemma SplitKey(k: ObjectKey)
    requires Segment(k.env) && Segment(k.region) && Segment(k.cluster) && Segment(k.database)
    ensures Split(ObjectPrefix(k.env, k.region, k.cluster, k.database) + k.name) ==
      [k.env] + ([k.region] + ([k.cluster] + ([k.database] + Split(k.name))))
  {
    var d := k.database + "/" + k.name;
    var c := k.cluster + "/" + d;
    var r := k.region + "/" + c;
    assert ObjectPrefix(k.env, k.region, k.cluster, k.database) + k.name == k.env + "/" + r;
    SplitCut(k.env, r);
    SplitCut(k.region, c);
    SplitCut(k.cluster, d);
    SplitCut(k.database, k.name);
  }

  /** Parsing inverts building, and accepts nothing else. */
  lemma ParseInvertsBuild(key: string, k: ObjectKey)
    ensures Parsed(key) == Some(k) <==>
      && Proper(k.env) && Proper(k.region) && Proper(k.cluster) && Proper(k.database) && Proper(k.name)
      && key == ObjectPrefix(k.env, k.region, k.cluster, k.database) + k.name
  {
    if Parsed(key) == Some(k) {
      var parts := Split(key);
      JoinSplit(key);
      assert parts == [k.env, k.region, k.cluster, k.database, k.name];
      assert parts[0] in parts && parts[1] in parts && parts[2] in parts && parts[3] in parts && parts[4] in parts;
      JoinFive(k);
    }
    if Proper(k.env) && Proper(k.region) && Proper(k.cluster) && Proper(k.database) && Proper(k.name)
       && key == ObjectPrefix(k.env, k.region, k.cluster, k.database) + k.name {
      SplitKey(k);
      SplitSegment(k.name);
      assert Split(key) == [k.env, k.region, k.cluster, k.database, k.name];
    }
  }

  /** The key names a backup of this database. */
  predicate BackupOf(key: string, k: ObjectKey) {
    && Proper(k.env) && Proper(k.region) && Proper(k.cluster) && Proper(k.database) && Proper(k.name)
    && key == ObjectPrefix(k.env, k.region, k.cluster, k.database) + k.name
  }

  /** The key is one of the named database, in the region and cluster the flags ask for, if they do. */
  predicate Selects(key: string, k: ObjectKey, env: string, database: string, region: string, cluster: string) {
    && BackupOf(key, k) && k.env == env && k.database == database
    && (region == "" || k.region == region) && (cluster == "" || k.cluster == cluster)
  }

  /** The region and cluster a restore from a key goes to: those of the database the backup was taken from, never of a
      namesake in another cluster. */
  method RestoreTarget(key: string, env: string, database: string, region: string, cluster: string)
    returns (r: Result<(string, string)>)
    ensures r.Ok? <==> exists k :: Selects(key, k, env, database, region, cluster)
    ensures r.Ok? ==> forall k | BackupOf(key, k) :: r.value == (k.region, k.cluster)
  {
    var parsed := ParseObjectKey(key);
    forall k ensures parsed == Some(k) <==> BackupOf(key, k) { ParseInvertsBuild(key, k); }
    if parsed.None? {
      return Err("not a backup key");
    }
    var k := parsed.value;
    if k.env != env || k.database != database || (region != "" && region != k.region)
      || (cluster != "" && cluster != k.cluster) {
      return Err("the key does not match");
    }
    assert Selects(key, k, env, database, region, cluster);
    r := Ok((k.region, k.cluster));
  }

  lemma JoinFive(k: ObjectKey)
    ensures Join([k.env, k.region, k.cluster, k.database, k.name]) ==
      ObjectPrefix(k.env, k.region, k.cluster, k.database) + k.name
  {
    var d := k.database + "/" + k.name;
    var c := k.cluster + "/" + d;
    var r := k.region + "/" + c;
    assert [k.database, k.name][1..] == [k.name] && Join([k.database, k.name]) == d;
    assert [k.cluster, k.database, k.name][1..] == [k.database, k.name] && Join([k.cluster, k.database, k.name]) == c;
    var four := [k.region, k.cluster, k.database, k.name];
    assert four[1..] == [k.cluster, k.database, k.name] && Join(four) == r;
    assert [k.env, k.region, k.cluster, k.database, k.name][1..] == four;
    assert ObjectPrefix(k.env, k.region, k.cluster, k.database) + k.name == k.env + "/" + r;
  }

  // ---- Retention ----

  const MAX_DELETE := 1000

  /** The keys under a prefix, sorted. */
  function Under(objects: set<string>, prefix: string): set<string> { set k | k in objects && prefix <= k }

  function Listing(objects: set<string>, prefix: string): (r: seq<string>)
    ensures |r| == |Under(objects, prefix)|
  {
    Sorted(Under(objects, prefix))
  }

  function Surplus(objects: set<string>, prefix: string, keep: nat): nat {
    var n := |Under(objects, prefix)|;
    if n > keep then n - keep else 0
  }

  function Members(keys: seq<string>): set<string> { set k | k in keys }

  function Oldest(objects: set<string>, prefix: string, n: nat): set<string>
    requires n <= |Listing(objects, prefix)|
  {
    Members(Listing(objects, prefix)[..n])
  }

  /** What a prune leaves: a batch larger than the service takes is refused whole. */
  function Pruned(objects: set<string>, prefix: string, keep: nat): set<string> {
    var surplus := Surplus(objects, prefix, keep);
    if surplus <= MAX_DELETE then objects - Oldest(objects, prefix, surplus) else objects
  }

  class Bucket {
    var objects: set<string>

    /** Best effort: a refused batch leaves everything and only warns. */
    method Prune(prefix: string, keep: nat) returns (ok: bool)
      modifies this
      ensures ok <==> Surplus(old(objects), prefix, keep) <= MAX_DELETE
      ensures objects == Pruned(old(objects), prefix, keep)
    {
      var keys := Listing(objects, prefix);
      if |keys| <= keep {
        assert Oldest(objects, prefix, 0) == {};
        return true;
      }
      var del := |keys| - keep;
      var payload := keys[..del];
      if |payload| > MAX_DELETE {
        return false;
      }
      ghost var was := objects;
      for i := 0 to |payload|
        invariant objects == was - Members(payload[..i])
      {
        assert payload[..i + 1] == payload[..i] + [payload[i]];
        objects := objects - {payload[i]};
      }
      assert payload[..|payload|] == Listing(was, prefix)[..del];
      ok := true;
    }

    /** One run of the timer: upload, then prune. */
    method BackUp(prefix: string, t: seq<nat>, keep: nat)
      requires |t| == |LAYOUT|
      modifies this
      ensures objects == Pruned(old(objects) + {Key(prefix, t)}, prefix, keep)
    {
      objects := objects + {Key(prefix, t)};
      var _ := Prune(prefix, keep);
    }

    /** The timer, run after run. */
    method RunTimer(prefix: string, keep: nat, times: seq<seq<nat>>)
      requires AllMoments(times)
      modifies this
      ensures objects == AfterRuns(old(objects), prefix, keep, times, |times|)
    {
      for i := 0 to |times|
        invariant objects == AfterRuns(old(objects), prefix, keep, times, i)
      {
        RunNext(prefix, keep, times, i, old(objects));
      }
    }

    method RunNext(prefix: string, keep: nat, times: seq<seq<nat>>, i: nat, ghost before: set<string>)
      requires i < |times| && AllMoments(times)
      requires objects == AfterRuns(before, prefix, keep, times, i)
      modifies this
      ensures objects == AfterRuns(before, prefix, keep, times, i + 1)
    {
      OneMoreRun(before, prefix, keep, times, i);
      BackUp(prefix, times[i], keep);
    }
  }

  lemma FirstOfSorted(s: set<string>, n: nat)
    requires 0 < n <= |Sorted(s)|
    ensures var rest := s - {Least(s)};
      && n - 1 <= |Sorted(rest)| && Sorted(s)[n..] == Sorted(rest)[n - 1..]
      && Sorted(s)[..n] == [Least(s)] + Sorted(rest)[..n - 1]
  {
    Shift(Sorted(s), Least(s), Sorted(s - {Least(s)}), n);
  }

  lemma Shift<T>(all: seq<T>, m: T, rest: seq<T>, n: nat)
    requires all == [m] + rest && 0 < n <= |all|
    ensures all[n..] == rest[n - 1..] && all[..n] == [m] + rest[..n - 1]
  {
  }

  lemma RemoveFirst(s: set<string>, m: string, later: seq<string>)
    ensures s - Members([m] + later) == (s - {m}) - Members(later)
  {
  }

  lemma DropStep(s: set<string>, n: nat)
    requires 0 < n <= |Sorted(s)|
    ensures var keys := Sorted(s - {Least(s)});
      && n - 1 <= |keys| && Sorted(s)[n..] == keys[n - 1..]
      && s - Members(Sorted(s)[..n]) == (s - {Least(s)}) - Members(keys[..n - 1])
  {
    FirstOfSorted(s, n);
    RemoveFirst(s, Least(s), Sorted(s - {Least(s)})[..n - 1]);
  }

  lemma DropNone(s: set<string>)
    ensures Sorted(s - Members(Sorted(s)[..0])) == Sorted(s)[0..]
  {
    var keys := Sorted(s);
    assert keys[..0] == [] && keys[0..] == keys;
    assert s - Members([]) == s;
  }

  lemma {:induction false} DropOldest(s: set<string>, n: nat)
    requires n <= |Sorted(s)|
    ensures Sorted(s - Members(Sorted(s)[..n])) == Sorted(s)[n..]
    decreases n
  {
    if n == 0 {
      DropNone(s);
    } else {
      var rest := s - {Least(s)};
      DropStep(s, n);
      DropOldest(rest, n - 1);
      calc {
        Sorted(s - Members(Sorted(s)[..n]));
        Sorted(rest - Members(Sorted(rest)[..n - 1]));
        Sorted(rest)[n - 1..];
        Sorted(s)[n..];
      }
    }
  }

  lemma UnderWithout(objects: set<string>, prefix: string, gone: set<string>)
    ensures Under(objects - gone, prefix) == Under(objects, prefix) - gone
  {
  }

  /** A completed prune keeps exactly the newest min(n, keep) keys under its prefix and touches nothing else. */
  lemma PruneKeepsNewest(objects: set<string>, prefix: string, keep: nat)
    requires Surplus(objects, prefix, keep) <= MAX_DELETE
    ensures Listing(Pruned(objects, prefix, keep), prefix) == Listing(objects, prefix)[Surplus(objects, prefix, keep)..]
    ensures |Listing(Pruned(objects, prefix, keep), prefix)| ==
      if |Listing(objects, prefix)| < keep then |Listing(objects, prefix)| else keep
    ensures forall k | k in objects && !(prefix <= k) :: k in Pruned(objects, prefix, keep)
    ensures Pruned(objects, prefix, keep) <= objects
  {
    var under := Under(objects, prefix);
    var n := Surplus(objects, prefix, keep);
    var gone := Oldest(objects, prefix, n);
    DropOldest(under, n);
    assert gone == Members(Sorted(under)[..n]);
    forall k | k in gone ensures k in under { assert k in Sorted(under); }
    UnderWithout(objects, prefix, gone);
  }

  /** Every key deleted sorts before every key kept: with backup-shaped keys, every deleted backup is older. */
  lemma DeletedAreOlder(objects: set<string>, prefix: string, keep: nat, a: seq<nat>, b: seq<nat>)
    requires Surplus(objects, prefix, keep) <= MAX_DELETE && Fits(LAYOUT, a) && Fits(LAYOUT, b)
    requires Key(prefix, a) in objects && Key(prefix, a) !in Pruned(objects, prefix, keep)
    requires Key(prefix, b) in Pruned(objects, prefix, keep)
    ensures TimeLe(a, b) && a != b
  {
    KeptSortsLater(objects, prefix, keep, Key(prefix, a), Key(prefix, b));
    KeyOrder(prefix, a, b);
  }

  lemma KeptSortsLater(objects: set<string>, prefix: string, keep: nat, x: string, y: string)
    requires Surplus(objects, prefix, keep) <= MAX_DELETE && prefix <= x && prefix <= y
    requires x in objects && x !in Pruned(objects, prefix, keep) && y in Pruned(objects, prefix, keep)
    ensures StringLe(x, y) && x != y
  {
    var under := Under(objects, prefix);
    PruneKeepsNewest(objects, prefix, keep);
    SortedAscending(under);
    DroppedSortsFirst(Sorted(under), Surplus(objects, prefix, keep), x, y);
  }

  lemma DroppedSortsFirst(keys: seq<string>, n: nat, x: string, y: string)
    requires n <= |keys| && Ascending(keys) && x in keys && x !in keys[n..] && y in keys[n..]
    ensures StringLe(x, y) && x != y
  {
    var i :| 0 <= i < |keys| && keys[i] == x;
    var j :| 0 <= j < |keys[n..]| && keys[n..][j] == y;
    assert keys[n + j] == y;
  }

  /** The last listed key is the newest backup: what a restore without a key takes. */
  lemma LastIsNewest(objects: set<string>, prefix: string, a: seq<nat>, b: seq<nat>)
    requires Fits(LAYOUT, a) && Fits(LAYOUT, b) && Key(prefix, a) in objects && Listing(objects, prefix) != []
    requires Listing(objects, prefix)[|Listing(objects, prefix)| - 1] == Key(prefix, b)
    ensures TimeLe(a, b)
  {
    var under := Under(objects, prefix);
    SortedAscending(under);
    LastIsGreatest(Sorted(under), Key(prefix, a));
    KeyOrder(prefix, a, b);
  }

  lemma LastIsGreatest(keys: seq<string>, x: string)
    requires Ascending(keys) && x in keys
    ensures StringLe(x, keys[|keys| - 1])
  {
    var i :| 0 <= i < |keys| && keys[i] == x;
    if i == |keys| - 1 { StringLeTotal(x, x); }
  }

  /** The bucket after the first `n` runs. */
  function AfterRuns(objects: set<string>, prefix: string, keep: nat, times: seq<seq<nat>>, n: nat): set<string>
    requires n <= |times| && AllMoments(times)
    decreases n, 0
  {
    if n == 0 then objects else AfterRun(objects, prefix, keep, times, n - 1)
  }

  function AfterRun(objects: set<string>, prefix: string, keep: nat, times: seq<seq<nat>>, i: nat): set<string>
    requires i < |times| && AllMoments(times)
    decreases i, 1
  {
    Pruned(AfterRuns(objects, prefix, keep, times, i) + {Key(prefix, times[i])}, prefix, keep)
  }

  lemma OneMoreRun(objects: set<string>, prefix: string, keep: nat, times: seq<seq<nat>>, i: nat)
    requires i < |times| && AllMoments(times)
    ensures AfterRuns(objects, prefix, keep, times, i + 1) ==
      Pruned(AfterRuns(objects, prefix, keep, times, i) + {Key(prefix, times[i])}, prefix, keep)
  {
    assert AfterRuns(objects, prefix, keep, times, i + 1) == AfterRun(objects, prefix, keep, times, i);
  }

  lemma OneMoreUnder(objects: set<string>, prefix: string, key: string)
    requires prefix <= key
    ensures |Under(objects + {key}, prefix)| == |Under(objects, prefix)| + (if key in objects then 0 else 1)
  {
    var under := Under(objects, prefix);
    assert Under(objects + {key}, prefix) == under + {key};
    if key in objects { assert under + {key} == under; } else { assert key !in under; }
  }

  lemma RunKeepsAtMost(before: set<string>, prefix: string, t: seq<nat>, keep: nat)
    requires |t| == |LAYOUT| && |Under(before, prefix)| <= keep
    ensures |Under(Pruned(before + {Key(prefix, t)}, prefix, keep), prefix)| <= keep
  {
    OneMoreUnder(before, prefix, Key(prefix, t));
    PruneKeepsNewest(before + {Key(prefix, t)}, prefix, keep);
  }

  lemma RunStaysStuck(before: set<string>, prefix: string, t: seq<nat>, keep: nat)
    requires |t| == |LAYOUT| && Surplus(before, prefix, keep) > MAX_DELETE
    ensures var after := Pruned(before + {Key(prefix, t)}, prefix, keep);
      before <= after && Surplus(after, prefix, keep) > MAX_DELETE
  {
    OneMoreUnder(before, prefix, Key(prefix, t));
  }

  lemma NextKeepsAtMost(objects: set<string>, prefix: string, keep: nat, times: seq<seq<nat>>, i: nat)
    requires i < |times| && AllMoments(times)
    requires |Under(AfterRuns(objects, prefix, keep, times, i), prefix)| <= keep
    ensures |Under(AfterRuns(objects, prefix, keep, times, i + 1), prefix)| <= keep
  {
    RunKeepsAtMost(AfterRuns(objects, prefix, keep, times, i), prefix, times[i], keep);
    OneMoreRun(objects, prefix, keep, times, i);
  }

  lemma NextStaysStuck(objects: set<string>, prefix: string, keep: nat, times: seq<seq<nat>>, i: nat)
    requires i < |times| && AllMoments(times)
    requires Surplus(AfterRuns(objects, prefix, keep, times, i), prefix, keep) > MAX_DELETE
    ensures AfterRuns(objects, prefix, keep, times, i) <= AfterRuns(objects, prefix, keep, times, i + 1)
    ensures Surplus(AfterRuns(objects, prefix, keep, times, i + 1), prefix, keep) > MAX_DELETE
  {
    RunStaysStuck(AfterRuns(objects, prefix, keep, times, i), prefix, times[i], keep);
    OneMoreRun(objects, prefix, keep, times, i);
  }

  /** Retention over any number of runs: from at most keep backups there are never more than keep. */
  lemma {:induction false} RetentionHolds(objects: set<string>, prefix: string, keep: nat, times: seq<seq<nat>>, n: nat)
    requires n <= |times| && AllMoments(times)
    requires |Under(objects, prefix)| <= keep
    ensures |Under(AfterRuns(objects, prefix, keep, times, n), prefix)| <= keep
    decreases n
  {
    if n > 0 {
      RetentionHolds(objects, prefix, keep, times, n - 1);
      NextKeepsAtMost(objects, prefix, keep, times, n - 1);
    }
  }

  /** The bound: once more than 1000 keys are surplus, no later run ever prunes again. */
  lemma {:induction false} StuckForever(objects: set<string>, prefix: string, keep: nat, times: seq<seq<nat>>, n: nat)
    requires n <= |times| && AllMoments(times)
    requires Surplus(objects, prefix, keep) > MAX_DELETE
    ensures objects <= AfterRuns(objects, prefix, keep, times, n)
    ensures Surplus(AfterRuns(objects, prefix, keep, times, n), prefix, keep) > MAX_DELETE
    decreases n
  {
    if n > 0 {
      StuckForever(objects, prefix, keep, times, n - 1);
      NextStaysStuck(objects, prefix, keep, times, n - 1);
    }
  }
}
