/** A service's material from the deploy to its process environment (program/program.go, program/pkigrant.go,
    internal/hostsecrets, internal/agent). */
module Delivery {
  import opened Common
  import opened Template

  // ---- The blob and its bytes ----

  datatype Blob = Blob(env: map<string, string>, files: map<string, string>)

  datatype Entry = Entry(key: string, value: string)

  /** The canonical bytes, up to their JSON spelling. */
  datatype Wire = Wire(env: seq<Entry>, files: seq<Entry>)

  function SortedEntries(keys: set<string>, m: map<string, string>): seq<Entry>
    requires keys <= m.Keys
  {
    if keys == {} then [] else [Entry(Least(keys), m[Least(keys)])] + SortedEntries(keys - {Least(keys)}, m)
  }

  function Marshal(b: Blob): Wire { Wire(SortedEntries(b.env.Keys, b.env), SortedEntries(b.files.Keys, b.files)) }

  /** Later entries replace earlier ones. */
  function ToMap(es: seq<Entry>): map<string, string> {
    if es == [] then map[] else ToMap(es[..|es| - 1])[es[|es| - 1].key := es[|es| - 1].value]
  }

  function Unmarshal(w: Wire): Blob { Blob(ToMap(w.env), ToMap(w.files)) }

  method EntriesToMap(es: seq<Entry>) returns (m: map<string, string>)
    ensures m == ToMap(es)
  {
    m := map[];
    for i := 0 to |es|
      invariant m == ToMap(es[..i])
    {
      assert es[..i + 1][..i] == es[..i] && es[..i + 1][i] == es[i];
      m := m[es[i].key := es[i].value];
    }
    assert es[..|es|] == es;
  }

  /** Decoding on the host. */
  method Decode(w: Wire) returns (b: Blob)
    ensures b == Unmarshal(w)
  {
    var env := EntriesToMap(w.env);
    var files := EntriesToMap(w.files);
    b := Blob(env, files);
  }

  lemma {:induction false} ToMapConcat(a: seq<Entry>, b: seq<Entry>)
    ensures ToMap(a + b) == ToMap(a) + ToMap(b)
    decreases |b|
  {
    if b == [] {
      assert a + b == a;
    } else {
      ToMapConcat(a, b[..|b| - 1]);
      assert (a + b)[..|a + b| - 1] == a + b[..|b| - 1] && (a + b)[|a + b| - 1] == b[|b| - 1];
    }
  }

  lemma {:induction false} SortedEntriesRoundTrip(keys: set<string>, m: map<string, string>)
    requires keys <= m.Keys
    ensures ToMap(SortedEntries(keys, m)) == map k | k in keys :: m[k]
    decreases |keys|
  {
    if keys != {} {
      var first := Least(keys);
      SortedEntriesRoundTrip(keys - {first}, m);
      var head := [Entry(first, m[first])];
      assert head[..0] == [] && ToMap(head) == map[first := m[first]];
      ToMapConcat(head, SortedEntries(keys - {first}, m));
    }
  }

  /** Unmarshal undoes Marshal, so equal bytes mean equal blobs: the hash moves exactly when content does. */
  lemma MarshalRoundTrip(b: Blob)
    ensures Unmarshal(Marshal(b)) == b
  {
    SortedEntriesRoundTrip(b.env.Keys, b.env);
    SortedEntriesRoundTrip(b.files.Keys, b.files);
    assert (map k | k in b.env.Keys :: b.env[k]) == b.env;
    assert (map k | k in b.files.Keys :: b.files[k]) == b.files;
  }

  lemma SameBytesIff(a: Blob, b: Blob)
    ensures Marshal(a) == Marshal(b) <==> a == b
  {
    MarshalRoundTrip(a);
    MarshalRoundTrip(b);
  }

  // ---- Building the blob on the deploy side ----

  /** The values of a map in the order of some keys: one half of the flat await. */
  function Values(keys: seq<string>, m: map<string, string>): (r: seq<string>)
    requires forall k | k in keys :: k in m
    ensures |r| == |keys|
  {
    if keys == [] then [] else Values(keys[..|keys| - 1], m) + [m[keys[|keys| - 1]]]
  }

  function Zip(keys: seq<string>, values: seq<string>): map<string, string>
    requires |keys| == |values|
  {
    if keys == [] then map[]
    else Zip(keys[..|keys| - 1], values[..|keys| - 1])[keys[|keys| - 1] := values[|keys| - 1]]
  }

  /** Splitting the values back out along the same keys restores the map. */
  lemma {:induction false} ZipValues(keys: seq<string>, m: map<string, string>)
    requires forall k | k in keys :: k in m
    ensures Zip(keys, Values(keys, m)) == map k | k in keys :: m[k]
    ensures "" in Values(keys, m) <==> exists k :: k in keys && m[k] == ""
    decreases |keys|
  {
    if keys != [] {
      var front, last := keys[..|keys| - 1], keys[|keys| - 1];
      ZipValues(front, m);
      assert keys == front + [last];
      assert Values(keys, m)[..|front|] == Values(front, m);
    }
  }

  method Take(keys: seq<string>, values: seq<string>) returns (m: map<string, string>, ok: bool)
    requires |keys| == |values|
    ensures ok <==> "" !in values
    ensures ok ==> m == Zip(keys, values)
  {
    m := map[];
    for i := 0 to |keys|
      invariant "" !in values[..i] && m == Zip(keys[..i], values[..i])
    {
      assert keys[..i + 1][..i] == keys[..i] && values[..i + 1][..i] == values[..i];
      assert values[..i + 1] == values[..i] + [values[i]];
      if values[i] == "" {
        return m, false;
      }
      m := m[keys[i] := values[i]];
    }
    assert keys[..|keys|] == keys && values[..|keys|] == values;
    ok := true;
  }

  /** Splits the flat list of resolved values back into names and files; an empty value is refused. */
  method BlobFrom(names: seq<string>, fileKeys: seq<string>, args: seq<string>) returns (r: Result<Blob>)
    ensures r.Ok? <==> |args| == |names| + |fileKeys| && "" !in args
    ensures r.Ok? ==> r.value == Blob(Zip(names, args[..|names|]), Zip(fileKeys, args[|names|..]))
  {
    if |args| != |names| + |fileKeys| {
      return Err("wrong number of values");
    }
    var a, b := args[..|names|], args[|names|..];
    assert args == a + b;
    var env, ok := Take(names, a);
    if !ok {
      return Err("empty secret");
    }
    var files;
    files, ok := Take(fileKeys, b);
    if !ok {
      return Err("empty file");
    }
    r := Ok(Blob(env, files));
  }

  predicate NoEmptyValue(m: map<string, string>) { forall k | k in m :: m[k] != "" }

  lemma SortedValues(m: map<string, string>)
    ensures Zip(Sorted(m.Keys), Values(Sorted(m.Keys), m)) == m
    ensures "" in Values(Sorted(m.Keys), m) <==> !NoEmptyValue(m)
  {
    ZipValues(Sorted(m.Keys), m);
    assert (map k | k in Sorted(m.Keys) :: m[k]) == m;
    if !NoEmptyValue(m) {
      var k :| k in m && m[k] == "";
      assert k in Sorted(m.Keys);
    }
  }

  /** The blob the host receives is exactly the resolved material, whenever none of it is empty. */
  method DeliveredBlob(env: map<string, string>, files: map<string, string>) returns (r: Result<Blob>)
    ensures r.Ok? <==> NoEmptyValue(env) && NoEmptyValue(files)
    ensures r.Ok? ==> r.value == Blob(env, files)
  {
    var names, fileKeys := Sorted(env.Keys), Sorted(files.Keys);
    var a, b := Values(names, env), Values(fileKeys, files);
    SortedValues(env);
    SortedValues(files);
    assert (a + b)[..|names|] == a && (a + b)[|names|..] == b;
    r := BlobFrom(names, fileKeys, a + b);
  }

  // ---- Merging the two artefacts on the host ----

  /** Both artefacts are optional; a key in both is refused. */
  predicate Disjoint(a: Blob, b: Blob) { a.env.Keys !! b.env.Keys && a.files.Keys !! b.files.Keys }

  method MergeMap(dst: map<string, string>, src: map<string, string>) returns (m: map<string, string>, ok: bool)
    ensures ok <==> dst.Keys !! src.Keys
    ensures ok ==> m == dst + src
  {
    m := dst;
    var todo := src.Keys;
    while todo != {}
      invariant todo <= src.Keys && dst.Keys !! (src.Keys - todo)
      invariant m == dst + map k | k in src.Keys - todo :: src[k]
    {
      var k := Least(todo);
      if k in m {
        assert k in dst;
        return m, false;
      }
      m := m[k := src[k]];
      todo := todo - {k};
    }
    assert (map k | k in src.Keys - todo :: src[k]) == src;
    ok := true;
  }

  method LoadSecretsBlobs(deployed: Option<Blob>, renewed: Option<Blob>) returns (r: Result<Blob>)
    ensures r.Ok? <==> (deployed.Some? && renewed.Some? ==> Disjoint(deployed.value, renewed.value))
    ensures r.Ok? ==> r.value == Merged(deployed, renewed)
  {
    var merged := Blob(map[], map[]);
    var artefacts := [deployed, renewed];
    for i := 0 to 2
      invariant merged == Merged(if i > 0 then deployed else None, if i > 1 then renewed else None)
      invariant i == 2 && deployed.Some? && renewed.Some? ==> Disjoint(deployed.value, renewed.value)
    {
      if artefacts[i].Some? {
        var ok;
        merged, ok := MergeBlob(merged, artefacts[i].value);
        if !ok {
          return Err("a key is present in more than one blob");
        }
      }
    }
    r := Ok(merged);
  }

  method MergeBlob(merged0: Blob, src: Blob) returns (merged: Blob, ok: bool)
    ensures ok <==> Disjoint(merged0, src)
    ensures ok ==> merged == Blob(merged0.env + src.env, merged0.files + src.files)
  {
    var env, envOk := MergeMap(merged0.env, src.env);
    var files, filesOk := MergeMap(merged0.files, src.files);
    merged, ok := Blob(env, files), envOk && filesOk;
  }

  function Merged(deployed: Option<Blob>, renewed: Option<Blob>): Blob {
    var a := if deployed.Some? then deployed.value else Blob(map[], map[]);
    var b := if renewed.Some? then renewed.value else Blob(map[], map[]);
    Blob(a.env + b.env, a.files + b.files)
  }
}
