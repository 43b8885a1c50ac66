/** Grant output templates: literal text and {FIELD} placeholders (internal/grant/grant.go). */
module Template {
  import opened Common

  datatype Segment = Literal(text: string) | Field(name: string)

  predicate Letter(c: char) { 'a' <= c <= 'z' || 'A' <= c <= 'Z' || c == '_' }

  predicate FieldName(s: string) {
    |s| > 0 && Letter(s[0]) && forall c | c in s :: Letter(c) || '0' <= c <= '9'
  }

  /** The first closing brace at or after `from`. */
  function CloseAt(s: string, from: nat): (r: Option<nat>)
    requires from <= |s|
    ensures r.Some? ==> from <= r.value < |s| && s[r.value] == '}' && forall k | from <= k < r.value :: s[k] != '}'
    ensures r.None? ==> forall k | from <= k < |s| :: s[k] != '}'
    decreases |s| - from
  {
    if from == |s| then None else if s[from] == '}' then Some(from) else CloseAt(s, from + 1)
  }

  function Flush(text: string): seq<Segment> { if text == "" then [] else [Literal(text)] }

  function Prepend(a: seq<Segment>, b: Option<seq<Segment>>): Option<seq<Segment>> {
    match b case Some(segs) => Some(a + segs) case None => None
  }

  /** The segments of a template, with `text` collected just before it. */
  function ParseFrom(s: string, text: string): Option<seq<Segment>>
    decreases |s|, 1
  {
    if s == "" then Some(Flush(text)) else ParseNext(s, text)
  }

  function ParseNext(s: string, text: string): Option<seq<Segment>>
    requires s != ""
    decreases |s|, 0
  {
    if s[0] == '{' then
      match CloseAt(s, 1)
      case None => None
      case Some(k) => GroupThen(text, s[1..k], s[k + 1..])
    else if s[0] == '}' then None
    else ParseFrom(s[1..], text + [s[0]])
  }

  /** The collected text, one group, and whatever follows. */
  function GroupThen(text: string, name: string, rest: string): Option<seq<Segment>>
    decreases |rest|, 2
  {
    if FieldName(name) then Prepend(Flush(text) + [Field(name)], ParseFrom(rest, "")) else None
  }

  function Parse(s: string): Option<seq<Segment>> { ParseFrom(s, "") }

  lemma PrependTwice(a: seq<Segment>, b: seq<Segment>, c: Option<seq<Segment>>)
    ensures Prepend(a, Prepend(b, c)) == Prepend(a + b, c)
    ensures Prepend([], c) == c
  {
    if c.Some? { assert [] + c.value == c.value; }
    if c.Some? { assert a + (b + c.value) == (a + b) + c.value; }
  }

  /** The search for a closing brace does not depend on what came before. */
  lemma {:induction false} CloseAtSuffix(s: string, i: nat, from: nat)
    requires i <= from <= |s|
    ensures CloseAt(s, from) == match CloseAt(s[i..], from - i) case Some(k) => Some(i + k) case None => None
    decreases |s| - from
  {
    if from < |s| && s[from] != '}' { CloseAtSuffix(s, i, from + 1); }
  }

  /** What an opening brace does, without a second look at the text behind the group. */
  lemma OpensGroup(t: string, text: string)
    requires |t| > 0 && t[0] == '{'
    ensures ParseFrom(t, text) ==
      match CloseAt(t, 1) case None => None case Some(k) => GroupThen(text, t[1..k], t[k + 1..])
  {
    assert ParseFrom(t, text) == ParseNext(t, text);
  }

  lemma GroupStep(s: string, i: nat, text: string)
    requires i < |s| && s[i] == '{'
    ensures ParseFrom(s[i..], text) ==
      match CloseAt(s, i + 1) case None => None case Some(k) => GroupThen(text, s[i + 1..k], s[k + 1..])
  {
    OpensGroup(s[i..], text);
    CloseAtSuffix(s, i, i + 1);
    if CloseAt(s, i + 1).Some? {
      var k := CloseAt(s, i + 1).value;
      SuffixSlices(s, i, k);
    }
  }

  lemma SuffixSlices(s: string, i: nat, k: nat)
    requires i < k < |s|
    ensures s[i..][1..k - i] == s[i + 1..k] && s[i..][k - i + 1..] == s[k + 1..]
  {
  }

  /** One placeholder: the collected text and the field join the segments. */
  method TakeGroup(s: string, i: nat, text: string, segs0: seq<Segment>)
    returns (segs: seq<Segment>, next: nat, ok: bool)
    requires i < |s| && s[i] == '{'
    ensures ok ==> i < next <= |s| && Prepend(segs0, ParseFrom(s[i..], text)) == Prepend(segs, ParseFrom(s[next..], ""))
    ensures !ok ==> ParseFrom(s[i..], text) == None
  {
    segs, next := segs0, i;
    var close := CloseAt(s, i + 1);
    GroupStep(s, i, text);
    if close.None? || !FieldName(s[i + 1..close.value]) {
      return segs, next, false;
    }
    next := close.value + 1;
    var group := Flush(text) + [Field(s[i + 1..close.value])];
    PrependTwice(segs0, group, ParseFrom(s[next..], ""));
    segs := segs0 + group;
    ok := true;
  }

  method ParseTemplate(s: string) returns (r: Option<seq<Segment>>)
    ensures r == Parse(s)
  {
    var segs: seq<Segment> := [];
    var text := "";
    var i := 0;
    PrependTwice([], [], Parse(s));
    assert s[0..] == s;
    while i < |s|
      invariant i <= |s| && Parse(s) == Prepend(segs, ParseFrom(s[i..], text))
      decreases |s| - i
    {
      if s[i] == '{' {
        var ok;
        segs, i, ok := TakeGroup(s, i, text, segs);
        if !ok { return None; }
        text := "";
      } else if s[i] == '}' {
        return None;
      } else {
        assert s[i..][1..] == s[i + 1..];
        text := text + [s[i]];
        i := i + 1;
      }
    }
    r := Some(segs + Flush(text));
  }

  // ---- Printing ----

  function PrintOne(g: Segment): string {
    match g case Literal(text) => text case Field(name) => Group(name)
  }

  function Group(name: string): string { ['{'] + name + ['}'] }

  function Print(segs: seq<Segment>): string {
    if segs == [] then "" else PrintOne(segs[0]) + Print(segs[1..])
  }

  predicate Braceless(s: string) { '{' !in s && '}' !in s }

  /** What parsing yields: no empty and no adjacent literals, no brace in a literal, only well-formed names. */
  predicate Canonical(segs: seq<Segment>) {
    && (forall i | 0 <= i < |segs| ::
          match segs[i] case Literal(text) => text != "" && Braceless(text) case Field(name) => FieldName(name))
    && (forall i | 0 <= i < |segs| - 1 :: segs[i].Field? || segs[i + 1].Field?)
  }

  lemma {:induction false} PrintConcat(a: seq<Segment>, b: seq<Segment>)
    ensures Print(a + b) == Print(a) + Print(b)
    decreases |a|
  {
    if a == [] {
      assert a + b == b;
    } else {
      var c, head := a + b, PrintOne(a[0]);
      assert c[0] == a[0] && c[1..] == a[1..] + b;
      calc {
        Print(c);
        head + Print(a[1..] + b);
        { PrintConcat(a[1..], b); }
        head + (Print(a[1..]) + Print(b));
        { Assoc(head, Print(a[1..]), Print(b)); }
        Print(a) + Print(b);
      }
    }
  }

  lemma Assoc<T>(a: seq<T>, b: seq<T>, c: seq<T>)
    ensures (a + b) + c == a + (b + c)
  {
  }

  lemma PrintFlushed(text: string, name: string, rest: seq<Segment>)
    ensures Print(Flush(text) + [Field(name)] + rest) == text + (Group(name) + Print(rest))
  {
    var last := [Field(name)];
    PrintConcat(Flush(text) + last, rest);
    PrintConcat(Flush(text), last);
    assert last[1..] == [] && Print(last) == Group(name) + Print([]) == Group(name);
    if text != "" { assert Flush(text)[1..] == [] && Print(Flush(text)) == text + Print([]) == text; }
    Assoc(text, Group(name), Print(rest));
  }

  lemma GroupSplit(s: string, k: nat)
    requires 0 < k < |s| && s[0] == '{' && s[k] == '}'
    ensures s == Group(s[1..k]) + s[k + 1..]
  {
  }

  lemma CanonicalFlushed(text: string, name: string, rest: seq<Segment>)
    requires Braceless(text) && FieldName(name) && Canonical(rest)
    ensures Canonical(Flush(text) + [Field(name)] + rest)
  {
  }

  /** Printing what was parsed gives the template back, and what was parsed is canonical. */
  lemma {:induction false} PrintOfParseFrom(s: string, text: string)
    requires Braceless(text) && ParseFrom(s, text).Some?
    ensures Print(ParseFrom(s, text).value) == text + s && Canonical(ParseFrom(s, text).value)
    decreases |s|
  {
    if s == "" {
      if text != "" { assert Flush(text)[1..] == [] && Print(Flush(text)) == text + Print([]) == text; }
      assert text + s == text;
    } else if s[0] == '{' {
      OpensGroup(s, text);
      var k := CloseAt(s, 1).value;
      PrintOfParseFrom(s[k + 1..], "");
      var rest := ParseFrom(s[k + 1..], "").value;
      assert "" + s[k + 1..] == s[k + 1..];
      PrintFlushed(text, s[1..k], rest);
      CanonicalFlushed(text, s[1..k], rest);
      GroupSplit(s, k);
    } else {
      PrintOfParseFrom(s[1..], text + [s[0]]);
      assert s == [s[0]] + s[1..];
      Assoc(text, [s[0]], s[1..]);
    }
  }

  lemma PrintOfParse(s: string)
    requires Parse(s).Some?
    ensures Print(Parse(s).value) == s && Canonical(Parse(s).value)
  {
    PrintOfParseFrom(s, "");
    assert "" + s == s;
  }

  lemma {:induction false} LiteralParses(a: string, b: string, text: string)
    requires Braceless(a)
    ensures ParseFrom(a + b, text) == ParseFrom(b, text + a)
    decreases |a|
  {
    if a == "" {
      assert a + b == b && text + a == text;
    } else {
      assert a[0] in a && forall c | c in a[1..] :: c in a;
      LiteralParses(a[1..], b, text + [a[0]]);
      assert (a + b)[1..] == a[1..] + b && (a + b)[0] == a[0];
      assert (text + [a[0]]) + a[1..] == text + a;
    }
  }

  lemma GroupCloses(name: string, b: string)
    requires FieldName(name)
    ensures CloseAt(Group(name) + b, 1) == Some(|name| + 1)
    ensures (Group(name) + b)[0] == '{' && (Group(name) + b)[1..|name| + 1] == name
         && (Group(name) + b)[|name| + 2..] == b
  {
    var s := Group(name) + b;
    forall j | 1 <= j < |name| + 1 ensures s[j] != '}' { assert s[j] == name[j - 1] && name[j - 1] in name; }
    assert s[|name| + 1] == '}';
  }

  lemma GroupParses(name: string, b: string, text: string)
    requires FieldName(name)
    ensures ParseFrom(Group(name) + b, text) == Prepend(Flush(text) + [Field(name)], ParseFrom(b, ""))
  {
    GroupCloses(name, b);
    OpensGroup(Group(name) + b, text);
  }

  lemma CanonicalTail(segs: seq<Segment>)
    requires Canonical(segs) && segs != []
    ensures Canonical(segs[1..])
    ensures segs[0].Literal? && |segs| > 1 ==> segs[1].Field?
  {
  }

  /** What a printed canonical list parses to, behind a literal already collected. */
  lemma {:induction false} ParseOfPrintFrom(text: string, segs: seq<Segment>)
    requires Canonical(segs) && (text != "" && segs != [] ==> segs[0].Field?)
    ensures ParseFrom(Print(segs), text) == Some(Flush(text) + segs)
    decreases |segs|
  {
    if segs == [] {
      assert Flush(text) + segs == Flush(text);
    } else {
      var rest := segs[1..];
      CanonicalTail(segs);
      assert segs == [segs[0]] + rest;
      if segs[0].Field? {
        ParseOfPrintFrom("", rest);
        GroupParses(segs[0].name, Print(rest), text);
        assert Flush("") + rest == rest;
        Assoc(Flush(text), [segs[0]], rest);
      } else {
        var lit := segs[0].text;
        ParseOfPrintFrom(lit, rest);
        LiteralParses(lit, Print(rest), "");
        assert "" + lit == lit && Flush("") + segs == segs;
      }
    }
  }

  lemma ParseOfPrint(segs: seq<Segment>)
    requires Canonical(segs)
    ensures Parse(Print(segs)) == Some(segs)
  {
    assert Flush("") + segs == segs;
    ParseOfPrintFrom("", segs);
  }

  // ---- The grammar ----

  /** Text without braces and groups in braces around a field name, in any number and order. */
  ghost predicate Braced(s: string)
    decreases |s|
  {
    || s == ""
    || (s[0] !in "{}" && Braced(s[1..]))
    || exists k :: 1 <= k < |s| && s[0] == '{' && s[k] == '}' && FieldName(s[1..k]) && Braced(s[k + 1..])
  }

  /** A name has no closing brace, so a group ends at the first one. */
  lemma GroupEndsAtFirst(t: string, k: nat, j: nat)
    requires 1 <= k < |t| && t[k] == '}' && 1 <= j < |t| && t[j] == '}' && FieldName(t[1..j])
    requires forall m | 1 <= m < k :: t[m] != '}'
    ensures j == k
  {
    forall m | 1 <= m < j ensures t[m] != '}' { assert t[m] in t[1..j]; }
  }

  lemma BracedGroupIff(t: string)
    requires t != "" && t[0] == '{'
    ensures Braced(t) <==>
      CloseAt(t, 1).Some? && FieldName(t[1..CloseAt(t, 1).value]) && Braced(t[CloseAt(t, 1).value + 1..])
  {
    if j :| 1 <= j < |t| && t[0] == '{' && t[j] == '}' && FieldName(t[1..j]) && Braced(t[j + 1..]) {
      GroupEndsAtFirst(t, CloseAt(t, 1).value, j);
    }
  }

  lemma {:induction false} ParsesIffBracedFrom(s: string, text: string)
    ensures ParseFrom(s, text).Some? <==> Braced(s)
    decreases |s|
  {
    if s != "" && s[0] == '{' {
      BracedGroupIff(s);
      OpensGroup(s, text);
      if CloseAt(s, 1).Some? { ParsesIffBracedFrom(s[CloseAt(s, 1).value + 1..], ""); }
    } else if s != "" && s[0] != '}' {
      ParsesIffBracedFrom(s[1..], text + [s[0]]);
    }
  }

  /** Parsing succeeds exactly on the brace grammar. */
  lemma ParsesIffBraced(s: string)
    ensures Parse(s).Some? <==> Braced(s)
  {
    ParsesIffBracedFrom(s, "");
  }

  // ---- Fields and interpolation ----

  function Fields(segs: seq<Segment>): seq<string> {
    if segs == [] then [] else (if segs[0].Field? then [segs[0].name] else []) + Fields(segs[1..])
  }

  function Interpolated(segs: seq<Segment>, values: map<string, string>): Option<string> {
    if segs == [] then Some("")
    else
      var head := match segs[0] case Literal(text) => Some(text)
                                case Field(name) => if name in values then Some(values[name]) else None;
      var rest := Interpolated(segs[1..], values);
      if head.Some? && rest.Some? then Some(head.value + rest.value) else None
  }

  method FieldsOf(segs: seq<Segment>) returns (out: seq<string>)
    ensures out == Fields(segs)
  {
    out := [];
    for i := 0 to |segs|
      invariant out + Fields(segs[i..]) == Fields(segs)
    {
      if segs[i].Field? { out := out + [segs[i].name]; }
    }
  }

  method HasLiteral(segs: seq<Segment>) returns (r: bool)
    requires Canonical(segs)
    ensures r <==> |Fields(segs)| < |segs|
  {
    ghost var fields := 0;
    for i := 0 to |segs|
      invariant fields == i && |Fields(segs)| == i + |Fields(segs[i..])|
    {
      if segs[i].Literal? && segs[i].text != "" {
        FieldsAtMost(segs[i + 1..]);
        return true;
      }
      fields := fields + 1;
    }
    r := false;
  }

  lemma {:induction false} FieldsAtMost(segs: seq<Segment>)
    ensures |Fields(segs)| <= |segs|
    decreases |segs|
  {
    if segs != [] { FieldsAtMost(segs[1..]); }
  }

  function Join(a: string, b: Option<string>): Option<string> { match b case Some(t) => Some(a + t) case None => None }

  lemma JoinTwice(a: string, b: string, c: Option<string>)
    ensures Join(a, Join(b, c)) == Join(a + b, c) && Join("", c) == c
  {
    if c.Some? { Assoc(a, b, c.value); assert "" + c.value == c.value; }
  }

  method Interpolate(segs: seq<Segment>, values: map<string, string>) returns (r: Option<string>)
    ensures r == Interpolated(segs, values)
  {
    var b := "";
    JoinTwice("", "", Interpolated(segs, values));
    assert segs[0..] == segs;
    for i := 0 to |segs|
      invariant Interpolated(segs, values) == Join(b, Interpolated(segs[i..], values))
    {
      assert segs[i..][1..] == segs[i + 1..] && segs[i..][0] == segs[i];
      if segs[i].Field? {
        if segs[i].name !in values {
          return None;
        }
        JoinTwice(b, values[segs[i].name], Interpolated(segs[i + 1..], values));
        b := b + values[segs[i].name];
      } else {
        JoinTwice(b, segs[i].text, Interpolated(segs[i + 1..], values));
        b := b + segs[i].text;
      }
    }
    assert segs[|segs|..] == [] && b + "" == b;
    r := Some(b);
  }

  /** Interpolation fails exactly when a referenced field has no value. */
  lemma {:induction false} InterpolatesIff(segs: seq<Segment>, values: map<string, string>)
    ensures Interpolated(segs, values).Some? <==> forall f | f in Fields(segs) :: f in values
    decreases |segs|
  {
    if segs != [] { InterpolatesIff(segs[1..], values); }
  }

  /** Giving each field its own placeholder undoes the parse. */
  lemma {:induction false} PlaceholdersGiveSource(segs: seq<Segment>, values: map<string, string>)
    requires forall f | f in Fields(segs) :: f in values && values[f] == Group(f)
    ensures Interpolated(segs, values) == Some(Print(segs))
    decreases |segs|
  {
    if segs != [] { PlaceholdersGiveSource(segs[1..], values); }
  }

  /** Substitution is exact: with every field given, the result is the template with each placeholder replaced. */
  lemma {:induction false} InterpolationSplits(a: seq<Segment>, b: seq<Segment>, values: map<string, string>)
    ensures Interpolated(a + b, values) ==
      (if Interpolated(a, values).Some? then Join(Interpolated(a, values).value, Interpolated(b, values)) else None)
    decreases |a|
  {
    if a == [] {
      assert a + b == b;
      JoinTwice("", "", Interpolated(b, values));
    } else {
      InterpolationSplits(a[1..], b, values);
      assert (a + b)[1..] == a[1..] + b && (a + b)[0] == a[0];
      if Interpolated(a, values).Some? && Interpolated(b, values).Some? {
        Assoc(if a[0].Literal? then a[0].text else values[a[0].name],
              Interpolated(a[1..], values).value, Interpolated(b, values).value);
      }
    }
  }

  method FileField(tmpl: string) returns (r: Option<string>)
    ensures r == LoneField(tmpl)
  {
    var t := ParseTemplate(tmpl);
    if t.None? {
      return None;
    }
    PrintOfParse(tmpl);
    var fields := FieldsOf(t.value);
    var literal := HasLiteral(t.value);
    FieldsAtMost(t.value);
    if literal || |fields| != 1 {
      return None;
    }
    assert t.value == [t.value[0]] && t.value[1..] == [];
    r := Some(fields[0]);
  }

  /** The field of a template that is one placeholder and nothing else. */
  function LoneField(tmpl: string): Option<string> {
    match Parse(tmpl)
    case Some(segs) => if |segs| == 1 && segs[0].Field? then Some(segs[0].name) else None
    case None => None
  }

  lemma LoneFieldIff(tmpl: string, f: string)
    ensures LoneField(tmpl) == Some(f) <==> FieldName(f) && tmpl == Group(f)
  {
    var segs := [Field(f)];
    assert segs[1..] == [] && Print(segs) == Group(f) + Print([]) == Group(f);
    if FieldName(f) && tmpl == Group(f) { ParseOfPrint(segs); }
    if LoneField(tmpl) == Some(f) {
      PrintOfParse(tmpl);
      assert Parse(tmpl).value == segs;
    }
  }
}
