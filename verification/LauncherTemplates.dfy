/** `recurseReplace` (source/main/utils/config.js): `${VAR}` substitution over a parsed launcher config. */
module LauncherTemplates {
  import opened Wrappers

  type Env = map<string, string>

  /** What the YAML parser answers; `Scalar` stands for numbers, booleans and anything else that is kept as it is. */
  datatype Yaml =
    | Text(text: string)
    | List(items: seq<Yaml>)
    | Dict(fields: seq<Field>)
    | Null
    | Scalar(n: int)

  datatype Field = Field(key: string, value: Yaml)

  // Strings: the regular expression /\${([^}]+)}/g.

  /** The position of the first closing brace, or the length. */
  function FirstClose(s: string): nat
    ensures FirstClose(s) <= |s|
    ensures forall i :: 0 <= i < FirstClose(s) ==> s[i] != '}'
    ensures FirstClose(s) < |s| ==> s[FirstClose(s)] == '}'
  {
    if s == "" || s[0] == '}' then 0 else FirstClose(s[1..]) + 1
  }

  /** The name in a placeholder that `s` begins with. */
  function NameAt(s: string): (name: Option<string>)
    ensures name.Some? ==> name.value != "" && '}' !in name.value && "${" + name.value + "}" <= s
  {
    if |s| >= 2 && s[0] == '$' && s[1] == '{' then
      var n := FirstClose(s[2..]);
      if n == 0 || 2 + n == |s| then None
      else
        assert s[..n + 3] == "${" + s[2..n + 2] + "}";
        Some(s[2..n + 2])
    else None
  }

  /** A variable that is undefined or empty is replaced by nothing. */
  function ValueOf(name: string, env: Env): string {
    if name in env && env[name] != "" then env[name] else ""
  }

  function Replace(s: string, env: Env): string {
    if s == "" then ""
    else match NameAt(s)
      case None => [s[0]] + Replace(s[1..], env)
      case Some(name) => ValueOf(name, env) + Replace(s[|name| + 3..], env)
  }

  /** The names of the placeholders that a left-to-right scan finds. */
  function Names(s: string): set<string> {
    if s == "" then {}
    else match NameAt(s)
      case None => Names(s[1..])
      case Some(name) => {name} + Names(s[|name| + 3..])
  }

  // Trees.

  function Replaced(t: Yaml, env: Env): Yaml
    decreases t, 1
  {
    match t
    case Text(s) => Text(Replace(s, env))
    case List(items) => List(ReplacedItems(items, env))
    case Dict(fields) => Dict(ReplacedFields(fields, env))
    case _ => t
  }

  function ReplacedItems(items: seq<Yaml>, env: Env): seq<Yaml>
    decreases items, 0
  {
    if items == [] then [] else [Replaced(items[0], env)] + ReplacedItems(items[1..], env)
  }

  function ReplacedFields(fields: seq<Field>, env: Env): seq<Field>
    decreases fields, 0
  {
    if fields == [] then []
    else [Field(fields[0].key, Replaced(fields[0].value, env))] + ReplacedFields(fields[1..], env)
  }

  lemma ItemsStep(items: seq<Yaml>, idx: nat, env: Env)
    requires idx < |items|
    ensures ReplacedItems(items[idx..], env) == [Replaced(items[idx], env)] + ReplacedItems(items[idx + 1..], env)
  {
    assert items[idx..][1..] == items[idx + 1..];
  }

  lemma FieldsStep(fields: seq<Field>, idx: nat, env: Env)
    requires idx < |fields|
    ensures ReplacedFields(fields[idx..], env) ==
            [Field(fields[idx].key, Replaced(fields[idx].value, env))] + ReplacedFields(fields[idx + 1..], env)
  {
    assert fields[idx..][1..] == fields[idx + 1..];
  }

  method RecurseReplace(obj: Yaml, env: Env) returns (r: Yaml)
    ensures r == Replaced(obj, env)
    decreases obj, 1
  {
    match obj {
      case List(items) =>
        var out := ReplaceArray(items, env);
        r := List(out);
      case Dict(fields) =>
        var out := ReplaceObject(fields, env);
        r := Dict(out);
      case Text(s) =>
        r := Text(Replace(s, env));
      case _ =>
        r := obj;
    }
  }

  /** The loop over the indices of an array. */
  method ReplaceArray(items: seq<Yaml>, env: Env) returns (out: seq<Yaml>)
    ensures out == ReplacedItems(items, env)
    decreases items, 0
  {
    out := [];
    for idx := 0 to |items|
      invariant ReplacedItems(items, env) == out + ReplacedItems(items[idx..], env)
    {
      var item := RecurseReplace(items[idx], env);
      ItemsStep(items, idx, env);
      out := out + [item];
    }
  }

  /** The loop over the keys of an object. */
  method ReplaceObject(fields: seq<Field>, env: Env) returns (out: seq<Field>)
    ensures out == ReplacedFields(fields, env)
    decreases fields, 0
  {
    out := [];
    for idx := 0 to |fields|
      invariant ReplacedFields(fields, env) == out + ReplacedFields(fields[idx..], env)
    {
      var value := RecurseReplace(fields[idx].value, env);
      FieldsStep(fields, idx, env);
      out := out + [Field(fields[idx].key, value)];
    }
  }

  /** The same tree but for the texts: lengths, keys and their order, and every other leaf. */
  predicate SameShape(t: Yaml, u: Yaml)
    decreases t, 1
  {
    match (t, u)
    case (Text(_), Text(_)) => true
    case (List(xs), List(ys)) => SameItems(xs, ys)
    case (Dict(xs), Dict(ys)) => SameFields(xs, ys)
    case _ => t == u
  }

  predicate SameItems(xs: seq<Yaml>, ys: seq<Yaml>)
    decreases xs, 0
  {
    |xs| == |ys| && (xs == [] || (SameShape(xs[0], ys[0]) && SameItems(xs[1..], ys[1..])))
  }

  predicate SameFields(xs: seq<Field>, ys: seq<Field>)
    decreases xs, 0
  {
    |xs| == |ys| &&
    (xs == [] || (xs[0].key == ys[0].key && SameShape(xs[0].value, ys[0].value) && SameFields(xs[1..], ys[1..])))
  }

  lemma {:induction false} ReplacingKeepsShape(t: Yaml, env: Env)
    ensures SameShape(t, Replaced(t, env))
    decreases t, 1
  {
    match t
    case List(items) => ReplacingItemsKeepsShape(items, env);
    case Dict(fields) => ReplacingFieldsKeepsShape(fields, env);
    case _ =>
  }

  lemma {:induction false} ReplacingItemsKeepsShape(items: seq<Yaml>, env: Env)
    ensures SameItems(items, ReplacedItems(items, env))
    decreases items, 0
  {
    if items != [] {
      ReplacingKeepsShape(items[0], env);
      ReplacingItemsKeepsShape(items[1..], env);
    }
  }

  lemma {:induction false} ReplacingFieldsKeepsShape(fields: seq<Field>, env: Env)
    ensures SameFields(fields, ReplacedFields(fields, env))
    decreases fields, 0
  {
    if fields != [] {
      ReplacingKeepsShape(fields[0].value, env);
      ReplacingFieldsKeepsShape(fields[1..], env);
    }
  }

  // What is put in.

  lemma {:induction false} CloseAfterName(name: string, rest: string)
    requires '}' !in name
    ensures FirstClose(name + "}" + rest) == |name|
  {
    var s := name + "}" + rest;
    if name == "" {
      assert s[0] == '}';
    } else {
      assert s[0] == name[0] && name[0] in name;
      assert s[1..] == name[1..] + "}" + rest;
      CloseAfterName(name[1..], rest);
    }
  }

  lemma PlaceholderFirst(name: string, rest: string)
    requires name != "" && '}' !in name
    ensures NameAt("${" + name + "}" + rest) == Some(name)
  {
    var s := "${" + name + "}" + rest;
    CloseAfterName(name, rest);
    assert s[2..] == name + "}" + rest;
    assert s[2..|name| + 2] == name;
  }

  lemma PlaceholderHere(name: string, rest: string, env: Env)
    requires name != "" && '}' !in name
    ensures Replace("${" + name + "}" + rest, env) == (if name in env then env[name] else "") + Replace(rest, env)
  {
    var s := "${" + name + "}" + rest;
    PlaceholderFirst(name, rest);
    assert s[|name| + 3..] == rest;
  }

  lemma {:induction false} PlainPrefixStays(a: string, s: string, env: Env)
    requires '$' !in a
    ensures Replace(a + s, env) == a + Replace(s, env)
  {
    if a == "" {
      assert a + s == s;
    } else {
      assert (a + s)[0] == a[0] && a[0] in a && (a + s)[1..] == a[1..] + s;
      PlainPrefixStays(a[1..], s, env);
    }
  }

  /** A placeholder becomes the value of its variable, or nothing if that is undefined; what comes before it, up to the
      first dollar sign, stays, and what comes after it is replaced in turn. */
  lemma PlaceholderBecomesValue(a: string, name: string, rest: string, env: Env)
    requires '$' !in a && name != "" && '}' !in name
    ensures Replace(a + ("${" + name + "}" + rest), env) ==
            a + ((if name in env then env[name] else "") + Replace(rest, env))
  {
    PlainPrefixStays(a, "${" + name + "}" + rest, env);
    PlaceholderHere(name, rest, env);
  }

  lemma PlainTextStays(s: string, env: Env)
    requires '$' !in s
    ensures Replace(s, env) == s
  {
    PlainPrefixStays(s, "", env);
    assert s + "" == s;
  }

  /** What a path of positions leads to. */
  function Below(t: Yaml, path: seq<nat>): Option<Yaml>
    decreases |path|
  {
    if path == [] then Some(t)
    else match t
      case List(items) => if path[0] < |items| then Below(items[path[0]], path[1..]) else None
      case Dict(fields) => if path[0] < |fields| then Below(fields[path[0]].value, path[1..]) else None
      case _ => None
  }

  lemma {:induction false} ItemReplaced(items: seq<Yaml>, i: nat, env: Env)
    requires i < |items|
    ensures |ReplacedItems(items, env)| == |items| && ReplacedItems(items, env)[i] == Replaced(items[i], env)
  {
    if i > 0 {
      ItemReplaced(items[1..], i - 1, env);
    } else if |items| > 1 {
      ItemReplaced(items[1..], 0, env);
    }
  }

  lemma {:induction false} FieldReplaced(fields: seq<Field>, i: nat, env: Env)
    requires i < |fields|
    ensures |ReplacedFields(fields, env)| == |fields|
    ensures ReplacedFields(fields, env)[i] == Field(fields[i].key, Replaced(fields[i].value, env))
  {
    if i > 0 {
      FieldReplaced(fields[1..], i - 1, env);
    } else if |fields| > 1 {
      FieldReplaced(fields[1..], 0, env);
    }
  }

  /** Every text of the tree, however deep, is replaced once, where it stands. */
  lemma {:induction false} EveryTextIsReplaced(t: Yaml, path: seq<nat>, s: string, env: Env)
    requires Below(t, path) == Some(Text(s))
    ensures Below(Replaced(t, env), path) == Some(Text(Replace(s, env)))
    decreases |path|
  {
    if path != [] {
      match t
      case List(items) =>
        ItemReplaced(items, path[0], env);
        EveryTextIsReplaced(items[path[0]], path[1..], s, env);
      case Dict(fields) =>
        FieldReplaced(fields, path[0], env);
        EveryTextIsReplaced(fields[path[0]].value, path[1..], s, env);
    }
  }

  // A second pass.

  /** No placeholder begins anywhere in `s`. */
  ghost predicate Resolved(s: string) {
    forall i :: 0 <= i <= |s| ==> NameAt(s[i..]) == None
  }

  /** The variable has a value, and none that could take part in a placeholder. */
  predicate Clean(name: string, env: Env) {
    var v := ValueOf(name, env);
    v != "" && '$' !in v && '{' !in v && '}' !in v
  }

  predicate AllClean(names: set<string>, env: Env) {
    forall name :: name in names ==> Clean(name, env)
  }

  lemma NameAtTail(s: string)
    requires s != ""
    ensures Resolved(s) <==> NameAt(s) == None && Resolved(s[1..])
  {
    assert s[0..] == s;
    if Resolved(s) {
      forall i | 0 <= i <= |s[1..]| ensures NameAt(s[1..][i..]) == None {
        assert s[1..][i..] == s[i + 1..];
      }
    }
    if NameAt(s) == None && Resolved(s[1..]) {
      forall i | 0 <= i <= |s| ensures NameAt(s[i..]) == None {
        if i > 0 {
          assert s[1..][i - 1..] == s[i..];
        }
      }
    }
  }

  lemma {:induction false} PlainPrefix(v: string, s: string)
    requires '$' !in v
    requires Resolved(s)
    ensures Resolved(v + s)
  {
    if v == "" {
      assert v + s == s;
    } else {
      var t := v + s;
      PlainPrefix(v[1..], s);
      assert t[1..] == v[1..] + s;
      assert t[0] == v[0] && v[0] in v;
      NameAtTail(t);
    }
  }

  lemma {:induction false} NoCloseNoChange(s: string, env: Env)
    requires '}' !in s
    ensures Replace(s, env) == s && NameAt(s) == None
  {
    if s != "" {
      assert |s| >= 2 ==> '}' !in s[2..];
      NoCloseNoChange(s[1..], env);
    }
  }

  lemma ValueComesFirst(s: string, env: Env)
    requires AllClean(Names(s), env) && s != "" && NameAt(s).Some?
    ensures Replace(s, env) != "" && Replace(s, env)[0] != '{'
  {
    var name := NameAt(s).value;
    assert name in Names(s) && Clean(name, env);
    var v := ValueOf(name, env);
    assert v[0] in v && Replace(s, env)[0] == v[0];
  }

  /** Clean values never begin with an opening brace, so one at the front of a result was there before. */
  lemma BraceWasThere(s: string, env: Env)
    requires AllClean(Names(s), env)
    requires Replace(s, env) != "" && Replace(s, env)[0] == '{'
    ensures s[0] == '{' && NameAt(s) == None
  {
    if NameAt(s).Some? {
      ValueComesFirst(s, env);
    }
  }

  /** An opening that its text does not close, or closes at once, is no placeholder in the result either. */
  lemma OpeningStaysPlain(tail: string, env: Env)
    requires NameAt("${" + tail) == None
    ensures NameAt("${" + Replace(tail, env)) == None
  {
    assert ("${" + tail)[2..] == tail;
    if '}' !in tail {
      NoCloseNoChange(tail, env);
    } else {
      assert FirstClose(tail) == 0;
      assert NameAt(tail) == None;
      assert ("${" + Replace(tail, env))[2..] == Replace(tail, env);
    }
  }

  /** A dollar sign that begins no placeholder begins none in the result either. */
  lemma DollarStaysPlain(s: string, env: Env)
    requires |s| > 0 && NameAt(s) == None && AllClean(Names(s), env)
    ensures NameAt([s[0]] + Replace(s[1..], env)) == None
  {
    var rest := s[1..];
    var r := Replace(rest, env);
    if s[0] == '$' && r != "" && r[0] == '{' {
      BraceWasThere(rest, env);
      var tail := rest[1..];
      assert s == "${" + tail;
      OpeningStaysPlain(tail, env);
      assert [s[0]] + r == "${" + Replace(tail, env);
    }
  }

  lemma PlainCharacter(s: string, env: Env)
    requires s != "" && NameAt(s) == None && AllClean(Names(s), env)
    requires Resolved(Replace(s[1..], env))
    ensures Resolved(Replace(s, env))
  {
    var r := [s[0]] + Replace(s[1..], env);
    DollarStaysPlain(s, env);
    assert r[1..] == Replace(s[1..], env);
    NameAtTail(r);
  }

  /** When every referenced variable is clean, nothing in the result can be taken for a placeholder. */
  lemma {:induction false} ReplaceResolves(s: string, env: Env)
    requires AllClean(Names(s), env)
    ensures Resolved(Replace(s, env))
  {
    if s != "" {
      match NameAt(s) {
        case None =>
          ReplaceResolves(s[1..], env);
          PlainCharacter(s, env);
        case Some(name) =>
          assert name in Names(s) && Clean(name, env);
          ReplaceResolves(s[|name| + 3..], env);
          PlainPrefix(ValueOf(name, env), Replace(s[|name| + 3..], env));
      }
    }
  }

  /** A text without placeholders is left alone. */
  lemma {:induction false} ResolvedIsFixed(s: string, env: Env)
    requires Resolved(s)
    ensures Replace(s, env) == s
  {
    if s != "" {
      NameAtTail(s);
      ResolvedIsFixed(s[1..], env);
    }
  }

  function TreeNames(t: Yaml): set<string>
    decreases t, 1
  {
    match t
    case Text(s) => Names(s)
    case List(items) => ItemNames(items)
    case Dict(fields) => FieldNames(fields)
    case _ => {}
  }

  function ItemNames(items: seq<Yaml>): set<string>
    decreases items, 0
  {
    if items == [] then {} else TreeNames(items[0]) + ItemNames(items[1..])
  }

  function FieldNames(fields: seq<Field>): set<string>
    decreases fields, 0
  {
    if fields == [] then {} else TreeNames(fields[0].value) + FieldNames(fields[1..])
  }

  ghost predicate TreeResolved(t: Yaml)
    decreases t, 1
  {
    match t
    case Text(s) => Resolved(s)
    case List(items) => ItemsResolved(items)
    case Dict(fields) => FieldsResolved(fields)
    case _ => true
  }

  ghost predicate ItemsResolved(items: seq<Yaml>)
    decreases items, 0
  {
    items == [] || (TreeResolved(items[0]) && ItemsResolved(items[1..]))
  }

  ghost predicate FieldsResolved(fields: seq<Field>)
    decreases fields, 0
  {
    fields == [] || (TreeResolved(fields[0].value) && FieldsResolved(fields[1..]))
  }

  lemma {:induction false} TreeResolves(t: Yaml, env: Env)
    requires AllClean(TreeNames(t), env)
    ensures TreeResolved(Replaced(t, env))
    decreases t, 1
  {
    match t
    case Text(s) => ReplaceResolves(s, env);
    case List(items) => ItemsResolve(items, env);
    case Dict(fields) => FieldsResolve(fields, env);
    case _ =>
  }

  lemma {:induction false} ItemsResolve(items: seq<Yaml>, env: Env)
    requires AllClean(ItemNames(items), env)
    ensures ItemsResolved(ReplacedItems(items, env))
    decreases items, 0
  {
    if items != [] {
      TreeResolves(items[0], env);
      ItemsResolve(items[1..], env);
    }
  }

  lemma {:induction false} FieldsResolve(fields: seq<Field>, env: Env)
    requires AllClean(FieldNames(fields), env)
    ensures FieldsResolved(ReplacedFields(fields, env))
    decreases fields, 0
  {
    if fields != [] {
      TreeResolves(fields[0].value, env);
      FieldsResolve(fields[1..], env);
    }
  }

  lemma {:induction false} ResolvedTreeIsFixed(t: Yaml, env: Env)
    requires TreeResolved(t)
    ensures Replaced(t, env) == t
    decreases t, 1
  {
    match t
    case Text(s) => ResolvedIsFixed(s, env);
    case List(items) => ResolvedItemsAreFixed(items, env);
    case Dict(fields) => ResolvedFieldsAreFixed(fields, env);
    case _ =>
  }

  lemma {:induction false} ResolvedItemsAreFixed(items: seq<Yaml>, env: Env)
    requires ItemsResolved(items)
    ensures ReplacedItems(items, env) == items
    decreases items, 0
  {
    if items != [] {
      ResolvedTreeIsFixed(items[0], env);
      ResolvedItemsAreFixed(items[1..], env);
    }
  }

  lemma {:induction false} ResolvedFieldsAreFixed(fields: seq<Field>, env: Env)
    requires FieldsResolved(fields)
    ensures ReplacedFields(fields, env) == fields
    decreases fields, 0
  {
    if fields != [] {
      ResolvedTreeIsFixed(fields[0].value, env);
      ResolvedFieldsAreFixed(fields[1..], env);
    }
  }

  /** With clean variables the replaced config holds no placeholder, so a second pass, under any environment, is the
      identity. */
  lemma SecondPassIsIdentity(t: Yaml, env: Env, env': Env)
    requires AllClean(TreeNames(t), env)
    ensures TreeResolved(Replaced(t, env))
    ensures Replaced(Replaced(t, env), env') == Replaced(t, env)
  {
    TreeResolves(t, env);
    ResolvedTreeIsFixed(Replaced(t, env), env');
  }

  lemma ShortName(c: char, rest: string)
    requires c != '}'
    ensures NameAt("${" + [c] + "}" + rest) == Some([c])
  {
    var s := "${" + [c] + "}" + rest;
    assert s[2..] == [c] + "}" + rest;
    assert s[2..][1..] == "}" + rest;
    assert FirstClose(s[2..]) == 1;
    assert s[2..3] == [c];
  }

  /** An undefined variable can leave a new placeholder behind. */
  lemma UndefinedVariableMakesPlaceholder()
    ensures Replace("$${A}{B}", map[]) == "${B}" && NameAt("${B}") == Some("B")
  {
    var s, t := "$${A}{B}", "${A}{B}";
    assert t == "${" + ['A'] + "}" + "{B}" && "${B}" == "${" + ['B'] + "}" + "";
    ShortName('A', "{B}");
    ShortName('B', "");
    assert NameAt(s) == None && s[1..] == t;
    assert t[4..] == "{B}";
    PlainTextStays("{B}", map[]);
    assert Replace(t, map[]) == "" + "{B}";
  }
}
