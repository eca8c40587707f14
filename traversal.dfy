/** Walking a response tree for the rows a user ticked (`__selected: true`),
    recovering the entity set and entity type of each one from the schema,
    and building the URL that addresses a single row. */
module Traversal {
  import opened Wrappers
  import opened Text
  import opened Json
  import H = ODataHelper

  /** A selected row together with the context it was found in. */
  datatype Task = Task(item: Json, entitySet: Option<string>, entityType: Option<H.EntityType>)

  /** The only failure of the walk: reading `__selected` of a `null` row throws a TypeError. */
  const NullNode: string := "TypeError: Cannot read properties of null (reading '__selected')"

  /** A nullable string that is also truthy. */
  predicate Filled(s: Option<string>) {
    s.Some? && s.value != ""
  }

  // ---------------------------------------------------------------------
  // Schema lookups

  /** An entity set is for the short type name `short`, ignoring the namespace. */
  predicate SetMatches(es: H.EntitySet, short: string) {
    EndsWith(es.entityType, "." + short) || es.entityType == short
  }

  /** The position of the first set for `short`, or `|sets|` when there is none. */
  function FirstSetFor(sets: seq<H.EntitySet>, short: string): (i: nat)
    ensures i <= |sets|
    ensures i < |sets| ==> SetMatches(sets[i], short)
    ensures forall j :: 0 <= j < i ==> !SetMatches(sets[j], short)
  {
    if sets == [] then 0
    else if SetMatches(sets[0], short) then 0
    else 1 + FirstSetFor(sets[1..], short)
  }

  /** `findEntitySetByType`: the name of the first entity set of `short`, if any. */
  function FindEntitySetByType(schema: Option<H.ParsedSchema>, short: string): Option<string> {
    if schema.None? then None
    else
      var sets := schema.value.entitySets;
      var i := FirstSetFor(sets, short);
      if i < |sets| then Some(sets[i].name) else None
  }

  /** A set is found exactly when some set of the schema is for `short`, and
      it is the first such set. */
  lemma FindEntitySetFirst(schema: Option<H.ParsedSchema>, short: string)
    ensures var r := FindEntitySetByType(schema, short);
      r.Some? <==> schema.Some? && exists i :: 0 <= i < |schema.value.entitySets| && SetMatches(schema.value.entitySets[i], short)
    ensures var r := FindEntitySetByType(schema, short);
      r.Some? ==> exists i :: (0 <= i < |schema.value.entitySets| && SetMatches(schema.value.entitySets[i], short)
        && r.value == schema.value.entitySets[i].name
        && forall j :: 0 <= j < i ==> !SetMatches(schema.value.entitySets[j], short))
  {
  }

  /** The position of the first entity type named `short`, or `|es|`. */
  function FirstTypeNamed(es: seq<H.EntityType>, short: string): (i: nat)
    ensures i <= |es|
    ensures i < |es| ==> es[i].name == short
    ensures forall j :: 0 <= j < i ==> es[j].name != short
  {
    if es == [] then 0
    else if es[0].name == short then 0
    else 1 + FirstTypeNamed(es[1..], short)
  }

  /** `findEntityTypeObj`: the first entity type named `short`, if any. */
  function FindEntityTypeObj(schema: Option<H.ParsedSchema>, short: string): (r: Option<H.EntityType>)
    ensures r.Some? ==> r.value.name == short && schema.Some? && r.value in schema.value.entities
    ensures r.None? <==> schema.None? || forall e :: e in schema.value.entities ==> e.name != short
  {
    if schema.None? then None
    else
      var es := schema.value.entities;
      var i := FirstTypeNamed(es, short);
      if i < |es| then Some(es[i]) else None
  }

  // ---------------------------------------------------------------------
  // Key predicates

  /** The property names tried, in order, when the entity type declares no key. */
  const PossibleKeys: seq<string> := ["ID", "Id", "id", "Uuid", "UUID", "Guid", "Key"]

  /** The first of `names` that the row has (with any value, `null` included). */
  function FirstPresent(item: Json, names: seq<string>): (r: Option<string>)
    ensures r.Some? ==> r.value in names && Get(item, r.value).Some?
    ensures r.None? <==> forall k :: k in names ==> Get(item, k).None?
    ensures r.Some? ==> exists i :: (0 <= i < |names| && names[i] == r.value
      && forall j :: 0 <= j < i ==> Get(item, names[j]).None?)
  {
    if names == [] then None
    else if Get(item, names[0]).Some? then Some(names[0])
    else
      var r := FirstPresent(item, names[1..]);
      if r.Some? then
        ghost var i :| 0 <= i < |names[1..]| && names[1..][i] == r.value
          && forall j :: 0 <= j < i ==> Get(item, names[1..][j]).None?;
        assert names[i + 1] == r.value;
        r
      else r
  }

  /** The key properties of a row: the declared ones, else one conventional name the row has. */
  function KeyNamesFor(item: Json, entityType: Option<H.EntityType>): seq<string> {
    if entityType.Some? && |entityType.value.keys| > 0 then entityType.value.keys
    else
      var found := FirstPresent(item, PossibleKeys);
      if found.Some? then [found.value] else []
  }

  /** `${value}` with strings quoted: a missing property prints `undefined`. */
  function FormatKeyValue(v: Option<Json>): string {
    match v
    case None => "undefined"
    case Some(JStr(s)) => "'" + s + "'"
    case Some(x) => JsString(x)
  }

  /** One `name=value` part of a key predicate. */
  function KeyPart(item: Json, k: string): string {
    k + "=" + FormatKeyValue(Get(item, k))
  }

  function KeyParts(item: Json, keys: seq<string>): (r: seq<string>)
    ensures |r| == |keys|
    ensures forall i :: 0 <= i < |keys| ==> r[i] == KeyPart(item, keys[i])
  {
    if keys == [] then [] else [KeyPart(item, keys[0])] + KeyParts(item, keys[1..])
  }

  /** What goes between the parentheses: the single part, or the parts joined by commas. */
  function KeyInner(item: Json, keys: seq<string>): string
    requires keys != []
  {
    if |keys| == 1 then KeyPart(item, keys[0]) else Join(KeyParts(item, keys), ",")
  }

  /** The key predicate of a row: `(k=v)` for one key, `(k1=v1,k2=v2)` for a
      composite key, nothing when no key is known. */
  function KeyPredicate(item: Json, entityType: Option<H.EntityType>): Option<string> {
    var keys := KeyNamesFor(item, entityType);
    if keys == [] then None else Some("(" + KeyInner(item, keys) + ")")
  }

  /** Reading a property of `null` throws a TypeError. */
  const NullRead: string := "TypeError: Cannot read properties of null"

  /** `getKeyPredicate`: the key predicate of a row; a `null` row throws,
      whether its keys come from the type or from the conventional names. */
  function GetKeyPredicate(item: Json, entityType: Option<H.EntityType>): (r: Result<Option<string>, string>)
    ensures r.Err? <==> item.JNull?
    ensures r.Ok? ==> r.value == KeyPredicate(item, entityType)
  {
    if item.JNull? then Err(NullRead) else Ok(KeyPredicate(item, entityType))
  }

  /** A predicate exists exactly when the type declares a key or the row has
      a conventional key property. */
  lemma KeyPredicateExists(item: Json, entityType: Option<H.EntityType>)
    ensures KeyPredicate(item, entityType).Some?
      <==> (entityType.Some? && |entityType.value.keys| > 0) || exists k :: k in PossibleKeys && Get(item, k).Some?
  {
  }

  /** A key predicate is parenthesised. */
  lemma KeyPredicateParenthesised(item: Json, entityType: Option<H.EntityType>)
    requires KeyPredicate(item, entityType).Some?
    ensures var p := KeyPredicate(item, entityType).value;
      |p| >= 2 && p[0] == '(' && p[|p| - 1] == ')'
  {
  }

  lemma InParens(inner: string, x: string, i: int)
    requires OccursAt(inner, x, i)
    ensures OccursAt("(" + inner + ")", x, i + 1)
  {
    assert ("(" + inner + ")")[i + 1..i + 1 + |x|] == inner[i..i + |x|];
  }

  lemma KeyPartInInner(item: Json, keys: seq<string>, n: nat)
    requires n < |keys|
    ensures exists i :: OccursAt(KeyInner(item, keys), KeyPart(item, keys[n]), i)
  {
    if |keys| == 1 {
      assert OccursAt(KeyInner(item, keys), KeyPart(item, keys[n]), 0);
    } else {
      var parts := KeyParts(item, keys);
      JoinContains(parts, ",", n);
      var k :| OccursAt(Join(parts, ","), parts[n], k);
      assert OccursAt(KeyInner(item, keys), KeyPart(item, keys[n]), k);
    }
  }

  /** A key predicate names every key with its value. */
  lemma {:induction false} KeyPredicateNamesKeys(item: Json, entityType: Option<H.EntityType>)
    ensures var r := KeyPredicate(item, entityType);
      r.Some? ==> forall k :: k in KeyNamesFor(item, entityType) ==> exists i :: OccursAt(r.value, KeyPart(item, k), i)
  {
    var keys := KeyNamesFor(item, entityType);
    if keys != [] {
      forall k | k in keys
        ensures exists i :: OccursAt("(" + KeyInner(item, keys) + ")", KeyPart(item, k), i)
      {
        var n :| 0 <= n < |keys| && keys[n] == k;
        KeyPartInInner(item, keys, n);
        var i :| OccursAt(KeyInner(item, keys), KeyPart(item, k), i);
        InParens(KeyInner(item, keys), KeyPart(item, k), i);
      }
    }
  }

  /** A declared key always wins over the conventional names. */
  lemma DeclaredKeysWin(item: Json, et: H.EntityType)
    requires |et.keys| > 0
    ensures KeyNamesFor(item, Some(et)) == et.keys
    ensures KeyPredicate(item, Some(et)).Some?
  {
  }

  // ---------------------------------------------------------------------
  // Context recovery

  /** `node['@odata.type'].replace(...)` on a value that is not a string. */
  const ReplaceNotFunction: string := "TypeError: node['@odata.type'].replace is not a function"

  /** `typeName.split('.')` on a `__metadata.type` that is not a string. */
  const SplitNotFunction: string := "TypeError: typeName.split is not a function"

  /** The type a row announces, as the source reads it: the value of a truthy
      `__metadata.type` (OData 2/3) whatever it is, else a truthy
      `@odata.type` (OData 4) with a leading `#` removed, which throws when it
      is not a string; nothing when neither is set. */
  function AnnouncedType(node: Json): (r: Result<Option<Json>, string>)
    ensures !node.JObj? ==> r == Ok(None)
    ensures r.Err? <==> (!HasTruthy(OrNull(Get(node, "__metadata")), "type")
                         && HasTruthy(node, "@odata.type") && !Get(node, "@odata.type").value.JStr?)
  {
    var md := Get(node, "__metadata");
    if md.Some? && HasTruthy(md.value, "type") then Ok(Get(md.value, "type"))
    else if HasTruthy(node, "@odata.type") then
      match Get(node, "@odata.type").value
      case JStr(s) => Ok(Some(JStr(if s[0] == '#' then s[1..] else s)))
      case _ => Err(ReplaceNotFunction)
    else Ok(None)
  }

  /** A missing property read as `null`. */
  function OrNull(v: Option<Json>): Json {
    if v.Some? then v.value else JNull
  }

  /** The qualified type name a row announces, when it is a non-empty string. */
  function NodeTypeName(node: Json): (r: Option<string>)
    ensures r.Some? ==> r.value != ""
    ensures !node.JObj? ==> r.None?
  {
    var tn := AnnouncedType(node);
    if tn.Ok? && tn.value.Some? && tn.value.value.JStr? && tn.value.value.s != "" then Some(tn.value.value.s)
    else None
  }

  /** The context self-healing step: an entity set or type that is missing
      is looked up from the type the row announces. Reading that type throws
      when it is not a string: `.replace` on `@odata.type` always, `.split`
      on `__metadata.type` once a schema is at hand. */
  function Heal(node: Json, entitySet: Option<string>, entityType: Option<H.EntityType>, schema: Option<H.ParsedSchema>)
    : (r: Result<(Option<string>, Option<H.EntityType>), string>)
    ensures r.Ok? && Filled(entitySet) ==> r.value.0 == entitySet
    ensures r.Ok? && entityType.Some? ==> r.value.1 == entityType
    ensures (Filled(entitySet) && entityType.Some?) || !node.JObj? ==> r == Ok((entitySet, entityType))
    ensures r.Ok? && (schema.None? || NodeTypeName(node).None?) ==> r.value == (entitySet, entityType)
    ensures r.Ok? && r.value.0 != entitySet ==> exists short :: short != "" && r.value.0 == FindEntitySetByType(schema, short)
  {
    if (!Filled(entitySet) || entityType.None?) && IsObject(node) then
      var tn := AnnouncedType(node);
      if tn.Err? then Err(tn.error)
      else if tn.value.Some? && Truthy(tn.value.value) && schema.Some? then
        match tn.value.value
        case JStr(name) =>
          var short := AfterLast(name, '.');
          if short != "" then
            Ok((if Filled(entitySet) then entitySet else FindEntitySetByType(schema, short),
                if entityType.Some? then entityType else FindEntityTypeObj(schema, short)))
          else Ok((entitySet, entityType))
        case _ => Err(SplitNotFunction)
      else Ok((entitySet, entityType))
    else Ok((entitySet, entityType))
  }

  /** A missing context is filled from the announced type's short name. */
  lemma HealFills(node: Json, schema: H.ParsedSchema, qualified: string)
    requires NodeTypeName(node) == Some(qualified) && AfterLast(qualified, '.') != ""
    ensures var short := AfterLast(qualified, '.');
      Heal(node, None, None, Some(schema)) == Ok((FindEntitySetByType(Some(schema), short), FindEntityTypeObj(Some(schema), short)))
  {
  }

  /** Healing throws exactly when the context is incomplete and the row's
      announced type is not a string: a non-string `@odata.type` whatever the
      schema, a non-string `__metadata.type` only when there is a schema. */
  lemma HealFails(node: Json, entitySet: Option<string>, entityType: Option<H.EntityType>, schema: Option<H.ParsedSchema>)
    ensures Heal(node, entitySet, entityType, schema).Err?
      <==> (!Filled(entitySet) || entityType.None?) && node.JObj?
           && (AnnouncedType(node).Err?
               || (schema.Some? && AnnouncedType(node).value.Some? && !AnnouncedType(node).value.value.JStr?))
  {
  }

  /** The first navigation property named `key`. */
  function FindNav(navs: seq<H.NavigationProperty>, key: string): (r: Option<H.NavigationProperty>)
    ensures r.Some? ==> r.value in navs && r.value.name == key
    ensures r.None? <==> forall n :: n in navs ==> n.name != key
  {
    if navs == [] then None
    else if navs[0].name == key then Some(navs[0])
    else FindNav(navs[1..], key)
  }

  /** The context of the rows under property `key`: when `key` is a
      navigation property of the parent's type, its target's set and type;
      otherwise nothing. The parent's own entity set is never inherited. */
  function ChildContext(key: string, parentType: Option<H.EntityType>, schema: Option<H.ParsedSchema>)
    : (r: (Option<string>, Option<H.EntityType>))
    ensures parentType.None? || FindNav(parentType.value.navigationProperties, key).None? ==> r == (None, None)
    ensures r.1.Some? ==> schema.Some? && r.1.value in schema.value.entities
  {
    if parentType.None? then (None, None)
    else
      var nav := FindNav(parentType.value.navigationProperties, key);
      if nav.Some? && nav.value.targetType.Some? then
        var short := AfterLast(H.V4Target(nav.value.targetType.value).0, '.');
        if short != "" then (FindEntitySetByType(schema, short), FindEntityTypeObj(schema, short))
        else (None, None)
      else (None, None)
  }

  /** A `Collection(...)` target resolves like its element type. */
  lemma ChildContextCollection(key: string, parentType: H.EntityType, schema: Option<H.ParsedSchema>, nav: H.NavigationProperty, x: string)
    requires FindNav(parentType.navigationProperties, key) == Some(nav)
    requires nav.targetType == Some("Collection(" + x + ")")
    requires AfterLast(x, '.') != ""
    ensures ChildContext(key, Some(parentType), schema)
      == (FindEntitySetByType(schema, AfterLast(x, '.')), FindEntityTypeObj(schema, AfterLast(x, '.')))
  {
    H.V4TargetUnwrap(x);
  }

  // ---------------------------------------------------------------------
  // The walk, as a specification

  /** The OData 2 `{ results: [...] }` wrapper is looked through. */
  function Unwrap(v: Json): (r: Json)
    ensures r == v || r < v
  {
    match Get(v, "results")
    case Some(JArr(es)) =>
      assert Get(v, "results") == Some(JArr(es));
      LookupSmaller(v.fields, "results");
      JArr(es)
    case _ => v
  }

  /** The properties of a row that are bookkeeping, not data. */
  predicate IsSystemKey(key: string) {
    key == "__metadata" || key == "__deferred" || key == "__selected"
  }

  /** The rows a child value stands for: the elements of an array, else the value itself. */
  function ChildItems(c: Json): (r: seq<Json>)
    ensures forall i :: 0 <= i < |r| ==> (r[i] == c || r[i] < c)
  {
    if c.JArr? then c.elems else [c]
  }

  /** Appends the tasks of a step to those found so far; the first failure stops the walk. */
  function Then(prev: Result<seq<Task>, string>, next: Result<seq<Task>, string>): Result<seq<Task>, string> {
    if prev.Err? then prev else if next.Err? then next else Ok(prev.value + next.value)
  }

  /** `collectSelectedItemsWithContext` over the first `n` of `items`, every
      one of which lies inside `bound`. */
  function CollectList(items: seq<Json>, n: nat, bound: Json, entitySet: Option<string>,
                       entityType: Option<H.EntityType>, schema: Option<H.ParsedSchema>): Result<seq<Task>, string>
    requires n <= |items|
    requires forall i :: 0 <= i < |items| ==> items[i] < bound
    decreases bound, 0, n
  {
    if n == 0 then Ok([])
    else Then(CollectList(items, n - 1, bound, entitySet, entityType, schema),
              NodeTasks(items[n - 1], entitySet, entityType, schema))
  }

  /** `node['__selected'] === true`. */
  predicate IsSelected(v: Json) {
    Get(v, "__selected") == Some(JBool(true))
  }

  /** The tasks one row yields: itself when selected, then those of its properties. */
  function NodeTasks(node: Json, entitySet: Option<string>, entityType: Option<H.EntityType>,
                     schema: Option<H.ParsedSchema>): Result<seq<Task>, string>
    decreases node, 3
  {
    if node.JNull? then Err(NullNode)
    else
      var healed := Heal(node, entitySet, entityType, schema);
      if healed.Err? then Err(healed.error)
      else
        var ctx := healed.value;
        var own := if IsSelected(node) then [Task(node, ctx.0, ctx.1)] else [];
        if IsObject(node) then Then(Ok(own), ChildTasks(node, |Entries(node)|, ctx.1, schema))
        else Ok(own)
  }

  /** Every value of `Object.entries(node)` lies inside `node`. */
  lemma AllEntriesSmaller(node: Json)
    ensures forall i :: 0 <= i < |Entries(node)| ==> Entries(node)[i].1 < node
  {
    forall i | 0 <= i < |Entries(node)| ensures Entries(node)[i].1 < node {
      EntriesSmaller(node, i);
    }
  }

  /** The tasks of the first `n` properties of `node`. */
  function ChildTasks(node: Json, n: nat, parentType: Option<H.EntityType>, schema: Option<H.ParsedSchema>)
    : Result<seq<Task>, string>
    requires n <= |Entries(node)|
    decreases node, 2, n
  {
    if n == 0 then Ok([])
    else
      var e := Entries(node)[n - 1];
      EntriesSmaller(node, n - 1);
      Then(ChildTasks(node, n - 1, parentType, schema), EntryTasks(node, e.0, e.1, parentType, schema))
  }

  /** The tasks under one property `key: val` of `node`. */
  function EntryTasks(node: Json, key: string, val: Json, parentType: Option<H.EntityType>,
                      schema: Option<H.ParsedSchema>): Result<seq<Task>, string>
    requires val < node
    decreases node, 1
  {
    if IsSystemKey(key) then Ok([])
    else
      var c := Unwrap(val);
      if IsObject(c) then
        var ctx := ChildContext(key, parentType, schema);
        var items := ChildItems(c);
        if items != [] then CollectList(items, |items|, node, ctx.0, ctx.1, schema) else Ok([])
      else Ok([])
  }

  /** The whole walk from a list of top-level rows. */
  function CollectSelected(items: seq<Json>, entitySet: Option<string>, entityType: Option<H.EntityType>,
                           schema: Option<H.ParsedSchema>): Result<seq<Task>, string>
  {
    CollectList(items, |items|, JArr(items), entitySet, entityType, schema)
  }

  // ---------------------------------------------------------------------
  // Properties of the walk

  predicate AllSelected(r: Result<seq<Task>, string>) {
    r.Ok? ==> forall t :: t in r.value ==> IsSelected(t.item)
  }

  lemma ThenSelected(a: Result<seq<Task>, string>, b: Result<seq<Task>, string>)
    requires AllSelected(a) && AllSelected(b)
    ensures AllSelected(Then(a, b))
  {
  }

  /** Only rows marked `__selected: true` become tasks. */
  lemma {:induction false} ListSelected(items: seq<Json>, n: nat, bound: Json, s: Option<string>,
                                        t: Option<H.EntityType>, schema: Option<H.ParsedSchema>)
    requires n <= |items|
    requires forall i :: 0 <= i < |items| ==> items[i] < bound
    ensures AllSelected(CollectList(items, n, bound, s, t, schema))
    decreases bound, 0, n
  {
    if n > 0 {
      ListSelected(items, n - 1, bound, s, t, schema);
      NodeSelected(items[n - 1], s, t, schema);
      ThenSelected(CollectList(items, n - 1, bound, s, t, schema), NodeTasks(items[n - 1], s, t, schema));
    }
  }

  lemma {:induction false} NodeSelected(node: Json, s: Option<string>, t: Option<H.EntityType>, schema: Option<H.ParsedSchema>)
    ensures AllSelected(NodeTasks(node, s, t, schema))
    decreases node, 3
  {
    if !node.JNull? && IsObject(node) && Heal(node, s, t, schema).Ok? {
      var ctx := Heal(node, s, t, schema).value;
      ChildrenSelected(node, |Entries(node)|, ctx.1, schema);
      var own := if IsSelected(node) then [Task(node, ctx.0, ctx.1)] else [];
      ThenSelected(Ok(own), ChildTasks(node, |Entries(node)|, ctx.1, schema));
    }
  }

  lemma {:induction false} ChildrenSelected(node: Json, n: nat, t: Option<H.EntityType>, schema: Option<H.ParsedSchema>)
    requires n <= |Entries(node)|
    ensures AllSelected(ChildTasks(node, n, t, schema))
    decreases node, 2, n
  {
    if n > 0 {
      var e := Entries(node)[n - 1];
      EntriesSmaller(node, n - 1);
      ChildrenSelected(node, n - 1, t, schema);
      EntrySelected(node, e.0, e.1, t, schema);
      ThenSelected(ChildTasks(node, n - 1, t, schema), EntryTasks(node, e.0, e.1, t, schema));
    }
  }

  lemma {:induction false} EntrySelected(node: Json, key: string, val: Json, t: Option<H.EntityType>, schema: Option<H.ParsedSchema>)
    requires val < node
    ensures AllSelected(EntryTasks(node, key, val, t, schema))
    decreases node, 1
  {
    if !IsSystemKey(key) {
      var c := Unwrap(val);
      var items := ChildItems(c);
      if IsObject(c) && items != [] {
        var ctx := ChildContext(key, t, schema);
        ListSelected(items, |items|, node, ctx.0, ctx.1, schema);
      }
    }
  }

  /** The rows of a task list, forgetting their contexts. */
  function RowsOf(ts: seq<Task>): (r: seq<Json>)
    ensures |r| == |ts|
    ensures forall i :: 0 <= i < |ts| ==> r[i] == ts[i].item
  {
    if ts == [] then [] else [ts[0].item] + RowsOf(ts[1..])
  }

  lemma {:induction false} RowsOfConcat(a: seq<Task>, b: seq<Task>)
    ensures RowsOf(a + b) == RowsOf(a) + RowsOf(b)
    decreases |a|
  {
    if a == [] {
      assert a + b == b;
    } else {
      assert (a + b)[1..] == a[1..] + b;
      RowsOfConcat(a[1..], b);
    }
  }

  /** A successful step is the concatenation of two successful halves. */
  lemma ThenRows(a: Result<seq<Task>, string>, b: Result<seq<Task>, string>)
    ensures Then(a, b).Ok? ==> a.Ok? && b.Ok? && RowsOf(Then(a, b).value) == RowsOf(a.value) + RowsOf(b.value)
  {
    if a.Ok? && b.Ok? {
      RowsOfConcat(a.value, b.value);
    }
  }

  /** The rows one level below a row reached through the data property
      `key: val`: nothing for a bookkeeping property; else, looking through a
      `results` wrapper, the elements of an array or the object itself. */
  function EntryRows(key: string, val: Json): (r: seq<Json>)
    ensures forall i :: 0 <= i < |r| ==> r[i] == val || r[i] < val
  {
    if IsSystemKey(key) then []
    else
      var c := Unwrap(val);
      if IsObject(c) then ChildItems(c) else []
  }

  /** The rows one level below `node` through its first `n` properties, in entry order. */
  function RowsBelow(node: Json, n: nat): (r: seq<Json>)
    requires n <= |Entries(node)|
    ensures forall i :: 0 <= i < |r| ==> r[i] < node
  {
    if n == 0 then []
    else
      var e := Entries(node)[n - 1];
      EntriesSmaller(node, n - 1);
      RowsBelow(node, n - 1) + EntryRows(e.0, e.1)
  }

  /** The reference for the walk: the rows marked `__selected: true` at and
      below `node`, each once, in pre-order (a row before everything under
      it, the rows under one property before those under the next). */
  function SelectedPreorder(node: Json): seq<Json>
    decreases node, 2
  {
    (if IsSelected(node) then [node] else []) + SelectedBelow(node)
  }

  /** The selected rows strictly below `node`, in pre-order. */
  function SelectedBelow(node: Json): seq<Json>
    decreases node, 1
  {
    SelectedForest(RowsBelow(node, |Entries(node)|), node)
  }

  /** `SelectedPreorder` of each row of a list, concatenated in order. */
  function SelectedForest(rows: seq<Json>, bound: Json): seq<Json>
    requires forall i :: 0 <= i < |rows| ==> rows[i] < bound
    decreases bound, 0, 1
  {
    Concat(PreorderEach(rows, bound))
  }

  /** `SelectedPreorder` of each row of a list. */
  function PreorderEach(rows: seq<Json>, bound: Json): seq<seq<Json>>
    requires forall i :: 0 <= i < |rows| ==> rows[i] < bound
    decreases bound, 0, 0
  {
    seq(|rows|, i requires 0 <= i < |rows| => SelectedPreorder(rows[i]))
  }

  /** The parts one after the other. */
  function Concat(parts: seq<seq<Json>>): seq<Json> {
    if parts == [] then [] else parts[0] + Concat(parts[1..])
  }

  lemma {:induction false} ConcatAppend(p: seq<seq<Json>>, q: seq<seq<Json>>)
    ensures Concat(p + q) == Concat(p) + Concat(q)
  {
    if p == [] {
      assert p + q == q;
    } else {
      assert (p + q)[1..] == p[1..] + q;
      ConcatAppend(p[1..], q);
    }
  }

  lemma SelectedForestAppend(a: seq<Json>, b: seq<Json>, bound: Json)
    requires forall i :: 0 <= i < |a| ==> a[i] < bound
    requires forall i :: 0 <= i < |b| ==> b[i] < bound
    ensures SelectedForest(a + b, bound) == SelectedForest(a, bound) + SelectedForest(b, bound)
  {
    PreorderEachAppend(a, b, bound);
    ConcatAppend(PreorderEach(a, bound), PreorderEach(b, bound));
  }

  lemma PreorderEachAppend(a: seq<Json>, b: seq<Json>, bound: Json)
    requires forall i :: 0 <= i < |a| ==> a[i] < bound
    requires forall i :: 0 <= i < |b| ==> b[i] < bound
    ensures PreorderEach(a + b, bound) == PreorderEach(a, bound) + PreorderEach(b, bound)
  {
    var whole, parts := PreorderEach(a + b, bound), PreorderEach(a, bound) + PreorderEach(b, bound);
    forall i | 0 <= i < |a + b|
      ensures whole[i] == parts[i]
    {
      if i < |a| {
        assert (a + b)[i] == a[i];
      } else {
        assert (a + b)[i] == b[i - |a|];
      }
    }
  }

  lemma ForestSnoc(items: seq<Json>, n: nat, bound: Json)
    requires 0 < n <= |items|
    requires forall i :: 0 <= i < |items| ==> items[i] < bound
    ensures SelectedForest(items[..n], bound) == SelectedForest(items[..n - 1], bound) + SelectedPreorder(items[n - 1])
  {
    assert items[..n] == items[..n - 1] + [items[n - 1]];
    SelectedForestAppend(items[..n - 1], [items[n - 1]], bound);
    assert PreorderEach([items[n - 1]], bound) == [SelectedPreorder(items[n - 1])];
    assert Concat([SelectedPreorder(items[n - 1])]) == SelectedPreorder(items[n - 1]) + Concat([]);
  }

  /** When the walk over the first `n` rows succeeds, it yields exactly the
      selected rows of those rows and everything below them, in pre-order. */
  lemma {:induction false} ListRowsPreorder(items: seq<Json>, n: nat, bound: Json, s: Option<string>,
                                            t: Option<H.EntityType>, schema: Option<H.ParsedSchema>)
    requires n <= |items|
    requires forall i :: 0 <= i < |items| ==> items[i] < bound
    ensures CollectList(items, n, bound, s, t, schema).Ok? ==>
      RowsOf(CollectList(items, n, bound, s, t, schema).value) == SelectedForest(items[..n], bound)
    decreases bound, 0, n, 1
  {
    if n > 0 {
      ListRowsPreorder(items, n - 1, bound, s, t, schema);
      ListRowsStep(items, n, bound, s, t, schema);
    }
  }

  lemma ListRowsStep(items: seq<Json>, n: nat, bound: Json, s: Option<string>,
                     t: Option<H.EntityType>, schema: Option<H.ParsedSchema>)
    requires 0 < n <= |items|
    requires forall i :: 0 <= i < |items| ==> items[i] < bound
    requires CollectList(items, n - 1, bound, s, t, schema).Ok? ==>
      RowsOf(CollectList(items, n - 1, bound, s, t, schema).value) == SelectedForest(items[..n - 1], bound)
    ensures CollectList(items, n, bound, s, t, schema).Ok? ==>
      RowsOf(CollectList(items, n, bound, s, t, schema).value) == SelectedForest(items[..n], bound)
    decreases bound, 0, n, 0
  {
    var prev := CollectList(items, n - 1, bound, s, t, schema);
    var node := NodeTasks(items[n - 1], s, t, schema);
    assert CollectList(items, n, bound, s, t, schema) == Then(prev, node);
    ThenRows(prev, node);
    NodeRowsPreorder(items[n - 1], s, t, schema);
    ForestSnoc(items, n, bound);
  }

  lemma {:induction false} NodeRowsPreorder(node: Json, s: Option<string>, t: Option<H.EntityType>, schema: Option<H.ParsedSchema>)
    ensures NodeTasks(node, s, t, schema).Ok? ==> RowsOf(NodeTasks(node, s, t, schema).value) == SelectedPreorder(node)
    decreases node, 3
  {
    assert SelectedPreorder(node) == (if IsSelected(node) then [node] else []) + SelectedForest(RowsBelow(node, |Entries(node)|), node);
    if !node.JNull? && Heal(node, s, t, schema).Ok? {
      var ctx := Heal(node, s, t, schema).value;
      var own := if IsSelected(node) then [Task(node, ctx.0, ctx.1)] else [];
      assert RowsOf(own) == if IsSelected(node) then [node] else [];
      if IsObject(node) {
        var children := ChildTasks(node, |Entries(node)|, ctx.1, schema);
        ChildRowsPreorder(node, |Entries(node)|, ctx.1, schema);
        if children.Ok? {
          RowsOfConcat(own, children.value);
        }
      } else {
        assert RowsBelow(node, |Entries(node)|) == [];
      }
    }
  }

  /** The rows of the tasks of the first `n` properties of `node` are the
      selected pre-order of the rows one level below through them. */
  ghost predicate ChildRowsHold(node: Json, n: nat, t: Option<H.EntityType>, schema: Option<H.ParsedSchema>)
    requires n <= |Entries(node)|
  {
    ChildTasks(node, n, t, schema).Ok? ==>
      RowsOf(ChildTasks(node, n, t, schema).value) == SelectedForest(RowsBelow(node, n), node)
  }

  lemma {:induction false} ChildRowsPreorder(node: Json, n: nat, t: Option<H.EntityType>, schema: Option<H.ParsedSchema>)
    requires n <= |Entries(node)|
    ensures ChildRowsHold(node, n, t, schema)
    decreases node, 2, n, 1
  {
    if n > 0 {
      ChildRowsPreorder(node, n - 1, t, schema);
      ChildRowsStep(node, n, t, schema);
    }
  }

  /** The rows of the first `n` properties, from those of the first `n - 1` and of property `n - 1`. */
  lemma ChildRowsStep(node: Json, n: nat, t: Option<H.EntityType>, schema: Option<H.ParsedSchema>)
    requires 0 < n <= |Entries(node)|
    requires ChildRowsHold(node, n - 1, t, schema)
    ensures ChildRowsHold(node, n, t, schema)
    decreases node, 2, n, 0
  {
    var e := Entries(node)[n - 1];
    ChildTasksStep(node, n, t, schema);
    EntryRowsPreorder(node, e.0, e.1, t, schema);
    SelectedForestAppend(RowsBelow(node, n - 1), EntryRows(e.0, e.1), node);
    ThenPreorder(ChildTasks(node, n - 1, t, schema), EntryTasks(node, e.0, e.1, t, schema),
                 SelectedForest(RowsBelow(node, n - 1), node), SelectedForest(EntryRows(e.0, e.1), node));
  }

  /** One more property of a row: its tasks and its rows are appended. */
  lemma ChildTasksStep(node: Json, n: nat, t: Option<H.EntityType>, schema: Option<H.ParsedSchema>)
    requires 0 < n <= |Entries(node)|
    ensures Entries(node)[n - 1].1 < node
    ensures var e := Entries(node)[n - 1];
      ChildTasks(node, n, t, schema) == Then(ChildTasks(node, n - 1, t, schema), EntryTasks(node, e.0, e.1, t, schema))
      && RowsBelow(node, n) == RowsBelow(node, n - 1) + EntryRows(e.0, e.1)
  {
    EntriesSmaller(node, n - 1);
  }

  /** Appending results whose rows are known appends their rows. */
  lemma ThenPreorder(a: Result<seq<Task>, string>, b: Result<seq<Task>, string>, ra: seq<Json>, rb: seq<Json>)
    requires a.Ok? ==> RowsOf(a.value) == ra
    requires b.Ok? ==> RowsOf(b.value) == rb
    ensures Then(a, b).Ok? ==> RowsOf(Then(a, b).value) == ra + rb
  {
    ThenRows(a, b);
  }

  lemma {:induction false} EntryRowsPreorder(node: Json, key: string, val: Json, t: Option<H.EntityType>, schema: Option<H.ParsedSchema>)
    requires val < node
    ensures EntryTasks(node, key, val, t, schema).Ok? ==>
      RowsOf(EntryTasks(node, key, val, t, schema).value) == SelectedForest(EntryRows(key, val), node)
    decreases node, 1
  {
    if !IsSystemKey(key) {
      var c := Unwrap(val);
      var items := ChildItems(c);
      if IsObject(c) && items != [] {
        var ctx := ChildContext(key, t, schema);
        ListRowsPreorder(items, |items|, node, ctx.0, ctx.1, schema);
        assert items[..|items|] == items;
      }
    }
  }

  /** The whole walk, when it succeeds, yields the selected rows of the
      top-level rows and of everything below them, each once, in pre-order;
      the contexts and the schema only annotate them. */
  lemma CollectedPreorder(items: seq<Json>, entitySet: Option<string>, entityType: Option<H.EntityType>,
                          schema: Option<H.ParsedSchema>)
    ensures var r := CollectSelected(items, entitySet, entityType, schema);
      r.Ok? ==> RowsOf(r.value) == SelectedForest(items, JArr(items))
  {
    forall i | 0 <= i < |items| ensures items[i] < JArr(items) {
      assert items[i] in items;
    }
    ListRowsPreorder(items, |items|, JArr(items), entitySet, entityType, schema);
    assert items[..|items|] == items;
  }

  /** A `null` among the top-level rows makes the walk throw. */
  lemma {:induction false} NullRowFails(items: seq<Json>, n: nat, bound: Json, s: Option<string>,
                                        t: Option<H.EntityType>, schema: Option<H.ParsedSchema>, i: nat)
    requires i < n <= |items|
    requires forall j :: 0 <= j < |items| ==> items[j] < bound
    requires items[i].JNull?
    ensures CollectList(items, n, bound, s, t, schema).Err?
    decreases n
  {
    if i < n - 1 {
      NullRowFails(items, n - 1, bound, s, t, schema, i);
    }
  }

  /** A selected top-level row is collected, with its healed context, when the walk succeeds. */
  lemma {:induction false} SelectedRowCollected(items: seq<Json>, n: nat, bound: Json, s: Option<string>,
                                                t: Option<H.EntityType>, schema: Option<H.ParsedSchema>, i: nat)
    requires i < n <= |items|
    requires forall j :: 0 <= j < |items| ==> items[j] < bound
    requires IsSelected(items[i])
    requires CollectList(items, n, bound, s, t, schema).Ok?
    ensures Heal(items[i], s, t, schema).Ok?
    ensures var ctx := Heal(items[i], s, t, schema).value;
      Task(items[i], ctx.0, ctx.1) in CollectList(items, n, bound, s, t, schema).value
    decreases n
  {
    var prev := CollectList(items, n - 1, bound, s, t, schema);
    if i < n - 1 {
      SelectedRowCollected(items, n - 1, bound, s, t, schema, i);
    } else {
      var node := items[i];
      var ctx := Heal(node, s, t, schema).value;
      assert NodeTasks(node, s, t, schema).value[0] == Task(node, ctx.0, ctx.1);
    }
  }

  // ---------------------------------------------------------------------
  // The walk, as the source performs it

  /** Once the walk over a prefix of the rows has failed, it stays failed. */
  lemma {:induction false} ListErrSticks(items: seq<Json>, i: nat, n: nat, bound: Json, s: Option<string>,
                                         t: Option<H.EntityType>, schema: Option<H.ParsedSchema>)
    requires i <= n <= |items|
    requires forall j :: 0 <= j < |items| ==> items[j] < bound
    requires CollectList(items, i, bound, s, t, schema).Err?
    ensures CollectList(items, n, bound, s, t, schema) == CollectList(items, i, bound, s, t, schema)
    decreases n
  {
    if i < n {
      ListErrSticks(items, i, n - 1, bound, s, t, schema);
      ListErrStep(items, n, bound, s, t, schema, CollectList(items, i, bound, s, t, schema));
    }
  }

  /** A failed prefix of a list fails the next prefix with the same error. */
  lemma ListErrStep(items: seq<Json>, n: nat, bound: Json, s: Option<string>, t: Option<H.EntityType>,
                    schema: Option<H.ParsedSchema>, e: Result<seq<Task>, string>)
    requires 0 < n <= |items|
    requires forall j :: 0 <= j < |items| ==> items[j] < bound
    requires e.Err? && CollectList(items, n - 1, bound, s, t, schema) == e
    ensures CollectList(items, n, bound, s, t, schema) == e
  {
  }

  lemma {:induction false} ChildErrSticks(node: Json, i: nat, n: nat, t: Option<H.EntityType>, schema: Option<H.ParsedSchema>)
    requires i <= n <= |Entries(node)|
    requires ChildTasks(node, i, t, schema).Err?
    ensures ChildTasks(node, n, t, schema) == ChildTasks(node, i, t, schema)
    decreases n
  {
    if i < n {
      ChildErrSticks(node, i, n - 1, t, schema);
    }
  }

  /** `collectSelectedItemsWithContext`: a loop over the rows that appends
      each row's tasks, stopping at the first failure. */
  method CollectItems(items: seq<Json>, bound: Json, entitySet: Option<string>, entityType: Option<H.EntityType>,
                      schema: Option<H.ParsedSchema>) returns (r: Result<seq<Task>, string>)
    requires forall i :: 0 <= i < |items| ==> items[i] < bound
    ensures r == CollectList(items, |items|, bound, entitySet, entityType, schema)
    decreases bound, 0
  {
    var results: seq<Task> := [];
    var i := 0;
    while i < |items|
      invariant 0 <= i <= |items|
      invariant CollectedSoFar(items, i, bound, entitySet, entityType, schema, Ok(results))
    {
      var node := VisitNode(items[i], entitySet, entityType, schema);
      CollectStep(items, i, bound, entitySet, entityType, schema, results, node);
      if node.Err? {
        return node;
      }
      results := results + node.value;
      i := i + 1;
    }
    return Ok(results);
  }

  /** One more row of a list: its tasks are appended, or its error ends the walk. */
  lemma CollectStep(items: seq<Json>, i: nat, bound: Json, s: Option<string>, t: Option<H.EntityType>,
                    schema: Option<H.ParsedSchema>, results: seq<Task>, node: Result<seq<Task>, string>)
    requires i < |items|
    requires forall j :: 0 <= j < |items| ==> items[j] < bound
    requires CollectedSoFar(items, i, bound, s, t, schema, Ok(results))
    requires node == NodeTasks(items[i], s, t, schema)
    ensures node.Ok? ==> CollectedSoFar(items, i + 1, bound, s, t, schema, Ok(results + node.value))
    ensures node.Err? ==> CollectedSoFar(items, |items|, bound, s, t, schema, node)
  {
    if node.Err? {
      ListErrSticks(items, i + 1, |items|, bound, s, t, schema);
    }
  }

  /** The walk over the first `n` rows of a list comes out as `r`. */
  ghost predicate CollectedSoFar(items: seq<Json>, n: nat, bound: Json, s: Option<string>, t: Option<H.EntityType>,
                                 schema: Option<H.ParsedSchema>, r: Result<seq<Task>, string>)
    requires n <= |items|
    requires forall j :: 0 <= j < |items| ==> items[j] < bound
  {
    CollectList(items, n, bound, s, t, schema) == r
  }

  /** One row: heal the context, take the row if selected, then walk its properties. */
  method VisitNode(node: Json, entitySet: Option<string>, entityType: Option<H.EntityType>,
                   schema: Option<H.ParsedSchema>) returns (r: Result<seq<Task>, string>)
    ensures r == NodeTasks(node, entitySet, entityType, schema)
    decreases node, 3
  {
    if node.JNull? {
      return Err(NullNode);
    }
    var healed := Heal(node, entitySet, entityType, schema);
    if healed.Err? {
      return Err(healed.error);
    }
    var ctx := healed.value;
    var own: seq<Task> := [];
    if IsSelected(node) {
      own := [Task(node, ctx.0, ctx.1)];
    }
    if !IsObject(node) {
      return Ok(own);
    }
    var children := VisitEntries(node, ctx.1, schema);
    if children.Err? {
      return children;
    }
    return Ok(own + children.value);
  }

  /** The `Object.entries(node).forEach` loop of one row. */
  method VisitEntries(node: Json, parentType: Option<H.EntityType>, schema: Option<H.ParsedSchema>)
    returns (r: Result<seq<Task>, string>)
    ensures r == ChildTasks(node, |Entries(node)|, parentType, schema)
    decreases node, 2
  {
    var entries := Entries(node);
    var results: seq<Task> := [];
    var i := 0;
    while i < |entries|
      invariant 0 <= i <= |entries|
      invariant ChildTasks(node, i, parentType, schema) == Ok(results)
    {
      EntriesSmaller(node, i);
      var sub := VisitEntry(node, entries[i].0, entries[i].1, parentType, schema);
      if sub.Err? {
        ChildErrSticks(node, i + 1, |entries|, parentType, schema);
        return sub;
      }
      results := results + sub.value;
      i := i + 1;
    }
    return Ok(results);
  }

  /** One property of a row: skip bookkeeping, look through `results`, and
      walk the rows below with the navigation's context. */
  method VisitEntry(node: Json, key: string, val: Json, parentType: Option<H.EntityType>,
                    schema: Option<H.ParsedSchema>) returns (r: Result<seq<Task>, string>)
    requires val < node
    ensures r == EntryTasks(node, key, val, parentType, schema)
    decreases node, 1
  {
    if IsSystemKey(key) {
      return Ok([]);
    }
    var children := Unwrap(val);
    if !IsObject(children) {
      return Ok([]);
    }
    var ctx := ChildContext(key, parentType, schema);
    var items := ChildItems(children);
    if items == [] {
      return Ok([]);
    }
    r := CollectItems(items, node, ctx.0, ctx.1, schema);
  }

  // ---------------------------------------------------------------------
  // Row URLs

  /** `explicitUri.startsWith(...)` on a link that is not a string. */
  const StartsWithNotFunction: string := "TypeError: explicitUri.startsWith is not a function"

  /** `explicitUri.match(...)` on a `__metadata.uri` that is not a string. */
  const MatchNotFunction: string := "TypeError: explicitUri.match is not a function"

  /** A URL property of a row that is set (truthy): its text, or the
      TypeError `missing` names when it holds something other than a string. */
  function UrlField(v: Json, k: string, missing: string): (r: Result<string, string>)
    requires HasTruthy(v, k)
    ensures r.Ok? <==> Get(v, k).value.JStr?
    ensures r.Ok? ==> r.value != "" && Get(v, k) == Some(JStr(r.value))
    ensures r.Err? ==> r.error == missing
  {
    match Get(v, k).value
    case JStr(s) => Ok(s)
    case _ => Err(missing)
  }

  /** The base URL with exactly one trailing slash added when it has none. */
  function CleanBase(baseUrl: string): (r: string)
    ensures EndsWith(r, "/")
  {
    if EndsWith(baseUrl, "/") then baseUrl else baseUrl + "/"
  }

  function DropTrailingSlash(s: string): string {
    if s != [] && s[|s| - 1] == '/' then s[..|s| - 1] else s
  }

  function DropLeadingSlash(s: string): string {
    if s != [] && s[0] == '/' then s[1..] else s
  }

  /** A relative `@odata.id` or `@odata.editLink` resolved against the service root. */
  function JoinBase(cleanBase: string, link: string): string {
    DropTrailingSlash(cleanBase) + "/" + DropLeadingSlash(link)
  }

  /** Joining puts exactly one slash between root and link when neither or
      only one of them brings its own. */
  lemma JoinBaseOneSlash(root: string, link: string)
    requires root == [] || root[|root| - 1] != '/'
    ensures link != [] && link[0] == '/' ==> JoinBase(CleanBase(root), link) == root + link
    ensures link == [] || link[0] != '/' ==> JoinBase(CleanBase(root), link) == root + "/" + link
    ensures JoinBase(CleanBase(root + "/"), link) == JoinBase(CleanBase(root), link)
  {
    assert (root + "/")[..|root + "/"| - 1] == root;
    if link != [] && link[0] == '/' {
      assert root + "/" + link[1..] == root + link;
    }
  }

  /** `/\/([^\/]+\(.+\))$/` matches at the slash at `i`: a non-empty name
      without `/`, an opening parenthesis, a non-empty argument without line
      terminators, and a closing parenthesis at the very end. */
  predicate MatchAt(s: string, i: int) {
    0 <= i < |s| && s[i] == '/' && s[|s| - 1] == ')' && ParenAfter(s, i, i + 1)
  }

  predicate IsLineTerminator(ch: char) {
    ch == '\n' || ch == '\r' || ch == '\U{2028}' || ch == '\U{2029}'
  }

  /** Some `(` at or after `m`, before any `/`, can open the argument of a match at `i`. */
  predicate ParenAfter(s: string, i: int, m: int)
    requires 0 <= i < m <= |s|
    decreases |s| - m
  {
    if m == |s| || s[m] == '/' then false
    else if s[m] == '(' && i + 2 <= m <= |s| - 3 && (forall c :: m < c < |s| - 1 ==> !IsLineTerminator(s[c])) then true
    else ParenAfter(s, i, m + 1)
  }

  /** A witness `(` gives a match. */
  lemma {:induction false} ParenWitness(s: string, i: int, m: int, j: int)
    requires 0 <= i < m <= j < |s|
    requires s[j] == '(' && i + 2 <= j <= |s| - 3
    requires forall c :: m <= c < j ==> s[c] != '/'
    requires forall c :: j < c < |s| - 1 ==> !IsLineTerminator(s[c])
    ensures ParenAfter(s, i, m)
    decreases j - m
  {
    if m < j && !(s[m] == '(' && i + 2 <= m <= |s| - 3 && (forall c :: m < c < |s| - 1 ==> !IsLineTerminator(s[c]))) {
      ParenWitness(s, i, m + 1, j);
    }
  }

  /** The leftmost match at or after `i`: what the group captures. */
  function FirstMatch(s: string, i: nat): (r: Option<string>)
    requires i <= |s|
    ensures r.None? <==> forall k :: i <= k < |s| ==> !MatchAt(s, k)
    ensures r.Some? ==> exists k :: (i <= k < |s| && MatchAt(s, k) && r.value == s[k + 1..]
      && forall k' :: i <= k' < k ==> !MatchAt(s, k'))
    decreases |s| - i
  {
    if i == |s| then None
    else if MatchAt(s, i) then Some(s[i + 1..])
    else FirstMatch(s, i + 1)
  }

  /** The predicate shown for an explicit URI, `(From URI)` when the pattern does not match. */
  function UriPredicate(uri: string): string {
    var m := FirstMatch(uri, 0);
    if m.Some? then m.value else "(From URI)"
  }

  /** The pattern matches at the slash before a final `Name(args)` segment. */
  lemma SegmentMatches(prefix: string, name: string, args: string)
    requires name != [] && '/' !in name && args != []
    requires forall c :: c in args ==> !IsLineTerminator(c)
    ensures MatchAt(prefix + "/" + name + "(" + args + ")", |prefix|)
  {
    var uri := prefix + "/" + name + "(" + args + ")";
    var i := |prefix|;
    var j := |prefix| + 1 + |name|;
    assert uri[i] == '/' && uri[j] == '(' && uri[|uri| - 1] == ')';
    forall c | i + 1 <= c < j ensures uri[c] != '/' {
      assert uri[c] == name[c - i - 1];
    }
    forall c | j < c < |uri| - 1 ensures !IsLineTerminator(uri[c]) {
      assert uri[c] == args[c - j - 1];
    }
    ParenWitness(uri, i, i + 1, j);
  }

  /** A URI whose last segment reads `Name(args)` always yields a predicate
      that ends with that segment. */
  lemma LastSegmentPredicate(prefix: string, name: string, args: string)
    requires name != [] && '/' !in name && args != []
    requires forall c :: c in args ==> !IsLineTerminator(c)
    ensures var uri := prefix + "/" + name + "(" + args + ")";
      FirstMatch(uri, 0).Some? && EndsWith(UriPredicate(uri), name + "(" + args + ")")
  {
    var seg := name + "(" + args + ")";
    var uri := (prefix + "/") + seg;
    assert uri == prefix + "/" + name + "(" + args + ")";
    SegmentMatches(prefix, name, args);
    var k := FirstMatchNoLater(uri, |prefix|);
    assert EndsWith(uri, seg) by {
      assert uri[|uri| - |seg|..] == seg;
    }
    EndsWithTail(uri, k + 1, seg);
  }

  /** A match at `p` means the first match is found no later than `p`. */
  lemma FirstMatchNoLater(s: string, p: nat) returns (k: nat)
    requires MatchAt(s, p)
    ensures k <= p && FirstMatch(s, 0) == Some(s[k + 1..])
  {
    assert FirstMatch(s, 0).Some?;
    k :| 0 <= k < |s| && MatchAt(s, k) && FirstMatch(s, 0).value == s[k + 1..]
      && forall k' :: 0 <= k' < k ==> !MatchAt(s, k');
  }

  lemma EndsWithTail(s: string, k: nat, suffix: string)
    requires k + |suffix| <= |s| && EndsWith(s, suffix)
    ensures EndsWith(s[k..], suffix)
  {
    assert s[k..][|s[k..]| - |suffix|..] == s[|s| - |suffix|..];
  }

  /** The URL and key predicate of a row; both or neither. */
  datatype UriResult = UriResult(url: Option<string>, keyPredicate: Option<string>)

  /** A relative link resolved against the base URL; one starting with `http` is kept. */
  function ResolveLink(link: string, cleanBase: string): string {
    if StartsWith(link, "http") then link else JoinBase(cleanBase, link)
  }

  /** The explicit URI of a row: a truthy `__metadata.uri` verbatim, else a
      truthy `@odata.id`, else a truthy `@odata.editLink`, the latter two
      resolved against the base URL unless they start with `http`; nothing
      when none is set. The string method applied to the winning field throws
      when that field is not a string. */
  function ExplicitUri(item: Json, cleanBase: string): Result<Option<string>, string> {
    var md := Get(item, "__metadata");
    if md.Some? && HasTruthy(md.value, "uri") then
      var uri := UrlField(md.value, "uri", MatchNotFunction);
      if uri.Err? then Err(uri.error) else Ok(Some(uri.value))
    else if HasTruthy(item, "@odata.id") then
      var link := UrlField(item, "@odata.id", StartsWithNotFunction);
      if link.Err? then Err(link.error) else Ok(Some(ResolveLink(link.value, cleanBase)))
    else if HasTruthy(item, "@odata.editLink") then
      var link := UrlField(item, "@odata.editLink", StartsWithNotFunction);
      if link.Err? then Err(link.error) else Ok(Some(ResolveLink(link.value, cleanBase)))
    else Ok(None)
  }

  /** `resolveItemUri`: the explicit URI with the predicate its last segments
      spell, else the entity set's URL with the row's key predicate. A `null`
      row, or an explicit URI field that is not a string, throws. */
  function ItemUri(item: Json, baseUrl: string, entitySet: Option<string>, entityType: Option<H.EntityType>)
    : (r: Result<UriResult, string>)
    ensures item.JNull? ==> r.Err?
    ensures r.Ok? ==> (r.value.url.Some? <==> r.value.keyPredicate.Some?)
  {
    if item.JNull? then Err(NullRead)
    else
      var clean := CleanBase(baseUrl);
      var explicit := ExplicitUri(item, clean);
      if explicit.Err? then Err(explicit.error)
      else if explicit.value.Some? then Ok(UriResult(explicit.value, Some(UriPredicate(explicit.value.value))))
      else if Filled(entitySet) then
        var pred := KeyPredicate(item, entityType);
        if pred.Some? then Ok(UriResult(Some(clean + entitySet.value + pred.value), pred))
        else Ok(UriResult(None, None))
      else Ok(UriResult(None, None))
  }

  /** The OData 2 `__metadata.uri` is used as it is. */
  lemma MetadataUriVerbatim(item: Json, baseUrl: string, entitySet: Option<string>, entityType: Option<H.EntityType>, md: Json, uri: string)
    requires Get(item, "__metadata") == Some(md) && Get(md, "uri") == Some(JStr(uri)) && uri != ""
    ensures ItemUri(item, baseUrl, entitySet, entityType) == Ok(UriResult(Some(uri), Some(UriPredicate(uri))))
  {
  }

  /** A set URI field that is not a string makes the resolution throw: a
      `__metadata.uri` at `.match`, an `@odata.id` at `.startsWith`. */
  lemma MalformedUriFails(item: Json, baseUrl: string, entitySet: Option<string>, entityType: Option<H.EntityType>)
    requires item.JObj?
    ensures var md := Get(item, "__metadata");
      md.Some? && HasTruthy(md.value, "uri") && !Get(md.value, "uri").value.JStr?
      ==> ItemUri(item, baseUrl, entitySet, entityType) == Err(MatchNotFunction)
    ensures var md := Get(item, "__metadata");
      !(md.Some? && HasTruthy(md.value, "uri")) && HasTruthy(item, "@odata.id") && !Get(item, "@odata.id").value.JStr?
      ==> ItemUri(item, baseUrl, entitySet, entityType) == Err(StartsWithNotFunction)
  {
  }

  /** Without an explicit URI the URL is the set's URL followed by the key
      predicate, and there is one exactly when the set is known and a key is found. */
  lemma FallbackUri(item: Json, baseUrl: string, entitySet: Option<string>, entityType: Option<H.EntityType>)
    requires !item.JNull? && ExplicitUri(item, CleanBase(baseUrl)) == Ok(None)
    ensures var r := ItemUri(item, baseUrl, entitySet, entityType);
      r.Ok? && (r.value.url.Some? <==> Filled(entitySet) && GetKeyPredicate(item, entityType).value.Some?)
    ensures var r := ItemUri(item, baseUrl, entitySet, entityType);
      r.value.url.Some? ==> (r.value.keyPredicate == GetKeyPredicate(item, entityType).value
        && r.value.url.value == CleanBase(baseUrl) + entitySet.value + r.value.keyPredicate.value)
  {
  }

  /** The first half of `resolveItemUri` as written: the local `explicitUri`
      taken from the metadata and refined step by step. */
  method FindExplicitUri(item: Json, cleanBaseUrl: string) returns (r: Result<Option<string>, string>)
    ensures r == ExplicitUri(item, cleanBaseUrl)
  {
    var explicitUri: Option<string> := None;
    var md := Get(item, "__metadata");
    if md.Some? && HasTruthy(md.value, "uri") {
      var uri := UrlField(md.value, "uri", MatchNotFunction);
      if uri.Err? {
        return Err(uri.error);
      }
      explicitUri := Some(uri.value);
    } else if HasTruthy(item, "@odata.id") {
      var link := UrlField(item, "@odata.id", StartsWithNotFunction);
      if link.Err? {
        return Err(link.error);
      }
      explicitUri := Some(link.value);
      if !StartsWith(link.value, "http") {
        explicitUri := Some(JoinBase(cleanBaseUrl, link.value));
      }
    } else if HasTruthy(item, "@odata.editLink") {
      var link := UrlField(item, "@odata.editLink", StartsWithNotFunction);
      if link.Err? {
        return Err(link.error);
      }
      explicitUri := Some(link.value);
      if !StartsWith(link.value, "http") {
        explicitUri := Some(JoinBase(cleanBaseUrl, link.value));
      }
    }
    return Ok(explicitUri);
  }

  /** `resolveItemUri` as written: the explicit URI with the predicate its
      last segment spells, else the URL built from the set and the key. */
  method ResolveItemUri(item: Json, baseUrl: string, entitySet: Option<string>, entityType: Option<H.EntityType>)
    returns (r: Result<UriResult, string>)
    ensures r == ItemUri(item, baseUrl, entitySet, entityType)
  {
    if item.JNull? {
      return Err(NullRead);
    }
    var cleanBaseUrl := if EndsWith(baseUrl, "/") then baseUrl else baseUrl + "/";
    var explicitUri := FindExplicitUri(item, cleanBaseUrl);
    if explicitUri.Err? {
      return Err(explicitUri.error);
    }
    if explicitUri.value.Some? {
      return Ok(UriResult(explicitUri.value, Some(UriPredicate(explicitUri.value.value))));
    }
    if Filled(entitySet) {
      var pred := GetKeyPredicate(item, entityType);
      if pred.value.Some? {
        return Ok(UriResult(Some(cleanBaseUrl + entitySet.value + pred.value.value), pred.value));
      }
    }
    return Ok(UriResult(None, None));
  }
}
