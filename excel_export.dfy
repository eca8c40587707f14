/** Planning an Excel export of the rows a user ticked in the result table
    (`components/query-builder/table/excel-export.ts`): which values hold a
    selection somewhere below them, which entity a batch of rows belongs to,
    the breadth-first walk that assigns every selected row to a sheet, and the
    rules that turn sheet names into valid, distinct Excel names. */
module ExcelExport {
  import opened Wrappers
  import opened Text
  import opened Records
  import opened Json
  import T = TableUtils
  import Tr = Traversal
  import H = ODataHelper

  // ===========================================================================
  // getEntityNameFromData

  /** A non-string type marker makes `.split` / `.replace` throw. */
  const NotAString: string := "TypeError: type marker is not a string"

  /** A `null` first row makes `first.__metadata` throw. */
  const NullRow: string := "TypeError: Cannot read properties of null (reading '__metadata')"

  /** `s.replace('#', '')`: a string pattern replaces its first occurrence only. */
  function RemoveFirst(s: string, c: char): string {
    var b := BeforeFirst(s, c);
    if |b| < |s| then b + s[|b| + 1..] else s
  }

  /** Without `c` the string is unchanged; otherwise exactly its first `c` is cut out. */
  lemma RemoveFirstSpec(s: string, c: char)
    ensures c !in s ==> RemoveFirst(s, c) == s
    ensures c in s ==> |RemoveFirst(s, c)| == |s| - 1
    ensures c in s ==> exists i :: 0 <= i < |s| && s[i] == c && c !in s[..i] && RemoveFirst(s, c) == s[..i] + s[i + 1..]
  {
    var b := BeforeFirst(s, c);
    if |b| < |s| {
      assert s[..|b|] == b;
    } else {
      assert b == s;
    }
  }

  /** `name.split('.').pop() || null`. */
  function LastSegment(name: string): (r: Option<string>)
    ensures r.Some? ==> r.value != "" && '.' !in r.value && EndsWith(name, r.value)
    ensures r.None? <==> AfterLast(name, '.') == ""
  {
    var seg := AfterLast(name, '.');
    AfterLastIsSuffix(name, '.');
    if seg == "" then None else Some(seg)
  }

  /** `getEntityNameFromData(data)`: the entity name of a batch of rows, read
      from the first row only: the last dotted segment of the OData V2
      `__metadata.type`, else of the V4 `@odata.type` with its `#` removed. */
  function EntityName(data: seq<Json>): (r: Result<Option<string>, string>)
    ensures data == [] ==> r == Ok(None)
    ensures r.Ok? && r.value.Some? ==> r.value.value != "" && '.' !in r.value.value
    ensures data != [] && data[0].JNull? ==> r == Err(NullRow)
    ensures data != [] && !data[0].JObj? && !data[0].JNull? ==> r == Ok(None)
  {
    if data == [] then Ok(None)
    else
      var first := data[0];
      if first.JNull? then Err(NullRow)
      else
        var md := Get(first, "__metadata");
        if md.Some? && HasTruthy(md.value, "type") then
          match Get(md.value, "type").value
          case JStr(s) => Ok(LastSegment(s))
          case _ => Err(NotAString)
        else if HasTruthy(first, "@odata.type") then
          match Get(first, "@odata.type").value
          case JStr(s) => Ok(LastSegment(RemoveFirst(s, '#')))
          case _ => Err(NotAString)
        else Ok(None)
  }

  /** Only the first row is read. */
  lemma EntityNameFromFirst(data: seq<Json>, rest: seq<Json>)
    requires data != []
    ensures EntityName(data + rest) == EntityName(data[..1])
  {
    assert (data + rest)[0] == data[..1][0];
  }

  /** A V2 row typed `Namespace.Name` names the entity `Name`. */
  lemma EntityNameV2(data: seq<Json>, md: Json, ns: string, name: string)
    requires data != [] && Get(data[0], "__metadata") == Some(md)
    requires Get(md, "type") == Some(JStr(ns + "." + name))
    requires name != "" && '.' !in name
    ensures EntityName(data) == Ok(Some(name))
  {
    H.AfterLastOfDotted(ns, name);
  }

  /** Removing the `#` of a `#`-prefixed string leaves the rest. */
  lemma RemoveLeadingHash(t: string)
    ensures RemoveFirst("#" + t, '#') == t
  {
    var s := "#" + t;
    assert BeforeFirst(s, '#') == "" by {
      assert s[0] == '#';
    }
    assert s[1..] == t;
  }

  /** The last segment of `Namespace.Name` is `Name`. */
  lemma LastSegmentOfDotted(ns: string, name: string)
    requires name != "" && '.' !in name
    ensures LastSegment(ns + "." + name) == Some(name)
  {
    H.AfterLastOfDotted(ns, name);
  }

  /** A row without `__metadata` and with a non-empty string `@odata.type`
      names the last segment of that type. */
  lemma EntityNameV4Type(data: seq<Json>, s: string)
    requires data != [] && Get(data[0], "__metadata").None?
    requires Get(data[0], "@odata.type") == Some(JStr(s)) && s != ""
    ensures EntityName(data) == Ok(LastSegment(RemoveFirst(s, '#')))
  {
    assert HasTruthy(data[0], "@odata.type");
  }

  /** A V4 row without `__metadata` typed `#Namespace.Name` names the entity `Name`. */
  lemma EntityNameV4(data: seq<Json>, ns: string, name: string)
    requires data != [] && Get(data[0], "__metadata").None?
    requires Get(data[0], "@odata.type") == Some(JStr("#" + ns + "." + name))
    requires name != "" && '.' !in name
    ensures EntityName(data) == Ok(Some(name))
  {
    var t := ns + "." + name;
    var s := "#" + ns + "." + name;
    assert s == "#" + t;
    EntityNameV4Type(data, s);
    RemoveLeadingHash(t);
    LastSegmentOfDotted(ns, name);
  }

  // ===========================================================================
  // hasDeepSelection

  /** `hasDeepSelection(v)`: `v` is, or holds below it, a row ticked for
      export. Arrays are searched element by element; of a V2
      `{results: [...]}` wrapper only the array is searched; an object counts
      when it is ticked itself or one of its expandable values (keys starting
      with `__` excluded) holds a selection. */
  function HasDeepSelection(v: Json): bool
    decreases v, 2
  {
    if !Truthy(v) then false
    else if v.JArr? then AnyDeep(v.elems, |v.elems|, v)
    else if v.JObj? && T.HasResultsArray(v) then
      LookupSmaller(v.fields, "results");
      var rs := Get(v, "results").value;
      AnyDeep(rs.elems, |rs.elems|, rs)
    else if v.JObj? then Tr.IsSelected(v) || AnyDeepField(v, |v.fields|)
    else false
  }

  /** `items[..n].some(hasDeepSelection)`, for items inside `bound`. */
  function AnyDeep(items: seq<Json>, n: nat, bound: Json): bool
    requires n <= |items| && bound.JArr? && items == bound.elems
    decreases bound, 1, n
  {
    n > 0 && (AnyDeep(items, n - 1, bound) || HasDeepSelection(items[n - 1]))
  }

  /** One entry of an object passes the `some` callback of `hasDeepSelection`. */
  predicate DeepField(key: string, val: Json)
    decreases val, 3
  {
    !StartsWith(key, "__") && T.IsExpandableData(val) && HasDeepSelection(val)
  }

  /** The `some` over the first `n` entries of an object. */
  function AnyDeepField(v: Json, n: nat): bool
    requires v.JObj? && n <= |v.fields|
    decreases v, 1, n
  {
    n > 0 && (AnyDeepField(v, n - 1) || (
      assert v.fields[n - 1].1 < v.fields[n - 1];
      DeepField(v.fields[n - 1].0, v.fields[n - 1].1)))
  }

  /** `AnyDeep` is an existential over the items. */
  lemma {:induction false} AnyDeepExists(items: seq<Json>, n: nat, bound: Json)
    requires n <= |items| && bound.JArr? && items == bound.elems
    ensures AnyDeep(items, n, bound) <==> exists i :: 0 <= i < n && HasDeepSelection(items[i])
  {
    if n > 0 {
      AnyDeepExists(items, n - 1, bound);
    }
  }

  /** `AnyDeepField` is an existential over the entries. */
  lemma {:induction false} AnyDeepFieldExists(v: Json, n: nat)
    requires v.JObj? && n <= |v.fields|
    ensures AnyDeepField(v, n) <==> exists i :: 0 <= i < n && DeepField(v.fields[i].0, v.fields[i].1)
  {
    if n > 0 {
      AnyDeepFieldExists(v, n - 1);
    }
  }

  /** The plain objects `hasDeepSelection` looks at for `__selected`, in
      search order: reached through array elements, through the array of a
      `results` wrapper, and through the expandable values of objects whose
      keys do not start with `__`. */
  function Reached(v: Json): (r: seq<Json>)
    ensures forall i :: 0 <= i < |r| ==> r[i].JObj? && !T.HasResultsArray(r[i])
    decreases v, 2
  {
    if !Truthy(v) then []
    else if v.JArr? then ReachedAll(v.elems, |v.elems|, v)
    else if v.JObj? && T.HasResultsArray(v) then
      LookupSmaller(v.fields, "results");
      var rs := Get(v, "results").value;
      ReachedAll(rs.elems, |rs.elems|, rs)
    else if v.JObj? then [v] + ReachedFields(v, |v.fields|)
    else []
  }

  function ReachedAll(items: seq<Json>, n: nat, bound: Json): (r: seq<Json>)
    requires n <= |items| && bound.JArr? && items == bound.elems
    ensures forall i :: 0 <= i < |r| ==> r[i].JObj? && !T.HasResultsArray(r[i])
    decreases bound, 1, n
  {
    if n == 0 then [] else ReachedAll(items, n - 1, bound) + Reached(items[n - 1])
  }

  function ReachedFields(v: Json, n: nat): (r: seq<Json>)
    requires v.JObj? && n <= |v.fields|
    ensures forall i :: 0 <= i < |r| ==> r[i].JObj? && !T.HasResultsArray(r[i])
    decreases v, 1, n
  {
    if n == 0 then []
    else
      assert v.fields[n - 1].1 < v.fields[n - 1];
      ReachedFields(v, n - 1) + ReachedField(v.fields[n - 1].0, v.fields[n - 1].1)
  }

  function ReachedField(key: string, val: Json): (r: seq<Json>)
    ensures forall i :: 0 <= i < |r| ==> r[i].JObj? && !T.HasResultsArray(r[i])
    decreases val, 3
  {
    if !StartsWith(key, "__") && T.IsExpandableData(val) then Reached(val) else []
  }

  /** Some object of the list is ticked. */
  predicate AnySelected(objs: seq<Json>) {
    exists i :: 0 <= i < |objs| && Tr.IsSelected(objs[i])
  }

  lemma AnySelectedConcat(a: seq<Json>, b: seq<Json>)
    ensures AnySelected(a + b) <==> AnySelected(a) || AnySelected(b)
  {
    if AnySelected(a) {
      var i :| 0 <= i < |a| && Tr.IsSelected(a[i]);
      assert (a + b)[i] == a[i];
    }
    if AnySelected(b) {
      var i :| 0 <= i < |b| && Tr.IsSelected(b[i]);
      assert (a + b)[|a| + i] == b[i];
    }
    if AnySelected(a + b) {
      var i :| 0 <= i < |a + b| && Tr.IsSelected((a + b)[i]);
      if i >= |a| {
        assert b[i - |a|] == (a + b)[i];
      } else {
        assert a[i] == (a + b)[i];
      }
    }
  }

  /** `hasDeepSelection(v)` holds exactly when an object it reaches is ticked. */
  lemma {:induction false} DeepIffReachedSelected(v: Json)
    ensures HasDeepSelection(v) <==> AnySelected(Reached(v))
    decreases v, 2
  {
    if !Truthy(v) {
    } else if v.JArr? {
      AllIffReached(v.elems, |v.elems|, v);
    } else if v.JObj? && T.HasResultsArray(v) {
      LookupSmaller(v.fields, "results");
      var rs := Get(v, "results").value;
      AllIffReached(rs.elems, |rs.elems|, rs);
    } else if v.JObj? {
      FieldsIffReached(v, |v.fields|);
      AnySelectedConcat([v], ReachedFields(v, |v.fields|));
      assert AnySelected([v]) <==> Tr.IsSelected(v) by {
        assert [v][0] == v;
      }
    }
  }

  lemma {:induction false} AllIffReached(items: seq<Json>, n: nat, bound: Json)
    requires n <= |items| && bound.JArr? && items == bound.elems
    ensures AnyDeep(items, n, bound) <==> AnySelected(ReachedAll(items, n, bound))
    decreases bound, 1, n
  {
    if n > 0 {
      AllIffReached(items, n - 1, bound);
      DeepIffReachedSelected(items[n - 1]);
      AnySelectedConcat(ReachedAll(items, n - 1, bound), Reached(items[n - 1]));
    }
  }

  lemma {:induction false} FieldsIffReached(v: Json, n: nat)
    requires v.JObj? && n <= |v.fields|
    ensures AnyDeepField(v, n) <==> AnySelected(ReachedFields(v, n))
    decreases v, 1, n
  {
    if n > 0 {
      var (key, val) := v.fields[n - 1];
      assert val < v.fields[n - 1];
      FieldsIffReached(v, n - 1);
      if !StartsWith(key, "__") && T.IsExpandableData(val) {
        DeepIffReachedSelected(val);
      }
      AnySelectedConcat(ReachedFields(v, n - 1), ReachedField(key, val));
    }
  }

  /** A ticked plain object is exported. */
  lemma SelectedIsDeep(v: Json)
    requires v.JObj? && !T.HasResultsArray(v) && Tr.IsSelected(v)
    ensures HasDeepSelection(v)
  {
  }

  /** Ticking a plain object with the recursive selection update makes it exported. */
  lemma SelectAllExports(v: Json)
    requires v.JObj? && !T.HasResultsArray(v)
    ensures HasDeepSelection(T.Update(v, true))
  {
    T.UpdateGet(v, true, "results");
    var r := T.Update(v, true);
    assert !T.HasResultsArray(r) by {
      if Get(v, "results").Some? {
        assert Get(r, "results") == Some(T.UpdateChild(Get(v, "results").value, true));
      }
    }
  }

  /** No selection survives anywhere below a value marked unselected. */
  lemma {:induction false} UnmarkedNotDeep(v: Json)
    requires T.Marked(v, false)
    ensures !HasDeepSelection(v)
    decreases v, 2
  {
    if !Truthy(v) {
    } else if v.JArr? {
      ElementsNotDeep(v);
    } else if v.JObj? && T.HasResultsArray(v) {
      LookupSmaller(v.fields, "results");
      var rs := Get(v, "results").value;
      var i :| 0 <= i < |v.fields| && v.fields[i] == ("results", rs);
      assert T.ChildMarked(v.fields[i].1, false);
      if rs.elems != [] {
        ElementsNotDeep(rs);
      } else {
        AnyDeepExists(rs.elems, 0, rs);
      }
    } else if v.JObj? {
      FieldsNotDeep(v);
    }
  }

  lemma {:induction false} ElementsNotDeep(v: Json)
    requires v.JArr? && T.Marked(v, false)
    ensures !AnyDeep(v.elems, |v.elems|, v)
    decreases v, 1
  {
    AnyDeepExists(v.elems, |v.elems|, v);
    forall i | 0 <= i < |v.elems| ensures !HasDeepSelection(v.elems[i]) {
      UnmarkedNotDeep(v.elems[i]);
    }
  }

  lemma {:induction false} FieldsNotDeep(v: Json)
    requires v.JObj? && T.Marked(v, false)
    ensures !AnyDeepField(v, |v.fields|)
    decreases v, 1
  {
    AnyDeepFieldExists(v, |v.fields|);
    forall i | 0 <= i < |v.fields| ensures !DeepField(v.fields[i].0, v.fields[i].1) {
      ChildNotDeep(v, i);
    }
  }

  lemma {:induction false} ChildNotDeep(v: Json, i: nat)
    requires v.JObj? && T.Marked(v, false) && i < |v.fields|
    ensures !DeepField(v.fields[i].0, v.fields[i].1)
    decreases v, 0
  {
    var x := v.fields[i].1;
    assert x < v.fields[i];
    assert T.ChildMarked(x, false);
    if T.IsExpandableData(x) {
      if x.JArr? {
        UnmarkedNotDeep(x);
      } else if T.HasResultsArray(x) {
        LookupSmaller(x.fields, "results");
        var rs := Get(x, "results").value;
        UnmarkedNotDeep(rs);
        assert !AnyDeep(rs.elems, |rs.elems|, rs);
      } else {
        UnmarkedNotDeep(x);
      }
    }
  }

  /** Clearing the selection recursively leaves nothing to export. */
  lemma DeselectAllClearsExport(v: Json)
    ensures !HasDeepSelection(T.Update(v, false))
  {
    T.UpdateMarks(v, false);
    UnmarkedNotDeep(T.Update(v, false));
  }

  // ===========================================================================
  // Sheet order and sheet names

  /** `a.localeCompare(b) <= 0`, taken as plain character order. */
  predicate SortedNames(s: seq<string>) {
    forall i, j :: 0 <= i < j < |s| ==> NameLe(s[i], s[j])
  }

  function InsertName(x: string, s: seq<string>): (r: seq<string>)
    ensures multiset(r) == multiset(s) + multiset{x}
  {
    if s == [] || NameLe(x, s[0]) then [x] + s
    else
      assert s == [s[0]] + s[1..];
      [s[0]] + InsertName(x, s[1..])
  }

  /** A name no later than every name of a sorted list can go in front. */
  lemma ConsSorted(a: string, t: seq<string>)
    requires SortedNames(t) && forall j :: 0 <= j < |t| ==> NameLe(a, t[j])
    ensures SortedNames([a] + t)
  {
    var r := [a] + t;
    forall i, j | 0 <= i < j < |r| ensures NameLe(r[i], r[j]) {
      assert r[j] == t[j - 1];
      if i > 0 {
        assert r[i] == t[i - 1];
      }
    }
  }

  /** The head of a sorted list comes no later than anything inserted after it. */
  lemma HeadBeforeInsert(x: string, s: seq<string>)
    requires SortedNames(s) && s != [] && NameLe(s[0], x)
    ensures forall j :: 0 <= j < |InsertName(x, s[1..])| ==> NameLe(s[0], InsertName(x, s[1..])[j])
  {
    var t := InsertName(x, s[1..]);
    forall j | 0 <= j < |t| ensures NameLe(s[0], t[j]) {
      assert t[j] in multiset(t);
      if t[j] != x {
        assert t[j] in multiset(s[1..]);
        var k :| 0 <= k < |s[1..]| && s[1..][k] == t[j];
        assert s[k + 1] == t[j];
      }
    }
  }

  lemma {:induction false} InsertSorted(x: string, s: seq<string>)
    requires SortedNames(s)
    ensures SortedNames(InsertName(x, s))
  {
    if s == [] || NameLe(x, s[0]) {
      forall j | 0 <= j < |s| ensures NameLe(x, s[j]) {
        if j > 0 {
          NameLeTransitive(x, s[0], s[j]);
        }
      }
      ConsSorted(x, s);
    } else {
      NameLeTotal(x, s[0]);
      assert SortedNames(s[1..]) by {
        forall i, j | 0 <= i < j < |s| - 1 ensures NameLe(s[1..][i], s[1..][j]) {
          assert s[1..][i] == s[i + 1] && s[1..][j] == s[j + 1];
        }
      }
      InsertSorted(x, s[1..]);
      HeadBeforeInsert(x, s);
      ConsSorted(s[0], InsertName(x, s[1..]));
    }
  }

  /** `names.sort((a, b) => a.localeCompare(b))`. */
  function SortNames(names: seq<string>): (r: seq<string>)
    ensures multiset(r) == multiset(names)
  {
    if names == [] then []
    else
      assert names == [names[0]] + names[1..];
      InsertName(names[0], SortNames(names[1..]))
  }

  lemma {:induction false} SortNamesSorted(names: seq<string>)
    ensures SortedNames(SortNames(names))
  {
    if names != [] {
      SortNamesSorted(names[1..]);
      InsertSorted(names[0], SortNames(names[1..]));
    }
  }

  /** The names other than `x`, in their order. */
  function Without(names: seq<string>, x: string): (r: seq<string>)
    ensures x !in r
    ensures forall y :: y != x ==> multiset(r)[y] == multiset(names)[y]
  {
    if names == [] then []
    else
      assert names == [names[0]] + names[1..];
      if names[0] == x then Without(names[1..], x) else [names[0]] + Without(names[1..], x)
  }

  /** The order the sheets are written in: the comparator puts the root sheet
      before every other name and orders the rest by `localeCompare`. */
  function SheetOrder(names: seq<string>, root: string): seq<string>
  {
    (if root in names then [root] else []) + SortNames(Without(names, root))
  }

  /** A name occurs at most once in a list of distinct names. */
  lemma DistinctCount(names: seq<string>, x: string)
    requires forall i, j :: 0 <= i < j < |names| ==> names[i] != names[j]
    ensures multiset(names)[x] == if x in names then 1 else 0
  {
    if names != [] {
      assert names == [names[0]] + names[1..];
      DistinctCount(names[1..], x);
      assert names[0] !in names[1..];
    }
  }

  /** The sort neither drops nor duplicates a sheet. */
  lemma SheetOrderPermutation(names: seq<string>, root: string)
    requires forall i, j :: 0 <= i < j < |names| ==> names[i] != names[j]
    ensures multiset(SheetOrder(names, root)) == multiset(names)
  {
    var w := Without(names, root);
    var o := SheetOrder(names, root);
    DistinctCount(names, root);
    assert multiset(o) == multiset(if root in names then [root] else []) + multiset(SortNames(w));
    forall y ensures multiset(o)[y] == multiset(names)[y] {
    }
  }

  /** The root sheet comes first when it has rows; the others follow by name. */
  lemma SheetOrderShape(names: seq<string>, root: string)
    ensures root in names <==> (SheetOrder(names, root) != [] && SheetOrder(names, root)[0] == root)
    ensures var rest := if root in names then SheetOrder(names, root)[1..] else SheetOrder(names, root);
      SortedNames(rest) && root !in rest
  {
    var w := SortNames(Without(names, root));
    SortNamesSorted(Without(names, root));
    assert root !in multiset(w);
    if root in names {
      assert SheetOrder(names, root)[1..] == w;
    } else if w != [] {
      assert w[0] in multiset(w);
    }
  }

  /** The characters a sheet name may not contain. */
  predicate Forbidden(c: char) {
    c == ':' || c == '\\' || c == '/' || c == '?' || c == '*' || c == '[' || c == ']'
  }

  predicate NoForbidden(name: string) {
    forall i :: 0 <= i < |name| ==> !Forbidden(name[i])
  }

  /** `rawName.substring(0, 31).replace(/[:\\\/?*\[\]]/g, "_")`. */
  function Sanitize(raw: string): (r: string)
    ensures |r| == if |raw| < 31 then |raw| else 31
    ensures NoForbidden(r)
    ensures forall i :: 0 <= i < |r| ==> r[i] == if Forbidden(raw[i]) then '_' else raw[i]
  {
    var cut := if |raw| < 31 then raw else raw[..31];
    seq(|cut|, i requires 0 <= i < |cut| => if Forbidden(cut[i]) then '_' else cut[i])
  }

  /** A valid name is left alone, and sanitising twice changes nothing more. */
  lemma SanitizeFixes(raw: string)
    ensures Sanitize(raw) == raw <==> |raw| <= 31 && NoForbidden(raw)
    ensures Sanitize(Sanitize(raw)) == Sanitize(raw)
  {
    if |raw| <= 31 && NoForbidden(raw) {
      assert Sanitize(raw) == raw;
    }
  }

  /** `${validName.substring(0, 28)}_${counter}`. */
  function Candidate(valid: string, counter: nat): (r: string)
  {
    (if |valid| < 28 then valid else valid[..28]) + "_" + IntToString(counter)
  }

  /** Different counters give different candidates. */
  lemma CandidateInjective(valid: string, m: nat, n: nat)
    requires m != n
    ensures Candidate(valid, m) != Candidate(valid, n)
  {
    var p := (if |valid| < 28 then valid else valid[..28]) + "_";
    if Candidate(valid, m) == Candidate(valid, n) {
      assert IntToString(m) == Candidate(valid, m)[|p|..];
      assert IntToString(n) == Candidate(valid, n)[|p|..];
      NatToStringInjective(m, n);
    }
  }

  /** A candidate is a valid sheet name, within Excel's 31 characters while the counter stays below 100. */
  lemma CandidateValid(valid: string, counter: nat)
    requires NoForbidden(valid)
    ensures NoForbidden(Candidate(valid, counter))
    ensures counter < 100 ==> |Candidate(valid, counter)| <= 31
  {
    var d := IntToString(counter);
    assert AllDigits(d);
    if counter >= 10 && counter < 100 {
      assert NatToString(counter) == NatToString(counter / 10) + [DigitChar(counter % 10)];
    }
  }

  /** `name` is the name the loop picks for `valid` when the names in `used`
      are taken: `valid` itself when free, otherwise the candidate with the
      smallest counter from 1 up that is free. */
  ghost predicate Chosen(valid: string, used: set<string>, name: string) {
    (valid !in used && name == valid)
    || (valid in used && name !in used && exists n: nat ::
          n >= 1 && name == Candidate(valid, n) && forall j: nat :: 1 <= j < n ==> Candidate(valid, j) in used)
  }

  /** The choice is determined by `valid` and `used`. */
  lemma ChosenUnique(valid: string, used: set<string>, a: string, b: string)
    requires Chosen(valid, used, a) && Chosen(valid, used, b)
    ensures a == b
  {
    if valid in used {
      var m: nat :| m >= 1 && a == Candidate(valid, m) && forall j: nat :: 1 <= j < m ==> Candidate(valid, j) in used;
      var n: nat :| n >= 1 && b == Candidate(valid, n) && forall j: nat :: 1 <= j < n ==> Candidate(valid, j) in used;
      assert m < n ==> Candidate(valid, m) in used;
      assert n < m ==> Candidate(valid, n) in used;
    }
  }

  /** The candidates the loop has tried before reaching `counter`. */
  function Tried(valid: string, counter: nat): set<string>
    decreases counter
  {
    if counter <= 1 then {} else Tried(valid, counter - 1) + {Candidate(valid, counter - 1)}
  }

  /** No candidate is tried twice. */
  lemma {:induction false} TriedCount(valid: string, counter: nat)
    requires counter >= 1
    ensures |Tried(valid, counter)| == counter - 1
    decreases counter
  {
    if counter > 1 {
      TriedCount(valid, counter - 1);
      TriedOnly(valid, counter - 1, counter - 1);
    }
  }

  /** Every counter below is tried. */
  lemma {:induction false} TriedBelow(valid: string, counter: nat, j: nat)
    requires 1 <= j < counter
    ensures Candidate(valid, j) in Tried(valid, counter)
    decreases counter
  {
    if j < counter - 1 {
      TriedBelow(valid, counter - 1, j);
    }
  }

  /** A tried candidate has a smaller counter. */
  lemma {:induction false} TriedOnly(valid: string, counter: nat, n: nat)
    requires n >= counter
    ensures Candidate(valid, n) !in Tried(valid, counter)
    decreases counter
  {
    if counter > 1 {
      TriedOnly(valid, counter - 1, n);
      CandidateInjective(valid, counter - 1, n);
    }
  }

  /** The `if (finalSheetNames.has(validName))` step with its `while` counter loop. */
  method PickName(valid: string, used: set<string>) returns (name: string)
    ensures Chosen(valid, used, name)
  {
    name := valid;
    if valid in used {
      var counter: nat := 1;
      while Candidate(valid, counter) in used
        invariant counter >= 1 && Tried(valid, counter) <= used
        decreases |used| - counter
      {
        TriedCount(valid, counter + 1);
        SubsetCard(Tried(valid, counter + 1), used);
        counter := counter + 1;
      }
      forall j: nat | 1 <= j < counter ensures Candidate(valid, j) in used {
        TriedBelow(valid, counter, j);
      }
      name := Candidate(valid, counter);
    }
  }

  lemma SubsetCard(a: set<string>, b: set<string>)
    requires a <= b
    ensures |a| <= |b|
  {
    assert b == a + (b - a);
  }

  /** The names given out so far, as the `finalSheetNames` set. */
  function NameSet(names: seq<string>): set<string> {
    set x | x in names
  }

  /** A picked name is free and, like the sanitised name it comes from, valid. */
  lemma ChosenValid(valid: string, used: set<string>, name: string)
    requires NoForbidden(valid) && Chosen(valid, used, name)
    ensures name !in used && NoForbidden(name)
  {
    if valid in used {
      var n: nat :| n >= 1 && name == Candidate(valid, n) && forall j: nat :: 1 <= j < n ==> Candidate(valid, j) in used;
      CandidateValid(valid, n);
    }
  }

  /** `names[i]` is the name picked for the `i`-th sheet, given the names before it. */
  ghost predicate NamesFor(sorted: seq<string>, names: seq<string>) {
    |names| <= |sorted|
    && forall i :: 0 <= i < |names| ==> Chosen(Sanitize(sorted[i]), NameSet(names[..i]), names[i])
  }

  /** Picking names one after another gives pairwise distinct, valid names. */
  lemma NamesForDistinct(sorted: seq<string>, names: seq<string>)
    requires NamesFor(sorted, names)
    ensures forall i, j :: 0 <= i < j < |names| ==> names[i] != names[j]
    ensures forall i :: 0 <= i < |names| ==> NoForbidden(names[i])
  {
    forall i | 0 <= i < |names| ensures names[i] !in NameSet(names[..i]) && NoForbidden(names[i]) {
      ChosenValid(Sanitize(sorted[i]), NameSet(names[..i]), names[i]);
    }
    forall i, j | 0 <= i < j < |names| ensures names[i] != names[j] {
      assert names[i] in NameSet(names[..j]) by {
        assert names[..j][i] == names[i];
      }
    }
  }

  lemma NamesForStep(sorted: seq<string>, names: seq<string>, name: string)
    requires NamesFor(sorted, names) && |names| < |sorted|
    requires Chosen(Sanitize(sorted[|names|]), NameSet(names), name)
    ensures NamesFor(sorted, names + [name])
  {
    var next := names + [name];
    assert next[..|names|] == names;
    forall i | 0 <= i < |names| ensures next[..i] == names[..i] {
    }
  }

  /** The `sortedSheetNames.forEach` that gives every sheet its Excel name:
      sanitised, and renamed on a collision with a name already given out.
      The names given out are pairwise distinct and free of forbidden characters. */
  method FinalNames(sorted: seq<string>) returns (names: seq<string>)
    ensures |names| == |sorted| && NamesFor(sorted, names)
    ensures forall i, j :: 0 <= i < j < |names| ==> names[i] != names[j]
    ensures forall i :: 0 <= i < |names| ==> NoForbidden(names[i])
  {
    var finalSet: set<string> := {};
    names := [];
    for k := 0 to |sorted|
      invariant |names| == k && NamesFor(sorted, names)
      invariant finalSet == NameSet(names)
    {
      var name := PickName(Sanitize(sorted[k]), finalSet);
      NamesForStep(sorted, names, name);
      names := names + [name];
      finalSet := finalSet + {name};
    }
    NamesForDistinct(sorted, names);
  }

  // ===========================================================================
  // The breadth-first walk of exportToExcel

  /** The depth of a value: how many arrays and objects are nested in it. */
  function Height(v: Json): nat
    decreases v, 1
  {
    if v.JArr? || v.JObj? then 1 + EntriesHeight(v, |Entries(v)|) else 0
  }

  function EntriesHeight(v: Json, n: nat): nat
    requires n <= |Entries(v)|
    decreases v, 0, n
  {
    if n == 0 then 0
    else
      EntriesSmaller(v, n - 1);
      var h := Height(Entries(v)[n - 1].1);
      var m := EntriesHeight(v, n - 1);
      if h > m then h else m
  }

  lemma {:induction false} EntriesHeightBound(v: Json, n: nat, i: nat)
    requires i < n <= |Entries(v)|
    ensures Height(Entries(v)[i].1) <= EntriesHeight(v, n)
  {
    if i < n - 1 {
      EntriesHeightBound(v, n - 1, i);
    }
  }

  /** A value held by an array or object is less deep than it. */
  lemma EntryLower(v: Json, i: nat)
    requires i < |Entries(v)|
    ensures Height(Entries(v)[i].1) < Height(v)
  {
    EntriesHeightBound(v, |Entries(v)|, i);
  }

  lemma PropertyLower(v: Json, k: string)
    requires Get(v, k).Some?
    ensures Height(Get(v, k).value) < Height(v)
  {
    var i :| 0 <= i < |v.fields| && v.fields[i] == (k, Get(v, k).value);
    EntryLower(v, i);
  }

  /** `childDataArray`: the rows an expandable value stands for. An array is
      its elements, a `results` wrapper its array, any other object one row. */
  function ChildRows(val: Json): (r: seq<Json>)
    ensures val.JArr? ==> r == val.elems
    ensures !val.JArr? && T.HasResultsArray(val) ==> r == Get(val, "results").value.elems
    ensures !val.JArr? && !T.HasResultsArray(val) && val.JObj? ==> r == [val]
  {
    if val.JArr? then val.elems
    else if T.HasResultsArray(val) then
      LookupSmaller(val.fields, "results");
      Get(val, "results").value.elems
    else if Truthy(val) && IsObject(val) then [val]
    else []
  }

  /** A child row lies inside the value it comes from. */
  lemma ChildRowsInside(val: Json, i: nat)
    requires i < |ChildRows(val)|
    ensures ChildRows(val)[i] == val || ChildRows(val)[i] < val
  {
    if !val.JArr? && T.HasResultsArray(val) {
      LookupSmaller(val.fields, "results");
      assert ChildRows(val)[i] in Get(val, "results").value.elems;
    }
  }

  /** The children `DeepRows(ChildRows(val))` of a property of `row` lie inside `row`. */
  lemma DeepChildrenInside(val: Json, row: Json)
    requires val < row
    ensures forall i :: 0 <= i < |DeepRows(ChildRows(val))| ==> DeepRows(ChildRows(val))[i] < row
  {
    DeepRowsFacts(ChildRows(val));
    forall i | 0 <= i < |DeepRows(ChildRows(val))| ensures DeepRows(ChildRows(val))[i] < row {
      var x := DeepRows(ChildRows(val))[i];
      var k :| 0 <= k < |ChildRows(val)| && ChildRows(val)[k] == x;
      ChildRowsInside(val, k);
    }
  }

  /** A child row is no deeper than the value it comes from. */
  lemma ChildRowsLower(val: Json, i: nat)
    requires i < |ChildRows(val)|
    ensures Height(ChildRows(val)[i]) <= Height(val)
  {
    if val.JArr? {
      assert Entries(val)[i].1 == val.elems[i];
      EntryLower(val, i);
    } else if T.HasResultsArray(val) {
      var rs := Get(val, "results").value;
      PropertyLower(val, "results");
      assert Entries(rs)[i].1 == rs.elems[i];
      EntryLower(rs, i);
    }
  }

  /** `rows.filter(hasDeepSelection)`. */
  function DeepRows(rows: seq<Json>): (r: seq<Json>)
    ensures |r| <= |rows|
  {
    if rows == [] then []
    else
      var rest := DeepRows(rows[1..]);
      if HasDeepSelection(rows[0]) then [rows[0]] + rest else rest
  }

  /** The filter keeps exactly the rows with a deep selection. */
  lemma {:induction false} DeepRowsFacts(rows: seq<Json>)
    ensures forall i :: 0 <= i < |DeepRows(rows)| ==> HasDeepSelection(DeepRows(rows)[i]) && DeepRows(rows)[i] in rows
    ensures forall x :: x in rows && HasDeepSelection(x) ==> x in DeepRows(rows)
  {
    if rows != [] {
      var tail := rows[1..];
      DeepRowsFacts(tail);
      var rest := DeepRows(tail);
      var r := DeepRows(rows);
      var keep := HasDeepSelection(rows[0]);
      assert r == if keep then [rows[0]] + rest else rest;
      assert rows == [rows[0]] + tail;
      forall x | x in rows && HasDeepSelection(x) ensures x in r {
        if x != rows[0] {
          assert x in tail;
        }
      }
      forall i | 0 <= i < |r| ensures HasDeepSelection(r[i]) && r[i] in rows {
        var k := if keep then i - 1 else i;
        if k >= 0 {
          var y := rest[k];
          assert HasDeepSelection(y) && y in tail;
          assert r[i] == y;
        }
      }
    }
  }

  /** A row of a sheet: `flatRow`, the cells in the order they were written. */
  type Row = Record<Json>

  /** The link cell written for an expandable value whose children go to `sheet`. */
  function SheetLink(sheet: string): Json {
    JStr("[Sheet: " + sheet + "]")
  }

  /** The cell written for an expandable value none of whose children is selected. */
  const NoneSelected: Json := JStr("[0 Selected]")

  /** The state one row builds up: its cells, and the rows queued for the next level by sheet name. */
  datatype RowState = RowState(flat: Row, next: Record<seq<Json>>)

  /** The sheet the selected children of the value under `key` go to: their
      entity name, else the key. */
  function ChildSheet(key: string, items: seq<Json>): (r: Result<string, string>)
    ensures r.Ok? ==> r.value != "" || key == ""
  {
    match EntityName(items)
    case Err(e) => Err(e)
    case Ok(detected) => Ok(if detected.Some? then detected.value else key)
  }

  /** `nextLevelTasks.get(name).rows.push(...items)`, creating the entry first when missing. */
  function Enqueue(next: Record<seq<Json>>, name: string, items: seq<Json>): Record<seq<Json>> {
    var rows := Lookup(next, name);
    Assign(next, name, (if rows.Some? then rows.value else []) + items)
  }

  /** The callback of `Object.entries(row).forEach` for one entry. */
  function FieldStep(st: RowState, selected: bool, key: string, val: Json): Result<RowState, string>
  {
    if StartsWith(key, "__") then Ok(st)
    else if T.IsExpandableData(val) then
      var items := DeepRows(ChildRows(val));
      if |items| > 0 then
        match ChildSheet(key, items)
        case Err(e) => Err(e)
        case Ok(name) =>
          Ok(RowState(if selected then Assign(st.flat, key, SheetLink(name)) else st.flat,
                      Enqueue(st.next, name, items)))
      else if selected && |ChildRows(val)| > 0 then Ok(st.(flat := Assign(st.flat, key, NoneSelected)))
      else Ok(st)
    else if selected then Ok(st.(flat := Assign(st.flat, key, val)))
    else Ok(st)
  }

  /** The first `n` entries of a row, folded through `FieldStep`. */
  function FieldsFold(es: seq<(string, Json)>, selected: bool, st: RowState, n: nat): Result<RowState, string>
    requires n <= |es|
  {
    if n == 0 then Ok(st)
    else
      match FieldsFold(es, selected, st, n - 1)
      case Err(e) => Err(e)
      case Ok(mid) => FieldStep(mid, selected, es[n - 1].0, es[n - 1].1)
  }

  /** One row of a batch: its cells start empty; the rows it queues join `next`. */
  function RowResult(row: Json, next: Record<seq<Json>>): Result<RowState, string> {
    FieldsFold(Entries(row), Tr.IsSelected(row), RowState([], next), |Entries(row)|)
  }

  /** A batch: the rows written to its sheet and the next level's rows by sheet name. */
  datatype Batch = Batch(rows: seq<Row>, next: Record<seq<Json>>)

  /** The first `n` rows of a batch, processed in order. */
  function BatchFold(data: seq<Json>, n: nat): Result<Batch, string>
    requires n <= |data|
  {
    if n == 0 then Ok(Batch([], []))
    else
      match BatchFold(data, n - 1)
      case Err(e) => Err(e)
      case Ok(b) =>
        match RowResult(data[n - 1], b.next)
        case Err(e) => Err(e)
        case Ok(st) => Ok(Batch(if Tr.IsSelected(data[n - 1]) then b.rows + [st.flat] else b.rows, st.next))
  }

  /** Every list queued for the next level is non-empty and holds rows with a
      deep selection that are less deep than `h`. */
  predicate Queued(next: Record<seq<Json>>, h: nat) {
    forall i :: 0 <= i < |next| ==> next[i].1 != [] && DeepBelow(next[i].1, h)
  }

  predicate DeepBelow(rows: seq<Json>, h: nat) {
    forall j :: 0 <= j < |rows| ==> HasDeepSelection(rows[j]) && Height(rows[j]) < h
  }

  lemma EnqueueQueued(next: Record<seq<Json>>, name: string, items: seq<Json>, h: nat)
    requires Queued(next, h) && items != [] && DeepBelow(items, h)
    ensures Queued(Enqueue(next, name, items), h)
  {
    var old_ := Lookup(next, name);
    var rows := (if old_.Some? then old_.value else []) + items;
    var r := Enqueue(next, name, items);
    assert DeepBelow(rows, h) by {
      if old_.Some? {
        var i :| 0 <= i < |next| && next[i] == (name, old_.value);
        assert DeepBelow(old_.value, h);
      }
    }
    forall i | 0 <= i < |r| ensures r[i].1 != [] && DeepBelow(r[i].1, h) {
      AssignAt(next, name, rows, i);
    }
  }

  /** The selected children of a value held by a row are less deep than the row. */
  lemma ItemsBelow(val: Json, h: nat)
    requires Height(val) < h
    ensures DeepBelow(DeepRows(ChildRows(val)), h)
  {
    var items := DeepRows(ChildRows(val));
    DeepRowsFacts(ChildRows(val));
    forall j | 0 <= j < |items| ensures Height(items[j]) < h {
      var k :| 0 <= k < |ChildRows(val)| && ChildRows(val)[k] == items[j];
      ChildRowsLower(val, k);
    }
  }

  lemma {:induction false} FoldQueued(es: seq<(string, Json)>, selected: bool, st: RowState, n: nat, h: nat)
    requires n <= |es| && Queued(st.next, h)
    requires forall i :: 0 <= i < |es| ==> Height(es[i].1) < h
    requires FieldsFold(es, selected, st, n).Ok?
    ensures Queued(FieldsFold(es, selected, st, n).value.next, h)
  {
    if n > 0 {
      FoldQueued(es, selected, st, n - 1, h);
      var mid := FieldsFold(es, selected, st, n - 1).value;
      var (key, val) := es[n - 1];
      if !StartsWith(key, "__") && T.IsExpandableData(val) {
        var items := DeepRows(ChildRows(val));
        if |items| > 0 {
          ItemsBelow(val, h);
          EnqueueQueued(mid.next, ChildSheet(key, items).value, items, h);
        }
      }
    }
  }

  /** A row queues only rows less deep than itself that hold a selection. */
  lemma RowQueued(row: Json, next: Record<seq<Json>>, h: nat)
    requires Height(row) <= h && Queued(next, h) && RowResult(row, next).Ok?
    ensures Queued(RowResult(row, next).value.next, h)
  {
    forall i | 0 <= i < |Entries(row)| ensures Height(Entries(row)[i].1) < h {
      EntryLower(row, i);
    }
    FoldQueued(Entries(row), Tr.IsSelected(row), RowState([], next), |Entries(row)|, h);
  }

  /** No cell of a written row has a key starting with `__`. */
  predicate CleanRow(flat: Row) {
    forall i :: 0 <= i < |flat| ==> !StartsWith(flat[i].0, "__")
  }

  lemma CleanAssign(flat: Row, key: string, v: Json)
    requires CleanRow(flat) && !StartsWith(key, "__")
    ensures CleanRow(Assign(flat, key, v))
  {
    forall i | 0 <= i < |Assign(flat, key, v)| ensures !StartsWith(Assign(flat, key, v)[i].0, "__") {
      AssignAt(flat, key, v, i);
    }
  }

  /** Folding the entries keeps the row clean, and writes nothing for an unselected row. */
  lemma {:induction false} FoldClean(es: seq<(string, Json)>, selected: bool, st: RowState, n: nat)
    requires n <= |es| && CleanRow(st.flat) && FieldsFold(es, selected, st, n).Ok?
    ensures CleanRow(FieldsFold(es, selected, st, n).value.flat)
    ensures !selected ==> FieldsFold(es, selected, st, n).value.flat == st.flat
  {
    if n > 0 {
      FoldClean(es, selected, st, n - 1);
      var mid := FieldsFold(es, selected, st, n - 1).value;
      var (key, val) := es[n - 1];
      if !StartsWith(key, "__") && selected {
        var items := DeepRows(ChildRows(val));
        if T.IsExpandableData(val) && |items| > 0 {
          CleanAssign(mid.flat, key, SheetLink(ChildSheet(key, items).value));
        } else if T.IsExpandableData(val) {
          CleanAssign(mid.flat, key, NoneSelected);
        } else {
          CleanAssign(mid.flat, key, val);
        }
      }
    }
  }

  /** How many of the rows are ticked. */
  function CountSelected(rows: seq<Json>): nat {
    if rows == [] then 0
    else CountSelected(rows[..|rows| - 1]) + (if Tr.IsSelected(rows[|rows| - 1]) then 1 else 0)
  }

  /** A batch writes one row per ticked row. */
  lemma {:induction false} BatchCount(data: seq<Json>, n: nat)
    requires n <= |data| && BatchFold(data, n).Ok?
    ensures |BatchFold(data, n).value.rows| == CountSelected(data[..n])
  {
    if n > 0 {
      BatchCount(data, n - 1);
      var b := BatchFold(data, n - 1).value;
      BatchFoldStep(data, n, b, RowResult(data[n - 1], b.next));
      CountPrefix(data, n);
    }
  }

  /** Counting the ticked rows of a prefix one row longer. */
  lemma CountPrefix(data: seq<Json>, n: nat)
    requires 0 < n <= |data|
    ensures CountSelected(data[..n]) == CountSelected(data[..n - 1]) + (if Tr.IsSelected(data[n - 1]) then 1 else 0)
  {
    assert data[..n][..n - 1] == data[..n - 1];
  }

  /** A batch queues only selections lying deeper than its rows, each under a non-empty list. */
  lemma {:induction false} BatchQueued(data: seq<Json>, n: nat, h: nat)
    requires n <= |data| && forall i :: 0 <= i < |data| ==> Height(data[i]) <= h
    requires BatchFold(data, n).Ok?
    ensures Queued(BatchFold(data, n).value.next, h)
  {
    if n > 0 {
      BatchQueued(data, n - 1, h);
      var b := BatchFold(data, n - 1).value;
      BatchFoldStep(data, n, b, RowResult(data[n - 1], b.next));
      RowQueued(data[n - 1], b.next, h);
    }
  }

  /** Every row a batch writes is clean. */
  lemma {:induction false} BatchClean(data: seq<Json>, n: nat)
    requires n <= |data| && BatchFold(data, n).Ok?
    ensures forall i :: 0 <= i < |BatchFold(data, n).value.rows| ==> CleanRow(BatchFold(data, n).value.rows[i])
  {
    if n > 0 {
      BatchClean(data, n - 1);
      var b := BatchFold(data, n - 1).value;
      var row := data[n - 1];
      var st := RowResult(row, b.next);
      BatchFoldStep(data, n, b, st);
      FoldClean(Entries(row), Tr.IsSelected(row), RowState([], b.next), |Entries(row)|);
      if Tr.IsSelected(row) {
        var rows := b.rows + [st.value.flat];
        forall i | 0 <= i < |rows| ensures CleanRow(rows[i]) {
          if i == |b.rows| {
            assert rows[i] == st.value.flat;
          } else {
            assert rows[i] == b.rows[i];
          }
        }
      }
    }
  }

  /** The cell a ticked row gets for its entry `(key, val)` (keys starting
      with `__` aside): the value itself when it is not expandable; a link to
      the child sheet when some child holds a selection; `[0 Selected]` when
      there are children but none is selected; no cell otherwise. */
  function ExpectedCell(key: string, val: Json): Option<Json> {
    if T.IsExpandableData(val) then
      var items := DeepRows(ChildRows(val));
      if |items| > 0 then
        match ChildSheet(key, items)
        case Ok(name) => Some(SheetLink(name))
        case Err(_) => None
      else if |ChildRows(val)| > 0 then Some(NoneSelected)
      else None
    else Some(val)
  }

  /** One step of a ticked row's fold writes the entry's expected cell under
      its key, or nothing, and leaves the other cells alone. */
  lemma StepCell(mid: RowState, key: string, val: Json)
    requires FieldStep(mid, true, key, val).Ok?
    ensures var flat := FieldStep(mid, true, key, val).value.flat;
      Lookup(flat, key) == (if !StartsWith(key, "__") && ExpectedCell(key, val).Some? then ExpectedCell(key, val) else Lookup(mid.flat, key))
      && forall k :: k != key ==> Lookup(flat, k) == Lookup(mid.flat, k)
  {
  }

  /** No entry among the first `n` has key `k`. */
  predicate Absent(es: seq<(string, Json)>, n: nat, k: string)
    requires n <= |es|
  {
    forall i :: 0 <= i < n ==> es[i].0 != k
  }

  /** The cells of the first `n` entries: each kept key holds its expected
      cell, and no other key has one. */
  ghost predicate CellsOf(es: seq<(string, Json)>, n: nat, flat: Row)
    requires n <= |es|
  {
    (forall i :: 0 <= i < n && !StartsWith(es[i].0, "__") ==> Lookup(flat, es[i].0) == ExpectedCell(es[i].0, es[i].1))
    && forall k :: StartsWith(k, "__") || Absent(es, n, k) ==> Lookup(flat, k).None?
  }

  /** Entry `n - 1` written as `StepCell` says extends `CellsOf` by one entry. */
  lemma CellsStep(es: seq<(string, Json)>, n: nat, mid: Row, flat: Row)
    requires 0 < n <= |es| && DistinctKeys(es) && CellsOf(es, n - 1, mid)
    requires var (key, val) := es[n - 1];
      Lookup(flat, key) == (if !StartsWith(key, "__") && ExpectedCell(key, val).Some? then ExpectedCell(key, val) else Lookup(mid, key))
      && forall k :: k != key ==> Lookup(flat, k) == Lookup(mid, k)
    ensures CellsOf(es, n, flat)
  {
    var key := es[n - 1].0;
    assert Absent(es, n - 1, key);
    forall i | 0 <= i < n && !StartsWith(es[i].0, "__") ensures Lookup(flat, es[i].0) == ExpectedCell(es[i].0, es[i].1) {
      if i < n - 1 {
        assert es[i].0 != key;
      }
    }
    forall k | StartsWith(k, "__") || Absent(es, n, k) ensures Lookup(flat, k).None? {
      if k != key {
        assert StartsWith(k, "__") || Absent(es, n - 1, k);
      }
    }
  }

  lemma {:induction false} FoldCells(es: seq<(string, Json)>, st: RowState, n: nat)
    requires n <= |es| && DistinctKeys(es) && st.flat == []
    requires FieldsFold(es, true, st, n).Ok?
    ensures CellsOf(es, n, FieldsFold(es, true, st, n).value.flat)
  {
    if n > 0 {
      FoldCells(es, st, n - 1);
      var mid := FieldsFold(es, true, st, n - 1).value;
      assert FieldsFold(es, true, st, n) == FieldStep(mid, true, es[n - 1].0, es[n - 1].1);
      StepCell(mid, es[n - 1].0, es[n - 1].1);
      CellsStep(es, n, mid.flat, FieldsFold(es, true, st, n).value.flat);
    }
  }

  /** Each cell of a ticked row, as `ExpectedCell` says, and no other cells.
      (The keys of an object are distinct in JavaScript; those of an array are
      its indices.) */
  lemma RowCells(row: Json, next: Record<seq<Json>>)
    requires Tr.IsSelected(row) && DistinctKeys(row.fields) && RowResult(row, next).Ok?
    ensures var flat := RowResult(row, next).value.flat;
      (forall i :: 0 <= i < |row.fields| && !StartsWith(row.fields[i].0, "__") ==>
         Lookup(flat, row.fields[i].0) == ExpectedCell(row.fields[i].0, row.fields[i].1))
      && forall k :: StartsWith(k, "__") || k !in Keys(row.fields) ==> Lookup(flat, k).None?
  {
    forall k | k !in Keys(row.fields) ensures Absent(row.fields, |row.fields|, k) {
      KeysIndex(row.fields, k);
    }
    FoldCells(row.fields, RowState([], next), |row.fields|);
    assert CellsOf(row.fields, |row.fields|, RowResult(row, next).value.flat);
  }

  /** A row that is not ticked gets no cells, though its selected children are still queued. */
  lemma UnselectedRowWritesNothing(row: Json, next: Record<seq<Json>>)
    requires !Tr.IsSelected(row) && RowResult(row, next).Ok?
    ensures RowResult(row, next).value.flat == []
  {
    FoldClean(Entries(row), false, RowState([], next), |Entries(row)|);
  }

  /** Once a step of the fold fails, the fold fails with that error. */
  lemma {:induction false} FoldErrSticks(es: seq<(string, Json)>, selected: bool, st: RowState, n: nat, m: nat)
    requires n <= m <= |es| && FieldsFold(es, selected, st, n).Err?
    ensures FieldsFold(es, selected, st, m) == FieldsFold(es, selected, st, n)
  {
    if m > n {
      FoldErrSticks(es, selected, st, n, m - 1);
      FoldErrStep(es, selected, st, m);
    }
  }

  lemma FoldErrStep(es: seq<(string, Json)>, selected: bool, st: RowState, m: nat)
    requires 0 < m <= |es| && FieldsFold(es, selected, st, m - 1).Err?
    ensures FieldsFold(es, selected, st, m) == FieldsFold(es, selected, st, m - 1)
  {
  }

  lemma {:induction false} BatchErrSticks(data: seq<Json>, n: nat, m: nat)
    requires n <= m <= |data| && BatchFold(data, n).Err?
    ensures BatchFold(data, m) == BatchFold(data, n)
    decreases m
  {
    if m > n {
      BatchErrSticks(data, n, m - 1);
    }
  }

  /** `Object.entries(row).forEach(...)` over one row. */
  method ProcessRow(row: Json, next: Record<seq<Json>>) returns (r: Result<RowState, string>)
    ensures r == RowResult(row, next)
  {
    var es := Entries(row);
    var selected := Tr.IsSelected(row);
    var st := RowState([], next);
    for i := 0 to |es|
      invariant FieldsFold(es, selected, RowState([], next), i) == Ok(st)
    {
      var step := FieldStep(st, selected, es[i].0, es[i].1);
      if step.Err? {
        FoldErrSticks(es, selected, RowState([], next), i + 1, |es|);
        return Err(step.error);
      }
      st := step.value;
    }
    return Ok(st);
  }

  /** One more row of a batch, given how the row came out. */
  lemma BatchFoldStep(data: seq<Json>, n: nat, b: Batch, st: Result<RowState, string>)
    requires 0 < n <= |data| && BatchFold(data, n - 1) == Ok(b) && RowResult(data[n - 1], b.next) == st
    ensures st.Err? ==> BatchFold(data, n) == Err(st.error)
    ensures st.Ok? ==> BatchFold(data, n) == Ok(Batch(if Tr.IsSelected(data[n - 1]) then b.rows + [st.value.flat] else b.rows, st.value.next))
  {
  }

  /** The callback of `data.forEach` for row `i` of a batch: a ticked row's
      cells join the batch's rows, and the children it queues join `next`. */
  method ProcessBatchRow(data: seq<Json>, i: nat, b: Batch) returns (r: Result<Batch, string>)
    requires i < |data| && BatchFold(data, i) == Ok(b)
    ensures r == BatchFold(data, i + 1)
    ensures r.Err? ==> BatchFold(data, |data|) == r
  {
    var st := ProcessRow(data[i], b.next);
    BatchFoldStep(data, i + 1, b, st);
    if st.Err? {
      BatchErrSticks(data, i + 1, |data|);
      return Err(st.error);
    }
    var rows := if Tr.IsSelected(data[i]) then b.rows + [st.value.flat] else b.rows;
    return Ok(Batch(rows, st.value.next));
  }

  /** `data.forEach(...)` over one batch: the selected rows go to the batch's
      sheet, the selected children to `nextLevelTasks`. */
  method ProcessBatch(data: seq<Json>) returns (r: Result<Batch, string>)
    ensures r == BatchFold(data, |data|)
  {
    var b := Batch([], []);
    for i := 0 to |data|
      invariant BatchFold(data, i) == Ok(b)
    {
      var step := ProcessBatchRow(data, i, b);
      if step.Err? {
        return step;
      }
      b := step.value;
    }
    return Ok(b);
  }

  /** A queue entry: a batch of rows and the sheet its selected rows go to. */
  datatype Task = Task(data: seq<Json>, sheetName: string)

  /** The tasks `nextLevelTasks.forEach` pushes, in the order the sheet names were first used. */
  function TasksOf(next: Record<seq<Json>>): (r: seq<Task>)
    ensures |r| == |next| && forall k :: 0 <= k < |r| ==> r[k] == Task(next[k].1, next[k].0)
  {
    seq(|next|, k requires 0 <= k < |next| => Task(next[k].1, next[k].0))
  }

  /** A batch is non-empty and none of its rows is deeper than `h`. */
  predicate Within(t: Task, h: int) {
    t.data != [] && MaxHeight(t.data) <= h
  }

  /** The deepest of the rows. */
  function MaxHeight(rows: seq<Json>): (h: nat)
    ensures forall i :: 0 <= i < |rows| ==> Height(rows[i]) <= h
  {
    if rows == [] then 0
    else
      var m := MaxHeight(rows[1..]);
      assert forall i :: 1 <= i < |rows| ==> rows[i] == rows[1..][i - 1];
      if Height(rows[0]) > m then Height(rows[0]) else m
  }

  /** The deepest row is no deeper than a bound on every row. */
  lemma {:induction false} MaxHeightBound(rows: seq<Json>, h: nat)
    requires forall i :: 0 <= i < |rows| ==> Height(rows[i]) <= h
    ensures MaxHeight(rows) <= h
  {
    if rows != [] {
      assert forall i :: 0 <= i < |rows| - 1 ==> rows[1..][i] == rows[i + 1];
      MaxHeightBound(rows[1..], h);
    }
  }

  /** The tasks of one batch lie a level deeper than the batch. */
  lemma TasksWithin(next: Record<seq<Json>>, h: nat)
    requires Queued(next, h)
    ensures forall t :: t in TasksOf(next) ==> h >= 1 && Within(t, h - 1)
  {
    forall t | t in TasksOf(next) ensures h >= 1 && Within(t, h - 1) {
      var k :| 0 <= k < |TasksOf(next)| && TasksOf(next)[k] == t;
      assert t.data == next[k].1 && DeepBelow(t.data, h);
      assert Height(t.data[0]) < h;
      MaxHeightBound(t.data, h - 1);
    }
  }

  /** The sheets built so far: distinct names, clean rows. */
  predicate GoodSheets(sheets: Record<seq<Row>>) {
    DistinctKeys(sheets) && forall i, j :: 0 <= i < |sheets| && 0 <= j < |sheets[i].1| ==> CleanRow(sheets[i].1[j])
  }

  /** `sheetsMap.get(name)!.push(...rows)` after creating the sheet when missing. */
  function AddRows(sheets: Record<seq<Row>>, name: string, rows: seq<Row>): Record<seq<Row>> {
    var existing := Lookup(sheets, name);
    Assign(sheets, name, (if existing.Some? then existing.value else []) + rows)
  }

  /** Adding clean rows keeps the sheets good, and keeps every sheet where it was with its old rows first. */
  lemma AddRowsGood(sheets: Record<seq<Row>>, name: string, rows: seq<Row>)
    requires GoodSheets(sheets) && forall j :: 0 <= j < |rows| ==> CleanRow(rows[j])
    ensures GoodSheets(AddRows(sheets, name, rows)) && Extends(sheets, AddRows(sheets, name, rows))
  {
    var existing := Lookup(sheets, name);
    var all := (if existing.Some? then existing.value else []) + rows;
    var r := AddRows(sheets, name, rows);
    AssignDistinct(sheets, name, all);
    forall i | 0 <= i < |r| ensures (forall j :: 0 <= j < |r[i].1| ==> CleanRow(r[i].1[j])) && (i < |sheets| ==> sheets[i].1 <= r[i].1) {
      AssignAt(sheets, name, all, i);
      if i < |sheets| && r[i] != sheets[i] {
        LookupAt(sheets, name, i);
      } else if i >= |sheets| {
        assert existing.None?;
      }
      if existing.Some? {
        var k :| 0 <= k < |sheets| && sheets[k] == (name, existing.value);
      }
    }
  }

  /** The sheets in `later` extend those in `sheets`: every sheet stays where
      it was, with its old rows first. */
  predicate Extends(sheets: Record<seq<Row>>, later: Record<seq<Row>>) {
    |later| >= |sheets|
    && forall i :: 0 <= i < |sheets| ==> later[i].0 == sheets[i].0 && sheets[i].1 <= later[i].1
  }

  lemma ExtendsTrans(a: Record<seq<Row>>, b: Record<seq<Row>>, c: Record<seq<Row>>)
    requires Extends(a, b) && Extends(b, c)
    ensures Extends(a, c)
  {
    forall i | 0 <= i < |a| ensures c[i].0 == a[i].0 && a[i].1 <= c[i].1 {
      assert b[i].0 == a[i].0 && a[i].1 <= b[i].1;
      assert c[i].0 == b[i].0 && b[i].1 <= c[i].1;
    }
  }

  /** `nextLevelTasks.forEach((task, name) => queue.push(...))`. */
  method PushTasks(queue: seq<Task>, next: Record<seq<Json>>) returns (q: seq<Task>)
    ensures q == queue + TasksOf(next)
  {
    q := queue;
    for k := 0 to |next|
      invariant q == queue + TasksOf(next)[..k]
    {
      q := q + [Task(next[k].1, next[k].0)];
      assert TasksOf(next)[..k + 1] == TasksOf(next)[..k] + [Task(next[k].1, next[k].0)];
    }
    assert TasksOf(next)[..|next|] == TasksOf(next);
  }

  /** One pass of the loop body: the batch's rows are all clean, and what it
      queues lies a level deeper than its rows. */
  method RunTask(data: seq<Json>, ghost h: nat) returns (r: Result<Batch, string>)
    requires forall i :: 0 <= i < |data| ==> Height(data[i]) <= h
    ensures r == BatchFold(data, |data|)
    ensures r.Ok? ==> (forall j :: 0 <= j < |r.value.rows| ==> CleanRow(r.value.rows[j])) && Queued(r.value.next, h)
  {
    r := ProcessBatch(data);
    if r.Ok? {
      BatchClean(data, |data|);
      BatchQueued(data, |data|, h);
    }
  }

  // ---------------------------------------------------------------------------
  // The walk as a specification, level by level

  /** One more than the deepest row of the tasks: what the walk still has
      to descend. */
  function Rank(ts: seq<Task>): nat {
    if ts == [] then 0
    else
      var m := Rank(ts[1..]);
      if MaxHeight(ts[0].data) + 1 > m then MaxHeight(ts[0].data) + 1 else m
  }

  lemma {:induction false} RankConcat(a: seq<Task>, b: seq<Task>)
    ensures Rank(a + b) == if Rank(a) > Rank(b) then Rank(a) else Rank(b)
  {
    if a != [] {
      assert (a + b)[0] == a[0] && (a + b)[1..] == a[1..] + b;
      RankConcat(a[1..], b);
    } else {
      assert a + b == b;
    }
  }

  lemma {:induction false} RankBound(ts: seq<Task>, k: nat)
    requires forall i :: 0 <= i < |ts| ==> MaxHeight(ts[i].data) < k
    ensures Rank(ts) <= k
  {
    if ts != [] {
      assert forall i :: 0 <= i < |ts| - 1 ==> ts[1..][i] == ts[i + 1];
      RankBound(ts[1..], k);
    }
  }

  /** The queue seen as what is left of the current level, `cur`, followed by
      the next level, `pending`: it shrinks as the levels go by, for every
      batch a level queues lies deeper than the level's rows. */
  function Measure(cur: seq<Task>, pending: seq<Task>): nat {
    if Rank(cur) > Rank(pending) + 1 then Rank(cur) else Rank(pending) + 1
  }

  /** The batches a row batch queues rank below the batch. */
  lemma QueuedRank(t: Task)
    requires BatchFold(t.data, |t.data|).Ok?
    ensures Rank(TasksOf(BatchFold(t.data, |t.data|).value.next)) <= MaxHeight(t.data)
  {
    var next := BatchFold(t.data, |t.data|).value.next;
    BatchQueued(t.data, |t.data|, MaxHeight(t.data));
    TasksWithin(next, MaxHeight(t.data));
    var ts := TasksOf(next);
    forall i | 0 <= i < |ts| ensures MaxHeight(ts[i].data) < MaxHeight(t.data) {
      assert ts[i] in ts;
    }
    RankBound(ts, MaxHeight(t.data));
  }

  /** Running the first batch of the level and queueing what it gathers does
      not raise the measure. */
  lemma StepMeasure(cur: seq<Task>, pending: seq<Task>)
    requires cur != [] && BatchFold(cur[0].data, |cur[0].data|).Ok?
    ensures Measure(cur[1..], pending + TasksOf(BatchFold(cur[0].data, |cur[0].data|).value.next)) <= Measure(cur, pending)
  {
    QueuedRank(cur[0]);
    RankConcat(pending, TasksOf(BatchFold(cur[0].data, |cur[0].data|).value.next));
  }

  /** The walk as a specification: the batches still to run in the current
      level, `cur`, are taken in order, each one's ticked rows added to its
      sheet and the batches it queues appended to `pending`, the next level;
      when the level is exhausted the next one starts, and when both are
      empty the walk is over. A TypeError ends the walk. */
  function Walk(sheets: Record<seq<Row>>, cur: seq<Task>, pending: seq<Task>): Result<Record<seq<Row>>, string>
    decreases Measure(cur, pending), |cur|
  {
    if cur == [] then
      if pending == [] then Ok(sheets) else Walk(sheets, pending, [])
    else
      match BatchFold(cur[0].data, |cur[0].data|)
      case Err(e) => Err(e)
      case Ok(b) =>
        StepMeasure(cur, pending);
        Walk(AddRows(sheets, cur[0].sheetName, b.rows), cur[1..], pending + TasksOf(b.next))
  }

  /** `exportToExcel`'s walk as a specification: a first level holding the
      root batch under the root sheet, then level after level. */
  function Plan(roots: seq<Json>, rootName: string): Result<Record<seq<Row>>, string> {
    Walk([], [Task(roots, rootName)], [])
  }

  /** Taking one batch off the front of the level. */
  lemma WalkStep(sheets: Record<seq<Row>>, t: Task, c: seq<Task>, p: seq<Task>)
    ensures BatchFold(t.data, |t.data|).Err? ==> Walk(sheets, [t] + c, p) == Err(BatchFold(t.data, |t.data|).error)
    ensures BatchFold(t.data, |t.data|).Ok? ==>
      var b := BatchFold(t.data, |t.data|).value;
      Measure(c, p + TasksOf(b.next)) <= Measure([t] + c, p)
      && Walk(sheets, [t] + c, p) == Walk(AddRows(sheets, t.sheetName, b.rows), c, p + TasksOf(b.next))
  {
    var q := [t] + c;
    assert q[0] == t && q[1..] == c;
    if BatchFold(t.data, |t.data|).Ok? {
      StepMeasure(q, p);
    }
  }

  /** An exhausted level hands over to the next one. */
  lemma WalkOpensLevel(sheets: Record<seq<Row>>, cur: seq<Task>, q: seq<Task>)
    requires cur == [] && q != []
    ensures cur + q == q + [] && Measure(q, []) < Measure(cur, q)
    ensures Walk(sheets, q, []) == Walk(sheets, cur, q)
  {
    assert q[0] in q;
  }

  /** The task `queue.shift()` takes: the next of the current level, or the
      first of the next level once the current one is exhausted. */
  lemma NextTask(sheets: Record<seq<Row>>, cur: seq<Task>, pending: seq<Task>) returns (c: seq<Task>, p: seq<Task>)
    requires cur + pending != []
    ensures c != [] && c + p == cur + pending
    ensures Measure(c, p) < Measure(cur, pending) || (c == cur && p == pending)
    ensures Walk(sheets, c, p) == Walk(sheets, cur, pending)
  {
    if cur == [] {
      c, p := pending, [];
      WalkOpensLevel(sheets, cur, pending);
    } else {
      c, p := cur, pending;
    }
  }

  lemma ShiftPush(c: seq<Task>, p: seq<Task>, ts: seq<Task>)
    requires c != []
    ensures (c + p)[1..] + ts == c[1..] + (p + ts)
  {
  }

  /** One pass of the loop: `queue.shift()`, the batch's rows added to its
      sheet, and the tasks it gathers pushed. Seen level by level, the task
      taken is the first of `cur`, or of `pending` when `cur` is exhausted. */
  method TakeTask(sheets: Record<seq<Row>>, queue: seq<Task>, ghost cur: seq<Task>, ghost pending: seq<Task>)
    returns (r: Result<(Record<seq<Row>>, seq<Task>), string>, ghost c: seq<Task>, ghost p: seq<Task>)
    requires queue == cur + pending && queue != [] && GoodSheets(sheets)
    ensures r.Err? ==> Walk(sheets, cur, pending) == Err(r.error)
    ensures r.Ok? ==> r.value.1 == c + p
    ensures r.Ok? ==> Measure(c, p) < Measure(cur, pending) || (Measure(c, p) == Measure(cur, pending) && |c| < |cur|)
    ensures r.Ok? ==> GoodSheets(r.value.0) && Extends(sheets, r.value.0)
    ensures r.Ok? ==> Walk(r.value.0, c, p) == Walk(sheets, cur, pending)
  {
    c, p := NextTask(sheets, cur, pending);
    var task := queue[0];
    var rest := queue[1..];
    assert c == [task] + c[1..];
    c := c[1..];
    var batch := RunTask(task.data, MaxHeight(task.data));
    WalkStep(sheets, task, c, p);
    if batch.Err? {
      return Err(batch.error), c, p;
    }
    var b := batch.value;
    AddRowsGood(sheets, task.sheetName, b.rows);
    var sheets' := AddRows(sheets, task.sheetName, b.rows);
    var queue' := PushTasks(rest, b.next);
    ShiftPush([task] + c, p, TasksOf(b.next));
    p := p + TasksOf(b.next);
    r := Ok((sheets', queue'));
  }

  /** The `while (queue.length > 0)` loop of `exportToExcel`, from the
      second batch on: batches are taken first-in first-out; the selected
      rows of each go to its sheet (created on first use, and shared by
      every batch with that name), and the selected children it finds are
      queued under their entity's sheet. The loop ends because every queued
      row lies deeper than the row it came from. The sheets stay good and
      only grow, and the walk yields the plan `Walk` describes. */
  method DrainQueue(sheets0: Record<seq<Row>>, queue0: seq<Task>) returns (r: Result<Record<seq<Row>>, string>)
    requires GoodSheets(sheets0)
    ensures r == Walk(sheets0, [], queue0)
    ensures r.Ok? ==> GoodSheets(r.value) && Extends(sheets0, r.value)
  {
    var queue := queue0;
    var sheets := sheets0;
    ghost var cur, pending := [], queue0;
    ghost var plan := Walk(sheets0, [], queue0);
    while queue != []
      invariant queue == cur + pending
      invariant GoodSheets(sheets) && Extends(sheets0, sheets)
      invariant Walk(sheets, cur, pending) == plan
      decreases Measure(cur, pending), |cur|
    {
      var step;
      step, cur, pending := TakeTask(sheets, queue, cur, pending);
      if step.Err? {
        return Err(step.error);
      }
      ExtendsTrans(sheets0, sheets, step.value.0);
      sheets, queue := step.value.0, step.value.1;
    }
    return Ok(sheets);
  }

  /** The first sheet created holds exactly the rows pushed. */
  lemma AddRowsFirst(name: string, rows: seq<Row>)
    ensures AddRows([], name, rows) == [(name, rows)]
  {
    assert [] + rows == rows;
  }

  /** The walk after the root batch: the root sheet is created with the root
      batch's rows, and its children start the queue. */
  method AfterRoot(ghost roots: seq<Json>, rootName: string, b: Batch) returns (r: Result<Record<seq<Row>>, string>)
    requires BatchFold(roots, |roots|) == Ok(b)
    ensures r == Plan(roots, rootName)
    ensures r.Ok? ==> GoodSheets(r.value) && r.value != [] && r.value[0].0 == rootName && b.rows <= r.value[0].1
  {
    BatchClean(roots, |roots|);
    ghost var t := Task(roots, rootName);
    assert [t] + [] == [t];
    WalkStep([], t, [], []);
    AddRowsGood([], rootName, b.rows);
    AddRowsFirst(rootName, b.rows);
    var sheets := AddRows([], rootName, b.rows);
    var queue := PushTasks([], b.next);
    assert [] + TasksOf(b.next) == TasksOf(b.next);
    r := DrainQueue(sheets, queue);
  }

  /** The export's breadth-first walk, starting from the queue
      `[{data: roots, sheetName: rootName}]`: the root batch is the first
      taken, and its sheet the first created. A TypeError thrown on the way
      ends the walk. The result keeps each sheet under one name, writes only
      clean rows, and opens with the root sheet, which starts with the root
      batch's own rows. */
  method PlanSheets(roots: seq<Json>, rootName: string) returns (r: Result<Record<seq<Row>>, string>)
    requires roots != []
    ensures r == Plan(roots, rootName)
    ensures BatchFold(roots, |roots|).Err? ==> r == Err(BatchFold(roots, |roots|).error)
    ensures r.Ok? ==> GoodSheets(r.value) && r.value != [] && r.value[0].0 == rootName
    ensures r.Ok? ==> BatchFold(roots, |roots|).Ok? && BatchFold(roots, |roots|).value.rows <= r.value[0].1
  {
    var first := ProcessBatch(roots);
    if first.Err? {
      WalkStep([], Task(roots, rootName), [], []);
      assert [Task(roots, rootName)] + [] == [Task(roots, rootName)];
      return Err(first.error);
    }
    r := AfterRoot(roots, rootName, first.value);
  }

  // ---------------------------------------------------------------------------
  // Where every row ends up

  /** The cells `flatRow` a row gets: they depend on the row alone. */
  function FlatRow(row: Json): Row {
    match RowResult(row, [])
    case Ok(st) => st.flat
    case Err(_) => []
  }

  /** A written row, tagged with the sheet it went to. */
  type Placed = (string, Row)

  /** The rows written to `name`, each tagged with it. */
  function Tagged(name: string, rows: seq<Row>): multiset<Placed> {
    multiset(TagAll(name, rows))
  }

  function TagAll(name: string, rows: seq<Row>): (r: seq<Placed>)
    ensures |r| == |rows| && forall i :: 0 <= i < |rows| ==> r[i] == (name, rows[i])
  {
    seq(|rows|, i requires 0 <= i < |rows| => (name, rows[i]))
  }

  /** Every row written to the sheets, tagged with its sheet. */
  function Written(sheets: Record<seq<Row>>): multiset<Placed> {
    SumRec(sheets, Tagged)
  }

  /** What the walk writes for the rows `data` of a batch bound for sheet
      `name`, stated without the queue: each ticked row once, as its
      `FlatRow`, on `name`; then, for every property of a row that holds
      selected children, what those children write on the child sheet. */
  function PlacedRows(data: seq<Json>, name: string): multiset<Placed>
    decreases MaxHeight(data), 3, |data|
  {
    if data == [] then multiset{}
    else PlacedRow(data[0], name) + PlacedRows(data[1..], name)
  }

  function PlacedRow(row: Json, name: string): multiset<Placed>
    decreases Height(row), 2
  {
    (if Tr.IsSelected(row) then multiset{(name, FlatRow(row))} else multiset{})
    + PlacedFields(row, |Entries(row)|)
  }

  function PlacedFields(row: Json, n: nat): multiset<Placed>
    requires n <= |Entries(row)|
    decreases Height(row), 1, n
  {
    if n == 0 then multiset{} else PlacedFields(row, n - 1) + PlacedField(row, n - 1)
  }

  /** The entry `i` of a row queues its selected children under the child
      sheet (keys starting with `__` and values that are not expandable queue
      nothing). */
  function PlacedField(row: Json, i: nat): multiset<Placed>
    requires i < |Entries(row)|
    decreases Height(row), 0
  {
    var (key, val) := Entries(row)[i];
    if StartsWith(key, "__") || !T.IsExpandableData(val) then multiset{}
    else
      var items := DeepRows(ChildRows(val));
      if |items| == 0 then multiset{}
      else
        match ChildSheet(key, items)
        case Err(_) => multiset{}
        case Ok(child) =>
          ChildrenBelow(row, i);
          PlacedRows(items, child)
  }

  /** The children queued by entry `i` of a row lie below the row. */
  lemma ChildrenBelow(row: Json, i: nat)
    requires i < |Entries(row)|
    ensures MaxHeight(DeepRows(ChildRows(Entries(row)[i].1))) < Height(row)
  {
    EntryLower(row, i);
    ItemsBelow(Entries(row)[i].1, Height(row));
    MaxHeightBound(DeepRows(ChildRows(Entries(row)[i].1)), Height(row) - 1);
  }

  lemma AddAssoc(a: multiset<Placed>, b: multiset<Placed>, c: multiset<Placed>)
    ensures a + b + c == a + (b + c)
  {
  }

  /** What the rows of a list of batches write. */
  function QueuePlaced(ts: seq<Task>): multiset<Placed> {
    if ts == [] then multiset{} else PlacedRows(ts[0].data, ts[0].sheetName) + QueuePlaced(ts[1..])
  }

  /** What the rows queued under `name` write. */
  function PlacedUnder(name: string, items: seq<Json>): multiset<Placed> {
    PlacedRows(items, name)
  }

  lemma {:induction false} PlacedRowsConcat(a: seq<Json>, b: seq<Json>, name: string)
    ensures PlacedRows(a + b, name) == PlacedRows(a, name) + PlacedRows(b, name)
  {
    if a == [] {
      assert a + b == b;
    } else {
      assert (a + b)[0] == a[0] && (a + b)[1..] == a[1..] + b;
      PlacedRowsConcat(a[1..], b, name);
    }
  }

  lemma TaggedConcat(name: string, a: seq<Row>, b: seq<Row>)
    ensures Tagged(name, a + b) == Tagged(name, a) + Tagged(name, b)
  {
    assert TagAll(name, a + b) == TagAll(name, a) + TagAll(name, b);
  }

  lemma {:induction false} QueuePlacedConcat(a: seq<Task>, b: seq<Task>)
    ensures QueuePlaced(a + b) == QueuePlaced(a) + QueuePlaced(b)
  {
    if a == [] {
      assert a + b == b;
    } else {
      assert (a + b)[0] == a[0] && (a + b)[1..] == a[1..] + b;
      QueuePlacedConcat(a[1..], b);
    }
  }

  /** The batches built from `nextLevelTasks` write what its lists write. */
  lemma {:induction false} TasksOfPlaced(next: Record<seq<Json>>)
    ensures QueuePlaced(TasksOf(next)) == SumRec(next, PlacedUnder)
  {
    if next != [] {
      var ts := TasksOf(next);
      assert ts[1..] == TasksOf(next[1..]);
      TasksOfPlaced(next[1..]);
    }
  }

  /** Adding rows to a sheet adds exactly them to what is written. */
  lemma AddRowsWritten(sheets: Record<seq<Row>>, name: string, rows: seq<Row>)
    ensures Written(AddRows(sheets, name, rows)) == Written(sheets) + Tagged(name, rows)
  {
    var e := Lookup(sheets, name);
    if e.Some? {
      TaggedConcat(name, e.value, rows);
    }
    SumAppendAt(sheets, name, rows, Tagged);
  }

  /** Queueing `items` under `name` adds exactly what they write. */
  lemma EnqueuePlaced(next: Record<seq<Json>>, name: string, items: seq<Json>)
    ensures SumRec(Enqueue(next, name, items), PlacedUnder) == SumRec(next, PlacedUnder) + PlacedRows(items, name)
  {
    var e := Lookup(next, name);
    if e.Some? {
      PlacedRowsConcat(e.value, items, name);
    }
    SumAppendAt(next, name, items, PlacedUnder);
  }

  /** The cells of a row, and whether processing it throws, do not depend on
      what was queued before it. */
  lemma {:induction false} FoldFlat(es: seq<(string, Json)>, selected: bool, st1: RowState, st2: RowState, n: nat)
    requires n <= |es| && st1.flat == st2.flat
    ensures FieldsFold(es, selected, st1, n).Ok? == FieldsFold(es, selected, st2, n).Ok?
    ensures FieldsFold(es, selected, st1, n).Ok? ==>
      FieldsFold(es, selected, st1, n).value.flat == FieldsFold(es, selected, st2, n).value.flat
  {
    if n > 0 {
      FoldFlat(es, selected, st1, st2, n - 1);
    }
  }

  /** Folding the entries of a row queues what its properties write. */
  /** The first `n` entries of a row, when they succeed, queue exactly what they place. */
  ghost predicate PlacedSoFar(row: Json, selected: bool, st: RowState, n: nat)
    requires n <= |Entries(row)|
  {
    FieldsFold(Entries(row), selected, st, n).Ok? ==>
      SumRec(FieldsFold(Entries(row), selected, st, n).value.next, PlacedUnder)
        == SumRec(st.next, PlacedUnder) + PlacedFields(row, n)
  }

  lemma {:induction false} FoldPlaced(row: Json, selected: bool, st: RowState, n: nat)
    requires n <= |Entries(row)|
    ensures PlacedSoFar(row, selected, st, n)
  {
    if n > 0 {
      FoldPlaced(row, selected, st, n - 1);
      FoldPlacedStep(row, selected, st, n);
    }
  }

  /** One more entry: what it places is added to what the earlier ones place. */
  lemma FoldPlacedStep(row: Json, selected: bool, st: RowState, n: nat)
    requires 0 < n <= |Entries(row)|
    requires PlacedSoFar(row, selected, st, n - 1)
    ensures PlacedSoFar(row, selected, st, n)
  {
    var es := Entries(row);
    var prev := FieldsFold(es, selected, st, n - 1);
    if prev.Ok? {
      var mid := prev.value;
      assert FieldsFold(es, selected, st, n) == FieldStep(mid, selected, es[n - 1].0, es[n - 1].1);
      var step := FieldStep(mid, selected, es[n - 1].0, es[n - 1].1);
      if step.Ok? {
        FieldPlaced(row, n - 1, selected, mid, step.value);
        calc {
          SumRec(step.value.next, PlacedUnder);
          SumRec(mid.next, PlacedUnder) + PlacedField(row, n - 1);
          SumRec(st.next, PlacedUnder) + PlacedFields(row, n - 1) + PlacedField(row, n - 1);
          { AddAssoc(SumRec(st.next, PlacedUnder), PlacedFields(row, n - 1), PlacedField(row, n - 1)); }
          SumRec(st.next, PlacedUnder) + PlacedFields(row, n);
        }
      }
    }
  }

  /** One entry of a row queues what it writes. */
  lemma FieldPlaced(row: Json, i: nat, selected: bool, mid: RowState, after: RowState)
    requires i < |Entries(row)| && FieldStep(mid, selected, Entries(row)[i].0, Entries(row)[i].1) == Ok(after)
    ensures SumRec(after.next, PlacedUnder) == SumRec(mid.next, PlacedUnder) + PlacedField(row, i)
  {
    var (key, val) := Entries(row)[i];
    var items := DeepRows(ChildRows(val));
    if !StartsWith(key, "__") && T.IsExpandableData(val) && |items| > 0 {
      EnqueuePlaced(mid.next, ChildSheet(key, items).value, items);
    }
  }

  /** One row: its cells are its `FlatRow`, and what it queues writes what
      its properties write. */
  lemma RowPlaced(row: Json, next: Record<seq<Json>>)
    requires RowResult(row, next).Ok?
    ensures RowResult(row, []).Ok? && RowResult(row, next).value.flat == FlatRow(row)
    ensures SumRec(RowResult(row, next).value.next, PlacedUnder) == SumRec(next, PlacedUnder) + PlacedFields(row, |Entries(row)|)
  {
    FoldFlat(Entries(row), Tr.IsSelected(row), RowState([], next), RowState([], []), |Entries(row)|);
    FoldPlaced(row, Tr.IsSelected(row), RowState([], next), |Entries(row)|);
  }

  /** The first `n` rows of a batch: the rows written to its sheet, and what
      the rows it queues write, make up what those rows write. */
  lemma {:induction false} BatchPlaced(data: seq<Json>, n: nat, name: string)
    requires n <= |data| && BatchFold(data, n).Ok?
    ensures Tagged(name, BatchFold(data, n).value.rows) + SumRec(BatchFold(data, n).value.next, PlacedUnder)
      == PlacedRows(data[..n], name)
  {
    if n == 0 {
      assert data[..0] == [];
    } else {
      BatchPlaced(data, n - 1, name);
      var b := BatchFold(data, n - 1).value;
      var row := data[n - 1];
      BatchFoldStep(data, n, b, RowResult(row, b.next));
      RowPlaced(row, b.next);
      var st := RowResult(row, b.next).value;
      var own: multiset<Placed> := if Tr.IsSelected(row) then multiset{(name, FlatRow(row))} else multiset{};
      TaggedStep(name, b.rows, Tr.IsSelected(row), st.flat);
      PlacedRowsSnoc(data, n, name);
      Regroup(Tagged(name, b.rows), own, SumRec(b.next, PlacedUnder), PlacedFields(row, |Entries(row)|));
    }
  }

  lemma TaggedStep(name: string, rows: seq<Row>, selected: bool, flat: Row)
    ensures Tagged(name, if selected then rows + [flat] else rows)
      == Tagged(name, rows) + (if selected then multiset{(name, flat)} else multiset{})
  {
    if selected {
      assert TagAll(name, rows + [flat]) == TagAll(name, rows) + [(name, flat)];
    }
  }

  lemma PlacedRowsSnoc(data: seq<Json>, n: nat, name: string)
    requires 0 < n <= |data|
    ensures PlacedRows(data[..n], name) == PlacedRows(data[..n - 1], name) + PlacedRow(data[n - 1], name)
  {
    assert data[..n] == data[..n - 1] + [data[n - 1]];
    PlacedRowsConcat(data[..n - 1], [data[n - 1]], name);
    assert [data[n - 1]][1..] == [];
  }

  lemma Regroup(a: multiset<Placed>, s: multiset<Placed>, b: multiset<Placed>, f: multiset<Placed>)
    ensures (a + s) + (b + f) == (a + b) + (s + f)
  {
  }

  /** The walk from any point writes, besides what is already on the sheets,
      exactly what the batches left in the queue write. */
  lemma {:induction false} WalkPlaced(sheets: Record<seq<Row>>, cur: seq<Task>, pending: seq<Task>)
    requires Walk(sheets, cur, pending).Ok?
    ensures Written(Walk(sheets, cur, pending).value) == Written(sheets) + QueuePlaced(cur) + QueuePlaced(pending)
    decreases Measure(cur, pending), |cur|
  {
    if cur == [] {
      if pending != [] {
        WalkOpensLevel(sheets, cur, pending);
        WalkPlaced(sheets, pending, []);
      }
    } else {
      var t := cur[0];
      var b := BatchFold(t.data, |t.data|).value;
      assert cur == [t] + cur[1..];
      WalkStep(sheets, t, cur[1..], pending);
      WalkPlaced(AddRows(sheets, t.sheetName, b.rows), cur[1..], pending + TasksOf(b.next));
      StepPlaced(sheets, cur, pending);
    }
  }

  /** A whole batch: the rows written to its sheet, and what the batches it
      queues write, make up what its rows write. */
  lemma BatchTaskPlaced(t: Task)
    requires BatchFold(t.data, |t.data|).Ok?
    ensures var b := BatchFold(t.data, |t.data|).value;
      Tagged(t.sheetName, b.rows) + QueuePlaced(TasksOf(b.next)) == PlacedRows(t.data, t.sheetName)
  {
    TasksOfPlaced(BatchFold(t.data, |t.data|).value.next);
    BatchPlaced(t.data, |t.data|, t.sheetName);
    assert t.data[..|t.data|] == t.data;
  }

  /** One batch of the walk: what it writes and queues is what its rows write. */
  lemma StepPlaced(sheets: Record<seq<Row>>, cur: seq<Task>, pending: seq<Task>)
    requires cur != [] && BatchFold(cur[0].data, |cur[0].data|).Ok?
    ensures var t := cur[0];
      var b := BatchFold(t.data, |t.data|).value;
      Written(AddRows(sheets, t.sheetName, b.rows)) + QueuePlaced(cur[1..]) + QueuePlaced(pending + TasksOf(b.next))
      == Written(sheets) + QueuePlaced(cur) + QueuePlaced(pending)
  {
    var t := cur[0];
    var b := BatchFold(t.data, |t.data|).value;
    var ts := TasksOf(b.next);
    AddRowsWritten(sheets, t.sheetName, b.rows);
    QueuePlacedConcat(pending, ts);
    BatchTaskPlaced(t);
    RegroupWalk(Written(sheets), Tagged(t.sheetName, b.rows), QueuePlaced(cur[1..]), QueuePlaced(pending), QueuePlaced(ts));
  }

  lemma RegroupWalk(w: multiset<Placed>, rows: multiset<Placed>, rest: multiset<Placed>, p: multiset<Placed>, q: multiset<Placed>)
    ensures (w + rows) + rest + (p + q) == w + ((rows + q) + rest) + p
  {
  }

  /** The export places rows as `PlacedRows` says: every ticked row reached
      from the roots through rows with a deep selection is written exactly
      once, as its `FlatRow`, to the sheet of the batch it came in, and no
      other row is written. */
  lemma PlanPlacement(roots: seq<Json>, rootName: string)
    requires Plan(roots, rootName).Ok?
    ensures Written(Plan(roots, rootName).value) == PlacedRows(roots, rootName)
  {
    WalkPlaced([], [Task(roots, rootName)], []);
    assert [Task(roots, rootName)][1..] == [];
  }

  // ===========================================================================
  // exportToExcel

  /** The default `defaultRootName`. */
  const DefaultRootName: string := "Main"

  /** A worksheet of the workbook: the name Excel shows, the sheet name the
      walk used, and its rows. */
  datatype Sheet = Sheet(name: string, planned: string, rows: seq<Row>)

  /** How `exportToExcel` ends: a warning that nothing is selected, a warning
      that no rows came out, or a workbook (whose file is named after the root
      sheet). */
  datatype Export =
    | NothingSelected
    | NoRows
    | Workbook(rootSheetName: string, sheets: seq<Sheet>)

  /** The root sheet's name: the entity of the first selected root, else the default. */
  function RootName(roots: seq<Json>, defaultRootName: string): Result<string, string> {
    match EntityName(roots)
    case Err(e) => Err(e)
    case Ok(detected) => Ok(if detected.Some? then detected.value else defaultRootName)
  }

  /** Some sheet named `x` has rows. */
  ghost predicate HasRows(plan: Record<seq<Row>>, x: string) {
    exists i :: 0 <= i < |plan| && plan[i].0 == x && plan[i].1 != []
  }

  lemma HasRowsInit(plan: Record<seq<Row>>, x: string)
    requires plan != []
    ensures HasRows(plan, x) <==> HasRows(plan[..|plan| - 1], x) || (plan[|plan| - 1].0 == x && plan[|plan| - 1].1 != [])
  {
    var init := plan[..|plan| - 1];
    if HasRows(plan, x) {
      var i :| 0 <= i < |plan| && plan[i].0 == x && plan[i].1 != [];
      if i < |init| {
        assert init[i] == plan[i];
      }
    }
    if HasRows(init, x) {
      var i :| 0 <= i < |init| && init[i].0 == x && init[i].1 != [];
      assert plan[i] == init[i];
    }
  }

  /** `Array.from(sheetsMap.keys()).filter(name => sheetsMap.get(name)!.length > 0)`. */
  function NonEmptySheets(plan: Record<seq<Row>>): (r: seq<string>)
    ensures forall x :: x in r <==> HasRows(plan, x)
  {
    if plan == [] then []
    else
      var rest := NonEmptySheets(plan[..|plan| - 1]);
      var last := plan[|plan| - 1];
      var r := if last.1 != [] then rest + [last.0] else rest;
      assert forall x :: x in r <==> HasRows(plan, x) by {
        forall x ensures x in r <==> HasRows(plan, x) {
          HasRowsInit(plan, x);
        }
      }
      r
  }

  /** Keys that are distinct stay distinct after the filter. */
  lemma {:induction false} NonEmptyDistinct(plan: Record<seq<Row>>)
    requires DistinctKeys(plan)
    ensures forall i, j :: 0 <= i < j < |NonEmptySheets(plan)| ==> NonEmptySheets(plan)[i] != NonEmptySheets(plan)[j]
  {
    if plan != [] {
      var init := plan[..|plan| - 1];
      assert DistinctKeys(init) by {
        forall i, j | 0 <= i < j < |init| ensures init[i].0 != init[j].0 {
          assert init[i] == plan[i] && init[j] == plan[j];
        }
      }
      NonEmptyDistinct(init);
      var last := plan[|plan| - 1];
      if last.1 != [] {
        forall k | 0 <= k < |init| ensures init[k].0 != last.0 {
          assert init[k] == plan[k];
        }
        var rest := NonEmptySheets(init);
        assert last.0 !in rest;
        var r := rest + [last.0];
        assert NonEmptySheets(plan) == r;
        forall i, j | 0 <= i < j < |r| ensures r[i] != r[j] {
          assert r[i] == rest[i];
          if j < |rest| {
            assert r[j] == rest[j];
          } else {
            assert rest[i] in rest;
          }
        }
      } else {
        assert NonEmptySheets(plan) == NonEmptySheets(init);
      }
    }
  }

  /** The Excel names of the sheets, in workbook order. */
  function Names(ss: seq<Sheet>): (r: seq<string>)
    ensures |r| == |ss| && forall i :: 0 <= i < |ss| ==> r[i] == ss[i].name
  {
    seq(|ss|, i requires 0 <= i < |ss| => ss[i].name)
  }

  /** The sheet names the walk used, in workbook order. */
  function Planned(ss: seq<Sheet>): (r: seq<string>)
    ensures |r| == |ss| && forall i :: 0 <= i < |ss| ==> r[i] == ss[i].planned
  {
    seq(|ss|, i requires 0 <= i < |ss| => ss[i].planned)
  }

  /** What the workbook promises: at least one sheet; distinct Excel names,
      each picked by the collision rule in turn and free of forbidden
      characters; distinct planned names, the root sheet first when it has
      rows and the others in name order; every sheet with at least one row,
      and every row clean. */
  ghost predicate GoodWorkbook(root: string, ss: seq<Sheet>) {
    ss != []
    && NamesFor(Planned(ss), Names(ss))
    && (forall i, j :: 0 <= i < j < |ss| ==> ss[i].name != ss[j].name && ss[i].planned != ss[j].planned)
    && (forall i :: 0 <= i < |ss| ==> NoForbidden(ss[i].name) && ss[i].rows != [])
    && (forall i, k :: 0 <= i < |ss| && 0 <= k < |ss[i].rows| ==> CleanRow(ss[i].rows[k]))
    && (root in Planned(ss) ==> ss[0].planned == root)
    && (forall i, j :: 0 <= i < j < |ss| && ss[i].planned != root && ss[j].planned != root ==> NameLe(ss[i].planned, ss[j].planned))
  }

  /** A list in which no name is counted twice holds distinct names. */
  lemma {:induction false} CountDistinct(o: seq<string>)
    requires forall x :: multiset(o)[x] <= 1
    ensures forall i, j :: 0 <= i < j < |o| ==> o[i] != o[j]
  {
    if o != [] {
      var t := o[1..];
      assert o == [o[0]] + t;
      assert multiset(o) == multiset{o[0]} + multiset(t);
      forall x ensures multiset(t)[x] <= 1 {
        assert multiset(t)[x] <= multiset(o)[x];
      }
      CountDistinct(t);
      assert o[0] !in t by {
        assert multiset(o)[o[0]] == 1 + multiset(t)[o[0]];
      }
      forall i, j | 0 <= i < j < |o| ensures o[i] != o[j] {
        if i == 0 {
          assert o[j] == t[j - 1];
        } else {
          assert o[i] == t[i - 1] && o[j] == t[j - 1];
        }
      }
    }
  }

  /** The planned order holds each non-empty sheet once. */
  lemma OrderDistinct(valid: seq<string>, root: string)
    requires forall i, j :: 0 <= i < j < |valid| ==> valid[i] != valid[j]
    ensures var o := SheetOrder(valid, root);
      forall i, j :: 0 <= i < j < |o| ==> o[i] != o[j]
  {
    var o := SheetOrder(valid, root);
    SheetOrderPermutation(valid, root);
    forall x ensures multiset(o)[x] <= 1 {
      DistinctCount(valid, x);
    }
    CountDistinct(o);
  }

  /** The planned order satisfies the ordering part of `GoodWorkbook`. */
  lemma OrderFacts(valid: seq<string>, root: string)
    requires forall i, j :: 0 <= i < j < |valid| ==> valid[i] != valid[j]
    ensures var o := SheetOrder(valid, root);
      (forall i, j :: 0 <= i < j < |o| ==> o[i] != o[j])
      && (root in o ==> o[0] == root)
      && (forall i, j :: 0 <= i < j < |o| && o[i] != root && o[j] != root ==> NameLe(o[i], o[j]))
  {
    var o := SheetOrder(valid, root);
    OrderDistinct(valid, root);
    SheetOrderShape(valid, root);
    if root !in valid {
      assert root !in o;
    } else {
      var rest := o[1..];
      forall i, j | 0 <= i < j < |o| && o[i] != root && o[j] != root ensures NameLe(o[i], o[j]) {
        assert i > 0;
        assert o[i] == rest[i - 1] && o[j] == rest[j - 1];
      }
    }
  }

  /** `validSheets.forEach(...)`: each planned sheet, in order, with its rows
      under the name given out. */
  method BuildSheets(plan: Record<seq<Row>>, order: seq<string>, names: seq<string>) returns (sheets: seq<Sheet>)
    requires |names| == |order|
    requires forall i :: 0 <= i < |order| ==> Lookup(plan, order[i]).Some? && Lookup(plan, order[i]).value != []
    ensures Planned(sheets) == order && Names(sheets) == names
    ensures forall i :: 0 <= i < |sheets| ==> Lookup(plan, sheets[i].planned) == Some(sheets[i].rows) && sheets[i].rows != []
  {
    sheets := [];
    for i := 0 to |order|
      invariant |sheets| == i
      invariant forall k :: 0 <= k < i ==> sheets[k].name == names[k] && sheets[k].planned == order[k]
      invariant forall k :: 0 <= k < i ==> Lookup(plan, order[k]) == Some(sheets[k].rows) && sheets[k].rows != []
    {
      sheets := sheets + [Sheet(names[i], order[i], Lookup(plan, order[i]).value)];
    }
    PlannedNames(sheets, order, names);
  }

  lemma PlannedNames(sheets: seq<Sheet>, order: seq<string>, names: seq<string>)
    requires |sheets| == |order| == |names|
    requires forall k :: 0 <= k < |sheets| ==> sheets[k].name == names[k] && sheets[k].planned == order[k]
    ensures Planned(sheets) == order && Names(sheets) == names
  {
  }

  /** A sheet the filter kept can be looked up, and has rows. */
  lemma SheetFound(plan: Record<seq<Row>>, x: string)
    requires DistinctKeys(plan) && x in NonEmptySheets(plan)
    ensures Lookup(plan, x).Some? && Lookup(plan, x).value != []
  {
    assert HasRows(plan, x);
    var k :| 0 <= k < |plan| && plan[k].0 == x && plan[k].1 != [];
    LookupAt(plan, x, FirstKey(plan, k));
  }

  /** The facts about the order, the names and the rows make a good workbook. */
  lemma WorkbookGood(plan: Record<seq<Row>>, root: string, ss: seq<Sheet>)
    requires GoodSheets(plan) && ss != []
    requires var o := Planned(ss);
      (forall i, j :: 0 <= i < j < |o| ==> o[i] != o[j])
      && (root in o ==> o[0] == root)
      && (forall i, j :: 0 <= i < j < |o| && o[i] != root && o[j] != root ==> NameLe(o[i], o[j]))
    requires NamesFor(Planned(ss), Names(ss))
    requires forall i, j :: 0 <= i < j < |ss| ==> Names(ss)[i] != Names(ss)[j]
    requires forall i :: 0 <= i < |ss| ==> NoForbidden(Names(ss)[i])
    requires forall i :: 0 <= i < |ss| ==> Lookup(plan, ss[i].planned) == Some(ss[i].rows) && ss[i].rows != []
    ensures GoodWorkbook(root, ss)
  {
    RowsClean(plan, ss);
    var o := Planned(ss);
    forall i, j | 0 <= i < j < |ss| ensures ss[i].name != ss[j].name && ss[i].planned != ss[j].planned {
      assert o[i] != o[j] && Names(ss)[i] != Names(ss)[j];
    }
    forall i, j | 0 <= i < j < |ss| && ss[i].planned != root && ss[j].planned != root
      ensures NameLe(ss[i].planned, ss[j].planned)
    {
      assert o[i] == ss[i].planned && o[j] == ss[j].planned;
    }
    forall i | 0 <= i < |ss| ensures NoForbidden(ss[i].name) {
      assert Names(ss)[i] == ss[i].name;
    }
  }

  /** The sheets of the workbook, in order, under the names given out. */
  method BuildWorkbook(plan: Record<seq<Row>>, root: string) returns (r: Export)
    requires GoodSheets(plan)
    ensures NonEmptySheets(plan) == [] ==> r == NoRows
    ensures NonEmptySheets(plan) != [] ==> r.Workbook? && r.rootSheetName == root && GoodWorkbook(root, r.sheets)
    ensures r.Workbook? ==> Planned(r.sheets) == SheetOrder(NonEmptySheets(plan), root)
    ensures r.Workbook? ==> forall i :: 0 <= i < |r.sheets| ==> Lookup(plan, r.sheets[i].planned) == Some(r.sheets[i].rows)
  {
    var valid := NonEmptySheets(plan);
    if valid == [] {
      return NoRows;
    }
    var sorted := SheetOrder(valid, root);
    PlannedOrder(plan, root);
    var names := FinalNames(sorted);
    var sheets := BuildSheets(plan, sorted, names);
    WorkbookGood(plan, root, sheets);
    r := Workbook(root, sheets);
  }

  /** The planned order of the non-empty sheets: non-empty, each sheet once,
      the root first when present, the rest in name order, and every name
      found with rows. */
  lemma PlannedOrder(plan: Record<seq<Row>>, root: string)
    requires DistinctKeys(plan) && NonEmptySheets(plan) != []
    ensures var o := SheetOrder(NonEmptySheets(plan), root);
      o != []
      && (forall i, j :: 0 <= i < j < |o| ==> o[i] != o[j])
      && (root in o ==> o[0] == root)
      && (forall i, j :: 0 <= i < j < |o| && o[i] != root && o[j] != root ==> NameLe(o[i], o[j]))
      && (forall i :: 0 <= i < |o| ==> Lookup(plan, o[i]).Some? && Lookup(plan, o[i]).value != [])
  {
    var valid := NonEmptySheets(plan);
    var sorted := SheetOrder(valid, root);
    NonEmptyDistinct(plan);
    OrderFacts(valid, root);
    SheetOrderPermutation(valid, root);
    forall i | 0 <= i < |sorted| ensures Lookup(plan, sorted[i]).Some? && Lookup(plan, sorted[i]).value != [] {
      assert sorted[i] in multiset(sorted);
      SheetFound(plan, sorted[i]);
    }
    assert valid[0] in multiset(valid);
  }

  /** In a record with distinct keys, entry `k` is the first with its key. */
  function FirstKey(plan: Record<seq<Row>>, k: nat): (i: nat)
    requires DistinctKeys(plan) && k < |plan|
    ensures i == k && forall j :: 0 <= j < i ==> plan[j].0 != plan[k].0
  {
    k
  }

  /** Rows taken from good sheets are clean. */
  lemma RowsClean(plan: Record<seq<Row>>, ss: seq<Sheet>)
    requires GoodSheets(plan)
    requires forall i :: 0 <= i < |ss| ==> Lookup(plan, ss[i].planned) == Some(ss[i].rows)
    ensures forall i, k :: 0 <= i < |ss| && 0 <= k < |ss[i].rows| ==> CleanRow(ss[i].rows[k])
  {
    forall i, k | 0 <= i < |ss| && 0 <= k < |ss[i].rows| ensures CleanRow(ss[i].rows[k]) {
      var m :| 0 <= m < |plan| && plan[m] == (ss[i].planned, ss[i].rows);
    }
  }

  /** `exportToExcel(allRootData, defaultRootName)`, without the workbook
      file: the roots with a deep selection are walked breadth first, and the
      non-empty sheets are ordered and named. A TypeError thrown on the way
      (a type marker that is not a string) ends the export. */
  method ExportToExcel(allRootData: seq<Json>, defaultRootName: string) returns (r: Result<Export, string>)
    ensures r == Ok(NothingSelected) <==> DeepRows(allRootData) == []
    ensures r == Ok(NoRows) ==> DeepRows(allRootData) != [] && CountSelected(DeepRows(allRootData)) == 0
    ensures r.Ok? && r.value.Workbook? ==>
      (GoodWorkbook(r.value.rootSheetName, r.value.sheets)
       && RootName(DeepRows(allRootData), defaultRootName) == Ok(r.value.rootSheetName))
    ensures r.Ok? && r.value.Workbook? ==>
      var plan := Plan(DeepRows(allRootData), r.value.rootSheetName);
      plan.Ok? && Planned(r.value.sheets) == SheetOrder(NonEmptySheets(plan.value), r.value.rootSheetName)
      && forall i :: 0 <= i < |r.value.sheets| ==> Lookup(plan.value, r.value.sheets[i].planned) == Some(r.value.sheets[i].rows)
    ensures r.Ok? && r.value.Workbook? && CountSelected(DeepRows(allRootData)) > 0 ==>
      (r.value.sheets[0].planned == r.value.rootSheetName
       && BatchFold(DeepRows(allRootData), |DeepRows(allRootData)|).Ok?
       && BatchFold(DeepRows(allRootData), |DeepRows(allRootData)|).value.rows <= r.value.sheets[0].rows)
  {
    var roots := DeepRows(allRootData);
    if roots == [] {
      return Ok(NothingSelected);
    }
    var rootName := RootName(roots, defaultRootName);
    if rootName.Err? {
      return Err(rootName.error);
    }
    var plan := PlanSheets(roots, rootName.value);
    if plan.Err? {
      return Err(plan.error);
    }
    var wb := BuildWorkbook(plan.value, rootName.value);
    RootSheetKept(roots, plan.value, rootName.value, wb);
    return Ok(wb);
  }

  /** When a root is ticked, the root sheet has rows, so it is kept and comes first. */
  lemma RootSheetKept(roots: seq<Json>, plan: Record<seq<Row>>, root: string, wb: Export)
    requires roots != [] && GoodSheets(plan) && plan != [] && plan[0].0 == root
    requires BatchFold(roots, |roots|).Ok? && BatchFold(roots, |roots|).value.rows <= plan[0].1
    requires NonEmptySheets(plan) == [] ==> wb == NoRows
    requires NonEmptySheets(plan) != [] ==> wb.Workbook? && wb.rootSheetName == root && GoodWorkbook(root, wb.sheets)
    requires wb.Workbook? ==> Planned(wb.sheets) == SheetOrder(NonEmptySheets(plan), root)
    requires wb.Workbook? ==> forall i :: 0 <= i < |wb.sheets| ==> Lookup(plan, wb.sheets[i].planned) == Some(wb.sheets[i].rows)
    ensures wb == NoRows ==> CountSelected(roots) == 0
    ensures wb.Workbook? && CountSelected(roots) > 0 ==>
      wb.sheets[0].planned == root && BatchFold(roots, |roots|).value.rows <= wb.sheets[0].rows
  {
    BatchCount(roots, |roots|);
    assert roots[..|roots|] == roots;
    if CountSelected(roots) > 0 {
      assert plan[0].1 != [];
      assert root in NonEmptySheets(plan);
      var o := SheetOrder(NonEmptySheets(plan), root);
      assert o[0] == root;
      LookupAt(plan, root, 0);
    }
  }
}
