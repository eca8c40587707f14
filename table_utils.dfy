/** The table view's data-shape helpers (`components/query-builder/table/utils.ts`):
    which values are expandable nested data, the recursive selection flag, and
    the conversions between OData date strings and `datetime-local` inputs. */
module TableUtils {
  import opened Wrappers
  import opened Text
  import opened Records
  import opened Json

  // ---------------------------------------------------------------------
  // isExpandableData

  /** `isExpandableData`: the value is nested entity data the table can expand. */
  function IsExpandableData(v: Json): (r: bool)
    ensures !Truthy(v) || v.JDate? || (!v.JArr? && !v.JObj?) ==> !r
    ensures v.JArr? ==> (r <==> |v.elems| > 0)
    ensures v.JObj? && HasTruthy(v, "__deferred") ==> !r
    ensures v.JObj? && HasTruthy(v, "__metadata") && Keys(v.fields) == {"__metadata"} ==> !r
    ensures v.JObj? && !HasTruthy(v, "__deferred") && !(HasTruthy(v, "__metadata") && |Keys(v.fields)| == 1) ==> r
  {
    if !Truthy(v) then false
    else if v.JArr? then |v.elems| > 0
    else if IsObject(v) then
      if v.JDate? then false
      else if HasTruthy(v, "__metadata") && |Keys(v.fields)| == 1 then false
      else if HasTruthy(v, "__deferred") then false
      else true
    else false
  }

  /** `val.results && Array.isArray(val.results)`: a V2 collection wrapper. */
  predicate HasResultsArray(v: Json) {
    Get(v, "results").Some? && Get(v, "results").value.JArr?
  }

  // ---------------------------------------------------------------------
  // updateRecursiveSelection

  /** `updateRecursiveSelection(data, flag)`, as the value the object graph
      holds afterwards: every element of an array is visited; an object gets
      `__selected = flag` and each of its expandable values is visited. The
      assignment is made before the values are visited in the source; the new
      `__selected` value is a boolean, which is not expandable, so applying it
      last gives the same object. */
  function Update(v: Json, flag: bool): (r: Json)
    ensures Truthy(r) == Truthy(v) && r.JArr? == v.JArr? && r.JObj? == v.JObj?
    ensures v.JArr? ==> |r.elems| == |v.elems|
    ensures v.JObj? ==> Get(r, "__selected") == Some(JBool(flag))
    ensures !v.JArr? && !v.JObj? ==> r == v
    decreases v, 1
  {
    if !Truthy(v) then v
    else
      match v
      case JArr(es) => JArr(UpdateElems(es, flag))
      case JObj(fs) => JObj(Assign(UpdateFields(fs, flag), "__selected", JBool(flag)))
      case _ => v
  }

  /** The array's elements, each visited. */
  function UpdateElems(es: seq<Json>, flag: bool): (r: seq<Json>)
    ensures |r| == |es|
    decreases JArr(es), 0
  {
    seq(|es|, i requires 0 <= i < |es| => Update(es[i], flag))
  }

  /** The object's entries with each value visited as a child. */
  function UpdateFields(fs: seq<(string, Json)>, flag: bool): (r: seq<(string, Json)>)
    ensures |r| == |fs| && forall i :: 0 <= i < |fs| ==> r[i] == (fs[i].0, UpdateChild(fs[i].1, flag))
    decreases JObj(fs), 0
  {
    seq(|fs|, i requires 0 <= i < |fs| => (fs[i].0, UpdateChild(fs[i].1, flag)))
  }

  /** One value of a visited object: an expandable array is visited; of a
      `{results: [...]}` wrapper only the array is visited; any other
      expandable object is visited itself. */
  function UpdateChild(v: Json, flag: bool): (r: Json)
    ensures Truthy(r) == Truthy(v) && r.JArr? == v.JArr? && r.JObj? == v.JObj?
    ensures !IsExpandableData(v) ==> r == v
    ensures IsExpandableData(v) && v.JObj? && HasResultsArray(v) ==> Get(r, "__selected") == Get(v, "__selected")
    decreases v, 2
  {
    if !IsExpandableData(v) then v
    else if v.JArr? then Update(v, flag)
    else if HasResultsArray(v) then
      LookupSmaller(v.fields, "results");
      JObj(Assign(v.fields, "results", Update(Get(v, "results").value, flag)))
    else Update(v, flag)
  }

  // ---------------------------------------------------------------------
  // What the selection update promises

  /** Every object reachable from `v` through array elements, `results`
      wrappers and expandable values carries `__selected == flag`; arrays and
      wrappers themselves are passed through. */
  predicate Marked(v: Json, flag: bool)
    decreases v, 1
  {
    match v
    case JArr(es) => forall i :: 0 <= i < |es| ==> Marked(es[i], flag)
    case JObj(fs) =>
      Get(v, "__selected") == Some(JBool(flag))
      && forall i :: 0 <= i < |fs| ==> ChildMarked(fs[i].1, flag)
    case _ => true
  }

  /** `Marked`, for a value held by an object. */
  predicate ChildMarked(v: Json, flag: bool)
    decreases v, 2
  {
    IsExpandableData(v) ==>
      if v.JArr? then Marked(v, flag)
      else if HasResultsArray(v) then
        LookupSmaller(v.fields, "results");
        Marked(Get(v, "results").value, flag)
      else Marked(v, flag)
  }

  /** Visiting an object's values keeps its keys, and `obj[k]` afterwards is
      the visited value of `obj[k]` before. */
  lemma UpdateFieldsLookup(fs: seq<(string, Json)>, flag: bool, k: string)
    ensures Keys(UpdateFields(fs, flag)) == Keys(fs)
    ensures Lookup(UpdateFields(fs, flag), k)
      == if Lookup(fs, k).Some? then Some(UpdateChild(Lookup(fs, k).value, flag)) else None
  {
    var m := UpdateFields(fs, flag);
    forall j ensures j in Keys(m) <==> j in Keys(fs) {
      KeysIndex(m, j);
      KeysIndex(fs, j);
    }
    if k in Keys(fs) {
      var i := FirstIndex(fs, k);
      LookupAt(m, k, i);
    }
  }

  lemma AddKeyCount(ks: set<string>, added: string, present: string)
    requires present in ks && |ks| != 1
    ensures |ks + {added}| != 1
  {
    if added in ks {
      assert ks + {added} == ks;
    } else {
      assert |ks + {added}| == |ks| + 1;
    }
  }

  /** Reading a key of an updated object, other than `__selected`. */
  lemma UpdateGet(v: Json, flag: bool, k: string)
    requires v.JObj? && k != "__selected"
    ensures Keys(Update(v, flag).fields) == Keys(v.fields) + {"__selected"}
    ensures Get(Update(v, flag), k) == if Get(v, k).Some? then Some(UpdateChild(Get(v, k).value, flag)) else None
  {
    UpdateFieldsLookup(v.fields, flag, k);
  }

  /** A visited value is expandable exactly when it was. */
  lemma ChildExpandable(v: Json, flag: bool)
    ensures IsExpandableData(UpdateChild(v, flag)) == IsExpandableData(v)
  {
    if IsExpandableData(v) && v.JObj? {
      if HasResultsArray(v) {
        WrapperExpandable(v, flag);
      } else {
        UpdateExpandable(v, flag);
      }
    }
  }

  lemma WrapperExpandable(v: Json, flag: bool)
    requires IsExpandableData(v) && v.JObj? && HasResultsArray(v)
    ensures IsExpandableData(UpdateChild(v, flag))
  {
    LookupSmaller(v.fields, "results");
    var r := UpdateChild(v, flag);
    assert r.fields == Assign(v.fields, "results", Update(Get(v, "results").value, flag));
    assert Keys(r.fields) == Keys(v.fields);
    assert Get(r, "__metadata") == Get(v, "__metadata");
    assert Get(r, "__deferred") == Get(v, "__deferred");
  }

  lemma UpdateExpandable(v: Json, flag: bool)
    requires IsExpandableData(v) && v.JObj?
    ensures IsExpandableData(Update(v, flag))
  {
    var r := Update(v, flag);
    UpdateGet(v, flag, "__metadata");
    UpdateGet(v, flag, "__deferred");
    assert HasTruthy(r, "__metadata") == HasTruthy(v, "__metadata");
    assert !HasTruthy(r, "__deferred");
    if HasTruthy(v, "__metadata") {
      AddKeyCount(Keys(v.fields), "__selected", "__metadata");
    }
  }

  /** After the update, everything the update reaches is marked. */
  lemma UpdateMarks(v: Json, flag: bool)
    ensures Marked(Update(v, flag), flag)
    decreases v, 1
  {
    if v.JArr? {
      ElementsMarked(v, flag);
    } else if v.JObj? {
      FieldsMarked(v, flag);
    }
  }

  lemma ElementsMarked(v: Json, flag: bool)
    requires v.JArr?
    ensures Marked(Update(v, flag), flag)
    decreases v, 0
  {
    var r := UpdateElems(v.elems, flag);
    forall i | 0 <= i < |r| ensures Marked(r[i], flag) {
      UpdateMarks(v.elems[i], flag);
    }
  }

  lemma FieldsMarked(v: Json, flag: bool)
    requires v.JObj?
    ensures Marked(Update(v, flag), flag)
    decreases v, 0
  {
    var m := UpdateFields(v.fields, flag);
    var a := Assign(m, "__selected", JBool(flag));
    forall i | 0 <= i < |a| ensures ChildMarked(a[i].1, flag) {
      AssignAt(m, "__selected", JBool(flag), i);
      if i < |m| {
        ValueMarked(v.fields[i].1, flag, a[i].1);
      } else {
        FlagMarked(flag);
      }
    }
    assert Update(v, flag) == JObj(a);
  }

  lemma FlagMarked(flag: bool)
    ensures ChildMarked(JBool(flag), flag)
  {
  }

  /** A value of an updated object: a visited value, or the flag itself. */
  lemma ValueMarked(prior: Json, flag: bool, y: Json)
    requires y == UpdateChild(prior, flag) || y == JBool(flag)
    ensures ChildMarked(y, flag)
    decreases prior, 3
  {
    if y == UpdateChild(prior, flag) {
      ChildMarks(prior, flag);
    } else {
      FlagMarked(flag);
    }
  }

  lemma ChildMarks(v: Json, flag: bool)
    ensures ChildMarked(UpdateChild(v, flag), flag)
    decreases v, 2
  {
    if IsExpandableData(v) {
      ChildExpandable(v, flag);
      if v.JArr? {
        UpdateMarks(v, flag);
      } else if HasResultsArray(v) {
        LookupSmaller(v.fields, "results");
        UpdateMarks(Get(v, "results").value, flag);
      } else {
        UpdateGet(v, flag, "results");
        UpdateMarks(v, flag);
      }
    }
  }

  /** On marked data the update changes nothing. */
  lemma UpdateFixes(v: Json, flag: bool)
    requires Marked(v, flag)
    ensures Update(v, flag) == v
    decreases v, 1
  {
    match v
    case JArr(es) =>
      forall i | 0 <= i < |es| ensures UpdateElems(es, flag)[i] == es[i] {
        UpdateFixes(es[i], flag);
      }
      assert UpdateElems(es, flag) == es;
    case JObj(fs) =>
      forall i | 0 <= i < |fs| ensures UpdateFields(fs, flag)[i] == fs[i] {
        ChildFixes(fs[i].1, flag);
      }
      assert UpdateFields(fs, flag) == fs;
      AssignSame(fs, "__selected", JBool(flag));
    case _ =>
  }

  lemma ChildFixes(v: Json, flag: bool)
    requires ChildMarked(v, flag)
    ensures UpdateChild(v, flag) == v
    decreases v, 2
  {
    if IsExpandableData(v) {
      if v.JArr? {
        UpdateFixes(v, flag);
      } else if HasResultsArray(v) {
        LookupSmaller(v.fields, "results");
        UpdateFixes(Get(v, "results").value, flag);
        AssignSame(v.fields, "results", Get(v, "results").value);
      } else {
        UpdateFixes(v, flag);
      }
    }
  }

  /** Selecting twice with the same flag is selecting once. */
  lemma UpdateIdempotent(v: Json, flag: bool)
    ensures Update(Update(v, flag), flag) == Update(v, flag)
  {
    UpdateMarks(v, flag);
    UpdateFixes(Update(v, flag), flag);
  }

  /** The positions of an object's first `n` entries whose key is not `__selected`. */
  function Kept(fs: seq<(string, Json)>, n: nat): (r: seq<nat>)
    requires n <= |fs|
    ensures forall j :: 0 <= j < |r| ==> r[j] < n && fs[r[j]].0 != "__selected"
  {
    if n == 0 then []
    else Kept(fs, n - 1) + (if fs[n - 1].0 != "__selected" then [n - 1] else [])
  }

  /** The value with every `__selected` entry removed, at every depth. */
  function Erase(v: Json): (r: Json)
    ensures r.JArr? == v.JArr? && r.JObj? == v.JObj?
  {
    match v
    case JArr(es) => JArr(seq(|es|, i requires 0 <= i < |es| => Erase(es[i])))
    case JObj(fs) =>
      var kept := Kept(fs, |fs|);
      JObj(seq(|kept|, j requires 0 <= j < |kept| => (fs[kept[j]].0, Erase(fs[kept[j]].1))))
    case _ => v
  }

  /** `Kept` depends on the keys only. */
  lemma {:induction false} KeptSameKeys(fs: seq<(string, Json)>, gs: seq<(string, Json)>, n: nat)
    requires n <= |fs| && n <= |gs| && forall i :: 0 <= i < n ==> fs[i].0 == gs[i].0
    ensures Kept(fs, n) == Kept(gs, n)
  {
    if n > 0 {
      KeptSameKeys(fs, gs, n - 1);
    }
  }

  /** Two objects whose kept entries are pairwise equal up to `Erase` erase alike. */
  lemma EraseFieldsAlike(fs: seq<(string, Json)>, gs: seq<(string, Json)>)
    requires Kept(fs, |fs|) == Kept(gs, |gs|)
    requires forall j :: 0 <= j < |Kept(fs, |fs|)| ==>
      gs[Kept(fs, |fs|)[j]].0 == fs[Kept(fs, |fs|)[j]].0
      && Erase(gs[Kept(fs, |fs|)[j]].1) == Erase(fs[Kept(fs, |fs|)[j]].1)
    ensures Erase(JObj(gs)) == Erase(JObj(fs))
  {
  }

  /** The update changes nothing but `__selected` entries. */
  lemma EraseUpdate(v: Json, flag: bool)
    ensures Erase(Update(v, flag)) == Erase(v)
    decreases v, 1
  {
    match v
    case JArr(es) =>
      var r := UpdateElems(es, flag);
      forall i | 0 <= i < |es| ensures Erase(r[i]) == Erase(es[i]) {
        EraseUpdate(es[i], flag);
      }
      assert Erase(JArr(r)).elems == Erase(v).elems;
    case JObj(fs) =>
      EraseFields(v, flag);
    case _ =>
  }

  lemma EraseFields(v: Json, flag: bool)
    requires v.JObj?
    ensures Erase(Update(v, flag)) == Erase(v)
    decreases v, 0, 1
  {
    var fs := v.fields;
    var a := Assign(UpdateFields(fs, flag), "__selected", JBool(flag));
    KeptAfterUpdate(fs, flag);
    var kept := Kept(fs, |fs|);
    forall j | 0 <= j < |kept| ensures a[kept[j]].0 == fs[kept[j]].0 && Erase(a[kept[j]].1) == Erase(fs[kept[j]].1) {
      EraseEntry(v, flag, kept[j]);
    }
    EraseFieldsAlike(fs, a);
    assert Update(v, flag) == JObj(a);
  }

  /** Marking an object does not move or add a kept entry. */
  lemma KeptAfterUpdate(fs: seq<(string, Json)>, flag: bool)
    ensures Kept(Assign(UpdateFields(fs, flag), "__selected", JBool(flag)), |Assign(UpdateFields(fs, flag), "__selected", JBool(flag))|)
      == Kept(fs, |fs|)
  {
    var m := UpdateFields(fs, flag);
    var a := Assign(m, "__selected", JBool(flag));
    KeptSameKeys(m, fs, |fs|);
    if |a| == |m| {
      KeptSameKeys(a, m, |m|);
    } else {
      AssignAt(m, "__selected", JBool(flag), |m|);
      KeptSameKeys(a, m, |m|);
    }
  }

  /** A kept entry of a marked object is its visited original. */
  lemma EraseEntry(v: Json, flag: bool, k: nat)
    requires v.JObj? && k < |v.fields| && v.fields[k].0 != "__selected"
    ensures var a := Assign(UpdateFields(v.fields, flag), "__selected", JBool(flag));
      a[k].0 == v.fields[k].0 && Erase(a[k].1) == Erase(v.fields[k].1)
    decreases v, 0, 0
  {
    AssignAt(UpdateFields(v.fields, flag), "__selected", JBool(flag), k);
    EraseChild(v.fields[k].1, flag);
  }

  lemma EraseChild(v: Json, flag: bool)
    ensures Erase(UpdateChild(v, flag)) == Erase(v)
    decreases v, 2
  {
    if IsExpandableData(v) {
      if v.JArr? {
        EraseUpdate(v, flag);
      } else if HasResultsArray(v) {
        EraseWrapper(v, flag);
      } else {
        EraseUpdate(v, flag);
      }
    }
  }

  lemma EraseWrapper(v: Json, flag: bool)
    requires IsExpandableData(v) && v.JObj? && HasResultsArray(v)
    ensures Erase(UpdateChild(v, flag)) == Erase(v)
    decreases v, 1
  {
    var fs := v.fields;
    LookupSmaller(fs, "results");
    var rv := Get(v, "results").value;
    var a := Assign(fs, "results", Update(rv, flag));
    assert UpdateChild(v, flag) == JObj(a);
    assert |a| == |fs|;
    KeptSameKeys(a, fs, |fs|);
    var kept := Kept(fs, |fs|);
    forall j | 0 <= j < |kept| ensures a[kept[j]].0 == fs[kept[j]].0 && Erase(a[kept[j]].1) == Erase(fs[kept[j]].1) {
      AssignAt(fs, "results", Update(rv, flag), kept[j]);
      if a[kept[j]] != fs[kept[j]] {
        LookupAt(fs, "results", kept[j]);
        EraseUpdate(rv, flag);
      }
    }
    EraseFieldsAlike(fs, a);
  }

  // ---------------------------------------------------------------------
  // toInputDate / fromInputDate

  /** `toInputDate`: the text a `datetime-local` input shows for a cell value. */
  function ToInputDate(v: Json): (r: string)
    ensures !Truthy(v) ==> r == ""
    ensures Truthy(v) ==> StartsWith(JsString(v), r)
    ensures Truthy(v) && Contains(JsString(v), "T") ==> |r| == if |JsString(v)| >= 16 then 16 else |JsString(v)|
    ensures Truthy(v) && !Contains(JsString(v), "T") ==> r == JsString(v)
  {
    if !Truthy(v) then ""
    else
      var str := JsString(v);
      if |str| >= 16 && Contains(str, "T") then str[..16] else str
  }

  /** `fromInputDate`: the OData value for an input's text; `None` is `null`. */
  function FromInputDate(val: string): (r: Option<string>)
    ensures r.None? <==> val == ""
    ensures r.Some? ==> StartsWith(r.value, val)
    ensures r.Some? && |val| == 16 ==> r.value[16..] == ":00Z"
    ensures r.Some? && |val| != 16 ==> r.value == val
  {
    if val == "" then None
    else if |val| == 16 then Some(val + ":00Z")
    else Some(val)
  }

  /** An input's minute-precision text survives the trip to OData and back. */
  lemma InputDateRoundTrip(s: string)
    requires |s| == 16 && Contains(s, "T")
    ensures FromInputDate(s).Some? && ToInputDate(JStr(FromInputDate(s).value)) == s
  {
    var full := s + ":00Z";
    ContainsIff(s, "T");
    var i :| OccursAt(s, "T", i);
    assert full[i..i + 1] == s[i..i + 1];
    ContainsAt(full, "T", i);
    assert full[..16] == s;
  }

  /** An OData value with zero seconds comes back from the input unchanged. */
  lemma ODataDateRoundTrip(v: Json, minutes: string)
    requires JsString(v) == minutes + ":00Z" && |minutes| == 16 && Contains(minutes, "T")
    ensures FromInputDate(ToInputDate(v)) == Some(JsString(v))
  {
    assert Truthy(v) by {
      assert v.JNull? ==> JsString(v) == "null";
    }
    InputDateRoundTrip(minutes);
    assert JsString(JStr(minutes + ":00Z")) == JsString(v);
  }
}
