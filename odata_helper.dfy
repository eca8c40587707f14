/** The metadata parser the dashboard uses (`utils/odata-helper.ts`): the
    service-root and metadata-URL helpers, the version sniffing of metadata
    text, and the translation of a CSDL document (as an element tree) into
    entity types, complex types and entity sets. */
module ODataHelper {
  import opened Wrappers
  import opened Text
  import opened Json
  import opened Xml
  import opened Records

  datatype ODataVersion = V2 | V3 | V4 | Unknown

  // ===========================================================================
  // Service root and metadata URL

  /** `url.trim().split('#')[0].split('?')[0]`. */
  function CleanUrl(url: string): (c: string)
    ensures c <= Trim(url) && '#' !in c && '?' !in c
  {
    var a := BeforeFirst(Trim(url), '#');
    BeforeFirst(a, '?')
  }

  /** The service root of any URL inside an OData service. */
  function GetServiceRoot(url: string): (root: string)
    ensures root <= CleanUrl(url)
  {
    RootOf(CleanUrl(url))
  }

  /** The rules applied to the cleaned URL `c`, first match wins: (1) strip a
      `/$metadata` or `$metadata` suffix (compared lower-case), (2) cut right
      after the first `.svc`, (3) cut right after the `/odata` of the first
      `/odata/`, (4) drop one trailing `/`. */
  function RootOf(c: string): (root: string)
    ensures root <= c
  {
    var lc := ToLower(c);
    if EndsWith(lc, "/$metadata") then c[..|c| - 10]
    else if EndsWith(lc, "$metadata") then c[..|c| - 9]
    else
      var svc := IndexOf(lc, ".svc");
      if svc > -1 then c[..svc + 4]
      else
        var od := IndexOf(lc, "/odata/");
        if od > -1 then c[..od + 6]
        else if EndsWith(c, "/") then c[..|c| - 1]
        else c
  }

  /** The metadata document of the service a URL belongs to. */
  function GetMetadataUrl(url: string): (m: string)
    ensures EndsWith(m, "/$metadata")
    ensures m[..|m| - 10] <= CleanUrl(url)
  {
    var root := GetServiceRoot(url);
    assert (root + "/$metadata")[..|root|] == root;
    root + "/$metadata"
  }

  lemma LowerSlice(s: string, i: int, j: int)
    requires 0 <= i <= j <= |s|
    ensures ToLower(s[i..j]) == ToLower(s)[i..j]
  {
  }

  lemma OccursInPrefix(s: string, n: int, sub: string, j: int)
    requires 0 <= n <= |s| && OccursAt(s[..n], sub, j)
    ensures OccursAt(s, sub, j)
  {
    assert s[..n][j..j + |sub|] == s[j..j + |sub|];
  }

  lemma EndsWithSuffix(s: string, suffix: string, k: nat)
    requires EndsWith(s, suffix) && k <= |suffix|
    ensures EndsWith(s, suffix[k..])
  {
    assert s[|s| - |suffix[k..]|..] == s[|s| - |suffix|..][k..];
  }

  lemma SlashBeforeMetadata(s: string)
    requires |s| >= 10 && s[|s| - 10] == '/' && EndsWith(s, "$metadata")
    ensures EndsWith(s, "/$metadata")
  {
    var t := s[|s| - 10..];
    assert t[1..] == "$metadata";
    assert t[0] == '/';
    assert t == "/$metadata";
  }

  lemma NotMetadataSuffix(lc: string)
    requires !EndsWith(lc, "$metadata")
    ensures !EndsWith(lc, "/$metadata")
  {
    if EndsWith(lc, "/$metadata") {
      EndsWithSuffix(lc, "/$metadata", 1);
    }
  }

  /** Rule 1: the root is the URL without its (case-insensitive) `$metadata`
      suffix, and without the `/` before it when there is one. */
  lemma ServiceRootStripsMetadata(c: string)
    requires EndsWith(ToLower(c), "$metadata")
    ensures var root := RootOf(c);
      var tail := ToLower(c[|root|..]);
      tail == "/$metadata" || (tail == "$metadata" && !EndsWith(ToLower(root), "/"))
  {
    var root, lc := RootOf(c), ToLower(c);
    if EndsWith(lc, "/$metadata") {
      assert c[|root|..] == c[|c| - 10..|c|];
      LowerSlice(c, |c| - 10, |c|);
    } else {
      assert root == c[..|c| - 9];
      assert c[|root|..] == c[|c| - 9..|c|];
      LowerSlice(c, |c| - 9, |c|);
      LowerSlice(c, 0, |c| - 9);
      if EndsWith(ToLower(root), "/") {
        assert lc[|c| - 10] == ToLower(root)[|root| - 1];
        SlashBeforeMetadata(lc);
      }
    }
  }

  /** Rule 2: the root is the shortest prefix of the URL ending in `.svc`. */
  lemma ServiceRootCutsAtSvc(c: string)
    requires !EndsWith(ToLower(c), "$metadata")
    requires Contains(ToLower(c), ".svc")
    ensures var root := RootOf(c);
      EndsWith(ToLower(root), ".svc") && !Contains(ToLower(root[..|root| - 1]), ".svc")
  {
    var root, lc := RootOf(c), ToLower(c);
    NotMetadataSuffix(lc);
    var svc := IndexOf(lc, ".svc");
    assert root == c[..svc + 4];
    LowerSlice(c, 0, svc + 4);
    LowerSlice(c, 0, svc + 3);
    assert root[..|root| - 1] == c[..svc + 3];
    if Contains(lc[..svc + 3], ".svc") {
      var j := IndexOf(lc[..svc + 3], ".svc");
      OccursInPrefix(lc, svc + 3, ".svc", j);
    }
  }

  /** Rule 3: with no `.svc`, the root is the shortest prefix of the URL that
      is followed by `/` and ends in `/odata`. */
  lemma ServiceRootCutsAtOData(c: string)
    requires !EndsWith(ToLower(c), "$metadata")
    requires !Contains(ToLower(c), ".svc")
    requires Contains(ToLower(c), "/odata/")
    ensures var root := RootOf(c);
      |root| < |c| && EndsWith(ToLower(c[..|root| + 1]), "/odata/")
      && !Contains(ToLower(root), "/odata/")
  {
    var od := IndexOf(ToLower(c), "/odata/");
    ODataRoot(c);
    ODataOccurs(c, od);
    FirstOData(c, od);
  }

  lemma ODataRoot(c: string)
    requires !EndsWith(ToLower(c), "$metadata")
    requires !Contains(ToLower(c), ".svc")
    requires Contains(ToLower(c), "/odata/")
    ensures RootOf(c) == c[..IndexOf(ToLower(c), "/odata/") + 6]
  {
    NotMetadataSuffix(ToLower(c));
  }

  lemma ODataOccurs(c: string, od: int)
    requires OccursAt(ToLower(c), "/odata/", od)
    ensures EndsWith(ToLower(c[..od + 7]), "/odata/")
  {
    var lc := ToLower(c);
    LowerSlice(c, 0, od + 7);
    assert lc[..od + 7][od..] == lc[od..od + 7];
  }

  lemma FirstOData(c: string, od: int)
    requires od == IndexOf(ToLower(c), "/odata/") && od >= 0
    ensures !Contains(ToLower(c[..od + 6]), "/odata/")
  {
    var lc := ToLower(c);
    LowerSlice(c, 0, od + 6);
    if Contains(lc[..od + 6], "/odata/") {
      var j := IndexOf(lc[..od + 6], "/odata/");
      OccursInPrefix(lc, od + 6, "/odata/", j);
    }
  }

  /** Rule 4: otherwise the root is the cleaned URL less one trailing `/`. */
  lemma ServiceRootDropsSlash(c: string)
    requires !EndsWith(ToLower(c), "$metadata")
    requires !Contains(ToLower(c), ".svc")
    requires !Contains(ToLower(c), "/odata/")
    ensures if EndsWith(c, "/") then RootOf(c) + "/" == c else RootOf(c) == c
  {
    NotMetadataSuffix(ToLower(c));
  }

  lemma BeforeFirstAbsent(s: string, c: char)
    requires c !in s
    ensures BeforeFirst(s, c) == s
  {
    if s != [] {
      assert c !in s[1..];
      BeforeFirstAbsent(s[1..], c);
    }
  }

  lemma LowerMetadata()
    ensures ToLower("/$metadata") == "/$metadata"
  {
    var t := "/$metadata";
    assert forall i :: 0 <= i < |t| ==> !('A' <= t[i] <= 'Z');
  }

  /** A root followed by `/$metadata` falls under rule 1 and gives the root back. */
  lemma RootOfMetadataUrl(root: string)
    ensures RootOf(root + "/$metadata") == root
  {
    var m := root + "/$metadata";
    assert EndsWith(m, "/$metadata");
    LowerEndsWith(m, "/$metadata");
    LowerMetadata();
    assert m[..|m| - 10] == root;
  }

  lemma TrimKeeps(m: string)
    requires m != [] && !IsJsSpace(m[0]) && !IsJsSpace(m[|m| - 1])
    ensures Trim(m) == m
  {
    assert TrimStart(m) == m;
  }

  /** The cleaned URL starts with a non-space character. */
  lemma CleanUrlStart(url: string)
    requires CleanUrl(url) != []
    ensures !IsJsSpace(CleanUrl(url)[0])
  {
    var t := Trim(url);
    TrimBothEnds(url);
    assert CleanUrl(url)[0] == t[0];
  }

  lemma PrefixAvoids(p: string, s: string, ch: char)
    requires p <= s && ch !in s
    ensures ch !in p
  {
    assert forall i :: 0 <= i < |p| ==> p[i] == s[i];
  }

  lemma MetadataSuffixPlain()
    ensures '#' !in "/$metadata" && '?' !in "/$metadata"
  {
    var t := "/$metadata";
    assert forall i :: 0 <= i < |t| ==> t[i] != '#' && t[i] != '?';
  }

  lemma ConcatAvoids(a: string, b: string, ch: char)
    requires ch !in a && ch !in b
    ensures ch !in a + b
  {
    assert forall i :: 0 <= i < |a + b| ==> (a + b)[i] == if i < |a| then a[i] else b[i - |a|];
  }

  /** Cleaning leaves a metadata URL unchanged. */
  lemma CleanMetadataUrl(url: string)
    ensures CleanUrl(GetMetadataUrl(url)) == GetMetadataUrl(url)
  {
    var root := GetServiceRoot(url);
    var m := GetMetadataUrl(url);
    var c := CleanUrl(url);
    assert m == root + "/$metadata";
    assert !IsJsSpace(m[0]) by {
      if root != [] {
        CleanUrlStart(url);
        assert root[0] == c[0];
      }
    }
    TrimKeeps(m);
    PrefixAvoids(root, c, '#');
    PrefixAvoids(root, c, '?');
    MetadataSuffixPlain();
    ConcatAvoids(root, "/$metadata", '#');
    ConcatAvoids(root, "/$metadata", '?');
    BeforeFirstAbsent(m, '#');
    BeforeFirstAbsent(m, '?');
  }

  /** The metadata URL belongs to the same service: its service root is the
      root it was built from. */
  lemma MetadataUrlRoundTrip(url: string)
    ensures GetServiceRoot(GetMetadataUrl(url)) == GetServiceRoot(url)
  {
    CleanMetadataUrl(url);
    RootOfMetadataUrl(GetServiceRoot(url));
  }

  // ===========================================================================
  // Version sniffing of metadata text

  /** The version a metadata text declares; `Version="4.0"` wins over the V2
      markers, which win over `Version="3.0"`. */
  function ParseVersionFromXml(xml: string): (v: ODataVersion)
    ensures v == V4 <==> Contains(xml, "Version=\"4.0\"")
    ensures v == V2 <==> !Contains(xml, "Version=\"4.0\"")
                         && (Contains(xml, "Version=\"1.0\"") || Contains(xml, "Version=\"2.0\""))
    ensures v == V3 <==> !Contains(xml, "Version=\"4.0\"") && !Contains(xml, "Version=\"1.0\"")
                         && !Contains(xml, "Version=\"2.0\"") && Contains(xml, "Version=\"3.0\"")
    ensures v == Unknown <==> forall m :: m in VersionMarkers ==> !Contains(xml, m)
  {
    if Contains(xml, "Version=\"4.0\"") then V4
    else if Contains(xml, "Version=\"1.0\"") || Contains(xml, "Version=\"2.0\"") then V2
    else if Contains(xml, "Version=\"3.0\"") then V3
    else Unknown
  }

  lemma ContainsExtended(s: string, t: string, sub: string)
    requires Contains(s, sub)
    ensures Contains(s + t, sub) && Contains(t + s, sub)
  {
    var i := IndexOf(s, sub);
    assert (s + t)[i..i + |sub|] == s[i..i + |sub|];
    ContainsAt(s + t, sub, i);
    assert (t + s)[|t| + i..|t| + i + |sub|] == s[i..i + |sub|];
    ContainsAt(t + s, sub, |t| + i);
  }

  /** The four version attributes the sniffer looks for. */
  const VersionMarkers: set<string> := {"Version=\"4.0\"", "Version=\"1.0\"", "Version=\"2.0\"", "Version=\"3.0\""}

  /** The precedence of the sniffer's answers: Unknown, then V3, then V2, then V4. */
  function Precedence(v: ODataVersion): nat {
    match v
    case Unknown => 0
    case V3 => 1
    case V2 => 2
    case V4 => 3
  }

  /** More text never lowers the answer: a marker found in part of a text is
      found in the whole, so a known version stays known and can only give
      way to a marker of higher precedence. */
  lemma VersionMonotone(xml: string, extra: string)
    ensures Precedence(ParseVersionFromXml(xml)) <= Precedence(ParseVersionFromXml(xml + extra))
    ensures Precedence(ParseVersionFromXml(xml)) <= Precedence(ParseVersionFromXml(extra + xml))
  {
    forall m | m in VersionMarkers && Contains(xml, m)
      ensures Contains(xml + extra, m) && Contains(extra + xml, m)
    {
      ContainsExtended(xml, extra, m);
    }
  }

  /** A text classified V4 stays V4 whatever is added around it. */
  lemma VersionV4Dominates(xml: string, extra: string)
    requires ParseVersionFromXml(xml) == V4
    ensures ParseVersionFromXml(xml + extra) == V4 && ParseVersionFromXml(extra + xml) == V4
  {
    ContainsExtended(xml, extra, "Version=\"4.0\"");
  }

  // ===========================================================================
  // Schema records

  /** One structural property. `typeName` is the `Type` attribute. The
      numeric facets are `parseInt` of a non-empty attribute, absent otherwise. */
  datatype EntityProperty = EntityProperty(
    name: string,
    typeName: string,
    nullable: bool,
    maxLength: Option<JsNumber>,
    fixedLength: bool,
    precision: Option<JsNumber>,
    scale: Option<JsNumber>,
    unicode: bool,
    defaultValue: Option<string>,
    concurrencyMode: Option<string>,
    customAttributes: Option<Record<string>>)

  datatype Constraint = Constraint(sourceProperty: string, targetProperty: string)

  /** `targetType` is `null` for a navigation that could not be resolved. */
  datatype NavigationProperty = NavigationProperty(
    name: string,
    targetType: Option<string>,
    relationship: Option<string>,
    sourceMultiplicity: string,
    targetMultiplicity: string,
    constraints: seq<Constraint>)

  datatype EntityType = EntityType(
    name: string,
    keys: seq<string>,
    properties: seq<EntityProperty>,
    navigationProperties: seq<NavigationProperty>)

  datatype EntitySet = EntitySet(name: string, entityType: string)

  datatype ParsedSchema = ParsedSchema(
    entities: seq<EntityType>,
    complexTypes: seq<EntityType>,
    entitySets: seq<EntitySet>,
    namespace: string)

  datatype AssociationEnd = AssociationEnd(role: string, typeName: string, multiplicity: string)

  datatype RoleRef = RoleRef(role: string, propertyRef: string)

  datatype AssociationConstraint = AssociationConstraint(principal: RoleRef, dependent: RoleRef)

  /** What the V2/V3 association index stores per association. */
  datatype Association = Association(roles: map<string, AssociationEnd>, constraint: Option<AssociationConstraint>)

  // ===========================================================================
  // Properties

  /** The attributes of a `Property` that are not copied into `customAttributes`. */
  const StandardAttrs: set<string> :=
    {"Name", "Type", "Nullable", "MaxLength", "FixedLength",
     "Precision", "Scale", "Unicode", "DefaultValue", "ConcurrencyMode"}

  predicate IsCustomAttribute(name: string) {
    name !in StandardAttrs && !StartsWith(name, "xmlns")
  }

  /** The `customAttributes` record after visiting `attrs` in order. */
  function CustomRecord(attrs: seq<(string, string)>): Record<string> {
    if attrs == [] then []
    else
      var r := CustomRecord(attrs[..|attrs| - 1]);
      var (name, value) := attrs[|attrs| - 1];
      if IsCustomAttribute(name) then Assign(r, name, value) else r
  }

  /** A numeric facet: `parseInt` of the attribute when it is non-empty. */
  function NumericFacet(e: Elem, name: string): Option<JsNumber> {
    match NonEmptyAttr(e, name)
    case Some(v) => Some(ParseInt(v))
    case None => None
  }

  /** The record built for one `Property` element. */
  function ParseProperty(p: Elem): EntityProperty {
    PropertyWith(p, CustomRecord(p.attrs))
  }

  /** The record for `p` given its collected custom attributes: absent when
      there are none. */
  function PropertyWith(p: Elem, custom: Record<string>): EntityProperty {
    EntityProperty(
      AttrOr(p, "Name", ""),
      AttrOr(p, "Type", ""),
      GetAttribute(p, "Nullable") != Some("false"),
      NumericFacet(p, "MaxLength"),
      GetAttribute(p, "FixedLength") == Some("true"),
      NumericFacet(p, "Precision"),
      NumericFacet(p, "Scale"),
      GetAttribute(p, "Unicode") != Some("false"),
      NonEmptyAttr(p, "DefaultValue"),
      NonEmptyAttr(p, "ConcurrencyMode"),
      if |custom| > 0 then Some(custom) else None)
  }

  function ParsePropertyList(ps: seq<Elem>): (r: seq<EntityProperty>)
    ensures |r| == |ps|
  {
    if ps == [] then [] else ParsePropertyList(ps[..|ps| - 1]) + [ParseProperty(ps[|ps| - 1])]
  }

  /** The i-th parsed property is the parse of the i-th `Property` element. */
  lemma {:induction false} PropertyListAt(ps: seq<Elem>, i: int)
    requires 0 <= i < |ps|
    ensures ParsePropertyList(ps)[i] == ParseProperty(ps[i])
  {
    if i < |ps| - 1 {
      PropertyListAt(ps[..|ps| - 1], i);
    }
  }

  lemma ParsePropertyListStep(ps: seq<Elem>, i: int)
    requires 0 <= i < |ps|
    ensures ParsePropertyList(ps[..i + 1]) == ParsePropertyList(ps[..i]) + [ParseProperty(ps[i])]
  {
    assert ps[..i + 1][..i] == ps[..i];
  }

  /** The properties of an entity or complex type, one per `Property`
      descendant, in document order. */
  function PropertiesOf(e: Elem): seq<EntityProperty> {
    ParsePropertyList(ElementsByTagName(e, "Property"))
  }

  /** The loop that copies the non-standard attributes of one property. */
  method CollectCustomAttributes(attrs: seq<(string, string)>) returns (customAttributes: Record<string>)
    ensures customAttributes == CustomRecord(attrs)
  {
    customAttributes := [];
    for i := 0 to |attrs|
      invariant customAttributes == CustomRecord(attrs[..i])
    {
      var (name, value) := attrs[i];
      if name !in StandardAttrs && !StartsWith(name, "xmlns") {
        customAttributes := Assign(customAttributes, name, value);
      }
      assert attrs[..i + 1][..i] == attrs[..i];
    }
    assert attrs[..|attrs|] == attrs;
  }

  method ParseProperties(element: Elem) returns (properties: seq<EntityProperty>)
    ensures properties == PropertiesOf(element)
  {
    properties := [];
    var props := ElementsByTagName(element, "Property");
    for p := 0 to |props|
      invariant properties == ParsePropertyList(props[..p])
    {
      ParsePropertyListStep(props, p);
      var prop := ParsePropertyNode(props[p]);
      properties := properties + [prop];
    }
    assert props[..|props|] == props;
  }

  /** One property, with its custom-attribute loop. */
  method ParsePropertyNode(propNode: Elem) returns (prop: EntityProperty)
    ensures prop == ParseProperty(propNode)
  {
    var customAttributes := CollectCustomAttributes(propNode.attrs);
    prop := PropertyWith(propNode, customAttributes);
  }

  /** The boolean facets: `Nullable` and `Unicode` are true unless written
      exactly "false"; `FixedLength` is true only when written exactly "true". */
  lemma PropertyFlags(p: Elem)
    ensures ParseProperty(p).nullable <==> GetAttribute(p, "Nullable") != Some("false")
    ensures ParseProperty(p).unicode <==> GetAttribute(p, "Unicode") != Some("false")
    ensures ParseProperty(p).fixedLength <==> GetAttribute(p, "FixedLength") == Some("true")
    ensures GetAttribute(p, "Nullable").None? ==> ParseProperty(p).nullable
  {
  }

  /** The index of the last attribute named `name`. */
  predicate LastWith(attrs: seq<(string, string)>, name: string, i: int) {
    0 <= i < |attrs| && attrs[i].0 == name && forall j :: i < j < |attrs| ==> attrs[j].0 != name
  }

  /** `customAttributes` holds exactly the non-standard, non-`xmlns` attributes,
      once each, each with the value of its last occurrence. */
  lemma CustomRecordExact(attrs: seq<(string, string)>)
    ensures DistinctKeys(CustomRecord(attrs))
    ensures forall k :: k in Keys(CustomRecord(attrs)) <==>
              IsCustomAttribute(k) && exists i :: 0 <= i < |attrs| && attrs[i].0 == k
    ensures forall k, i :: IsCustomAttribute(k) && LastWith(attrs, k, i) ==>
              Lookup(CustomRecord(attrs), k) == Some(attrs[i].1)
  {
    CustomRecordDistinct(attrs);
    forall k
      ensures k in Keys(CustomRecord(attrs)) <==>
              IsCustomAttribute(k) && exists i :: 0 <= i < |attrs| && attrs[i].0 == k
    {
      CustomRecordKeys(attrs, k);
    }
    forall k, i | IsCustomAttribute(k) && LastWith(attrs, k, i)
      ensures Lookup(CustomRecord(attrs), k) == Some(attrs[i].1)
    {
      CustomRecordLast(attrs, k, i);
    }
  }

  lemma {:induction false} CustomRecordDistinct(attrs: seq<(string, string)>)
    ensures DistinctKeys(CustomRecord(attrs))
  {
    if attrs != [] {
      var (name, value) := attrs[|attrs| - 1];
      CustomRecordDistinct(attrs[..|attrs| - 1]);
      if IsCustomAttribute(name) {
        AssignDistinct(CustomRecord(attrs[..|attrs| - 1]), name, value);
      }
    }
  }

  lemma {:induction false} CustomRecordKeys(attrs: seq<(string, string)>, k: string)
    ensures k in Keys(CustomRecord(attrs)) <==>
            IsCustomAttribute(k) && exists i :: 0 <= i < |attrs| && attrs[i].0 == k
  {
    if attrs != [] {
      var init := attrs[..|attrs| - 1];
      var name := attrs[|attrs| - 1].0;
      CustomRecordKeys(init, k);
      if IsCustomAttribute(k) && (exists i :: 0 <= i < |attrs| && attrs[i].0 == k) && k != name {
        var i :| 0 <= i < |attrs| && attrs[i].0 == k;
        assert init[i].0 == k;
      }
      if k in Keys(CustomRecord(attrs)) && k != name {
        var i :| 0 <= i < |init| && init[i].0 == k;
        assert attrs[i].0 == k;
      }
    }
  }

  lemma {:induction false} CustomRecordLast(attrs: seq<(string, string)>, k: string, i: int)
    requires IsCustomAttribute(k) && LastWith(attrs, k, i)
    ensures Lookup(CustomRecord(attrs), k) == Some(attrs[i].1)
  {
    var init := attrs[..|attrs| - 1];
    if k != attrs[|attrs| - 1].0 {
      assert LastWith(init, k, i);
      CustomRecordLast(init, k, i);
    }
  }

  /** A property has `customAttributes` exactly when it carries an attribute
      that is neither standard nor an `xmlns` declaration. */
  lemma CustomAttributesPresence(p: Elem)
    ensures ParseProperty(p).customAttributes.Some? <==>
      exists i :: 0 <= i < |p.attrs| && IsCustomAttribute(p.attrs[i].0)
  {
    CustomRecordExact(p.attrs);
    var r := CustomRecord(p.attrs);
    if |r| > 0 {
      assert r[0].0 in Keys(r);
    }
    if exists i :: 0 <= i < |p.attrs| && IsCustomAttribute(p.attrs[i].0) {
      var i :| 0 <= i < |p.attrs| && IsCustomAttribute(p.attrs[i].0);
      assert p.attrs[i].0 in Keys(r);
    }
  }

  // ===========================================================================
  // V2/V3 associations

  /** `${namespace}.${name}`, or the bare name when there is no namespace. */
  function QualifiedName(ns: string, name: string): string {
    if ns != "" then ns + "." + name else name
  }

  /** The `End` elements of an association keyed by role, visited in order: a
      later `End` with the same role replaces an earlier one and an `End`
      without a role is skipped. */
  function RolesOf(ends: seq<Elem>): map<string, AssociationEnd> {
    if ends == [] then map[]
    else
      var m := RolesOf(ends[..|ends| - 1]);
      var e := ends[|ends| - 1];
      match NonEmptyAttr(e, "Role")
      case Some(role) => m[role := AssociationEnd(role, AttrOr(e, "Type", ""), AttrOr(e, "Multiplicity", "1"))]
      case None => m
  }

  /** The `Name` of the first `PropertyRef` under `e`, when non-empty. */
  function PropertyRefName(e: Elem): Option<string> {
    match FirstByTagName(e, "PropertyRef")
    case Some(r) => NonEmptyAttr(r, "Name")
    case None => None
  }

  /** The first `ReferentialConstraint` of an association, when its first
      `Principal` and `Dependent` both name a role and a property. */
  function ConstraintOf(at: Elem): Option<AssociationConstraint> {
    match FirstByTagName(at, "ReferentialConstraint")
    case None => None
    case Some(rc) =>
      match (FirstByTagName(rc, "Principal"), FirstByTagName(rc, "Dependent"))
      case (Some(p), Some(d)) =>
        var pRole, pRef := NonEmptyAttr(p, "Role"), PropertyRefName(p);
        var dRole, dRef := NonEmptyAttr(d, "Role"), PropertyRefName(d);
        if pRole.Some? && pRef.Some? && dRole.Some? && dRef.Some? then
          Some(AssociationConstraint(RoleRef(pRole.value, pRef.value), RoleRef(dRole.value, dRef.value)))
        else None
      case _ => None
  }

  function AssociationData(at: Elem): Association {
    Association(RolesOf(ElementsByTagName(at, "End")), ConstraintOf(at))
  }

  /** Storing association `at` writes key `k`. */
  predicate Writes(at: Elem, ns: string, k: string) {
    var name := NonEmptyAttr(at, "Name");
    name.Some? && (k == QualifiedName(ns, name.value) || k == name.value)
  }

  /** The association index after visiting `assocs` in order: each association
      with a non-empty name is stored under its qualified name and then under
      its bare name. */
  function AssociationIndex(assocs: seq<Elem>, ns: string): map<string, Association> {
    if assocs == [] then map[]
    else
      var m := AssociationIndex(assocs[..|assocs| - 1], ns);
      var at := assocs[|assocs| - 1];
      match NonEmptyAttr(at, "Name")
      case None => m
      case Some(name) =>
        var data := AssociationData(at);
        m[QualifiedName(ns, name) := data][name := data]
  }

  lemma AssociationIndexStep(assocs: seq<Elem>, ns: string, k: string)
    requires assocs != []
    ensures k in AssociationIndex(assocs, ns) <==>
      Writes(assocs[|assocs| - 1], ns, k) || k in AssociationIndex(assocs[..|assocs| - 1], ns)
  {
  }

  /** The index has exactly the keys some association writes. */
  lemma {:induction false} AssociationIndexKeys(assocs: seq<Elem>, ns: string, k: string)
    ensures k in AssociationIndex(assocs, ns) <==> exists i :: 0 <= i < |assocs| && Writes(assocs[i], ns, k)
  {
    if assocs != [] {
      var init := assocs[..|assocs| - 1];
      AssociationIndexKeys(init, ns, k);
      AssociationIndexStep(assocs, ns, k);
      WritersSplit(assocs, init, ns, k);
    }
  }

  lemma WritersSplit(assocs: seq<Elem>, init: seq<Elem>, ns: string, k: string)
    requires assocs != [] && init == assocs[..|assocs| - 1]
    ensures (exists i :: 0 <= i < |assocs| && Writes(assocs[i], ns, k)) <==>
      Writes(assocs[|assocs| - 1], ns, k) || exists i :: 0 <= i < |init| && Writes(init[i], ns, k)
  {
    if exists i :: 0 <= i < |assocs| - 1 && Writes(init[i], ns, k) {
      var i :| 0 <= i < |assocs| - 1 && Writes(init[i], ns, k);
      assert Writes(assocs[i], ns, k);
    }
    if exists i :: 0 <= i < |assocs| && Writes(assocs[i], ns, k) {
      var i :| 0 <= i < |assocs| && Writes(assocs[i], ns, k);
      if i < |assocs| - 1 {
        assert Writes(init[i], ns, k);
      }
    }
  }

  /** Each key holds the data of the last association that writes it. */
  lemma {:induction false} AssociationIndexLastWriter(assocs: seq<Elem>, ns: string, k: string, i: int)
    requires 0 <= i < |assocs| && Writes(assocs[i], ns, k)
    requires forall j :: i < j < |assocs| ==> !Writes(assocs[j], ns, k)
    ensures k in AssociationIndex(assocs, ns) && AssociationIndex(assocs, ns)[k] == AssociationData(assocs[i])
  {
    if i < |assocs| - 1 {
      var init := assocs[..|assocs| - 1];
      assert !Writes(assocs[|assocs| - 1], ns, k);
      forall j | i < j < |init| ensures !Writes(init[j], ns, k) {
        assert init[j] == assocs[j];
      }
      AssociationIndexLastWriter(init, ns, k, i);
    }
  }

  /** Each stored role maps to an End carrying that role and a non-empty
      multiplicity. */
  lemma {:induction false} RolesWellFormed(ends: seq<Elem>)
    ensures forall r :: r in RolesOf(ends) ==> RolesOf(ends)[r].role == r && RolesOf(ends)[r].multiplicity != ""
  {
    if ends != [] {
      RolesWellFormed(ends[..|ends| - 1]);
    }
  }

  /** The last `End` naming a role decides it; a missing or empty
      `Multiplicity` reads as "1". */
  lemma {:induction false} EndLastWins(ends: seq<Elem>, i: int, role: string)
    requires 0 <= i < |ends| && NonEmptyAttr(ends[i], "Role") == Some(role)
    requires forall j :: i < j < |ends| ==> NonEmptyAttr(ends[j], "Role") != Some(role)
    ensures role in RolesOf(ends)
    ensures RolesOf(ends)[role] == AssociationEnd(role, AttrOr(ends[i], "Type", ""), AttrOr(ends[i], "Multiplicity", "1"))
    ensures GetAttribute(ends[i], "Multiplicity").None? ==> RolesOf(ends)[role].multiplicity == "1"
  {
    if i < |ends| - 1 {
      var init := ends[..|ends| - 1];
      EndLastWins(init, i, role);
    }
  }

  // ===========================================================================
  // Navigation properties

  /** A V4 navigation type: `Collection(X)` targets X with multiplicity `*`
      (`slice(11, -1)`); any other type targets itself with multiplicity "1". */
  function V4Target(t: string): (string, string) {
    if StartsWith(t, "Collection(") then (if |t| >= 12 then t[11..|t| - 1] else "", "*")
    else (t, "1")
  }

  lemma CollectionPrefix(x: string)
    ensures StartsWith("Collection(" + x + ")", "Collection(")
  {
    assert ("Collection(" + x + ")")[..11] == "Collection(";
  }

  /** The V4 type rule unwraps exactly one `Collection(...)`. */
  lemma V4TargetUnwrap(x: string)
    ensures V4Target("Collection(" + x + ")") == (x, "*")
  {
    var t := "Collection(" + x + ")";
    CollectionPrefix(x);
    assert t[11..|t| - 1] == x;
  }

  /** A V4 constraint is kept when both `Property` and `ReferencedProperty` are non-empty. */
  function V4Constraint(rc: Elem): seq<Constraint> {
    match (NonEmptyAttr(rc, "Property"), NonEmptyAttr(rc, "ReferencedProperty"))
    case (Some(p), Some(r)) => [Constraint(p, r)]
    case _ => []
  }

  function V4Constraints(rcs: seq<Elem>): (r: seq<Constraint>)
    ensures |r| <= |rcs|
    ensures forall i :: 0 <= i < |r| ==> r[i].sourceProperty != "" && r[i].targetProperty != ""
  {
    if rcs == [] then [] else V4Constraints(rcs[..|rcs| - 1]) + V4Constraint(rcs[|rcs| - 1])
  }

  /** The association constraint seen from a navigation that goes from
      `fromRole` to `toRole`: principal-to-dependent, its mirror, or nothing. */
  function OrientedConstraint(c: Option<AssociationConstraint>, fromRole: string, toRole: string): seq<Constraint> {
    match c
    case None => []
    case Some(k) =>
      if k.principal.role == fromRole && k.dependent.role == toRole then
        [Constraint(k.principal.propertyRef, k.dependent.propertyRef)]
      else if k.dependent.role == fromRole && k.principal.role == toRole then
        [Constraint(k.dependent.propertyRef, k.principal.propertyRef)]
      else []
  }

  /** Walking the association the other way swaps source and target of the
      emitted constraint. */
  lemma OrientedConstraintMirror(c: Option<AssociationConstraint>, a: string, b: string)
    requires a != b
    ensures |OrientedConstraint(c, a, b)| == |OrientedConstraint(c, b, a)| <= 1
    ensures OrientedConstraint(c, a, b) != [] ==>
      OrientedConstraint(c, b, a)[0] ==
        Constraint(OrientedConstraint(c, a, b)[0].targetProperty, OrientedConstraint(c, a, b)[0].sourceProperty)
  {
  }

  /** A constraint is emitted only when the navigation's roles are exactly the
      principal and dependent roles, in one order or the other. */
  lemma OrientedConstraintRoles(c: Option<AssociationConstraint>, fromRole: string, toRole: string)
    ensures OrientedConstraint(c, fromRole, toRole) != [] <==>
      c.Some? && ({fromRole, toRole} == {c.value.principal.role, c.value.dependent.role})
              && (c.value.principal.role == fromRole || c.value.dependent.role == fromRole)
  {
  }

  /** `associationMap[rel] || associationMap[last dot segment of rel]`. */
  function FindAssociation(amap: map<string, Association>, rel: string): (r: Option<Association>)
    ensures r.Some? <==> rel in amap || AfterLast(rel, '.') in amap
    ensures rel in amap ==> r == Some(amap[rel])
    ensures rel !in amap && r.Some? ==> r == Some(amap[AfterLast(rel, '.')])
  {
    if rel in amap then Some(amap[rel])
    else
      var short := AfterLast(rel, '.');
      if short in amap then Some(amap[short]) else None
  }

  /** The navigation record for one `NavigationProperty`. */
  function ResolveNavigation(nav: Elem, amap: map<string, Association>): NavigationProperty {
    var navName := AttrOr(nav, "Name", "Unknown");
    var relationship := NonEmptyAttr(nav, "Relationship");
    match NonEmptyAttr(nav, "Type")
    case Some(t) =>
      var (target, mult) := V4Target(t);
      NavigationProperty(navName, Some(target), relationship, "", mult,
        V4Constraints(ElementsByTagName(nav, "ReferentialConstraint")))
    case None =>
      var toRole, fromRole := NonEmptyAttr(nav, "ToRole"), NonEmptyAttr(nav, "FromRole");
      if relationship.Some? && toRole.Some? && fromRole.Some? then
        match FindAssociation(amap, relationship.value)
        case None => NavigationProperty(navName, None, relationship, "", "", [])
        case Some(a) =>
          var to, from := toRole.value, fromRole.value;
          NavigationProperty(navName,
            if to in a.roles then Some(a.roles[to].typeName) else None,
            relationship,
            if from in a.roles then a.roles[from].multiplicity else "",
            if to in a.roles then a.roles[to].multiplicity else "",
            OrientedConstraint(a.constraint, from, to))
      else NavigationProperty(navName, None, relationship, "", "", [])
  }

  function NavigationsOf(et: Elem, amap: map<string, Association>): (r: seq<NavigationProperty>)
    ensures |r| == |ElementsByTagName(et, "NavigationProperty")|
  {
    ResolveNavigations(ElementsByTagName(et, "NavigationProperty"), amap)
  }

  /** One resolved navigation per `NavigationProperty` element, in order. */
  function ResolveNavigations(navs: seq<Elem>, amap: map<string, Association>): (r: seq<NavigationProperty>)
    ensures |r| == |navs|
  {
    if navs == [] then [] else ResolveNavigations(navs[..|navs| - 1], amap) + [ResolveNavigation(navs[|navs| - 1], amap)]
  }

  lemma ResolveNavigationsStep(navs: seq<Elem>, amap: map<string, Association>, n: int)
    requires 0 <= n < |navs|
    ensures ResolveNavigations(navs[..n + 1], amap) == ResolveNavigations(navs[..n], amap) + [ResolveNavigation(navs[n], amap)]
  {
    assert navs[..n + 1][..n] == navs[..n];
  }

  /** A navigation with no `Type` that cannot be resolved through an
      association keeps a null target and empty multiplicities. */
  lemma UnresolvedNavigation(nav: Elem, amap: map<string, Association>)
    requires NonEmptyAttr(nav, "Type").None?
    requires var rel := NonEmptyAttr(nav, "Relationship");
      rel.None? || NonEmptyAttr(nav, "ToRole").None? || NonEmptyAttr(nav, "FromRole").None?
      || FindAssociation(amap, rel.value).None?
    ensures var n := ResolveNavigation(nav, amap);
      n.targetType.None? && n.sourceMultiplicity == "" && n.targetMultiplicity == "" && n.constraints == []
  {
  }

  /** A V4 navigation typed `Collection(X)` targets X with multiplicity `*`;
      another non-empty type is its own target with multiplicity "1". */
  lemma V4Navigation(nav: Elem, amap: map<string, Association>, x: string)
    ensures GetAttribute(nav, "Type") == Some("Collection(" + x + ")") ==>
      ResolveNavigation(nav, amap).targetType == Some(x) && ResolveNavigation(nav, amap).targetMultiplicity == "*"
    ensures var t := GetAttribute(nav, "Type");
      t.Some? && t.value != "" && !StartsWith(t.value, "Collection(") ==>
      ResolveNavigation(nav, amap).targetType == t && ResolveNavigation(nav, amap).targetMultiplicity == "1"
  {
    V4TargetUnwrap(x);
  }

  /** Resolving `ns.Name` finds the association last stored under it, and so
      does a Relationship in another namespace that ends in `.Name`, through
      the bare-name key. */
  lemma RelationshipLookup(assocs: seq<Elem>, ns: string, i: int, other: string)
    requires 0 <= i < |assocs|
    requires forall j :: i < j < |assocs| ==> NonEmptyAttr(assocs[j], "Name") != NonEmptyAttr(assocs[i], "Name")
    requires NonEmptyAttr(assocs[i], "Name").Some? && '.' !in NonEmptyAttr(assocs[i], "Name").value
    requires other + "." + NonEmptyAttr(assocs[i], "Name").value !in AssociationIndex(assocs, ns)
    ensures var name := NonEmptyAttr(assocs[i], "Name").value;
      var amap := AssociationIndex(assocs, ns);
      FindAssociation(amap, name) == Some(AssociationData(assocs[i]))
      && FindAssociation(amap, other + "." + name) == Some(AssociationData(assocs[i]))
  {
    var name := NonEmptyAttr(assocs[i], "Name").value;
    assert forall j :: i < j < |assocs| ==> !Writes(assocs[j], ns, name);
    AssociationIndexLastWriter(assocs, ns, name, i);
    var rel := other + "." + name;
    assert AfterLast(rel, '.') == name by {
      AfterLastOfDotted(other, name);
    }
  }

  lemma {:induction false} AfterLastOfDotted(prefix: string, name: string)
    requires '.' !in name
    ensures AfterLast(prefix + "." + name, '.') == name
    decreases |name|
  {
    var s := prefix + "." + name;
    if name == [] {
      assert s[|s| - 1] == '.';
    } else {
      assert s[..|s| - 1] == prefix + "." + name[..|name| - 1];
      assert '.' !in name[..|name| - 1];
      AfterLastOfDotted(prefix, name[..|name| - 1]);
      assert name[..|name| - 1] + [name[|name| - 1]] == name;
    }
  }

  // ===========================================================================
  // Entity sets, complex types, entity types and the whole schema

  /** An `EntitySet` is kept only when both `Name` and `EntityType` are non-empty. */
  function SetOf(s: Elem): seq<EntitySet> {
    match (NonEmptyAttr(s, "Name"), NonEmptyAttr(s, "EntityType"))
    case (Some(n), Some(t)) => [EntitySet(n, t)]
    case _ => []
  }

  function SetsOf(sets: seq<Elem>): (r: seq<EntitySet>)
    ensures |r| <= |sets|
    ensures forall i :: 0 <= i < |r| ==> r[i].name != "" && r[i].entityType != ""
  {
    if sets == [] then [] else SetsOf(sets[..|sets| - 1]) + SetOf(sets[|sets| - 1])
  }

  /** The entity sets of all containers, container by container. */
  function ContainerSets(cs: seq<Elem>): (r: seq<EntitySet>)
    ensures forall i :: 0 <= i < |r| ==> r[i].name != "" && r[i].entityType != ""
  {
    if cs == [] then [] else ContainerSets(cs[..|cs| - 1]) + SetsOf(ElementsByTagName(cs[|cs| - 1], "EntitySet"))
  }

  lemma SetsOfStep(sets: seq<Elem>, j: int)
    requires 0 <= j < |sets|
    ensures SetsOf(sets[..j + 1]) == SetsOf(sets[..j]) + SetOf(sets[j])
  {
    assert sets[..j + 1][..j] == sets[..j];
  }

  lemma ContainerSetsStep(cs: seq<Elem>, i: int)
    requires 0 <= i < |cs|
    ensures ContainerSets(cs[..i + 1]) == ContainerSets(cs[..i]) + SetsOf(ElementsByTagName(cs[i], "EntitySet"))
  {
    assert cs[..i + 1][..i] == cs[..i];
  }

  /** A complex type is recorded like an entity type without keys or navigations. */
  function ParseComplexType(ct: Elem): EntityType {
    EntityType(AttrOr(ct, "Name", "Unknown"), [], PropertiesOf(ct), [])
  }

  function KeyNames(refs: seq<Elem>): (r: seq<string>)
    ensures |r| == |refs|
    ensures forall i :: 0 <= i < |refs| ==> r[i] == AttrOr(refs[i], "Name", "")
  {
    seq(|refs|, i requires 0 <= i < |refs| => AttrOr(refs[i], "Name", ""))
  }

  /** The `PropertyRef` names of the first `Key`, in order. */
  function KeysOf(et: Elem): seq<string> {
    match FirstByTagName(et, "Key")
    case None => []
    case Some(k) => KeyNames(ElementsByTagName(k, "PropertyRef"))
  }

  function ParseEntityType(et: Elem, amap: map<string, Association>): EntityType {
    EntityType(AttrOr(et, "Name", "Unknown"), KeysOf(et), PropertiesOf(et), NavigationsOf(et, amap))
  }

  function EntityTypesOf(ets: seq<Elem>, amap: map<string, Association>): (r: seq<EntityType>)
    ensures |r| == |ets|
  {
    if ets == [] then [] else EntityTypesOf(ets[..|ets| - 1], amap) + [ParseEntityType(ets[|ets| - 1], amap)]
  }

  function ComplexTypesOf(cts: seq<Elem>): (r: seq<EntityType>)
    ensures |r| == |cts|
  {
    if cts == [] then [] else ComplexTypesOf(cts[..|cts| - 1]) + [ParseComplexType(cts[|cts| - 1])]
  }

  lemma EntityTypesStep(ets: seq<Elem>, amap: map<string, Association>, i: int)
    requires 0 <= i < |ets|
    ensures EntityTypesOf(ets[..i + 1], amap) == EntityTypesOf(ets[..i], amap) + [ParseEntityType(ets[i], amap)]
  {
    assert ets[..i + 1][..i] == ets[..i];
  }

  lemma ComplexTypesStep(cts: seq<Elem>, i: int)
    requires 0 <= i < |cts|
    ensures ComplexTypesOf(cts[..i + 1]) == ComplexTypesOf(cts[..i]) + [ParseComplexType(cts[i])]
  {
    assert cts[..i + 1][..i] == cts[..i];
  }

  /** The schema read from a metadata document: the first `Schema` element
      supplies the namespace, the associations, the complex types and the
      entity types; entity sets come from every `EntityContainer` of the
      document. With no `Schema` the result is empty. */
  function ParseMetadata(doc: Elem): ParsedSchema {
    var schemas := DocumentElementsByTagName(doc, "Schema");
    if schemas == [] then ParsedSchema([], [], [], "")
    else
      var schema := schemas[0];
      var ns := AttrOr(schema, "Namespace", "");
      var amap := AssociationIndex(ElementsByTagName(schema, "Association"), ns);
      var cts := ElementsByTagName(schema, "ComplexType");
      var ets := ElementsByTagName(schema, "EntityType");
      ParsedSchema(
        EntityTypesOf(ets, amap),
        ComplexTypesOf(cts),
        ContainerSets(DocumentElementsByTagName(doc, "EntityContainer")),
        ns)
  }

  /** The association pass: fills the index under both keys of each named association. */
  method IndexAssociations(schema: Elem, ns: string) returns (associationMap: map<string, Association>)
    ensures associationMap == AssociationIndex(ElementsByTagName(schema, "Association"), ns)
  {
    associationMap := map[];
    var assocTypes := ElementsByTagName(schema, "Association");
    for i := 0 to |assocTypes|
      invariant associationMap == AssociationIndex(assocTypes[..i], ns)
    {
      var at := assocTypes[i];
      assert assocTypes[..i + 1][..i] == assocTypes[..i];
      var name := GetAttribute(at, "Name");
      if name.None? || name.value == "" {
        continue;
      }
      var fullName := if ns != "" then ns + "." + name.value else name.value;
      var roles := CollectRoles(ElementsByTagName(at, "End"));
      var assocData := Association(roles, ConstraintOf(at));
      associationMap := associationMap[fullName := assocData];
      associationMap := associationMap[name.value := assocData];
    }
    assert assocTypes[..|assocTypes|] == assocTypes;
  }

  /** The inner loop over an association's `End` elements. */
  method CollectRoles(ends: seq<Elem>) returns (roles: map<string, AssociationEnd>)
    ensures roles == RolesOf(ends)
  {
    roles := map[];
    for j := 0 to |ends|
      invariant roles == RolesOf(ends[..j])
    {
      assert ends[..j + 1][..j] == ends[..j];
      var role := GetAttribute(ends[j], "Role");
      var typeName := AttrOr(ends[j], "Type", "");
      var multiplicity := AttrOr(ends[j], "Multiplicity", "1");
      if role.Some? && role.value != "" {
        roles := roles[role.value := AssociationEnd(role.value, typeName, multiplicity)];
      }
    }
    assert ends[..|ends|] == ends;
  }

  /** The entity-set pass over every `EntityContainer` of the document. */
  method CollectEntitySets(doc: Elem) returns (entitySets: seq<EntitySet>)
    ensures entitySets == ContainerSets(DocumentElementsByTagName(doc, "EntityContainer"))
  {
    entitySets := [];
    var entityContainers := DocumentElementsByTagName(doc, "EntityContainer");
    for i := 0 to |entityContainers|
      invariant entitySets == ContainerSets(entityContainers[..i])
    {
      var pushed := PushEntitySets(ElementsByTagName(entityContainers[i], "EntitySet"));
      entitySets := entitySets + pushed;
      ContainerSetsStep(entityContainers, i);
    }
    assert entityContainers[..|entityContainers|] == entityContainers;
  }

  /** The inner loop over one container's `EntitySet` elements: the sets it contributes. */
  method PushEntitySets(sets: seq<Elem>) returns (pushed: seq<EntitySet>)
    ensures pushed == SetsOf(sets)
  {
    pushed := [];
    for j := 0 to |sets|
      invariant pushed == SetsOf(sets[..j])
    {
      SetsOfStep(sets, j);
      var name := GetAttribute(sets[j], "Name");
      var typeName := GetAttribute(sets[j], "EntityType");
      if name.Some? && name.value != "" && typeName.Some? && typeName.value != "" {
        assert SetOf(sets[j]) == [EntitySet(name.value, typeName.value)];
        pushed := pushed + [EntitySet(name.value, typeName.value)];
      } else {
        assert SetOf(sets[j]) == [];
      }
    }
    assert sets[..|sets|] == sets;
  }

  /** The V2/V3 branch once the association is found: the ends named by the
      roles and the constraint oriented from `fromRole` to `toRole`. */
  method ReadAssociation(assoc: Association, fromRole: string, toRole: string)
    returns (targetType: Option<string>, sourceMult: string, targetMult: string, constraints: seq<Constraint>)
    ensures targetType == (if toRole in assoc.roles then Some(assoc.roles[toRole].typeName) else None)
    ensures sourceMult == (if fromRole in assoc.roles then assoc.roles[fromRole].multiplicity else "")
    ensures targetMult == (if toRole in assoc.roles then assoc.roles[toRole].multiplicity else "")
    ensures constraints == OrientedConstraint(assoc.constraint, fromRole, toRole)
  {
    targetType, sourceMult, targetMult, constraints := None, "", "", [];
    var roles := assoc.roles;
    if toRole in roles {
      targetType := Some(roles[toRole].typeName);
      targetMult := roles[toRole].multiplicity;
    }
    if fromRole in roles {
      sourceMult := roles[fromRole].multiplicity;
    }
    if assoc.constraint.Some? {
      var c := assoc.constraint.value;
      if c.principal.role == fromRole && c.dependent.role == toRole {
        constraints := constraints + [Constraint(c.principal.propertyRef, c.dependent.propertyRef)];
      } else if c.dependent.role == fromRole && c.principal.role == toRole {
        constraints := constraints + [Constraint(c.dependent.propertyRef, c.principal.propertyRef)];
      }
    }
  }

  /** One navigation property: V4 inline type first, else the V2/V3
      association lookup. */
  method ResolveNavigationProperty(nav: Elem, associationMap: map<string, Association>) returns (np: NavigationProperty)
    ensures np == ResolveNavigation(nav, associationMap)
  {
    var navName := AttrOr(nav, "Name", "Unknown");
    var v4Type := GetAttribute(nav, "Type");
    var relationship := GetAttribute(nav, "Relationship");
    var toRole := GetAttribute(nav, "ToRole");
    var fromRole := GetAttribute(nav, "FromRole");
    var targetType: Option<string> := None;
    var sourceMult := "";
    var targetMult := "";
    var constraints: seq<Constraint> := [];
    if v4Type.Some? && v4Type.value != "" {
      var t := v4Type.value;
      if StartsWith(t, "Collection(") {
        targetType := Some(if |t| >= 12 then t[11..|t| - 1] else "");
        targetMult := "*";
      } else {
        targetType := Some(t);
        targetMult := "1";
      }
      assert (targetType.value, targetMult) == V4Target(t);
      constraints := CollectV4Constraints(ElementsByTagName(nav, "ReferentialConstraint"));
    } else if relationship.Some? && relationship.value != "" && toRole.Some? && toRole.value != ""
           && fromRole.Some? && fromRole.value != "" {
      assert NonEmptyAttr(nav, "Type").None?;
      assert NonEmptyAttr(nav, "ToRole") == toRole && NonEmptyAttr(nav, "FromRole") == fromRole;
      var assocData := FindAssociation(associationMap, relationship.value);
      if assocData.Some? {
        targetType, sourceMult, targetMult, constraints := ReadAssociation(assocData.value, fromRole.value, toRole.value);
      }
    } else {
      assert NonEmptyAttr(nav, "Type").None?;
    }
    var relationshipOut := if relationship.Some? && relationship.value != "" then relationship else None;
    np := NavigationProperty(navName, targetType, relationshipOut, sourceMult, targetMult, constraints);
  }

  /** The loop over a V4 navigation's `ReferentialConstraint` children. */
  method CollectV4Constraints(v4Ref: seq<Elem>) returns (constraints: seq<Constraint>)
    ensures constraints == V4Constraints(v4Ref)
  {
    constraints := [];
    for r := 0 to |v4Ref|
      invariant constraints == V4Constraints(v4Ref[..r])
    {
      assert v4Ref[..r + 1][..r] == v4Ref[..r];
      var prop := GetAttribute(v4Ref[r], "Property");
      var refProp := GetAttribute(v4Ref[r], "ReferencedProperty");
      if prop.Some? && prop.value != "" && refProp.Some? && refProp.value != "" {
        assert V4Constraint(v4Ref[r]) == [Constraint(prop.value, refProp.value)];
        constraints := constraints + [Constraint(prop.value, refProp.value)];
      } else {
        assert V4Constraint(v4Ref[r]) == [];
      }
    }
    assert v4Ref[..|v4Ref|] == v4Ref;
  }

  /** The loop over an entity type's `NavigationProperty` descendants. */
  method ParseNavigationProperties(et: Elem, associationMap: map<string, Association>) returns (navProps: seq<NavigationProperty>)
    ensures navProps == NavigationsOf(et, associationMap)
  {
    navProps := [];
    var navs := ElementsByTagName(et, "NavigationProperty");
    for n := 0 to |navs|
      invariant navProps == ResolveNavigations(navs[..n], associationMap)
    {
      ResolveNavigationsStep(navs, associationMap, n);
      var np := ResolveNavigationProperty(navs[n], associationMap);
      navProps := navProps + [np];
    }
    assert navs[..|navs|] == navs;
  }

  /** The entity-type pass: name, keys of the first `Key`, properties, navigations. */
  method ParseEntityTypes(schema: Elem, associationMap: map<string, Association>) returns (entities: seq<EntityType>)
    ensures entities == EntityTypesOf(ElementsByTagName(schema, "EntityType"), associationMap)
  {
    entities := [];
    var entityTypes := ElementsByTagName(schema, "EntityType");
    for i := 0 to |entityTypes|
      invariant entities == EntityTypesOf(entityTypes[..i], associationMap)
    {
      EntityTypesStep(entityTypes, associationMap, i);
      var entity := ParseEntityTypeNode(entityTypes[i], associationMap);
      entities := entities + [entity];
    }
    assert entityTypes[..|entityTypes|] == entityTypes;
  }

  /** The complex-type loop: each is recorded like an entity type without keys or navigations. */
  method ParseComplexTypes(schema: Elem) returns (complexTypes: seq<EntityType>)
    ensures complexTypes == ComplexTypesOf(ElementsByTagName(schema, "ComplexType"))
  {
    complexTypes := [];
    var complexTypeNodes := ElementsByTagName(schema, "ComplexType");
    for i := 0 to |complexTypeNodes|
      invariant complexTypes == ComplexTypesOf(complexTypeNodes[..i])
    {
      ComplexTypesStep(complexTypeNodes, i);
      var ct := complexTypeNodes[i];
      var name := AttrOr(ct, "Name", "Unknown");
      var properties := ParseProperties(ct);
      complexTypes := complexTypes + [EntityType(name, [], properties, [])];
    }
    assert complexTypeNodes[..|complexTypeNodes|] == complexTypeNodes;
  }

  /** One entity type: its name, the key loop, its properties and navigations. */
  method ParseEntityTypeNode(et: Elem, associationMap: map<string, Association>) returns (entity: EntityType)
    ensures entity == ParseEntityType(et, associationMap)
  {
    var name := AttrOr(et, "Name", "Unknown");
    var keys := ParseKeys(et);
    var properties := ParseProperties(et);
    var navProps := ParseNavigationProperties(et, associationMap);
    entity := EntityType(name, keys, properties, navProps);
  }

  /** The key loop: the names of the first `Key`'s property references. */
  method ParseKeys(et: Elem) returns (keys: seq<string>)
    ensures keys == KeysOf(et)
  {
    keys := [];
    var keyNode := FirstByTagName(et, "Key");
    if keyNode.Some? {
      var propRefs := ElementsByTagName(keyNode.value, "PropertyRef");
      for k := 0 to |propRefs|
        invariant |keys| == k
        invariant forall m :: 0 <= m < k ==> keys[m] == AttrOr(propRefs[m], "Name", "")
      {
        keys := keys + [AttrOr(propRefs[k], "Name", "")];
      }
    }
  }

  /** Parses a metadata document into its schema records. */
  method ParseMetadataToSchema(doc: Elem) returns (result: ParsedSchema)
    ensures result == ParseMetadata(doc)
    ensures DocumentElementsByTagName(doc, "Schema") == [] ==> result == ParsedSchema([], [], [], "")
  {
    var schemas := DocumentElementsByTagName(doc, "Schema");
    if |schemas| == 0 {
      return ParsedSchema([], [], [], "");
    }
    var schema := schemas[0];
    var namespace := AttrOr(schema, "Namespace", "");
    var associationMap := IndexAssociations(schema, namespace);
    var entitySets := CollectEntitySets(doc);
    var complexTypes := ParseComplexTypes(schema);
    var entities := ParseEntityTypes(schema, associationMap);
    result := ParsedSchema(entities, complexTypes, entitySets, namespace);
  }
}
