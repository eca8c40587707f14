/** The second metadata parser (`utils/odata/parser.ts`), kept apart from the
    dashboard's parser because it behaves differently: it fails on a document
    without a `Schema`, reads the version from the `Edmx` element, trims
    property types, keeps V4 `Collection(...)` types verbatim, gives V2
    navigations a placeholder target, pairs nav-level `Principal`/`Dependent`
    property references, and reads entity sets only inside the first `Schema`. */
module ODataParser {
  import opened Wrappers
  import opened Text
  import opened Json
  import opened Xml
  import opened Records
  import H = ODataHelper

  datatype Constraint = Constraint(sourceProperty: string, targetProperty: string)

  datatype NavigationProperty = NavigationProperty(
    name: string,
    targetType: string,
    constraints: Option<seq<Constraint>>)

  datatype EntityType = EntityType(
    name: string,
    keys: seq<string>,
    properties: seq<H.EntityProperty>,
    navigationProperties: seq<NavigationProperty>,
    namespace: string)

  datatype ComplexType = ComplexType(name: string, properties: seq<H.EntityProperty>)

  datatype ParsedSchema = ParsedSchema(
    version: H.ODataVersion,
    namespace: string,
    entities: seq<EntityType>,
    complexTypes: seq<ComplexType>,
    entitySets: seq<H.EntitySet>)

  // ===========================================================================
  // Version

  /** The first `edmx:Edmx` element of the document, else the first `Edmx`. */
  function EdmxNode(doc: Elem): Option<Elem> {
    var prefixed := DocumentElementsByTagName(doc, "edmx:Edmx");
    var bare := DocumentElementsByTagName(doc, "Edmx");
    if prefixed != [] then Some(prefixed[0])
    else if bare != [] then Some(bare[0])
    else None
  }

  /** The `Version` of the Edmx element: "4.0" is V4, "1.0" is V2, anything
      else (including no Edmx element) is Unknown. */
  function DocumentVersion(doc: Elem): (v: H.ODataVersion)
    ensures v != H.V3
    ensures v == H.V4 <==> EdmxNode(doc).Some? && GetAttribute(EdmxNode(doc).value, "Version") == Some("4.0")
    ensures v == H.V2 <==> EdmxNode(doc).Some? && GetAttribute(EdmxNode(doc).value, "Version") == Some("1.0")
  {
    match EdmxNode(doc)
    case None => H.Unknown
    case Some(e) =>
      var v := GetAttribute(e, "Version");
      if v == Some("4.0") then H.V4
      else if v == Some("1.0") then H.V2
      else H.Unknown
  }

  // ===========================================================================
  // Properties

  /** One `Property`: as in the dashboard's parser, except that the type is trimmed. */
  function ParseProperty(p: Elem): H.EntityProperty {
    PropertyWith(p, H.CustomRecord(p.attrs))
  }

  /** A property given its already collected custom attributes. */
  function PropertyWith(p: Elem, custom: Record<string>): H.EntityProperty {
    H.EntityProperty(
      AttrOr(p, "Name", ""),
      Trim(AttrOr(p, "Type", "")),
      GetAttribute(p, "Nullable") != Some("false"),
      H.NumericFacet(p, "MaxLength"),
      GetAttribute(p, "FixedLength") == Some("true"),
      H.NumericFacet(p, "Precision"),
      H.NumericFacet(p, "Scale"),
      GetAttribute(p, "Unicode") != Some("false"),
      NonEmptyAttr(p, "DefaultValue"),
      NonEmptyAttr(p, "ConcurrencyMode"),
      if |custom| > 0 then Some(custom) else None)
  }

  /** The two parsers read a property identically up to white space around its type. */
  lemma PropertyMatchesPrimary(p: Elem)
    ensures ParseProperty(p) == H.ParseProperty(p).(typeName := Trim(H.ParseProperty(p).typeName))
  {
  }

  /** One parsed property per `Property` element, in document order. */
  function ParsePropertyList(ps: seq<Elem>): (r: seq<H.EntityProperty>)
    ensures |r| == |ps|
  {
    if ps == [] then [] else ParsePropertyList(ps[..|ps| - 1]) + [ParseProperty(ps[|ps| - 1])]
  }

  /** The properties of an entity or complex type, one per `Property` below it. */
  function PropertiesOf(e: Elem): seq<H.EntityProperty> {
    ParsePropertyList(ElementsByTagName(e, "Property"))
  }

  /** One property, with the custom-attribute loop. */
  method ParsePropertyNode(propNode: Elem) returns (prop: H.EntityProperty)
    ensures prop == ParseProperty(propNode)
  {
    var customAttributes := H.CollectCustomAttributes(propNode.attrs);
    prop := PropertyWith(propNode, customAttributes);
  }

  method ParseProperties(element: Elem) returns (properties: seq<H.EntityProperty>)
    ensures properties == PropertiesOf(element)
  {
    properties := [];
    var props := ElementsByTagName(element, "Property");
    for i := 0 to |props|
      invariant properties == ParsePropertyList(props[..i])
    {
      ParsePropertyListStep(props, i);
      var prop := ParsePropertyNode(props[i]);
      properties := properties + [prop];
    }
    assert props[..|props|] == props;
  }

  lemma ParsePropertyListStep(ps: seq<Elem>, i: int)
    requires 0 <= i < |ps|
    ensures ParsePropertyList(ps[..i + 1]) == ParsePropertyList(ps[..i]) + [ParseProperty(ps[i])]
  {
    assert ps[..i + 1][..i] == ps[..i];
  }

  // ===========================================================================
  // Navigation properties

  /** A template literal `${x}` of a `getAttribute` result: null prints "null". */
  function TemplateText(o: Option<string>): string {
    match o
    case Some(s) => s
    case None => "null"
  }

  /** The nav `Type` verbatim; with no type and a Relationship, the placeholder
      `[Association: rel -> toRole]`. */
  function NavTarget(nav: Elem): string {
    var t := AttrOr(nav, "Type", "");
    if t == "" && NonEmptyAttr(nav, "Relationship").Some? then
      "[Association: " + NonEmptyAttr(nav, "Relationship").value + " -> " + TemplateText(GetAttribute(nav, "ToRole")) + "]"
    else t
  }

  function Min(a: int, b: int): int {
    if a <= b then a else b
  }

  /** The k-th dependent reference paired with the k-th principal reference,
      for as many pairs as both lists have. */
  function PairConstraints(pRefs: seq<Elem>, dRefs: seq<Elem>): (r: seq<Constraint>)
    ensures |r| == Min(|pRefs|, |dRefs|)
    ensures forall k :: 0 <= k < |r| ==>
              r[k].sourceProperty == AttrOr(dRefs[k], "Name", "") && r[k].targetProperty == AttrOr(pRefs[k], "Name", "")
  {
    seq(Min(|pRefs|, |dRefs|), k requires 0 <= k < Min(|pRefs|, |dRefs|) =>
      Constraint(AttrOr(dRefs[k], "Name", ""), AttrOr(pRefs[k], "Name", "")))
  }

  /** The pairs of the first `ReferentialConstraint` below the navigation. */
  function NavConstraints(nav: Elem): seq<Constraint> {
    match FirstByTagName(nav, "ReferentialConstraint")
    case None => []
    case Some(rc) =>
      match (FirstByTagName(rc, "Principal"), FirstByTagName(rc, "Dependent"))
      case (Some(p), Some(d)) => PairConstraints(ElementsByTagName(p, "PropertyRef"), ElementsByTagName(d, "PropertyRef"))
      case _ => []
  }

  function ParseNavigation(nav: Elem): (n: NavigationProperty)
    ensures n.constraints.Some? ==> |n.constraints.value| > 0
  {
    var cs := NavConstraints(nav);
    NavigationProperty(AttrOr(nav, "Name", ""), NavTarget(nav), if |cs| > 0 then Some(cs) else None)
  }

  /** A non-empty nav type is kept verbatim, `Collection(...)` included,
      where the dashboard's parser unwraps it. */
  lemma CollectionKeptVerbatim(nav: Elem, amap: map<string, H.Association>, x: string)
    requires GetAttribute(nav, "Type") == Some("Collection(" + x + ")")
    ensures ParseNavigation(nav).targetType == "Collection(" + x + ")"
    ensures H.ResolveNavigation(nav, amap).targetType == Some(x)
  {
    H.V4Navigation(nav, amap, x);
  }

  // ===========================================================================
  // Entity sets and the whole schema

  /** One entity set per `EntitySet` element, missing names and types read as "". */
  function SetsOf(sets: seq<Elem>): (r: seq<H.EntitySet>)
    ensures |r| == |sets|
  {
    if sets == [] then []
    else SetsOf(sets[..|sets| - 1]) + [SetOf(sets[|sets| - 1])]
  }

  function SetOf(set_: Elem): H.EntitySet {
    H.EntitySet(AttrOr(set_, "Name", ""), AttrOr(set_, "EntityType", ""))
  }

  lemma SetsOfStep(sets: seq<Elem>, j: int)
    requires 0 <= j < |sets|
    ensures SetsOf(sets[..j + 1]) == SetsOf(sets[..j]) + [SetOf(sets[j])]
  {
    assert sets[..j + 1][..j] == sets[..j];
  }

  /** Every `EntitySet` of the given containers, container by container. */
  function ContainerSets(cs: seq<Elem>): (r: seq<H.EntitySet>)
    ensures |r| == SetCount(cs)
  {
    if cs == [] then [] else ContainerSets(cs[..|cs| - 1]) + SetsOf(ElementsByTagName(cs[|cs| - 1], "EntitySet"))
  }

  function SetCount(cs: seq<Elem>): nat {
    if cs == [] then 0 else SetCount(cs[..|cs| - 1]) + |ElementsByTagName(cs[|cs| - 1], "EntitySet")|
  }

  function NavigationsOf(navs: seq<Elem>): (r: seq<NavigationProperty>)
    ensures |r| == |navs|
  {
    if navs == [] then [] else NavigationsOf(navs[..|navs| - 1]) + [ParseNavigation(navs[|navs| - 1])]
  }

  lemma NavigationsStep(navs: seq<Elem>, j: int)
    requires 0 <= j < |navs|
    ensures NavigationsOf(navs[..j + 1]) == NavigationsOf(navs[..j]) + [ParseNavigation(navs[j])]
  {
    assert navs[..j + 1][..j] == navs[..j];
  }

  function ParseEntityType(et: Elem, ns: string): EntityType {
    EntityType(AttrOr(et, "Name", ""), H.KeysOf(et), PropertiesOf(et),
      NavigationsOf(ElementsByTagName(et, "NavigationProperty")), ns)
  }

  function ParseComplexType(ct: Elem): ComplexType {
    ComplexType(AttrOr(ct, "Name", ""), PropertiesOf(ct))
  }

  function EntitiesOf(ets: seq<Elem>, ns: string): (r: seq<EntityType>)
    ensures |r| == |ets|
  {
    if ets == [] then [] else EntitiesOf(ets[..|ets| - 1], ns) + [ParseEntityType(ets[|ets| - 1], ns)]
  }

  function ComplexTypesOf(cts: seq<Elem>): (r: seq<ComplexType>)
    ensures |r| == |cts|
  {
    if cts == [] then [] else ComplexTypesOf(cts[..|cts| - 1]) + [ParseComplexType(cts[|cts| - 1])]
  }

  lemma EntitiesStep(ets: seq<Elem>, ns: string, i: int)
    requires 0 <= i < |ets|
    ensures EntitiesOf(ets[..i + 1], ns) == EntitiesOf(ets[..i], ns) + [ParseEntityType(ets[i], ns)]
  {
    assert ets[..i + 1][..i] == ets[..i];
  }

  lemma ComplexTypesStep(cts: seq<Elem>, i: int)
    requires 0 <= i < |cts|
    ensures ComplexTypesOf(cts[..i + 1]) == ComplexTypesOf(cts[..i]) + [ParseComplexType(cts[i])]
  {
    assert cts[..i + 1][..i] == cts[..i];
  }

  /** The schema of a metadata document, or the error for a document without
      a `Schema`. Entity sets come only from containers inside the first `Schema`. */
  function ParseMetadata(doc: Elem): Result<ParsedSchema, string> {
    var schemas := DocumentElementsByTagName(doc, "Schema");
    if schemas == [] then Err("No Schema definition found")
    else
      var schema := schemas[0];
      var ns := AttrOr(schema, "Namespace", "");
      var ets := ElementsByTagName(schema, "EntityType");
      var cts := ElementsByTagName(schema, "ComplexType");
      Ok(ParsedSchema(
        DocumentVersion(doc),
        ns,
        EntitiesOf(ets, ns),
        ComplexTypesOf(cts),
        ContainerSets(ElementsByTagName(schema, "EntityContainer"))))
  }

  /** The constraint-pairing loop. */
  method PairRefs(pRefs: seq<Elem>, dRefs: seq<Elem>) returns (constraints: seq<Constraint>)
    ensures constraints == PairConstraints(pRefs, dRefs)
  {
    constraints := [];
    for k := 0 to Min(|pRefs|, |dRefs|)
      invariant |constraints| == k
      invariant forall m :: 0 <= m < k ==>
        constraints[m] == Constraint(AttrOr(dRefs[m], "Name", ""), AttrOr(pRefs[m], "Name", ""))
    {
      constraints := constraints + [Constraint(AttrOr(dRefs[k], "Name", ""), AttrOr(pRefs[k], "Name", ""))];
    }
  }

  /** One navigation property. */
  method ParseNavigationNode(navNode: Elem) returns (nav: NavigationProperty)
    ensures nav == ParseNavigation(navNode)
  {
    var navName := AttrOr(navNode, "Name", "");
    var targetType := AttrOr(navNode, "Type", "");
    if targetType == "" && NonEmptyAttr(navNode, "Relationship").Some? {
      var relationship := GetAttribute(navNode, "Relationship");
      var toRole := GetAttribute(navNode, "ToRole");
      targetType := "[Association: " + TemplateText(relationship) + " -> " + TemplateText(toRole) + "]";
    }
    var constraints: seq<Constraint> := [];
    var constraintNode := FirstByTagName(navNode, "ReferentialConstraint");
    if constraintNode.Some? {
      var principal := FirstByTagName(constraintNode.value, "Principal");
      var dependent := FirstByTagName(constraintNode.value, "Dependent");
      if principal.Some? && dependent.Some? {
        constraints := PairRefs(ElementsByTagName(principal.value, "PropertyRef"),
          ElementsByTagName(dependent.value, "PropertyRef"));
      }
    }
    assert constraints == NavConstraints(navNode);
    nav := NavigationProperty(navName, targetType, if |constraints| > 0 then Some(constraints) else None);
  }

  /** The key loop: the names of the first `Key`'s property references. */
  method ParseKeys(node: Elem) returns (keys: seq<string>)
    ensures keys == H.KeysOf(node)
  {
    keys := [];
    var keyNode := FirstByTagName(node, "Key");
    if keyNode.Some? {
      var propertyRefs := ElementsByTagName(keyNode.value, "PropertyRef");
      for j := 0 to |propertyRefs|
        invariant |keys| == j
        invariant forall m :: 0 <= m < j ==> keys[m] == AttrOr(propertyRefs[m], "Name", "")
      {
        keys := keys + [AttrOr(propertyRefs[j], "Name", "")];
      }
    }
  }

  method ParseEntityTypeNode(node: Elem, namespace: string) returns (entity: EntityType)
    ensures entity == ParseEntityType(node, namespace)
  {
    var name := AttrOr(node, "Name", "");
    var keys := ParseKeys(node);
    var properties := ParseProperties(node);
    var navProps: seq<NavigationProperty> := [];
    var navNodes := ElementsByTagName(node, "NavigationProperty");
    for j := 0 to |navNodes|
      invariant navProps == NavigationsOf(navNodes[..j])
    {
      NavigationsStep(navNodes, j);
      var nav := ParseNavigationNode(navNodes[j]);
      navProps := navProps + [nav];
    }
    assert navNodes[..|navNodes|] == navNodes;
    entity := EntityType(name, keys, properties, navProps, namespace);
  }

  /** The i-th entity is the parse of the i-th `EntityType` element. */
  lemma {:induction false} EntityAt(ets: seq<Elem>, ns: string, i: int)
    requires 0 <= i < |ets|
    ensures EntitiesOf(ets, ns)[i] == ParseEntityType(ets[i], ns)
  {
    if i < |ets| - 1 {
      EntityAt(ets[..|ets| - 1], ns, i);
    }
  }

  /** A parsed schema has one entity per `EntityType` of the first `Schema`,
      each tagged with the schema's namespace, and one entity set per
      `EntitySet` of its containers. */
  lemma ParsedSchemaShape(doc: Elem)
    requires ParseMetadata(doc).Ok?
    ensures var schema := DocumentElementsByTagName(doc, "Schema")[0];
      var r := ParseMetadata(doc).value;
      |r.entities| == |ElementsByTagName(schema, "EntityType")|
      && (forall i :: 0 <= i < |r.entities| ==> r.entities[i].namespace == r.namespace)
      && |r.entitySets| == SetCount(ElementsByTagName(schema, "EntityContainer"))
  {
    var schema := DocumentElementsByTagName(doc, "Schema")[0];
    var r := ParseMetadata(doc).value;
    var ets := ElementsByTagName(schema, "EntityType");
    forall i | 0 <= i < |r.entities| ensures r.entities[i].namespace == r.namespace {
      EntityAt(ets, r.namespace, i);
    }
  }

  // ===========================================================================
  // Agreement with the dashboard's parser

  /** A property as this parser reads it, given the dashboard parser's reading. */
  function TrimmedType(p: H.EntityProperty): H.EntityProperty {
    p.(typeName := Trim(p.typeName))
  }

  function TrimmedTypes(ps: seq<H.EntityProperty>): seq<H.EntityProperty> {
    if ps == [] then [] else TrimmedTypes(ps[..|ps| - 1]) + [TrimmedType(ps[|ps| - 1])]
  }

  /** Property by property, the two parsers differ only in the trimming of the type. */
  lemma {:induction false} PropertyListsAgree(ps: seq<Elem>)
    ensures ParsePropertyList(ps) == TrimmedTypes(H.ParsePropertyList(ps))
  {
    if ps != [] {
      var init, last := ps[..|ps| - 1], ps[|ps| - 1];
      PropertyListsAgree(init);
      PropertyMatchesPrimary(last);
      var hs := H.ParsePropertyList(ps);
      assert hs == H.ParsePropertyList(init) + [H.ParseProperty(last)];
      assert hs[..|hs| - 1] == H.ParsePropertyList(init);
    }
  }

  lemma {:induction false} PrimaryEntityAt(ets: seq<Elem>, amap: map<string, H.Association>, i: int)
    requires 0 <= i < |ets|
    ensures H.EntityTypesOf(ets, amap)[i] == H.ParseEntityType(ets[i], amap)
  {
    if i < |ets| - 1 {
      PrimaryEntityAt(ets[..|ets| - 1], amap, i);
    }
  }

  lemma {:induction false} ComplexAt(cts: seq<Elem>, i: int)
    requires 0 <= i < |cts|
    ensures ComplexTypesOf(cts)[i] == ParseComplexType(cts[i])
    ensures H.ComplexTypesOf(cts)[i] == H.ParseComplexType(cts[i])
  {
    if i < |cts| - 1 {
      ComplexAt(cts[..|cts| - 1], i);
    }
  }

  /** What the two metadata parsers share. A document without a `Schema` is
      an error here and the empty schema there. Otherwise both read the same
      namespace, and the same entity and complex types in the same order.
      Each type has the same keys and the same number of navigations. Its
      properties agree up to the trimming of their types. Its name is the
      same unless the `Name` attribute is missing or empty: this parser then
      gives "" and the other "Unknown". Navigation targets and entity sets
      are where the two differ. */
  lemma ParsersAgreeOnTypes(doc: Elem)
    ensures ParseMetadata(doc).Err? ==> H.ParseMetadata(doc) == H.ParsedSchema([], [], [], "")
    ensures ParseMetadata(doc).Ok? ==>
      var r, h := ParseMetadata(doc).value, H.ParseMetadata(doc);
      r.namespace == h.namespace
      && |r.entities| == |h.entities|
      && (forall i :: 0 <= i < |r.entities| ==>
            (r.entities[i].name == h.entities[i].name || (r.entities[i].name == "" && h.entities[i].name == "Unknown"))
            && r.entities[i].keys == h.entities[i].keys
            && r.entities[i].properties == TrimmedTypes(h.entities[i].properties)
            && |r.entities[i].navigationProperties| == |h.entities[i].navigationProperties|)
      && |r.complexTypes| == |h.complexTypes|
      && (forall i :: 0 <= i < |r.complexTypes| ==>
            (r.complexTypes[i].name == h.complexTypes[i].name || (r.complexTypes[i].name == "" && h.complexTypes[i].name == "Unknown"))
            && r.complexTypes[i].properties == TrimmedTypes(h.complexTypes[i].properties))
  {
    var schemas := DocumentElementsByTagName(doc, "Schema");
    if schemas != [] {
      var schema := schemas[0];
      var ns := AttrOr(schema, "Namespace", "");
      var amap := H.AssociationIndex(ElementsByTagName(schema, "Association"), ns);
      var ets := ElementsByTagName(schema, "EntityType");
      var cts := ElementsByTagName(schema, "ComplexType");
      var r, h := ParseMetadata(doc).value, H.ParseMetadata(doc);
      forall i | 0 <= i < |r.entities|
        ensures (r.entities[i].name == h.entities[i].name || (r.entities[i].name == "" && h.entities[i].name == "Unknown"))
                && r.entities[i].keys == h.entities[i].keys
                && r.entities[i].properties == TrimmedTypes(h.entities[i].properties)
                && |r.entities[i].navigationProperties| == |h.entities[i].navigationProperties|
      {
        EntityAt(ets, ns, i);
        PrimaryEntityAt(ets, amap, i);
        PropertyListsAgree(ElementsByTagName(ets[i], "Property"));
      }
      forall i | 0 <= i < |r.complexTypes|
        ensures (r.complexTypes[i].name == h.complexTypes[i].name || (r.complexTypes[i].name == "" && h.complexTypes[i].name == "Unknown"))
                && r.complexTypes[i].properties == TrimmedTypes(h.complexTypes[i].properties)
      {
        ComplexAt(cts, i);
        PropertyListsAgree(ElementsByTagName(cts[i], "Property"));
      }
    }
  }

  /** The entity-set loop over the first schema's containers. */
  method CollectEntitySets(schemaNode: Elem) returns (entitySets: seq<H.EntitySet>)
    ensures entitySets == ContainerSets(ElementsByTagName(schemaNode, "EntityContainer"))
  {
    entitySets := [];
    var containerNodes := ElementsByTagName(schemaNode, "EntityContainer");
    for i := 0 to |containerNodes|
      invariant entitySets == ContainerSets(containerNodes[..i])
    {
      var pushed := PushEntitySets(ElementsByTagName(containerNodes[i], "EntitySet"));
      entitySets := entitySets + pushed;
      ContainerSetsStep(containerNodes, i);
    }
    assert containerNodes[..|containerNodes|] == containerNodes;
  }

  /** The inner loop over one container's `EntitySet` elements: the sets it contributes. */
  method PushEntitySets(sets: seq<Elem>) returns (pushed: seq<H.EntitySet>)
    ensures pushed == SetsOf(sets)
  {
    pushed := [];
    for j := 0 to |sets|
      invariant pushed == SetsOf(sets[..j])
    {
      SetsOfStep(sets, j);
      var name := AttrOr(sets[j], "Name", "");
      var entityType := AttrOr(sets[j], "EntityType", "");
      pushed := pushed + [H.EntitySet(name, entityType)];
    }
    assert sets[..|sets|] == sets;
  }

  lemma ContainerSetsStep(cs: seq<Elem>, i: int)
    requires 0 <= i < |cs|
    ensures ContainerSets(cs[..i + 1]) == ContainerSets(cs[..i]) + SetsOf(ElementsByTagName(cs[i], "EntitySet"))
  {
    assert cs[..i + 1][..i] == cs[..i];
  }

  method ParseEntityTypes(schemaNode: Elem, namespace: string) returns (entities: seq<EntityType>)
    ensures entities == EntitiesOf(ElementsByTagName(schemaNode, "EntityType"), namespace)
  {
    entities := [];
    var entityTypeNodes := ElementsByTagName(schemaNode, "EntityType");
    for i := 0 to |entityTypeNodes|
      invariant entities == EntitiesOf(entityTypeNodes[..i], namespace)
    {
      EntitiesStep(entityTypeNodes, namespace, i);
      var entity := ParseEntityTypeNode(entityTypeNodes[i], namespace);
      entities := entities + [entity];
    }
    assert entityTypeNodes[..|entityTypeNodes|] == entityTypeNodes;
  }

  method ParseComplexTypeNode(node: Elem) returns (complexType: ComplexType)
    ensures complexType == ParseComplexType(node)
  {
    var name := AttrOr(node, "Name", "");
    var properties := ParseProperties(node);
    complexType := ComplexType(name, properties);
  }

  method ParseComplexTypes(schemaNode: Elem) returns (complexTypes: seq<ComplexType>)
    ensures complexTypes == ComplexTypesOf(ElementsByTagName(schemaNode, "ComplexType"))
  {
    complexTypes := [];
    var complexTypeNodes := ElementsByTagName(schemaNode, "ComplexType");
    for i := 0 to |complexTypeNodes|
      invariant complexTypes == ComplexTypesOf(complexTypeNodes[..i])
    {
      ComplexTypesStep(complexTypeNodes, i);
      var complexType := ParseComplexTypeNode(complexTypeNodes[i]);
      complexTypes := complexTypes + [complexType];
    }
    assert complexTypeNodes[..|complexTypeNodes|] == complexTypeNodes;
  }

  /** Parses a metadata document; fails exactly when it has no `Schema`. */
  method ParseMetadataToSchema(doc: Elem) returns (result: Result<ParsedSchema, string>)
    ensures result == ParseMetadata(doc)
    ensures result.Err? <==> DocumentElementsByTagName(doc, "Schema") == []
  {
    var version := DocumentVersion(doc);
    var schemaNodes := DocumentElementsByTagName(doc, "Schema");
    if |schemaNodes| == 0 {
      return Err("No Schema definition found");
    }
    var schemaNode := schemaNodes[0];
    var namespace := AttrOr(schemaNode, "Namespace", "");
    var entities := ParseEntityTypes(schemaNode, namespace);
    var complexTypes := ParseComplexTypes(schemaNode);
    var entitySets := CollectEntitySets(schemaNode);
    result := Ok(ParsedSchema(version, namespace, entities, complexTypes, entitySets));
  }
}
