/** The mock-data generator's rules (`components/mock-data/mock-utils.ts`):
    the strategy table and its grouping, which strategies suit which EDM
    types, flattening complex-typed properties into dotted paths, the
    name/type-based default strategy, the deterministic value strategies
    and the clamping of generated values to the property's type. */
module MockData {
  import opened Wrappers
  import opened Text
  import opened Records
  import opened Json
  import opened Xml
  import H = ODataHelper

  // ---------------------------------------------------------------------
  // The strategy table

  datatype StrategyKind =
    | Faker | CustomNull | CustomEmpty | CustomUndefined | CustomIncrement | CustomAge | CustomPlaceholder

  /** A `MockStrategy`; the display label is not modelled. */
  datatype Strategy = Strategy(
    value: string,
    category: string,
    kind: StrategyKind,
    fakerModule: Option<string>,
    fakerMethod: Option<string>,
    allowedTypes: Option<seq<string>>)

  const StringTypes: seq<string> := ["Edm.String"]
  const IntegerTypes: seq<string> := ["Edm.Int16", "Edm.Int32", "Edm.Int64", "Edm.Byte", "Edm.SByte"]
  const NumberTypes: seq<string> := IntegerTypes + ["Edm.Decimal", "Edm.Double", "Edm.Single"]
  const DateTypes: seq<string> := ["Edm.DateTime", "Edm.DateTimeOffset", "Edm.String"]
  const BooleanTypes: seq<string> := ["Edm.Boolean"]

  /** `ALL_STRATEGIES`: the default strategies followed by the Faker ones, in
      table order. Of the Faker entries only those the suggestion rules can
      name are listed. */
  const AllStrategies: seq<Strategy> := [
    Strategy("custom.null", "Custom (自定义)", CustomNull, None, None, None),
    Strategy("custom.empty", "Custom (自定义)", CustomEmpty, None, None, Some(StringTypes)),
    Strategy("custom.placeholder", "Custom (自定义)", CustomPlaceholder, None, None, Some(StringTypes)),
    Strategy("custom.increment", "Custom (自定义)", CustomIncrement, None, None, Some(NumberTypes + StringTypes)),
    Strategy("person.fullName", "Person (人物)", Faker, Some("person"), Some("fullName"), Some(StringTypes)),
    Strategy("custom.age", "Person (人物)", CustomAge, None, None, Some(NumberTypes + StringTypes)),
    Strategy("person.firstName", "Person (人物)", Faker, Some("person"), Some("firstName"), Some(StringTypes)),
    Strategy("person.lastName", "Person (人物)", Faker, Some("person"), Some("lastName"), Some(StringTypes)),
    Strategy("internet.email", "Internet (互联网)", Faker, Some("internet"), Some("email"), Some(StringTypes)),
    Strategy("internet.url", "Internet (互联网)", Faker, Some("internet"), Some("url"), Some(StringTypes)),
    Strategy("location.city", "Location (位置)", Faker, Some("location"), Some("city"), Some(StringTypes)),
    Strategy("location.country", "Location (位置)", Faker, Some("location"), Some("country"), Some(StringTypes)),
    Strategy("location.streetAddress", "Location (位置)", Faker, Some("location"), Some("streetAddress"), Some(StringTypes)),
    Strategy("location.zipCode", "Location (位置)", Faker, Some("location"), Some("zipCode"), Some(StringTypes)),
    Strategy("location.state", "Location (位置)", Faker, Some("location"), Some("state"), Some(StringTypes)),
    Strategy("date.recent", "Date (日期)", Faker, Some("date"), Some("recent"), Some(DateTypes)),
    Strategy("commerce.productName", "Commerce (商业)", Faker, Some("commerce"), Some("productName"), Some(StringTypes)),
    Strategy("commerce.price", "Commerce (商业)", Faker, Some("commerce"), Some("price"), Some(["Edm.Decimal", "Edm.Double"] + StringTypes)),
    Strategy("phone.number", "Phone (电话)", Faker, Some("phone"), Some("number"), Some(StringTypes)),
    Strategy("lorem.word", "Lorem (文本)", Faker, Some("lorem"), Some("word"), Some(StringTypes)),
    Strategy("number.int", "Number (数字)", Faker, Some("number"), Some("int"), Some(NumberTypes)),
    Strategy("string.uuid", "String (文本)", Faker, Some("string"), Some("uuid"), Some(["Edm.Guid", "Edm.String"])),
    Strategy("datatype.boolean", "Datatype (杂项)", Faker, Some("datatype"), Some("boolean"), Some(BooleanTypes))
  ]

  /** A Faker entry is named `${module}.${method}` after the call it makes. */
  predicate FakerNamed(s: Strategy) {
    s.fakerModule.Some? && s.fakerMethod.Some? && s.value == s.fakerModule.value + "." + s.fakerMethod.value
  }

  /** Every Faker entry of the table is named after its call. */
  lemma FakerValuesNameTheirCall(i: nat)
    requires i < |AllStrategies| && AllStrategies[i].kind == Faker
    ensures FakerNamed(AllStrategies[i])
  {
    if i < 8 {
      FakerNamedPerson(i);
    } else if i < 10 {
      FakerNamedInternet(i);
    } else if i < 12 {
      FakerNamedPlace(i);
    } else if i < 14 {
      FakerNamedAddress(i);
    } else if i < 16 {
      FakerNamedStateAndDate(i);
    } else if i < 18 {
      FakerNamedCommerce(i);
    } else if i < 20 {
      FakerNamedPhoneAndLorem(i);
    } else {
      FakerNamedTypes(i);
    }
  }

  lemma FakerNamedPerson(i: nat)
    requires i < 8 && AllStrategies[i].kind == Faker
    ensures FakerNamed(AllStrategies[i])
  {
  }

  lemma FakerNamedInternet(i: nat)
    requires 8 <= i < 10 && AllStrategies[i].kind == Faker
    ensures FakerNamed(AllStrategies[i])
  {
  }

  lemma FakerNamedPlace(i: nat)
    requires 10 <= i < 12 && AllStrategies[i].kind == Faker
    ensures FakerNamed(AllStrategies[i])
  {
  }

  lemma FakerNamedAddress(i: nat)
    requires 12 <= i < 14 && AllStrategies[i].kind == Faker
    ensures FakerNamed(AllStrategies[i])
  {
  }

  lemma FakerNamedStateAndDate(i: nat)
    requires 14 <= i < 16 && AllStrategies[i].kind == Faker
    ensures FakerNamed(AllStrategies[i])
  {
  }

  lemma FakerNamedCommerce(i: nat)
    requires 16 <= i < 18 && AllStrategies[i].kind == Faker
    ensures FakerNamed(AllStrategies[i])
  {
  }

  lemma FakerNamedPhoneAndLorem(i: nat)
    requires 18 <= i < 20 && AllStrategies[i].kind == Faker
    ensures FakerNamed(AllStrategies[i])
  {
  }

  lemma FakerNamedTypes(i: nat)
    requires 20 <= i < 23 && AllStrategies[i].kind == Faker
    ensures FakerNamed(AllStrategies[i])
  {
  }

  /** `ALL_STRATEGIES.find(s => s.value === value)`. */
  function FindStrategy(table: seq<Strategy>, value: string): (r: Option<Strategy>)
    ensures r.None? <==> forall i :: 0 <= i < |table| ==> table[i].value != value
    ensures r.Some? ==> exists i :: 0 <= i < |table| && table[i] == r.value && table[i].value == value
                                   && forall j :: 0 <= j < i ==> table[j].value != value
  {
    FindFromFirst(table, value, 0);
    FindFrom(table, value, 0)
  }

  /** The search of `find` from position `k` on. */
  function FindFrom(table: seq<Strategy>, value: string, k: nat): (r: Option<Strategy>)
    requires k <= |table|
    decreases |table| - k
  {
    if k == |table| then None
    else if table[k].value == value then Some(table[k])
    else FindFrom(table, value, k + 1)
  }

  lemma {:induction false} FindFromFirst(table: seq<Strategy>, value: string, k: nat)
    requires k <= |table|
    ensures var r := FindFrom(table, value, k);
            && (r.None? <==> forall i :: k <= i < |table| ==> table[i].value != value)
            && (r.Some? ==> exists i :: k <= i < |table| && table[i] == r.value && table[i].value == value
                                        && forall j :: k <= j < i ==> table[j].value != value)
    decreases |table| - k
  {
    if k < |table| && table[k].value != value {
      FindFromFirst(table, value, k + 1);
    }
  }

  /** The first strategy carrying `value` is the one `find` returns. */
  lemma FoundAt(table: seq<Strategy>, value: string, i: nat)
    requires i < |table| && table[i].value == value
    requires forall j :: 0 <= j < i ==> table[j].value != value
    ensures FindStrategy(table, value) == Some(table[i])
  {
    var r := FindStrategy(table, value);
    var k :| 0 <= k < |table| && table[k] == r.value && table[k].value == value
             && forall j :: 0 <= j < k ==> table[j].value != value;
    assert !(k < i) && !(i < k);
  }

  // ---------------------------------------------------------------------
  // getGroupedStrategies

  /** The strategies of `table` in category `c`, in table order. */
  function InCategory(table: seq<Strategy>, c: string): (r: seq<Strategy>)
    ensures forall x :: x in r ==> x in table && x.category == c
    ensures forall i :: 0 <= i < |table| && table[i].category == c ==> table[i] in r
    ensures c !in Categories(table) ==> r == []
  {
    if table == [] then []
    else
      var rest := InCategory(table[..|table| - 1], c);
      var last := table[|table| - 1];
      assert forall i :: 0 <= i < |table| - 1 ==> table[i] == table[..|table| - 1][i];
      if last.category == c then rest + [last] else rest
  }

  /** The categories that occur in `table`. */
  function Categories(table: seq<Strategy>): (r: set<string>)
    ensures forall i :: 0 <= i < |table| ==> table[i].category in r
  {
    if table == [] then {} else Categories(table[..|table| - 1]) + {table[|table| - 1].category}
  }

  /** One pass of the `forEach`: create the group if it is missing, then push. */
  function GroupStep(groups: Record<seq<Strategy>>, s: Strategy): Record<seq<Strategy>> {
    var current := Lookup(groups, s.category);
    Assign(groups, s.category, (if current.Some? then current.value else []) + [s])
  }

  /** The `groups` record after the strategies of `table` have been pushed. */
  function Grouped(table: seq<Strategy>): Record<seq<Strategy>> {
    if table == [] then [] else GroupStep(Grouped(table[..|table| - 1]), table[|table| - 1])
  }

  /** `getGroupedStrategies`: one group per category, each holding exactly the
      strategies of that category in table order, and no other group. */
  lemma {:induction false} GroupedPartition(table: seq<Strategy>, c: string)
    ensures Lookup(Grouped(table), c) == if c in Categories(table) then Some(InCategory(table, c)) else None
  {
    if table != [] {
      var init := table[..|table| - 1];
      var s := table[|table| - 1];
      GroupedPartition(init, c);
      var g := Grouped(init);
      assert Grouped(table) == GroupStep(g, s);
      assert Categories(table) == Categories(init) + {s.category};
      if c == s.category {
        assert InCategory(table, c) == InCategory(init, c) + [s];
      } else {
        assert InCategory(table, c) == InCategory(init, c);
        assert Lookup(Grouped(table), c) == Lookup(g, c);
      }
    }
  }

  /** The loop of `getGroupedStrategies` over a strategy table. */
  method GroupByCategory(table: seq<Strategy>) returns (groups: Record<seq<Strategy>>)
    ensures groups == Grouped(table)
  {
    groups := [];
    var i := 0;
    while i < |table|
      invariant 0 <= i <= |table| && groups == Grouped(table[..i])
    {
      assert table[..i + 1][..i] == table[..i];
      groups := PushStrategy(groups, table[i]);
      i := i + 1;
    }
    assert table[..i] == table;
  }

  /** `if (!groups[c]) groups[c] = []; groups[c].push(s)`. */
  method PushStrategy(groups0: Record<seq<Strategy>>, s: Strategy) returns (groups: Record<seq<Strategy>>)
    ensures groups == GroupStep(groups0, s)
  {
    groups := groups0;
    if Lookup(groups, s.category).None? {
      groups := Assign(groups, s.category, []);
    }
    var group := Lookup(groups, s.category).value;
    if Lookup(groups0, s.category).None? {
      AssignOverwrite(groups0, s.category, [], group + [s]);
    }
    groups := Assign(groups, s.category, group + [s]);
  }

  /** `getGroupedStrategies()`. */
  method GetGroupedStrategies() returns (groups: Record<seq<Strategy>>)
    ensures groups == Grouped(AllStrategies)
  {
    groups := GroupByCategory(AllStrategies);
  }

  // ---------------------------------------------------------------------
  // isStrategyCompatible

  /** `isStrategyCompatible(strategyValue, odataType)`: whether the strategy
      named `value` may fill a property of EDM type `t`. */
  function IsStrategyCompatible(value: string, t: string): (r: bool)
    ensures r ==> FindStrategy(AllStrategies, value).Some?
    ensures FindStrategy(AllStrategies, value).Some? && FindStrategy(AllStrategies, value).value.allowedTypes.None? ==> r
    ensures (FindStrategy(AllStrategies, value).Some? && FindStrategy(AllStrategies, value).value.allowedTypes.Some?
             && t in FindStrategy(AllStrategies, value).value.allowedTypes.value) ==> r
    ensures r <==> (FindStrategy(AllStrategies, value).Some? &&
                    var s := FindStrategy(AllStrategies, value).value;
                    s.allowedTypes.None? || (t in IntegerTypes && (value == "number.int" || s.kind == CustomAge))
                    || t in s.allowedTypes.value)
  {
    match FindStrategy(AllStrategies, value)
    case None => false
    case Some(s) =>
      if s.allowedTypes.None? then true
      else if t in IntegerTypes && s.value == "number.int" then true
      else if t in IntegerTypes && s.kind == CustomAge then true
      else t in s.allowedTypes.value
  }

  // ---------------------------------------------------------------------
  // suggestStrategy

  const AgeTypes: seq<string> := ["Edm.Byte", "Edm.SByte", "Edm.Int16", "Edm.Int32", "Edm.Int64", "Edm.String"]
  const FloatTypes: seq<string> := ["Edm.Decimal", "Edm.Double", "Edm.Single"]

  /** `suggestStrategy(prop)`: the default strategy for a property, chosen
      from its lower-cased name and its EDM type. */
  function SuggestStrategy(prop: H.EntityProperty): (r: string) {
    var name := ToLower(prop.name);
    var t := prop.typeName;
    if Contains(name, "age") && t in AgeTypes then "custom.age"
    else if t == "Edm.Boolean" then "datatype.boolean"
    else if t == "Edm.Guid" then "string.uuid"
    else if Contains(t, "Date") then "date.recent"
    else if t in IntegerTypes then "number.int"
    else if t in FloatTypes then "commerce.price"
    else if t == "Edm.String" then StringSuggestion(name)
    else "custom.null"
  }

  /** The name rules for `Edm.String` properties, in source order. */
  function StringSuggestion(name: string): (r: string) {
    if name == "street" || Contains(name, "street") then "location.streetAddress"
    else if name == "city" || Contains(name, "city") then "location.city"
    else if name == "zip" || Contains(name, "zip") || Contains(name, "postal") then "location.zipCode"
    else if name == "country" || Contains(name, "country") then "location.country"
    else if name == "state" || Contains(name, "state") || Contains(name, "province") then "location.state"
    else if Contains(name, "email") then "internet.email"
    else if Contains(name, "phone") then "phone.number"
    else if Contains(name, "url") then "internet.url"
    else if Contains(name, "name") then
      if Contains(name, "first") then "person.firstName"
      else if Contains(name, "last") then "person.lastName"
      else if Contains(name, "product") then "commerce.productName"
      else "person.fullName"
    else if Contains(name, "id") || Contains(name, "key") then "string.uuid"
    else "lorem.word"
  }

  /** The types whose suggested strategy does not list them: `Edm.Single`
      is given `commerce.price`, and a type mentioning `Date` other than
      `Edm.DateTime` and `Edm.DateTimeOffset` is given `date.recent`. */
  predicate SuggestionMismatch(t: string) {
    t == "Edm.Single" || (Contains(t, "Date") && t != "Edm.DateTime" && t != "Edm.DateTimeOffset")
  }

  /** A suggested strategy suits the property's type exactly when the type is
      not one of the mismatches. */
  lemma SuggestionCompatible(prop: H.EntityProperty)
    ensures IsStrategyCompatible(SuggestStrategy(prop), prop.typeName) <==> !SuggestionMismatch(prop.typeName)
  {
    var name, t := ToLower(prop.name), prop.typeName;
    if Contains(name, "age") && t in AgeTypes {
      AgeRuleCompatible(t);
    } else if t == "Edm.Boolean" || t == "Edm.Guid" {
      FixedRuleCompatible(t);
    } else if Contains(t, "Date") {
      DateRuleCompatible(t);
    } else if t in IntegerTypes || t in FloatTypes {
      NumberRuleCompatible(t);
    } else if t == "Edm.String" {
      StringSuggestionCompatible(name);
    } else {
      FindCustomNull();
    }
  }

  /** Every suggestion names a strategy of the table. */
  lemma SuggestionListed(prop: H.EntityProperty)
    ensures FindStrategy(AllStrategies, SuggestStrategy(prop)).Some?
  {
    SuggestionCompatible(prop);
    if SuggestionMismatch(prop.typeName) {
      if prop.typeName == "Edm.Single" {
        SingleSuggestion(prop);
        FindCommercePrice();
      } else {
        DateSuggestion(prop);
        FindDateRecent();
      }
    }
  }

  lemma SingleSuggestion(prop: H.EntityProperty)
    requires prop.typeName == "Edm.Single"
    ensures SuggestStrategy(prop) == "commerce.price"
  {
    assert 'D' !in "Edm.Single";
    LeadMissing("Edm.Single", "Date");
  }

  lemma DateSuggestion(prop: H.EntityProperty)
    requires Contains(prop.typeName, "Date")
    ensures SuggestStrategy(prop) == "date.recent"
  {
    NoDateInEdmTypes();
  }

  /** The age rule matches `age` anywhere in the name and comes before the
      name rules: a text property called `Message` or `Manager` is given
      an age. */
  lemma AgeRuleMatchesInsideWords(prop: H.EntityProperty)
    requires ToLower(prop.name) in ["message", "manager"] && prop.typeName == "Edm.String"
    ensures SuggestStrategy(prop) == "custom.age"
  {
    var name := ToLower(prop.name);
    if name == "message" {
      assert OccursAt(name, "age", 4);
      ContainsAt(name, "age", 4);
    } else {
      assert OccursAt(name, "age", 3);
      ContainsAt(name, "age", 3);
    }
  }

  lemma AgeRuleCompatible(t: string)
    requires t in AgeTypes
    ensures IsStrategyCompatible("custom.age", t) && !SuggestionMismatch(t)
  {
    FindCustomAge();
    NoDateInEdmTypes();
  }

  lemma FixedRuleCompatible(t: string)
    requires t == "Edm.Boolean" || t == "Edm.Guid"
    ensures IsStrategyCompatible(if t == "Edm.Boolean" then "datatype.boolean" else "string.uuid", t)
    ensures !SuggestionMismatch(t)
  {
    NoDateInEdmTypes();
    if t == "Edm.Boolean" {
      FindDatatypeBoolean();
    } else {
      FindStringUuid();
    }
  }

  lemma DateRuleCompatible(t: string)
    requires Contains(t, "Date")
    ensures IsStrategyCompatible("date.recent", t) <==> !SuggestionMismatch(t)
  {
    FindDateRecent();
    NoDateInEdmTypes();
  }

  lemma NumberRuleCompatible(t: string)
    requires !Contains(t, "Date") && (t in IntegerTypes || t in FloatTypes)
    ensures IsStrategyCompatible(if t in IntegerTypes then "number.int" else "commerce.price", t) <==> !SuggestionMismatch(t)
  {
    if t in IntegerTypes {
      FindNumberInt();
    } else {
      FindCommercePrice();
    }
  }

  /** None of the fixed EDM type names the rules test before the `Date`
      rule contains `Date`: none of them contains a `D`. */
  lemma NoDateInEdmTypes()
    ensures forall t :: t in AgeTypes + ["Edm.Boolean", "Edm.Guid"] ==> !Contains(t, "Date")
  {
    forall t | t in AgeTypes + ["Edm.Boolean", "Edm.Guid"]
      ensures !Contains(t, "Date") {
      assert 'D' !in t;
      LeadMissing(t, "Date");
    }
  }

  /** A string misses every string whose first character it lacks. */
  lemma LeadMissing(s: string, sub: string)
    requires sub != [] && sub[0] !in s
    ensures !Contains(s, sub)
  {
  }

  /** Every name rule for `Edm.String` picks a strategy that allows `Edm.String`. */
  lemma StringSuggestionCompatible(name: string)
    ensures IsStrategyCompatible(StringSuggestion(name), "Edm.String")
  {
    var r := StringSuggestion(name);
    if r == "location.streetAddress" || r == "location.city" || r == "location.zipCode" {
      AddressChoicesCompatible(r);
    } else if r == "location.country" || r == "location.state" || r == "internet.email" {
      RegionChoicesCompatible(r);
    } else if r == "phone.number" || r == "internet.url" || r == "person.firstName" {
      ContactChoicesCompatible(r);
    } else {
      NameChoicesCompatible(r);
    }
  }

  lemma AddressChoicesCompatible(r: string)
    requires r == "location.streetAddress" || r == "location.city" || r == "location.zipCode"
    ensures IsStrategyCompatible(r, "Edm.String")
  {
    if r == "location.streetAddress" {
      FindLocationStreetAddress();
    } else if r == "location.city" {
      FindLocationCity();
    } else {
      FindLocationZipCode();
    }
  }

  lemma RegionChoicesCompatible(r: string)
    requires r == "location.country" || r == "location.state" || r == "internet.email"
    ensures IsStrategyCompatible(r, "Edm.String")
  {
    if r == "location.country" {
      FindLocationCountry();
    } else if r == "location.state" {
      FindLocationState();
    } else {
      FindInternetEmail();
    }
  }

  lemma ContactChoicesCompatible(r: string)
    requires r == "phone.number" || r == "internet.url" || r == "person.firstName"
    ensures IsStrategyCompatible(r, "Edm.String")
  {
    if r == "phone.number" {
      FindPhoneNumber();
    } else if r == "internet.url" {
      FindInternetUrl();
    } else {
      FindPersonFirstName();
    }
  }

  lemma NameChoicesCompatible(r: string)
    requires r in ["person.lastName", "commerce.productName", "person.fullName", "string.uuid", "lorem.word"]
    ensures IsStrategyCompatible(r, "Edm.String")
  {
    if r == "person.lastName" {
      FindPersonLastName();
    } else if r == "commerce.productName" {
      FindCommerceProductName();
    } else if r == "person.fullName" {
      FindPersonFullName();
    } else if r == "string.uuid" {
      FindStringUuid();
    } else {
      FindLoremWord();
    }
  }

  // ---------------------------------------------------------------------
  // flattenEntityProperties

  /** One entry of the flattened property list: a dotted path and the
      primitive property found there. */
  datatype FlatProperty = FlatProperty(path: string, property: H.EntityProperty)

  /** `prefix ? `${prefix}.${name}` : name`. */
  function PathOf(prefix: string, name: string): string {
    if prefix != "" then prefix + "." + name else name
  }

  /** `ts.find(t => t.name === name)`, or with `keyless` also requiring `t.keys.length === 0`. */
  function FirstNamed(ts: seq<H.EntityType>, name: string, keyless: bool): (r: Option<H.EntityType>)
    ensures r.Some? ==> r.value in ts && r.value.name == name && (keyless ==> r.value.keys == [])
    ensures r.None? ==> forall t :: t in ts && t.name == name ==> keyless && t.keys != []
  {
    if ts == [] then None
    else if ts[0].name == name && (!keyless || ts[0].keys == []) then Some(ts[0])
    else FirstNamed(ts[1..], name, keyless)
  }

  /** The structured type a property expands into: a complex type named
      like the last dotted segment of its type, else a key-less entity type
      of that name. */
  function ComplexFor(schema: H.ParsedSchema, typeName: string): (r: Option<H.EntityType>)
    ensures r.Some? ==> r.value.name == AfterLast(typeName, '.')
    ensures r.Some? ==> r.value in schema.complexTypes || (r.value in schema.entities && r.value.keys == [])
    ensures r.None? ==> forall t :: t in schema.complexTypes ==> t.name != AfterLast(typeName, '.')
  {
    var short := AfterLast(typeName, '.');
    var ct := FirstNamed(schema.complexTypes, short, false);
    if ct.Some? then ct else FirstNamed(schema.entities, short, true)
  }

  /** Expansion levels left at `depth`: nothing is expanded below depth 5. */
  function Budget(depth: nat): nat {
    if depth > 5 then 0 else 6 - depth
  }

  /** The shape every flattened entry has: its property is primitive (it
      expands into nothing), its path ends with the property's name, and it
      lies under `prefix`. */
  predicate Leaf(schema: H.ParsedSchema, prefix: string, e: FlatProperty) {
    && ComplexFor(schema, e.property.typeName).None?
    && EndsWith(e.path, e.property.name)
    && (prefix != "" ==> StartsWith(e.path, prefix + "."))
  }

  /** `flattenEntityProperties(entity, schema, prefix, depth)` on the
      property list of `entity`. */
  function Flatten(props: seq<H.EntityProperty>, schema: H.ParsedSchema, prefix: string, depth: nat): seq<FlatProperty>
    decreases Budget(depth), |props| + 1
  {
    if depth > 5 then [] else FlattenProps(props, schema, prefix, depth)
  }

  /** The `forEach` over `props`, accumulating into `results`. */
  function FlattenProps(props: seq<H.EntityProperty>, schema: H.ParsedSchema, prefix: string, depth: nat): seq<FlatProperty>
    requires depth <= 5
    decreases Budget(depth), |props|
  {
    if props == [] then []
    else
      var p := props[|props| - 1];
      FlattenProps(props[..|props| - 1], schema, prefix, depth) + FlattenOne(p, ComplexFor(schema, p.typeName), schema, prefix, depth)
  }

  /** What property `p`, whose type resolves to `ct`, contributes: the
      expansion of `ct` under the property's path, or the property itself. */
  function FlattenOne(p: H.EntityProperty, ct: Option<H.EntityType>, schema: H.ParsedSchema, prefix: string, depth: nat): seq<FlatProperty>
    requires depth <= 5
    decreases Budget(depth), 0
  {
    var path := PathOf(prefix, p.name);
    if ct.None? then [FlatProperty(path, p)] else Flatten(ct.value.properties, schema, path, depth + 1)
  }

  /** Every flattened entry is a primitive property whose path ends with its
      name and lies under `prefix`. */
  lemma {:induction false} FlattenLeaves(props: seq<H.EntityProperty>, schema: H.ParsedSchema, prefix: string, depth: nat)
    ensures forall e :: e in Flatten(props, schema, prefix, depth) ==> Leaf(schema, prefix, e)
    decreases Budget(depth), |props| + 1
  {
    if depth <= 5 {
      PropsLeaves(props, schema, prefix, depth);
    }
  }

  lemma {:induction false} PropsLeaves(props: seq<H.EntityProperty>, schema: H.ParsedSchema, prefix: string, depth: nat)
    requires depth <= 5
    ensures forall e :: e in FlattenProps(props, schema, prefix, depth) ==> Leaf(schema, prefix, e)
    decreases Budget(depth), |props|
  {
    if props != [] {
      var p := props[|props| - 1];
      var ct := ComplexFor(schema, p.typeName);
      var init := FlattenProps(props[..|props| - 1], schema, prefix, depth);
      var more := FlattenOne(p, ct, schema, prefix, depth);
      PropsLeaves(props[..|props| - 1], schema, prefix, depth);
      OneLeaves(p, ct, schema, prefix, depth);
      assert FlattenProps(props, schema, prefix, depth) == init + more;
      assert forall e :: e in init + more ==> e in init || e in more;
    }
  }

  lemma {:induction false} OneLeaves(p: H.EntityProperty, ct0: Option<H.EntityType>, schema: H.ParsedSchema, prefix: string, depth: nat)
    requires depth <= 5 && ct0 == ComplexFor(schema, p.typeName)
    ensures forall e :: e in FlattenOne(p, ct0, schema, prefix, depth) ==> Leaf(schema, prefix, e)
    decreases Budget(depth), 0
  {
    var path := PathOf(prefix, p.name);
    match ct0
    case Some(ct) =>
      var nested := Flatten(ct.properties, schema, path, depth + 1);
      FlattenLeaves(ct.properties, schema, path, depth + 1);
      forall e | e in nested
        ensures Leaf(schema, prefix, e)
      {
        assert Leaf(schema, path, e);
        if prefix != "" {
          PrefixTrans(prefix + ".", path + ".", e.path);
        }
      }
    case None =>
      assert EndsWith(path, p.name);
  }

  /** Without structured properties nothing is expanded: one entry per
      property, in order, under its own path. */
  lemma {:induction false} FlattenPrimitive(props: seq<H.EntityProperty>, schema: H.ParsedSchema, prefix: string, depth: nat)
    requires depth <= 5
    requires forall i :: 0 <= i < |props| ==> ComplexFor(schema, props[i].typeName).None?
    ensures var r := Flatten(props, schema, prefix, depth);
            |r| == |props| && forall i :: 0 <= i < |props| ==> r[i] == FlatProperty(PathOf(prefix, props[i].name), props[i])
  {
    PrimitiveProps(props, schema, prefix, depth);
  }

  lemma {:induction false} PrimitiveProps(props: seq<H.EntityProperty>, schema: H.ParsedSchema, prefix: string, depth: nat)
    requires depth <= 5
    requires forall i :: 0 <= i < |props| ==> ComplexFor(schema, props[i].typeName).None?
    ensures var r := FlattenProps(props, schema, prefix, depth);
            |r| == |props| && forall i :: 0 <= i < |props| ==> r[i] == FlatProperty(PathOf(prefix, props[i].name), props[i])
  {
    if props != [] {
      var n := |props| - 1;
      var init := props[..n];
      assert forall i :: 0 <= i < n ==> init[i] == props[i];
      PrimitiveProps(init, schema, prefix, depth);
      var r0 := FlattenProps(init, schema, prefix, depth);
      var last := FlattenOne(props[n], ComplexFor(schema, props[n].typeName), schema, prefix, depth);
      assert last == [FlatProperty(PathOf(prefix, props[n].name), props[n])];
      assert FlattenProps(props, schema, prefix, depth) == r0 + last;
    }
  }

  /** Past the depth guard nothing is listed, however deep the nesting. */
  lemma FlattenStopsAtDepth(props: seq<H.EntityProperty>, schema: H.ParsedSchema, prefix: string, depth: nat)
    requires depth > 5
    ensures Flatten(props, schema, prefix, depth) == []
  {
  }

  /** `flattenEntityProperties(entity, schema, prefix, depth)`. */
  method FlattenEntityProperties(entity: H.EntityType, schema: H.ParsedSchema, prefix: string, depth: nat)
    returns (results: seq<FlatProperty>)
    ensures results == Flatten(entity.properties, schema, prefix, depth)
    decreases Budget(depth)
  {
    if depth > 5 {
      return [];
    }
    var props := entity.properties;
    results := [];
    var i := 0;
    while i < |props|
      invariant 0 <= i <= |props| && results == FlattenProps(props[..i], schema, prefix, depth)
    {
      var p := props[i];
      assert props[..i + 1][..i] == props[..i];
      var currentPath := if prefix != "" then prefix + "." + p.name else p.name;
      var complexType := ComplexFor(schema, p.typeName);
      if complexType.Some? {
        var nested := FlattenEntityProperties(complexType.value, schema, currentPath, depth + 1);
        results := results + nested;
      } else {
        results := results + [FlatProperty(currentPath, p)];
      }
      i := i + 1;
    }
    assert props[..i] == props;
  }

  lemma PrefixTrans(a: string, b: string, c: string)
    requires a <= b && b <= c
    ensures a <= c
  {
    assert c[..|a|] == b[..|a|];
  }

  // ---------------------------------------------------------------------
  // enforceConstraints

  /** `str.substring(0, prop.maxLength)` when `prop.maxLength` is a positive number. */
  function Truncate(str: string, maxLength: Option<JsNumber>): (r: string)
    ensures r <= str
    ensures (maxLength.Some? && maxLength.value.Finite? && maxLength.value.value > 0) ==> |r| <= maxLength.value.value
    ensures |r| < |str| ==> maxLength.Some? && maxLength.value.Finite? && |r| == maxLength.value.value > 0
  {
    if maxLength.Some? && maxLength.value.Finite? && maxLength.value.value > 0 && maxLength.value.value < |str|
    then str[..maxLength.value.value]
    else str
  }

  /** The range rule of an integer type: `Edm.Byte` takes `Math.abs(num) % 256`,
      `Edm.SByte` and `Edm.Int16` clamp to their ranges, the wider types keep the number. */
  function IntegerConstraint(t: string, n: int): (m: int)
    ensures t == "Edm.Byte" ==> 0 <= m < 256 && (0 <= n < 256 ==> m == n)
    ensures t == "Edm.SByte" ==> -128 <= m <= 127 && (-128 <= n <= 127 ==> m == n)
    ensures t == "Edm.SByte" && n > 127 ==> m == 127
    ensures t == "Edm.SByte" && n < -128 ==> m == -128
    ensures t == "Edm.Int16" ==> -32768 <= m <= 32767 && (-32768 <= n <= 32767 ==> m == n)
    ensures t == "Edm.Int16" && n > 32767 ==> m == 32767
    ensures t == "Edm.Int16" && n < -32768 ==> m == -32768
    ensures t != "Edm.Byte" && t != "Edm.SByte" && t != "Edm.Int16" ==> m == n
  {
    if t == "Edm.Byte" then (if n < 0 then -n else n) % 256
    else if t == "Edm.SByte" then (if n > 127 then 127 else if n < -128 then -128 else n)
    else if t == "Edm.Int16" then (if n > 32767 then 32767 else if n < -32768 then -32768 else n)
    else n
  }

  /** `enforceConstraints(val, prop)`: a generated value brought in line with
      the property's type. `None` stands for the two branches this model does
      not compute: `parseFloat` of a non-number for a floating-point type,
      and `toISOString` of a date for a date type. */
  function Enforce(val: Json, prop: H.EntityProperty): (r: Option<Json>)
    ensures val.JNull? ==> r == Some(JNull)
    ensures !val.JNull? && prop.typeName == "Edm.String" ==>
              r.Some? && r.value.JStr? && r.value.s == Truncate(JsString(val), prop.maxLength)
    ensures !val.JNull? && prop.typeName in IntegerTypes ==>
              r.Some? && r.value.JNum? && r.value.n == IntegerConstraint(prop.typeName, r.value.n)
  {
    if val.JNull? then Some(JNull)
    else if prop.typeName == "Edm.String" then Some(JStr(Truncate(JsString(val), prop.maxLength)))
    else if prop.typeName in IntegerTypes then
      var num := if val.JNum? then Finite(val.n) else ParseInt(JsString(val));
      if num.NaN? then Some(JNum(0)) else Some(JNum(IntegerConstraint(prop.typeName, num.value)))
    else if prop.typeName in FloatTypes then
      if val.JNum? then Some(val) else None
    else if Contains(prop.typeName, "Date") && val.JDate? then None
    else Some(val)
  }

  /** `enforceConstraints` as written, reassigning `str` and `num` step by step. */
  method EnforceConstraints(val: Json, prop: H.EntityProperty) returns (r: Option<Json>)
    ensures r == Enforce(val, prop)
  {
    if val.JNull? {
      r := Some(val);
    } else if prop.typeName == "Edm.String" {
      var str := JsString(val);
      var m := prop.maxLength;
      if m.Some? && m.value.Finite? && m.value.value > 0 && m.value.value < |str| {
        str := str[..m.value.value];
      }
      r := Some(JStr(str));
    } else if prop.typeName in IntegerTypes {
      var num := EnforceInteger(val, prop);
      r := Some(num);
    } else if prop.typeName in FloatTypes {
      r := if val.JNum? then Some(val) else None;
    } else if Contains(prop.typeName, "Date") && val.JDate? {
      r := None;
    } else {
      r := Some(val);
    }
  }

  /** What `enforceConstraints` makes of a value for an integer type. */
  lemma EnforceIntegerValue(val: Json, prop: H.EntityProperty)
    requires !val.JNull? && prop.typeName in IntegerTypes
    ensures var parsed := if val.JNum? then Finite(val.n) else ParseInt(JsString(val));
            Enforce(val, prop) == if parsed.NaN? then Some(JNum(0))
                                  else Some(JNum(IntegerConstraint(prop.typeName, parsed.value)))
  {
    assert prop.typeName != "Edm.String";
  }

  /** The integer branch of `enforceConstraints`. */
  method EnforceInteger(val: Json, prop: H.EntityProperty) returns (r: Json)
    requires !val.JNull? && prop.typeName in IntegerTypes
    ensures Some(r) == Enforce(val, prop)
  {
    EnforceIntegerValue(val, prop);
    var parsed := if val.JNum? then Finite(val.n) else ParseInt(JsString(val));
    if parsed.NaN? {
      return JNum(0);
    }
    var num := parsed.value;
    ghost var expected := IntegerConstraint(prop.typeName, num);
    if prop.typeName == "Edm.Byte" {
      num := (if num < 0 then -num else num) % 256;
      assert num == expected;
    } else if prop.typeName == "Edm.SByte" {
      if num > 127 {
        num := 127;
      }
      if num < -128 {
        num := -128;
      }
      assert num == expected;
    } else if prop.typeName == "Edm.Int16" {
      if num > 32767 {
        num := 32767;
      }
      if num < -32768 {
        num := -32768;
      }
      assert num == expected;
    } else {
      assert num == expected;
    }
    r := JNum(num);
  }

  /** Enforcing twice changes nothing more. */
  lemma EnforceIdempotent(val: Json, prop: H.EntityProperty)
    requires Enforce(val, prop).Some?
    ensures Enforce(Enforce(val, prop).value, prop) == Enforce(val, prop)
  {
    var r := Enforce(val, prop).value;
    if !val.JNull? && prop.typeName in IntegerTypes {
      assert r.JNum? && JsString(r) == IntToString(r.n);
    }
  }

  /** For an integer type a number's decimal text is read back as that number
      before the range rule applies. */
  lemma EnforceParsesText(k: int, prop: H.EntityProperty)
    requires prop.typeName in IntegerTypes
    ensures Enforce(JStr(IntToString(k)), prop) == Enforce(JNum(k), prop)
    ensures Enforce(JNum(k), prop) == Some(JNum(IntegerConstraint(prop.typeName, k)))
  {
    ParseIntRoundTrip(k);
  }

  // ---------------------------------------------------------------------
  // generateValue

  /** An `AutoIncrementConfig`. */
  datatype IncrementConfig = IncrementConfig(start: int, step: int, prefix: string, suffix: string)

  /** The configuration used when a field has none. */
  const DefaultIncrement := IncrementConfig(1, 1, "", "")

  /** The `custom.increment` value of row `index`: the number
      `start + index * step`, or its text between `prefix` and `suffix` for a
      text property or when either affix is set. */
  function Increment(prop: H.EntityProperty, index: int, conf: IncrementConfig): Json {
    Rendered(prop, conf.start + index * conf.step, conf)
  }

  /** How `numVal` is written into the column. */
  function Rendered(prop: H.EntityProperty, numVal: int, conf: IncrementConfig): Json {
    if prop.typeName != "Edm.String" && conf.prefix == "" && conf.suffix == "" then JNum(numVal)
    else JStr(conf.prefix + IntToString(numVal) + conf.suffix)
  }

  /** Rows of an increment column differ when the step is not zero. */
  lemma IncrementDistinct(prop: H.EntityProperty, i: int, j: int, conf: IncrementConfig)
    requires conf.step != 0 && i != j
    ensures Increment(prop, i, conf) != Increment(prop, j, conf)
  {
    StepsDiffer(conf.start, i, j, conf.step);
    RenderedDistinct(prop, conf.start + i * conf.step, conf.start + j * conf.step, conf);
  }

  /** Different numbers are written differently. */
  lemma RenderedDistinct(prop: H.EntityProperty, a: int, b: int, conf: IncrementConfig)
    requires a != b
    ensures Rendered(prop, a, conf) != Rendered(prop, b, conf)
  {
    ParseIntRoundTrip(a);
    ParseIntRoundTrip(b);
    AffixesKeepDifference(conf.prefix, IntToString(a), IntToString(b), conf.suffix);
  }

  lemma StepsDiffer(start: int, i: int, j: int, step: int)
    requires step != 0 && i != j
    ensures start + i * step != start + j * step
  {
    assert (start + i * step) - (start + j * step) == (i - j) * step;
  }

  /** Text between the same prefix and suffix tells different middles apart. */
  lemma AffixesKeepDifference(p: string, x: string, y: string, s: string)
    requires x != y
    ensures p + x + s != p + y + s
  {
    if |x| == |y| {
      var k :| 0 <= k < |x| && x[k] != y[k];
      assert (p + x + s)[|p| + k] == x[k];
      assert (p + y + s)[|p| + k] == y[k];
    } else {
      assert |p + x + s| != |p + y + s|;
    }
  }

  /** The text of an increment value reads back as its number. */
  lemma IncrementReadsBack(prop: H.EntityProperty, index: int, conf: IncrementConfig)
    requires conf.prefix == "" && conf.suffix == ""
    ensures Increment(prop, index, conf) == JNum(conf.start + index * conf.step)
      || (Increment(prop, index, conf).JStr? && ParseInt(Increment(prop, index, conf).s) == Finite(conf.start + index * conf.step))
  {
    RenderedReadsBack(prop, conf.start + index * conf.step, conf);
  }

  lemma RenderedReadsBack(prop: H.EntityProperty, n: int, conf: IncrementConfig)
    requires conf.prefix == "" && conf.suffix == ""
    ensures Rendered(prop, n, conf) == JNum(n) || (Rendered(prop, n, conf).JStr? && ParseInt(Rendered(prop, n, conf).s) == Finite(n))
  {
    if Rendered(prop, n, conf).JStr? {
      assert Rendered(prop, n, conf).s == IntToString(n);
      ParseIntRoundTrip(n);
    }
  }

  /** `generateValue(strategyValue, prop, index, incrementConfig)`. The random
      sources are parameters: `random` is the `Math.random()` draw used by the
      age strategy, `drawn` the value the Faker method returned. */
  function GenerateValue(strategyValue: string, prop: H.EntityProperty, index: int, config: Option<IncrementConfig>,
                         random: real, drawn: Json): (r: Option<Json>)
    requires 0.0 <= random < 1.0
  {
    match FindStrategy(AllStrategies, strategyValue)
    case None => Some(JNull)
    case Some(s) =>
      if s.kind == CustomNull then Some(JNull)
      else if s.kind == CustomEmpty then Some(JStr(""))
      else if s.kind == CustomPlaceholder then Some(JStr("__PLACEHOLDER_VALUE__"))
      else if s.kind == CustomAge then Enforce(JNum((random * 73.0).Floor + 18), prop)
      else if s.kind == CustomIncrement then
        Some(Increment(prop, index, if config.Some? then config.value else DefaultIncrement))
      else if s.kind == Faker && s.fakerModule.Some? && s.fakerMethod.Some? then Enforce(drawn, prop)
      else Enforce(JNull, prop)
  }

  /** The age strategy yields an age from 18 to 90; for an integer property
      it is that number, since every integer range holds it. */
  lemma AgeInRange(prop: H.EntityProperty, index: int, config: Option<IncrementConfig>, random: real, drawn: Json)
    requires 0.0 <= random < 1.0 && prop.typeName in IntegerTypes
    ensures var r := GenerateValue("custom.age", prop, index, config, random, drawn);
            r.Some? && r.value.JNum? && 18 <= r.value.n <= 90
  {
    FindCustomAge();
    var k := (random * 73.0).Floor;
    assert 0 <= k <= 72 by {
      assert 0.0 <= random * 73.0 < 73.0;
    }
  }

  /** Rows generated by an increment column with a non-zero step differ. */
  lemma GeneratedIncrementsDistinct(prop: H.EntityProperty, i: int, j: int, config: Option<IncrementConfig>,
                                    random: real, drawn: Json)
    requires 0.0 <= random < 1.0 && i != j
    requires (if config.Some? then config.value else DefaultIncrement).step != 0
    ensures GenerateValue("custom.increment", prop, i, config, random, drawn)
            != GenerateValue("custom.increment", prop, j, config, random, drawn)
  {
    FindCustomIncrement();
    IncrementDistinct(prop, i, j, if config.Some? then config.value else DefaultIncrement);
  }

  /** An increment column ignores the property's range: an `Edm.Byte`
      property with the default configuration gets 257 in row 256. */
  lemma IncrementIgnoresRange(prop: H.EntityProperty, random: real, drawn: Json)
    requires 0.0 <= random < 1.0 && prop.typeName == "Edm.Byte"
    ensures GenerateValue("custom.increment", prop, 256, None, random, drawn) == Some(JNum(257))
  {
    FindCustomIncrement();
  }

  /** An unknown strategy gives null. */
  lemma UnknownGivesNull(value: string, prop: H.EntityProperty, index: int, config: Option<IncrementConfig>,
                         random: real, drawn: Json)
    requires 0.0 <= random < 1.0 && FindStrategy(AllStrategies, value).None?
    ensures GenerateValue(value, prop, index, config, random, drawn) == Some(JNull)
  {
  }

  /** The strategies that ignore the property: `custom.null` gives null,
      `custom.empty` the empty string and `custom.placeholder` the
      placeholder text. */
  lemma FixedValues(prop: H.EntityProperty, index: int, config: Option<IncrementConfig>, random: real, drawn: Json)
    requires 0.0 <= random < 1.0
    ensures GenerateValue("custom.null", prop, index, config, random, drawn) == Some(JNull)
    ensures GenerateValue("custom.empty", prop, index, config, random, drawn) == Some(JStr(""))
    ensures GenerateValue("custom.placeholder", prop, index, config, random, drawn) == Some(JStr("__PLACEHOLDER_VALUE__"))
  {
    FindCustomNull();
    FindCustomEmpty();
    FindCustomPlaceholder();
  }

  /** Values drawn from Faker for a text property respect its maximum length. */
  lemma FakerRespectsMaxLength(value: string, prop: H.EntityProperty, index: int, config: Option<IncrementConfig>,
                               random: real, drawn: Json, n: int)
    requires 0.0 <= random < 1.0 && prop.typeName == "Edm.String" && prop.maxLength == Some(Finite(n)) && n > 0
    requires FindStrategy(AllStrategies, value).Some? && FindStrategy(AllStrategies, value).value.kind == Faker
    ensures var r := GenerateValue(value, prop, index, config, random, drawn);
            r.Some? && (r.value.JNull? || (r.value.JStr? && |r.value.s| <= n))
  {
  }

  // `find` on each strategy value the rules below name (one lemma per value
  // keeps each literal search small).

  lemma FindCustomNull()
    ensures FindStrategy(AllStrategies, "custom.null") == Some(AllStrategies[0])
  {
    FoundAt(AllStrategies, "custom.null", 0);
  }

  lemma FindCustomEmpty()
    ensures FindStrategy(AllStrategies, "custom.empty") == Some(AllStrategies[1])
  {
    FoundAt(AllStrategies, "custom.empty", 1);
  }

  lemma FindCustomPlaceholder()
    ensures FindStrategy(AllStrategies, "custom.placeholder") == Some(AllStrategies[2])
  {
    FoundAt(AllStrategies, "custom.placeholder", 2);
  }

  lemma FindCustomIncrement()
    ensures FindStrategy(AllStrategies, "custom.increment") == Some(AllStrategies[3])
  {
    FoundAt(AllStrategies, "custom.increment", 3);
  }

  lemma FindPersonFullName()
    ensures FindStrategy(AllStrategies, "person.fullName") == Some(AllStrategies[4])
  {
    FoundAt(AllStrategies, "person.fullName", 4);
  }

  lemma FindCustomAge()
    ensures FindStrategy(AllStrategies, "custom.age") == Some(AllStrategies[5])
  {
    FoundAt(AllStrategies, "custom.age", 5);
  }

  lemma FindPersonFirstName()
    ensures FindStrategy(AllStrategies, "person.firstName") == Some(AllStrategies[6])
  {
    FoundAt(AllStrategies, "person.firstName", 6);
  }

  lemma FindPersonLastName()
    ensures FindStrategy(AllStrategies, "person.lastName") == Some(AllStrategies[7])
  {
    FoundAt(AllStrategies, "person.lastName", 7);
  }

  lemma FindInternetEmail()
    ensures FindStrategy(AllStrategies, "internet.email") == Some(AllStrategies[8])
  {
    FoundAt(AllStrategies, "internet.email", 8);
  }

  lemma FindInternetUrl()
    ensures FindStrategy(AllStrategies, "internet.url") == Some(AllStrategies[9])
  {
    FoundAt(AllStrategies, "internet.url", 9);
  }

  lemma FindLocationCity()
    ensures FindStrategy(AllStrategies, "location.city") == Some(AllStrategies[10])
  {
    FoundAt(AllStrategies, "location.city", 10);
  }

  lemma FindLocationCountry()
    ensures FindStrategy(AllStrategies, "location.country") == Some(AllStrategies[11])
  {
    FoundAt(AllStrategies, "location.country", 11);
  }

  lemma FindLocationStreetAddress()
    ensures FindStrategy(AllStrategies, "location.streetAddress") == Some(AllStrategies[12])
  {
    FoundAt(AllStrategies, "location.streetAddress", 12);
  }

  lemma FindLocationZipCode()
    ensures FindStrategy(AllStrategies, "location.zipCode") == Some(AllStrategies[13])
  {
    FoundAt(AllStrategies, "location.zipCode", 13);
  }

  lemma FindLocationState()
    ensures FindStrategy(AllStrategies, "location.state") == Some(AllStrategies[14])
  {
    FoundAt(AllStrategies, "location.state", 14);
  }

  lemma FindDateRecent()
    ensures FindStrategy(AllStrategies, "date.recent") == Some(AllStrategies[15])
  {
    FoundAt(AllStrategies, "date.recent", 15);
  }

  lemma FindCommerceProductName()
    ensures FindStrategy(AllStrategies, "commerce.productName") == Some(AllStrategies[16])
  {
    FoundAt(AllStrategies, "commerce.productName", 16);
  }

  lemma FindCommercePrice()
    ensures FindStrategy(AllStrategies, "commerce.price") == Some(AllStrategies[17])
  {
    FoundAt(AllStrategies, "commerce.price", 17);
  }

  lemma FindPhoneNumber()
    ensures FindStrategy(AllStrategies, "phone.number") == Some(AllStrategies[18])
  {
    FoundAt(AllStrategies, "phone.number", 18);
  }

  lemma FindLoremWord()
    ensures FindStrategy(AllStrategies, "lorem.word") == Some(AllStrategies[19])
  {
    FoundAt(AllStrategies, "lorem.word", 19);
  }

  lemma FindNumberInt()
    ensures FindStrategy(AllStrategies, "number.int") == Some(AllStrategies[20])
  {
    FoundAt(AllStrategies, "number.int", 20);
  }

  lemma FindStringUuid()
    ensures FindStrategy(AllStrategies, "string.uuid") == Some(AllStrategies[21])
  {
    FoundAt(AllStrategies, "string.uuid", 21);
  }

  lemma FindDatatypeBoolean()
    ensures FindStrategy(AllStrategies, "datatype.boolean") == Some(AllStrategies[22])
  {
    FoundAt(AllStrategies, "datatype.boolean", 22);
  }
}
