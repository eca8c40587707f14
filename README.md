# ODataTool8 core, modelled in Dafny

ODataTool8 is a browser extension for exploring OData services. This project
models the parts of it that compute, as opposed to the parts that draw or
fetch:

- the service-root and `$metadata` URL rules and the version sniffing of
  metadata text (`utils/odata-helper.ts`);
- the dashboard's metadata parser, which turns an EDMX document into
  entity types, complex types, navigation properties with their
  association-derived targets and constraints, and entity sets
  (`utils/odata-helper.ts`);
- a second, divergent parser and version detector (`utils/odata/parser.ts`,
  `utils/odata/detection.ts`), kept as a separate module and related to the
  first by lemmas;
- the walk over selected result rows that gives each one its entity set,
  entity type, key predicate and URI (`utils/odata-traversal.ts`);
- the greedy colouring of the ER diagram and its palettes
  (`components/er-diagram/utils.ts`);
- the table's data-shape helpers: expandability, the recursive selection
  flag and the `datetime-local` conversions
  (`components/query-builder/table/utils.ts`);
- the mock-data rules: the strategy table, compatibility, flattening of
  complex properties, the default strategy, the deterministic value
  strategies and the clamping of values (`components/mock-data/mock-utils.ts`);
- the planning behind the Excel export: which rows go to which sheet, in
  which order, under which de-duplicated sheet name
  (`components/query-builder/table/excel-export.ts`);
- the assignment of edge handles and their offsets in the ER layout
  (`components/er-diagram/layout.ts`).

An XML document is an abstract element tree (`xml.dfy`) with
`getElementsByTagName` as a pre-order search and `getAttribute` as a
first-match lookup. A JavaScript value is the `Json` datatype (`json.dfy`),
whose objects are ordered key/value lists (`records.dfy`), so insertion
order and "last assignment wins" are explicit. JavaScript exceptions that
the modelled code can raise (a `TypeError` on a non-string field, the
parser's missing-`Schema` error) are `Err` results.

Loops in the source are methods with loop invariants, each proved equal to
a specification function; the properties the source promises are proved
about those functions as lemmas.

## Model

| member | source | states |
|---|---|---|
| ODataHelper.CleanUrl | utils/odata-helper.ts:59 | the cleaned URL is a prefix of the trimmed URL and holds neither `#` nor `?` |
| ODataHelper.GetServiceRoot | utils/odata-helper.ts:58-85 | the service root is a prefix of the cleaned URL |
| ODataHelper.ServiceRootStripsMetadata | utils/odata-helper.ts:61-67 | when the cleaned URL ends in `$metadata` (any case), what is cut off is exactly `/$metadata`, or `$metadata` when no `/` precedes it |
| ODataHelper.ServiceRootCutsAtSvc | utils/odata-helper.ts:69-74 | otherwise, if `.svc` occurs (any case), the root ends at the first `.svc` |
| ODataHelper.ServiceRootCutsAtOData | utils/odata-helper.ts:76-81 | otherwise, if `/odata/` occurs, the root ends just before the `/` that follows the first `/odata`, and holds no `/odata/` |
| ODataHelper.ODataRoot | utils/odata-helper.ts:78-80 | in that case the root is the cleaned URL up to the first `/odata/` index plus 6 |
| ODataHelper.ServiceRootDropsSlash | utils/odata-helper.ts:83-84 | otherwise exactly one trailing `/` is dropped, and a URL without one is returned unchanged |
| ODataHelper.GetMetadataUrl | utils/odata-helper.ts:88-91 | the metadata URL ends in `/$metadata` and what precedes it is a prefix of the cleaned URL |
| ODataHelper.RootOfMetadataUrl | utils/odata-helper.ts:62-63 | the rules map `root + "/$metadata"` back to `root` |
| ODataHelper.CleanMetadataUrl | utils/odata-helper.ts:59 | cleaning a metadata URL changes nothing |
| ODataHelper.MetadataUrlRoundTrip | utils/odata-helper.ts:58-91 | the service root of a URL's metadata URL is the URL's own service root |
| ODataHelper.ParseVersionFromXml | utils/odata-helper.ts:94-99 | V4 exactly when `Version="4.0"` occurs; V2 exactly when it does not and `Version="1.0"` or `Version="2.0"` does; V3 exactly when only `Version="3.0"` does; Unknown exactly when none of the four markers occurs |
| ODataHelper.VersionMonotone | utils/odata-helper.ts:94-99 | adding text before or after never lowers the answer in the order Unknown, V3, V2, V4 |
| ODataHelper.VersionV4Dominates | utils/odata-helper.ts:95 | a text read as V4 stays V4 whatever is added around it |
| ODataHelper.CollectCustomAttributes | utils/odata-helper.ts:212-219 | the attribute loop builds the custom-attribute record |
| ODataHelper.ParseProperties | utils/odata-helper.ts:186-236 | the loop yields one parsed property per `Property` below the element, in document order |
| ODataHelper.ParsePropertyNode | utils/odata-helper.ts:197-233 | one `Property` element is read field by field |
| ODataHelper.PropertyListAt | utils/odata-helper.ts:196-234 | the i-th property is the reading of the i-th `Property` element |
| ODataHelper.PropertyFlags | utils/odata-helper.ts:203-208 | the definition of the boolean facets: `nullable` and `unicode` unless written exactly "false", `fixedLength` only when written exactly "true"; a missing `Nullable` means nullable |
| ODataHelper.CustomRecordExact | utils/odata-helper.ts:191-194 | the custom attributes are exactly the attributes outside the ten standard names and not starting with `xmlns`, each once, with the value of its last occurrence |
| ODataHelper.CustomAttributesPresence | utils/odata-helper.ts:232 | `customAttributes` is present exactly when some attribute is custom |
| ODataHelper.AssociationIndexKeys | utils/odata-helper.ts:255-295 | a key is in the association index exactly when some named association is stored under it (as `ns.Name`, or as `Name`) |
| ODataHelper.AssociationIndexLastWriter | utils/odata-helper.ts:292-294 | under each key the index holds the last association stored there |
| ODataHelper.RolesWellFormed | utils/odata-helper.ts:263-270 | each role maps to an end carrying that role and a non-empty multiplicity |
| ODataHelper.EndLastWins | utils/odata-helper.ts:265-269 | the last `End` with a role wins; a missing multiplicity is "1" |
| ODataHelper.V4TargetUnwrap | utils/odata-helper.ts:357-359 | `Collection(X)` gives target X and multiplicity `*` |
| ODataHelper.V4Constraints | utils/odata-helper.ts:364-369 | at most one constraint per `ReferentialConstraint`, each with a non-empty property and referenced property |
| ODataHelper.OrientedConstraintMirror | utils/odata-helper.ts:385-392 | reading an association from the other end yields the mirrored constraint |
| ODataHelper.OrientedConstraintRoles | utils/odata-helper.ts:385-392 | a constraint is emitted exactly when the from/to roles are the principal and dependent roles in one order or the other |
| ODataHelper.FindAssociation | utils/odata-helper.ts:372 | the full relationship name is tried first, then its last dotted segment |
| ODataHelper.UnresolvedNavigation | utils/odata-helper.ts:350-353 | a navigation that cannot be resolved keeps a null target, empty multiplicities and no constraints |
| ODataHelper.V4Navigation | utils/odata-helper.ts:355-363 | a `Collection(X)` type gives X with `*`; any other type is kept verbatim with "1" |
| ODataHelper.RelationshipLookup | utils/odata-helper.ts:293-294 | an association is found both by its bare name and by a qualified name |
| ODataHelper.SetsOf | utils/odata-helper.ts:301-308 | only entity sets with a non-empty name and type are kept |
| ODataHelper.ContainerSets | utils/odata-helper.ts:298-309 | the same, over every container |
| ODataHelper.KeyNames | utils/odata-helper.ts:334-335 | one key per `PropertyRef`, in order, a missing name read as "" |
| ODataHelper.IndexAssociations | utils/odata-helper.ts:255-295 | the association loop builds the association index |
| ODataHelper.CollectRoles | utils/odata-helper.ts:263-270 | the `End` loop builds the role map |
| ODataHelper.CollectEntitySets | utils/odata-helper.ts:298-309 | the container loop collects the entity sets of every container of the document |
| ODataHelper.PushEntitySets | utils/odata-helper.ts:301-308 | the set loop of one container |
| ODataHelper.ReadAssociation | utils/odata-helper.ts:373-393 | target type and multiplicities from the named ends, constraint oriented from `fromRole` to `toRole` |
| ODataHelper.ResolveNavigationProperty | utils/odata-helper.ts:343-403 | one navigation property is resolved as the V4 or V2/V3 rules say |
| ODataHelper.CollectV4Constraints | utils/odata-helper.ts:364-369 | the V4 constraint loop |
| ODataHelper.ParseNavigationProperties | utils/odata-helper.ts:340-404 | one resolved navigation per `NavigationProperty`, in order |
| ODataHelper.ParseEntityTypes | utils/odata-helper.ts:323-407 | one entity type per `EntityType` of the schema, in order |
| ODataHelper.ParseComplexTypes | utils/odata-helper.ts:311-321 | one complex type per `ComplexType`, without keys or navigations |
| ODataHelper.ParseEntityTypeNode | utils/odata-helper.ts:327-406 | one entity type: name (default "Unknown"), keys, properties, navigations |
| ODataHelper.ParseKeys | utils/odata-helper.ts:331-336 | the keys are the `PropertyRef` names of the first `Key` |
| ODataHelper.ParseMetadataToSchema | utils/odata-helper.ts:239-410 | the parse of a document; with no `Schema` it is the empty schema with namespace "" |
| ODataParser.DocumentVersion | utils/odata/parser.ts:50-56 | never V3; V4 exactly when the Edmx element's `Version` is "4.0"; V2 exactly when it is "1.0" |
| ODataParser.PropertyMatchesPrimary | utils/odata/parser.ts:14-39 | a property is read as the dashboard's parser reads it, except that the type is trimmed |
| ODataParser.PropertyListsAgree | utils/odata/parser.ts:5-42 | whole property lists agree in the same way |
| ODataParser.ParseProperties | utils/odata/parser.ts:5-42 | the loop yields one property per `Property` element |
| ODataParser.ParsePropertyNode | utils/odata/parser.ts:15-39 | one `Property` element |
| ODataParser.PairConstraints | utils/odata/parser.ts:110-117 | min(counts) constraints; the k-th takes its source from the k-th dependent reference and its target from the k-th principal reference |
| ODataParser.PairRefs | utils/odata/parser.ts:112-117 | the pairing loop |
| ODataParser.ParseNavigation | utils/odata/parser.ts:121-125 | constraints are absent rather than empty |
| ODataParser.CollectionKeptVerbatim | utils/odata/parser.ts:94 | a `Collection(X)` type is kept verbatim here, where the dashboard's parser unwraps it to X |
| ODataParser.ParseNavigationNode | utils/odata/parser.ts:92-125 | one navigation, with the `[Association: rel -> toRole]` placeholder |
| ODataParser.ParseKeys | utils/odata/parser.ts:76-83 | the keys are the `PropertyRef` names of the first `Key` |
| ODataParser.ParseEntityTypeNode | utils/odata/parser.ts:72-128 | one entity type with the schema's namespace |
| ODataParser.EntityAt | utils/odata/parser.ts:70-129 | the i-th entity is the reading of the i-th `EntityType` |
| ODataParser.ParsedSchemaShape | utils/odata/parser.ts:62-150 | one entity per `EntityType` of the first `Schema`, each with the schema's namespace; one entity set per `EntitySet` of that schema's containers |
| ODataParser.ParsersAgreeOnTypes | utils/odata/parser.ts:59-138 | against the dashboard's parser: no `Schema` is an error here and the empty schema there; otherwise the namespace, the entity and complex types, their order, keys, navigation counts and properties (up to type trimming) agree, and names agree unless missing ("" here, "Unknown" there) |
| ODataParser.CollectEntitySets | utils/odata/parser.ts:141-150 | the container loop over the first schema's containers |
| ODataParser.PushEntitySets | utils/odata/parser.ts:143-149 | every `EntitySet` is kept, with "" for missing attributes |
| ODataParser.ParseEntityTypes | utils/odata/parser.ts:70-129 | the entity-type loop |
| ODataParser.ParseComplexTypeNode | utils/odata/parser.ts:134-137 | one complex type |
| ODataParser.ParseComplexTypes | utils/odata/parser.ts:132-138 | the complex-type loop |
| ODataParser.ParseMetadataToSchema | utils/odata/parser.ts:45-153 | the parse of a document; an error exactly when it has no `Schema` |
| Detection.DetectContent | utils/odata/detection.ts:14-24 | the markers in source order; `Version="4.0"` always gives V4; Unknown exactly when no marker matches |
| Detection.DetectorsAgreeOnV4 | utils/odata/detection.ts:14 | whatever the dashboard's sniffer reads as V4, this detector does too |
| Detection.DetectorsOnV3 | utils/odata/detection.ts:18 | whatever this detector reads as V3 the dashboard's sniffer reads as V3 or V2 |
| Detection.ProbeMetadataUrl | utils/odata/detection.ts:31-46 | the result ends in `$metadata` (any case) and extends the trimmed URL; it is the trimmed URL when that already ends in `$metadata`, else it adds `$metadata` or `/$metadata` |
| Detection.ProbeTrimmed | utils/odata/detection.ts:33-42 | the probed URL has no surrounding white space |
| Detection.ProbeIdempotent | utils/odata/detection.ts:31-46 | probing a probed URL changes nothing |
| Traversal.FirstSetFor | utils/odata-traversal.ts:13 | the index of the first entity set whose type is the short name or ends in `.` + short name |
| Traversal.FindEntitySetFirst | utils/odata-traversal.ts:10-15 | a set is found exactly when the schema is present and some set matches, and it is the first matching one; no schema gives null |
| Traversal.FirstTypeNamed | utils/odata-traversal.ts:20 | the index of the first entity type named exactly the short name |
| Traversal.FindEntityTypeObj | utils/odata-traversal.ts:18-21 | the type found has exactly that name and belongs to the schema; null exactly when the schema is missing or no type has that name |
| Traversal.FirstPresent | utils/odata-traversal.ts:33-35 | the first of the fallback key names present on the item, or none exactly when none is present |
| Traversal.KeyParts | utils/odata-traversal.ts:47-51 | one `K=V` part per key, in key order |
| Traversal.GetKeyPredicate | utils/odata-traversal.ts:24-54 | an error exactly for a null item (reading `item[k]` throws); otherwise the key predicate |
| Traversal.KeyPredicateExists | utils/odata-traversal.ts:27-38 | a predicate exists exactly when the type declares keys or one of ID, Id, id, Uuid, UUID, Guid, Key is present |
| Traversal.KeyPredicateParenthesised | utils/odata-traversal.ts:44-52 | a predicate is wrapped in parentheses |
| Traversal.KeyPredicateNamesKeys | utils/odata-traversal.ts:40-53 | every chosen key's `K=V` part occurs in the predicate |
| Traversal.DeclaredKeysWin | utils/odata-traversal.ts:28-29 | declared keys are used, in declared order, whenever there are any |
| Traversal.AnnouncedType | utils/odata-traversal.ts:75-77 | the type a row announces: `__metadata.type`, else `@odata.type`; an error exactly when the latter is used and is not a string |
| Traversal.NodeTypeName | utils/odata-traversal.ts:73-77 | a type name, when there is one, is non-empty; non-objects announce none |
| Traversal.Heal | utils/odata-traversal.ts:69-86 | a supplied set or type is never replaced; a full context or a non-object is left alone; without a schema or a type name nothing changes; a filled set is the lookup of a non-empty short name |
| Traversal.HealFills | utils/odata-traversal.ts:79-84 | an empty context is filled with the set and type found for the short name |
| Traversal.HealFails | utils/odata-traversal.ts:72-80 | healing fails exactly when it is attempted and the announced type is not a string (always for `@odata.type`, with a schema for `__metadata.type`) |
| Traversal.FindNav | utils/odata-traversal.ts:115 | the navigation found has the key's name; none exactly when no navigation has it |
| Traversal.ChildContext | utils/odata-traversal.ts:110-125 | without a parent type or a navigation of that name the child context is null; a child type belongs to the schema |
| Traversal.ChildContextCollection | utils/odata-traversal.ts:117-123 | a `Collection(X)` navigation gives the set and type of X's short name |
| Traversal.Unwrap | utils/odata-traversal.ts:100-103 | the `results` array of a wrapper, else the value itself |
| Traversal.ChildItems | utils/odata-traversal.ts:127 | the items recursed into lie inside the value |
| Traversal.ListSelected | utils/odata-traversal.ts:89-91 | every task the walk emits is for a row with `__selected === true` |
| Traversal.ListRowsPreorder | utils/odata-traversal.ts:66-135 | when the walk over a list succeeds, its tasks' rows are the selected rows of the list's trees, in pre-order |
| Traversal.NodeRowsPreorder | utils/odata-traversal.ts:88-134 | for one row: the row itself first when selected, then the selected rows below it |
| Traversal.ChildRowsPreorder | utils/odata-traversal.ts:95-133 | for the entries of a row, in key order, skipping `__metadata`, `__deferred` and `__selected` |
| Traversal.EntryRowsPreorder | utils/odata-traversal.ts:97-131 | for one entry, through the `results` unwrapping |
| Traversal.CollectedPreorder | utils/odata-traversal.ts:58-137 | `collectSelectedItemsWithContext`, when it does not throw, emits exactly the selected rows, each once, in depth-first pre-order |
| Traversal.SelectedRowCollected | utils/odata-traversal.ts:88-91 | a selected top-level row is emitted with its healed context |
| Traversal.NullRowFails | utils/odata-traversal.ts:89 | a null row makes the walk throw |
| Traversal.ListErrSticks | utils/odata-traversal.ts:66 | once the walk has thrown, later rows do not change the outcome |
| Traversal.CollectItems | utils/odata-traversal.ts:66-135 | the row loop computes the walk over a list |
| Traversal.VisitNode | utils/odata-traversal.ts:67-134 | the loop body for one row |
| Traversal.VisitEntries | utils/odata-traversal.ts:94-134 | the entry loop of one row |
| Traversal.VisitEntry | utils/odata-traversal.ts:95-132 | one entry of a row |
| Traversal.UrlField | utils/odata-traversal.ts:146-160 | a set URI field is usable exactly when it is a string, and then it is that non-empty string; otherwise the error the source's method call raises |
| Traversal.CleanBase | utils/odata-traversal.ts:142 | the cleaned base URL ends in `/` |
| Traversal.JoinBaseOneSlash | utils/odata-traversal.ts:153-159 | a relative link is joined to the base with exactly one `/`, whether or not the base had a trailing `/` |
| Traversal.FirstMatch | utils/odata-traversal.ts:164 | the first position at which the `/Name(...)` pattern matches up to the end, or none exactly when it matches nowhere |
| Traversal.LastSegmentPredicate | utils/odata-traversal.ts:164-165 | a URI ending in `/Name(args)` has a match, and the predicate ends in `Name(args)` |
| Traversal.ItemUri | utils/odata-traversal.ts:140-178 | a null item is an error; a URL is given exactly when a predicate is |
| Traversal.MetadataUriVerbatim | utils/odata-traversal.ts:146-166 | a string `__metadata.uri` is used verbatim, with the predicate taken from it |
| Traversal.MalformedUriFails | utils/odata-traversal.ts:146-164 | a non-string `__metadata.uri` fails at `.match`, a non-string `@odata.id` at `.startsWith` |
| Traversal.FallbackUri | utils/odata-traversal.ts:169-177 | without an explicit URI, a URL exists exactly when the set is known and a key predicate is found, and it is base + set + predicate |
| Traversal.FindExplicitUri | utils/odata-traversal.ts:141-161 | the local `explicitUri` as the source refines it |
| Traversal.ResolveItemUri | utils/odata-traversal.ts:140-178 | the method computes the URI and predicate of an item |
| DiagramColors.PaletteLength | components/er-diagram/utils.ts:93 | the palette length is 8 in dark mode and 9 in light mode, the length of the palette used |
| DiagramColors.JsRem | components/er-diagram/utils.ts:68 | JavaScript's `%`: Euclidean for a non-negative index, non-positive for a negative one |
| DiagramColors.GetColorPeriodic | components/er-diagram/utils.ts:66-69 | a non-negative index selects `palette[index % length]`, and the colour repeats with the palette's period |
| DiagramColors.ThemeMatchesPalette | components/er-diagram/utils.ts:71-86 | a theme's header is the colour `getColor` gives; the dark theme always has the fixed body, nav, border and text colours |
| DiagramColors.ThemeHeaders | components/er-diagram/utils.ts:14-64 | the light themes' headers are the light palette, in order |
| DiagramColors.TargetShort | components/er-diagram/utils.ts:102-105 | a navigation target, stripped of `Collection(...)` and its namespace, is non-empty and dotless |
| DiagramColors.AdjacencyWellFormed | components/er-diagram/utils.ts:98-114 | the adjacency is symmetric and has no self-loops |
| DiagramColors.AdjacencyMembers | components/er-diagram/utils.ts:99-114 | b is a neighbour of a exactly when some entity's navigation links them, in either direction; a is a node exactly when it is an entity or a navigation end |
| DiagramColors.AdjacencyOrderFree | components/er-diagram/utils.ts:98-114 | the adjacency does not depend on the order of the entities |
| DiagramColors.BeforeTotal | components/er-diagram/utils.ts:118-123 | the sort order (degree descending, then name) is total |
| DiagramColors.BeforeTransitive | components/er-diagram/utils.ts:118-123 | and transitive |
| DiagramColors.Insert | components/er-diagram/utils.ts:118 | inserting adds exactly the element |
| DiagramColors.InsertSorted | components/er-diagram/utils.ts:118-123 | inserting into a sorted list keeps it sorted |
| DiagramColors.SortForColoring | components/er-diagram/utils.ts:118-123 | the entities sorted by degree descending, then name, as a permutation of the input |
| DiagramColors.SortedUnique | components/er-diagram/utils.ts:118-123 | for distinct names there is only one sorted permutation |
| DiagramColors.MinFree | components/er-diagram/utils.ts:133-151 | -1 exactly when every colour is taken; otherwise a free colour with the least global usage, ties to the lowest index |
| DiagramColors.LocalCounts | components/er-diagram/utils.ts:154-159 | the count of each colour among coloured neighbours |
| DiagramColors.MinLocal | components/er-diagram/utils.ts:161-175 | the colour with the least local count, then least global usage, then lowest index |
| DiagramColors.Pick | components/er-diagram/utils.ts:141-176 | the chosen colour lies in the palette |
| DiagramColors.PickFree | components/er-diagram/utils.ts:143-151 | when some colour is free, the choice differs from every coloured neighbour and has the least usage among free colours |
| DiagramColors.PickFallback | components/er-diagram/utils.ts:152-176 | when none is free, the choice minimises the local count, then the global usage, then the index |
| DiagramColors.InitialUsage | components/er-diagram/utils.ts:96 | every colour starts with usage 0 |
| DiagramColors.ColorRun | components/er-diagram/utils.ts:125-180 | every colour assigned lies in [0, palette length) |
| DiagramColors.UsageCounts | components/er-diagram/utils.ts:178-179 | after the run each colour's usage is the number of entities assigned to it |
| DiagramColors.EveryEntityColored | components/er-diagram/utils.ts:178 | every processed entity gets a colour, the one chosen at its last turn |
| DiagramColors.ColoringOrderFree | components/er-diagram/utils.ts:92-183 | for distinct names the colouring does not depend on the order of the entities |
| DiagramColors.BuildAdjacency | components/er-diagram/utils.ts:98-114 | the adjacency loop |
| DiagramColors.AddEntityEdges | components/er-diagram/utils.ts:100-113 | the edges of one entity |
| DiagramColors.AddNavEdge | components/er-diagram/utils.ts:102-112 | the edges of one navigation |
| DiagramColors.CollectNeighborColors | components/er-diagram/utils.ts:126-131 | the colours of the coloured neighbours |
| DiagramColors.CountNeighborColors | components/er-diagram/utils.ts:154-159 | the local counts, in a fresh array |
| DiagramColors.ColorEntity | components/er-diagram/utils.ts:126-179 | one entity gets the chosen colour and that colour's usage goes up by one, nothing else changes |
| DiagramColors.FreeScan | components/er-diagram/utils.ts:134-151 | the scan for the least-used free colour |
| DiagramColors.LocalScan | components/er-diagram/utils.ts:161-175 | the fallback scan |
| DiagramColors.ColorNext | components/er-diagram/utils.ts:125-180 | one step of the colouring loop |
| DiagramColors.ColorInOrder | components/er-diagram/utils.ts:125-180 | the colouring loop over the sorted entities |
| DiagramColors.ComputeGraphColoring | components/er-diagram/utils.ts:92-183 | `computeGraphColoring` computes the greedy colouring |
| TableUtils.IsExpandableData | components/query-builder/table/utils.ts:4-16 | false for falsy values, Dates and non-object primitives; for arrays, true exactly when non-empty; false for an object with `__deferred` or whose only key is `__metadata`; true for every other object |
| TableUtils.Update | components/query-builder/table/utils.ts:19-39 | truthiness and kind are kept; an array keeps its length; an object ends with `__selected` equal to the flag; any other value is unchanged |
| TableUtils.UpdateFields | components/query-builder/table/utils.ts:27-37 | each entry keeps its key and gets its value visited as a child |
| TableUtils.UpdateChild | components/query-builder/table/utils.ts:28-36 | a value that is not expandable is untouched; a `results` wrapper keeps its own `__selected` |
| TableUtils.UpdateGet | components/query-builder/table/utils.ts:26-27 | an updated object has its old keys plus `__selected`, and every other key holds the visited old value |
| TableUtils.ChildExpandable | components/query-builder/table/utils.ts:28 | visiting a value does not change whether it is expandable |
| TableUtils.UpdateMarks | components/query-builder/table/utils.ts:19-39 | afterwards every object reachable through array elements, `results` wrappers and expandable values carries `__selected` equal to the flag; arrays and wrappers themselves are not marked |
| TableUtils.UpdateFixes | components/query-builder/table/utils.ts:19-39 | a value already marked with the flag is left unchanged |
| TableUtils.UpdateIdempotent | components/query-builder/table/utils.ts:19-39 | updating twice with the same flag equals updating once |
| TableUtils.EraseUpdate | components/query-builder/table/utils.ts:26-37 | apart from `__selected` entries nothing changes: removing them at every depth gives the same value before and after |
| TableUtils.ToInputDate | components/query-builder/table/utils.ts:42-50 | "" for falsy input; otherwise a prefix of `String(val)`, of 16 characters when it is at least that long and holds a `T`, and all of it when it holds no `T` |
| TableUtils.FromInputDate | components/query-builder/table/utils.ts:52-57 | null exactly for ""; a 16-character input gets `:00Z` appended; any other input is returned unchanged |
| TableUtils.InputDateRoundTrip | components/query-builder/table/utils.ts:42-57 | for a 16-character input holding a `T`, converting to the OData form and back returns the input |
| TableUtils.ODataDateRoundTrip | components/query-builder/table/utils.ts:42-57 | an OData timestamp with zero seconds survives the conversion to the input form and back |
| MockData.FakerValuesNameTheirCall | components/mock-data/faker-definitions.ts:29-267 | every Faker strategy of the table names both its Faker module and its method |
| MockData.FindStrategy | components/mock-data/mock-utils.ts:39 | `ALL_STRATEGIES.find`: nothing exactly when no entry has the value; otherwise the first entry with that value |
| MockData.InCategory | components/mock-data/mock-utils.ts:29-36 | the strategies of one category: every one of them, and only those, in table order |
| MockData.Categories | components/mock-data/mock-utils.ts:29-36 | every strategy's category is among the group keys |
| MockData.GroupedPartition | components/mock-data/mock-utils.ts:29-36 | the groups map each category that occurs to its strategies in table order, and no other key |
| MockData.GroupByCategory | components/mock-data/mock-utils.ts:29-36 | the `forEach` loop builds the grouping |
| MockData.PushStrategy | components/mock-data/mock-utils.ts:31-34 | one step: create the category's list if missing, then append |
| MockData.GetGroupedStrategies | components/mock-data/mock-utils.ts:27-36 | `getGroupedStrategies` groups the whole strategy table |
| MockData.IsStrategyCompatible | components/mock-data/mock-utils.ts:38-49 | true exactly when the strategy exists and either allows every type, or the type is an integer type and the strategy is `number.int` or of the age kind, or its allowed types list the type |
| MockData.SuggestionCompatible | components/mock-data/mock-utils.ts:80-120 | the suggested strategy suits the property's type except for `Edm.Single` and for types mentioning `Date` other than `Edm.DateTime`/`Edm.DateTimeOffset`, and in those cases it does not |
| MockData.SuggestionListed | components/mock-data/mock-utils.ts:80-120 | every suggestion names a strategy of the table |
| MockData.SingleSuggestion | components/mock-data/mock-utils.ts:96 | an `Edm.Single` property is given `commerce.price` |
| MockData.DateSuggestion | components/mock-data/mock-utils.ts:85-92 | a type mentioning `Date` is given `date.recent` |
| MockData.AgeRuleMatchesInsideWords | components/mock-data/mock-utils.ts:85-87 | the age rule is a substring test: text properties named `message` or `manager` get `custom.age` |
| MockData.AgeRuleCompatible | components/mock-data/mock-utils.ts:85-87 | the age rule only fires for types the age strategy suits |
| MockData.FixedRuleCompatible | components/mock-data/mock-utils.ts:90-91 | the Boolean and Guid rules give suitable strategies |
| MockData.DateRuleCompatible | components/mock-data/mock-utils.ts:92 | `date.recent` suits a `Date` type exactly when it is `Edm.DateTime` or `Edm.DateTimeOffset` |
| MockData.NumberRuleCompatible | components/mock-data/mock-utils.ts:95-96 | the number rules give a suitable strategy exactly when the type is not `Edm.Single` |
| MockData.StringSuggestionCompatible | components/mock-data/mock-utils.ts:99-117 | every name-based choice for a text property suits `Edm.String` |
| MockData.FirstNamed | components/mock-data/mock-utils.ts:67-69 | the first type with the name (and no keys when asked); nothing only when none qualifies |
| MockData.ComplexFor | components/mock-data/mock-utils.ts:66-69 | the complex type named by the last dotted segment of the property type, or else a keyless entity of that name; nothing when no complex type has that name and no keyless entity does |
| MockData.FlattenLeaves | components/mock-data/mock-utils.ts:52-78 | every flattened entry is a property with no complex type, reached by a dotted path from the prefix |
| MockData.FlattenPrimitive | components/mock-data/mock-utils.ts:62-75 | without complex-typed properties the result is one entry per property, in order, with path `prefix.name` (or `name` for an empty prefix) |
| MockData.FlattenStopsAtDepth | components/mock-data/mock-utils.ts:59 | at a depth above 5 the result is empty |
| MockData.FlattenEntityProperties | components/mock-data/mock-utils.ts:52-78 | the `forEach` loop with its `concat` and `push` computes the flattening |
| MockData.Truncate | components/mock-data/mock-utils.ts:163-164 | a prefix of the text, no longer than a positive maximum length, and cut only when such a maximum is exceeded |
| MockData.IntegerConstraint | components/mock-data/mock-utils.ts:172-183 | `Edm.Byte` lands in 0..255, `Edm.SByte` and `Edm.Int16` clamp to their ranges, values inside the range are kept, the wider types keep the number |
| MockData.Enforce | components/mock-data/mock-utils.ts:160-194 | null stays null; a text property gets the truncated text; an integer property gets a number inside its type's range |
| MockData.EnforceConstraints | components/mock-data/mock-utils.ts:160-194 | `enforceConstraints` as written computes the constraint |
| MockData.EnforceIntegerValue | components/mock-data/mock-utils.ts:167-185 | for an integer type: `parseInt` of the text, 0 for NaN, else the range rule applied to the number |
| MockData.EnforceInteger | components/mock-data/mock-utils.ts:167-185 | the integer branch reassigning `num` step by step |
| MockData.EnforceIdempotent | components/mock-data/mock-utils.ts:160-194 | enforcing a constrained value again changes nothing |
| MockData.EnforceParsesText | components/mock-data/mock-utils.ts:168 | a number written as text is treated like the number itself |
| MockData.IncrementDistinct | components/mock-data/mock-utils.ts:136-142 | with a non-zero step different rows get different values |
| MockData.IncrementReadsBack | components/mock-data/mock-utils.ts:136-142 | without prefix and suffix the value is `start + index * step`, as a number or as its decimal text |
| MockData.AgeInRange | components/mock-data/mock-utils.ts:131-134 | the age strategy gives a number from 18 to 90 for an integer property |
| MockData.GeneratedIncrementsDistinct | components/mock-data/mock-utils.ts:136-142 | the increment strategy (with the default configuration `{1, 1, '', ''}` when none is given) gives distinct values per row |
| MockData.IncrementIgnoresRange | components/mock-data/mock-utils.ts:136-142 | the increment strategy is not clamped: an `Edm.Byte` property gets 257 in row 256 |
| MockData.UnknownGivesNull | components/mock-data/mock-utils.ts:123-124 | an unknown strategy gives null |
| MockData.FixedValues | components/mock-data/mock-utils.ts:126-128 | `custom.null` gives null, `custom.empty` the empty string, `custom.placeholder` the placeholder text |
| MockData.FakerRespectsMaxLength | components/mock-data/mock-utils.ts:144-166 | a Faker value for a text property with a positive maximum length is no longer than it |
| ExcelExport.RemoveFirstSpec | components/query-builder/table/excel-export.ts:22 | `replace('#', '')` leaves a string without `#` unchanged and otherwise cuts out exactly its first `#` |
| ExcelExport.LastSegment | components/query-builder/table/excel-export.ts:18-22 | the part after the last dot, when non-empty: it holds no dot and ends the name |
| ExcelExport.EntityName | components/query-builder/table/excel-export.ts:13-25 | no rows give no name; a null first row is a TypeError; a first row that is not an object gives no name; a name found is non-empty and holds no dot |
| ExcelExport.EntityNameFromFirst | components/query-builder/table/excel-export.ts:15 | only the first row is consulted |
| ExcelExport.EntityNameV2 | components/query-builder/table/excel-export.ts:17-19 | a V2 row typed `ns.Name` in `__metadata` names entity `Name` |
| ExcelExport.EntityNameV4Type | components/query-builder/table/excel-export.ts:21-23 | without `__metadata`, a V4 row's `@odata.type` gives the last dotted segment after its first `#` is removed |
| ExcelExport.EntityNameV4 | components/query-builder/table/excel-export.ts:21-23 | a V4 row typed `#ns.Name` names entity `Name` |
| ExcelExport.AnyDeepExists | components/query-builder/table/excel-export.ts:36-38 | `some` over array elements: true exactly when some element holds a selection |
| ExcelExport.AnyDeepFieldExists | components/query-builder/table/excel-export.ts:51-58 | `some` over an object's entries: true exactly when some entry passes the callback |
| ExcelExport.Reached | components/query-builder/table/excel-export.ts:32-62 | the objects the search visits are objects that are not `results` wrappers |
| ExcelExport.DeepIffReachedSelected | components/query-builder/table/excel-export.ts:32-62 | a value holds a deep selection exactly when one of the objects the search reaches is ticked |
| ExcelExport.SelectedIsDeep | components/query-builder/table/excel-export.ts:46-48 | a ticked object holds a deep selection |
| ExcelExport.SelectAllExports | components/query-builder/table/excel-export.ts:32-62 | after "select all" on an object it holds a deep selection |
| ExcelExport.UnmarkedNotDeep | components/query-builder/table/excel-export.ts:32-62 | a value in which every reachable object is marked unselected holds no deep selection |
| ExcelExport.DeselectAllClearsExport | components/query-builder/table/excel-export.ts:32-62 | after "deselect all" nothing holds a deep selection, so nothing is exported |
| ExcelExport.InsertName | components/query-builder/table/excel-export.ts:194-198 | inserting into the sorted names adds exactly the one name |
| ExcelExport.InsertSorted | components/query-builder/table/excel-export.ts:194-198 | insertion keeps the names in `localeCompare` order |
| ExcelExport.SortNames | components/query-builder/table/excel-export.ts:194-198 | the sort is a permutation of the names |
| ExcelExport.SortNamesSorted | components/query-builder/table/excel-export.ts:194-198 | the sort's result is ordered |
| ExcelExport.Without | components/query-builder/table/excel-export.ts:194-196 | removing the root name removes every copy and keeps every other name's count |
| ExcelExport.SheetOrderPermutation | components/query-builder/table/excel-export.ts:194-198 | ordering the sheets neither drops nor duplicates a sheet |
| ExcelExport.SheetOrderShape | components/query-builder/table/excel-export.ts:194-198 | the root sheet comes first exactly when it is present; the others follow in order, without it |
| ExcelExport.Sanitize | components/query-builder/table/excel-export.ts:203 | the first 31 characters with each of `: \ / ? * [ ]` replaced by `_` and every other character kept |
| ExcelExport.SanitizeFixes | components/query-builder/table/excel-export.ts:203 | a name is left unchanged exactly when it is at most 31 characters and holds none of those characters; sanitizing twice equals once |
| ExcelExport.CandidateInjective | components/query-builder/table/excel-export.ts:207-210 | different counters give different `_n` names |
| ExcelExport.CandidateValid | components/query-builder/table/excel-export.ts:207-210 | a candidate holds no forbidden character, and fits 31 characters while the counter is below 100 |
| ExcelExport.ChosenUnique | components/query-builder/table/excel-export.ts:205-211 | the name picked for a sheet is determined by the names already taken |
| ExcelExport.PickName | components/query-builder/table/excel-export.ts:205-212 | the `while` loop picks the name itself when free, else the first free `_n` candidate from 1 up |
| ExcelExport.ChosenValid | components/query-builder/table/excel-export.ts:205-212 | the picked name is not yet taken and holds no forbidden character |
| ExcelExport.NamesForDistinct | components/query-builder/table/excel-export.ts:200-217 | the names picked one after another are pairwise distinct and valid |
| ExcelExport.FinalNames | components/query-builder/table/excel-export.ts:200-217 | the `forEach` loop picks one name per sheet, pairwise distinct and valid |
| ExcelExport.ChildRows | components/query-builder/table/excel-export.ts:120-128 | an array's elements; a `results` wrapper's array; any other object as a single row |
| ExcelExport.ChildRowsInside | components/query-builder/table/excel-export.ts:120-128 | every child row is the value itself or lies inside it |
| ExcelExport.DeepRows | components/query-builder/table/excel-export.ts:131 | `filter(hasDeepSelection)` is no longer than its input |
| ExcelExport.DeepRowsFacts | components/query-builder/table/excel-export.ts:67 | the filter keeps exactly the rows that hold a deep selection |
| ExcelExport.ChildSheet | components/query-builder/table/excel-export.ts:135-137 | the child sheet is named after the children's entity, else after the key, so it is empty only for an empty key |
| ExcelExport.EnqueueQueued | components/query-builder/table/excel-export.ts:140-146 | queueing non-empty selected rows that lie deeper keeps every queued list non-empty, selected and deeper |
| ExcelExport.FoldQueued | components/query-builder/table/excel-export.ts:112-163 | a row queues only selected rows lying below it |
| ExcelExport.RowQueued | components/query-builder/table/excel-export.ts:106-169 | one row's processing keeps that invariant |
| ExcelExport.CleanAssign | components/query-builder/table/excel-export.ts:114 | a key not starting with `__` keeps a row free of internal keys |
| ExcelExport.FoldClean | components/query-builder/table/excel-export.ts:112-163 | no cell of a built row has a key starting with `__`; an unticked row gets no cells |
| ExcelExport.BatchCount | components/query-builder/table/excel-export.ts:106-169 | a batch writes exactly one row per ticked row |
| ExcelExport.BatchQueued | components/query-builder/table/excel-export.ts:106-169 | a batch queues only non-empty lists of selected rows lying below its own |
| ExcelExport.BatchClean | components/query-builder/table/excel-export.ts:106-169 | every row a batch writes is free of internal keys |
| ExcelExport.StepCell | components/query-builder/table/excel-export.ts:112-163 | one entry writes its expected cell under its key, or nothing, and leaves other cells alone |
| ExcelExport.CellsStep | components/query-builder/table/excel-export.ts:112-163 | the cells of the first entries grow by exactly the next entry's cell |
| ExcelExport.FoldCells | components/query-builder/table/excel-export.ts:112-163 | a ticked row's cells are exactly the expected cells of its entries |
| ExcelExport.RowCells | components/query-builder/table/excel-export.ts:106-169 | each kept key of a ticked row holds its value, its sheet link, or `[0 Selected]`; no other key gets a cell |
| ExcelExport.UnselectedRowWritesNothing | components/query-builder/table/excel-export.ts:149-159 | an unticked row gets no cells |
| ExcelExport.FoldErrSticks | components/query-builder/table/excel-export.ts:112-163 | once an entry throws, the row's result is that error |
| ExcelExport.BatchErrSticks | components/query-builder/table/excel-export.ts:106-169 | once a row throws, the batch's result is that error |
| ExcelExport.ProcessRow | components/query-builder/table/excel-export.ts:106-169 | the per-row body computes the row's cells and the next-level rows |
| ExcelExport.BatchFoldStep | components/query-builder/table/excel-export.ts:106-169 | one step of the batch: a thrown error ends it; otherwise a ticked row's cells are appended |
| ExcelExport.ProcessBatchRow | components/query-builder/table/excel-export.ts:106-169 | one iteration of the batch loop; an error is final |
| ExcelExport.ProcessBatch | components/query-builder/table/excel-export.ts:106-169 | the batch loop computes the batch |
| ExcelExport.TasksOf | components/query-builder/table/excel-export.ts:172-178 | one queued task per next-level sheet, in insertion order |
| ExcelExport.MaxHeightBound | components/query-builder/table/excel-export.ts:93-179 | the depth bound of a batch is its deepest row |
| ExcelExport.TasksWithin | components/query-builder/table/excel-export.ts:172-178 | every queued task has rows, all of them strictly shallower, so the `data.length === 0` branch is never taken |
| ExcelExport.AddRowsGood | components/query-builder/table/excel-export.ts:98-101 | adding rows to a sheet keeps sheet names distinct and rows clean, and every sheet keeps its place and old rows |
| ExcelExport.PushTasks | components/query-builder/table/excel-export.ts:172-178 | pushing the next level appends its tasks to the queue in order |
| ExcelExport.RunTask | components/query-builder/table/excel-export.ts:93-179 | one dequeued task processes its batch; its rows are clean and it queues only shallower rows |
| ExcelExport.WalkStep | components/query-builder/table/excel-export.ts:93-179 | a task that throws ends the walk; otherwise its rows join its sheet and its tasks join the next level |
| ExcelExport.NextTask | components/query-builder/table/excel-export.ts:93-94 | taking the next task keeps the walk's result |
| ExcelExport.TakeTask | components/query-builder/table/excel-export.ts:93-179 | one `while` iteration agrees with the walk and keeps the sheets good |
| ExcelExport.DrainQueue | components/query-builder/table/excel-export.ts:93-179 | the `while` loop computes the breadth-first walk; existing sheets keep their place and rows |
| ExcelExport.AfterRoot | components/query-builder/table/excel-export.ts:87-179 | after the root batch the loop yields the plan, with the root sheet first holding the root batch's rows |
| ExcelExport.PlanSheets | components/query-builder/table/excel-export.ts:79-179 | the whole loop yields the plan: an error from the root batch is returned as is; the root sheet comes first and starts with the root's ticked rows |
| ExcelExport.PlacedRowsConcat | components/query-builder/table/excel-export.ts:106-169 | what a batch places splits over a concatenation |
| ExcelExport.TasksOfPlaced | components/query-builder/table/excel-export.ts:172-178 | queueing the next level keeps what will be placed |
| ExcelExport.AddRowsWritten | components/query-builder/table/excel-export.ts:166-168 | adding rows to a sheet adds exactly those rows, tagged with the sheet |
| ExcelExport.EnqueuePlaced | components/query-builder/table/excel-export.ts:140-146 | queueing children adds exactly what those children place |
| ExcelExport.FoldFlat | components/query-builder/table/excel-export.ts:108-163 | a row's cells do not depend on what other rows queued |
| ExcelExport.FoldPlaced | components/query-builder/table/excel-export.ts:112-163 | the entries of a row queue exactly what their children place |
| ExcelExport.RowPlaced | components/query-builder/table/excel-export.ts:106-169 | a row's cells are its `FlatRow` and it queues what its children place |
| ExcelExport.BatchPlaced | components/query-builder/table/excel-export.ts:106-169 | a batch writes and queues exactly what its rows place |
| ExcelExport.WalkPlaced | components/query-builder/table/excel-export.ts:93-179 | the walk writes exactly what the queued tasks place, on top of the existing sheets |
| ExcelExport.BatchTaskPlaced | components/query-builder/table/excel-export.ts:106-178 | one task writes and queues what its rows place |
| ExcelExport.StepPlaced | components/query-builder/table/excel-export.ts:93-179 | one step of the walk keeps written plus still-to-place constant |
| ExcelExport.PlanPlacement | components/query-builder/table/excel-export.ts:64-179 | every ticked row at any depth is written exactly once, as its cells, on the sheet of its entity (or key): the sheets hold exactly what the roots place |
| ExcelExport.NonEmptySheets | components/query-builder/table/excel-export.ts:183-185 | the kept sheet names are exactly the sheets that have rows |
| ExcelExport.NonEmptyDistinct | components/query-builder/table/excel-export.ts:183-185 | the kept sheet names are distinct |
| ExcelExport.OrderDistinct | components/query-builder/table/excel-export.ts:194-198 | the sorted sheet names are distinct |
| ExcelExport.OrderFacts | components/query-builder/table/excel-export.ts:194-198 | sorted names are distinct, root first when present, the rest in order |
| ExcelExport.BuildSheets | components/query-builder/table/excel-export.ts:202-217 | one sheet per sorted name, in order, with its rows and its picked name |
| ExcelExport.PlannedOrder | components/query-builder/table/excel-export.ts:183-198 | the sheet order lists each non-empty sheet once, root first, the rest in order |
| ExcelExport.RowsClean | components/query-builder/table/excel-export.ts:214-216 | every row written to a sheet is free of internal keys |
| ExcelExport.BuildWorkbook | components/query-builder/table/excel-export.ts:181-217 | no non-empty sheet gives the "no rows" warning; otherwise a workbook with distinct valid names, the sheets in order, each sheet with the planned rows |
| ExcelExport.RootSheetKept | components/query-builder/table/excel-export.ts:183-198 | the "no rows" warning means no root is ticked; when a root is ticked its sheet comes first with the root rows |
| ExcelExport.ExportToExcel | components/query-builder/table/excel-export.ts:64-226 | "nothing selected" exactly when no root holds a deep selection; "no rows" only when no root is ticked; otherwise a workbook named after the root entity (or the default) whose sheets are the plan's non-empty sheets in order, with distinct valid names, the root sheet first when a root is ticked |
| Layout.Sides | components/er-diagram/layout.ts:40-63 | the source side faces the target and the target side is its opposite: left/right exactly when the horizontal distance is larger, right exactly when the target is further right, bottom exactly when the target is not further sideways and is lower |
| Layout.NodeIndex | components/er-diagram/layout.ts:27-31 | `nodeMap.get`: the last node with the id (later entries overwrite earlier ones in the map); nothing exactly when no node has it |
| Layout.LinkOf | components/er-diagram/layout.ts:30-32 | an edge is laid out exactly when both its source and its target node exist |
| Layout.LinkFacts | components/er-diagram/layout.ts:30-88 | an edge is skipped exactly when a node is missing; otherwise the source handle `s-source-target-id` on the source side sits on the source node, the target handle `t-target-source-id` on the opposite side on the target node, each pointing at the other node's centre (default size 250 by 200) |
| Layout.PushedContains | components/er-diagram/layout.ts:69-85 | every handle an edge adds to a node is on that node afterwards |
| Layout.PushedOrigin | components/er-diagram/layout.ts:69-85 | every handle on a node was added by some edge |
| Layout.EdgeCountsSum | components/er-diagram/layout.ts:69-85 | a laid-out edge adds exactly two handles in all, a skipped one none |
| Layout.HandleTotalCount | components/er-diagram/layout.ts:29-89 | the nodes carry two handles per laid-out edge in all |
| Layout.Group | components/er-diagram/layout.ts:94-97 | the handles of one side, in their original order: every one of them and only those |
| Layout.InsertBy | components/er-diagram/layout.ts:104-113 | insertion into the sorted side adds exactly the one handle |
| Layout.SortGroup | components/er-diagram/layout.ts:104-113 | the sort is a permutation of the side's handles |
| Layout.InsertSorted | components/er-diagram/layout.ts:104-113 | insertion keeps the side ordered by the other end's coordinate, ties in original order |
| Layout.SortGroupSorted | components/er-diagram/layout.ts:104-113 | the stable sort orders the side by the other end's Y (left/right) or X (top/bottom) coordinate |
| Layout.SideOrderFacts | components/er-diagram/layout.ts:94-113 | the sorted side holds exactly the handles on that side, in sorted order |
| Layout.OffsetBounds | components/er-diagram/layout.ts:115-116 | every offset `100 / (n + 1) * (i + 1)` lies strictly between 0 and 100 |
| Layout.OffsetIncreasing | components/er-diagram/layout.ts:115-116 | later handles on a side get larger offsets |
| Layout.DistributedInside | components/er-diagram/layout.ts:92-119 | distribution changes only the offsets, each strictly between 0 and 100 |
| Layout.DistributedSpread | components/er-diagram/layout.ts:115-116 | the i-th handle of a side's sorted order gets offset `100 / (n + 1) * (i + 1)` |
| Layout.DistributedOrder | components/er-diagram/layout.ts:99-118 | on one side a handle lies before another exactly when its other end sorts before, so lines leaving a side do not cross |
| Layout.GroupBySide | components/er-diagram/layout.ts:94-97 | the `groups` record holds each side's handles |
| Layout.AssignOffsets | components/er-diagram/layout.ts:115-116 | the handles of the group get their evenly spaced offsets, the others are unchanged |
| Layout.DistributeHandles | components/er-diagram/layout.ts:92-119 | the per-node loop computes the distribution |
| Layout.StepAt | components/er-diagram/layout.ts:69-85 | one edge appends its handles to the nodes it links and to no other |
| Layout.StepPushed | components/er-diagram/layout.ts:29-89 | the edge loop adds handles edge by edge |
| Layout.LinkEdge | components/er-diagram/layout.ts:29-89 | one iteration of the edge loop updates the node and edge arrays in place and nothing else |
| Layout.DistributeAll | components/er-diagram/layout.ts:92-119 | the node loop replaces each node's handles by their distribution in place |
| Layout.LinkAll | components/er-diagram/layout.ts:17-89 | fresh copies of the nodes and edges, with every edge's handles pushed and every linked edge naming its handles |
| Layout.CalculateDynamicLayout | components/er-diagram/layout.ts:17-122 | `calculateDynamicLayout` returns fresh nodes and edges: the laid-out nodes and edges |
| Layout.EdgeHandlesExist | components/er-diagram/layout.ts:30-88 | a skipped edge is unchanged; a linked edge names exactly the source and target handles that were added for it |
| Layout.NodeHandlesFromEdges | components/er-diagram/layout.ts:29-119 | every handle on a laid-out node belongs to some laid-out edge ending at that node |
| Layout.HandleOfEdge | components/er-diagram/layout.ts:69-85 | a handle added by an edge is its source handle on its source node or its target handle on its target node |

## Left out

- Network and browser I/O: the URL-probing branch of `detectODataVersion` (`utils/odata-helper.ts:109-178`), the fetch in `utils/odata/detection.ts:7-12`, `DOMParser` (metadata is given as an element tree), the toast and console warnings (they become the `NothingSelected`/`NoRows` outcomes of `ExcelExport.ExportToExcel`), and the React components that call the core.
- The XLSX library: `json_to_sheet`, `book_append_sheet` and `writeFile`, and the time-stamped file name, are not modelled; `ExcelExport.ExportToExcel` ends with the planned workbook (sheet names, order and rows).
- The snippet generators of `utils/odata-helper.ts` are string templates and are not part of this model.
- `parentIds` and `globalIdCounter` in `exportToExcel` are computed but never written to a sheet, so the model does not carry them.
- The `data.length === 0` branch of the export queue is not modelled: `ExcelExport.TasksWithin` shows no queued batch is empty.
- JavaScript numbers are modelled as integers: fractional key values in `(ID=1.5)` predicates, fractional increment `start`/`step`, `Math.floor` on fractions, `NaN` and `Infinity` in row data are not represented (`Json.JNum` holds an `int`).
- MockData.Enforce: the floating-point branch (`parseFloat` of text, rounding to `scale` with `toFixed`) and `toISOString` of a `Date` are not computed; the model returns `None` for those two cases.
- MockData.GenerateValue: Faker's draw and `Math.random()` are parameters (`drawn`, `random`); the `[Missing …]` and `"Error"` results of a missing or throwing Faker method are not modelled, since every listed Faker strategy names an existing call.
- MockData.AllStrategies: holds 23 of the table's roughly 185 strategies (the four default ones and those `suggestStrategy` can return), in source order. Unlisted strategies are unknown to the model, so for instance `IsStrategyCompatible("location.latitude", "Edm.Double")` is false here and true in the source.
- MockData.GetGroupedStrategies: because of the shorter table, categories such as Finance, Company or Airline do not appear in the grouping; the partition property is proved for any table.
- Text.ToLower: lower-cases ASCII letters only. JavaScript's `toLowerCase` also maps other letters, some to two characters (`İ` becomes `i̇`), which can shift the indices `getServiceRoot`, `suggestStrategy` and `probeMetadataUrl` compute; this affects `ODataHelper.GetServiceRoot`, `MockData.SuggestStrategy` and `Detection.ProbeMetadataUrl` on non-ASCII input.
- String lengths count Unicode characters, not UTF-16 code units: `substring(0, 31)` and `substring(0, 28)` of sheet names (`ExcelExport.Sanitize`, `ExcelExport.Candidate`), the 16-character cut of `TableUtils.ToInputDate` and the `maxLength` cut of `MockData.Truncate` differ from the source for characters outside the Basic Multilingual Plane.
- `localeCompare` is modelled as code-point order (`Text.NameLe`) in `ExcelExport.SortNames` and in the equal-degree tie-break of `DiagramColors.SortForColoring` (and so of `DiagramColors.ComputeGraphColoring`); locale-aware collation is not modelled.
- DiagramColors.SortForColoring: entities of equal degree are ordered by code point, not by `localeCompare` (`components/er-diagram/utils.ts:122`). For `SAPOrder` and `SalesOrder` the model puts `SAPOrder` first, while locale collation puts `SalesOrder` first; the colouring order, and with it the colours, can then differ from the source.
- DiagramColors.ComputeGraphColoring: inherits the code-point tie-break of `DiagramColors.SortForColoring` and the `Object.prototype` gap of `DiagramColors.BuildAdjacency`; for such a name the model returns a colouring where the source throws a `TypeError`.
- Objects are ordered key lists (`Records`): JavaScript's special `__proto__` key, the member names every plain object inherits from `Object.prototype` (`constructor`, `toString`, `valueOf`, `hasOwnProperty`, …), and `Object.entries`/`Object.keys` listing integer-like keys first in numeric order, are not modelled. A lookup of an inherited name finds nothing in the model, where JavaScript finds the inherited function. This affects the adjacency and colour records of `DiagramColors` (`DiagramColors.BuildAdjacency`, `DiagramColors.ComputeGraphColoring`), the association index of `ODataHelper` (`ODataHelper.FindAssociation`), the key order in `Traversal` and the entry order in `ExcelExport` and `TableUtils`.
- DiagramColors.BuildAdjacency: an entity or navigation target named like an inherited `Object.prototype` member (say `constructor`) makes `adj[name]` the inherited function, so no `Set` is created and `.add` throws a `TypeError` (`components/er-diagram/utils.ts:100`, `:107`, `:109-110`). The model, and `DiagramColors.AdjacencyOf` with it, treats such a name as an ordinary key and records its edges.
- ODataHelper.FindAssociation: a relationship named like an inherited `Object.prototype` member (say `constructor`) makes `associationMap[relationship]` truthy with no `roles`, so `utils/odata-helper.ts:374` throws a `TypeError`; the model finds no association and leaves the navigation unresolved.
- TableUtils.Update: `updateRecursiveSelection` is modelled on values; it returns the updated tree instead of changing it in place, so aliasing (one object reachable twice) is not captured. A `Date` inside an array is not marked, because `Json.JDate` carries no properties, while the source sets `__selected` on it.
- MockData.FlattenPrimitive: completeness of `flattenEntityProperties` is proved for properties without a complex type; for complex-typed ones `MockData.FlattenLeaves` states soundness only.
- Layout: coordinates are reals; IEEE rounding of the centres and offsets is not modelled, and the `|| 0` fall-back for a missing connected coordinate never applies because every handle records both coordinates.
- Layout.CalculateDynamicLayout: node and edge fields other than the handles, the position and the size are not modelled.
