# Prism core, modelled in Dafny

Prism makes React Native components stylable from a central style registry.
An application:

1. fills a **style registry** with colours, fonts, font sizes and named style rules;
2. configures Prism with a list of **plugins**;
3. wraps component types with `Prism(Type)`.

At registration, each component type is given:

- **style groups**: `style`, plus child groups such as `label` for a `labelStyle` attribute;
- the **global plugins** it opted into and every **property plugin**;
- prop types and initial per-group style lists.

Each time an instance mounts or receives props, every affected group gets a new **cascade** of style fragments. The order is:

1. the previous list;
2. the default styles and the component's class rule;
3. the global plugin outputs;
4. the outputs of the property plugins the group claimed;
5. the inline style attribute;
6. a "verbatim" fragment holding the props no plugin claimed.

A separate **pre-processor** rewrites style declarations through a table of rules.

The model is split into modules, one per concern of the source:

| module | file | models |
|---|---|---|
| `Js` | `js.dfy` | JavaScript values, objects with ordered keys, `Object.assign`, `concat`, key coercion, and `StyleSheet.flatten` as a left-to-right merge |
| `Wrappers` | `wrappers.dfy` | `Option`, `Result`, and the errors the library throws |
| `Plugins` | `plugins.dfy` | `Plugin`, `registerPlugin`, `registerPlugins`, and the plugin list of `Prism.configure` |
| `Naming` | `naming.dfy` | `getStylePropertyName` and the class names of a group |
| `Cascade` | `cascade.dfy` | `getStyleSheet` |
| `Registry` | `style_registry.dfy` | the `StyleRegistry` class, including `compile` and its invariant extraction |
| `Processing` | `processor.dfy` | `Rule` and the `Processor` class (`collate`, `get`, `process`) |
| `Registration` | `registration.dfy` | `Prism(Type)`'s option check and `registerComponent` |
| `Instance` | `instance.dfy` | the component instance: its initial style values and `processStylePlugins` |
| `DefaultPlugins` | `default_plugins.dfy` | the built-in plugins `mapPropsToStyleState`, `mapPropsToComponent`, `mapStyleToProp`, `mapPropsToStyle` and `className` |

Where the source updates objects in place, the model uses classes whose methods are proved against a specification function:

- `StyleRegistry`, `Processor` and `ComponentType`;
- the instance's style values (`StyledComponent`);
- the router's style values (`StyleValues`).

The loops of the source are methods with loop invariants. The pure helpers are functions, and the properties are lemmas about those functions.

Calling a function value is replaced by a runner parameter that says what the call returns. This covers:

- plugin functions (`PluginRunner`);
- pre-processor handlers (`HandlerRunner`);
- font functions;
- the style-sheet function;
- the `mapPropsTo*` option functions (passed in as their results).

`Platform.OS` is a parameter too.

## Model

| member | source | states |
|---|---|---|
| Plugins.NewPlugin | src/Prism.js:63-73 | A plugin keeps its name, function and global flag. An omitted prop type becomes `null`. `propNames` exists exactly when the prop type is truthy. |
| Plugins.PropertyPlugins | src/Prism.js:97-104 | A property definition yields one non-global plugin per prop-type key, in key order. Each shares the definition's function and takes that key's prop type. |
| Plugins.RegisterPlugin | src/Prism.js:85-110 | Registration succeeds exactly for a global-shaped array or a property-shaped array with at least one key. A global definition gives one global plugin with the given name, function and prop type (`null` when absent). A property definition gives one non-global plugin per key. No keys fails with `NoPropTypeKeys`; any other value fails with `InvalidPlugin`. |
| Plugins.RegisterAllOutcome | src/Prism.js:79-82 | The reduce succeeds exactly when every definition registers, and then yields at least one plugin per definition. |
| Plugins.FirstErrorWins | src/Prism.js:79-82 | The error raised is the one of the first definition that fails. |
| Plugins.RegisterPlugins | src/Prism.js:75-83 | A non-array fails with `PluginsNotArray`. An array succeeds exactly when every definition registers. |
| Plugins.RegisterAllAppend | src/Prism.js:79-82 | Registering a concatenation gives the concatenation of the two registrations. Otherwise it gives the first list's error, or else the second's. |
| Plugins.Enabled | src/Prism.js:604-608 | Keeps exactly the plugins whose name is not among the disabled entries, compared strictly. |
| Plugins.EnabledAppend | src/Prism.js:604-608 | Filtering keeps the plugins' order: the enabled plugins of two lists in a row are those of the first list, then those of the second. |
| Plugins.ConfiguredPlugins | src/Prism.js:588-608 | The configured plugins are, in order, the registration of the base definitions followed by the additional ones, with disabled names filtered out. The base is `config.plugins` when it is an array, otherwise the system plugins, extended on request. Additional definitions count only when they form an array. Configuration fails exactly when some definition is refused. |
| Naming.GetStylePropertyName | src/Prism.js:24-29 | `style` and names ending in `Style` are unchanged. Any other name gets the `Style` suffix. The result always is a style attribute name. |
| Naming.StylePropertyNameIdempotent | src/Prism.js:24-29 | Deriving the attribute name twice gives the same name as once. |
| Naming.Capitalize | src/Prism.js:132-133 | The first character is upper-cased when it is an ASCII lower-case letter, and the rest is unchanged, so the length is kept (ASCII case mapping only, see "Left out"). |
| Naming.ClassName | src/Prism.js:127 | `options.className` when truthy, otherwise the type name. |
| Naming.ChildNameExtendsComponentName | src/Prism.js:128-135 | The component class name is `namespace.className`, or `className` without a namespace; the `style` group uses it as is. A child group's name is that name plus `.` and the capitalised attribute name. |
| Cascade.GroupNames | src/Prism.js:126-143 | The group's `componentClassName` is its qualified class name. A child class name exists exactly for a child group. |
| Cascade.Contribution | src/Prism.js:181-183 | A falsy output contributes nothing. Any other output is concatenated, so an array is spread one level. |
| Cascade.ClassRule | src/Prism.js:145-146 | The class rule is included exactly when the style sheet holds a truthy rule under the group's class name. |
| Cascade.DefaultFragments | src/Prism.js:148-157 | Array defaults are followed by the class rule. Falsy defaults are replaced by the class rule. |
| Cascade.RunGlobals | src/Prism.js:178-184 | The loop's output is the truthy outputs of the global plugins, in plugin order. |
| Cascade.RunProperties | src/Prism.js:186-199 | The loop's output is the truthy outputs of the claimed plugins whose attribute is defined in the props or the context, in claim order. |
| Cascade.GetStyleSheet | src/Prism.js:112-205 | The result is the previous sheets, defaults and class rule, global outputs, claimed-plugin outputs and the inline style, in that order. |
| Cascade.AddDefaultStyles | src/Prism.js:145-162 | The previous sheets, followed by the default styles and the class rule in the order `DefaultFragments` gives. |
| Cascade.PreviousSheetsKept | src/Prism.js:162 | The previous sheets remain a prefix of the new list. |
| Cascade.InlineStyleWins | src/Prism.js:201-204 | Every attribute of an inline style object keeps its inline value once the list is flattened. |
| Cascade.ClassRuleOverridesDefaults | src/Prism.js:145-162 | An attribute set by the group's class rule, and by no plugin output or inline style, takes the rule's value over the defaults. |
| Registry.Record | src/StyleRegistry.js:59 | The record holds the invariant's fields and the extracted `value`. |
| Registry.StripPropRule | src/StyleRegistry.js:56-63 | One attribute pass deletes the attribute exactly when some invariant claims it, and touches no other attribute. |
| Registry.StripPropRecorded | src/StyleRegistry.js:56-63 | One attribute pass writes a record under the rule's name exactly when some invariant claims the attribute, and under no other name. |
| Registry.StripPropUnclaimed | src/StyleRegistry.js:56-63 | An attribute no invariant claims leaves the rule and the records as they were. |
| Registry.StripPropLastRecord | src/StyleRegistry.js:56-62 | The surviving record is the last claiming invariant's. It carries the attribute's value only when that invariant is also the first claimant; otherwise it carries `undefined`. |
| Registry.StripRuleEffect | src/StyleRegistry.js:55-64 | Stripping a rule removes exactly its claimed attributes, keeps every other attribute, and records only under that rule's name. |
| Registry.StripAllEffect | src/StyleRegistry.js:53-66 | After the pass, every object rule has lost exactly its claimed attributes. Other attributes, non-object rules and the list of rule names are unchanged. |
| Registry.StripRuleUnclaimed | src/StyleRegistry.js:55-64 | A rule none of whose attributes any invariant claims leaves the rule and every record as they were. |
| Registry.StripRuleLastRecord | src/StyleRegistry.js:55-64 | A rule's record comes from its last claimed attribute and that attribute's last claimant. It carries the attribute's value only when that claimant was also the first. |
| Registry.StripAllRecords | src/StyleRegistry.js:53-66 | After the pass, each rule name holds the record `StripRuleLastRecord` describes. A rule with no claimed attribute, a non-object rule, and a name that is not a rule keep their old record. |
| Registry.CompileRecords | src/StyleRegistry.js:53-66 | Over all rules of a well-formed style object, the records are exactly those `StripAllRecords` gives, rule by rule. |
| Registry.StyleRegistry.constructor | src/StyleRegistry.js:3-10 | A new registry is empty and has no compiled sheet. |
| Registry.StyleRegistry.MergeColors | src/StyleRegistry.js:12-14 | Registered colours win. Incoming names not yet registered are added. Exactly the union of names results. |
| Registry.StyleRegistry.AddColors | src/StyleRegistry.js:16-20 | Incoming colours win. `colorNames` becomes the duplicate-free list of all colour names. |
| Registry.StyleRegistry.AddFonts | src/StyleRegistry.js:22-27 | The new fonts are the font functions' results, registered in key order. It fails exactly when some entry is not a function, keeping the fonts registered before it. |
| Registry.FontsAfterAllFunctions | src/StyleRegistry.js:22-27 | When every entry is a function, each listed name is bound to its function's result for the platform, and no other font changes. |
| Registry.StyleRegistry.AddStyleSheet | src/StyleRegistry.js:29-37 | The rules are replaced by a copy of what the style function returns for the current colours, fonts and colour names. |
| Registry.StyleRegistry.SetFontSizes | src/StyleRegistry.js:45-47 | The sizes are replaced. |
| Registry.StyleRegistry.Compile | src/StyleRegistry.js:51-68 | Without invariants the rules are kept. With invariants the rules and records are those of the invariant extraction: each rule with a claimed attribute has the record of its last claimed attribute's last claimant, and every other name keeps its old record. The compiled sheet is the resulting rules. |
| Registry.StyleRegistry.StripOneRule | src/StyleRegistry.js:55-64 | The two inner loops leave the stripped rule and the records of the extraction for one rule. |
| Registry.StyleRegistry.StripOneProp | src/StyleRegistry.js:56-63 | The `invariants.forEach` for one attribute leaves the stripped rule and the records that `StripProp` describes. |
| Processing.NewRule | src/Processor.js:4-13 | A rule keeps its handler and style name. Its attribute name defaults to the style name when not truthy. |
| Processing.ApplyWrites | src/Processor.js:67-70 | Each write sets `newPropName || propName`. The last write to a key wins, and keys no write names are kept. |
| Processing.LastWriteWins | src/Processor.js:67-70 | Every attribute the handler writes ends with the value of its last write to it. |
| Processing.IndexLastWins | src/Processor.js:34-43 | A name is in a table exactly when some rule has it as a truthy name, and it maps to the last such rule. |
| Processing.DefaultedRuleInBothTables | src/Processor.js:11 | A rule built without an attribute name is found under its style name in both tables, unless a later rule takes that name. |
| Processing.Processor.constructor | src/Processor.js:15-26 | The singleton starts with no rules and no configuration. |
| Processing.Processor.Collate | src/Processor.js:28-46 | A missing list raises a TypeError. An empty list changes nothing. Otherwise both tables are extended with the indexed rules and the configuration is kept. |
| Processing.Processor.Get | src/Processor.js:48-51 | Looks the name up in the style table or the attribute table, as `isStyle` says. |
| Processing.Processor.Process | src/Processor.js:53-88 | The result is the declaration rewritten by the table, key by key, recursing into object values; without rules, the declaration unchanged. What this means per attribute is stated by `ProcessedUntouched` and `ProcessedLastWrite`. |
| Processing.Processor.ProcessStep | src/Processor.js:62-86 | One turn of the loop gives the declaration of `Step`: the handler's writes, then the nested declaration processed in place unless a write replaced it. |
| Processing.Processor.ProcessAsWritten | src/Processor.js:53-58 | As written, a processor with no rules raises a TypeError. Otherwise it behaves like `Process`. |
| Processing.Processor.NoRulesNoChange | src/Processor.js:61-87 | With an empty table for the declaration's kind, processing leaves it unchanged, nested declarations included. |
| Processing.Processor.NoRulesKeys | src/Processor.js:61-87 | With an empty table, the key loop leaves the declaration unchanged. |
| Processing.Processor.StepOthers | src/Processor.js:62-86 | One turn leaves every other attribute alone unless its handler writes it. |
| Processing.Processor.StepSelf | src/Processor.js:62-86 | When the handler does not write the visited attribute, an object value (read before the writes) is processed with the same `isStyle` and put back; any other value stays. |
| Processing.Processor.StepLastWrite | src/Processor.js:62-86 | After one turn, each attribute the handler writes holds the handler's last write to it, the visited attribute included. |
| Processing.Processor.ProcessKeysAppend | src/Processor.js:61 | The loop visits the keys of a concatenation one run after the other. |
| Processing.Processor.ProcessKeysFrame | src/Processor.js:61-87 | An attribute the loop does not visit, and that no handler of the visited keys writes, keeps its value. |
| Processing.Processor.KeysUntouched | src/Processor.js:61-87 | An attribute no handler writes is visited once: an object value is then processed in place and any other value stays. |
| Processing.Processor.ProcessedUntouched | src/Processor.js:53-88 | After `process`, an attribute no handler writes keeps its value, or, for an object value, holds it processed recursively with the same `isStyle`. Without rules, nothing changes. |
| Processing.Processor.ProcessedLastWrite | src/Processor.js:61-87 | After `process`, an attribute a key's handler writes holds that handler's last write, unless the loop visits it again or a later handler writes it. |
| Registration.CheckStyleOptions | src/Prism.js:219-223 | `StyleOptionsNotFunction` exactly when `styleOptions` is truthy and not a function. |
| Registration.InitialOptions | src/Prism.js:451-460 | Without `styleOptions` the options are empty. Otherwise they are what it returns, refused when `defaultStyles` is truthy and not an array. |
| Registration.DeclareEffect | src/Prism.js:466-486 | Declaration succeeds exactly when each capability is declared in at most one place and with the right type. The options then hold each capability's declaration, the static one filling an absent option. |
| Registration.AvailablePropertyNames | src/Prism.js:488-490 | Exactly the names of plugins with a truthy prop type. |
| Registration.Unassigned | src/Prism.js:513-514 | Exactly the available names that no group lists as a string. |
| Registration.StyleGroupGetsUnassigned | src/Prism.js:492-523 | A declared `style` mapping is refused. Otherwise `style` lists exactly the available names no other group lists, or all of them when nothing is declared. Every other group keeps its declaration. |
| Registration.Globals | src/Prism.js:528-532 | Exactly the global plugins named by an own option, plus `colorNames`. |
| Registration.Properties | src/Prism.js:533-534 | Exactly the non-global plugins. |
| Registration.GlobalsAppend | src/Prism.js:528-532 | The global plugins keep the registration order: those of two lists in a row are those of the first, then those of the second. |
| Registration.PropertiesAppend | src/Prism.js:533-534 | The property plugins keep the registration order, in the same sense. |
| Registration.RegisteredShape | src/Prism.js:447-541 | A registered component's groups are its mapping's keys, `style` among them. It runs every property plugin and only global plugins, `colorNames` always. |
| Registration.SystemPropTypesKeys | src/Prism.js:546-551 | The system prop types form a well-formed object holding a prop type exactly for each non-global plugin with a truthy prop type. |
| Registration.SystemPropTypesValue | src/Prism.js:546-551 | Under each name, the system prop types hold the prop type of the last non-global plugin of that name with a truthy prop type. |
| Registration.AttributeNames | src/Prism.js:558-559 | Each group's attribute name is derived from its key. |
| Registration.PreparedEffect | src/Prism.js:556-572 | Each group's attribute gets the style prop type and an initial list holding exactly its truthy default prop. That default prop is deleted. Everything else is unchanged. |
| Registration.PreparedWithoutDefault | src/Prism.js:556-572 | An attribute without a truthy default prop never gets one back, and every group with that attribute leaves it an empty initial list. |
| Registration.PreparedRepeatedAttribute | src/Prism.js:556-572 | When two groups share an attribute name, the second finds the default prop deleted by the first, so the attribute ends with an empty initial list. |
| Registration.PreparedAppend | src/Prism.js:558-572 | Preparing the groups of two lists in a row is preparing the groups of their concatenation. |
| Registration.ComponentType.constructor | src/Prism.js:216-219 | A component type keeps its name, style options and statics, and has no initial styles yet. |
| Registration.ComponentType.PrepareStyles | src/Prism.js:558-572 | The loop leaves the prop types, default props and initial styles that `PreparedEffect` describes. |
| Registration.ComponentType.PrepareGroup | src/Prism.js:559-571 | One group: its attribute gets the style prop type, and its initial list takes its truthy default prop, which is deleted. |
| Registration.ComponentType.Install | src/Prism.js:552-572 | The system prop types lie under the type's own, the initial styles start empty, then every group is prepared. |
| Registration.RegisterComponent | src/Prism.js:447-580 | The result is the resolved definition. The registry's colours are merged as soon as the options are known. The type is rewritten only on success, with system prop types below the type's own and the prepared styles. |
| Instance.AvailableOf | src/Prism.js:275-287 | Corrected: every available name is a string. |
| Instance.AvailableNames | src/Prism.js:275-287 | Corrected: a name is available exactly when a string entry is that name or an object entry has it as a key. |
| Instance.ObjectEntryAsWritten | src/Prism.js:277-279 | As written, an object entry is offered as one array, so its keys cannot be claimed. Corrected, each key is offered. |
| Instance.FlattenAvailable | src/Prism.js:274-287 | The reduce produces the available names and the renaming map of `AvailableOf`. |
| Instance.ClaimFrom | src/Prism.js:294-302 | Every claimed name has an entry in the plugin map handed to `getStyleSheet`. |
| Instance.ClaimPluginsOf | src/Prism.js:293-302 | Starting from no claims, every claimed name has an entry in the plugin map. |
| Instance.ClaimKeepsNames | src/Prism.js:294-302 | Claiming moves names from the available list to the claimed list, so together they hold the same names. |
| Instance.ClaimedIffOffered | src/Prism.js:294-302 | With distinct plugin names, a name is claimed exactly when a property plugin of that name finds it available. It maps to that plugin, and earlier claims are kept. |
| Instance.ClaimOrder | src/Prism.js:294-302 | With distinct plugin names, the claimed names are the earlier ones followed by the names of the plugins the group offers, in plugin order. |
| Instance.OfferedAfterClaim | src/Prism.js:294-302 | With distinct plugin names, removing the first plugin's claimed name from the available list changes nothing the later plugins are offered. |
| Instance.ClaimPlugins | src/Prism.js:293-309 | The loop leaves the claimed plugins and the unclaimed names of `ClaimPluginsOf`. |
| Instance.VerbatimSets | src/Prism.js:334-344 | The verbatim fragment sets a style name exactly when some unclaimed name, renamed to it, has a defined prop. Its value is such a prop. |
| Instance.Verbatim | src/Prism.js:334-344 | The loop builds the fragment of `VerbatimOf`. |
| Instance.VerbatimHasLastWord | src/Prism.js:328-346 | Every attribute the verbatim fragment sets keeps the verbatim value in the flattened group list. |
| Instance.UntouchedGroupsKept | src/Prism.js:376-381 | A pass only rewrites the attributes of the groups it runs. On an update, a group whose key is falsy in the new or current props keeps its list. |
| Instance.StyledComponent.ProcessStylePlugins | src/Prism.js:263-352 | On success, the style values are those of the pass over all groups, starting from a copy. On failure they are unchanged. |
| Instance.StyledComponent.ProcessGroup | src/Prism.js:271-348 | One group's new list: its cascade, then the verbatim fragment when names were left unclaimed. It fails when the group's list or previous value is missing. |
| Instance.InitialValuesCopy | src/Prism.js:248-252 | With a list under every attribute, each attribute holds that list and nothing else changes. |
| Instance.PreparedLists | src/Prism.js:557-572 | Registration leaves an array under every group attribute. |
| Instance.RegisteredInitialValues | src/Prism.js:248-252 | For a registered type, instance creation succeeds and copies each group's initial list. |
| Instance.StyledComponent.constructor | src/Prism.js:243-253 | An instance starts from the given style values. |
| Instance.NewStyledComponent | src/Prism.js:229-254 | Fails with `NoRegistry` without a registry and `NoStyleSheet` without a compiled sheet. Otherwise it fails only on a missing initial list, and the instance holds the initial style values. |
| Instance.CopyInitialStyles | src/Prism.js:248-252 | The loop copies each group attribute's initial list and fails on a missing one, as `InitialFrom` describes. |
| DefaultPlugins.Pick | src/DefaultPlugins.js:30-35 | A state sheet is kept exactly when it is a truthy array, object or number. |
| DefaultPlugins.MapPropsToStyleState | src/DefaultPlugins.js:9-49 | Corrected. It fails exactly without a `mapPropsToStyleState` function and yields at most one usable sheet. A falsy state yields none. A non-string state is used as the sheet. A string state looks up the component's state rule for the `style` group and the child state rule for a child group. |
| DefaultPlugins.StateLookupInverted | src/DefaultPlugins.js:13-27 | As written, group `label` reads the component's state rule and an empty attribute name reads a child state rule. Corrected, `label` reads its child state rule. |
| DefaultPlugins.ChildSheets | src/DefaultPlugins.js:69-141 | A child group's list fails exactly when the component has no state function. |
| DefaultPlugins.RouterReferenceError | src/DefaultPlugins.js:89 | As written, the router raises a ReferenceError for any child group. Corrected, it succeeds. |
| DefaultPlugins.RouteEffect | src/DefaultPlugins.js:69-142 | Corrected: each child group's attribute holds its list, and every other style value is kept. It fails exactly when there are groups but no state function. |
| DefaultPlugins.AddMatchedEffect | src/DefaultPlugins.js:101-113 | A plugin-owned name appends exactly that plugin's defined output, spread when it is an array, and leaves the fragment alone. Any other name is copied into the fragment with its value and marks the group matched. Nothing else changes. |
| DefaultPlugins.AddMatchesAppend | src/DefaultPlugins.js:115-134 | Handing on two runs of matches in a row is handing on their concatenation. |
| DefaultPlugins.AddMatchesEffect | src/DefaultPlugins.js:101-134 | A run of matches appends the owning plugins' outputs in order. A name is in the fragment exactly when it was or some match copies it, and it then holds the last copied prop. |
| DefaultPlugins.AddMatchesSheets | src/DefaultPlugins.js:101-134 | The list grows by exactly the owning plugins' outputs, in match order. |
| DefaultPlugins.AddMatchesFlag | src/DefaultPlugins.js:101-134 | The group is matched exactly when it already was or some match has no owning plugin. |
| DefaultPlugins.AddMatchesTarget | src/DefaultPlugins.js:101-134 | A name is in the fragment exactly when it was or some match copies it. It then holds the prop of the last match copying it, and without a copy it keeps its value. |
| DefaultPlugins.AddKeysMatches | src/DefaultPlugins.js:119-132 | The keys loop hands on exactly the matches of `KeyMatches`, in key order. |
| DefaultPlugins.KeyMatchesCopy | src/DefaultPlugins.js:119-132 | A key match copies a name exactly when some key with a defined prop is renamed to it and no plugin owns it. |
| DefaultPlugins.AddEntryMatches | src/DefaultPlugins.js:115-133 | One entry hands on its matches, and they copy a name exactly when the entry does. |
| DefaultPlugins.EntryMatchesCopy | src/DefaultPlugins.js:115-133 | The matches of one entry copy a name exactly when the entry does: a string entry with a defined, unowned prop, or an object entry with such a key renamed to it. |
| DefaultPlugins.AddEntriesMatches | src/DefaultPlugins.js:115-134 | The source list hands on exactly the matches of `Matches`, in source order, and they copy a name exactly when some entry does. |
| DefaultPlugins.MatchesCopy | src/DefaultPlugins.js:115-134 | The matches of a source list copy a name exactly when some entry does. |
| DefaultPlugins.AddKeysEffect | src/DefaultPlugins.js:119-132 | An object entry copies exactly its keys with a defined prop and no owning plugin, under their renamed style names. Each copied name holds the prop of the last key copying it, and the list grows by the owning plugins' outputs in key order. |
| DefaultPlugins.AddEntriesEffect | src/DefaultPlugins.js:115-134 | The list grows by exactly the owning plugins' outputs, in source order. A name is copied exactly when some entry copies it, and it holds the prop of the last match copying it; other names keep their value. |
| DefaultPlugins.ChildSheetsOrder | src/DefaultPlugins.js:70-138 | The list is the initial style, the child rule, the state sheets, then the owning plugins' outputs in source order. One fragment follows exactly when some matched name has no owning plugin. It holds exactly the copied names, each with the prop of the last match copying it. |
| DefaultPlugins.ChildSheetsOf | src/DefaultPlugins.js:69-141 | The nested loops build the list of `ChildSheets`. |
| DefaultPlugins.AddEntriesOf | src/DefaultPlugins.js:115-134 | The `source.forEach` builds the accumulator of `AddEntries`. |
| DefaultPlugins.AddKeysOf | src/DefaultPlugins.js:120-132 | The `propertyNames.forEach` of one object entry builds the accumulator of `AddKeys`. |
| DefaultPlugins.StyleValues.constructor | src/DefaultPlugins.js:64 | Starts from the given style values. |
| DefaultPlugins.StyleValues.MapPropsToComponent | src/DefaultPlugins.js:53-146 | On success the style values are those the corrected router computes. On failure they are unchanged. |
| DefaultPlugins.RouteGroups | src/DefaultPlugins.js:69-142 | The loop over the child groups produces the result of `Route`. |
| DefaultPlugins.StyleValues.MapStyleToProp | src/DefaultPlugins.js:148-182 | Without the option, nothing. Otherwise it returns the flattened sheet without the mapped attributes, to overwrite the list, and the style values receive the extracted props. |
| DefaultPlugins.StyleValues.ExtractAttribute | src/DefaultPlugins.js:160-175 | One turn of the loop moves a truthy-mapped, defined attribute to its prop name and removes the attribute, as `ExtractOne` describes. |
| DefaultPlugins.StyleToPropFlat | src/DefaultPlugins.js:159-176 | Every mapped attribute is removed from the flattened sheet, and every other attribute is kept. |
| DefaultPlugins.StyleToPropValues | src/DefaultPlugins.js:159-176 | A prop name holds the flattened value of the last attribute moved to it: truthy mapping, naming it, defined value. With no such attribute it keeps its value. |
| DefaultPlugins.StyleToPropLastMove | src/DefaultPlugins.js:159-176 | The last attribute moved to a prop name decides its value. |
| DefaultPlugins.StyleToPropUnmoved | src/DefaultPlugins.js:159-176 | A prop name no attribute is moved to keeps its value. |
| DefaultPlugins.MapPropsToStyle | src/DefaultPlugins.js:190-216 | Without the option, nothing. Otherwise the sheets are those of its map, or of its result when it is a function. |
| DefaultPlugins.PropsToStyleAppend | src/DefaultPlugins.js:200-212 | Each key contributes on its own, in key order. |
| DefaultPlugins.PropsToStyleSources | src/DefaultPlugins.js:200-212 | Every sheet is the defined result of the handler of an own, defined prop with a function handler. |
| DefaultPlugins.Split | src/DefaultPlugins.js:232 | Splitting always yields at least one piece. The last piece is empty exactly when the text ends with whitespace. |
| DefaultPlugins.SplitKeepsText | src/DefaultPlugins.js:232 | The pieces hold exactly the non-whitespace text, in order. |
| DefaultPlugins.SplitPiecesHaveNoSpace | src/DefaultPlugins.js:232 | No piece contains whitespace. |
| DefaultPlugins.SplitJoin | src/DefaultPlugins.js:232 | There is one separator between each two consecutive pieces, and pieces and separators, interleaved, give back the text. |
| DefaultPlugins.SepsAreRuns | src/DefaultPlugins.js:232 | Every separator is a non-empty run of whitespace. |
| DefaultPlugins.SplitInnerPiecesNonEmpty | src/DefaultPlugins.js:232 | Only the first and the last piece can be empty. |
| DefaultPlugins.FindAppend | src/DefaultPlugins.js:222-226 | Each name is looked up on its own, in order. |
| DefaultPlugins.FindRules | src/DefaultPlugins.js:222-226 | Every result is the rule of a listed name the sheet holds, and every such rule is found. |
| DefaultPlugins.ClassNamePlugin | src/DefaultPlugins.js:219-233 | An array is looked up name by name and a string word by word; any other value raises a TypeError. |
| DefaultPlugins.ClassNameWords | src/DefaultPlugins.js:228-232 | `"a b"` finds the rules of `a` then `b`. |

## Left out

- Rendering and React lifecycle wiring are not modelled. This covers `render`, `setNativeProps`, `getChildContext` and its injection into the stylable type, context types, `displayName`, and the higher-order wrapper itself (src/Prism.js:256-261, 354-372, 383-429). Calls of `processStylePlugins` are modelled through the `Trigger` of the instance's pass.
- The global `Prism.components` queue and `Prism.registry` are left out, and so are the `registry instanceof StyleRegistry` check and the merge with the default `Configuration` (src/Prism.js:31-43, 431-445, 582-587, 609-632). The registry and configuration are passed explicitly.
- The `options.flat` branch of `getStyleSheet` (src/Prism.js:206-208) is not modelled.
- `console.log` output and the `debug` listing are I/O and are omitted.
- `StyleSheet.create` is the identity. `StyleSheet.flatten` is a left-to-right merge in which only objects and arrays contribute. Registered style numbers contribute nothing.
- `Platform.OS` is a parameter.
- Plugin functions, pre-processor handlers, font functions, the style-sheet function and the `mapPropsTo*` option functions are opaque: the model receives what they return. Their side effects, in particular a plugin writing to `mutableStyleValues`, are not modelled.
- Object identity and aliasing are not modelled. Updates in place are copies of values, so a change made through a shared reference to a rule, a style list or the registry's `styles` is not visible elsewhere.
- Numbers are unbounded integers; floating point and `NaN` are not modelled. A function's source text as a property key is not modelled.
- `for ... in` and `Object.keys` over a value that is not a plain object are treated as visiting no keys, and prototype properties are ignored.
- `Processing.Processor.Process`: recursion into nested declarations is bounded by a `fuel` parameter; deeper nesting than the fuel is left as it is.
- `DefaultPlugins.Split` treats only ASCII whitespace as separators; Unicode spaces are not modelled.
- `Naming.Capitalize` upper-cases only ASCII `a` to `z`. JavaScript's `toUpperCase` also maps other letters and can change the length (`'ß'` becomes `'SS'`), so the equal length it states holds for the source only when the first character is ASCII.
- `Registration.InitialOptions` refuses a `styleOptions` result that is not a plain object with a TypeError. The source fails only for `undefined` and `null`, at the destructuring (src/Prism.js:455), and goes on with an array, a number or a string; the model has no properties on such values.
- `Registration.PreparedEffect` is stated for groups with distinct attribute names. For a repeated one, `Registration.PreparedRepeatedAttribute` states the outcome: an empty initial list.
- `Instance.ClaimedIffOffered` and `Instance.ClaimOrder` are stated for distinct plugin names. With two property plugins of one name, the second claims the name again when the group lists it twice; `Instance.ClaimKeepsNames` holds either way.
- `Processing.Processor.Process` visits the keys the declaration has when the loop starts. An attribute a handler adds during the loop is not visited; JavaScript leaves open whether `for ... in` visits it.
- `Instance.InitialFrom`: `initialStyles[name].slice()` on a missing list is a TypeError, and `slice` on a non-array value is treated the same way.
- `Registration.StyleMapping`: a `mapPropsToStyleObject` that is not a plain object is refused with a TypeError. The source would try to assign `style` on it.
- The built-in plugins receive their inputs as parameters: `childComponentNames`, the property plugin map, `mutableStyleValues`, `definition.initialStyles`, and the `getStateClassName`, `getChildStateClassName` and `getChildClassName` builders. The plugin context of `getStyleSheet` (src/Prism.js:165-176) passes `definition` but none of the others, and registration keeps the initial lists on `Type.initialStyles` (src/Prism.js:557, 571), not on `definition`. Run from `getStyleSheet` as written, the router therefore raises a TypeError at `childComponentNames.forEach` (src/DefaultPlugins.js:69), or at `initialStyles[attrName]` (src/DefaultPlugins.js:72), before it reaches line 89. `mapStyleToProp` would fail too, and so would `mapPropsToStyleState` with a string state, because the name object `ns` has no `getStateClassName` or `getChildStateClassName` (src/Prism.js:137-143). How the built-ins are invoked with these values is not part of this model.
- `mapStyleToProp`'s `overwrite` flag on the returned array is modelled as the `Overwrite` wrapper; no caller in the core reads it.
- The modules `./Plugins`, `./ExtendedPropertyPlugins`, `./PropTypes` and `./util` are not part of this model. The system plugin definitions are parameters, and prop-type validators are opaque values.

Two behaviours of the source are modelled as written and noted here rather than corrected:

- A property plugin runs when its attribute is defined in the props or in the context, but it always receives `props[propName]` (src/Prism.js:188-193). An attribute given only by the context therefore reaches the plugin as `undefined`.
- `collate` reads `processors.length` before the guard that tests `processors` (src/Processor.js:29-31). The read is the argument of a debugging `console.log`: the log output is omitted, but the argument is still evaluated, and that evaluation is what fails. A configuration without a list therefore raises a TypeError, which `Processing.Processor.Collate` states. The model keeps the TypeError because the code raises it whenever the line runs; the guard below it suggests a missing list was meant to be ignored.

In `compile`, when two invariants claim the same attribute, the second sees the attribute already deleted and records `undefined`; `Registry.StripPropLastRecord` states this. On an update, a group reruns only when its key holds a truthy value both in the new and in the current props (src/Prism.js:379), whether or not the value changed; the model follows that test.

## Findings

| source | as written | input that shows it | evidently intended | confidence | as-written member | corrected member |
|---|---|---|---|---|---|---|
| src/Prism.js:279 | `list.push(keys)` pushes the array of an object entry's keys as one element | available list `[{color: 'textColor', fontSize: 'size'}]` yields names `[['color','fontSize']]`, so no plugin can claim `color` | push each key (`list.push(...keys)`) | not executed | Instance.ObjectEntryAsWritten | Instance.AvailableNames |
| src/DefaultPlugins.js:89 | calls `mapPropsToStateStyle`, which is not defined anywhere | once `childComponentNames`, the initial lists and the name builders are supplied (without them the router fails earlier, at line 69 or 72), any component with a child group in `mapPropsToComponent` raises a ReferenceError | call `mapPropsToStyleState` | not executed | DefaultPlugins.RouterReferenceError | DefaultPlugins.RouteEffect |
| src/DefaultPlugins.js:13,20 | `isStyle = attrName` selects the top-level state rule for a child attribute name | once `ns` supplies `getStateClassName` and `getChildStateClassName`, string state `'active'` with `attrName = 'label'` reads the component's state rule instead of the label's | top-level rule for `style` (or no attribute), child rule otherwise | not executed | DefaultPlugins.StateLookupInverted | DefaultPlugins.MapPropsToStyleState |
| src/Processor.js:54-58 | destructures `config` before testing `hasPreProcessors` | `process` on the fresh singleton (`config` is `null`) raises a TypeError | return the target untouched when no rule was collated | not executed | Processing.Processor.ProcessAsWritten | Processing.Processor.Process |
