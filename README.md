# digitalhome-cloud designer — a verified Dafny model of its core

The designer is a Blockly editor for smart-home designs. A design is a tree of
blocks. Each block has a type such as `dhc_circuit` or `dhc_space`, an id, named
fields, and statement or value inputs that hold further blocks. This project
models the parts of the designer that compute something from such a design:

- **The A-Box serializer.** It maps block types, field names and input names to
  ontology names. It writes the design as Turtle text (W3C RDF 1.1 Turtle), and as a
  JSON graph of nodes and links. Modelled in `naming.dfy`, `traversal.dfy`,
  `turtle.dfy` and `graphjson.dfy`, over the block tree of `blocks.dfy`;
  `relationlinks.dfy` shows that the JSON links and the Turtle relation lines
  stand for the same relations. Field values
  and JavaScript's `Number(...)` are modelled in `numbers.dfy`, and string helpers in
  `text.dfy`.
- **The NF C 15-100 rule engine.** It runs four rules in a fixed order:
  - points per circuit (`maxpoints.dfy`);
  - protection device sizing (`protection.dfy`);
  - wire cross-section (`wiresection.dfy`);
  - the NF C 14-100 delivery chain (`deliverychain.dfy`).

  `engine.dfy` concatenates their violations and skips a rule that throws. The
  shared violation record and loops are in `violations.dfy`.
- **The nesting checker** (`connection.dfy`). It warns when a block sits in the wrong
  kind of parent.
- **The SmartHome id validator and parser** (`smarthomeid.dfy`). The id format is
  `CC-ZIP-STRnn-NN`.
- **The shell generator** (`shell.dfy`). It builds the starting workspace of a new
  home. French homes also get the NF C 14-100 meter and disconnect and the GTL.
- **The block registrar** (`registrar.dfy`). It registers the generated block
  definitions into Blockly once per session.
- **The builder tab's graph helpers** (`buildertab.dfy`) and **the instance graph's
  display filter** (`instancegraph.dfy`).

Code that is pure expressions is modelled as functions and lemmas. Loops become
methods proved against those functions. State that the source updates in place
becomes a class:
- the serializers' line and node lists;
- the shell generator's id counter and its block objects, which are shared between
  the FEEDS input and the top-level list;
- the registrar's flag and registry.

## Model

| member | source | states |
|---|---|---|
| Naming.BlockTypeToClass | src/blockly/aboxSerializer.js:16-25 | no class exactly when the type lacks the `dhc_` prefix; otherwise `dhc:` and the rest of the type in PascalCase: underscores dropped, and a character upper-cased exactly when it begins a `_`-part (`MarkParts` with the first part included) |
| Naming.JoinParts | src/blockly/aboxSerializer.js:19-23 | joining the capitalised `_`-parts (all of them, or all but the first) equals dropping the underscores from the text with exactly the part-initial characters upper-cased |
| Naming.GtlClass | src/blockly/aboxSerializer.js:16-25 | the GTL module type maps to `dhc:Nfc15100Gtl`: the module name becomes part of the class |
| Naming.InstanceIri | src/blockly/aboxSerializer.js:30-32 | every instance IRI is in the `dhc-instance:` namespace |
| Naming.InstanceIriInjective | src/blockly/aboxSerializer.js:30-32 | within one home, types and ids without `/` give distinct IRIs unless both type and id agree |
| Naming.CamelJoin | src/blockly/aboxSerializer.js:42 | the camel-case join starts with the first part unchanged and equals the plain concatenation of the parts up to case; on `split("_")` parts, `JoinParts` gives its capitals |
| Naming.FieldToProperty | src/blockly/aboxSerializer.js:38-44 | `LABEL` maps to `rdfs:label`; any other name to `dhc:` plus its camelCase: the name lower-cased, underscores dropped, and exactly the first character of every part after the first upper-cased |
| Naming.InputToProperty | src/blockly/aboxSerializer.js:49-72 | `dhc:` followed by the table entry, or else the whole name lower-cased |
| PropertyNames.PropertyTableCase | src/blockly/aboxSerializer.js:55-70 | every entry of the fourteen-name table is its key up to case |
| Naming.InputToPropertyCase | src/blockly/aboxSerializer.js:49-72 | for every input name, the property lower-cased is `dhc:` plus the name lower-cased |
| Traversal.ClassOf | src/blockly/aboxSerializer.js:94-96 | a managed block's class is what `blockTypeToClass` returns for its type |
| Traversal.Visited | src/blockly/aboxSerializer.js:93-170 | a managed block is visited first, before the blocks below it; an unmanaged block and everything below it are skipped |
| Traversal.VisitedManaged | src/blockly/aboxSerializer.js:95-96 | only blocks with an ontology class are ever visited |
| Traversal.VisitedInSubtree | src/blockly/aboxSerializer.js:155-169 | every visited block lies in the subtree of the block the walk started from |
| Numbers.ParseNum | src/blockly/aboxSerializer.js:112 | `Number(text)`: blank text reads as 0 and every result is a normalised decimal |
| Numbers.RenderRoundTrip | src/blockly/aboxSerializer.js:113 | a rendered number reads back as the same number |
| Turtle.Escape | src/blockly/aboxSerializer.js:117 | every `"` of the escaped text is preceded by a backslash |
| Turtle.UnescapeEscape | src/blockly/aboxSerializer.js:117 | escaping loses nothing: unescaping gives back the original text |
| Turtle.Quote | src/blockly/aboxSerializer.js:118 | a quoted literal begins and ends with `"` and holds the escaped text between them |
| Turtle.Literal | src/blockly/aboxSerializer.js:110-119 | there is no line exactly for a missing value or the empty string; every literal is non-empty |
| Turtle.LiteralNumber | src/blockly/aboxSerializer.js:112-113 | a value that `Number` reads is written bare, and the bare literal reads back as that number |
| Turtle.LiteralQuoted | src/blockly/aboxSerializer.js:112-119 | a literal is quoted exactly for text that is neither a number nor `TRUE`/`FALSE`, and unquoting it gives the text back |
| Turtle.BlankTextBare | src/blockly/aboxSerializer.js:112-113 | text made only of white space is written bare, because `Number` reads it as 0 |
| Turtle.TerminateLast | src/blockly/aboxSerializer.js:148-151 | only the last line is rewritten; the number of lines stays the same |
| Turtle.OwnLinesShape | src/blockly/aboxSerializer.js:98-151 | a block's lines are its IRI, then `a <Class>`, then its property lines; all but the last end in ` ;` and the last ends in ` .` |
| Turtle.SectionVisited | src/blockly/aboxSerializer.js:93-170 | the lines a block adds are the pieces of the visited blocks below it, in walk order |
| Turtle.TtlWriter.constructor | src/blockly/aboxSerializer.js:83-89 | the line list starts with the five prefix lines and a blank line |
| Turtle.TtlWriter.ProcessBlock | src/blockly/aboxSerializer.js:93-170 | `processBlock` appends exactly the block's section to the shared line list |
| Turtle.TtlWriter.EmitOwnLines | src/blockly/aboxSerializer.js:98-151 | appends the block's own lines with the last `;` turned into `.` |
| Turtle.TtlWriter.EmitBody | src/blockly/aboxSerializer.js:98-145 | appends the subject line, the class line and the property lines |
| Turtle.TtlWriter.EmitFields | src/blockly/aboxSerializer.js:103-120 | the field loop appends one line per named field that has a value, in field order |
| Turtle.TtlWriter.EmitStatementLines | src/blockly/aboxSerializer.js:123-133 | appends one line per block of every statement chain, input by input |
| Turtle.TtlWriter.EmitValueLines | src/blockly/aboxSerializer.js:136-145 | appends one line per connected value input |
| Turtle.TtlWriter.ProcessInputs | src/blockly/aboxSerializer.js:155-169 | appends the sections of the children, input by input and chain by chain |
| Turtle.TtlWriter.ProcessAll | src/blockly/aboxSerializer.js:172-174 | appends the sections of the top blocks, one after the other |
| Turtle.SerializeToTTL | src/blockly/aboxSerializer.js:80-177 | no workspace gives the empty text; otherwise the prefix lines and every top block's section, joined by newlines |
| GraphJson.Assign | src/blockly/aboxSerializer.js:208 | `properties[name] = value`: a new key goes last, an existing key keeps its place, and other keys keep their values |
| GraphJson.FieldPropertiesLookup | src/blockly/aboxSerializer.js:202-209 | the keys are distinct, and each named field's entry is the value of its last field of that name |
| GraphJson.CollectProperties | src/blockly/aboxSerializer.js:207-209 | the loop builds exactly the specified properties |
| GraphJson.DesignView | src/blockly/aboxSerializer.js:212-215 | `spatial` exactly when a spatial word occurs; `electrical` exactly when an electrical word occurs and no spatial one; otherwise `shared` |
| GraphJson.NodeLabel | src/blockly/aboxSerializer.js:198-199 | a truthy `LABEL`, or else the class name without `dhc:` |
| GraphJson.NodesOfManaged | src/blockly/aboxSerializer.js:217-224 | over managed blocks, node `i` is the node of block `i` |
| GraphJson.LinkLabel | src/blockly/aboxSerializer.js:235 | the link label is the object property without `dhc:` |
| GraphJson.LinkSourcesAreNodes | src/blockly/aboxSerializer.js:226-255 | every link of the JSON graph starts at one of its nodes |
| GraphJson.SerializersAgree | src/blockly/aboxSerializer.js:185-263 | Turtle and JSON describe the same blocks in the same order, with the same IRIs and classes |
| RelationLinks.TopLinksOwn | src/blockly/aboxSerializer.js:226-260 | the JSON walk's links are, up to order, the links each visited block pushes for its own inputs |
| RelationLinks.OwnLinksMatchLines | src/blockly/aboxSerializer.js:122-145 | a block's own links are, up to order, its statement links then its value links; these stand one for one for its statement and value lines (same target, property `dhc:` plus the label, type containment or reference); as many links as relation lines |
| RelationLinks.StatementDescribed | src/blockly/aboxSerializer.js:122-133 | statement link `i` leaves the block, is a containment link, and written as a line is statement line `i` |
| RelationLinks.ValueDescribed | src/blockly/aboxSerializer.js:135-145 | value link `i` leaves the block, is a reference link, and written as a line is value line `i` |
| RelationLinks.LinkLine | src/blockly/aboxSerializer.js:232-237 | a link's `dhc:` plus label and target give back the Turtle relation line of the same input and child |
| RelationLinks.LinkCount | src/blockly/aboxSerializer.js:185-263 | the JSON graph has exactly as many links as the Turtle text has relation lines |
| RelationLinks.LinksMatchRelationLines | src/blockly/aboxSerializer.js:226-255 | for a visited block whose IRI no other visited block shares, the JSON links leaving its IRI match its relation lines one for one, up to order |
| GraphJson.JsonWriter.constructor | src/blockly/aboxSerializer.js:188-189 | node and link lists start empty |
| GraphJson.JsonWriter.ProcessBlock | src/blockly/aboxSerializer.js:192-256 | appends the nodes of the visited blocks and the block's links |
| GraphJson.JsonWriter.ProcessInputs | src/blockly/aboxSerializer.js:227-255 | appends, input by input, each link followed by its target's nodes and links |
| GraphJson.JsonWriter.ProcessChain | src/blockly/aboxSerializer.js:228-241 | appends one containment link per chain block, each followed by that block's processing |
| GraphJson.JsonWriter.ProcessAll | src/blockly/aboxSerializer.js:258-260 | appends the graphs of the top blocks in order |
| GraphJson.SerializeToJSON | src/blockly/aboxSerializer.js:185-263 | `serializeToJSON` returns exactly the specified graph, which is empty without a workspace |
| Blocks.FieldValue | src/validation/rules/maxPointsPerCircuit.js:38 | `getFieldValue`: the first field of that name, or missing when no field has it |
| Blocks.LabelOr | src/validation/rules/protectionDeviceSizing.js:43 | a truthy `LABEL` as text, or else the fallback |
| Violations.CountEquipment | src/validation/rules/maxPointsPerCircuit.js:24-33 | the count is the number of blocks in the `FEEDSEQUIPMENT` chains |
| Violations.FindFirstTarget | src/validation/rules/protectionDeviceSizing.js:47-53 | the block of the first input named `HASPROTECTION`, or none |
| Violations.FlatMapMember | src/validation/rules/maxPointsPerCircuit.js:18-43 | a rule reports a violation exactly when one of the blocks' checks produces it |
| MaxPointsRule.MaxPoints | src/validation/rules/maxPointsPerCircuit.js:21 | the limit is a non-zero number, 8 when the field is missing |
| MaxPointsRule.PointsMessage | src/validation/rules/maxPointsPerCircuit.js:38 | the message names the circuit's label, the number of points and the maximum |
| MaxPointsRule.PointsCheck | src/validation/rules/maxPointsPerCircuit.js:18-42 | at most one error, raised exactly when a circuit block has more equipment than its limit, reported on the circuit, with a message that contains the count and the limit |
| MaxPointsRule.ValidateMaxPointsPerCircuit | src/validation/rules/maxPointsPerCircuit.js:14-46 | the loop reports the checks of all blocks, in order |
| MaxPointsRule.OverloadReported | src/validation/rules/maxPointsPerCircuit.js:35-42 | every overloaded circuit is reported as an error on its id, whose message gives the count and the limit |
| MaxPointsRule.OnlyOverloadReported | src/validation/rules/maxPointsPerCircuit.js:35-42 | every report comes from an overloaded circuit |
| ProtectionRule.TypesOf | src/validation/rules/protectionDeviceSizing.js:12-21 | the set holds exactly the types of the given blocks |
| ProtectionRule.CollectEquipmentTypes | src/validation/rules/protectionDeviceSizing.js:12-21 | the loop over the inputs collects the types of every `FEEDSEQUIPMENT` chain |
| ProtectionRule.ChainTypes | src/validation/rules/protectionDeviceSizing.js:15-19 | the loop down one chain collects the type of each block on it |
| ProtectionRule.InferCircuitType | src/validation/rules/protectionDeviceSizing.js:10-28 | the inferred kind is the specified one |
| ProtectionRule.CircuitKindMeaning | src/validation/rules/protectionDeviceSizing.js:23-27 | lighting exactly when a light is fed; sockets exactly when a socket and no light; dedicated exactly when neither, and a heater or a single equipment type; mixed in every other case, including no equipment |
| ProtectionRule.SingleTypeDedicated | src/validation/rules/protectionDeviceSizing.js:26 | equipment all of one type other than light or socket makes a dedicated circuit |
| ProtectionRule.RatedCurrent | src/validation/rules/protectionDeviceSizing.js:65 | `Number(RATED_CURRENT) || 0` is a normalised number |
| ProtectionRule.ProtectionCheck | src/validation/rules/protectionDeviceSizing.js:40-88 | at most one report, only for `dhc_circuit`; a circuit without a protection device gets the missing-device warning on its own id |
| ProtectionRule.SizingMatchesExpected | src/validation/rules/protectionDeviceSizing.js:67-88 | with a device, a report is raised exactly when the rating breaks the limit for the circuit's kind, on the device's id |
| ProtectionRule.ValidateProtectionDeviceSizing | src/validation/rules/protectionDeviceSizing.js:36-92 | the loop reports the checks of all blocks, in order |
| ProtectionRule.MissingReported | src/validation/rules/protectionDeviceSizing.js:55-62 | every circuit without a protection device is warned about |
| ProtectionRule.ReportsFromCircuits | src/validation/rules/protectionDeviceSizing.js:36-92 | every report comes from a core circuit and carries one of the two rule ids |
| WireSectionRule.FindBand | src/validation/rules/wireCrossSection.js:45-47 | the first band whose maximum is not below the current, or none when every band is below |
| WireSectionRule.FindBandRequired | src/validation/rules/wireCrossSection.js:8-12 | the band found gives 1.5 mm² up to 10 A, 2.5 up to 20 A, 6 up to 32 A, and none above |
| WireSectionRule.NumberOrZero | src/validation/rules/wireCrossSection.js:41 | `Number(...) \|\| 0` is a normalised number |
| WireSectionRule.WireCheck | src/validation/rules/wireCrossSection.js:41-56 | at most one report per wiring segment |
| WireSectionRule.WireCheckMeaning | src/validation/rules/wireCrossSection.js:43-56 | a segment is reported exactly when both numbers are positive, a band exists and the section is below its minimum |
| WireSectionRule.WireChecksReports | src/validation/rules/wireCrossSection.js:49-56 | every report is an error of this rule on one of the segments |
| WireSectionRule.WireCircuitCheck | src/validation/rules/wireCrossSection.js:18-62 | nothing for a block that is not a core circuit or that has no protection device |
| WireSectionRule.CheckWirings | src/validation/rules/wireCrossSection.js:37-62 | the loop over the inputs reports the checks of every `HASWIRING` segment, in order |
| WireSectionRule.CheckSegments | src/validation/rules/wireCrossSection.js:39-60 | the loop down one segment chain reports the check of each segment, in order |
| WireSectionRule.ValidateWireCrossSection | src/validation/rules/wireCrossSection.js:14-66 | the loop reports the checks of all blocks, in order |
| WireSectionRule.ReportsFromSegments | src/validation/rules/wireCrossSection.js:14-66 | every report is an error from a core circuit with a protection device |
| DeliveryChainRule.Nfc14100Blocks | src/validation/rules/deliveryChain.js:17-19 | exactly the blocks with the `dhc_nfc14100_` prefix |
| DeliveryChainRule.Nfc14100First | src/validation/rules/deliveryChain.js:17-19 | the filter keeps order: its head is the first NF C 14-100 block |
| DeliveryChainRule.RequirementChecksMember | src/validation/rules/deliveryChain.js:39-77 | a violation is reported exactly for a requirement that no block meets |
| DeliveryChainRule.DeliveryViolationsMeaning | src/validation/rules/deliveryChain.js:12-80 | silent exactly when there is no NF C 14-100 block or the chain is complete; otherwise one error per missing link, on the first NF C 14-100 block |
| DeliveryChainRule.ValidateDeliveryChain | src/validation/rules/deliveryChain.js:12-80 | the early return and the chain check give the specified violations |
| DeliveryChainRule.CheckChain | src/validation/rules/deliveryChain.js:26-77 | the four tests and pushes report the missing requirements in order |
| Engine.Outcomes | src/validation/nfc15100.js:30-33 | one outcome per rule, in rule order |
| Engine.RunRule | src/validation/nfc15100.js:31-32 | running a rule gives its violations |
| Engine.ValidateWorkspace | src/validation/nfc15100.js:25-40 | nothing without a workspace, else the collected results of the rules |
| Engine.FailureIsolated | src/validation/nfc15100.js:30-37 | a rule that throws loses only its own results; the results around it are unchanged |
| Engine.CollectedMember | src/validation/nfc15100.js:30-37 | a violation is collected exactly when a successful rule reported it |
| Engine.ValidationInOrder | src/validation/nfc15100.js:13-18 | the result is the four rules' violations, concatenated in rule order |
| Engine.RuleViolationsIds | src/validation/nfc15100.js:13-18 | each rule's reports carry that rule's ids |
| Engine.ValidationIds | src/validation/nfc15100.js:25-39 | every report of the engine carries one of the five known rule ids |
| ConnectionCheck.GtlIsCircuit | src/blockly/connectionCheckers.js:19-28 | every GTL type is both a circuit type and a technical-space type |
| ConnectionCheck.GetLabel | src/blockly/connectionCheckers.js:106-108 | without a label: the type without `dhc_`, with every `_` made a space |
| ConnectionCheck.ContextIssues | src/blockly/connectionCheckers.js:36-104 | no parent gives no issue; every issue is a warning |
| ConnectionCheck.AtMostTwoIssues | src/blockly/connectionCheckers.js:36-104 | at most two issues, and two only for a type that is both a circuit and a technical space |
| ConnectionCheck.GtlAlwaysWarned | src/blockly/connectionCheckers.js:73-101 | a GTL block is warned under every parent, twice under a parent that is not a board, floor, area or space |
| ConnectionCheck.EquipmentWarned | src/blockly/connectionCheckers.js:50-60 | equipment is warned exactly when its parent is neither a space nor a circuit type |
| ConnectionCheck.ProtectionWarned | src/blockly/connectionCheckers.js:63-70 | a protection device is warned exactly when its parent is not a circuit type |
| ConnectionCheck.CircuitWarned | src/blockly/connectionCheckers.js:73-80 | a non-GTL circuit is warned exactly when its parent is not a distribution board |
| ConnectionCheck.SpaceWarned | src/blockly/connectionCheckers.js:83-90 | a space is warned exactly when its parent is neither a floor nor an area |
| ConnectionCheck.TechnicalSpaceWarned | src/blockly/connectionCheckers.js:93-101 | the core technical space is warned exactly when its parent is not a floor, area or space |
| ConnectionCheck.CheckBlockContext | src/blockly/connectionCheckers.js:36-104 | the five guarded pushes give the specified issues |
| SmartHomeId.TestPatternMeaning | src/utils/smartHomeIdValidator.js:13 | the pattern test accepts exactly the ids of the form `CC-ZIP-STRnn-NN` |
| SmartHomeId.ParseParts | src/utils/smartHomeIdValidator.js:47-57 | the captured parts are always well formed |
| SmartHomeId.ParsePartsMeaning | src/utils/smartHomeIdValidator.js:47 | parsing succeeds exactly on the ids the pattern describes |
| SmartHomeId.ParsePartsSound | src/utils/smartHomeIdValidator.js:47-57 | the captured parts reassemble to the input |
| SmartHomeId.ParsePartsComplete | src/utils/smartHomeIdValidator.js:47-57 | well-formed parts, once assembled, parse back to themselves |
| SmartHomeId.ValidateSmartHomeId | src/utils/smartHomeIdValidator.js:20-36 | a missing or empty id is "required"; every other error is the format message |
| SmartHomeId.ParseSmartHomeId | src/utils/smartHomeIdValidator.js:43-58 | a parse result is always well formed |
| SmartHomeId.ValidateAgreesWithParse | src/utils/smartHomeIdValidator.js:20-58 | for a non-empty id, validation succeeds exactly when parsing does |
| SmartHomeId.ParseRoundTrip | src/utils/smartHomeIdValidator.js:43-58 | the parsed parts reassemble to the trimmed, upper-cased id |
| SmartHomeId.AssembleParses | src/utils/smartHomeIdValidator.js:20-58 | an assembled id of well-formed parts validates and parses back to those parts |
| SmartHomeId.NormalizeIdempotent | src/utils/smartHomeIdValidator.js:25 | trimming and upper-casing twice is the same as once, and parsing does not see the difference |
| SmartHomeId.ValidateNormalized | src/utils/smartHomeIdValidator.js:20-36 | an id and its normalised form are equally valid |
| ShellGenerator.ShellIdInjective | src/utils/shellGenerator.js:13-15 | different counter values give different ids |
| ShellGenerator.Plan | src/utils/shellGenerator.js:55-112 | six top blocks for France, three elsewhere |
| ShellGenerator.PlanIdsDistinct | src/utils/shellGenerator.js:12-15 | the planned blocks get pairwise distinct ids |
| ShellGenerator.ShellBlock.constructor | src/utils/shellGenerator.js:21-25 | a new block has its type and id, no fields, no inputs and no position |
| ShellGenerator.Generator.constructor | src/utils/shellGenerator.js:12 | the counter starts at 0 |
| ShellGenerator.Generator.NextId | src/utils/shellGenerator.js:13-15 | increments the counter and returns `shell_` followed by the new value |
| ShellGenerator.Generator.MakeBlock | src/utils/shellGenerator.js:20-40 | a fresh block with the next id, the given fields, and inputs only when some are given |
| ShellGenerator.Generator.SetFields | src/utils/shellGenerator.js:27-29 | the block's fields become exactly the given fields, in their order; its inputs and position are untouched |
| ShellGenerator.Generator.CopyInputs | src/utils/shellGenerator.js:32-37 | the inputs object lists every extra input, in order |
| ShellGenerator.Generator.TopBlocks | src/utils/shellGenerator.js:53-112 | with the counter at 0: fresh, pairwise distinct blocks with the plan's types, ids and fields, in the plan's order; in France the energy delivery FEEDS the meter and the meter has an empty input map; every other block has no inputs |
| ShellGenerator.Generator.FrenchTopBlocks | src/utils/shellGenerator.js:73-106 | adds meter, disconnect and GTL; the energy delivery FEEDS the meter object itself, the meter gets an empty input map; the six top blocks are in chain order |
| ShellGenerator.Generator.Position | src/utils/shellGenerator.js:115-120 | block `i` is placed at x 50 and y 50 + 200·i; nothing else changes |
| ShellGenerator.Generator.GenerateShellWorkspace | src/utils/shellGenerator.js:49-128 | language version 0; the blocks follow the plan with ids `shell_1…`, distinct and fresh, positioned in a column; in France the energy delivery FEEDS the listed meter |
| BlockRegistrar.Registered | src/blockly/blockRegistrar.js:20-28 | existing entries are kept, the new keys are exactly the definitions' types, and every new entry is a definition of its own type |
| BlockRegistrar.FirstDefinitionWins | src/blockly/blockRegistrar.js:21 | a new type repeated within one call keeps its first definition |
| BlockRegistrar.AlreadyRegistered | src/blockly/blockRegistrar.js:21 | definitions whose types are all registered leave the registry unchanged |
| BlockRegistrar.RegisteredIdempotent | src/blockly/blockRegistrar.js:16-30 | registering the same definitions twice is the same as once |
| BlockRegistrar.Registrar.constructor | src/blockly/blockRegistrar.js:9 | the flag starts down; the registry holds Blockly's own blocks |
| BlockRegistrar.Registrar.RegisterBlocks | src/blockly/blockRegistrar.js:16-32 | nothing once registered; nothing and flag still down without an array; otherwise every new type is added and the flag goes up, even for an empty array |
| BlockRegistrar.Registrar.Reset | src/blockly/blockRegistrar.js:37-39 | clears the flag and keeps the registry |
| BuilderTab.OrElse | src/components/BuilderTab.js:23 | `s \|\| fallback`: a present, non-empty string, or else the fallback |
| BuilderTab.NodeOf | src/components/BuilderTab.js:18-28 | the node copies the record's id, node id, label and type; its view is the design view or "other", never empty |
| BuilderTab.Links | src/components/BuilderTab.js:30-39 | at most one link per record |
| BuilderTab.BuildGraphData | src/components/BuilderTab.js:17-42 | one node per record, in order, and the loop's links are exactly the specified ones |
| BuilderTab.LinksAppend | src/components/BuilderTab.js:31-39 | links keep record order: the links of two runs of records are concatenated |
| BuilderTab.LinksMember | src/components/BuilderTab.js:31-39 | a link is built exactly for a record with a truthy parent: parent to record, typed `linkType` or "contains" |
| BuilderTab.LinksIntoNodes | src/components/BuilderTab.js:30-39 | every link goes from a non-empty parent id to the id of one of the graph's nodes, with a non-empty type |
| BuilderTab.ToggleView | src/components/BuilderTab.js:141-148 | the updater returns the toggled copy of the visible views |
| BuilderTab.Toggled | src/components/BuilderTab.js:143-146 | the toggled view flips membership and every other view keeps its membership |
| BuilderTab.ToggleTwice | src/components/BuilderTab.js:141-148 | toggling a view twice restores the visible views |
| BuilderTab.FindCatalogItem | src/components/BuilderTab.js:169 | the found item is the first catalogue item with the id; none means no item has it |
| BuilderTab.Assign | src/components/BuilderTab.js:166-172 | only records with the id change, and only in their catalogue item id and item |
| BuilderTab.Unassign | src/components/BuilderTab.js:193-197 | only records with the id change, and they lose their catalogue item id and item |
| BuilderTab.UnassignAfterAssign | src/components/BuilderTab.js:166-197 | unassigning after an assignment is the same as unassigning alone |
| BuilderTab.AssignKeepsLinks | src/components/BuilderTab.js:166-197 | assigning or unassigning leaves the graph's links unchanged |
| InstanceGraph.ColorOf | src/components/InstanceGraph.js:50 | the view's colour for the eight views, otherwise the default; never empty |
| InstanceGraph.ShownNodes | src/components/InstanceGraph.js:43-47 | kept exactly: nodes without a view, or whose view is visible, or any node when there is no filter |
| InstanceGraph.ShownNodesAppend | src/components/InstanceGraph.js:43-47 | the filter keeps input order |
| InstanceGraph.EndpointId | src/components/InstanceGraph.js:56 | a string end counts as itself; an object end counts by its id only when that id is non-empty |
| InstanceGraph.KeptLinks | src/components/InstanceGraph.js:54-57 | kept exactly, in input order: the links with both ends among the ids |
| InstanceGraph.KeptLinksAppend | src/components/InstanceGraph.js:54-57 | the link filter keeps input order: filtering two runs of links concatenates their results |
| InstanceGraph.ProcessedData | src/components/InstanceGraph.js:40-60 | no graph data gives no nodes and no links; otherwise one drawn node per shown node |
| InstanceGraph.ProcessedNodes | src/components/InstanceGraph.js:43-52 | drawn node `i` is shown input node `i`, sized 8 for a space and 5 otherwise, coloured by its view or the default |
| InstanceGraph.LinksClosed | src/components/InstanceGraph.js:54-57 | a link is kept exactly when it is an input link with both ends among the drawn node ids |
| InstanceGraph.DrawnIds | src/components/InstanceGraph.js:54 | the drawn ids are exactly the ids of the shown input nodes |
| InstanceGraph.NoFilterShowsAll | src/components/InstanceGraph.js:45 | without a view filter every node is drawn |
| InstanceGraph.UnviewedRecordHidden | src/components/InstanceGraph.js:45 | a record without a design view gets the view "other", which is hidden while only design views are visible |

## Left out

- Blockly itself is not modelled: workspaces, connections, `getParent` and the block registry's `init`/`jsonInit` callback. The model works on an immutable tree of blocks, and the registry maps a type to its definition.
- The parent given to `checkBlockContext` is a parameter of `ConnectionCheck.ContextIssues` and `ConnectionCheck.CheckBlockContext`; the model does not compute it from the tree. In Blockly, `getParent` of a block chained below another in a statement input is the previous block in that chain, not the enclosing container. So for the second and later blocks of a chain the editor checks the block against its predecessor, and the per-parent `Warned` lemmas then describe that predecessor, not the container.
- `getAllBlocks(false)` is modelled as the pre-order listing of the top blocks' trees. Blockly's unordered listing depends on the order in which blocks were attached, and the model does not reproduce that.
- JavaScript `Number(...)` is modelled for decimal text: white space, a sign, digits and an optional point. Exponents, hexadecimal, `Infinity` and `NaN` as a value are left out. Numbers are exact decimals, so floating-point rounding is not modelled.
- The rendering of a number in messages and in Turtle is the shortest decimal form of an exact decimal. JavaScript's exponent notation for very large or very small numbers is not modelled.
- Trimming, upper-casing and `\s` cover ASCII only. Unicode white space and case mapping are left out.
- The `typeof id !== "string"` test of the SmartHome id validator is modelled as a missing id (`None`).
- ShellGenerator.Generator.GenerateShellWorkspace: its `smartHomeId` argument is accepted and unused, as in the source.
- ShellGenerator.Generator.SetFields: requires distinct field names and a block with no fields yet, which is how `makeBlock` calls it.
- GraphJson.Assign: the insertion order of integer-like field names ("0", "10", ...) is not modelled. A JavaScript object lists such keys first, in ascending numeric order, while the model puts every new key last. A field named `__proto__` creates no own key in JavaScript; the model treats it as an ordinary name.
- ShellGenerator.Generator.MakeBlock: requires distinct field names, which stand for the keys of an object literal. Insertion order of integer-like keys is not modelled.
- The rules and the engine are total on the modelled tree, so a rule that throws never arises. The engine still handles a failed outcome, and `Engine.FailureIsolated` is proved for any sequence of outcomes.
- Console output and the `try`/`catch` logging of the rule engine and the registrar are left out.
- The builder tab's GraphQL fetching and mutations, React state, memoisation and rendering are left out. The assign and unassign updaters are modelled; they only run after a successful mutation.
- Top-level stacks are not modelled: a workspace is a sequence of top blocks, and a top block has no next block. In Blockly, blocks chained below a top block are listed by `getAllBlocks` and so checked by the rules, while both serializers skip them: they start from `getTopBlocks` only, and `processBlock` never follows a block's own next connection.
- Naming.InputToProperty: the property table is a lookup of its fourteen names only. JavaScript's `propertyMap[inputName]` also finds inherited names such as `constructor` or `toString`; for such an input name the source would produce a different property, and the model does not capture that.
- InstanceGraph.ColorOf: inherited properties of the colour object (such as `constructor`) are not modelled. Only the eight view names have colours.
- The node and link copies made with object spread in the instance graph are modelled as values, so object identity is not captured.
