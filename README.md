# Route-Sim HUD core, modelled in Dafny

This project models the logic core of the Route-Sim browser HUD. It covers the
wire protocol between the HUD and the simulation, the rules behind the
containers that drive the simulation, and the small storage class the HUD's
persistence relies on:

- **Protocol schema** (`ProtocolSchema`, modules `Zod`, `Json`): JSON values,
  a schema-combinator datatype with its interpreter `Zod.Validate`, the two
  name-to-schema tables (actions and signals), and envelope encoding and
  decoding. Decoding is the ordered union of one envelope variant per table
  entry. It is proved equal to a reference that looks the schema up by the
  discriminant (`ProtocolSchema.DecodeEnvelopePicksVariant`). Facts about
  individual schemas are in `SchemaFacts`.
- **Action-to-reply mapping** (`ProtocolMapping`): the action-to-signal table
  and the default reply matcher.
- **Panel visibility** (`HudVisibility`): the visibility record, its
  rehydration from storage over the defaults, and the `setVisible`, `toggle`
  and `isVisible` operations. The provider is a class over a
  `MemoryStorage.MemoryStorage`.
- **Playback controls** (`SimulationControls`, `Playback`): reading the
  stored tick rate and speed, the initial-state precedence, clamping on
  commit, the status machine of `issue`, and the export guard.
- **Map creator** (`MapCreator`): the default parameters and the proof that
  `map.create` accepts them. Also the number, slider, range and preset
  updates with the input clamps, the `map.created` merge, the export name,
  and the create, export and import guards. The form is a class whose
  invariant is that `map.create`'s fields are present and ranges are pairs.
  Its `map.created` handler spreads the whole reply into the form, as the
  code does; a second handler applies the corrected merge.
- **State importer** (`StateImporter`): the import guard and the success
  condition. The chunked byte-to-binary-string loop is shared with the map
  creator (`Bytes`).
- **Map graph** (`MapGraph`): the fit scale, the node index, the road style
  table and widths, and the edge-drawing loop that drops edges with an
  unknown endpoint.
- **`MemoryStorage`** (`MemoryStorage`): an insertion-ordered key/value store
  updated in place, and `ensureStorage`.

Browser and library effects enter as parameters: `Number()` on strings,
`String()`, `JSON.parse`, `JSON.stringify` and `btoa`. The module comments
say which parameters each module takes.

Where the code and its surrounding description disagree, the model follows
the code:

- the map creator's import handler does not consult the run status;
- the map creator's `map.created` handler
  (`MapCreator.MapCreator.HandleMapCreated`) copies every key of the reply
  into the form, so the form then fails the strict `map.create` schema; the
  handler with the corrected merge is
  `MapCreator.MapCreator.HandleMapCreatedCorrected` (see Findings).

## Model

| member | source | states |
|---|---|---|
| Zod.Validate | src/net/protocol/schema.ts:1-14 | a successful parse returns a number, string, boolean, literal or enum value unchanged, an array of the input's length for a tuple or array, and an object for an object or record schema |
| Zod.ObjectAccepts | src/net/protocol/schema.ts:30-71 | an object schema accepts exactly the objects whose every listed field parses, and in the strict mode only those without unlisted keys |
| Zod.ObjectOutputKeys | src/net/protocol/schema.ts:164-206 | the output of an accepted object holds each listed field's parsed value (absent when that comes out undefined), and an unlisted key survives only in the catch-all mode, unchanged |
| Zod.DefaultFieldMissing | src/net/protocol/schema.ts:162 | a missing field with a default comes out as the parsed default |
| Zod.TupleAccepts | src/net/protocol/schema.ts:30-71 | a tuple accepts exactly the arrays of its length whose every item passes its own schema, and outputs the item results in order |
| Zod.ArrayAccepts | src/net/protocol/schema.ts:144-160 | an array schema accepts exactly the arrays whose every element passes, and outputs the element results in order |
| Zod.AllOptionalAbsent | src/net/protocol/schema.ts:4-14 | an object of optional fields, none present, parses to the empty object |
| Zod.UnionFirstAccepting | src/net/protocol/schema.ts:76 | a union's result is that of its first accepting arm |
| Zod.UnionNoneAccepting | src/net/protocol/schema.ts:202-206 | a union with no accepting arm rejects |
| Zod.ObjectUnionNeedsObject | src/net/protocol/schema.ts:480-504 | a union of object variants accepts only objects |
| Zod.UnionOnlyCandidate | src/net/protocol/schema.ts:202-206 | when every other arm rejects, the union accepts iff the remaining arm does, with that arm's result |
| ProtocolSchema.Extend | src/net/protocol/schema.ts:174-200 | `.extend` lists the base and extension keys, with the extension winning |
| ProtocolSchema.Zip | src/net/protocol/schema.ts:18-102 | the table entries pair each name with its schema, in order |
| ProtocolSchema.Names | src/net/protocol/schema.ts:480-504 | the names of a table, in order |
| ProtocolSchema.SchemaFor | src/net/protocol/schema.ts:506-512 | a lookup finds a schema exactly for the names in the table, and the schema it finds is one listed under that name |
| ProtocolSchema.TableNames | src/net/protocol/schema.ts:18-102 | the two tables list exactly the declared action and signal names |
| ProtocolSchema.ActionNamesDistinct | src/net/protocol/schema.ts:18-102 | no action name is declared twice |
| ProtocolSchema.SignalNamesDistinct | src/net/protocol/schema.ts:346-452 | no signal name is declared twice |
| ProtocolSchema.SchemaForIndex | src/net/protocol/schema.ts:480-504 | in a table without repeated names, looking an entry's name up finds that entry's schema |
| ProtocolSchema.EnvelopeArms | src/net/protocol/schema.ts:480-504 | one envelope variant per table entry, in table order, with the literal name, the payload schema and an optional string id |
| ProtocolSchema.ArmAccepts | src/net/protocol/schema.ts:480-504 | an envelope variant accepts exactly the objects with its own name, a valid payload and an absent or string id |
| ProtocolSchema.ArmOutput | src/net/protocol/schema.ts:480-504 | an accepted variant reads back as the envelope of its name, its parsed payload and its id |
| ProtocolSchema.ArmNeedsName | src/net/protocol/schema.ts:480-504 | a variant accepts only objects carrying its own name |
| ProtocolSchema.NoVariantForName | src/net/protocol/schema.ts:506-512 | an envelope whose discriminant is missing or not a table name is rejected |
| ProtocolSchema.OnlyNamedVariant | src/net/protocol/schema.ts:480-512 | for an envelope carrying a table name, the union decides exactly as that name's variant does |
| ProtocolSchema.PickVariant | src/net/protocol/schema.ts:480-512 | the reference decoding yields an envelope only for an object whose discriminant is that envelope's name and names a table entry, with an id exactly when the object carries one |
| SchemaFacts.PickRejectsPayload | src/net/protocol/schema.ts:480-512 | the reference decoding rejects an envelope whose payload fails the schema its name selects |
| ProtocolSchema.DecodeEnvelope | src/net/protocol/schema.ts:506-512 | decoding accepts only JSON objects |
| ProtocolSchema.DecodeEnvelopePicksVariant | src/net/protocol/schema.ts:480-512 | decoding succeeds iff picking the schema by the discriminant and parsing the payload with it alone succeeds, and both give the same envelope |
| ProtocolSchema.EncodeAction | src/net/protocol/schema.ts:514-520 | encoding keeps the action name, the parameters and the id exactly as given |
| ProtocolSchema.DecodeSignal | src/net/protocol/schema.ts:506-508 | a signal decodes iff the variant picked by `signal` accepts it, with that envelope as result |
| ProtocolSchema.DecodeAction | src/net/protocol/schema.ts:510-512 | an action decodes iff the variant picked by `action` accepts it, with that envelope as result |
| SchemaFacts.EncodeDecodeRoundTrip | src/net/protocol/schema.ts:506-520 | parameters that their schema returns unchanged survive encoding and decoding |
| SchemaFacts.EncodeDoesNotValidate | src/net/protocol/schema.ts:514-520 | encoding passes a zero tick rate through, and decoding that envelope fails |
| SchemaFacts.StartRejectedWithBadParams | src/net/protocol/schema.ts:510-512 | a `simulation.start` request whose parameters fail the playback schema does not decode |
| SchemaFacts.StartRequestRoundTrip | src/net/protocol/schema.ts:19-22 | a `simulation.start` request with tick rate 60 and speed 1 round-trips, with or without an id |
| SchemaFacts.PlaybackActionsShareSchema | src/net/protocol/schema.ts:19-29 | `simulation.start` and `simulation.update` take the same parameter schema |
| SchemaFacts.PositiveIntAccepts | src/net/protocol/schema.ts:20 | the tick-rate schema accepts exactly the integers at least 1, unchanged |
| SchemaFacts.NonNegativeAccepts | src/net/protocol/schema.ts:21 | the speed schema accepts exactly the numbers at least 0, unchanged |
| SchemaFacts.PositiveIntFieldAccepts | src/net/protocol/schema.ts:20 | the tick-rate field parses iff present, an integer and at least 1 |
| SchemaFacts.NonNegativeFieldAccepts | src/net/protocol/schema.ts:21 | the speed field parses iff present and at least 0 |
| SchemaFacts.PlaybackParamsExact | src/net/protocol/schema.ts:19-29 | the playback parameters are accepted iff `tick_rate` is an integer at least 1 and `speed` at least 0; the output keeps just those two |
| SchemaFacts.MapCreateFieldsRequired | src/net/protocol/schema.ts:30-71 | every `map.create` field is required |
| SchemaFacts.MapCreateAccepts | src/net/protocol/schema.ts:30-71 | `map.create` accepts exactly the objects with its keys, each valid |
| SchemaFacts.MapCreateRejectsUnknownKey | src/net/protocol/schema.ts:71 | any unlisted key makes `map.create` reject |
| SchemaFacts.ProbabilityFieldBounds | src/net/protocol/schema.ts:30-71 | a probability field accepts exactly the numbers in [0, 1] |
| SchemaFacts.RangeFieldBounds | src/net/protocol/schema.ts:30-71 | a range field accepts exactly the pairs of numbers at least 0 |
| SchemaFacts.RangeOrderNotChecked | src/net/protocol/schema.ts:30-71 | a range whose low end exceeds its high end is accepted |
| SchemaFacts.MapCreatedRejectsGasStationCount | src/net/protocol/schema.ts:368-419 | a `map.created` payload carrying `generated_gas_stations` is rejected |
| SchemaFacts.AgentArmNeedsKind | src/net/protocol/schema.ts:164-200 | an agent arm accepts only objects carrying its own `kind` literal |
| SchemaFacts.AgentSignalArmKind | src/net/protocol/schema.ts:202-206 | the building, truck and broker arms need `kind` building, truck and broker |
| SchemaFacts.BuildingArmKind | src/net/protocol/schema.ts:174-181 | the building arm needs `kind` building |
| SchemaFacts.TruckArmKind | src/net/protocol/schema.ts:183-195 | the truck arm needs `kind` truck |
| SchemaFacts.BrokerArmKind | src/net/protocol/schema.ts:197-200 | the broker arm needs `kind` broker |
| SchemaFacts.AgentSignalNeedsKnownKind | src/net/protocol/schema.ts:202-206 | an accepted agent signal carries one of the three kinds |
| SchemaFacts.AgentSignalByKind | src/net/protocol/schema.ts:202-206 | the agent signal decides exactly as the arm its `kind` names, with that arm's result |
| SchemaFacts.ObjectNeedsKind | src/net/protocol/schema.ts:208-251 | an object variant with a `kind` literal accepts only objects carrying that `kind` |
| SchemaFacts.UpdatedArmKind | src/net/protocol/schema.ts:208-251 | the truck and broker update arms need `kind` truck and broker |
| SchemaFacts.AgentUpdatedByKind | src/net/protocol/schema.ts:208-254 | agent update data decides exactly as the arm its `kind` names, with that arm's result |
| SchemaFacts.AgentArmTagsDefault | src/net/protocol/schema.ts:162-170 | an agent arm without `tags` outputs empty tags |
| SchemaFacts.AgentArmTags | src/net/protocol/schema.ts:162-206 | each of the three arms outputs empty tags when `tags` is missing |
| SchemaFacts.BuildingArmTags | src/net/protocol/schema.ts:162-181 | the building arm defaults `tags` to the empty object |
| SchemaFacts.TruckArmTags | src/net/protocol/schema.ts:162-195 | the truck arm defaults `tags` to the empty object |
| SchemaFacts.BrokerArmTags | src/net/protocol/schema.ts:162-200 | the broker arm defaults `tags` to the empty object |
| SchemaFacts.AgentTagsDefaultEmpty | src/net/protocol/schema.ts:162-206 | a decoded agent signal without `tags` carries empty tags |
| SchemaFacts.GraphNodeBuildingsDefaultEmpty | src/net/protocol/schema.ts:144-149 | a graph node without `buildings` decodes with an empty list |
| SchemaFacts.ParkingAgentsDefaultEmpty | src/net/protocol/schema.ts:112-119 | a parking without `current_agents` decodes with an empty list |
| SchemaFacts.SiteActivePackagesDefaultEmpty | src/net/protocol/schema.ts:121-130 | a site without `active_packages` decodes with an empty list |
| SchemaFacts.GasStationAgentsDefaultEmpty | src/net/protocol/schema.ts:132-140 | a gas station without `current_agents` decodes with an empty list |
| SchemaFacts.BrokerDataReadAsTruck | src/net/protocol/schema.ts:4-14 | broker agent data `{balance_ducats: n}` is taken by the truck arm, which drops the balance |
| SchemaFacts.FileActionsNeedName | src/net/protocol/schema.ts:88-97 | the export actions accept exactly a non-empty string `filename` |
| SchemaFacts.FileUploadNeedsContent | src/net/protocol/schema.ts:91-101 | the import actions need both a non-empty `file_content` and a non-empty `filename` |
| SchemaFacts.FileRepliesAcceptEmpty | src/net/protocol/schema.ts:437-451 | the file replies accept any string `filename`, the empty one included, and an empty download |
| ProtocolMapping.Matches | src/net/protocol/mapping.ts:24-34 | a signal matches iff the two request ids do not conflict and its name is the request's expected reply |
| ProtocolMapping.EveryActionHasReply | src/net/protocol/mapping.ts:3-20 | every action of the schema table has a reply, and that reply is a signal of the schema table |
| ProtocolMapping.EarlyActionsHaveReplies | src/net/protocol/mapping.ts:4-11 | the simulation and map actions have replies that are declared signals |
| ProtocolMapping.LateActionsHaveReplies | src/net/protocol/mapping.ts:12-19 | the remaining file and agent actions have replies that are declared signals |
| ProtocolMapping.AgentGetIsOrphan | src/net/protocol/mapping.ts:17 | `agent.get` maps to `agent.state`, and neither is a declared action or signal |
| ProtocolMapping.DecodedSignalNamed | src/net/protocol/schema.ts:506-508 | a decoded signal's name is a declared signal name |
| ProtocolMapping.AgentGetNeverAnswered | src/net/protocol/mapping.ts:17-32 | no decoded signal matches an `agent.get` request |
| ProtocolMapping.ErrorNeverMatches | src/net/protocol/mapping.ts:3-32 | an `error` signal never matches |
| ProtocolMapping.MissingIdIgnored | src/net/protocol/mapping.ts:29-32 | when either id is absent or empty, only the signal name decides |
| ProtocolMapping.StartMatcherExamples | src/net/protocol/mapping.ts:29-32 | equal ids and the expected name match; different ids, or another name under the same id, do not |
| MemoryStorage.Without | tests/setup.ts:22-24 | removing a key from the order keeps exactly the other keys |
| MemoryStorage.WithoutKeepsDistinct | tests/setup.ts:22-24 | removing a key leaves the order free of repeats |
| MemoryStorage.DistinctCardinality | tests/setup.ts:6-8 | a repeat-free order has as many entries as distinct keys |
| MemoryStorage.MemoryStorage.constructor | tests/setup.ts:4 | a new store is empty |
| MemoryStorage.MemoryStorage.Length | tests/setup.ts:6-8 | the length is the number of stored keys |
| MemoryStorage.MemoryStorage.Clear | tests/setup.ts:10-12 | after clearing nothing is stored |
| MemoryStorage.MemoryStorage.GetItem | tests/setup.ts:14-16 | a lookup is absent exactly for keys not stored, and otherwise the stored value |
| MemoryStorage.MemoryStorage.Key | tests/setup.ts:18-20 | `key(i)` is the i-th key in first-insertion order, absent outside the range |
| MemoryStorage.MemoryStorage.RemoveItem | tests/setup.ts:22-24 | removal deletes just that key, and is a no-op for an absent key |
| MemoryStorage.MemoryStorage.SetItem | tests/setup.ts:26-28 | setting changes only that key's value; a new key goes to the end of the order and an existing one keeps its place |
| MemoryStorage.GlobalScope.constructor | tests/setup.ts:31-32 | the global scope starts with the given storage slots |
| MemoryStorage.GlobalScope.Current | tests/setup.ts:32 | the slot's current value, absent when there is none |
| MemoryStorage.GlobalScope.EnsureStorage | tests/setup.ts:31-41 | a usable store is kept; otherwise a fresh empty store is installed in that slot alone; afterwards the slot is usable |
| HudVisibility.DefaultVisibility | src/hud/state/hud-visibility.tsx:3-32 | the defaults cover the eight panels, all visible except `net-events`; the three menu panels are among them |
| HudVisibility.IndexKeys | src/hud/state/hud-visibility.tsx:49 | spreading an array gives only numeral keys, at most one per item, and the numeral of each index holds that item |
| HudVisibility.Spread | src/hud/state/hud-visibility.tsx:49 | spreading an object copies its fields, and anything else gives only index keys |
| HudVisibility.Rehydrate | src/hud/state/hud-visibility.tsx:44-53 | every panel has an entry after rehydration |
| HudVisibility.RehydrateWithoutStorage | src/hud/state/hud-visibility.tsx:46-52 | with nothing stored, an empty value or a parse failure the state is the defaults |
| HudVisibility.RehydrateOverlay | src/hud/state/hud-visibility.tsx:48-49 | a stored object overlays the defaults: stored keys win and the others keep their default |
| HudVisibility.RehydrateNonObject | src/hud/state/hud-visibility.tsx:48-49 | a stored non-object leaves every panel at its default |
| HudVisibility.SetVisibleUpdate | src/hud/state/hud-visibility.tsx:76-82 | `setVisible` sets that panel, keeps every other entry, and returns the same state when the value is already set |
| HudVisibility.ToggleUpdate | src/hud/state/hud-visibility.tsx:84-86 | `toggle` sets only that panel to the negation of its truthiness |
| HudVisibility.SetVisibleIdempotent | src/hud/state/hud-visibility.tsx:76-82 | `setVisible` twice is `setVisible` once, and the panel then reads as set |
| HudVisibility.ToggleTwice | src/hud/state/hud-visibility.tsx:84-86 | a toggle negates visibility; two restore it, and restore the state itself when the entry was a boolean |
| HudVisibility.UpdatesKeepPanels | src/hud/state/hud-visibility.tsx:76-86 | both updates keep an entry for every panel |
| HudVisibility.PersistRoundTrip | src/hud/state/hud-visibility.tsx:44-61 | a persisted state rehydrates to itself when the parser inverts the serializer |
| HudVisibility.Provider.constructor | src/hud/state/hud-visibility.tsx:68-74 | the provider starts from the rehydrated state and persists it under `hud:panels:v1` |
| HudVisibility.Provider.IsVisible | src/hud/state/hud-visibility.tsx:88 | `isVisible` is the truthiness of the panel's entry |
| HudVisibility.Provider.SetVisible | src/hud/state/hud-visibility.tsx:72-82 | `setVisible` applies the update and persists exactly when the state changed |
| HudVisibility.Provider.Toggle | src/hud/state/hud-visibility.tsx:72-86 | `toggle` applies the update and persists the new state |
| SimulationControls.ParseStored | src/hud/containers/simulation-controls.tsx:22-32 | an empty or missing stored value reads as no number; otherwise it is parsed |
| SimulationControls.ReadInitialTickRate | src/hud/containers/simulation-controls.tsx:20-27 | the stored tick rate is used iff it is a number in [1, 100]; otherwise the result is 30 |
| SimulationControls.ReadInitialSpeed | src/hud/containers/simulation-controls.tsx:29-37 | the stored speed is used iff it is a number in [0.1, 10]; otherwise the result is 1 |
| SimulationControls.InitialStatus | src/hud/containers/simulation-controls.tsx:62 | the global status wins, then the controller's initial status, then idle |
| SimulationControls.InitialTickRate | src/hud/containers/simulation-controls.tsx:63 | an explicit controller tick rate wins over the stored one |
| SimulationControls.InitialSpeed | src/hud/containers/simulation-controls.tsx:64 | an explicit controller speed wins over the stored one |
| SimulationControls.ClampTickRate | src/hud/containers/simulation-controls.tsx:90 | the committed tick rate is the rounded value clamped to [1, 100] |
| SimulationControls.ClampSpeed | src/hud/containers/simulation-controls.tsx:91 | the committed speed is clamped to [0, 10] and kept when already inside |
| SimulationControls.NextStatus | src/hud/containers/simulation-controls.tsx:108-127 | issuing a command never leads to stopped from another status, and an update keeps the status |
| SimulationControls.IssueTransitions | src/hud/containers/simulation-controls.tsx:108-127 | resume leads to playing, pause to paused, stop to idle, and an update keeps the status |
| SimulationControls.ExportRequestValid | src/hud/containers/simulation-controls.tsx:130-135 | a request that passes the export guard satisfies the `simulation.export_state` schema |
| SimulationControls.TickRateRoundTrip | src/hud/containers/simulation-controls.tsx:88-94 | a committed and persisted tick rate reads back unchanged through `readInitialTickRate` |
| SimulationControls.SlowSpeedReadsBackAsDefault | src/hud/containers/simulation-controls.tsx:88-96 | a committed speed below 0.1 is persisted but `readInitialSpeed` reads it back as 1 |
| SimulationControls.SpeedRoundTrip | src/hud/containers/simulation-controls.tsx:88-96 | a committed speed of at least 0.1 reads back unchanged |
| SimulationControls.SimulationControls.constructor | src/hud/containers/simulation-controls.tsx:61-74 | the initial status, tick rate and speed follow the precedence rules; no export in flight, file name `save_0` |
| SimulationControls.SimulationControls.CommitUpdate | src/hud/containers/simulation-controls.tsx:88-106 | the clamped values are set and persisted, and exactly that update reaches the sink when there is one |
| SimulationControls.SimulationControls.Issue | src/hud/containers/simulation-controls.tsx:108-127 | the command reaches the sink and the status makes the transition |
| SimulationControls.SimulationControls.SetExportFilename | src/hud/containers/simulation-controls.tsx:73 | the export name input changes only the name |
| SimulationControls.SimulationControls.BeginExport | src/hud/containers/simulation-controls.tsx:129-135 | an export starts iff the run is paused, no export is in flight and the trimmed name is non-empty; the trimmed name is sent |
| SimulationControls.SimulationControls.FinishExport | src/hud/containers/simulation-controls.tsx:150-152 | the export is over |
| Js.Clamp | src/hud/containers/simulation-controls.tsx:90-91 | `max(lo, min(hi, x))` lies in the bounds and is `x` when inside |
| Js.Round | src/hud/containers/simulation-controls.tsx:90 | `Math.round` gives the integer within half of its argument, ties upward |
| Js.Floor | src/hud/containers/map-creator.tsx:388 | `Math.floor` gives the greatest integer not above its argument |
| Js.NumberOr | src/hud/containers/map-creator.tsx:364 | `Number(x) \|\| d` is the parsed number unless it is missing or zero |
| Js.Trim | src/hud/containers/simulation-controls.tsx:130 | `trim` removes exactly the leading and trailing whitespace |
| Js.TrimIdempotent | src/hud/containers/simulation-controls.tsx:130-134 | trimming twice is trimming once |
| Js.Decimal | src/hud/state/hud-visibility.tsx:49 | `String(n)` of an index is a non-empty run of digits with no leading zero |
| Js.DecimalValue | src/hud/state/hud-visibility.tsx:49 | the numeral reads back as its number |
| Js.DecimalInjective | src/hud/state/hud-visibility.tsx:49 | distinct indexes have distinct numerals |
| Js.DecimalNew | src/hud/state/hud-visibility.tsx:49 | the numeral of an index differs from those of all smaller indexes |
| Bytes.BinaryString | src/hud/containers/state-importer.tsx:37-42 | the binary string has one character per byte, coded as that byte |
| Bytes.CharCodes | src/hud/containers/map-creator.tsx:246 | `charCodeAt` on a binary string gives one byte per character |
| Bytes.CharCodesRecoverBytes | src/hud/containers/map-creator.tsx:246 | reading the character codes of a binary string gives back the bytes |
| Bytes.BinaryStringAppend | src/hud/containers/map-creator.tsx:283 | the binary string of a concatenation is the concatenation of the binary strings |
| Bytes.ChunkedBinaryString | src/hud/containers/map-creator.tsx:279-284 | for any positive chunk size, the chunked loop yields the whole binary string of the bytes |
| Bytes.UploadParams | src/hud/containers/state-importer.tsx:45-48 | the upload parameters carry exactly the encoded content and the file name |
| StateImporter.CanImport | src/hud/containers/state-importer.tsx:19 | importing is allowed iff the run is neither playing nor paused |
| StateImporter.ReplyFilename | src/hud/containers/state-importer.tsx:51 | the reply's file name, when it carries a string one |
| StateImporter.FilenameDataOutput | src/net/protocol/schema.ts:448-450 | an accepted `simulation.state_imported` payload carries a string `filename` |
| StateImporter.StateImportedSchema | src/net/protocol/schema.ts:448-450 | the `simulation.state_imported` schema is the file-name schema |
| StateImporter.PickedFilename | src/net/protocol/schema.ts:506-508 | an envelope picked under the file-name schema carries a file name |
| StateImporter.ImportedReplyHasFilename | src/hud/containers/state-importer.tsx:50-51 | a decoded `simulation.state_imported` reply always names the imported file |
| StateImporter.EmptyFileRejected | src/hud/containers/state-importer.tsx:33-48 | the request for an empty file fails the `simulation.import_state` schema |
| StateImporter.StateImporter.constructor | src/hud/containers/state-importer.tsx:15-16 | nothing is importing, no file was imported and nothing is selected |
| StateImporter.StateImporter.Select | src/hud/containers/state-importer.tsx:28 | choosing a file changes only the selection |
| StateImporter.StateImporter.BeginImport | src/hud/containers/state-importer.tsx:25-48 | an import starts iff a file is chosen, none is in flight and the status allows it; the request is the base64 of the file's bytes with its name |
| StateImporter.StateImporter.CompleteImport | src/hud/containers/state-importer.tsx:50-61 | a `simulation.state_imported` reply records its file name and clears the input; otherwise both stay; the import is over either way |
| MapCreator.FieldGroups | src/net/protocol/schema.ts:30-71 | the `map.create` fields fall into the positive, non-negative, count, seed, probability and range groups |
| MapCreator.NumberAccepts | src/net/protocol/schema.ts:30-71 | a number meeting every check is accepted unchanged |
| MapCreator.PositiveAccepts | src/net/protocol/schema.ts:31-36 | the positive-number schema accepts exactly the numbers above 0 |
| MapCreator.PositiveFieldBounds | src/net/protocol/schema.ts:31-36 | each size field accepts exactly the numbers above 0 |
| MapCreator.NonNegativeFieldBounds | src/net/protocol/schema.ts:37-60 | each non-negative field accepts exactly the numbers at least 0 |
| MapCreator.DefaultFieldOk | src/hud/containers/map-creator.tsx:95-122 | each default value passes its own field's schema |
| MapCreator.DefaultsSatisfyCreate | src/hud/containers/map-creator.tsx:95-122 | `map.create` accepts the default parameters |
| MapCreator.DefaultKeys | src/hud/containers/map-creator.tsx:95-122 | the defaults list exactly the `map.create` fields |
| MapCreator.ValidFields | src/net/protocol/schema.ts:30-71 | `map.create` accepts a record iff it has exactly the fields and each is valid |
| MapCreator.OverlayKeepsValid | src/hud/containers/map-creator.tsx:180 | overlaying valid fields on accepted parameters keeps them accepted |
| MapCreator.NumberUpdate | src/hud/containers/map-creator.tsx:176-181 | `setNumber` sets that field and leaves every other one |
| MapCreator.RangeUpdate | src/hud/containers/map-creator.tsx:183-200 | `setArrayRange` sets that end to `max(0, v)` and keeps the other end and every other field |
| MapCreator.RangeUpdateKeepsValid | src/hud/containers/map-creator.tsx:183-200 | a range update keeps accepted parameters accepted |
| MapCreator.PresetUpdate | src/hud/containers/map-creator.tsx:202-222 | a preset overwrites exactly its own fields and keeps the rest |
| MapCreator.DenseUrbanFieldsValid | src/hud/containers/map-creator.tsx:202-211 | the dense-urban values are all valid |
| MapCreator.SparseRuralFieldsValid | src/hud/containers/map-creator.tsx:213-222 | the sparse-rural values are all valid |
| MapCreator.PresetsKeepValid | src/hud/containers/map-creator.tsx:202-222 | either preset keeps accepted parameters accepted |
| MapCreator.InputValue | src/hud/containers/map-creator.tsx:364-490 | each numeric input meets its clamp: the seed is floored, the major-center count is at least 1, the local density at least 0.0001; blank input falls back; an in-range value is kept |
| MapCreator.ClampedFieldValid | src/hud/containers/map-creator.tsx:386-490 | a value meeting a clamped input's bounds is valid for that field |
| MapCreator.InputKeepsValid | src/hud/containers/map-creator.tsx:386-490 | every clamped text input keeps accepted parameters accepted |
| MapCreator.DimensionInputValid | src/hud/containers/map-creator.tsx:364-375 | a width or height input keeps the parameters accepted iff it parses to a number above 0 |
| MapCreator.SliderKeepsValid | src/hud/containers/map-creator.tsx:501-556 | a slider position in [0, 1] keeps accepted parameters accepted |
| MapCreator.Coalesce | src/hud/containers/map-creator.tsx:150-167 | `data[k] ?? fallback[k]` is data's value unless it is missing or null |
| MapCreator.OverlayAsWritten | src/hud/containers/map-creator.tsx:145-168 | the merge as written spreads the fallback, then all of data, with the six fallback fields coalesced |
| MapCreator.MergeAsWritten | src/hud/containers/map-creator.tsx:145-168 | the merged form has the keys of the defaults, the previous form and the reply; every reply key but the six `??` fields is copied, a `??` field takes the reply's value unless null or absent, and the previous form's value survives where the reply gives none |
| MapCreator.MergeAsWrittenRejected | src/hud/containers/map-creator.tsx:145-168 | after the merge as written of a decoded `map.created` reply, the form fails the strict `map.create` schema |
| MapCreator.DefaultMapRoundTrip | src/hud/containers/map-creator.tsx:142-169 | for a reply echoing the defaults, the written merge is rejected and the corrected merge is the defaults |
| MapCreator.ShapeFields | src/hud/containers/map-creator.tsx:145-168 | the corrected merge keeps exactly the `map.create` keys of the data, unchanged |
| MapCreator.Merge | src/hud/containers/map-creator.tsx:145-168 | the corrected merge adds no key outside `map.create` and takes every non-null `map.create` value of the reply |
| MapCreator.CreatedHasGeneratedNodes | src/net/protocol/schema.ts:368-419 | an accepted `map.created` payload carries `generated_nodes` |
| MapCreator.SampleCreatedAccepted | src/net/protocol/schema.ts:368-419 | `map.created` accepts the defaults plus an empty summary and graph |
| MapCreator.SharedSchema | src/net/protocol/schema.ts:368-419 | every `map.create` field is declared in `map.created` with the same schema |
| MapCreator.CreatedEchoesParams | src/net/protocol/schema.ts:368-419 | an accepted `map.created` payload echoes every `map.create` field, valid and unchanged |
| MapCreator.DecodedReplyEchoes | src/net/protocol/schema.ts:368-419 | the parsed `map.created` data echoes valid parameters |
| MapCreator.EchoIsValidCreate | src/hud/containers/map-creator.tsx:145-168 | the echoed parameters have exactly the `map.create` keys, none null, and are accepted |
| MapCreator.OverlayOfComplete | src/hud/containers/map-creator.tsx:145-168 | when data has every fallback key, none null, the overlay is data |
| MapCreator.MergeIsShapeFields | src/hud/containers/map-creator.tsx:145-168 | for echoed parameters the corrected merge is the echo |
| MapCreator.MergeTakesEcho | src/hud/containers/map-creator.tsx:142-169 | after a valid `map.created`, the form is the echoed parameters, field for field, and `map.create` accepts it |
| MapCreator.SampleParamsAreDefaults | src/hud/containers/map-creator.tsx:95-122 | the sample reply carries every default unchanged |
| MapCreator.EchoIs | src/net/protocol/schema.ts:368-419 | the echoed parameters equal any record naming the reply's `map.create` fields |
| MapCreator.MergeIsEcho | src/hud/containers/map-creator.tsx:142-169 | the corrected merge equals the parameters the reply names |
| MapCreator.ValidRangesArePairs | src/net/protocol/schema.ts:30-71 | accepted parameters hold pairs in every range field |
| MapCreator.CreatedFilename | src/hud/containers/map-creator.tsx:144 | the proposed export name starts with `map_` |
| MapCreator.CreatedFilenameExportable | src/hud/containers/map-creator.tsx:144 | the proposed export name is never blank |
| MapCreator.InitialFilenameMatchesDefaults | src/hud/containers/map-creator.tsx:134-144 | the initial name `map_1000x1000_42` is the name the defaults produce |
| MapCreator.NumberUpdateKeepsShape | src/hud/containers/map-creator.tsx:176-181 | `setNumber` on a number field keeps every `map.create` field present and the ranges pairs, and keeps a form with exactly the `map.create` fields so |
| MapCreator.RangeUpdateKeepsShape | src/hud/containers/map-creator.tsx:183-200 | a range update keeps every `map.create` field present and the ranges pairs, and keeps a form with exactly the `map.create` fields so |
| MapCreator.OverlayKeepsShape | src/hud/containers/map-creator.tsx:202-222 | a preset keeps every `map.create` field present and the ranges pairs, and keeps a form with exactly the `map.create` fields so |
| MapCreator.MergeAsWrittenKeepsForm | src/hud/containers/map-creator.tsx:145-168 | the merge as written of a valid echo keeps every `map.create` field present, and each range becomes the reply's pair |
| MapCreator.MergeKeepsForm | src/hud/containers/map-creator.tsx:145-168 | the corrected merge of a valid echo keeps every `map.create` field present and the ranges pairs |
| MapCreator.CopiedKeyRejected | src/hud/containers/map-creator.tsx:145-168 | any reply key `map.create` does not list makes the merged form fail the strict schema |
| MapCreator.MergedFormValid | src/hud/containers/map-creator.tsx:145-168 | the corrected merge of a well-shaped form with a valid echo is well shaped and accepted |
| MapCreator.CanCreate | src/hud/containers/map-creator.tsx:138 | creating is allowed iff the run is neither playing nor paused |
| MapCreator.MapCreator.constructor | src/hud/containers/map-creator.tsx:130-135 | the form starts at the defaults with nothing in flight, no map and the name `map_1000x1000_42` |
| MapCreator.MapCreator.SetNumber | src/hud/containers/map-creator.tsx:176-181 | the form takes the number update and keeps its invariant |
| MapCreator.MapCreator.Slide | src/hud/containers/map-creator.tsx:85 | a slider sets its field to its position, or 0 when there is none |
| MapCreator.MapCreator.Enter | src/hud/containers/map-creator.tsx:364-490 | a text input sets its field to the clamped value |
| MapCreator.MapCreator.EnterRange | src/hud/containers/map-creator.tsx:671-799 | a range input sets its end to `max(0, Number(text) \|\| 0)` |
| MapCreator.MapCreator.ApplyPreset | src/hud/containers/map-creator.tsx:202-222 | a preset button applies that preset |
| MapCreator.MapCreator.HandleMapCreated | src/hud/containers/map-creator.tsx:142-169 | for a decoded `map.created` reply, the map is kept, the export name proposed and the form becomes the merge as written of the old form and the reply; the invariant holds, and the form fails the strict `map.create` schema |
| MapCreator.MapCreator.HandleMapCreatedCorrected | src/hud/containers/map-creator.tsx:142-169 | with the corrected merge, the map is kept, the export name proposed and the form becomes the corrected merge; a form with exactly the `map.create` fields becomes the echoed parameters, which `map.create` accepts |
| MapCreator.MapCreator.ReplaceForm | src/hud/containers/map-creator.tsx:145 | `setParams`: the form becomes the given record and nothing else changes; a record with every `map.create` field and pair ranges keeps the invariant |
| MapCreator.MapCreator.Reset | src/hud/containers/map-creator.tsx:325 | Reset puts the defaults back, which `map.create` accepts, and changes nothing else |
| MapCreator.MapCreator.RecordCreated | src/hud/containers/map-creator.tsx:143-144 | the created map is stored and its export name proposed |
| MapCreator.MapCreator.BeginCreate | src/hud/containers/map-creator.tsx:224-228 | a create starts iff allowed and none is in flight, and sends the form |
| MapCreator.MapCreator.FinishCreate | src/hud/containers/map-creator.tsx:231-233 | the create is over |
| MapCreator.MapCreator.SetExportFilename | src/hud/containers/map-creator.tsx:134 | the name input changes only the name |
| MapCreator.MapCreator.BeginExport | src/hud/containers/map-creator.tsx:236-242 | an export starts iff a map exists, none is in flight and the trimmed name is non-empty; the trimmed name is sent |
| MapCreator.MapCreator.FinishExport | src/hud/containers/map-creator.tsx:257-259 | the export is over |
| MapCreator.MapCreator.Select | src/hud/containers/map-creator.tsx:269 | choosing a file changes only the selection |
| MapCreator.MapCreator.BeginImport | src/hud/containers/map-creator.tsx:266-290 | an import starts iff a file is chosen and none is in flight, whatever the status; the request is the base64 of the file's bytes with its name |
| MapCreator.MapCreator.CompleteImport | src/hud/containers/map-creator.tsx:292-303 | a `map.imported` reply clears the input; the import is over either way |
| MapGraph.FitScale | src/hud/components/map-graph.tsx:44-51 | the scale is 1 for an empty container and at least 0.0001 always |
| MapGraph.DecodedMapSizePositive | src/net/protocol/schema.ts:368-419 | a decoded `map.created` payload has a positive width and height |
| MapGraph.FitScaleIsLargestFit | src/hud/components/map-graph.tsx:44-51 | above the floor the scale fits the map in the padded container, and no larger fitting scale exists |
| MapGraph.Ids | src/hud/components/map-graph.tsx:67-70 | every node's id is among the ids |
| MapGraph.NodeIndex | src/hud/components/map-graph.tsx:67-71 | the node index has at most one entry per node |
| MapGraph.NodeIndexKeys | src/hud/components/map-graph.tsx:67-71 | the node index holds exactly the node ids |
| MapGraph.NodeIndexLastWins | src/hud/components/map-graph.tsx:67-71 | for a repeated id the last node's coordinates win |
| MapGraph.BuildNodeIndex | src/hud/components/map-graph.tsx:67-71 | the loop builds the node index |
| MapGraph.Rank | src/hud/components/map-graph.tsx:75-86 | the seven classes have ranks 0 to 6 |
| MapGraph.ClassOf | src/net/protocol/schema.ts:110 | a known class name reads as the class bearing it |
| MapGraph.StyleTableCoversRoadClass | src/hud/components/map-graph.tsx:75-86 | the style table has an entry for exactly the road classes the schema accepts |
| MapGraph.ClassNameRoundTrip | src/net/protocol/schema.ts:110 | a class's name reads back as that class |
| MapGraph.StyleTableOrdered | src/hud/components/map-graph.tsx:75-86 | a higher class has a larger base width, and each label begins with its class name and a dash |
| MapGraph.StyleOf | src/hud/components/map-graph.tsx:75-86 | every base width lies between 1.8 and 3.0 and every stroke is a `#rrggbb` colour |
| MapGraph.RoadStyle | src/hud/components/map-graph.tsx:73-92 | the stroke and label come from the table, and the width is at least the base, equal to it for at most one lane |
| MapGraph.RoadWidthOrder | src/hud/components/map-graph.tsx:88 | more lanes never narrow a road and widen it from one lane up; a higher class is wider at the same lanes |
| MapGraph.Resolved | src/hud/components/map-graph.tsx:101-104 | the kept edges are no more than the input edges |
| MapGraph.ResolvedResolve | src/hud/components/map-graph.tsx:102-104 | every kept edge has both endpoints in the index |
| MapGraph.Segments | src/hud/components/map-graph.tsx:94-115 | one segment per kept edge |
| MapGraph.ResolvedMembers | src/hud/components/map-graph.tsx:101-104 | an edge is kept iff it is an input edge with both endpoints known |
| MapGraph.ResolvedAppend | src/hud/components/map-graph.tsx:101-113 | filtering preserves input order across concatenation |
| MapGraph.ResolvedAll | src/hud/components/map-graph.tsx:101-104 | when every endpoint is known, every edge is kept |
| MapGraph.SegmentsDrawEndpoints | src/hud/components/map-graph.tsx:105-112 | each segment carries its edge's id, the two endpoints scaled by the fit scale, and the road width |
| MapGraph.Draw | src/hud/components/map-graph.tsx:105-112 | a drawn edge keeps its id, has four coordinates, the colour of its class and at least its class's base width |
| MapGraph.EveryEdgeDrawn | src/hud/components/map-graph.tsx:67-113 | when every endpoint names a node, every edge is drawn, in order, with its own id |
| MapGraph.SegmentsStep | src/hud/components/map-graph.tsx:101-113 | one more edge adds its segment exactly when both endpoints resolve |
| MapGraph.DrawEdges | src/hud/components/map-graph.tsx:94-115 | the loop builds exactly the segments of the resolved edges |
| MapGraph.NodeOf | src/net/protocol/schema.ts:144-149 | a node reads iff its id is a string and its coordinates are numbers |
| MapGraph.EdgeOf | src/net/protocol/schema.ts:150-160 | an edge reads only with a known road class and string endpoints, which it keeps |
| MapGraph.StringFieldRead | src/net/protocol/schema.ts:144-160 | a string field of an accepted object reads as a string |
| MapGraph.NumberFieldRead | src/net/protocol/schema.ts:144-160 | a number field of an accepted object reads as a number |
| MapGraph.EnumFieldRead | src/net/protocol/schema.ts:150-160 | an enum field of an accepted object reads as one of its options |
| MapGraph.DecodedNodeReadable | src/net/protocol/schema.ts:144-149 | every decoded graph node reads as a node |
| MapGraph.DecodedEdgeReadable | src/net/protocol/schema.ts:150-160 | every decoded graph edge reads as an edge |

## Left out

- The WebSocket client, its transports and the telemetry bus: their source is not part of this model, and they are built on promises, timers and callbacks. The `net.on` subscription and `net.sendAction` become the two halves (`Begin…`/`Complete…`) of each handler.
- The net adapter and the store reducers: their source is not part of this model.
- JSX rendering, layout, Radix and Konva components, `src/hud/index.tsx` and `src/hud/components/hud-menu.tsx`: these are presentation.
- React effects beyond state updates: the two-way sync between local and global playback status (simulation-controls.tsx:76-86) and the slider drag state (`dragTickRate`, `dragSpeed`) are not modelled.
- Pan, zoom and centring in the map graph (map-graph.tsx:53-65, 117-139), and `toFixed` display formatting: these are floating-point view concerns.
- `btoa`, `atob`, `Blob`, object URLs and `File.arrayBuffer`: `btoa` is a parameter and the file is its name and bytes. The download that follows an export reply is not modelled.
- `Number()`, `String()`, `JSON.parse` and `JSON.stringify` are parameters. So are the exceptions they or `localStorage` may throw: a failed parse is a missing value.
- Zod's issue lists and error messages: a reject carries one issue tag. `request_id: undefined` is modelled as an absent key.
- Spreading a string stored as visibility state gives index keys per UTF-16 unit; the model gives them per character (`HudVisibility.IndexKeys`).
- `MemoryStorage.MemoryStorage.Key`: JavaScript's array index by a non-integer number (`key(1.5)`) is not modelled; indexes are integers.
- MapGraph.FitScale: requires a positive map size, which every decoded `map.created` payload has (`MapGraph.DecodedMapSizePositive`). The `Number.isFinite` fallback is unreachable over reals, so the model leaves it out, along with infinities.
- The graph is read through `NodeOf` and `EdgeOf` into typed records; the drawing works on those records.
- The `??` fallbacks of the `map.created` merge never fire on a decoded reply, because the schema requires those fields. `MapCreator.OverlayAsWritten` keeps them; `MapCreator.OverlayOfComplete` shows they are dead.
- The map creator's handlers receive the parsed `map.created` data; decoding the signal is `ProtocolSchema.DecodeSignal`.
- Floating-point rounding: numbers are reals.

## Findings

| source | as written | input that shows it | evidently intended | confidence | as-written member | corrected member |
|---|---|---|---|---|---|---|
| src/hud/containers/map-creator.tsx:142-169 | the merge spreads all of the `map.created` data into the form, including `generated_nodes`, `generated_edges`, `generated_sites`, `generated_parkings` and `graph`; the form then fails the strict `map.create` schema (src/net/protocol/schema.ts:71) | `MapCreator.SampleCreated`: the defaults plus an empty summary and graph | keep only the `map.create` fields of the reply | not executed | MapCreator.MergeAsWrittenRejected | MapCreator.MergeTakesEcho |
