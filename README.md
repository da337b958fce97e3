# Data product generation, modelled in Dafny

This project models the part of the CAP ORD plugin that turns a compiled CDS
model (CSN) into data products. The code lives under `lib/dataProducts`. The
model covers:

- **The processor chain.** Nine stages linked through `setNext` and run by
  `handle`:
  - Defaults, Annotations, Lifecycle and Taxonomy;
  - EntityTypes, InputPorts and DataProductLinks;
  - Governance and CustomOrd.

  The first stage makes one default record per service definition. Each
  later stage maps over the records and enriches each one from the service's
  annotations. The last stage merges the custom ORD override document into
  the records.
- **The shared helpers.** Ids, type and visibility validation, tag
  processing, the unique tag merge and the configuration merge.
- **The ORD entry builder.** `buildDataProduct`, `generateOutputPorts`,
  `validateDataProduct` and `buildDataProducts`.
- **The configuration check.** `validateConfiguration`.
- **The older annotation extractor.** `lib/dataProducts/processor.js`, which
  enriches its records in place.
- **The data product descriptor (DPD) path.**
  - `buildDpd` in its two copies;
  - the two validators;
  - the annotation-driven generator (`dpdGenerator.js`);
  - the chain-driven generator (`dpd/generator.js`).

JavaScript values are the datatype `Js.Json`, with `undefined` as `Undef`.
Objects are sequences of fields in insertion order. An exception is the `Err`
case of `Js.Result`; a `TypeError` is raised wherever the language would
raise one. Pure code is written as functions with lemmas. Loops are methods
proved against those functions. The two places that update objects in place
are classes:
- the stages of the chain, `Chain.Stage`, with their `next` field;
- the records of the older extractor, `Legacy.DataProduct`.

Each enrichment is written as a list of property writes. A `TypeError`
part-way through an enrichment therefore leaves exactly the writes made
before it, including those that reach objects the `{...dp}` copy shares
with its original. The chain itself is the corrected one (see Findings):
every stage's records are awaited, and a record whose enrichment throws is
kept as it was, where the code as written throws out of the stage.

The inputs that are not values are parameters:
- the override document (the parsed file, or `None` when it is missing or
  unreadable);
- the date check `validateDate`;
- the clock reading that `buildDpd` stamps into `lastModified`.

## Model

| member | source | states |
|---|---|---|
| Utils.GenerateDataProductId | lib/dataProducts/utils.js:5-8 | the id is `namespace:dataProduct:service:` followed by `v1`, or by `v` and the major version; a given version that is not a string throws |
| Utils.GeneratedIdSplits | lib/dataProducts/utils.js:5-8 | an id built from colon-free names splits on `:` back into namespace, `dataProduct`, service name and version suffix |
| Utils.VersionRewriteOfDefaultId | lib/dataProducts/utils.js:5-8 | rewriting the `v1` suffix of a default id with a version's major gives the id generated from that version directly |
| Utils.ValidateType | lib/dataProducts/utils.js:10-12 | the result is always a valid type: the input when valid, else the default type |
| Utils.ValidateVisibility | lib/dataProducts/utils.js:14-17 | the result is always a resource visibility: the input when it is one, else the default |
| Utils.ValidateReleaseStatus | lib/dataProducts/utils.js:57-60 | the result is truthy exactly when the status is one of the four release statuses, and is then the status; otherwise null |
| Utils.TagOf | lib/dataProducts/utils.js:23-28 | one array element: throws exactly on null or undefined; a string becomes `{key, "true"}`; every tag gets a string value |
| Utils.ProcessTagsSpec | lib/dataProducts/utils.js:19-39 | throws exactly for an array holding null or undefined; arrays map element by element, objects entry by entry, anything else gives no tags |
| Utils.ProcessedTagsHaveStringValues | lib/dataProducts/utils.js:19-39 | every produced tag has a string value |
| Utils.StringTagsRoundTrip | lib/dataProducts/utils.js:22-28 | an array of strings becomes exactly the tags keyed by those strings, each with value "true" |
| TagMerge.MergeUniqueTags | lib/dataProducts/utils.js:41-55 | throws exactly when some tag is null or undefined; otherwise it returns `UniqueMerge`, which the lemmas below characterise |
| TagMerge.AddNewTags | lib/dataProducts/utils.js:48-52 | the second loop throws exactly on a nullish new tag, otherwise adds each new key once |
| TagMerge.UniqueMergeKeys | lib/dataProducts/utils.js:41-55 | the merged tags have pairwise distinct keys, exactly the keys of both inputs |
| TagMerge.SetTagsLastWins | lib/dataProducts/utils.js:45 | among existing tags, the last one with a key is the one kept |
| TagMerge.ExistingTagsWin | lib/dataProducts/utils.js:47-52 | new tags never replace an existing key |
| TagMerge.FirstNewTagWins | lib/dataProducts/utils.js:48-52 | for a key only new tags have, the first such tag is kept |
| TagMerge.UniqueMergeIdempotent | lib/dataProducts/utils.js:41-55 | merging the same new tags again changes nothing |
| TagMerge.ExistingTagsComeFirst | lib/dataProducts/utils.js:45-54 | the existing keys come first, in first-appearance order |
| ConfigMerge.FindById | lib/dataProducts/utils.js:82 | the index of the first record whose id strictly equals the override's id, or -1 |
| ConfigMerge.ConflictFieldsSpec | lib/dataProducts/utils.js:86-97 | a conflict is reported exactly for each non-`id` key that the record defines with a different value |
| ConfigMerge.CollectConflicts | lib/dataProducts/utils.js:89-97 | the loop returns `ConflictFields`, which `ConflictFieldsSpec` characterises |
| ConfigMerge.OverlayProperties | lib/dataProducts/utils.js:107-111 | after the spread each key holds the override's last value for it or the old value, `source` is the override's or "custom", and no key is lost |
| ConfigMerge.OverlayObject | lib/dataProducts/utils.js:107-111 | for an object override: its keys take its values, every other key except `source` is unchanged |
| ConfigMerge.OverlayKeepsId | lib/dataProducts/utils.js:107-111 | an overlay by a matching override keeps the record's id |
| ConfigMerge.MergeFailures | lib/dataProducts/utils.js:77-82 | the merge throws exactly when `dataProducts` is not an array, or when a null override meets a non-empty list |
| ConfigMerge.NoConfigNoChange | lib/dataProducts/utils.js:77-79 | without a config or its `dataProducts`: the same records, no conflicts, count 0 |
| ConfigMerge.MergeStepPerRecord | lib/dataProducts/utils.js:81-113 | one override changes only the record its id first matches, and counts that match |
| ConfigMerge.MergeAllPerRecord | lib/dataProducts/utils.js:81-116 | records keep place and id; each is overlaid, in order, by exactly the overrides targeting it; the count is the number of matching overrides |
| ConfigMerge.MergedConfigurationPerRecord | lib/dataProducts/utils.js:72-117 | the same for `mergeConfiguration` on a well-formed override document |
| ConfigMerge.MergeAllConflicts | lib/dataProducts/utils.js:99-104 | conflict entries are well formed and at most one per matched override |
| ConfigMerge.ApplyOverride | lib/dataProducts/utils.js:81-113 | one `forEach` body returns `MergeStep`, whose effect `MergeStepPerRecord` states |
| ConfigMerge.MergeConfiguration | lib/dataProducts/utils.js:72-117 | the method returns `MergedConfiguration`, whose failures and per-record result the lemmas above state |
| StageMap.MapGuarded | lib/dataProducts/processors/LifecycleProcessor.js:9-16 | per-record map: same length; a record whose enrichment succeeds is replaced by it, one whose enrichment throws by its fallback |
| StageMap.MapGuardedSiblings | lib/dataProducts/processors/LifecycleProcessor.js:9-16 | one record's outcome does not depend on its siblings |
| StageMap.AsWrittenVersusGuarded | lib/dataProducts/processors/BaseProcessor.js:3-31 | as written (`this.handleError` undefined) the stage throws as soon as one record's enrichment throws; without throws both agree |
| Chain.Stage.constructor | lib/dataProducts/processors/BaseProcessor.js:4-6 | a new stage has no successor |
| Chain.Stage.SetNext | lib/dataProducts/processors/BaseProcessor.js:8-11 | stores and returns the successor |
| Chain.Stage.Handle | lib/dataProducts/processors/BaseProcessor.js:17-30 | handling runs this stage then the rest of the chain: the result is `Run` of the chain's kinds, exceptions propagate unchanged |
| Chain.BuildChain | lib/dataProducts/processors/processor.js:17-39 | nine fresh stages linked in the fixed order, the first returned |
| Chain.ProcessorChain.constructor | lib/dataProducts/processors/processor.js:13-15 | the new chain object holds a valid linked chain of fresh stages |
| Chain.ProcessorChain.Process | lib/dataProducts/processors/processor.js:41-53 | the chain on the empty list: the result is `Pipeline(ctx)` |
| Chain.CreateDataProductProcessor | lib/dataProducts/processors/processor.js:56-58 | a fresh, valid chain object |
| Chain.RunAppend | lib/dataProducts/processors/BaseProcessor.js:17-30 | running two chains in turn is running the joined chain |
| Chain.BaseStageThrows | lib/dataProducts/processors/BaseProcessor.js:13-15 | a chain containing the abstract base stage always throws |
| Chain.DefaultsFailureEndsRun | lib/dataProducts/processors/processor.js:44-52 | when the first stage throws, the run throws the same exception |
| Chain.NullModelFails | lib/dataProducts/processors/DefaultsProcessor.js:9-14 | a null or undefined model makes the run throw a TypeError |
| Chain.LaterStagesKeepCount | lib/dataProducts/processors/LifecycleProcessor.js:9-16 | every stage after the first keeps the number of records |
| Chain.PipelineCount | lib/dataProducts/processors/processor.js:41-53 | a completed run yields exactly one record per service definition |
| Chain.StageAsWritten | lib/dataProducts/processors/DefaultsProcessor.js:8 | as written, an `async` stage (defaults, annotations, override) never throws but returns a Promise; a synchronous stage given a Promise throws |
| Chain.AsyncChainThrows | lib/dataProducts/processors/BaseProcessor.js:17-30 | as written, the nine-stage chain throws a TypeError for every model, at the lifecycle stage |
| Chain.SyncStagesAgree | lib/dataProducts/processors/BaseProcessor.js:17-30 | on synchronous stages the run as written is `Run`, the awaited chain the model uses |
| Defaults.InitDataProductId | lib/dataProducts/processors/DefaultsProcessor.js:27 | a default record's id is `namespace:dataProduct:service:v1` |
| Defaults.InitDataProductNames | lib/dataProducts/processors/DefaultsProcessor.js:28-29 | local id, title and service name are the service name |
| Defaults.InitDataProductDescription | lib/dataProducts/processors/DefaultsProcessor.js:30-31 | description and short description are the prefix plus the service name |
| Defaults.InitDataProductVersion | lib/dataProducts/processors/DefaultsProcessor.js:32-33 | default version and type |
| Defaults.InitDataProductDefaults | lib/dataProducts/processors/DefaultsProcessor.js:34-35 | default category and visibility |
| Defaults.InitDataProductUntagged | lib/dataProducts/processors/DefaultsProcessor.js:37-38 | no tags, source "default" |
| Defaults.DefaultRecordsPerService | lib/dataProducts/processors/DefaultsProcessor.js:14-19 | throws exactly on a nullish definition; otherwise one default record per service definition, in definition order |
| Defaults.ProcessYieldsServices | lib/dataProducts/processors/DefaultsProcessor.js:8-22 | the stage ignores its input; it throws exactly when the model, its definitions or a definition is missing, else yields the services' records |
| Defaults.DefaultsProcess | lib/dataProducts/processors/DefaultsProcessor.js:8-22 | the `forEach` method returns `Process`: one default record per service, as `ProcessYieldsServices` states |
| Annotate.ServiceStepsThrow | lib/dataProducts/processors/AnnotationsProcessor.js:44-65 | applying a service annotation throws exactly when the version cannot be split, the id cannot be rewritten or the tags cannot be appended |
| Annotate.ServiceStepsValidate | lib/dataProducts/processors/AnnotationsProcessor.js:57-58 | annotated type and visibility end up admissible |
| Annotate.ServiceStepsAppendTags | lib/dataProducts/processors/AnnotationsProcessor.js:60-62 | annotated tags are appended after the record's own, in order |
| Annotate.ServiceStepsId | lib/dataProducts/processors/AnnotationsProcessor.js:51-56 | with a version the id's `v<digits>` suffix becomes `v` and the major; without, the id is kept |
| Annotate.ServiceStepsMarkSource | lib/dataProducts/processors/AnnotationsProcessor.js:65 | a successful service annotation marks the record "annotated" |
| Annotate.ServiceStepsWrites | lib/dataProducts/processors/AnnotationsProcessor.js:44-65 | the service annotation writes only its own keys, even when it throws |
| Annotate.ExtractServiceEntities | lib/dataProducts/processors/AnnotationsProcessor.js:98-111 | the loop returns `ServiceEntities`: the targets of the service's entity elements, in element order |
| Annotate.ServiceEntitiesDefined | lib/dataProducts/processors/AnnotationsProcessor.js:98-111 | every collected entity is a truthy target of an element |
| Annotate.CollectElementTags | lib/dataProducts/processors/AnnotationsProcessor.js:116-122 | the inner loop returns `ElementTags`: the tags of one entity's elements, in element order |
| Annotate.ExtractPropertyTags | lib/dataProducts/processors/AnnotationsProcessor.js:113-125 | the outer loop returns `PropertyTags`: the element tags of every entity, in entity order |
| Annotate.FirstAnnotation | lib/dataProducts/processors/AnnotationsProcessor.js:75 | the first truthy annotation among the entities, or undefined |
| Annotate.EntityStepsMergeTags | lib/dataProducts/processors/AnnotationsProcessor.js:88-93 | with property tags, a successful enrichment leaves the unique merge of the record's tags with them |
| Annotate.EntityStepsMergeThrows | lib/dataProducts/processors/AnnotationsProcessor.js:88-93 | the merge throws exactly when the record's tags are not an array or hold a nullish tag |
| Annotate.EntityStepsKeep | lib/dataProducts/processors/AnnotationsProcessor.js:70-96 | entity enrichment keeps id, type and visibility |
| Annotate.EntityStepsSource | lib/dataProducts/processors/AnnotationsProcessor.js:70-96 | entity enrichment keeps the source or marks it annotated |
| Annotations.ProcessKeepsFields | lib/dataProducts/processors/AnnotationsProcessor.js:16-38 | the stage keeps count, order and every field it does not write |
| Annotations.ProcessKeepsUnannotated | lib/dataProducts/processors/AnnotationsProcessor.js:18-21 | a record without a defined service, or whose annotation throws, is unchanged |
| Annotations.EnrichMarksAnnotated | lib/dataProducts/processors/AnnotationsProcessor.js:26-28 | an annotated service whose enrichment succeeds marks the record annotated |
| Annotations.EnrichVersioned | lib/dataProducts/processors/AnnotationsProcessor.js:51-56 | on a record still holding its default id, an annotated version yields the id generated from it |
| Annotations.DefaultRecordVersioned | lib/dataProducts/processors/AnnotationsProcessor.js:51-56 | the same on a default record |
| Annotations.EnrichValidates | lib/dataProducts/processors/AnnotationsProcessor.js:57-58 | a successful enrichment validates annotated type and visibility |
| Lifecycle.KeptEntriesSpec | lib/dataProducts/processors/LifecycleProcessor.js:69-72 | the filter throws exactly on a nullish entry, else keeps exactly entries with truthy date and version |
| Lifecycle.ChangelogEntryFields | lib/dataProducts/processors/LifecycleProcessor.js:73-79 | entries keep date, version and url; description defaults to ''; invalid release status becomes 'active' |
| Lifecycle.ChangelogEntriesValid | lib/dataProducts/processors/LifecycleProcessor.js:69-79 | every built entry has truthy date and version and a valid release status |
| Lifecycle.BlockStatuses | lib/dataProducts/processors/LifecycleProcessor.js:32-45 | release and lifecycle status come from the block only when valid |
| Lifecycle.BlockThrows | lib/dataProducts/processors/LifecycleProcessor.js:28-79 | the block throws exactly when its changelog entries are an array holding null or undefined |
| Lifecycle.BlockDates | lib/dataProducts/processors/LifecycleProcessor.js:48-61 | each block date is set only when the date check returns one |
| Lifecycle.EnrichDates | lib/dataProducts/processors/LifecycleProcessor.js:48-96 | sunset date and last update come only from the block's checked dates; the deprecation date also from a string `@ORD.deprecated` |
| Lifecycle.EnrichReleaseStatus | lib/dataProducts/processors/LifecycleProcessor.js:32-37 | a valid block status wins; the shorthand never overrides a set status |
| Lifecycle.EnrichDeprecated | lib/dataProducts/processors/LifecycleProcessor.js:91-96 | `@ORD.deprecated` on a record without status gives 'deprecated' |
| Lifecycle.EnrichLifecycleStatus | lib/dataProducts/processors/LifecycleProcessor.js:40-45 | the lifecycle status is the old one or a valid one |
| Lifecycle.EnrichSuccessors | lib/dataProducts/processors/LifecycleProcessor.js:64-66 | block successors are its strings; `@ORD.successor` only fills missing successors |
| Lifecycle.ProcessKeepsFields | lib/dataProducts/processors/LifecycleProcessor.js:9-16 | count, order and every non-lifecycle field are kept |
| Lifecycle.ProcessKeepsUnserviced | lib/dataProducts/processors/LifecycleProcessor.js:23 | a record without a defined service or whose enrichment throws is unchanged |
| Taxonomy.NormalizeArraySpec | lib/dataProducts/processors/TaxonomyProcessor.js:80-88 | an array is kept; a string gives exactly its non-empty trimmed comma-separated parts; anything else gives nothing |
| Taxonomy.CountryCodesSpec | lib/dataProducts/processors/TaxonomyProcessor.js:41-45 | throws exactly on a non-string value; otherwise exactly the upper-cased two-letter codes |
| Taxonomy.ProcessLabels | lib/dataProducts/processors/TaxonomyProcessor.js:90-103 | the loop returns `ProcessedLabels`, which `ProcessedLabelsSpec` characterises |
| Taxonomy.ProcessedLabelsSpec | lib/dataProducts/processors/TaxonomyProcessor.js:90-103 | undefined for non-objects and when nothing is kept; arrays filtered to strings, strings wrapped, other values dropped |
| Taxonomy.LabelOfStrings | lib/dataProducts/processors/TaxonomyProcessor.js:94-100 | every kept label is a list of strings |
| Taxonomy.EnrichIndustry | lib/dataProducts/processors/TaxonomyProcessor.js:31-55 | the block wins; the individual annotation only fills a missing industry |
| Taxonomy.EnrichLineOfBusiness | lib/dataProducts/processors/TaxonomyProcessor.js:31-55 | the same for line of business |
| Taxonomy.EnrichCountries | lib/dataProducts/processors/TaxonomyProcessor.js:41-61 | the same precedence for countries |
| Taxonomy.EnrichCountryCodes | lib/dataProducts/processors/TaxonomyProcessor.js:41-61 | every written country is a two-letter upper-case code |
| Taxonomy.EnrichLabels | lib/dataProducts/processors/TaxonomyProcessor.js:64-75 | labels replace the record's wholesale; correlation ids normalized |
| Taxonomy.EnrichThrows | lib/dataProducts/processors/TaxonomyProcessor.js:22-61 | throws exactly without definitions or for countries holding a non-string |
| Taxonomy.ProcessKeepsFields | lib/dataProducts/processors/TaxonomyProcessor.js:8-16 | count, order and every field it does not own are kept |
| Taxonomy.ProcessKeepsUnenriched | lib/dataProducts/processors/TaxonomyProcessor.js:8-16 | a record without a service or whose enrichment throws is unchanged |
| Taxonomy.CountriesAsWritten | lib/dataProducts/processors/TaxonomyProcessor.js:12 | as written one record with `@ORD.countries: [1]` makes the whole stage throw |
| EntityTypes.DedupSpec | lib/dataProducts/processors/EntityTypesProcessor.js:25 | the set holds each value once, in first-seen order; adding only appends |
| EntityTypes.AddAnnotated | lib/dataProducts/processors/EntityTypesProcessor.js:27-32 | the loop yields the annotated types without duplicates |
| EntityTypes.AddFirstPass | lib/dataProducts/processors/EntityTypesProcessor.js:34-45 | the first pass adds each element's type to the set; a throw propagates |
| EntityTypes.AddSecondPass | lib/dataProducts/processors/EntityTypesProcessor.js:47-54 | the second pass adds each target's `@ORD.entityType` to the set; a throw propagates |
| EntityTypes.CollectEntityTypes | lib/dataProducts/processors/EntityTypesProcessor.js:25-57 | the three loops return `EntityTypesOf`, which `EntityTypesOfSpec` characterises |
| EntityTypes.SynthesizedFromTarget | lib/dataProducts/processors/EntityTypesProcessor.js:40-42 | an exposed entity without annotation gets the id from its target's last segment |
| EntityTypes.EntityTypesOfSpec | lib/dataProducts/processors/EntityTypesProcessor.js:25-57 | no duplicates; every annotated, first-pass and second-pass type present; nothing else |
| EntityTypes.AnnotatedFirst | lib/dataProducts/processors/EntityTypesProcessor.js:27-32 | annotated types come first |
| EntityTypes.EnrichWrites | lib/dataProducts/processors/EntityTypesProcessor.js:56-58 | only `entityTypes` is written, and only when non-empty |
| EntityTypes.ProcessKeepsFields | lib/dataProducts/processors/EntityTypesProcessor.js:8-16 | count, order and every other field are kept |
| EntityTypes.ProcessKeepsUnenriched | lib/dataProducts/processors/EntityTypesProcessor.js:8-16 | records without service or with a throwing enrichment are unchanged |
| InputPorts.NormalizeIdSpec | lib/dataProducts/processors/InputPortsProcessor.js:72-84 | full ids and ids with `:` kept; simple names become `ns:integrationDependency:name:v1`; normalizing is idempotent |
| InputPorts.PortOfSpec | lib/dataProducts/processors/InputPortsProcessor.js:27-45 | a string gives its normalized port; null throws; an object with `ordId` gives that port with its description; else none |
| InputPorts.PortsSpec | lib/dataProducts/processors/InputPortsProcessor.js:27-45 | throws exactly when an entry throws; else each port-giving entry contributes its port |
| InputPorts.DependencyPorts | lib/dataProducts/processors/InputPortsProcessor.js:48-56 | integration dependencies become ports of their normalized ids |
| InputPorts.CollectTargetSources | lib/dataProducts/processors/InputPortsProcessor.js:94-105 | the first loop returns `TargetSources`, whose dependencies are named after their sources |
| InputPorts.DetectExternalDependencies | lib/dataProducts/processors/InputPortsProcessor.js:91-118 | the method returns `ExternalDependencies`: the target-source dependencies, then one per consumed service |
| InputPorts.ConsumedIds | lib/dataProducts/processors/InputPortsProcessor.js:107-115 | each consumed service adds a dependency named after it, or `ExternalData`, after the sources |
| InputPorts.TargetSourcesNamed | lib/dataProducts/processors/InputPortsProcessor.js:94-105 | a source-derived dependency is named after its source |
| InputPorts.EnrichInputPorts | lib/dataProducts/processors/InputPortsProcessor.js:26-67 | precedence: annotated ports, then integration dependencies, then detected ones for derived products |
| InputPorts.ProcessKeepsFields | lib/dataProducts/processors/InputPortsProcessor.js:8-16 | count, order and every field but the input ports are kept |
| InputPorts.ProcessKeepsUnenriched | lib/dataProducts/processors/InputPortsProcessor.js:8-16 | records without service or with a throwing enrichment are unchanged |
| Links.ProcessDataProductLinks | lib/dataProducts/processors/DataProductLinksProcessor.js:67-95 | the loop returns `ProcessedProductLinks`, whose per-link behaviour `ProductLinkSpec` states |
| Links.ProductLinkSpec | lib/dataProducts/processors/DataProductLinksProcessor.js:67-95 | a string is a support link; null throws; an object with a URL a link of its type; else dropped |
| Links.ProductLinksSpec | lib/dataProducts/processors/DataProductLinksProcessor.js:67-95 | throws exactly on a null link; each result is a typed link |
| Links.ProcessGeneralLinks | lib/dataProducts/processors/DataProductLinksProcessor.js:97-121 | the loop returns `ProcessedGeneralLinks`, whose per-link behaviour `GeneralLinkSpec` states |
| Links.GeneralLinkSpec | lib/dataProducts/processors/DataProductLinksProcessor.js:97-121 | a general link always has a title, a description and a URL, with defaults |
| Links.CollectTypedLinks | lib/dataProducts/processors/DataProductLinksProcessor.js:37-55 | the loop over the four link types returns `TypedLinksOf`, whose order `TypedLinksOrder` states |
| Links.PushTypedLinks | lib/dataProducts/processors/DataProductLinksProcessor.js:41-54 | one link per annotated type, pushed in order |
| Links.TypedLinksOrder | lib/dataProducts/processors/DataProductLinksProcessor.js:37-55 | support, payment, SLA, custom order; only custom carries its type |
| Links.EnrichProductLinks | lib/dataProducts/processors/DataProductLinksProcessor.js:26-62 | structured links (or the record's), then the typed links |
| Links.EnrichGeneralLinks | lib/dataProducts/processors/DataProductLinksProcessor.js:32-34 | general links replace the record's |
| Links.ProcessKeepsFields | lib/dataProducts/processors/DataProductLinksProcessor.js:8-16 | count, order and every field but the links are kept |
| Links.ProcessKeepsUnenriched | lib/dataProducts/processors/DataProductLinksProcessor.js:8-16 | records without service or with a throwing enrichment are unchanged |
| Governance.PolicyFields | lib/dataProducts/processors/GovernanceProcessor.js:27-54 | policy level and system-instance awareness follow block, record, annotation precedence |
| Governance.WritesLabels | lib/dataProducts/processors/GovernanceProcessor.js:57-78 | what each label key holds after the writes |
| Governance.EnrichLabels | lib/dataProducts/processors/GovernanceProcessor.js:57-78 | object label containers keep unwritten keys; absent ones hold only the writes |
| Governance.EnrichThrows | lib/dataProducts/processors/GovernanceProcessor.js:22-78 | throws exactly without definitions or when writing into a primitive container |
| Governance.ProcessKeepsFields | lib/dataProducts/processors/GovernanceProcessor.js:8-15 | count, order and every unwritten field are kept |
| Governance.FallbackKeepsSharedWrites | lib/dataProducts/processors/GovernanceProcessor.js:24 | the shallow copy leaks: a throwing enrichment still leaves earlier label writes on the fallback record |
| Governance.SharedWritesKeeps | lib/dataProducts/processors/GovernanceProcessor.js:24 | shared writes change nothing else of the input record |
| CustomOrd.NoOverridesUnchanged | lib/dataProducts/processors/CustomOrdProcessor.js:14-17 | without overrides the list comes back unchanged |
| CustomOrd.ProcessPerRecord | lib/dataProducts/processors/CustomOrdProcessor.js:8-44 | throws exactly when the merge does; records keep place and id and take the targeting overrides' values |
| CustomOrd.SingleOverride | lib/dataProducts/processors/CustomOrdProcessor.js:19-43 | one targeting override writes its keys, keeps the rest, sets the source |
| CustomOrd.ProcessThrows | lib/dataProducts/processors/CustomOrdProcessor.js:14-36 | for every record list: throws exactly when there are overrides and the merge throws or an override is null or undefined (its `id` is read at line 33); always a TypeError |
| CustomOrd.NullOverrideWithoutRecordsThrows | lib/dataProducts/processors/CustomOrdProcessor.js:29-36 | with no records the merge accepts a null override, and the stage then throws reading its `id` |
| CustomOrd.RetagIsIdentity | lib/dataProducts/processors/CustomOrdProcessor.js:38-43 | the final re-tagging changes no record |
| Builder.HasEvent | lib/dataProducts/builder.js:104-106 | true at the first event; a nullish element before it throws |
| Builder.SomeEvent | lib/dataProducts/builder.js:104-106 | the early-exit loop returns `HasEvent` |
| Builder.GenerateOutputPorts | lib/dataProducts/builder.js:87-116 | the method returns `OutputPorts`, whose shape `OutputPortsShape` states |
| Builder.OutputPortsShape | lib/dataProducts/builder.js:87-116 | no ports without the service; else the API port, then the event port exactly when there are events |
| Builder.AttachOptional | lib/dataProducts/builder.js:59-64 | the loop returns `Attached`: the entry with each defined optional value written |
| Builder.ValidationEmptyIffValid | lib/dataProducts/builder.js:118-133 | no messages exactly when valid; at most one per requirement |
| Builder.ValidationMessages | lib/dataProducts/builder.js:122-130 | each required field is reported exactly when falsy; the port message exactly when no ports |
| Builder.ValidateDataProduct | lib/dataProducts/builder.js:118-133 | the method returns `ValidationErrors`, which `ValidationMessages` characterises |
| Builder.BuildDataProduct | lib/dataProducts/builder.js:4-85 | the method returns `Built`: the entry when it validates, the validation error otherwise (`BuiltIffValid`) |
| Builder.EntryIdentity | lib/dataProducts/builder.js:7-23 | `ordId` and the merge key hold the id; local id falls back to service name; descriptions to the title |
| Builder.EntryMergeKey | lib/dataProducts/builder.js:22 | the merge key keeps the id through optional fields and ports |
| Builder.EntryDefaults | lib/dataProducts/builder.js:14-21 | release status, responsible, category and input ports take their defaults |
| Builder.EntryCopies | lib/dataProducts/builder.js:13-18 | version, visibility, package and type are copied |
| Builder.EntryOptional | lib/dataProducts/builder.js:26-64 | an optional field is present exactly when defined (lists: non-empty) with the config's value |
| Builder.EntryOutputPorts | lib/dataProducts/builder.js:67-74 | non-empty explicit ports replace generated ones; otherwise generated or empty |
| Builder.ResponsibleNeverMissing | lib/dataProducts/builder.js:17 | the check never reports `responsible` missing |
| Builder.BuiltIffValid | lib/dataProducts/builder.js:4-85 | returns the entry exactly when valid, else throws the message naming id and failures |
| Builder.WithPackage | lib/dataProducts/builder.js:141-143 | the package id is written only when the config has none and a package is given |
| Builder.BuildEntry | lib/dataProducts/builder.js:139-149 | one loop pass: the entry it contributes and the updated config |
| Builder.BuildDataProducts | lib/dataProducts/builder.js:135-153 | corrected loop: equals `Batch`, and returns the configs with their package |
| Builder.BatchValid | lib/dataProducts/builder.js:135-153 | every kept entry is valid; every config that builds contributes |
| Builder.BatchAppend | lib/dataProducts/builder.js:138-150 | the batch splits along its input, in order |
| Builder.NullConfigAborts | lib/dataProducts/builder.js:138-150 | as written, a nullish config anywhere aborts the batch |
| Builder.BatchAgrees | lib/dataProducts/builder.js:138-150 | without nullish configs the as-written and corrected batch agree |
| Config.ValidateConfiguration | lib/dataProducts/config.js:34-59 | the method returns `ConfigurationErrors`, which the lemmas below characterise |
| Config.ConfigurationErrorsCases | lib/dataProducts/config.js:34-59 | null and undefined throw; otherwise at most one message per check, none exactly when valid |
| Config.MessageReported | lib/dataProducts/config.js:37-56 | each message appears exactly when its check fails |
| Config.ReportsInCheckOrder | lib/dataProducts/config.js:37-56 | messages come in check order |
| Config.VersionCheck | lib/dataProducts/config.js:45-47 | a version passes exactly when it is three digit runs joined with dots |
| Config.MessageTexts | lib/dataProducts/config.js:49-56 | the type and visibility messages list the allowed values |
| Legacy.LegacyInitFields | lib/dataProducts/processor.js:50-62 | a fresh record has id, service name, no tags and source "default" |
| Legacy.LegacyInitOmits | lib/dataProducts/processor.js:50-62 | a fresh record has no local id, short description or category |
| Legacy.ExtractPerService | lib/dataProducts/processor.js:12-48 | throws exactly when model, definitions or a definition is missing; else one record per service |
| Legacy.LegacyKeepsPartialWrites | lib/dataProducts/processor.js:18-31 | a throwing service annotation leaves title and description written |
| Legacy.LegacySource | lib/dataProducts/processor.js:64-105 | entity annotations never change the source |
| Legacy.DataProduct.constructor | lib/dataProducts/processor.js:50-62 | a record object with the given fields |
| Legacy.DataProduct.ApplyServiceAnnotations | lib/dataProducts/processor.js:64-83 | in-place update, equal to the service steps, partial on throw |
| Legacy.DataProduct.EnrichWithEntityAnnotations | lib/dataProducts/processor.js:85-105 | in-place update, equal to the entity steps |
| Legacy.AnnotateInPlace | lib/dataProducts/processor.js:18-31 | one record annotated in place, as far as it got |
| Legacy.CreateDefaultDataProducts | lib/dataProducts/processor.js:37-48 | fails exactly when the default records cannot be made; otherwise fresh, distinct objects holding them |
| Legacy.AnnotateAll | lib/dataProducts/processor.js:18-31 | every record annotated in place |
| Legacy.ExtractDataProductsFromModel | lib/dataProducts/processor.js:12-35 | fails exactly when `Extract` does; otherwise fresh, distinct objects whose fields are `Extract`'s records |
| DpdBuilder.BuildDpd | lib/dataProducts/dpd/builder.js:11-198 | the method returns `Descriptor`, whose failures and properties the lemmas below state |
| DpdBuilder.DescriptorOk | lib/dataProducts/dpd/builder.js:11-198 | throws exactly for nullish config, non-string version or namespace, missing model, bad links or derived section; only TypeError |
| DpdBuilder.DescriptorProperties | lib/dataProducts/dpd/builder.js:11-198 | each block holds what the source writes; keys are unique and among the 34 |
| DpdBuilder.OrdIdAgrees | lib/dataProducts/dpd/builder.js:28 | the `ordId` agrees with `generateDataProductId` for non-empty versions; differs for the empty one |
| DpdBuilder.DefaultNamespaceOrdId | lib/dataProducts/dpd/builder.js:12 | without a namespace, `customer.sample` is used |
| DpdBuilder.ResponsibleShape | lib/dataProducts/dpd/builder.js:168 | responsible is the prefix plus the namespace with dots turned into dashes |
| DpdBuilder.DependsOnShape | lib/dataProducts/dpd/builder.js:113-130 | a primary product depends on one dataset per entity, in order |
| DpdBuilder.OutputSchemaShape | lib/dataProducts/dpd/builder.js:171-195 | a written schema has type `cds`, one entry per entity, events exactly when present |
| DpdBuilder.OutputSchemaPresent | lib/dataProducts/dpd/builder.js:171-195 | the schema is computed with definitions and written when the service exists |
| DpdBuilder.LinksMapped | lib/dataProducts/dpd/builder.js:98-105 | one mapped link per link |
| DpdBuilder.BuildDerivedProperties | lib/dataProducts/dpd/builder.js:131-151 | the loop returns `DerivedProperties` |
| DpdBuilder.AddLifecycleDates | lib/dataProducts/dpd/builder.js:154-165 | the lifecycle-date writes continue the descriptor's property collection exactly as the specification function does |
| DpdValidator.ValidateDpd | lib/dataProducts/dpd/validator.js:8-48 | valid exactly when the five required fields are truthy, name and version well formed, type and category allowed |
| DpdValidator.ValidateDpdWeak | lib/dataProducts/dpdBuilder.js:205-231 | the copy without type and category checks |
| DpdValidator.StrictImpliesWeak | lib/dataProducts/dpd/validator.js:8-48 | the strict validator implies the weak one; they agree on allowed type and category |
| DpdValidator.RequiredFields | lib/dataProducts/dpd/validator.js:25-31 | nothing missing exactly when all five are truthy |
| DpdValidator.ValidBuilt | lib/dataProducts/dpd/validator.js:8-48 | on a built descriptor, the verdict depends only on the config |
| DpdGenerator.ExtractDataProductAnnotations | lib/dataProducts/dpdGenerator.js:11-93 | the method returns `Extracted`; there is no configuration exactly when the service has no data-product annotation |
| DpdGenerator.Annotation | lib/dataProducts/dpdGenerator.js:32-35 | the upper-case key wins unless falsy |
| DpdGenerator.ExtractedIdentity | lib/dataProducts/dpdGenerator.js:26-45 | name is the service's; version and title fall back to 1.0.0 and the name |
| DpdGenerator.ExtractedDefaults | lib/dataProducts/dpdGenerator.js:38-42 | type, visibility, category and description defaults |
| DpdGenerator.ExtractedSections | lib/dataProducts/dpdGenerator.js:48-65 | lifecycle and governance present exactly when their key annotation is |
| DpdGenerator.ExtractedCopies | lib/dataProducts/dpdGenerator.js:68-90 | each copied annotation present exactly when defined |
| DpdGenerator.DeleteUndefined | lib/dataProducts/dpdGenerator.js:86-90 | the loop returns `Defined`: the configuration without its undefined properties |
| DpdGenerator.GenerateFromAnnotations | lib/dataProducts/dpdGenerator.js:101-135 | the method returns `FilesFromAnnotations`, whose per-service behaviour `ServiceFileSpec` states |
| DpdGenerator.ServiceFileSpec | lib/dataProducts/dpdGenerator.js:105-130 | an entry yields a file exactly for an annotated service whose descriptor builds |
| DpdGenerator.ServiceFilesOk | lib/dataProducts/dpdGenerator.js:101-135 | throws exactly on a nullish definition; at most one file per entry |
| DpdGenerator.GenerateFromChain | lib/dataProducts/dpd/generator.js:13-73 | the method returns `FilesFromChain`: the chain's records, then one file per record that `ItemKept` admits |
| DpdGenerator.HandleItems | lib/dataProducts/dpd/generator.js:38-64 | the loop keeps, in order, the files of the records that yield one |
| DpdGenerator.HandleItem | lib/dataProducts/dpd/generator.js:39-63 | one record's file, or none when building or validating it fails |
| DpdGenerator.ItemFilesValid | lib/dataProducts/dpd/generator.js:46-58 | every file passed validation and is named after its name and version |
| DpdGenerator.ItemKept | lib/dataProducts/dpd/generator.js:38-64 | a record yields a file exactly when its descriptor builds and it passes the validator; never without a name |
| DpdGenerator.NamedItemKept | lib/dataProducts/dpd/generator.js:38-64 | a nameless record yields no file as written; named after its service it does |
| DpdGenerator.NamedFilesKept | lib/dataProducts/dpd/generator.js:38-64 | the corrected run (records named after their service) keeps every record's file, and every file it returns passed validation and is named after the descriptor's name and version |

## Left out

- The chain (`Chain.Run`, `Chain.Pipeline`, `Chain.ProcessorChain.Process`, `Chain.PipelineCount`) and the chain-driven DPD run (`DpdGenerator.FilesFromChain`) use the guarded per-record map `StageMap.MapGuarded`: a record whose enrichment throws is kept as it was. As written, the `catch` calls the undefined `this.handleError` and the stage throws (see Findings). That behaviour is stated only by `StageMap.AsWrittenVersusGuarded` and `Taxonomy.CountriesAsWritten`.
- The chain's `async`/Promise behaviour is modelled only by `Chain.RunAsWritten` (see Findings). The rest of the model, including `Chain.ProcessorChain.Process` and the chain-driven DPD generator, uses the awaited chain, in which each stage's records are handed on.
- File reading is left out. The override document is an input: the parsed file, or `None` when it is missing or unreadable (`loadCustomConfiguration`, lib/dataProducts/config.js:1-31). The `cds.env` settings are also inputs.
- `validateDate` (lib/dataProducts/utils.js:62-70) is a parameter of the context, because it depends on JavaScript's `Date` parsing. The clock reading stamped into `lastModified` is a parameter too.
- Logging (`Logger`) is left out: the messages are not part of any result. Building a message can throw, and that case is modelled (CustomOrdProcessor.js:33 reads the `id` of each unmatched override; `CustomOrd.ProcessThrows`).
- Some files are not part of this model, because they only wire the generator into the build:
  - lib/dataProducts/index.js;
  - the feature flags;
  - lib/dataProducts/buildDpd.js;
  - the CDS plugin registration;
  - scripts and tests.
- Taxonomy.CountryCodesSpec: `toUpperCase` is modelled for ASCII letters only. JavaScript also maps other letters (for example `ı` to `I` and `ß` to `SS`), so such inputs can differ.
- Taxonomy.NormalizeArraySpec: `trim` is modelled as removing ASCII white space, the no-break space and the byte-order mark only. The other Unicode space separators and line terminators that JavaScript also trims are kept.
- JavaScript numbers are modelled as integers; no floating point value occurs in the modelled logic.
- TagMerge.MergeUniqueTags: the `Map` in `mergeUniqueTags` is keyed by value identity (SameValueZero). The model compares tag keys structurally, which agrees for the string keys tags carry.
- `String.prototype.replace` is modelled with a literal replacement; `$` patterns in a replacement are not interpreted.
- `Js.OwnEntries` lists keys in insertion order. JavaScript lists integer-like keys first, so objects with such keys can be ordered differently.
- The shared constants module (lib/constants.js) is not part of this model. `DESCRIPTION_PREFIX` and `CONTENT_MERGE_KEY` are therefore constants without a fixed value (Builder.EntryMergeKey states what is known). The visibility, type and release-status lists follow the data-product constants.
- EntityTypes.DedupSpec: `new Set()` treats two objects or arrays as the same member only when they are the same object. The model de-duplicates by value, so two structurally equal but distinct object-valued entity types (two equal objects in `@ORD.entityTypes`, or equal `@ORD.entityType` objects of two entities) appear once in the model and twice in the source. Primitive values such as strings agree.
- EntityTypes.AddAnnotated: its "without duplicates" uses the same by-value comparison as `EntityTypes.DedupSpec`; for object-valued types it can drop an entry the source keeps.
- EntityTypes.EntityTypesOfSpec: its no-duplicates clause and its membership clauses compare by value, as in `EntityTypes.DedupSpec`, not by object identity.
- ConfigMerge.FindById: strict equality of an override's id with a record's id is modelled for freshly parsed values. An object or array from the parsed file is never `===` to an existing value.
- DpdBuilder.OrdIdAgrees: the descriptor builder writes `:v` for an empty version string, where `generateDataProductId` writes `:v1`. The lemma states both.

## Findings

| source | as written | input that shows it | evidently intended | confidence | as-written member | corrected member |
|---|---|---|---|---|---|---|
| lib/dataProducts/processors/DefaultsProcessor.js:8 | `process` of the defaults, annotations and override stages is `async`, but `handle` (lib/dataProducts/processors/BaseProcessor.js:19-23) hands the returned Promise straight to the next stage | any model: the lifecycle stage calls `map` on a Promise and throws a TypeError | each stage receives the records its predecessor produced | high, not executed | Chain.AsyncChainThrows | Chain.ProcessorChain.Process |
| lib/dataProducts/processors/LifecycleProcessor.js:13 | the per-record `catch` calls `this.handleError`, which no class defines, so the catch itself throws (the same in the other five mapping stages) | a record whose enrichment throws, e.g. `@ORD.countries: [1]` (lib/dataProducts/processors/TaxonomyProcessor.js:12) | the failing record is kept unchanged and the stage goes on | high, not executed | StageMap.AsWrittenVersusGuarded | StageMap.MapGuarded |
| lib/dataProducts/builder.js:138-150 | the `catch` reads `config.id` (line 148), which throws again for a null or undefined config | a merged list holding `null` | the entry is skipped and the other entries are built | medium, not executed | Builder.NullConfigAborts | Builder.BuildDataProducts |
| lib/dataProducts/dpd/generator.js:38-58 | chain records carry `serviceName` but no `name` (lib/dataProducts/processors/DefaultsProcessor.js:26-39), so the descriptor has no name and `validateDpd` rejects every record | any chain record, including a complete annotated one | the descriptor is named after the record's service, as line 57 files it | medium, not executed | DpdGenerator.ItemKept | DpdGenerator.NamedItemKept |

