# querqy-opensearch core, modelled in Dafny

This project models the core of the Querqy plugin for OpenSearch and proves
properties of that model. The core has these parts:

- **Query composition.** `QuerqyProcessor.parseQuery` folds the output of
  the Querqy query parser into one Lucene query. It takes the main query, the
  boost queries and the filter queries, with the single-clause shortcut and
  the unpack-or-nest rule for boolean filters.
- **Rewriter chain and info-logging decision.** `parseQuery` picks the
  rewrite chain and decides whether to log, and it marks the request's
  logging spec as logged.
- **Per-shard rewriter cache.** `RewriterShardContext` is a map from rewriter
  id to factory and logging flag. It supports load on miss, forced reload,
  reload only if present, and clearing one id or all of them.
- **Registry of shard caches.** `RewriterShardContexts` creates a cache when
  a shard is first queried, fans clear and reload calls out to every cache,
  and drops a cache when its shard closes.
- **Rewriter definitions.** `RewriterConfigMapping` covers the stored record
  layouts. `PutRewriterRequest.validate` checks a definition.
  `OpenSearchRewriterFactory` finds and creates factory classes. `ConfigUtils`
  holds the configuration getters.
- **Query parameter objects.** This covers the parsers in `RequestUtils` and
  the value objects `InfoLoggingSpec`, `MatchingQuery`, `Rewriter`,
  `PhraseBoosts`, `PhraseBoostDefinition` and `Generated`. For each, the model
  covers its checks, defaults, equality, stream form and XContent form. It
  also covers the equality and stream form of `NodesReloadRewriterResponse`.
- **Info logging.** `Log4jSink` collects each request's messages in a sorted
  map and writes one event at the end of the request. `SingleSinkInfoLogging`
  filters by the enabled rewriter ids. `LogMessage` is the JSON text of a
  message.

The Java classes whose methods update fields in place are Dafny classes with
`modifies` clauses. Each such class has a `State()` value that the proofs are
stated against. The loops of the source are methods with loop invariants,
each proved equal to a function that specifies it. The pure parts are
datatypes, functions and lemmas.

Things the plugin does not define are parameters of the model:

- the stored rewriter index and the factory classes that exist;
- JSON parsing and writing;
- `Float.parseFloat` and `Float.toString`;
- `JsonUtils.quoteAsString`;
- the iteration order of a `HashMap`;
- the query parsing controller.

Floats are 32-bit patterns (`bv32`) and are compared as `Float.equals`
compares them. OpenSearch's `StreamInput`/`StreamOutput` become a sequence of
typed tokens.

## Model

| member | source | states |
|---|---|---|
| QueryComposition.UnpackAll | src/main/java/querqy/opensearch/QuerqyProcessor.java:152-158 | each clause of an unpacked filter keeps its position; MUST_NOT stays MUST_NOT and every other occur becomes FILTER |
| QueryComposition.BooleanQueryBuilder.constructor | src/main/java/querqy/opensearch/QuerqyProcessor.java:115 | a new builder holds no clauses |
| QueryComposition.BooleanQueryBuilder.Add | src/main/java/querqy/opensearch/QuerqyProcessor.java:117-120 | `add` appends exactly one clause at the end |
| QueryComposition.AppendFilterQueries | src/main/java/querqy/opensearch/QuerqyProcessor.java:135-167 | the loop appends, in list order, each filter's contribution; a null list appends nothing |
| QueryComposition.AppendFilterQuery | src/main/java/querqy/opensearch/QuerqyProcessor.java:141-164 | one filter appends its unpacked clauses or itself as one FILTER clause |
| QueryComposition.AppendUnpacked | src/main/java/querqy/opensearch/QuerqyProcessor.java:152-158 | the inner loop appends the unpacked clauses in order |
| QueryComposition.ComposeQuery | src/main/java/querqy/opensearch/QuerqyProcessor.java:101-130 | the builder code returns the composed query that the lemmas below characterise |
| QueryComposition.BoostClausesShape | src/main/java/querqy/opensearch/QuerqyProcessor.java:118-122 | one SHOULD clause per boost query, in list order |
| QueryComposition.FilterClausesNeverScore | src/main/java/querqy/opensearch/QuerqyProcessor.java:137-166 | every clause a filter list adds is FILTER or MUST_NOT |
| QueryComposition.FilterClausesAppend | src/main/java/querqy/opensearch/QuerqyProcessor.java:139-166 | the clauses of two filter lists in a row are the two contributions concatenated |
| QueryComposition.ShortCircuitUnwraps | src/main/java/querqy/opensearch/QuerqyProcessor.java:101-113 | with no boosts, no filters and a main boolean query of one scoring clause, the result is that clause's inner query |
| QueryComposition.LoneNonScoringClauseIsWrapped | src/main/java/querqy/opensearch/QuerqyProcessor.java:107-117 | a lone FILTER or MUST_NOT clause is not unwrapped: the main query is wrapped as the only MUST clause |
| QueryComposition.WrapsMainIffNoShortCircuit | src/main/java/querqy/opensearch/QuerqyProcessor.java:101-126 | the result has the main query as its first MUST clause exactly when the shortcut does not apply |
| QueryComposition.ComposedLayout | src/main/java/querqy/opensearch/QuerqyProcessor.java:115-126 | without the shortcut: the main query as MUST, then the boosts as SHOULD, then the filter clauses; minimum-should-match 0 |
| QueryComposition.AppendedFilterClausesNeverScore | src/main/java/querqy/opensearch/QuerqyProcessor.java:135-167 | nothing `appendFilterQueries` adds contributes to the score |
| QueryComposition.ComposedSingleRequiredClause | src/main/java/querqy/opensearch/QuerqyProcessor.java:115-126 | without the shortcut the main query is the only MUST clause |
| QueryComposition.NoFiltersNoClauses | src/main/java/querqy/opensearch/QuerqyProcessor.java:137 | a null or empty filter list adds no clause |
| QueryComposition.NonBooleanFilterIsOneFilterClause | src/main/java/querqy/opensearch/QuerqyProcessor.java:162-163 | a filter that is not a boolean query adds exactly one FILTER clause |
| QueryComposition.UnpackedFilterClauses | src/main/java/querqy/opensearch/QuerqyProcessor.java:148-158 | a boolean filter with fewer than 2 clauses, at most `mm` clauses or only MUST_NOT clauses adds its clauses in order, MUST_NOT kept and the rest as FILTER |
| QueryComposition.EmptyBooleanFilterAddsNothing | src/main/java/querqy/opensearch/QuerqyProcessor.java:148-158 | a boolean filter without clauses adds nothing |
| QueryComposition.DisjunctiveFilterKeptWhole | src/main/java/querqy/opensearch/QuerqyProcessor.java:159-160 | any other boolean filter is nested whole as one FILTER clause |
| QueryComposition.AllNegativeFilterExample | src/main/java/querqy/opensearch/QuerqyProcessor.java:148-158 | a filter with one MUST_NOT clause over a DisMax query adds that MUST_NOT clause |
| QuerqyProcessors.Decided | src/main/java/querqy/opensearch/QuerqyProcessor.java:59-86 | no rewriters means the empty chain and no logging; otherwise the cache's chain, or its exception, with the logging set only when the spec exists, its type is not NONE and it is not yet logged |
| QuerqyProcessors.InfoLoggingFor | src/main/java/querqy/opensearch/QuerqyProcessor.java:88-89 | no info logging for an empty set; otherwise one that enables exactly the set's ids |
| QuerqyProcessors.CollectedMessages | src/main/java/querqy/opensearch/QuerqyProcessor.java:88-95 | the rewriters' log calls collect messages exactly when some call is by an enabled rewriter, and then they are the filtered, sorted messages |
| QuerqyProcessors.ShortCircuitDropsMessages | src/main/java/querqy/opensearch/QuerqyProcessor.java:101-113 | as written, a short-circuited query returns before `endOfRequest`, so no event is written |
| QuerqyProcessors.ShortCircuitCounterexample | src/main/java/querqy/opensearch/QuerqyProcessor.java:101-131 | one term query with rewriter id logging on and one message: as written no event is written; the corrected form writes it |
| QuerqyProcessors.FormsAgreeOnQuery | src/main/java/querqy/opensearch/QuerqyProcessor.java:101-131 | the as-written and corrected forms return the same query or exception |
| QuerqyProcessors.ParsedEvent | src/main/java/querqy/opensearch/QuerqyProcessor.java:74-131 | an event is written exactly when the chain loaded, the parser did not throw, some rewriter has logging enabled, the spec asks for a payload and some enabled rewriter logged; then it carries the spec's id, the marker of the payload type and, per enabled rewriter, what it logged in order |
| QuerqyProcessors.SyntaxErrorWritesNothing | src/main/java/querqy/opensearch/QuerqyProcessor.java:56-95 | when the parser throws, the exception is the result and no event is written, while the spec stays marked logged as the decision left it |
| QuerqyProcessors.NoRewritersNoEvent | src/main/java/querqy/opensearch/QuerqyProcessor.java:63-66 | an empty or null rewriter list writes no event |
| QuerqyProcessors.SecondParseLogsNothing | src/main/java/querqy/opensearch/QuerqyProcessor.java:74-85 | after a parse that enabled logging, a second parse with the same spec writes no event |
| QuerqyProcessors.QuerqyProcessor.constructor | src/main/java/querqy/opensearch/QuerqyProcessor.java:50-53 | a processor over the given registry of shard caches |
| QuerqyProcessors.QuerqyProcessor.Decide | src/main/java/querqy/opensearch/QuerqyProcessor.java:59-86 | the decision equals `Decided` over the shard cache's result; the spec is marked logged exactly when logging was enabled; no cache is touched without rewriters |
| QuerqyProcessors.QuerqyProcessor.ParseQuery | src/main/java/querqy/opensearch/QuerqyProcessor.java:56-132 | the query or the parser's exception, and the event, equal the corrected `Parsed` of the decision |
| QuerqyProcessors.Process | src/main/java/querqy/opensearch/QuerqyProcessor.java:88-131 | builds the info logging, forwards the log calls, then either propagates the parser's exception with no event or composes the query and ends the request, matching `Parsed` |
| QuerqyProcessors.ForwardLogCalls | src/main/java/querqy/opensearch/QuerqyProcessor.java:91-95 | the request's messages after the rewriters' log calls equal the specification `Collect` |
| ShardCache.LoggingEnabled | src/main/java/querqy/opensearch/RewriterShardContext.java:141-155 | logging is on iff `sinks` is "log4j" or a non-empty collection containing "log4j" |
| ShardCache.AcceptedSinksLogging | src/main/java/querqy/opensearch/RewriterShardContext.java:141-155 | for the `sinks` values a put request accepts, logging is on iff `sinks` names log4j |
| ShardCache.LoadEntry | src/main/java/querqy/opensearch/RewriterShardContext.java:121-167 | a store error gives "Could not load rewriter <id>", a missing record "Rewriter not found: <id>", a wrong type "Not a rewriter: <id>", otherwise the factory and logging flag of the record |
| ShardCache.LoadEntryFromDefinition | src/main/java/querqy/opensearch/RewriterShardContext.java:141-167 | for a stored rewriter record, an exception of `newLoadRewriterConfig` and then of `loadConfiguredInstance` propagates, and loading succeeds exactly when both succeed |
| ShardCache.LoadedEntry | src/main/java/querqy/opensearch/RewriterShardContext.java:141-167 | a loaded entry holds the factory the record names, created for its id, and the record's logging flag |
| ShardCache.ResolveFailureIsFinal | src/main/java/querqy/opensearch/RewriterShardContext.java:81-99 | once an id fails to load, the rest of the requested ids are not looked at |
| ShardCache.ResolveKeepsCache | src/main/java/querqy/opensearch/RewriterShardContext.java:81-99 | entries cached before are kept unchanged and nothing outside the requested ids is added |
| ShardCache.ResolveStepKeeps | src/main/java/querqy/opensearch/RewriterShardContext.java:85-94 | one iteration never replaces a cached entry |
| ShardCache.ResolveChain | src/main/java/querqy/opensearch/RewriterShardContext.java:81-98 | success gives one factory per requested id, in the requested order, duplicates included |
| ShardCache.ResolveLogging | src/main/java/querqy/opensearch/RewriterShardContext.java:83-94 | the logging set is exactly the requested ids whose entry has logging on |
| ShardCache.AllCachedReadsNothing | src/main/java/querqy/opensearch/RewriterShardContext.java:87-90 | when every id is cached the store is not read and a changed store has no effect |
| ShardCache.MissReadsOnce | src/main/java/querqy/opensearch/RewriterShardContext.java:117-127 | an uncached id is read exactly once; the lookup succeeds iff loading succeeds, and a failure leaves the cache unchanged |
| ShardCache.ReloadTouchesOnlyItsId | src/main/java/querqy/opensearch/RewriterShardContext.java:109-113 | a reload of an uncached id changes nothing, and otherwise only that id's entry changes |
| ShardCache.RewriterShardContext.constructor | src/main/java/querqy/opensearch/RewriterShardContext.java:72-79 | a new cache is empty |
| ShardCache.RewriterShardContext.LoadFactory | src/main/java/querqy/opensearch/RewriterShardContext.java:115-167 | a cached entry is returned unchanged without a read unless forced; otherwise the store is read once and a loaded entry replaces the cached one; a failure leaves the cache alone |
| ShardCache.RewriterShardContext.LoadFromStore | src/main/java/querqy/opensearch/RewriterShardContext.java:121-160 | the store read and its checks equal `LoadEntry` |
| ShardCache.RewriterShardContext.GetRewriteChain | src/main/java/querqy/opensearch/RewriterShardContext.java:81-99 | the result and the new cache equal the loop specification `Resolve` from the old cache |
| ShardCache.RewriterShardContext.ClearRewriter | src/main/java/querqy/opensearch/RewriterShardContext.java:101-103 | only that id is removed |
| ShardCache.RewriterShardContext.ClearRewriters | src/main/java/querqy/opensearch/RewriterShardContext.java:105-107 | the cache is emptied |
| ShardCache.RewriterShardContext.ReloadRewriter | src/main/java/querqy/opensearch/RewriterShardContext.java:109-113 | nothing for an uncached id; otherwise a forced load, with the cache as `Reloaded` says and one store read |
| ShardCaches.Without | src/main/java/querqy/opensearch/RewriterShardContexts.java:99-107 | the remaining shard ids are exactly the others, still distinct |
| ShardCaches.RewriterShardContexts.constructor | src/main/java/querqy/opensearch/RewriterShardContexts.java:48-51 | a new registry holds no shard cache |
| ShardCaches.RewriterShardContexts.LoadShardContext | src/main/java/querqy/opensearch/RewriterShardContexts.java:66-77 | an existing cache is reused; otherwise a new, empty one is registered for the shard, at most one per shard id |
| ShardCaches.RewriterShardContexts.GetRewriteChain | src/main/java/querqy/opensearch/RewriterShardContexts.java:53-64 | the chain comes from the shard's cache, created first if absent; no other cache changes |
| ShardCaches.RewriterShardContexts.ReloadRewriter | src/main/java/querqy/opensearch/RewriterShardContexts.java:79-88 | the caches reload in visiting order; the first failure is rethrown as "Could not reload rewriter <id>" and later caches are untouched |
| ShardCaches.RewriterShardContexts.ClearRewriter | src/main/java/querqy/opensearch/RewriterShardContexts.java:90-92 | the id is removed from every cache |
| ShardCaches.RewriterShardContexts.ClearRewriters | src/main/java/querqy/opensearch/RewriterShardContexts.java:94-96 | every cache is emptied |
| ShardCaches.RewriterShardContexts.RemoveShard | src/main/java/querqy/opensearch/RewriterShardContexts.java:99-107 | exactly that shard's cache is dropped and the others stay registered |
| PutRewriterRequest.CheckSinks | src/main/java/querqy/opensearch/rewriterstore/PutRewriterRequest.java:71-85 | a string passes iff it is "log4j" and a collection iff it is empty or just "log4j"; a lone null element throws; other values pass |
| PutRewriterRequest.Validate | src/main/java/querqy/opensearch/rewriterstore/PutRewriterRequest.java:57-121 | an unresolvable class is reported first; then the sink error; then the factory's validation of `config`, whose non-empty errors are reported whole and whose exceptions are wrapped |
| PutRewriterRequest.NoSinkErrorWithoutSinks | src/main/java/querqy/opensearch/rewriterstore/PutRewriterRequest.java:67-88 | no `info_logging`, no `sinks` or a `sinks` of another kind raises no sink error |
| PutRewriterRequest.AcceptedSinks | src/main/java/querqy/opensearch/rewriterstore/PutRewriterRequest.java:71-85 | exactly "log4j", the empty collection and the collection of "log4j" pass |
| PutRewriterRequest.MissingConfigValidatedAsEmpty | src/main/java/querqy/opensearch/rewriterstore/PutRewriterRequest.java:96-103 | a missing `config` is validated as an empty map |
| RewriterConfigMapping.MappingsDifferOnlyInConfigProperty | src/main/java/querqy/opensearch/rewriterstore/RewriterConfigMapping.java:44-101 | the two layouts read class and logging settings alike and differ in the config property |
| RewriterConfigMapping.GetMapping | src/main/java/querqy/opensearch/rewriterstore/RewriterConfigMapping.java:116-129 | no version selects PRE3, version 3 selects CURRENT, and any other version throws |
| RewriterConfigMapping.GetConfig | src/main/java/querqy/opensearch/rewriterstore/RewriterConfigMapping.java:152-182 | an absent or blank config string gives an empty map; otherwise the parse of the string |
| RewriterConfigMapping.ToLuceneSource | src/main/java/querqy/opensearch/rewriterstore/RewriterConfigMapping.java:133-150 | type "rewriter" and version 3 always, `class` copied, `info_logging` only when present, `config` written as text only when present; CURRENT reads back the class and logging settings |
| RewriterConfigMapping.NewLoadRewriterConfig | src/main/java/querqy/opensearch/rewriterstore/RewriterConfigMapping.java:116-182 | a stored record is read through the layout its version selects: it succeeds exactly when the layout, the class name, the configuration and the logging settings all read, in that order, and otherwise fails with the first read's exception |
| OpenSearchRewriterFactory.CheckedClassName | src/main/java/querqy/opensearch/OpenSearchRewriterFactory.java:54-63 | a missing name gives "Property not found", a blank one "Class name expected in property", otherwise the trimmed name |
| OpenSearchRewriterFactory.Instantiate | src/main/java/querqy/opensearch/OpenSearchRewriterFactory.java:78-83 | a known class gives a factory for the rewriter id; an unknown one a wrapped ClassNotFoundException |
| OpenSearchRewriterFactory.LoadConfiguredInstance | src/main/java/querqy/opensearch/OpenSearchRewriterFactory.java:51-90 | the checks, the lookup by trimmed name and `configure`; the factory carries the record's id and configuration |
| OpenSearchRewriterFactory.LoadInstance | src/main/java/querqy/opensearch/OpenSearchRewriterFactory.java:93-121 | the same checks on `instanceDesc[argName]`, a non-string throws a cast error, and the factory is not configured |
| OpenSearchRewriterFactory.LoadersAgree | src/main/java/querqy/opensearch/OpenSearchRewriterFactory.java:51-121 | both loaders find the same class for the same id and differ only in configuring it |
| ConfigUtils.GetStringArgOr | src/main/java/querqy/opensearch/ConfigUtils.java:35-38 | the string when present and non-null, the default for null or absent, a cast error otherwise |
| ConfigUtils.GetStringArg | src/main/java/querqy/opensearch/ConfigUtils.java:40-42 | empty iff the value is null or absent; the string when it is one; a cast error otherwise |
| ConfigUtils.StringArgVariantsAgree | src/main/java/querqy/opensearch/ConfigUtils.java:35-42 | both string getters read the same value |
| ConfigUtils.GetEnumArg | src/main/java/querqy/opensearch/ConfigUtils.java:44-48 | empty for null; otherwise the constant of exactly that name, or the exception of `valueOf`; a cast error for a non-string |
| ConfigUtils.GetArg | src/main/java/querqy/opensearch/ConfigUtils.java:51-53 | the stored value when the key exists (even null), the default only when absent |
| ConfigUtils.GetArgDefaultsOnlyWhenAbsent | src/main/java/querqy/opensearch/ConfigUtils.java:51-53 | `getArg` differs from `get` only on absent keys |
| ConfigUtils.GetTrieSetArg | src/main/java/querqy/opensearch/ConfigUtils.java:56-65 | exactly the distinct words of the collection, each mapped to true; empty when absent; a null word, an empty word (which the trie refuses), a non-string or a non-collection throws |
| ConfigUtils.GetInstanceFromArg | src/main/java/querqy/opensearch/ConfigUtils.java:68-93 | the default for a null or blank class name, otherwise the class of the trimmed name |
| ConfigUtils.InstanceClassNameIsTrimmed | src/main/java/querqy/opensearch/ConfigUtils.java:82-85 | whitespace around the class name does not matter |
| RequestUtils.ParamToQueryFieldsAndBoosting | src/main/java/querqy/opensearch/query/RequestUtils.java:41-70 | the loop's result equals the specification `QueryFieldsAndBoosting` |
| RequestUtils.PutField | src/main/java/querqy/opensearch/query/RequestUtils.java:51-65 | one iteration of the loop gives the specification `AddEntry`: the caret check, the weight parse, and the duplicate check after the put |
| RequestUtils.NameListShape | src/main/java/querqy/opensearch/query/RequestUtils.java:56-62 | each entry names the field before its first caret |
| RequestUtils.AddEntryCharacterised | src/main/java/querqy/opensearch/query/RequestUtils.java:50-66 | one entry is accepted iff it is valid and names a new field, and then adds that field with its weight |
| RequestUtils.AddEntriesCharacterised | src/main/java/querqy/opensearch/query/RequestUtils.java:41-70 | the parse succeeds exactly on valid entries with distinct fields, and then maps each field to its weight |
| RequestUtils.ParsedFields | src/main/java/querqy/opensearch/query/RequestUtils.java:41-70 | a successful parse has one key per entry, each with that entry's weight |
| RequestUtils.ParsedFieldsOnly | src/main/java/querqy/opensearch/query/RequestUtils.java:41-70 | a successful parse has no other key |
| RequestUtils.WeightListShape | src/main/java/querqy/opensearch/query/RequestUtils.java:56-62 | each weight is the parsed text after the caret, or DEFAULT_BOOST without one |
| RequestUtils.FailureIsFinal | src/main/java/querqy/opensearch/query/RequestUtils.java:50-66 | the first failing entry decides the exception |
| RequestUtils.NullOrEmptyParamGivesNoFields | src/main/java/querqy/opensearch/query/RequestUtils.java:43-45 | null and an empty list give an empty map |
| RequestUtils.WeightAtBeginningRejected | src/main/java/querqy/opensearch/query/RequestUtils.java:52-54 | an entry starting with a caret is rejected |
| RequestUtils.CaretAtEndRejected | src/main/java/querqy/opensearch/query/RequestUtils.java:56-60 | "f2^" asks the float parser for the empty string and fails |
| RequestUtils.AddedOne | src/main/java/querqy/opensearch/query/RequestUtils.java:61-62 | an entry without a caret gets DEFAULT_BOOST |
| RequestUtils.DuplicateWithoutWeightRejected | src/main/java/querqy/opensearch/query/RequestUtils.java:61-66 | a field repeated without weight is rejected |
| RequestUtils.DuplicateWithWeightRejected | src/main/java/querqy/opensearch/query/RequestUtils.java:56-60 | a field repeated with a weight is rejected |
| RequestUtils.FieldsAndWeightsExample | src/main/java/querqy/opensearch/query/RequestUtils.java:41-70 | mixed weighted and unweighted entries give the expected map |
| RequestUtils.AcceptedStep | src/main/java/querqy/opensearch/query/RequestUtils.java:56-66 | an accepted entry after a successful prefix adds its field and weight |
| RequestUtils.QuerySimilarityScoringValueOf | src/main/java/querqy/opensearch/query/MatchingQuery.java:70-72 | `valueOf` gives the constant of exactly that name or throws |
| RequestUtils.ParamToQuerySimilarityScoring | src/main/java/querqy/opensearch/query/RequestUtils.java:73-89 | null gives none; "dfc", "off" and "on" give their constant; any other value fails with `Invalid value for <field>: <value>` |
| RequestUtils.SimilarityScoringRoundTrip | src/main/java/querqy/opensearch/query/RequestUtils.java:73-107 | writing a scoring and parsing it back gives the same scoring |
| RequestUtils.SimilarityScoringParseInverse | src/main/java/querqy/opensearch/query/RequestUtils.java:73-107 | parsing accepts exactly null, "dfc", "off" and "on", and writing the result gives the text back |
| RequestUtils.FieldBoostModelRoundTrip | src/main/java/querqy/opensearch/query/RequestUtils.java:109-140 | every model but NONE is written and parsed back; NONE cannot be written |
| RequestUtils.FieldBoostModelParseInverse | src/main/java/querqy/opensearch/query/RequestUtils.java:109-140 | parsing accepts exactly null, "prms" and "fixed", and writing the result gives the text back |
| InfoLoggingSpecs.PayloadTypeOf | src/main/java/querqy/opensearch/query/InfoLoggingSpec.java:120-138 | null gives NONE, the three names in any case give their constant, anything else throws |
| InfoLoggingSpecs.PayloadTypeNamesRoundTrip | src/main/java/querqy/opensearch/query/InfoLoggingSpec.java:120-138 | every constant is selected by its name, in any case |
| InfoLoggingSpecs.LowerCaseAccepted | src/main/java/querqy/opensearch/query/InfoLoggingSpec.java:120-138 | "rewriter_id" selects REWRITER_ID |
| InfoLoggingSpecs.EqualsIgnoresLogged | src/main/java/querqy/opensearch/query/InfoLoggingSpec.java:153-165 | equality compares id and type only and equal specs hash alike |
| InfoLoggingSpecs.StreamRoundTrip | src/main/java/querqy/opensearch/query/InfoLoggingSpec.java:71-110 | reading back gives the same id, type and `logged` |
| InfoLoggingSpecs.ToXContent | src/main/java/querqy/opensearch/query/InfoLoggingSpec.java:78-93 | `id` only when set, `type` always, `_logged` only when set |
| InfoLoggingSpecs.InfoLoggingSpec.constructor | src/main/java/querqy/opensearch/query/InfoLoggingSpec.java:51-60 | type NONE, no id, `logged` unset |
| InfoLoggingSpecs.InfoLoggingSpec.WithType | src/main/java/querqy/opensearch/query/InfoLoggingSpec.java:62-69 | the given type and id, `logged` unset |
| InfoLoggingSpecs.InfoLoggingSpec.ReadFrom | src/main/java/querqy/opensearch/query/InfoLoggingSpec.java:71-75 | the state read from the stream, or its exception |
| InfoLoggingSpecs.InfoLoggingSpec.SetId | src/main/java/querqy/opensearch/query/InfoLoggingSpec.java:116-118 | only the id changes |
| InfoLoggingSpecs.InfoLoggingSpec.SetPayloadType | src/main/java/querqy/opensearch/query/InfoLoggingSpec.java:120-138 | the selected type is stored, or the exception is thrown and nothing changes |
| InfoLoggingSpecs.InfoLoggingSpec.SetLogged | src/main/java/querqy/opensearch/query/InfoLoggingSpec.java:144-150 | afterwards `isLogged` is the flag and the spec still equals its old self |
| Rewriters.NewRewriter | src/main/java/querqy/opensearch/query/Rewriter.java:51-61 | a null name throws "Missing rewriter name"; otherwise name and params are stored |
| Rewriters.StreamRoundTrip | src/main/java/querqy/opensearch/query/Rewriter.java:43-77 | a named rewriter is read back equal, with or without params |
| Rewriters.ToXContent | src/main/java/querqy/opensearch/query/Rewriter.java:80-97 | a fragment is its bare name; otherwise an object with `name` and `params` only when non-empty |
| Rewriters.Parse | src/main/java/querqy/opensearch/query/Rewriter.java:134-147 | a string gives a rewriter without params; an object succeeds exactly when `name` is a string and `params` is a map or absent, and otherwise fails with the cast's ClassCastException or "Missing rewriter name"; other tokens throw |
| Rewriters.XContentRoundTrip | src/main/java/querqy/opensearch/query/Rewriter.java:80-147 | a named rewriter written by `toXContent` parses back equal, an empty params map aside |
| Rewriters.Rewriter.New | src/main/java/querqy/opensearch/query/Rewriter.java:51-61 | the constructor's check, then the fields |
| Rewriters.Rewriter.FromState | src/main/java/querqy/opensearch/query/Rewriter.java:43-49 | a rewriter with the given fields |
| Rewriters.Rewriter.SetName | src/main/java/querqy/opensearch/query/Rewriter.java:118-120 | only the name changes |
| Rewriters.Rewriter.SetParams | src/main/java/querqy/opensearch/query/Rewriter.java:126-128 | only the params change |
| MatchingQueries.CheckedQueryString | src/main/java/querqy/opensearch/query/MatchingQuery.java:125-136 | null throws "query must not be null", blank "query must not be empty", otherwise the trimmed string |
| MatchingQueries.StreamRoundTrip | src/main/java/querqy/opensearch/query/MatchingQuery.java:68-87 | a query with a string is read back equal |
| MatchingQueries.ToXContent | src/main/java/querqy/opensearch/query/MatchingQuery.java:90-106 | `query` first, then the scoring as `dfc`, `on` or `off` and the weight only when set |
| MatchingQueries.MatchingQuery.constructor | src/main/java/querqy/opensearch/query/MatchingQuery.java:58 | nothing set |
| MatchingQueries.MatchingQuery.WithQuery | src/main/java/querqy/opensearch/query/MatchingQuery.java:59-61 | the string is stored as given, without trimming |
| MatchingQueries.MatchingQuery.WithScoring | src/main/java/querqy/opensearch/query/MatchingQuery.java:62-66 | the string as given and the parsed scoring, or the exception |
| MatchingQueries.MatchingQuery.ReadFrom | src/main/java/querqy/opensearch/query/MatchingQuery.java:68-74 | the state read from the stream, or its exception |
| MatchingQueries.MatchingQuery.SetQueryString | src/main/java/querqy/opensearch/query/MatchingQuery.java:125-136 | the checked string is stored, or the exception is thrown and nothing changes |
| MatchingQueries.MatchingQuery.SetWeight | src/main/java/querqy/opensearch/query/MatchingQuery.java:117-119 | only the weight changes |
| MatchingQueries.MatchingQuery.SetSimilarityScoring | src/main/java/querqy/opensearch/query/MatchingQuery.java:142-148 | the parsed scoring is stored, or the exception is thrown and nothing changes |
| MatchingQueries.SetQueryStringIdempotent | src/main/java/querqy/opensearch/query/MatchingQuery.java:131-135 | setting the stored string again stores it unchanged |
| PhraseBoostDefinitions.CheckedFields | src/main/java/querqy/opensearch/query/PhraseBoostDefinition.java:89-94 | a null or empty list is rejected; otherwise the parse of the entries, never empty |
| PhraseBoostDefinitions.FieldParams | src/main/java/querqy/opensearch/query/PhraseBoostDefinition.java:104-108 | one parameter set per field; fails without fields |
| PhraseBoostDefinitions.FieldParamsContents | src/main/java/querqy/opensearch/query/PhraseBoostDefinition.java:104-108 | each field gets exactly one set, with its boost, the slop and the n-gram type |
| PhraseBoostDefinitions.ToXContent | src/main/java/querqy/opensearch/query/PhraseBoostDefinition.java:126-141 | `slop`, then `fields` as `name^boost` texts only when there are fields |
| PhraseBoostDefinitions.StreamRoundTrip | src/main/java/querqy/opensearch/query/PhraseBoostDefinition.java:70-123 | a definition with fields is read back equal, whatever the map's order |
| PhraseBoostDefinitions.PhraseBoostDefinition.constructor | src/main/java/querqy/opensearch/query/PhraseBoostDefinition.java:55-58 | slop 0, no fields |
| PhraseBoostDefinitions.PhraseBoostDefinition.New | src/main/java/querqy/opensearch/query/PhraseBoostDefinition.java:60-68 | the slop and the checked fields, or the exception |
| PhraseBoostDefinitions.PhraseBoostDefinition.ReadFrom | src/main/java/querqy/opensearch/query/PhraseBoostDefinition.java:70-77 | the reading loop gives the specification `Read` |
| PhraseBoostDefinitions.PhraseBoostDefinition.SetSlop | src/main/java/querqy/opensearch/query/PhraseBoostDefinition.java:80-82 | only the slop changes |
| PhraseBoostDefinitions.PhraseBoostDefinition.SetFields | src/main/java/querqy/opensearch/query/PhraseBoostDefinition.java:89-94 | the checked fields replace the old ones, or the exception is thrown and nothing changes |
| PhraseBoostDefinitions.PhraseBoostDefinition.Fields | src/main/java/querqy/opensearch/query/PhraseBoostDefinition.java:96-102 | a null array throws before `setFields`; otherwise as `setFields` |
| PhraseBoostDefinitions.PhraseBoostDefinition.WriteTo | src/main/java/querqy/opensearch/query/PhraseBoostDefinition.java:116-123 | the writing loop gives the specification `Write` |
| PhraseBoostings.Contribution | src/main/java/querqy/opensearch/query/PhraseBoosts.java:69-86 | an absent definition adds nothing, a present one its parameter sets |
| PhraseBoostings.FieldParamsLayout | src/main/java/querqy/opensearch/query/PhraseBoosts.java:69-86 | full's sets as PHRASE, then bigram's as BI_GRAM, then trigram's as TRI_GRAM |
| PhraseBoostings.OptionalRoundTrip | src/main/java/querqy/opensearch/query/PhraseBoosts.java:147-152 | an optional definition that can be written is read back equal |
| PhraseBoostings.BoostsRoundTrip | src/main/java/querqy/opensearch/query/PhraseBoosts.java:62-152 | phrase boosts whose definitions all have fields are read back equal |
| PhraseBoostings.ToXContent | src/main/java/querqy/opensearch/query/PhraseBoosts.java:156-177 | `tie_breaker` always, then each present definition under its name, the bigram one after the full one |
| PhraseBoostings.PhraseBoosts.constructor | src/main/java/querqy/opensearch/query/PhraseBoosts.java:54-60 | tie breaker 0 and no definitions |
| PhraseBoostings.PhraseBoosts.ToPhraseBoostFieldParams | src/main/java/querqy/opensearch/query/PhraseBoosts.java:69-86 | the list the `addAll` calls build equals the specification of the layout above |
| PhraseBoostings.PhraseBoosts.SetTieBreaker | src/main/java/querqy/opensearch/query/PhraseBoosts.java:108-110 | only the tie breaker changes |
| PhraseBoostings.PhraseBoosts.SetFull | src/main/java/querqy/opensearch/query/PhraseBoosts.java:112-114 | only `full` changes |
| PhraseBoostings.PhraseBoosts.SetBigram | src/main/java/querqy/opensearch/query/PhraseBoosts.java:116-118 | only `bigram` changes |
| PhraseBoostings.PhraseBoosts.SetTrigram | src/main/java/querqy/opensearch/query/PhraseBoosts.java:120-122 | only `trigram` changes |
| GeneratedQueries.QueryFieldsAndBoostings | src/main/java/querqy/opensearch/query/Generated.java:144-146 | an empty map stands in for null |
| GeneratedQueries.StreamRoundTrip | src/main/java/querqy/opensearch/query/Generated.java:63-92 | everything is read back except that an empty map reads back as null; the round trip is exact iff the map is not empty |
| GeneratedQueries.RoundTripKeepsQueryFields | src/main/java/querqy/opensearch/query/Generated.java:63-146 | through the getter, the round trip loses nothing |
| GeneratedQueries.ToXContent | src/main/java/querqy/opensearch/query/Generated.java:95-118 | `query_fields` only when there are fields, each a bare name for boost 1 or `name^boost`; the factor only when set |
| GeneratedQueries.Generated.constructor | src/main/java/querqy/opensearch/query/Generated.java:57 | neither fields nor factor |
| GeneratedQueries.Generated.WithFields | src/main/java/querqy/opensearch/query/Generated.java:59-61 | the parsed fields, or the parser's exception |
| GeneratedQueries.Generated.ReadFrom | src/main/java/querqy/opensearch/query/Generated.java:63-74 | the reading loop gives the specification `Read` |
| GeneratedQueries.Generated.WriteTo | src/main/java/querqy/opensearch/query/Generated.java:82-92 | the writing loop gives the specification `Write` |
| GeneratedQueries.Generated.SetQueryFieldsAndBoostings | src/main/java/querqy/opensearch/query/Generated.java:140-142 | the parsed fields are stored, or the exception is thrown and nothing changes |
| GeneratedQueries.Generated.SetFieldBoostFactor | src/main/java/querqy/opensearch/query/Generated.java:152-154 | only the factor changes |
| FieldBoostStreams.EntriesRoundTrip | src/main/java/querqy/opensearch/query/PhraseBoostDefinition.java:70-123 | reading the written entries puts each of them into the map |
| FieldBoostStreams.FieldsRoundTrip | src/main/java/querqy/opensearch/query/Generated.java:63-92 | with an iteration order of the whole map, the map is read back |
| FieldBoostStreams.WriteEntries | src/main/java/querqy/opensearch/query/Generated.java:86-89 | the loop writes the name and boost of each entry in order |
| FieldBoostStreams.ReadEntriesLoop | src/main/java/querqy/opensearch/query/Generated.java:65-71 | the loop reads `count` entries into a new map; a negative count reads none |
| NodesReloadResponses.NodeEqualsCharacterised | src/main/java/querqy/opensearch/rewriterstore/NodesReloadRewriterResponse.java:154-171 | equal iff both have no exception or both have one with equal messages; the node is not compared |
| NodesReloadResponses.NodeEqualsConsistent | src/main/java/querqy/opensearch/rewriterstore/NodesReloadRewriterResponse.java:154-177 | `equals` is an equivalence and equal responses hash alike |
| NodesReloadResponses.NodeStreamRoundTrip | src/main/java/querqy/opensearch/rewriterstore/NodesReloadRewriterResponse.java:129-152 | reading restores whether there was an exception and its message |
| NodesReloadResponses.NodesHashConsistent | src/main/java/querqy/opensearch/rewriterstore/NodesReloadRewriterResponse.java:109-112 | equal node lists hash alike |
| NodesReloadResponses.ResponseEqualsConsistent | src/main/java/querqy/opensearch/rewriterstore/NodesReloadRewriterResponse.java:84-112 | equal responses hash alike; failure lists count only by size; null against non-null is unequal |
| NodesReloadResponses.ToXContent | src/main/java/querqy/opensearch/rewriterstore/NodesReloadRewriterResponse.java:64-82 | one object per node, keyed by node id, with `name` and `reload_exception` only when there is one |
| LogMessages.MapJsonJoined | src/main/java/querqy/opensearch/infologging/LogMessage.java:106-121 | a map is its entries joined by commas inside braces; an empty map is `{}` |
| LogMessages.EntriesJoined | src/main/java/querqy/opensearch/infologging/LogMessage.java:108-120 | the `first` flag loop puts a comma between entries only |
| LogMessages.CollectionJsonJoined | src/main/java/querqy/opensearch/infologging/LogMessage.java:122-134 | a collection is its elements joined by commas inside brackets; an empty one is `[]` |
| LogMessages.ItemsJoined | src/main/java/querqy/opensearch/infologging/LogMessage.java:124-133 | the `first` flag loop puts a comma between elements only |
| LogMessages.RewriterIdPayload | src/main/java/querqy/opensearch/infologging/LogMessage.java:97-99 | a rewriter id message lists the quoted ids in key order |
| LogMessages.DetailPayload | src/main/java/querqy/opensearch/infologging/LogMessage.java:85-87 | a detail message maps each id to the list of what it logged |
| LogMessages.StringBuilder.constructor | src/main/java/querqy/opensearch/infologging/LogMessage.java:43 | a new buffer is empty |
| LogMessages.StringBuilder.Append | src/main/java/querqy/opensearch/infologging/LogMessage.java:64-74 | appending adds the text at the end |
| LogMessages.AppendValue | src/main/java/querqy/opensearch/infologging/LogMessage.java:103-147 | appends the specification `Json` of the value: `null`, unquoted numbers and booleans, quoted strings and other objects, maps and collections |
| LogMessages.AppendEntries | src/main/java/querqy/opensearch/infologging/LogMessage.java:108-120 | the map loop appends `EntriesJson` |
| LogMessages.AppendEntry | src/main/java/querqy/opensearch/infologging/LogMessage.java:114-119 | the quoted key, a colon and the value |
| LogMessages.AppendItems | src/main/java/querqy/opensearch/infologging/LogMessage.java:124-133 | the collection loop appends `ItemsJson` |
| LogMessages.FormatMessagesTo | src/main/java/querqy/opensearch/infologging/LogMessage.java:85-99 | appends the payload of the message's kind |
| LogMessages.FormatTo | src/main/java/querqy/opensearch/infologging/LogMessage.java:64-74 | appends the message text |
| LogMessages.GetFormattedMessage | src/main/java/querqy/opensearch/infologging/LogMessage.java:42-46 | the text `formatTo` appends to an empty buffer |
| Log4jSinks.Logged | src/main/java/querqy/opensearch/infologging/Log4jSink.java:49-57 | logging adds no rewriter id other than the given one |
| Log4jSinks.LoggedSorted | src/main/java/querqy/opensearch/infologging/Log4jSink.java:52-55 | the messages stay sorted by rewriter id |
| Log4jSinks.LoggedContents | src/main/java/querqy/opensearch/infologging/Log4jSink.java:49-57 | the message goes to the end of its id's list, created if absent; other lists do not change |
| Log4jSinks.EndOfRequest | src/main/java/querqy/opensearch/infologging/Log4jSink.java:61-83 | nothing without messages; a spec of type REWRITER_ID or DETAIL writes its kind of message with its marker and the spec's id; NONE writes nothing |
| Log4jSinks.MissingSpecLogsNothing | src/main/java/querqy/opensearch/infologging/Log4jSink.java:38-70 | a missing spec and an adapter that provides no specs log nothing |
| Log4jSinks.RequestAdapter.constructor | src/main/java/querqy/opensearch/infologging/Log4jSink.java:52-53 | a new request has no messages |
| Log4jSinks.Log | src/main/java/querqy/opensearch/infologging/Log4jSink.java:49-57 | the request's messages become `Logged` of the old ones |
| Log4jSinks.LoggedRequestWritesIds | src/main/java/querqy/opensearch/infologging/Log4jSink.java:49-83 | after a message, a REWRITER_ID request writes the sorted ids |
| SingleSinkInfoLoggings.New | src/main/java/querqy/opensearch/infologging/SingleSinkInfoLogging.java:34-39 | a null set enables no rewriter; otherwise exactly the set's ids |
| SingleSinkInfoLoggings.Log | src/main/java/querqy/opensearch/infologging/SingleSinkInfoLogging.java:42-47 | forwarded to the sink iff the id is enabled, otherwise no effect |
| SingleSinkInfoLoggings.EndOfRequest | src/main/java/querqy/opensearch/infologging/SingleSinkInfoLogging.java:50-52 | always the sink's `endOfRequest` |
| SingleSinkInfoLoggings.OnlyEnabledRewritersLogged | src/main/java/querqy/opensearch/infologging/SingleSinkInfoLogging.java:42-57 | after any calls the messages are sorted, hold only enabled ids, and hold for each enabled id what it logged, in order |

## Left out

- I/O and transport: the OpenSearch client and its REST and transport actions, and reading the rewriter index. The index is a `Store` value, with the ids whose read fails.
- Querqy's query parsing controller and the rewriters it runs are foreign code. Their effect is a `Controller` parameter that yields the rewriters' log calls and either the parser's queries or the `SyntaxException` it throws.
- Querqy's `TrieMap` is foreign code. ConfigUtils.GetTrieSetArg models it by the map it represents, with the two refusals of its `put`: a `null` word (`NullPointerException`) and the empty word (`IllegalArgumentException`).
- Messages the JVM generates are placeholders, not the JVM's text. A failed cast (`Exceptions.ClassCast`) reads "cannot be cast to <type>". A `NullPointerException` and any other exception without a message carry "" in place of `null`. So Exceptions.WrappedInRuntime always writes "<class>: <message>", where Java's `Throwable.toString` writes only the class name for a `null` message. These texts reach users through PutRewriterRequest.Validate ("Invalid definition of rewriter 'class': " and the `RuntimeException` wrapping of validation errors, PutRewriterRequest.java:61-64 and 104-105).
- Rewriter factories created from configuration (`createRewriterFactory`) are opaque values.
- Reflection and the security manager: factory classes come from a registry from class names to classes. The `configure` and `validateConfiguration` code of each class is a parameter.
- `Float.parseFloat`, `Float.toString` and NaN canonicalisation are not part of this model. Floats are raw 32-bit patterns, and parsing and printing are parameters.
- `JsonUtils.quoteAsString` (JSON escaping) is a parameter. The JSON codec of a stored configuration is a parameter too, and only its round trip is assumed where a lemma states it.
- The iteration order of a `HashMap` is a parameter `order` that must list each key once.
- The enum `hashCode` values are a parameter; Java's `Objects.hash` arithmetic is written out over them.
- `String.toUpperCase` is modelled on ASCII letters only.
- Concurrency: `synchronized`, the concurrent map and query-time races are not modelled; everything is sequential.
- RewriterShardContexts.ReloadRewriter: the concurrent map's iteration order is unspecified, so the caches are visited in their order of creation.
- Time-based cache expiry settings are not modelled: the cache is a plain map.
- `LoadRewriterConfig.java` is not part of this model. Its constructor is modelled from its use, as `getMapping` followed by the mapping's accessors and `getConfig`.
- The `BaseNodeResponse` and `BaseNodesResponse` part of the stream and XContent forms (node identity, cluster name) comes from the framework and is not modelled. `generateThrowableXContent` is a parameter.
- `toString` of `NodesReloadRewriterResponse` (pretty-printed JSON) is not modelled.
- QuerqyProcessor.ParseQuery takes the rewriter names, not `Rewriter` objects, so a rewriter without a name is not modelled there.
- QuerqyProcessor.ParseQuery states the shard caches' new state only through the registry's invariant (`Valid`); `RewriterShardContexts.GetRewriteChain` states it in full.
- PhraseBoosts holds its definitions as values, so an update through a shared definition object (aliasing) is not modelled.
- Rewriters.Rewriter: `equals` and `hashCode` are Dafny's value equality of name and params; the Java hash arithmetic is not written out.
- The node dispatch of the transport actions and the plugin wiring are not modelled.
- Strings are sequences of Unicode scalar values, not of UTF-16 code units. JavaLang.Less and JavaLang.StringHash therefore agree with Java's `String.compareTo` and `String.hashCode` only on strings without characters outside the Basic Multilingual Plane. For other rewriter ids, the TreeMap order in Log4jSinks.LoggedSorted, LogMessages.RewriterIdPayload and Log4jSinks.LoggedRequestWritesIds can differ from Java's, and so can the `hashCode` of InfoLoggingSpec and NodesReloadRewriterResponse.
- QuerqyProcessors.QuerqyProcessor: Java's `QuerqyProcessor` takes its `Sink` as a constructor argument. The model fixes it to the `Log4jSink`, the one sink the plugin passes (QuerqyPlugin.java:79).
- QueryComposition.BooleanQueryBuilder.Add: Lucene's `BooleanQuery.Builder.add` throws `TooManyClauses` above `maxClauseCount`. The model has no clause limit, so composing never fails there.

## Findings

| source | as written | input that shows it | evidently intended | confidence | as-written member | corrected member |
|---|---|---|---|---|---|---|
| src/main/java/querqy/opensearch/QuerqyProcessor.java:101-131 | when the shortcut applies, `parseQuery` returns the unwrapped clause before `infoLogging.endOfRequest`, so the request's collected messages are never written | spec with id "q1" and type REWRITER_ID, rewriter "r1" with logging on, a parser result of one SHOULD term clause and no boosts or filters, and "r1" logging one message | the event is written at the end of every request that logged, whatever shape the query has | not executed | QuerqyProcessors.ShortCircuitCounterexample | QuerqyProcessors.QuerqyProcessor.ParseQuery |
