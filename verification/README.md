# Surreal-Memory: a verified model

This project models the parts of Surreal-Memory whose correctness is hard to see from one function, and proves what they
promise. `dafny verify dfyconfig.toml` checks everything. Nothing here was executed; every result is a proof about the
model, and the table below says which lines of the source each member stands for.

What is modelled:

- **The JSON-RPC client over stdio** (`McpProtocol`, `McpClient`, `McpEffects`, `McpSafety`, `McpFraming`, `McpStaleTail`, with
  `Utf8`, `Lines`, `Json`, `JsonPrefix`, `JsonNumbers`). The client is a transition system whose events are the runtime's
  callbacks; a class with the client's own fields and loops refines it method by method. Bytes, UTF-8 (section 3 of RFC 3629)
  and JSON text (RFC 8259) are modelled as they are, down to a chunk boundary inside a character.
- **The configuration printer, loader and editor** (`Sanitize`, `Patterns`, `ReasoningConfig`, `ReasoningDefaults`,
  `ReasoningPrinter`, `ReasoningWording`, `ReasoningSection`, `ReasoningRoundTrip`, `BrainSync`, `BrainEdit`, `BrainReader`, with
  `Toml`, `TomlLines`, `ReasoningKeys`): the reasoning-training section with every clamp and fallback, printed and read back
  through a reader for the used part of TOML v1.0.0, and the one-line edit of the current brain by regular expression.
- **The tool-schema normaliser** (`Schema`, `SchemaFields`, `SchemaMeaning`, `SchemaValidity`), against a validity relation for the
  JSON Schema 2020-12 keywords it touches.
- **Concurrency**: the bridge loop shared by threads and forks (`BridgeLoop`), the in-memory store cache under interleaved
  tasks (`StorageCache`), and the replay of chat sessions kept in a shared store (`ChatHistory`).
- **The dead-module check** (`DeadModules`, `DeadImports`, `DeadAnalysis`): import scanning, the graph and its worklist.
- **Ranking**: the metrics (`Metrics`), the report (`BenchmarkReports`, `Grouping`) and the keyword baseline (`Baseline`).
- **Loops over data**: the SVG tree layout (`TreeLayout`), the duplicate-summary cleanup (`Cleanup`), and the fiber-vector
  backfill (`Backfill`).

`Prelude`, `Order`, `PyString` and `Decimal` hold shared vocabulary.

## Model

| member | source | states |
|---|---|---|
| `McpSafety.ExactlyOnce` | integrations/surrealmemory/src/mcp-client.ts:258-275 | over every interleaving from the start, each registered request is pending or was settled exactly once, no other id was ever settled, and the live timers are the pending requests' own, one to one |
| `McpSafety.SettledForever` | integrations/surrealmemory/src/mcp-client.ts:312-339 | once settled, a request's outcome is final whatever follows (late or repeated responses, its stale timer, reconnects), and its id is never issued again |
| `McpSafety.OthersUntouched` | integrations/surrealmemory/src/mcp-client.ts:312-331 | whatever lines the server writes, a request whose id none of them carries keeps its pending entry, its timer and its outcome |
| `McpSafety.NothingHangs` | integrations/surrealmemory/src/mcp-client.ts:267-270 | once every live timer has fired, in any order, nothing is pending, each request that was pending has been settled once, and no caller waits for a connection |
| `McpSafety.OneAttemptInFlight` | integrations/surrealmemory/src/mcp-client.ts:106-119 | in every run at most one connection attempt is in flight, it is in flight exactly while its initialize request is pending, and only an unconnected client without one starts another |
| `McpSafety.CallersShareTheOutcome` | integrations/surrealmemory/src/mcp-client.ts:106-119 | a caller that arrives during an attempt is told that attempt's outcome and no other's, and waits no longer than the attempt lasts |
| `McpEffects.ReplySettles` | integrations/surrealmemory/src/mcp-client.ts:312-331 | a line that decodes to a message with a pending id rejects that request with its `error`, if this is there and not null, false, zero or empty, and else resolves it with its `result`; timer and entry go, and nothing else changes |
| `McpEffects.OtherLineSettlesNothing` | integrations/surrealmemory/src/mcp-client.ts:300-317 | any other line settles nothing; what is neither blank nor JSON, and a bare null, is reported, and the rest is passed over |
| `McpEffects.HandshakeEnds` | integrations/surrealmemory/src/mcp-client.ts:173-198 | a run from the start in which `initialize` is answered, in any chunks: with an error the client stays unconnected, the attempt and its caller are told false and nothing is written; without one it connects and writes the `initialized` notification |
| `McpEffects.RefusedHandshake` | integrations/surrealmemory/src/mcp-client.ts:173-189 | for instance a reply whose error is an object, true or a text: unconnected, outcome false, nothing pending |
| `McpEffects.LossRejectsAll` | integrations/surrealmemory/src/mcp-client.ts:153-171 | an exit, an error of the process and a close each disconnect, reject every pending request with their own reason in the order of the requests, and fail the attempt in flight; only a close forgets process and buffer |
| `McpEffects.TimerRejects` | integrations/surrealmemory/src/mcp-client.ts:267-270 | a live timer rejects the one request it was made for with a timeout and fails the attempt if that was its handshake; a stale one does nothing |
| `McpEffects.SendAsks` | integrations/surrealmemory/src/mcp-client.ts:258-289 | what goes out for a request: version, the next id, method and parameters, and nothing else; the id is pending under a new timer |
| `McpEffects.NamesSpelled` | integrations/surrealmemory/src/mcp-client.ts:274-289 | the field names of a message and its version, as ASCII text; `InitializeSpelled` and `InitializedSpelled` give the two methods |
| `McpEffects.EnsureJoins` | integrations/surrealmemory/src/mcp-client.ts:106-112 | a connected client answers a caller at once, and during an attempt the caller waits for it; nothing else changes |
| `McpEffects.EnsureStarts` | integrations/surrealmemory/src/mcp-client.ts:114-127 | otherwise one attempt starts with an `initialize` request, or fails at once when the new process cannot be written to |
| `McpEffects.TrimmedUnits` | integrations/surrealmemory/src/mcp-client.ts:300 | a line is blank in JavaScript's sense of white space, which differs from Python's in six characters |
| `JsonNumbers.IntegerIff` | integrations/surrealmemory/src/mcp-client.ts:312-317 | which integer an id's text denotes, whatever its fraction and exponent |
| `JsonNumbers.ZeroIff` | integrations/surrealmemory/src/mcp-client.ts:322 | zero, which counts as no error, is denoted exactly by digits that are all zero, whatever the point and the exponent |
| `McpClient.SurrealMemoryMcpClient.DrainBuffer` | integrations/surrealmemory/src/mcp-client.ts:291-310 | the loop handles exactly the complete lines of the buffer, in order, and leaves the newline-free tail; what a line does is `McpEffects.ReplySettles` and `McpEffects.OtherLineSettlesNothing` |
| `McpClient.SurrealMemoryMcpClient.OnData` | integrations/surrealmemory/src/mcp-client.ts:129-139 | one stdout chunk is one step of the transition system, the cap and the end of a handshake (`McpEffects.HandshakeEnds`) included |
| `McpClient.SurrealMemoryMcpClient.Send` | integrations/surrealmemory/src/mcp-client.ts:258-289 | a send registers a fresh id with its own timer and writes that request, or is refused without a trace when the child cannot be written to |
| `McpClient.SurrealMemoryMcpClient.RejectAll` | integrations/surrealmemory/src/mcp-client.ts:333-339 | every pending request is rejected once, in the order of the requests, and none is left |
| `McpClient.SurrealMemoryMcpClient.OnTimer` | integrations/surrealmemory/src/mcp-client.ts:267-270 | a timer rejects the one request it was made for, if that is still pending |
| `McpClient.SurrealMemoryMcpClient.OnExit` | integrations/surrealmemory/src/mcp-client.ts:153-161 | an exit disconnects and rejects everything pending, and keeps the buffer |
| `McpClient.SurrealMemoryMcpClient.Close` | integrations/surrealmemory/src/mcp-client.ts:228-235 | closing also forgets the process and empties the buffer |
| `McpClient.SurrealMemoryMcpClient.EnsureConnected` | integrations/surrealmemory/src/mcp-client.ts:106-127 | a caller is answered at once, joins the attempt in flight, or starts one, as the transition system says |
| `McpFraming.ChunkingInvisible` | integrations/surrealmemory/src/mcp-client.ts:129-139 | however a stream is cut into chunks, as long as no leftover and chunk pass the cap, the result is that of handling the newline split of the whole stream in order |
| `McpFraming.SameStreamSameOutcome` | integrations/surrealmemory/src/mcp-client.ts:291-310 | two ways of cutting one stream lead to the same state, with a newline-free buffer |
| `McpFraming.MessagesArrive` | integrations/surrealmemory/src/mcp-client.ts:282-310 | messages written as frames are handled as exactly those messages, in order, whatever the chunking |
| `McpFraming.FrameIsOneLine` | integrations/surrealmemory/src/mcp-client.ts:282-289 | a frame holds one newline, at its end, and its body decodes and parses to the message |
| `McpFraming.OverflowWedges` | integrations/surrealmemory/src/mcp-client.ts:129-139 | once the buffer has passed the cap, no request is ever resolved and no connection attempt succeeds until `close`, however often the client reconnects |
| `McpStaleTail.TailSurvivesReconnect` | integrations/surrealmemory/src/mcp-client.ts:153-161 | a partial line left by a dead process stays in the buffer across its exit and the next attempt |
| `McpStaleTail.LinesIntactIff` | integrations/surrealmemory/src/mcp-client.ts:291-310 | the next process is read line by line as it wrote exactly when nothing was left over |
| `McpStaleTail.LeftoverDecides` | integrations/surrealmemory/src/mcp-client.ts:129-139 | a correct response after any leftover, in any chunks, settles its request if the leftover is JSON white space and is discarded otherwise |
| `McpStaleTail.StaleTailRun` | integrations/surrealmemory/src/mcp-client.ts:121-198 | a run from the start: connect, some bytes, exit, connect again, a correct handshake response; the client is connected exactly when the bytes were white space, and otherwise the attempt can only time out |
| `JsonPrefix.ParseAfter` | integrations/surrealmemory/src/mcp-client.ts:302-308 | an object's text after any other text parses as that object after white space and as nothing otherwise |
| `Json.RoundTrip` | integrations/surrealmemory/src/mcp-client.ts:282-289 | every valid JSON value parses back from its printed text, escapes and surrogates included |
| `Utf8.DecodeLines` | integrations/surrealmemory/src/mcp-client.ts:297-298 | decoding each line agrees with decoding the whole stream and cutting afterwards, for all bytes, ill-formed ones too |
| `Utf8.DecodeEncode` | integrations/surrealmemory/src/mcp-client.ts:282-289 | well-formed text survives encoding and decoding |
| `Sanitize.CleanIdempotentIff` | src/surreal_memory/unified_config.py:1192-1199 | the sanitisers that strip and then cut are idempotent at a value exactly when they do not cut it right after white space and let it through |
| `Sanitize.CleanSettles` | src/surreal_memory/unified_config.py:1031-1042 | the second application always settles, on a clean value |
| `Sanitize.UrlIdempotent` | src/surreal_memory/unified_config.py:1045-1058 | the URL sanitiser is idempotent and yields only allowed characters, untrimmed ends and excess length excluded |
| `Patterns.StrIs` | src/surreal_memory/unified_config.py:1031-1042 | a text is stripped and cut to 128 characters, and then taken only if it is of letters, digits and `_-./` or space, a final line break aside |
| `Patterns.GlobIs` | src/surreal_memory/unified_config.py:1192-1199 | a name pattern likewise, with `*?[]` as well |
| `Patterns.UrlIs` | src/surreal_memory/unified_config.py:1045-1058 | an address is refused when it is longer than 256 characters or has a character outside the spelt-out class |
| `Patterns.ArgvPartIs` | src/surreal_memory/unified_config.py:1188 | which parts of a command pass: not empty, of letters, digits and `_-./:={}` |
| `Patterns.ModelNameIs` | src/surreal_memory/unified_config.py:1215 | which model names pass: 1 to 128 of letters, digits and `._*?-` |
| `Patterns.BrainNames` | src/surreal_memory/cli/config.py:91 | which brain names the switch takes, and which the file's writer and reader take: these need not begin with a letter or digit |
| `ReasoningConfig.FromDictLoaded` | src/surreal_memory/unified_config.py:1336-1490 | whatever the input, a section that loads is within every bound: clamped numbers, cut lists and strings, clean commands, distinct targets; which value it is, the rows from `EmptySection` to `TargetsLoaded` say key by key |
| `ReasoningDefaults.EmptySection` | src/surreal_memory/unified_config.py:1336-1490 | the section without any key loads as the defaults, each written out: secrets redacted, all else off |
| `ReasoningDefaults.SwitchesLoaded` | src/surreal_memory/unified_config.py:1462-1488 | each switch is its default when absent, and else the truth of its value |
| `ReasoningDefaults.LimitsLoaded` | src/surreal_memory/unified_config.py:1337-1341 | each limit is its default when absent or not convertible, and else the number moved to the nearer of its two bounds |
| `ReasoningDefaults.LevelsLoaded` | src/surreal_memory/unified_config.py:1380-1405 | each level likewise; what is no number gives the default of the one that checks for it, and the floor of the others |
| `ReasoningDefaults.ModelsLoaded` | src/surreal_memory/unified_config.py:1343-1347 | of the first hundred models those that are not blank, cut to 128 characters |
| `ReasoningDefaults.CategoriesLoaded` | src/surreal_memory/unified_config.py:1374-1378 | of the first fifty categories those that are not blank, cut to 64; the default ones for an empty or missing list |
| `ReasoningDefaults.DirsLoaded` | src/surreal_memory/unified_config.py:1352-1358 | of the first twenty directories those that are not blank, stripped and cut to 4096 |
| `ReasoningDefaults.CommandLoaded` | src/surreal_memory/unified_config.py:1430-1459 | a command of at most sixteen clean parts is taken whole, each part cut to 128 characters, and any other not at all |
| `ReasoningDefaults.LlmLoaded` | src/surreal_memory/unified_config.py:1481-1487 | each command, the model and its address come from their own keys, the last two sanitised |
| `ReasoningDefaults.InjectionLoaded` | src/surreal_memory/unified_config.py:1360-1372 | the injection map is read from a table or a list, and anything else is none |
| `ReasoningDefaults.MoreEntries` | src/surreal_memory/unified_config.py:1362-1366 | one more entry of the injection table adds its pair, unless a side is blank |
| `ReasoningDefaults.MoreItems` | src/surreal_memory/unified_config.py:1367-1372 | so does one more item of a list that is a pair; other items are passed over |
| `ReasoningDefaults.MoreTargets` | src/surreal_memory/unified_config.py:1413-1421 | one more target counts when its name fits and its number converts: between 0 and 1000, in its old place if it had one |
| `ReasoningDefaults.TargetsLoaded` | src/surreal_memory/unified_config.py:1411-1413 | a table of targets is read, and anything else is none |
| `ReasoningConfig.LoaderRaisesIff` | src/surreal_memory/unified_config.py:1338-1490 | loading raises exactly when a numeric field holds a number too large to convert, or a value the loader reads as text has none; all other bad values fall back |
| `ReasoningConfig.LoadMappings` | src/surreal_memory/unified_config.py:1360-1372 | the loop over the injection map, in either of its shapes, collects the stripped, cut, non-empty pairs in order, and raises exactly when a text it takes cannot be taken |
| `ReasoningConfig.LoadTargets` | src/surreal_memory/unified_config.py:1411-1421 | the loop over the pattern targets keeps valid names, the last count for each, in order of first appearance |
| `ReasoningPrinter.ReasoningTomlLines` | src/surreal_memory/unified_config.py:2084-2131 | the printed lines are those of the section's sanitised printout, both subtables included |
| `ReasoningPrinter.PrintoutGood` | src/surreal_memory/unified_config.py:2084-2131 | what is printed of a loaded section is clean and within bounds, and loses neither command parts nor targets |
| `ReasoningWording.Layout` | src/surreal_memory/unified_config.py:2084-2131 | a comment, the header, 22 lines, and two subtables with their headers and a line for each entry |
| `ReasoningWording.OtherNames` | src/surreal_memory/unified_config.py:2086-2125 | the names in the headers, and of the two keys that are read but not printed |
| `ReasoningWording.SwitchesPrinted` | src/surreal_memory/unified_config.py:2091-2117 | each switch on its line under its own name, as `true` or `false` |
| `ReasoningWording.TraceLimitsPrinted` | src/surreal_memory/unified_config.py:2095-2099 | each limit on its line under its own name; `PatternLimitsPrinted` says so of the others |
| `ReasoningWording.LevelsPrinted` | src/surreal_memory/unified_config.py:2101-2102 | two of the three levels are printed |
| `ReasoningWording.LlmPrinted` | src/surreal_memory/unified_config.py:2107-2108 | model and address, quoted |
| `ReasoningWording.ListsPrinted` | src/surreal_memory/unified_config.py:2087-2116 | the four lists, quoted and in brackets |
| `ReasoningWording.ScalarsOf` | src/surreal_memory/unified_config.py:2086-2117 | what is printed of a configuration are its own scalars, model and address sanitised |
| `ReasoningWording.ListsOf` | src/surreal_memory/unified_config.py:2087-2116 | and of its lists the elements that survive their sanitiser or pattern, in order |
| `ReasoningWording.SubtablesOf` | src/surreal_memory/unified_config.py:2119-2130 | and of its map and targets the entries that survive, one at a time in `MorePairs` and `MoreTargets` |
| `ReasoningWording.PairPrinted` | src/surreal_memory/unified_config.py:2120-2124 | each pair of the injection map on a line of its own, target and source quoted |
| `ReasoningWording.TargetPrinted` | src/surreal_memory/unified_config.py:2126-2130 | each target likewise, with its number |
| `ReasoningRoundTrip.TextParsesIff` | src/surreal_memory/unified_config.py:2084-2131 | the printed text is valid TOML exactly when the printed targets of the injection map are different, and then reads as what was printed |
| `ReasoningRoundTrip.ReloadExact` | src/surreal_memory/unified_config.py:1336-1490 | a loaded section printed and loaded again comes back as its sanitised values, every printed field equal, exactly when the sanitised map targets are different; otherwise the file cannot be read |
| `ReasoningRoundTrip.ReloadStable` | src/surreal_memory/unified_config.py:2084-2131 | from the first reload on, printing and loading is the identity |
| `ReasoningRoundTrip.ReprintIdenticalIff` | src/surreal_memory/unified_config.py:2084-2131 | printing the reloaded section gives the identical text exactly when some category survives sanitising |
| `BrainSync.SyncIsSave` | src/surreal_memory/cli/config.py:94-120 | for a version without a line break, the one-line edit of a saved file is the file saved with the other brain |
| `BrainSync.LastSyncWins` | src/surreal_memory/cli/config.py:94-120 | for any file content, of two switches only the last shows |
| `BrainSync.SaveIff` | src/surreal_memory/unified_config.py:2141-2152 | saving is refused exactly for names outside the pattern; else the file is its five first lines and the rest |
| `BrainEdit.MatchIff` | src/surreal_memory/cli/config.py:108-114 | the edit matches exactly the key, space, an equals sign, space and a text in quotes, and leaves what follows |
| `BrainEdit.SyncEdits` | src/surreal_memory/cli/config.py:108-114 | it writes its line over the first such match at the start of a line and keeps all else; without a match, and for a refused name, the content stays |
| `BrainReader.SwitchIsRead` | src/surreal_memory/unified_config.py:2521-2545 | after a switch in a saved file that parsed, the reader returns the new brain unless the name ends in a line break, which the switch lets pass: then the file no longer parses |
| `BrainReader.HeadRead` | src/surreal_memory/unified_config.py:2146-2151 | for a version that can stand in quotes, the head of a saved file reads as two comments, a blank line and the version |
| `Toml.ValueBack` | src/surreal_memory/unified_config.py:2087-2090 | a printed value is read back as itself and what follows it is left |
| `TomlLines.TextBack` | src/surreal_memory/unified_config.py:2383-2384 | a text printed line by line reads as the document built from its items |
| `TomlLines.BuildPairs` | src/surreal_memory/unified_config.py:2119-2130 | a run of pairs is accepted exactly when their keys are new and different, and is then stored in order |
| `Schema.NormalizeSchema` | integrations/surrealmemory/src/tools.ts:58-105 | the recursive loop computes the rewriting, assignments to `__proto__` included; what that keeps and changes, the rows of `SchemaFields` say field by field |
| `SchemaFields.MissingIff` | integrations/surrealmemory/src/tools.ts:40-72 | a field of the input is missing from the output exactly when its name is one of the eight, written out, or `__proto__` |
| `SchemaFields.OthersKept` | integrations/surrealmemory/src/tools.ts:89-91 | every other field that is not rewritten is kept as it is, descriptions included |
| `SchemaFields.TypeRewritten` | integrations/surrealmemory/src/tools.ts:73-74 | `integer` becomes `number`, and any other type is kept |
| `SchemaFields.PropertiesRewritten` | integrations/surrealmemory/src/tools.ts:75-81 | each property's schema is normalised under its own name |
| `SchemaFields.ItemsRewritten` | integrations/surrealmemory/src/tools.ts:82-83 | `items` that are a schema or a list of them are normalised, and else kept |
| `SchemaFields.BranchesRewritten` | integrations/surrealmemory/src/tools.ts:84-88 | each branch of a choice is normalised in its place |
| `SchemaFields.ElsewhereRewritten` | integrations/surrealmemory/src/tools.ts:58-65 | lists are normalised item by item, and what is neither list nor object is left alone |
| `SchemaFields.AddedIff` | integrations/surrealmemory/src/tools.ts:94-102 | a field the input lacks is in the output exactly when an object node neither has nor inherits it: `properties` or `additionalProperties` |
| `SchemaFields.InheritedIs` | integrations/surrealmemory/src/tools.ts:68-91 | what a node inherits: the fields of the last object it assigns to `__proto__`, unless a list or null comes after |
| `SchemaFields.SafeRoot` | integrations/surrealmemory/src/tools.ts:111-126 | the root for a provider, field by field: the normalised properties, the required names if any, closed, and nothing else |
| `SchemaFields.SafeNothing` | integrations/surrealmemory/src/tools.ts:111-114 | without a schema the root is an object without properties |
| `SchemaMeaning.FixedIffClean` | integrations/surrealmemory/src/tools.ts:58-105 | the normaliser leaves a value alone exactly when it is in the form the providers want: at every rewritten position no stripped keyword, no `integer`, no `__proto__`, and `properties` and `additionalProperties` on objects |
| `SchemaMeaning.NormalCleanIff` | integrations/surrealmemory/src/tools.ts:94-102 | the output is in that form exactly when no object node inherits, through `__proto__`, a field it would be given |
| `SchemaMeaning.IdempotentIff` | integrations/surrealmemory/src/tools.ts:58-105 | normalising twice is normalising once under exactly the same condition |
| `SchemaMeaning.PropertyNamesKeptIff` | integrations/surrealmemory/src/tools.ts:75-81 | property names are data: those spelt like stripped keywords survive, none is added, and only `__proto__` is lost |
| `SchemaMeaning.SafeStableIff` | integrations/surrealmemory/src/tools.ts:111-126 | the root handed to a provider is a closed object with properties; it is in normal form, and stable, exactly when nothing harmful is inherited |
| `SchemaMeaning.InheritedProperties` | integrations/surrealmemory/src/tools.ts:94-102 | an input whose `__proto__` hides that `properties` is missing |
| `SchemaValidity.NormalizeKeepsStrictlyValid` | integrations/surrealmemory/src/tools.ts:58-105 | instances a schema admits strictly are admitted by the normalised schema, if nothing is weakened below a `oneOf` and nothing is called `__proto__` |
| `SchemaValidity.NormalizeExact` | integrations/surrealmemory/src/tools.ts:58-105 | without bounds and `integer` the two notions of validity coincide, `oneOf` and `allOf` included |
| `SchemaValidity.SafeKeepsStrictlyValid` | integrations/surrealmemory/src/tools.ts:111-126 | arguments the server's schema admits and that use declared names only are admitted by the provider's schema |
| `SchemaValidity.OneOfCanBreak` | integrations/surrealmemory/src/tools.ts:84-88 | an instance that meets one branch before normalising and two after |
| `SchemaValidity.ProtoFieldRefused` | integrations/surrealmemory/src/tools.ts:75-102 | an object schema that says nothing of additional properties refuses, once normalised, every instance with a field `__proto__`, also where it declared one |
| `SchemaValidity.PropertyUsableIff` | integrations/surrealmemory/src/tools.ts:75-81 | the argument of a schema with one open property stays valid exactly when the property is not called `__proto__` |
| `BridgeLoop.OneLoopPerProcess` | src/surreal_memory/adapters/langchain.py:58-80 | over all interleavings of threads and forks, each process creates at most one loop, every caller gets that one, it is driven, and it is not inherited |
| `BridgeLoop.StartedBeforePublished` | src/surreal_memory/adapters/langchain.py:72-79 | a loop is visible to other threads only once its driver runs |
| `BridgeLoop.NoInheritedLock` | src/surreal_memory/adapters/langchain.py:83-97 | no thread waits for or holds a lock older than its process |
| `BridgeLoop.LoopsApart` | src/surreal_memory/adapters/langchain.py:83-97 | no two processes create the same loop |
| `BridgeLoop.ResetNeeded` | src/surreal_memory/adapters/langchain.py:83-97 | without the reset the child's first call gets a loop nobody drives or waits for a lock nobody will release |
| `BridgeLoop.SomeThreadMoves` | src/surreal_memory/adapters/langchain.py:66-80 | while a call is pending some thread of the process can move |
| `BridgeLoop.SchedulesEnd` | src/surreal_memory/adapters/langchain.py:66-80 | every order of moves ends within eight moves per thread |
| `BridgeLoop.EveryCallAnswered` | src/surreal_memory/adapters/langchain.py:58-80 | however the threads are scheduled, once none can move each call that was under way has got one answer, and every answer is the loop the process made |
| `BridgeLoop.CallGetsAnswer` | src/surreal_memory/adapters/langchain.py:58-80 | whatever happened before, a thread that calls now can get its answer, and all pending calls theirs, by moves of its own process alone |
| `BridgeLoop.SpawnIdles` | src/surreal_memory/adapters/langchain.py:58-80 | a new thread of a process is between calls; nothing else changes |
| `BridgeLoop.ForkLeaves` | src/surreal_memory/adapters/langchain.py:83-97 | a child begins with the forking thread alone, without a loop and with a lock of its own; its parent is unchanged |
| `StorageCache.OneStorePerName` | src/surreal_memory/unified_config.py:2709-2751 | over every interleaving, failures and cancellations included, callers get one store exactly when they asked for one name, and it is bound to that name |
| `StorageCache.NeverRebound` | src/surreal_memory/unified_config.py:2731-2734 | a store handed out stays bound to its name whatever happens later |
| `StorageCache.CreationsAccounted` | src/surreal_memory/unified_config.py:2736-2751 | each store ever constructed for a name is the published one, the one under construction, or one whose construction failed |
| `StorageCache.SomeTaskSteps` | src/surreal_memory/unified_config.py:2729-2730 | the lock is never lost: while a task waits, some task can go on |
| `StorageCache.IsolationHolds` | src/surreal_memory/unified_config.py:2592-2614 | in every run in which each ask names a brain or finds one in the environment, the configured brain never changes, whatever the file says, and no store is handed out for any other name |
| `StorageCache.AskMeans` | src/surreal_memory/unified_config.py:2592-2614 | which brain an ask means: the name given, else the environment's, else the file's, which the configuration then follows, else the configured one |
| `StorageCache.BrainIsThere` | src/surreal_memory/unified_config.py:2736-2751 | whoever is given a store finds in it the brain asked for, saved, and no other |
| `StorageCache.KnownIsReused` | src/surreal_memory/unified_config.py:2731-2734 | with the lock free, a name that has a store is answered with it in one step and nothing is made |
| `StorageCache.UnknownIsMade` | src/surreal_memory/unified_config.py:2736-2751 | a name without one gets a new store after three awaits, bound, filled and published |
| `StorageCache.FirstAsk` | src/surreal_memory/unified_config.py:2736-2751 | the first ask of a process, from its start, ends with one store, bound to the name and holding its brain |
| `StorageCache.FailureReleases` | src/surreal_memory/unified_config.py:2730-2751 | a failure or a cancellation at an await leaves the lock free and the cache as it was |
| `ChatHistory.ReplayRoundTrip` | src/surreal_memory/adapters/langchain.py:289-334 | after any interleaving of sessions, replay gives exactly what was said in the session since it was last cleared, in order and each turn as the model's, the system's or a person's, given room for the session's tag at each of its clears and now |
| `ChatHistory.ReplayAlwaysCompleteIff` | src/surreal_memory/adapters/langchain.py:311-328 | replay is complete for every answer the store may give exactly when at most a thousand fibers carry the tag, or none is the session's |
| `ChatHistory.ReplayCompleteIff` | src/surreal_memory/adapters/langchain.py:311-328 | for one answer, replay is complete exactly when the query returned every own turn |
| `ChatHistory.ClearIsWipeIff` | src/surreal_memory/adapters/langchain.py:330-336 | clear removes exactly the session's turns, for every answer the store may give, exactly under that same condition |
| `ChatHistory.ClearSparesOthers` | src/surreal_memory/adapters/langchain.py:330-336 | clearing a session leaves the turns of all others, even under the same normalised tag |
| `ChatHistory.ReplayInWriteOrder` | src/surreal_memory/adapters/langchain.py:314-328 | whatever order the store answers in, the returned turns of the session are replayed in write order |
| `ChatHistory.ReplayOrdered` | src/surreal_memory/adapters/langchain.py:314-328 | for any store and answer, replay is of exactly the session's complete turns found, by start or else creation time, then by write stamp |
| `ChatHistory.NotesKept` | src/surreal_memory/adapters/langchain.py:330-336 | what other parts of the program stored stays, whatever sessions say and clear |
| `ChatHistory.StoredTurn` | src/surreal_memory/adapters/langchain.py:297-309 | a turn is stored with its kind, session, verbatim text, time and write stamp |
| `ChatHistory.TagsOfTurn` | src/surreal_memory/adapters/langchain.py:110-117 | and under two tags: the adapter's, and the session's in lower case and without white space after it |
| `ChatHistory.NormalizeTagIdempotent` | src/surreal_memory/adapters/langchain.py:110-117 | the reader's tag is unchanged by the encoder's own normalisation |
| `ChatHistory.SurrealMemoryChatMessageHistory.Clear` | src/surreal_memory/adapters/langchain.py:330-336 | the loop deletes by id exactly the found fibers of this session |
| `ChatHistory.SurrealMemoryChatMessageHistory.AddMessage` | src/surreal_memory/adapters/langchain.py:289-309 | a turn becomes one fiber at the end of the store, with the normalised session tag and the verbatim text |
| `ChatHistory.SurrealMemoryChatMessageHistory.GetMessages` | src/surreal_memory/adapters/langchain.py:311-328 | the loop over the sorted answer rebuilds the replay, whose order and kinds are `ChatHistory.ReplayOrdered` and `ChatHistory.ReplayRoundTrip` |
| `DeadModules.Close` | scripts/check_dead_modules.py:195-206 | the worklist ends, for every graph and order, with exactly the reachable names |
| `DeadModules.ReachableIsLeast` | scripts/check_dead_modules.py:195-206 | that set is the least one that holds the roots and is closed under imports and the implied package step |
| `DeadModules.InitIdempotent` | scripts/check_dead_modules.py:204-206 | the implied step is idempotent, so it adds finitely many names |
| `DeadModules.ScanImports` | scripts/check_dead_modules.py:71-105 | the scan collects exactly the modules and attributes a file's imports name, which the rows of `DeadImports` tell by the file's place |
| `DeadModules.RelativeImport` | scripts/check_dead_modules.py:84-91 | the dots of a relative import lead where PEP 328 says, one package up for each further dot |
| `DeadImports.RelativeFrom` | scripts/check_dead_modules.py:87-98 | inside the package `from ..m import a` names exactly the module `m` below the directory the dots lead to, or that directory itself, and as attributes that name, a dot and each alias |
| `DeadImports.OutsideFrom` | scripts/check_dead_modules.py:84-91 | outside its directory a relative import starts from the package itself |
| `DeadImports.AbsoluteFrom` | scripts/check_dead_modules.py:92-98 | `from m import a` names the module as written, if it is the package's, and nothing otherwise |
| `DeadImports.PlainImport` | scripts/check_dead_modules.py:80-83 | `import m` names the package's names as written and no attribute |
| `DeadImports.ModuleIs` | scripts/check_dead_modules.py:50-59 | a file is a module of the package under its dotted path, unless it is a package marker or a `__main__` |
| `DeadImports.StartsIs` | scripts/check_dead_modules.py:168-193 | where execution starts: references in strings, the package's own markers, and what files outside the package import |
| `DeadImports.ResolvesIff` | scripts/check_dead_modules.py:114-120 | a name exists exactly when it is not the package's, or a file or a package marker stands at its path |
| `DeadImports.RelativeImportsLive` | scripts/check_dead_modules.py:195-206 | what a live module imports relatively is alive |
| `DeadImports.RelativeImportBlamed` | scripts/check_dead_modules.py:182-184 | a relative import of a module that is not there is blamed on its file |
| `DeadAnalysis.Analyse` | scripts/check_dead_modules.py:156-211 | the report lists, sorted and once each, exactly the modules no chain of imports reaches, and blames for each missing module exactly the files that import it; chains and blame of relative imports are spelt out by `DeadImports.RelativeImportsLive` and `DeadImports.RelativeImportBlamed` |
| `DeadAnalysis.GrowthNeverKills` | scripts/check_dead_modules.py:166-206 | adding imports, to old files or new ones, or entry points never adds a dead module |
| `DeadAnalysis.MoreNeverKills` | scripts/check_dead_modules.py:166-206 | in particular adding files or scripts never does |
| `DeadAnalysis.ImportsDecide` | scripts/check_dead_modules.py:203-206 | package markers start on their own, so the implied step decides nothing: a module is live exactly when imports alone reach it |
| `DeadAnalysis.AttributeTargetKeepsNothing` | scripts/check_dead_modules.py:123-135 | a string `pkg.mod:attr` that is not itself a module keeps nothing alive, `pkg.mod` included |
| `Metrics.NdcgAtK` | benchmarks/metrics.py:164-186 | the score is DCG over the ideal DCG of the wanted number of hits, and nothing for none |
| `Metrics.NdcgRange` | benchmarks/metrics.py:164-186 | for a ranking without repetition NDCG lies in [0, 1] and is 1 exactly when the leading places exist and are all relevant |
| `Metrics.NdcgNormalised` | benchmarks/metrics.py:164-186 | the same whenever there are no more hits than relevant results |
| `Metrics.RepeatsOverflow` | benchmarks/metrics.py:110-186 | more leading hits than relevant results, as repetitions give, push NDCG and recall past 1 |
| `Metrics.RecallAtMostOneIff` | benchmarks/metrics.py:110-125 | recall is at most 1 exactly when there are no more hits than relevant results |
| `Metrics.SwapRaises` | benchmarks/metrics.py:144-161 | moving a relevant result ahead of an irrelevant one within the top k strictly raises DCG |
| `Metrics.GainAtMostIdeal` | benchmarks/metrics.py:144-186 | among arrangements with as many hits the one with all hits in front is best, and alone so |
| `Metrics.PrecisionRecallRange` | benchmarks/metrics.py:90-125 | precision and recall lie in [0, 1], and are 1 exactly when the top k are all relevant, or hold all that is |
| `Metrics.ScoresCount` | benchmarks/metrics.py:90-125 | precision counts the relevant places of the top k against k, recall counts them against the relevant results |
| `Metrics.NdcgZeroIff` | benchmarks/metrics.py:164-186 | NDCG is zero exactly when there is nothing to find or nothing was found |
| `Metrics.ReciprocalRank` | benchmarks/metrics.py:128-141 | the loop computes the reciprocal rank |
| `Metrics.ReciprocalIs` | benchmarks/metrics.py:128-141 | that is one over the rank of the first relevant id, the best any of them gives, and 0 exactly when there is none |
| `BenchmarkReports.Recombines` | benchmarks/metrics.py:63-87 | category means weighted by their counts give the overall mean |
| `BenchmarkReports.MeanUnit` | benchmarks/metrics.py:63-87 | averages of scores in [0, 1] lie in [0, 1] |
| `BenchmarkReports.SummaryMore` | benchmarks/metrics.py:63-87 | column by column, each mean is of its own scores: how one more query changes it |
| `BenchmarkReports.EvaluateQuery` | benchmarks/metrics.py:189-225 | one query's metrics are the four scores of its ranking, each its own, and in [0, 1] when no id repeats |
| `Baseline.RankMemories` | benchmarks/naive_baseline.py:148-184 | the loop, sort and cut compute the ranking |
| `Baseline.RankedIsUnique` | benchmarks/naive_baseline.py:148-184 | the ranking is the top of the one list, best score first and ids ascending, of exactly the memories that share a keyword |
| `Baseline.RankedIsBest` | benchmarks/naive_baseline.py:148-184 | nothing left out has a better score than anything kept, or as good a score and an earlier id |
| `Baseline.RankedInOrder` | benchmarks/naive_baseline.py:181-184 | the ranking goes by score from the best down, and among equal scores by id |
| `Baseline.MatchesJudged` | benchmarks/naive_baseline.py:164-179 | what is ranked are exactly the memories that share a keyword, each with its own id, text, shared keywords and score |
| `Order.StringLeqIs` | benchmarks/naive_baseline.py:182 | ids compare as texts: by the first difference, and a text before those it begins |
| `Order.SortStable` | scripts/cleanup_consolidation_debt.py:71-74 | elements that tie keep their order |
| `Baseline.RankedIgnoresOrder` | benchmarks/naive_baseline.py:148-184 | the order in which memories come does not matter |
| `Baseline.RankedIdsDistinct` | benchmarks/naive_baseline.py:148-184 | no memory is ranked twice |
| `Baseline.OverlapMeaning` | benchmarks/naive_baseline.py:129-145 | the score is the number of shared keywords over that of the query's, so in [0, 1], positive exactly on a shared keyword, and 1 exactly when all occur |
| `Baseline.EvaluateBaseline` | benchmarks/naive_baseline.py:187-231 | the report is that of one evaluation per query, in order, each of the ids the ranker returned for it |
| `Baseline.ReportedScoresUnit` | benchmarks/naive_baseline.py:187-231 | over memories with distinct ids every reported average lies in [0, 1] |
| `Baseline.TotalReportedIff` | benchmarks/naive_baseline.py:219-231 | the entry `overall` is the total exactly when no category has that name |
| `TreeLayout.LayoutTree` | src/surreal_memory/cli/graph_export.py:119-196 | the nested loops compute the layout: boxes, lines, width and height |
| `TreeLayout.BoxesDisjoint` | src/surreal_memory/cli/graph_export.py:119-196 | whatever the tree, no two boxes overlap and all lie on the canvas between header and legend |
| `TreeLayout.EveryChildPlaced` | src/surreal_memory/cli/graph_export.py:139-183 | each child of each fiber has its own box, and a line from inside its own fiber's box to the middle of its own left edge, in the colour of its weight |
| `TreeLayout.LinesEndApart` | src/surreal_memory/cli/graph_export.py:157-181 | no two lines end at the same point |
| `TreeLayout.HeightFormula` | src/surreal_memory/cli/graph_export.py:185-196 | the height is 190 and 86 for each fiber and 38 for each neighbour; there is one box for each |
| `TreeLayout.FiberAt` | src/surreal_memory/cli/graph_export.py:139-150 | where each fiber's box is, by the numbers of fibers and neighbours before it, its size and its caption |
| `TreeLayout.ChildAt` | src/surreal_memory/cli/graph_export.py:154-167 | where each neighbour's box is, its size, caption and edge |
| `TreeLayout.LineAt` | src/surreal_memory/cli/graph_export.py:169-179 | where its line runs, and its colour |
| `Cleanup.IdentityIff` | scripts/cleanup_consolidation_debt.py:37-40 | for all ids, two clusters have one identity before hashing exactly when their sorted ids, cut at every bar, give the same pieces |
| `Cleanup.IdentityExact` | scripts/cleanup_consolidation_debt.py:37-40 | where ids hold no bar, that is exactly when they have the same sources, in any order |
| `Cleanup.BarCollidesIff` | scripts/cleanup_consolidation_debt.py:37-40 | for instance an id with one bar is taken for its two halves exactly when these are in order |
| `Cleanup.KeyIs` | scripts/cleanup_consolidation_debt.py:43-51 | a summary's identity: its stored key, else the hash of its sources; nothing and the empty text are none |
| `Cleanup.OldMeetsNew` | scripts/cleanup_consolidation_debt.py:43-51 | a summary from before keys were stored meets the copies that have one, in whatever order it lists its sources |
| `Cleanup.Apply` | scripts/cleanup_consolidation_debt.py:120-140 | deleted plus failed is the announced number; exactly the victims not refused are gone, and as many fibers fewer are left as were counted; gone with them are exactly their concept neurons whose deletion does not raise, and as many as were counted |
| `Cleanup.CopiesLeft` | scripts/cleanup_consolidation_debt.py:71-84 | of each cluster exactly the copies that were not loaded, the keeper, and the refused ones are left |
| `Cleanup.CountLeft` | scripts/cleanup_consolidation_debt.py:54-84 | with no refusal, as many copies stay as were not loaded, and one more if any was: exactly one stays exactly when that makes one |
| `Cleanup.OldestStaysIff` | scripts/cleanup_consolidation_debt.py:54-84 | the oldest copy of all is kept exactly when none that was not loaded is older, and those are never younger |
| `Cleanup.OthersUntouched` | scripts/cleanup_consolidation_debt.py:43-51 | summaries without identity and fibers that are no summaries are left alone, in stores of any size |
| `Cleanup.SecondRunIdleIff` | scripts/cleanup_consolidation_debt.py:87-140 | a second run has nothing to delete exactly when no cluster has two copies among what it loads; if it loads all that is left, exactly when of each cluster the first run left out at most one copy, and none if it loaded one; so always within the load limit |
| `Cleanup.PastTheLimit` | scripts/cleanup_consolidation_debt.py:54-56 | one copy more than the query returns: two stay, and a second run deletes again |
| `Backfill.ScanTable` | scripts/backfill_fiber_vectors.py:87-112 | the paged scan ends and has seen each row once, in order |
| `Backfill.ScanAccounts` | scripts/backfill_fiber_vectors.py:84-112 | candidates, rows with a vector and rows without text add up to the table |
| `Backfill.CandidatesAre` | scripts/backfill_fiber_vectors.py:99-109 | the candidates are exactly the wanted rows, each with its own text |
| `Backfill.TextOf` | scripts/backfill_fiber_vectors.py:56-62 | a row's text does not depend on what else its page fetched |
| `Backfill.TextMeaning` | scripts/backfill_fiber_vectors.py:56-62 | what is embedded for a fiber: its stripped summary, or else what its first eight neurons say, blank ones left out, a line break between, cut to 2000 characters and stripped |
| `Backfill.ScanTallies` | scripts/backfill_fiber_vectors.py:99-109 | each tally of rows passed over, told by itself |
| `Backfill.InRowOrder` | scripts/backfill_fiber_vectors.py:99-109 | the candidates come in the order of their rows |
| `Backfill.EmbedAll` | scripts/backfill_fiber_vectors.py:127-152 | a reply of another length aborts the run; otherwise those candidates count as embedded whose batch of fifty was embedded and written, and the others as failed; every new vector is the embedding of that fiber's own text |
| `Backfill.Apply` | scripts/backfill_fiber_vectors.py:65-153 | a run that reports no failure leaves every wanted row with the embedding of its own text, no row with text without a vector, and all other vectors as they were |

## Findings

Where the code falls short of what its documentation or its names suggest, the model follows the code, and a lemma gives the
input and the exact condition.

- integrations/surrealmemory/src/mcp-client.ts:153-161: a partial line left in the buffer when the MCP process dies is put before
  the first line of the next process. Unless it is white space, the handshake response is discarded and the reconnect times out
  (`McpStaleTail.StaleTailRun`).
- integrations/surrealmemory/src/mcp-client.ts:129-139: once the buffer has passed its cap, every later chunk is refused, those of
  a new process too, until `close` (`McpFraming.OverflowWedges`).
- scripts/check_dead_modules.py:123-135: a script target `pkg.mod:attr` in a string is recorded as `pkg.mod.attr` and keeps
  nothing alive (`DeadAnalysis.AttributeTargetKeepsNothing`).
- scripts/cleanup_consolidation_debt.py:37-40: source ids are joined with a bar, so ids that hold bars can make two clusters look
  the same: exactly when their pieces agree (`Cleanup.IdentityIff`, `Cleanup.BarCollidesIff`).
- scripts/cleanup_consolidation_debt.py:54-56: the cleanup loads the newest 100000 fibers. Past that, more than one copy can stay,
  the one kept need not be the oldest, and a second run deletes again (`Cleanup.CountLeft`, `Cleanup.OldestStaysIff`,
  `Cleanup.PastTheLimit`).
- src/surreal_memory/adapters/langchain.py:311-336: clear and replay ask for at most a thousand fibers. Past that, turns survive a
  clear, and replay has gaps (`ChatHistory.ClearIsWipeIff`, `ChatHistory.ReplayAlwaysCompleteIff`).
- integrations/surrealmemory/src/tools.ts:84-88: stripping a bound from one branch of a `oneOf` can make a valid argument invalid
  (`SchemaValidity.OneOfCanBreak`).
- integrations/surrealmemory/src/tools.ts:68-104: a schema property called `__proto__` is lost, and a node key of that name can
  hide a missing `properties` (`SchemaMeaning.PropertyNamesKeptIff`, `SchemaValidity.ProtoFieldRefused`,
  `SchemaMeaning.InheritedProperties`).
- benchmarks/naive_baseline.py:219-231: a category called `overall` replaces the total in the baseline's report
  (`Baseline.TotalReportedIff`).
- benchmarks/metrics.py:110-186: repeated results push NDCG and recall past 1 (`Metrics.RepeatsOverflow`,
  `Metrics.RecallAtMostOneIff`).
- scripts/backfill_fiber_vectors.py:127-152: a provider that answers a batch with another number of vectors aborts the whole
  backfill (`Backfill.EmbedAll`).
- src/surreal_memory/unified_config.py:1192-1199: the string and glob sanitisers are not idempotent
  (`Sanitize.CleanIdempotentIff`), and two injection targets that sanitise to one key make the saved file unreadable
  (`ReasoningRoundTrip.ReloadExact`).
- src/surreal_memory/unified_config.py:1374-1378: an empty list of categories is printed as such and loads as the default list
  (`ReasoningRoundTrip.ReprintIdenticalIff`).
- src/surreal_memory/unified_config.py:1338-1342: a number too large to convert, such as an infinite float for an integer field,
  escapes the loader; so does an integer of more digits than Python prints where the loader reads text, as in an entry of
  `mining_models` (src/surreal_memory/unified_config.py:1344-1345) (`ReasoningConfig.LoaderRaisesIff`).
- src/surreal_memory/cli/config.py:94-120: the brain switch accepts a name that ends in a line break, and the file can then no
  longer be parsed (`BrainReader.SwitchIsRead`).
- integrations/surrealmemory/test/mcp-client.test.ts:47: the client's code uses newline-delimited messages, while its test helper
  frames them with `Content-Length`. The code is followed.

## Left out

- OneLoopPerProcess: does not model an exception of `new_event_loop` or `thread.start`, which leaves an unused loop behind and
  lets the next caller make another; "at most one loop" is for processes in which neither raises.
- Send: does not model a `JSON.stringify` that throws, as on a circular parameter: the promise is rejected then, but the pending
  entry and its timer stay until the timeout.
- NormalizeKeepsStrictlyValid: asks that nothing is weakened below a `oneOf`, which leaves out choices whose branches no instance
  shares, since whether branches overlap is not a matter of the nodes' form.
- Process spawning, kill signals, stderr and log text; `close` waiting three seconds; a direct call of `connect`, and a failed
  process that is still alive when the next one starts.
- JSON numbers are kept as lexemes: their rounding to doubles is not modelled (an `error` of `1e-400` counts as true here, and is
  zero to the client), nor are response ids that are no integers.
- Schema objects: the order of integer-like keys, `undefined`, and draft keywords such as an `items` array for tuples.
- `additionalProperties` holding a schema is not rewritten by the code; it is judged as it stands, without strictness below it.
- The SurrealDB backend of the store cache, which has no lock and is rebound by `set_brain`; locks are those of one event loop.
- Environment overrides, the other configuration sections, and the file system; text is read without newline translation.
- TOML outside what the printer uses: escapes, literal and multi-line strings, dates, inline tables, arrays of tables.
- Floats are reals; their text is an opaque printer that reads back exactly for doubles. The metrics use reals and any positive,
  strictly decreasing discount in place of one over a binary logarithm.
- `str.lower` folds ASCII letters only, in tags; the tokenizer's regular expression and SHA-256 are parameters.
- The encoder, the deduplication before it and the neurons of a chat turn: a turn is the one fiber the encoder builds.
- Clocks, fiber ids, salience and what the provider, the storage and the neuron calls answer are inputs.
- Newest-first loading in the cleanup breaks ties by position; nothing proved depends on how.
- The removal of orphaned typed memories, the measure and dry-run modes and all printed output of the two scripts.
- The order in which broken imports are listed; files that do not parse are those without nodes.
- The death of the driver thread of a bridge loop, and coroutines once they are submitted.
- The SVG text, truncation of captions, and the empty drawing.
- The prompt scrubbers of the plugin and its configuration, the retriever, and the rest of the command line.
