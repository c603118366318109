# Apollo Server: a verified model

A Dafny model of the stateful parts of Apollo Server, with proofs of what they keep over all inputs and
over all interleavings. `dafny verify dfyconfig.toml` checks it.

**The reporting codec** (`packages/apollo-reporting-protobuf/generated/protobuf.js`). `Wire` holds varints,
zigzag, scalars and the skipping of unknown records, as the Protocol Buffers Encoding specification fixes
them (sections "Base 128 Varints", "Signed Integers", "Length-Delimited Records", "Packed Repeated Fields",
"Maps", "Last One Wins" and "Message Structure"). `Schema` transcribes the generated code of all 28 message
types twice: what each `encode` writes, in its order and with its tag constants (`SlotAt`), and what each
`case` of each `decode` assigns (`Case`). `Messages` holds the message objects and their merging, `Serial`
the pure serialiser and parser, and `Codec` the `Writer` with its fork stack, the `Reader` with its position
and the imperative `encode` and `decode`, which refine the pure ones. `WireFormat` says what the bytes are
without the functions that write and read them. `RoundTrip`, `Canonical`, `Ascending`, `Emptiness`,
`Concatenation`, `LastOneWins`, `Leniency`, `Padding`, `PaddedEncodings` and `Arrays` prove the laws of the
format.

**The request pipeline** (`packages/apollo-server-core/src/requestPipeline.ts`). `Pipeline` runs any number
of requests, interleaved at every `await`, over a cache of persisted queries and a document store whose
writes nobody awaits: a write may land at any later time, again and again, or never; entries may be lost;
reads may fail; every hook may throw at every point, and any value, null and undefined included; converting
and formatting errors may throw too. `RequestCode` has the same segments as code that updates request objects,
and runs any number of them interleaved over shared caches. `SharedCaches` proves the two cache invariants
jointly, `SharedStore` that the one of persisted queries survives in a store that the HTTP cache writes too,
`DocumentStore` that the document store cannot be noticed, `StoreContents` what stands in the caches and that
requests proceed, `HookGrammar` the order in which hooks are called, `Answers` where every response comes from,
`Endings` how requests end when something throws, and `GetRequests` what a GET can reach.

**The server lifecycle** (`packages/apollo-server-core/src/ApolloServer.ts`). `Lifecycle` has the fields, the
segments between two awaits as functions and as methods of a class `ApolloServer`, and their interleavings
with the settling of every handler. `Startup`, `Admission` and `Shutdown` say over whole runs how starting ends,
when operations are admitted and with what a server stops; `Phases`, `ShuttingDown`, `StopCalls`, `Signals`
and `Listeners` prove what all runs keep, `FalsyRejection` is a run that shows where two promises fail, and
`EventLoop` runs the object itself.

**Caches of data sources.** `Prefixing` (several features in one key-value store), `HttpCaching` (the HTTP
cache, with a clock and concurrent fetches), `HttpFreshness` (when it serves, asks and keeps), `HttpFetches` (the
same run by the cache object) and `Memoising` (promises shared by GETs). The cache of persisted queries and the
HTTP cache live in one store under the prefixes `apq:` and `httpcache:`. `Pipeline` and `HttpCaching` model each
as a store of its own; `Prefixing.FeaturesIndependent` says that views under the two answer as two stores would,
and `SharedStore.SharedRun` that every run of the pipeline over the shared store is one over a store of its own.

## Assumptions

Functions that come from outside are parameters. `Pipeline.Env` stands for the hash, the parser, the validator,
`getOperationAST`, the conversion and the formatting of errors, `formatResponse`, and whether a list of
headers can be set, for one schema, one set of rules and one set of parse
options per document store; `runHttpQuery` drops `parseOptions` (`runHttpQuery.ts:173-199`) while
`executeOperation` keeps them, so a store shared by both with differing options is outside this model. SHA-256
is assumed injective on the queries that requests bring, where a result says so, and nowhere else.
`HttpCaching.Library` stands for `http-cache-semantics`; the one thing assumed of it, in one result, is that a
policy is at least as old as the time since it was made (section 4.2.3 of RFC 7234). What hooks, handlers,
plugins, execution and the origin do are events of a run, so every result holds whatever they do.

## Where the code and its comments part

- `ApolloServer.ts:701-702` promises that a parallel call of `stop` waits for the first one "and does whatever
  it did". Only the failing branch resolves the barrier (line 751); the successful one (line 754) does not.
  `StopCalls.ParallelStopWakesIff` gives the exact condition, `ParallelStopStuck` shows that after a successful
  stop such a call never ends, and `ParallelStopCanBeStuck` is a run in which this happens.
- `ApolloServer.ts:694` says that later calls of `stop` have the result of the first. They do if and only if
  the server did not stop with a rejection whose value JavaScript takes for false (`StopCalls.StopReportsAgreeIff`);
  `FalsyRejection.FalsyRejectionRun` is a run in which they do not.
- `ApolloServer.ts:513-517` says that the signal handler has been removed when the signal is sent to the process
  again, so that the process dies of it. `Signals.ResendsIff` says exactly when it is sent again, and
  `Listeners.ResentInPlaceIff` that the listeners are then still in place exactly if some handler of `toDispose`
  has not succeeded. In that case the process does not die: its own handler swallows the signal sent again and
  every later one, whatever else happens (`Listeners.ResentIsSwallowed`). `FalsyRejectionRun` comes to that.
- `requestPipeline.ts:518-519` says that calls of `didEncounterErrors` are followed by `willSendResponse`.
  `Endings.CutOffIff` gives the exact condition under which one is not, and `Endings.CutOffRun`,
  `Endings.FormatThrowsRun` and `Endings.NullishErrorRun` are runs in which that happens; in the last one
  didResolveOperation throws null or undefined, whose message `fromGraphQLError` reads
  (`apollo-server-errors/src/index.ts:125-128`), and nothing else throws. `didEncounterErrors` can also be called
  twice for a request that is answered: `Endings.DoubleCallRun`.
- `PrefixingKeyValueCache.ts:3-5` promises freedom from conflicts. It holds if and only if neither prefix is a
  prefix of the other: `Prefixing.IndependentIff`.

## Model

| member | source | states |
|---|---|---|
| `Wire.PatternRoundTrip` | packages/apollo-reporting-protobuf/generated/protobuf.js:643-651 | for each scalar kind, the bit pattern of every number in range means that number again, negative 32-bit and 64-bit numbers and zigzag included |
| `Wire.AtomRoundTrip` | packages/apollo-reporting-protobuf/generated/protobuf.js:306-379 | every scalar in the range of its field is read back from what is written for it, whatever follows |
| `WireFormat.VarintBytes` | packages/apollo-reporting-protobuf/generated/protobuf.js:2177-2197 | a varint is the number's groups of seven bits, least significant first, with continuation bits on all bytes but the last, and no longer than needed |
| `WireFormat.ReadVarintIff` | packages/apollo-reporting-protobuf/generated/protobuf.js:2229-2276 | a varint is read if and only if one of its first ten bytes has no continuation bit, up to the first such byte, and its value is what its groups say |
| `WireFormat.NegativesTakeTen` | packages/apollo-reporting-protobuf/generated/protobuf.js:643-651 | a negative 32-bit number is written in ten bytes, as the 64-bit one, so that readers of both kinds find it |
| `WireFormat.FlagsAndTextsAreWritten` | packages/apollo-reporting-protobuf/generated/protobuf.js:236-280 | a flag is written as one byte, 1 or 0, and a text as its bytes after their number |
| `WireFormat.ZigZagByMagnitude` | packages/apollo-reporting-protobuf/generated/protobuf.js:4161-4183 | zigzag numbers the integers by magnitude, each negative one just before its positive |
| `WireFormat.MeaningTruncates` | packages/apollo-reporting-protobuf/generated/protobuf.js:677-696 | a varint too wide for its field is read as the number in the field's range that is congruent to it |
| `WireFormat.BodySkipped` | packages/apollo-reporting-protobuf/generated/protobuf.js:372-375 | the body of a record of any wire type, with groups nested in groups, is skipped whole, and nothing after it |
| `WireFormat.NotSkipped` | packages/apollo-reporting-protobuf/generated/protobuf.js:372-375 | no other wire type can be skipped, nor a body of fixed width that is cut short |
| `Schema.TablesAgree` | packages/apollo-reporting-protobuf/generated/protobuf.js:6488-6554 | for every type and every property that `encode` writes, the `case` of `decode` under its tag's number assigns that property, and reads what was written |
| `Schema.CasesWritten` | packages/apollo-reporting-protobuf/generated/protobuf.js:6488-6554 | and conversely: every property that a `case` of `decode` assigns is one that `encode` writes under that number, and reads as it is written |
| `Schema.NumbersAscend` | packages/apollo-reporting-protobuf/generated/protobuf.js:236-280 | every `encode` writes its fields in ascending order of their numbers |
| `Ascending.EncodingAscends` | packages/apollo-reporting-protobuf/generated/protobuf.js:236-280 | so the records of every encoding stand in ascending order of their numbers |
| `Schema.PropertiesDistinct` | packages/apollo-reporting-protobuf/generated/protobuf.js:236-280 | no `encode` writes a property twice |
| `Schema.CasesDistinct` | packages/apollo-reporting-protobuf/generated/protobuf.js:306-379 | no two cases of one `decode` assign the same property |
| `Messages.AssignAllAssociative` | packages/apollo-reporting-protobuf/generated/protobuf.js:4200-4227 | assigning one map's entries into another, key by key and keeping the place of keys already there, is associative |
| `Messages.AbsorbMerges` | packages/apollo-reporting-protobuf/generated/protobuf.js:4200-4227 | what a record adds to the later of two messages it adds to their merge |
| `RoundTrip.EntryRoundTrip` | packages/apollo-reporting-protobuf/generated/protobuf.js:4161-4227 | a map entry is read back although `decode` reads it by position and skips its length and tags unread |
| `RoundTrip.PackedBlockRoundTrip` | packages/apollo-reporting-protobuf/generated/protobuf.js:4510-4520 | a packed block of any numbers in range, negative ones included, is read back in order |
| `RoundTrip.MessageRoundTrip` | packages/apollo-reporting-protobuf/generated/protobuf.js:2177-2276 | for every message type and message, to any depth, `decode(reader, n)` gives the encoded message back and consumes exactly its `n` bytes, whatever follows |
| `RoundTrip.DecodeEncode` | packages/apollo-reporting-protobuf/generated/protobuf.js:6488-6554 | `decode(encode(m)) = m` for every message of every type, with `Node` trees, query plans that hold traces, recursive error statistics, and maps under any enumeration order of their keys |
| `Canonical.FitsIff` | packages/apollo-reporting-protobuf/generated/protobuf.js:6527-6554 | the messages for which this holds are those whose every property is one that a `case` assigns and holds what that `case` reads |
| `Canonical.DecodedIsEncodable` | packages/apollo-reporting-protobuf/generated/protobuf.js:6488-6554 | and they include whatever a byte string decodes to: it can be encoded again, and decodes again to the same message |
| `Emptiness.TrimEncoding` | packages/apollo-reporting-protobuf/generated/protobuf.js:4161-4183 | empty arrays and empty objects, at any depth, change no byte of the encoding |
| `Emptiness.DecodeEncodeTrims` | packages/apollo-reporting-protobuf/generated/protobuf.js:306-379 | so a message with absent and empty ones decodes to the message without the empty ones |
| `RoundTrip.EncodeInjective` | packages/apollo-reporting-protobuf/generated/protobuf.js:236-280 | two messages with one encoding are one message |
| `Concatenation.DecodeLocal` | packages/apollo-reporting-protobuf/generated/protobuf.js:306-379 | a decoding that succeeds depends on no byte beyond those it consumes |
| `Concatenation.DecodeConcatenation` | packages/apollo-reporting-protobuf/generated/protobuf.js:2229-2276 | the concatenation of two byte strings that decode decodes to the merge: single fields, nested messages too, are replaced by the later, arrays are appended, maps are overridden key by key |
| `LastOneWins.LastOneWins` | packages/apollo-reporting-protobuf/generated/protobuf.js:2229-2276 | property by property: a single value, a nested message too, is the later string's; an array is the two in order; an object has the later's value under each key the later has, the earlier's under the others, and its keys in order of first appearance; and there are no other properties |
| `Concatenation.UnknownRecordsIgnored` | packages/apollo-reporting-protobuf/generated/protobuf.js:2229-2276 | records with unknown field numbers, put at any boundary of records, change neither what is decoded nor whether it is |
| `Padding.PaddingIgnored` | packages/apollo-reporting-protobuf/generated/protobuf.js:2229-2276 | byte strings that differ only in records with unknown field numbers, put at any boundary outside map entries and at any depth, with the length prefixes that this changes, decode to the same message |
| `Padding.PadFirst` | packages/apollo-reporting-protobuf/generated/protobuf.js:2229-2276 | unknown records may be put before any matching records |
| `PaddedEncodings.NestedPadded` | packages/apollo-reporting-protobuf/generated/protobuf.js:2177-2276 | a nested message, single or in an array, may be replaced by one that matches it, of another length, with whatever matching records after it: so padding may be put in at any depth |
| `PaddedEncodings.ValuePadded` | packages/apollo-reporting-protobuf/generated/protobuf.js:4161-4227 | so may the message under a key, although this changes two lengths |
| `PaddedEncodings.EncodingPadded` | packages/apollo-reporting-protobuf/generated/protobuf.js:6488-6554 | the encoding of every message matches itself, which is where such replacing begins |
| `Concatenation.UnknownRecordIff` | packages/apollo-reporting-protobuf/generated/protobuf.js:306-379 | a record leaves every message as it is if and only if the switch has no case for its number, or it is an empty packed block |
| `Concatenation.TooShort` | packages/apollo-reporting-protobuf/generated/protobuf.js:306-379 | `decode(reader, n)` never succeeds with fewer than `n` bytes left |
| `Leniency.OverrunIgnored` | packages/apollo-reporting-protobuf/generated/protobuf.js:2229-2276 | a length that ends anywhere inside the last record reads it to its end |
| `Leniency.EntryByPosition` | packages/apollo-reporting-protobuf/generated/protobuf.js:4212-4219 | an entry is its key and value, whatever stands in the places of its length and tags |
| `Leniency.EntryIsMessage` | packages/apollo-reporting-protobuf/generated/protobuf.js:4161-4183 | but it is written as the message with the key under number 1 and the value under number 2 |
| `Leniency.WireTypeIgnored` | packages/apollo-reporting-protobuf/generated/protobuf.js:306-379 | only packed fields are read as the wire type of their tag says |
| `Leniency.UnknownRecordSkipped` | packages/apollo-reporting-protobuf/generated/protobuf.js:372-375 | any well-formed record under a number that the switch does not know is skipped whole |
| `Arrays.PackedBlocksDecode` | packages/apollo-reporting-protobuf/generated/protobuf.js:4588-4597 | however a list of numbers is split over packed records, they append the list in order |
| `Arrays.SingleRecordsDecode` | packages/apollo-reporting-protobuf/generated/protobuf.js:4588-4597 | so does one unpacked record for each number |
| `Arrays.PackedAndSingleAgree` | packages/apollo-reporting-protobuf/generated/protobuf.js:5684-5693 | the packed form and the form with a record for each number decode to the same message |
| `Arrays.MixedEncoding` | packages/apollo-reporting-protobuf/generated/protobuf.js:6962-6988 | a message in which any traces, at any depth, are replaced by their encodings has byte for byte the encoding of the message with all its objects |
| `Arrays.MixedDecodes` | packages/apollo-reporting-protobuf/generated/protobuf.js:7014-7042 | and decodes to the message with all its objects |
| `Codec.Encode` | packages/apollo-reporting-protobuf/generated/protobuf.js:2177-2197 | `encode(m, writer)` appends exactly the serialisation of `m` at the current level and leaves the fork stack as it was |
| `Codec.EncodeEntry` | packages/apollo-reporting-protobuf/generated/protobuf.js:6495-6499 | so does the doubly framed code for one map entry |
| `Codec.EncodePacked` | packages/apollo-reporting-protobuf/generated/protobuf.js:4510-4520 | so does the code for a packed array |
| `Codec.Writer.Ldelim` | packages/apollo-reporting-protobuf/generated/protobuf.js:4164-4168 | closing a level appends its bytes, length first, to the level below |
| `Codec.Decode` | packages/apollo-reporting-protobuf/generated/protobuf.js:2229-2276 | on every byte string the decoding loop, with its nested decoders, ends in the message or the error of the pure parser, and at its position |
| `Codec.DecodeEntry` | packages/apollo-reporting-protobuf/generated/protobuf.js:4212-4219 | reads a map entry by position, as the pure parser does |
| `Codec.DecodeNumbers` | packages/apollo-reporting-protobuf/generated/protobuf.js:4588-4597 | reads a packed block or a single number, as the wire type says |
| `Codec.Parse` | packages/apollo-reporting-protobuf/generated/protobuf.js:6527-6554 | a whole buffer gives the message or the error of the pure parser |
| `Codec.Recode` | packages/apollo-reporting-protobuf/generated/protobuf.js:6488-6554 | what the encoding loops write, the decoding loops read back as the same message |
| `SharedCaches.CachesSound` | packages/apollo-server-core/src/requestPipeline.ts:128-321 | in every run, what stands under a hash in the cache of persisted queries is a query with that hash that has parsed, validated and passed didResolveOperation; what stands under a hash in the document store is the valid parse of every query with that hash; and no request gets past validation with anything but the valid parse of its own query |
| `SharedCaches.StoreAnswersSound` | packages/apollo-server-core/src/requestPipeline.ts:152-219 | a document found for a request is what parsing and validating its query would have given, even if the query itself was found under a hash |
| `SharedCaches.StepSound` | packages/apollo-server-core/src/requestPipeline.ts:207-321 | every event keeps the two invariants together |
| `StoreContents.QueriesAre` | packages/apollo-server-core/src/requestPipeline.ts:140-173 | in every run a read of the cache of persisted queries finds a query under a hash if and only if it was the last written there and nothing has lost it since |
| `StoreContents.KeepsIff` | packages/apollo-server-core/src/requestPipeline.ts:253-275 | an event sets off a write to the document store if and only if it ends validation without errors for a request with a store; the write is of its document under its hash |
| `StoreContents.DocumentsAre` | packages/apollo-server-core/src/requestPipeline.ts:207-219 | a performed write stands in the document store, a lost document does not, and nothing else changes what stands there |
| `StoreContents.DocumentFoundIff` | packages/apollo-server-core/src/requestPipeline.ts:207-230 | a request reads the document store if and only if there is one, takes what it finds for its document without parsing, and parses if it finds nothing |
| `SharedStore.SharedRun` | packages/apollo-server-caching/src/PrefixingKeyValueCache.ts:3-25 | every run of the pipeline over a store that the HTTP cache writes too, and that may lose any entry, is to the pipeline a run over a cache of its own |
| `SharedStore.SharedQueriesSound` | packages/apollo-server-core/src/requestPipeline.ts:128-321 | so in every such run what the store holds under `apq:` and a hash is a query with that hash that has parsed, validated and passed didResolveOperation |
| `DocumentStore.StoreIsTransparent` | packages/apollo-server-core/src/requestPipeline.ts:207-275 | for every run with the store, whatever it loses or fails to read or write, the run without it, in which a document found is parsed and validated instead and all else happens as before, has every request with the same query, hash, document and operation at the same stage with the same response, the same hooks called but for those of parsing and validation, and the same queries registered |
| `DocumentStore.HitMatches` | packages/apollo-server-core/src/requestPipeline.ts:211-275 | a request that finds its document stands where the other one does after it has parsed and validated |
| `DocumentStore.ExpansionRemains` | packages/apollo-server-core/src/requestPipeline.ts:207-275 | but for events of the store and returns of hooks, the matching run has exactly the events of the other in their order: the same requests, throws of hooks and of execution, reads of the cache of persisted queries, and answers |
| `DocumentStore.HooksIgnoredByReader` | packages/apollo-server-core/src/requestPipeline.ts:211-219 | what the matching run leaves out of these changed nothing |
| `HookGrammar.AnsweredInOrder` | packages/apollo-server-core/src/requestPipeline.ts:202-446 | in every run a request that is answered, and that no event has interrupted, has had its hooks called in the order of one of eight courses |
| `HookGrammar.CourseCounts` | packages/apollo-server-core/src/requestPipeline.ts:489-580 | in each course willSendResponse is called once and last, didEncounterErrors at most once, and executionDidEnd once exactly if executionDidStart is |
| `HookGrammar.RejectedWasInterrupted` | packages/apollo-server-core/src/requestPipeline.ts:489-580 | only a request that an event of the run has interrupted ends without a response |
| `HookGrammar.InterruptedIff` | packages/apollo-server-core/src/requestPipeline.ts:152-173 | a request is interrupted if and only if, at some event of the run, its query is null beside a hash, its read of the cache of persisted queries fails, converting or formatting errors throws, formatResponse throws, the headers of its response cannot be set, or a hook that it awaits, other than didResolveOperation, throws, or something else outside the two try blocks does |
| `Answers.AnswersComeFrom` | packages/apollo-server-core/src/requestPipeline.ts:128-580 | in every run a response that a request is answered with is the data, extensions of the HTTP response and converted and formatted errors of what was executed for it, or a plugin's response, unless formatResponse replaced it; or it is made of errors that the request has run into, each kind under its condition on the request, on what the caches held and on what was thrown |
| `Answers.ExecutesOwnOperation` | packages/apollo-server-core/src/requestPipeline.ts:128-372 | in every run a request comes to its operation with its own query, or the one stored under its hash, with a valid parse of it or what the document store held, with the operation it names, and with the right marks for metrics |
| `StoreContents.RequestsProceed` | packages/apollo-server-core/src/requestPipeline.ts:128-446 | in every run whatever a request awaits takes it further, so that after at most sixteen such events it is answered or rejected |
| `Endings.AnsweredWasSent` | packages/apollo-server-core/src/requestPipeline.ts:489-515 | in every run, whatever throws, willSendResponse has been called once and last for every request that is answered, and before that never |
| `Endings.CutOffIff` | packages/apollo-server-core/src/requestPipeline.ts:518-580 | an event that rejects a request for which didEncounterErrors has been called leaves it without willSendResponse if and only if a didEncounterErrors hook throws while the error response is made, or converting or formatting its errors does, or an executionDidEnd hook in the catch block, or formatResponse after execution, or the headers of the response cannot be set; the only other way is that willSendResponse throws |
| `Endings.CutOffRun` | packages/apollo-server-core/src/requestPipeline.ts:518-540 | a run in which didEncounterErrors is called and willSendResponse is not |
| `Endings.FormatThrowsRun` | packages/apollo-server-core/src/requestPipeline.ts:436-446 | another, for any valid query whose errors can be converted and formatted, in which no hook throws but formatResponse does |
| `Endings.NullishErrorRun` | packages/apollo-server-core/src/requestPipeline.ts:290-298 | another, for any valid query and whatever the functions given, in which didResolveOperation throws null or undefined and nothing else throws |
| `Endings.DoubleCallRun` | packages/apollo-server-core/src/requestPipeline.ts:374-433 | a run, for any valid query whose errors can be converted and formatted, in which didEncounterErrors is called twice and the request is answered |
| `GetRequests.GetExecutesOnlyQueries` | packages/apollo-server-core/src/runHttpQuery.ts:441-460 | in every run a GET that has come to responseForOperation or to execution names a query of its document |
| `GetRequests.RegistersIff` | packages/apollo-server-core/src/requestPipeline.ts:290-321 | in every run an event sets off a write to the cache of persisted queries if and only if it ends didResolveOperation for a request that brought query and hash and that, if it is a GET, names a query of its document; the write is of its query under its hash |
| `GetRequests.GetRegistersOnlyQueries` | packages/apollo-server-core/src/runHttpQuery.ts:441-460 | in every run a GET has a query written to the cache only if it names a query of its document |
| `RequestCode.RequestPipeline.Begin` | packages/apollo-server-core/src/requestPipeline.ts:128-205 | the code with its early returns takes a request where the model does: to the cache, to its source with the right hash, or to the right error |
| `RequestCode.RequestPipeline.OnParsingStarted` | packages/apollo-server-core/src/requestPipeline.ts:230-245 | after parsingDidStart, a syntax error ends parsing and a document goes on to validation |
| `RequestCode.RequestPipeline.OnValidationEnded` | packages/apollo-server-core/src/requestPipeline.ts:247-294 | after successful validation the document is kept under the hash, if there is a store, and its operation resolved |
| `RequestCode.RequestPipeline.OnOperationResolved` | packages/apollo-server-core/src/requestPipeline.ts:290-328 | after didResolveOperation the query is registered if it is to be, or the error answered |
| `RequestCode.RequestPipeline.OnExecuted` | packages/apollo-server-core/src/requestPipeline.ts:374-424 | errors in the result are reported before execution ends |
| `RequestCode.RequestPipeline.OnErrorsEncountered` | packages/apollo-server-core/src/requestPipeline.ts:413-433 | they are then formatted, and if that throws execution ends in the catch block |
| `RequestCode.RequestPipeline.RespondToErrors` | packages/apollo-server-core/src/requestPipeline.ts:529-580 | the loop converts errors one by one and the response is made of them, formatted and with its headers, or the request is rejected if any of this throws |
| `RequestCode.RequestPipeline.OnHookThrew` | packages/apollo-server-core/src/requestPipeline.ts:290-297 | a hook that throws is caught where the code has a try block around it, and rejects the request elsewhere |
| `RequestCode.RequestPipeline.Handle` | packages/apollo-server-core/src/requestPipeline.ts:128-446 | every event takes the object where the model's segment takes the request, and sets off its writes |
| `RequestCode.Requests.Handle` | packages/apollo-server-core/src/requestPipeline.ts:128-446 | objects that run interleaved over the two shared caches take every step that the model takes |
| `RequestCode.Requests.Serve` | packages/apollo-server-core/src/requestPipeline.ts:128-321 | after any run of these objects from empty caches, every stored query has its hash and has passed didResolveOperation, and every stored document is the valid parse of its query |
| `Phases.PhaseAdvances` | packages/apollo-server-core/src/ApolloServer.ts:85-118 | in every run the phase only moves forward, and never from a failed start or a finished stop |
| `Phases.StepFits` | packages/apollo-server-core/src/ApolloServer.ts:345-490 | every segment keeps the phase, the barriers and the handlers in step, with at most one call starting and at most one stopping the server |
| `Phases.EnsureWaitsOnce` | packages/apollo-server-core/src/ApolloServer.ts:542-582 | no `_ensureStarted` waits for the barrier a second time |
| `Startup.StartBegins` | packages/apollo-server-core/src/ApolloServer.ts:345-357 | `start`, and `executeOperation` on a new server, make a barrier and begin; `start` fails on any other server and changes nothing |
| `Startup.StartingEnds` | packages/apollo-server-core/src/ApolloServer.ts:357-490 | in every run starting fails with the first thing that goes wrong, and the call reports that; otherwise the server has started once its landing page is there, and listens to signals if it is to; and those who wait may go on |
| `Startup.RegistersWhatIsAsked` | packages/apollo-server-core/src/ApolloServer.ts:359-455 | in every run a started server has exactly the handlers that its listeners asked for, the schema manager's and, if it listens to signals, the signal listeners' |
| `Admission.AdmitsIff` | packages/apollo-server-core/src/ApolloServer.ts:542-582 | in every run an event admits an operation if and only if it runs a turn of `_ensureStarted` while the server is started or draining; a turn waits if and only if the server is starting, and in every other phase ends with that phase's error |
| `ShuttingDown.AdmissionOnlyWhileRunning` | packages/apollo-server-core/src/ApolloServer.ts:542-582 | in every run operations are admitted only after the server has started and before it leaves draining |
| `ShuttingDown.DisposalInOrder` | packages/apollo-server-core/src/ApolloServer.ts:719-755 | in every run each handler begins at most once, those of `toDispose` only after every drain callback has succeeded and admission has closed, and those of `toDisposeLast` only after all of `toDispose` have succeeded |
| `Shutdown.StopBegins` | packages/apollo-server-core/src/ApolloServer.ts:685-737 | what a call of `stop`, or the first signal, does at once in each phase: a started server begins to drain with every drain callback called in order |
| `Shutdown.StoppingGoesOn` | packages/apollo-server-core/src/ApolloServer.ts:737-755 | in every run the stopping call stops the server with the first rejection among the handlers it awaits, calls the next group when all have succeeded, and waits otherwise |
| `Shutdown.StoppedWellIff` | packages/apollo-server-core/src/ApolloServer.ts:685-755 | in every run a stopped server has stopped without an error if and only if every handler that its listeners asked for, the schema manager's and the signal listeners' has succeeded; otherwise with what one of them was rejected with |
| `StopCalls.NeverSurprised` | packages/apollo-server-core/src/ApolloServer.ts:703-717 | "Surprising post-stopping state" is never thrown |
| `StopCalls.StopReportsAgreeIff` | packages/apollo-server-core/src/ApolloServer.ts:685-755 | a call of `stop` that ends after the server has committed to stopping reports what the first reported if and only if the server did not stop with a rejection whose value counts as false; then the first is rejected and the others succeed |
| `StopCalls.ParallelStopWakesIff` | packages/apollo-server-core/src/ApolloServer.ts:703-754 | a call that awaited the first one can go on if and only if stopping has failed |
| `StopCalls.ParallelStopStuck` | packages/apollo-server-core/src/ApolloServer.ts:749-755 | after a successful stop, a call that awaited it never ends, whatever happens |
| `StopCalls.ParallelStopCanBeStuck` | packages/apollo-server-core/src/ApolloServer.ts:701-754 | a run with two calls of `stop` in which the second is left waiting |
| `Signals.SignalsEndOnce` | packages/apollo-server-core/src/ApolloServer.ts:492-527 | the signal handler exits or sends its signal to the process again at most once, however many signals arrive, and sends it only after its listener has been removed, unless stopping failed with a value that counts as false |
| `Signals.ResendsIff` | packages/apollo-server-core/src/ApolloServer.ts:497-520 | in every run an event sends a signal to the process again if and only if that signal's call of `stop` ends with it and either was the first call and every handler of `toDisposeLast` has succeeded, or came later and stopping had failed with a value that counts as false; in the first case the signal's listener has been removed |
| `Listeners.ResentInPlaceIff` | packages/apollo-server-core/src/ApolloServer.ts:497-527 | in every run, when a signal is sent to the process again, the listeners are still in place if and only if some handler of `toDispose` has not succeeded |
| `Listeners.ResentIsSwallowed` | packages/apollo-server-core/src/ApolloServer.ts:497-520 | if they are, the process lives on: whatever happens later, the listeners stay, every signal is ignored, the one sent again too, and the handler neither exits nor sends another |
| `FalsyRejection.FalsyRejectionRun` | packages/apollo-server-core/src/ApolloServer.ts:694-717 | a run in which the first call of `stop` is rejected with such a value, the second succeeds, and a signal is sent to the process again with its listener in place, which swallows it |
| `Lifecycle.ApolloServer.Start` | packages/apollo-server-core/src/ApolloServer.ts:345-357 | a server that is not new refuses to start; a new one makes a barrier and begins |
| `Lifecycle.ApolloServer.OnHooksStarted` | packages/apollo-server-core/src/ApolloServer.ts:390-478 | what the listeners ask for is registered, and the server starts, goes on to its landing page, or fails |
| `Lifecycle.ApolloServer.EnsureStarted` | packages/apollo-server-core/src/ApolloServer.ts:542-582 | one turn of the loop admits, refuses or waits as the phase says |
| `Lifecycle.ApolloServer.Stop` | packages/apollo-server-core/src/ApolloServer.ts:685-737 | the first segment of `stop`, in every phase |
| `Lifecycle.ApolloServer.OnDrained` | packages/apollo-server-core/src/ApolloServer.ts:737-753 | after draining the server closes admission and calls every handler of `toDispose`, or stops with the error |
| `Lifecycle.ApolloServer.OnSignal` | packages/apollo-server-core/src/ApolloServer.ts:497-520 | the first signal stops the server, and later ones are ignored |
| `EventLoop.Loop.Handle` | packages/apollo-server-core/src/ApolloServer.ts:345-755 | a server object, with the calls in progress, takes every step that the model takes |
| `EventLoop.Loop.RunAll` | packages/apollo-server-core/src/ApolloServer.ts:345-755 | after any run of a new server object its handlers have begun once each and in order, operations were admitted only while it ran, the calls of `stop` have reported what they should, and its signal handler has exited or sent a signal again at most once |
| `HttpCaching.HitsWereSent` | packages/apollo-datasource-rest/src/HTTPCache.ts:36-75 | in every run a body served without asking the origin is one that the origin has sent before, in full, for that cache key |
| `HttpCaching.HitsUnderOverride` | packages/apollo-datasource-rest/src/HTTPCache.ts:62-75 | in every run an entry is served under its override only while its age is below it, so that the origin sent or confirmed its body less than that long ago |
| `HttpFreshness.HitsWereFresh` | packages/apollo-datasource-rest/src/HTTPCache.ts:62-75 | in every run an entry served without asking the origin was then younger than its override or, without one, good enough for the request by HTTP, and was served with the status and headers of its policy at that time |
| `HttpFreshness.AsksIff` | packages/apollo-datasource-rest/src/HTTPCache.ts:36-98 | in every run a fetch that has found an entry asks the origin, to revalidate it, if and only if it is not fresh in that sense; one that has found none asks |
| `HttpFreshness.KeepsIff` | packages/apollo-datasource-rest/src/HTTPCache.ts:76-146 | an answer of the origin is kept if and only if it may be and counts as fresh for more than no time, under the policy and the override of the exchange; the caller gets the answer, revalidated or as sent |
| `HttpFreshness.WriteEnds` | packages/apollo-datasource-rest/src/HTTPCache.ts:134-158 | a performed write stands under its key until its time; the fetch answers if the store has said so, and is rejected if that, or anything else it awaits, is |
| `HttpFreshness.AnswersAccounted` | packages/apollo-datasource-rest/src/HTTPCache.ts:36-158 | in every run whatever a fetch answers with was served from the store or is the answer to an exchange |
| `HttpFreshness.BeginsUnderKey` | packages/apollo-datasource-rest/src/HTTPCache.ts:36-38 | a fetch goes by the cache key it is given or, without one, by its URL |
| `HttpCaching.StoredCameFrom` | packages/apollo-datasource-rest/src/HTTPCache.ts:76-158 | in every run each entry in the store came from one exchange for its key: it has the policy made from that exchange's request and response, replacing the one revalidated, if any; the body that the origin sent or, if the answer was that nothing was modified, the body of the entry revalidated, which came from an earlier exchange; and the override that the call asked for, which is positive if there is one; and it was stored either beside an override and a status from 200 to 299, or in answer to a GET and storable |
| `HttpCaching.HitsCameFrom` | packages/apollo-datasource-rest/src/HTTPCache.ts:36-98 | the same holds of every entry that was served without asking the origin, of an exchange before |
| `HttpCaching.EntryLasts` | packages/apollo-datasource-rest/src/HTTPCache.ts:125-146 | while nothing else writes or drops its key, a fetch that reads the store finds an entry for exactly its time of freshness, its override or HTTP's in rounded seconds, and for twice as long with an ETag |
| `HttpCaching.HTTPCache.Resume` | packages/apollo-datasource-rest/src/HTTPCache.ts:38-82 | the segment after the read of the store serves the entry or asks the origin, as the model does |
| `HttpCaching.HTTPCache.StoreResponseAndReturnClone` | packages/apollo-datasource-rest/src/HTTPCache.ts:101-158 | the code with its early returns writes what the model does, or nothing |
| `HttpFetches.Fetches.Handle` | packages/apollo-datasource-rest/src/HTTPCache.ts:27-158 | concurrent fetches through the cache object take every step that the model takes, those after the origin's answer too |
| `HttpFetches.Fetches.Serve` | packages/apollo-datasource-rest/src/HTTPCache.ts:27-158 | after any run of the object from an empty store, every body it served without the origin was sent by the origin before and was fresh, every stored entry came from one exchange for its key, and every answer is accounted for |
| `HttpCaching.HeadersToObject` | packages/apollo-datasource-rest/src/HTTPCache.ts:180-186 | the object has exactly the headers' names, each with its value |
| `Prefixing.ViewsIndependent` | packages/apollo-server-caching/src/PrefixingKeyValueCache.ts:13-25 | two views of one store under incomparable prefixes answer every interleaved run as two stores would |
| `Prefixing.IndependentIff` | packages/apollo-server-caching/src/PrefixingKeyValueCache.ts:3-25 | views are independent in every run if and only if neither prefix is a prefix of the other |
| `Prefixing.FeaturesIndependent` | packages/apollo-datasource-rest/src/HTTPCache.ts:20-23 | persisted queries and HTTP responses are independent in one store |
| `Prefixing.PrefixingKeyValueCache.Set` | packages/apollo-server-caching/src/PrefixingKeyValueCache.ts:19-21 | sets the key in this view and changes no view under an incomparable prefix |
| `Prefixing.PrefixingKeyValueCache.Delete` | packages/apollo-server-caching/src/PrefixingKeyValueCache.ts:22-24 | deletes the key from this view and changes no view under an incomparable prefix |
| `Prefixing.PrefixingKeyValueCache.Get` | packages/apollo-server-caching/src/PrefixingKeyValueCache.ts:16-18 | finds what this view has under the key |
| `Memoising.SharingIff` | packages/apollo-datasource-rest/src/RESTDataSource.ts:270-280 | two requests share a promise if and only if both are GETs of one key with no request of another method for it between them |
| `Memoising.FetchesBounded` | packages/apollo-datasource-rest/src/RESTDataSource.ts:270-280 | in every run the GETs of a key that are performed number at most one more than its other requests |
| `Memoising.RESTDataSource.Fetch` | packages/apollo-datasource-rest/src/RESTDataSource.ts:270-280 | the code answers with the promise, and leaves the memo, of the model |

## Left out

- Codec.Encode: one table-driven method stands for the 28 generated `encode` functions, and `Codec.Decode` for the 28 `decode` functions; the tables are theirs line by line.
- RoundTrip.DecodeEncode: messages whose encoding reaches 2^32 bytes, whose lengths a 32-bit varint cannot hold. 64-bit fields are exact here; a JavaScript number is so only up to 2^53.
- Wire.ReadVarint: the source of the library that the generated code gets its `Reader` and `Writer` from is not part of this model; `Codec.Reader` and `Codec.Writer` do what the Encoding specification says, and take a varint of more than ten bytes for an error.
- Messages.Fits: a property that a message object only inherits is an absent one, as it is for `encode`; the empty arrays and objects that the constructors put into a decoded message are left away. Keys of an object are enumerated in the order its entries have here; JavaScript's own order of integer keys and the key `__proto__` are not modelled, nor arrays given as objects with a `toArray` method.
- UTF-8 coding and lone surrogates: texts are byte strings. The depth of the call stack.
- `verify`, `toObject`, `toJSON`, `create` and the delimited variants of the codec: mechanical.
- Pipeline.Step: hooks of one name are one call that returns or throws, not one call for each plugin; end hooks of parsing that run unawaited cannot throw into the request; `willResolveField` is not modelled. What the conversion and formatting of errors put into them is left to the functions given; that they may throw is modelled.
- GetRequests.GetExecutesOnlyQueries: a request of an HTTP run is one whose method the pipeline sees (`request.http.method`); that it is the method by which `processHTTPRequest` chose its payload (`runHttpQuery.ts:209-243`) is up to the integration.
- Batches, status and header merging of `processHTTPRequest`, the parsing of its payload, and `cachePolicy.ts`: short branch logic.
- Codec.DecodeEntry: unknown records inside a map entry, which `decode` reads by position and would misread.
- Lifecycle.ApolloServer.OnSchemaLoaded: the schema manager, the gateway and the schema itself; only whether they fail. The hooks of one kind inside the handler that calls all `serverWillStop` are one handler, and all drain callbacks begin: one that is not an async function and throws at once keeps the later ones from being called. `start` of serverless subclasses, which throws, is `_start` here.
- HttpCaching.HTTPCache.Resume: the serialised form of an entry, `statusText`, the URL that is erased from a stored policy, and reading a body twice.
- Fairness and liveness: every result is about what can or cannot happen; that what a call awaits does happen is not promised.
- The integrations with web frameworks, the Redis and Memcached caches, plugin installation, the operation registry and logging: no state of their own that these results depend on.
