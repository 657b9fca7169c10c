# invokerlib processing engine, modelled in Dafny

This project models the processing engine of invokerlib, a library for running stream
processors over Kafka topics, and proves properties of the model. A processor is initialized,
run and exited through a small lifecycle state machine. Its workers consume records from
consumer groups and hand them to user callbacks. Output records are routed to producers by
destination name. A join processor buffers record keys per worker and per time window in a
key/value state store. A cron advances a watermark and runs a windowed join once a window closes.

## Layout

There is one Dafny module per Go file of `pkg/`. Where two Go files share helpers they share
one module: `pkg/utils/id.go` and `pkg/utils/context.go` form `Utils`.

- `Base` holds the shared vocabulary:
  - bytes, `Option`, `Result` and one `Error` datatype for the Go sentinels
    (`ErrStateStoreKeyNotExist`, `ErrNotImplemented`, `ErrConsumerNotify`,
    `ErrProcessorTypeNotRecognized`), wrapped errors, library errors and panics;
  - `Enumerates(order, m)`, which states that `order` lists the keys of map `m` once each;
  - the constant `DefaultCatLimit`.
- `Encoding` holds the standard base64 alphabet and padding of section 4 of RFC 4648, UTF-8
  bytes of a string, and decimal formatting with its parse.
- `Models` holds the record type.
- `FunctionState`, `Watermark`, `Cron`, `JoinWorker`, `Core`, `Consumer`, `Worker`,
  `Producer` and `ProcessorUtils` model `pkg/core`.
- `StateStore`, `StateStoreWrapper`, `FreeCache`, `BigCache`, `Redis` and `Memcached` model
  `pkg/state`. `Cache` is the abstract backend they share.
- `Conf`, `ApiProcessor`, `ApiMonitor` and `Fctl` model `pkg/conf`, `pkg/api` and
  `pkg/fctl/utils.go`.

## Modelling choices

- Code that updates state in place is a class:
  - the function state, the watermark, the cron and the join worker;
  - the engine, the producer table and broker, and the consumer handler;
  - the error channel, the wait group and the worker-meta registry;
  - each state-store adapter and the store registry;
  - the loaded config and the monitor.
  Its methods state their whole new state. Pure code (ids, contexts, dispatch, derivation,
  matching, routing) is functions.
- The `StateStore` interface is represented by `StateStore.MapStore`. It holds a
  `StateStore.StoreView` (a map from keys to byte strings, the keys on which every operation
  fails, and whether `Keys` fails) and a log of mutating calls. The join engine, the join
  worker, `cat` and the wrapper work against it.
- Each adapter is a class over a `StoreView` that stands for its client library. `Cache`
  states the library replies once. Each adapter adds its own key encoding and error
  translation.
- Goroutines and channels become sequences of events, given as parameters:
  - the deliveries and notifications of a consume loop;
  - the results of successive `Consume` calls;
  - the ticks of the cron;
  - what each worker's error channel holds when `Run` checks it.
  A finite event sequence that ends without a stop event means the loop is still running.
- Go map iteration order, which is unspecified, is a parameter constrained by `Enumerates`.
- A Go panic is the value `Err(Panic(message))`. A caller that would wrap a returned error
  lets a panic pass unwrapped (`Base.Wrap`), up to the nearest `recover`. The source recovers
  panics in two kinds of place:
  - around the user callbacks (`pkg/core/worker.go:69`, `pkg/core/core.go:132`), where the
    panic becomes an error;
  - in the deferred function of the two HTTP handlers (`pkg/api/monitor.go:66-72`,
    `pkg/api/processor.go:43-49`), which reply with the panic as the failure, unwrapped.
- The clock, the ticker, the UUID, the redis ping outcomes and connection failures are
  parameters.
- The JSON encoding of a batch's key list is replaced by a lossless codec over `seq<string>`
  (`Encoding.EncodeKeys` / `Encoding.DecodeKeys`, round trip proved). Only the round trip is
  relied on.
- `pkg/api/processor.go` keeps its own store registry, separate from the one in
  `pkg/state/state_store.go`, so the model has two `StateStore.Registry` instances.
- Where the source has a bug recorded under Findings, the classes and loops use the corrected
  member and the as-written member stands beside it with a lemma exhibiting the bug. This
  applies to four places:
  - `Memcached.MemcachedStateStore.Delete` deletes the encoded key;
  - `ApiMonitor.Monitor.FailCreation` (and so `ApiMonitor.Monitor.CreateTopicsWith`) returns
    the creation error after a clean rollback;
  - `BigCache.BigCacheStateStore.Keys` calls `SetNext` before reading an entry;
  - `ApiMonitor.Monitor.InitializeProcessors` derives configs that carry their type.
  `Utils.WorkerId` reads its own key; `Utils.WorkerIndex` is kept as written.

## Where the design description and the code differ (the model follows the code)

- `Run` does not wait for ready signals. It checks each worker's error channel once, without
  blocking (`pkg/core/core.go:214-229`). `Core.Engine.Run` takes what each channel holds as input.
- For a join processor, `Run` calls the cron's `run` synchronously (`pkg/core/core.go:191`)
  instead of starting it in the background.
- `closeProducers` closes once per table entry: a shared connection is closed repeatedly and
  the default producer's connection is never closed (`pkg/core/producer.go:82-88`). It does
  not close each distinct connection exactly once.
- The join pass always deletes every batch id. A side's record keys are deleted only when
  that side's key lists were fetched (`pkg/core/cron.go:86-123`), not unconditionally.
- The join worker treats any `Get` error on the batch id as an empty list, not only a miss
  (`pkg/core/join_worker.go:35-39`).
- `PassToOutputTopic` and `PassToDefaultOutputTopic` discard the error of `produce`
  (`pkg/core/processor_utils.go:17-21, 34-38`).
- `cat` takes no limit. It always lists `DefaultCatLimit` keys per store
  (`pkg/api/processor.go:145-166`).
- `pkg/core`, `pkg/utils` and `pkg/api` do not compile as shown:
  - `Cron` and `asyncJoin` are declared twice;
  - `c.WindowSize` and `consumerConfig.TopicIndex` are missing fields;
  - `addWorkerMeta` is called at `pkg/core/worker.go:35` but defined nowhere;
  - `initProducers` reads a `c` that is not in its scope (`pkg/core/producer.go:35, 47`);
    `pkg/core` declares `c` only as locals of other functions (`pkg/core/core.go:58, 152`);
  - `pkg/utils/context.go:37` uses `consts.CTX_KEY_INVOKER_LIB_WORKER_TOPIC`, which
    `pkg/consts` does not define;
  - `pkg/api/processor_client.go:31, 38` call `logs.Printf`, but that file does not import
    `pkg/logs` (`pkg/api/processor_client.go:3-8`). Logging is not modelled, so
    `ApiMonitor.ClientInitialize` is unaffected.

  The model takes the `pkg/core/cron.go` variant of the join and gives the missing pieces
  their evident meaning:
  - a worker's topic index is a parameter of `Worker.Work`;
  - `addWorkerMeta` records the meta in `Worker.MetaRegistry`;
  - the cron gets its window size from its own constructor;
  - the `c` of `initProducers` is the loaded processor config, its parameter
    `Producer.Producers.InitProducers(cfg, …)`;
  - the missing worker-topic key is a context key of its own, `Utils.WorkerTopicKey`.

## Model

| member | source | states |
|---|---|---|
| ApiMonitor.MonitorRoutesAreExact | pkg/api/monitor.go:104-125 | exactly seven command names are handled, each by its own handler; the empty command is missing and every other name is unrecognized |
| ApiMonitor.MonitorReplyByRoute | pkg/api/monitor.go:64-101 | an empty command fails with "request command is missing"; an unrecognized one fails with its error wrapped as a handler error; a handled command answers with its handler's response or fails with the handler's error wrapped; a handler panic skips the wrap and is the failure itself, as the deferred `recover` of monitor.go:66-72 replies |
| ApiMonitor.Int32Of | pkg/api/monitor.go:272 | the `int32` conversion keeps the value modulo 2^32 within the signed 32-bit range, and leaves a value already in range unchanged |
| ApiMonitor.TryCreateOutcome | pkg/api/monitor.go:252-281 | `tryCreateTopic` succeeds iff listing works and the topic exists or is accepted; an existing topic is left as it is, whatever count is asked for; a new one gets the count cut to 32 bits; no other topic changes |
| ApiMonitor.InterimTopicRule | pkg/api/monitor.go:209-237 | for a validated root config the interim loop cannot crash and creates exactly one topic per processor whose default partition count is not 0, named after the processor, with that positive count; no two share a name |
| ApiMonitor.StepsOutcome | pkg/api/monitor.go:186-237 | a creation loop runs to the end iff no step crashes and every topic it creates exists or is accepted, with listing working; it never removes or alters a topic already on the cluster; when it runs to the end every topic of its steps is on the cluster and recorded |
| ApiMonitor.RemovalDeletesListed | pkg/api/monitor.go:283-295 | removal succeeds iff the recorded names are distinct, all on the cluster and none protected; it then removes exactly those topics, pre-existing ones included, and asks for each deletion once |
| ApiMonitor.RollbackError | pkg/api/monitor.go:188-196 | corrected rollback: a clean rollback reports the creation's error, and a failed one reports the removal's error |
| ApiMonitor.RollbackErrorAsWritten | pkg/api/monitor.go:191-196 | as written, the error returned is the removal's, since the inner `err` shadows the creation's |
| ApiMonitor.RollbackHidesCreationFailure | pkg/api/monitor.go:221-229 | as written, a failed creation with a clean rollback returns neither a response nor an error; the corrected rollback returns the creation's error |
| ApiMonitor.ResetDropsClients | pkg/api/monitor.go:240-245 | after the reset every processor of the config has an entry holding only its name, with no client, and other entries stay |
| ApiMonitor.FirstContainingIsFirst | pkg/api/monitor.go:320-325 | an endpoint is found for a name iff one contains it, and then it is the first such endpoint in request order |
| ApiMonitor.EndpointMatching | pkg/api/monitor.go:319-326 | after matching, the processors are unchanged as a set; a processor has a client iff it had one or some endpoint contains its name; a matched processor's client is for the first endpoint containing its name, whatever order the processors are visited in |
| ApiMonitor.EmptyNameMatchesFirstEndpoint | pkg/api/monitor.go:321 | an empty processor name matches the first endpoint, since every string contains the empty string |
| ApiMonitor.CallsSucceedIffAllSucceed | pkg/api/monitor.go:340-402 | forwarding `initialize` or `run` succeeds iff every processor visited has a client and its client returns a success, and then answers with an empty success |
| ApiMonitor.SendValidated | pkg/api/processor_client.go:29-46 | a derived config that passes validation is sent and the processor's answer returned; one that fails is reported as "validate config failed" with the validation error, and nothing is sent |
| ApiMonitor.ClientInitialize | pkg/api/processor_client.go:26-47 | as written: a derivation that panics propagates its panic; otherwise the derived config is validated before anything is sent |
| ApiMonitor.ClientInitializeTyped | pkg/api/processor_client.go:26-47 | the same client with the corrected derivation; a derivation that panics propagates its panic |
| ApiMonitor.ClientInitializeNeverSends | pkg/api/processor_client.go:26-33 | as written, a client never sends `initialize`: whatever the processor would answer, it fails, with the empty-type validation error whenever derivation succeeds (the empty-name error for an empty name) |
| ApiMonitor.InitializeProcessorsAlwaysFails | pkg/api/monitor.go:340-370 | as written, `initializeProcessors` fails for every monitor with at least one processor, whatever the processors would answer |
| ApiMonitor.TypedInitializeForwards | pkg/api/monitor.go:350-366 | with the corrected derivation and a validated root config naming every processor, forwarding `initialize` gives exactly what forwarding the processors' own answers gives |
| ApiMonitor.TypedReplyIsSent | pkg/api/processor_client.go:26-47 | with the corrected derivation, a processor named in a validated root config (with a Kafka address) gets exactly its own answer back from its client |
| ApiMonitor.Admin.constructor | pkg/api/monitor.go:173-177 | a connected admin client sees the cluster's topics and has been asked for no deletion |
| ApiMonitor.Admin.ListTopics | pkg/api/monitor.go:259 | lists exactly the cluster's topics, or fails |
| ApiMonitor.Admin.CreateTopic | pkg/api/monitor.go:271-274 | creates a new, accepted topic with the given count; fails, changing nothing, for an existing or rejected one |
| ApiMonitor.Admin.DeleteTopic | pkg/api/monitor.go:285 | records the request; removes the topic unless it is protected or absent, in which case it fails and changes nothing |
| ApiMonitor.Monitor.constructor | pkg/api/monitor.go:45-53 | the monitor starts with an empty root config, no admin client, no recorded topics and no processor metadata |
| ApiMonitor.Monitor.LoadRootConfig | pkg/api/monitor.go:127-155 | without params, fails and keeps the stored config; otherwise the params are decoded into the stored config, which becomes whatever the decoding leaves (partly written on a decode error, which is returned wrapped); a decoded config is stored even when it then fails validation; the command succeeds iff that config is well formed, and otherwise returns the validator's error |
| ApiMonitor.Monitor.TryCreateTopic | pkg/api/monitor.go:252-281 | without an admin client, fails; otherwise does exactly what `TryCreate` says to the cluster and asks for no deletion |
| ApiMonitor.Monitor.CreateEach | pkg/api/monitor.go:186-237 | a creation loop leaves the cluster and ends as `RunSteps` says, and appends the topics it made sure of to the initial or the interim list |
| ApiMonitor.Monitor.CreateStep | pkg/api/monitor.go:187-203 | one creation does what `TryCreate` says and records the topic iff it succeeds |
| ApiMonitor.Monitor.RemoveTopics | pkg/api/monitor.go:283-295 | deletes the recorded initial topics, then the interim ones, in order, stopping at the first failure, exactly as `DeleteRun` says; the records stay |
| ApiMonitor.Monitor.FailCreation | pkg/api/monitor.go:186-230 | a missing output config panics and deletes nothing; a failed creation removes every recorded topic and reports `RollbackError` |
| ApiMonitor.Monitor.ResetProcessorMetadata | pkg/api/monitor.go:240-245 | the metadata becomes exactly `ResetMetadata` of the old metadata |
| ApiMonitor.Monitor.CreateTopicsWith | pkg/api/monitor.go:184-249 | the initial topics are created and recorded, then the interim ones only if that loop ran to the end; the command succeeds iff both loops do, and only then resets the metadata; a crash panics without deleting; a failed creation rolls back every recorded topic and reports `RollbackError` |
| ApiMonitor.Monitor.CreateTopics | pkg/api/monitor.go:157-250 | a stored config without a global Kafka config panics and changes nothing; a failed connection returns the wrapped error and leaves no admin client; otherwise the connected client is kept and the loops run as `CreateTopicsWith` states |
| ApiMonitor.Monitor.FindEndpoint | pkg/api/monitor.go:320-325 | the inner loop finds exactly the first endpoint containing the name |
| ApiMonitor.Monitor.LoadProcessorEndpoints | pkg/api/monitor.go:297-338 | without params, or with params that fail to decode, fails and changes nothing; otherwise every processor is matched as `WithEndpoints` says and stays matched, and the command succeeds iff every processor has a client, failing otherwise with a processor that has none |
| ApiMonitor.Monitor.MatchEndpoints | pkg/api/monitor.go:319-326 | the matching loop leaves exactly `WithEndpoints` of the old metadata |
| ApiMonitor.Monitor.CheckClients | pkg/api/monitor.go:328-334 | succeeds iff every processor has a client, and otherwise fails naming a processor that has none |
| ApiMonitor.Monitor.CallProcessors | pkg/api/monitor.go:340-402 | forwarding returns exactly `CallsFrom` in visiting order: the first processor with no client or no successful answer ends it with its error, wrapped unless it is a panic |
| ApiMonitor.Monitor.InitializeProcessors | pkg/api/monitor.go:340-370 | forwards `initialize` through clients that use the corrected derivation: the result is `CallsFrom` over their replies |
| ApiMonitor.Monitor.CatProcessorLookup | pkg/api/monitor.go:496-527 | `catProcessor` succeeds iff the name decodes to a known processor with a client that answers with a success, and then passes on that answer's message; an unknown name fails with its own error; only that processor's answer is read |
| ApiProcessor.RoutesAreExact | pkg/api/processor.go:67-89 | exactly four command names are handled, each by its own handler; the empty command is missing; every other name, `exit` included, is unrecognized |
| ApiProcessor.HandleInitialize | pkg/api/processor.go:96-112 | succeeds with an empty response iff the params decode and `core.Initialize` succeeds; a decoding failure comes first, and each failure is wrapped with its own prefix (a panic from `core.Initialize` passes through unwrapped) |
| ApiProcessor.HandleRun | pkg/api/processor.go:114-123 | succeeds with an empty response iff `core.Run` does; its error is wrapped with "Run failed", and a panic in it passes through unwrapped |
| ApiProcessor.HandleCat | pkg/api/processor.go:125-143 | succeeds iff `cat` does, with the listing as its message; its error is wrapped with "cat failed", and a panic passes through unwrapped |
| ApiProcessor.ReplyByRoute | pkg/api/processor.go:34-94 | `ping` always answers "pong"; an empty or unrecognized command, `exit` included, fails with its own error; `run` and `cat` succeed exactly when their handler does, and a handler failure is wrapped once more, except a panic, which the deferred `recover` replies with as it is; `initialize` succeeds iff decoding and `core.Initialize` do |
| ApiProcessor.ReplyReadsOnlyRoutedHandler | pkg/api/processor.go:74-93 | the reply to a command depends only on the outcome of the handler it is routed to |
| ApiProcessor.EntriesAreTheKeys | pkg/api/processor.go:155-164 | a store's entry list succeeds iff every listed key's `Get` does, and then pairs every key, in order, with its value; otherwise it fails with the error of the first key whose `Get` fails |
| ApiProcessor.CatFailsAtFirstStore | pkg/api/processor.go:149-166 | `cat` succeeds iff every store's listing does; otherwise it fails with the error of the first store visited whose listing fails |
| ApiProcessor.CatListsEveryStore | pkg/api/processor.go:148-167 | a successful `cat` holds one entry per visited store, that store's listing, and keeps what it started with |
| ApiProcessor.CatHasOneEntryPerStore | pkg/api/processor.go:145-170 | a successful `cat` over the registry, whatever the visiting order, has exactly the registered store names as keys, each with its own listing |
| ApiProcessor.StoreListingOfValidStore | pkg/api/processor.go:146-165 | on a well-formed store, a listing holds its first `DefaultCatLimit` keys in listing order, each with its value, and fails only when `Keys` fails or one of those keys fails |
| ApiProcessor.Cat | pkg/api/processor.go:145-168 | the loops over the registry return exactly `CatFrom` from an empty response |
| ApiProcessor.CatEntries | pkg/api/processor.go:154-164 | the inner loop returns exactly the entry list of the listed keys |
| BigCache.BigGet | pkg/state/big_cache_state_store.go:55-63 | found iff the store holds the key, with its value; entry-not-found becomes the contract's miss and every other error is wrapped |
| BigCache.BigDelete | pkg/state/big_cache_state_store.go:76-81 | the key is deleted; it fails iff the library fails or the key is absent, so deleting an absent key fails where the contract's delete does not |
| BigCache.BigKeys | pkg/state/big_cache_state_store.go:83-106 | as written: succeeds, with no keys, iff the cache is empty or no entry is asked for; otherwise it fails with `ErrInvalidIteratorState`, because the first entry is read before `SetNext` |
| BigCache.BigKeysFailsOnEntries | pkg/state/big_cache_state_store.go:94-99 | as written, every non-empty cache fails `Keys` for every non-negative limit, where the contract lists at least one key |
| BigCache.BigKeysSetNextFirst | pkg/state/big_cache_state_store.go:83-106 | with `SetNext` called before each read, `Keys` never fails and lists nothing for an empty cache |
| BigCache.BigKeysSetNextFirstConforms | pkg/state/big_cache_state_store.go:83-106 | with `SetNext` first, on a well-formed store whose listing does not fail, the adapter's listing is the state-store contract's `Keys`: up to `limit` keys (all when the limit is 0) in iteration order |
| BigCache.BigCacheStateStore.constructor | pkg/state/big_cache_state_store.go:17-53 | a new store is empty and well formed |
| BigCache.BigCacheStateStore.Get | pkg/state/big_cache_state_store.go:55-63 | returns `BigGet` of the current cache |
| BigCache.BigCacheStateStore.Put | pkg/state/big_cache_state_store.go:65-70 | the cache becomes the contract's put with no expiry; fails iff the library fails on that key |
| BigCache.BigCacheStateStore.PutWithExpireTime | pkg/state/big_cache_state_store.go:72-74 | always the not-implemented panic |
| BigCache.BigCacheStateStore.Delete | pkg/state/big_cache_state_store.go:76-81 | the new cache and the error are `BigDelete`'s |
| BigCache.BigCacheStateStore.Keys | pkg/state/big_cache_state_store.go:83-106 | the iterator loop, with `SetNext` before each read, returns `BigKeysSetNextFirst`: it stops when the iterator runs out or after `limit` keys |
| Conf.ProcessorError | pkg/conf/conf.go:118-157 | one processor passes the first pass iff its name is non-empty and new, it has an entry point, its type is "process" with exactly one input or "join" with more than one, it has a positive worker count, and it has an output config whose default partitions are not negative; `ErrProcessorTypeNotRecognized` comes exactly when the name and entry point pass and the type is neither |
| Conf.ProcessorFieldsError | pkg/conf/conf.go:129-157 | the checks after the name pass iff the entry point, type and input count, worker count and output config are as required; the type error comes exactly for an unknown type after a non-empty entry point |
| Conf.WorkersAndOutputError | pkg/conf/conf.go:149-157 | passes iff the worker count is positive and an output config with non-negative default partitions is present; never reports the type error |
| Conf.ProcessorsError | pkg/conf/conf.go:117-158 | the first pass accepts iff every processor from `i` on is well shaped and its name is neither already seen nor used by an earlier processor |
| Conf.InputNamesError | pkg/conf/conf.go:162-169 | one processor's input names pass iff each is non-empty and names a declared processor |
| Conf.InputsError | pkg/conf/conf.go:160-170 | the second pass accepts iff every input processor name of every processor is non-empty and declared |
| Conf.KafkaConfigsError | pkg/conf/conf.go:174-181 | one processor's input Kafka configs pass iff each has an address and a topic |
| Conf.KafkaInputsError | pkg/conf/conf.go:172-182 | the third pass accepts iff every input Kafka config has an address and a topic |
| Conf.NamedOutputsError | pkg/conf/conf.go:186-197 | one processor's named outputs pass iff no name is a processor name and no name repeats |
| Conf.OutputNamesError | pkg/conf/conf.go:184-198 | the fourth pass accepts iff every processor's named outputs pass, each processor with its own set of seen names |
| Conf.InitialTopicsError | pkg/conf/conf.go:203-210 | the initial topics pass iff each has a name and a partition count other than zero |
| Conf.RedisConfigsError | pkg/conf/conf.go:213-225 | the redis configs pass iff names are non-empty and distinct and addresses are non-empty |
| Conf.MemcachedConfigsError | pkg/conf/conf.go:226-238 | the memcached configs pass iff names are non-empty and distinct and every address list is non-empty |
| Conf.RootConfigError | pkg/conf/conf.go:113-242 | `RootConfig.Validate` accepts exactly the configs meeting every rule, stated without order: at least one processor, each well shaped with a unique name, declared input processors, complete input Kafka configs, named outputs clear of processor names and of each other, a global Kafka config with valid initial topics, and valid store configs when present; an empty processor list gives "no processor is specified in config" |
| Conf.FirstProcessorErrorWins | pkg/conf/conf.go:118-147 | the first processor's unrecognized type is the error reported, whatever else is wrong later in the config |
| Conf.Validate | pkg/conf/conf.go:113-242 | the validator's loops and name sets return exactly `RootConfigError` |
| Conf.CheckProcessors | pkg/conf/conf.go:117-158 | the first loop returns exactly the first pass's result and, on success, has collected every processor name |
| Conf.CheckProcessor | pkg/conf/conf.go:119-157 | one iteration of the first loop returns exactly `ProcessorError` |
| Conf.CheckProcessorFields | pkg/conf/conf.go:129-157 | the checks after the name return exactly `ProcessorFieldsError` |
| Conf.CheckWorkersAndOutput | pkg/conf/conf.go:149-157 | the last checks of the first loop return exactly `WorkersAndOutputError` |
| Conf.CheckInputProcessors | pkg/conf/conf.go:160-170 | the second loop returns exactly the second pass's result |
| Conf.CheckInputKafkaConfigs | pkg/conf/conf.go:172-182 | the third loop returns exactly the third pass's result |
| Conf.CheckOutputKafkaConfigs | pkg/conf/conf.go:184-198 | the fourth loop returns exactly the fourth pass's result |
| Conf.CheckStoreConfigs | pkg/conf/conf.go:212-239 | the store loops report the redis pass's error if any, otherwise the memcached pass's |
| Conf.ProcessorConsumers | pkg/conf/conf.go:274-281 | one consumer config per input processor, in order, on the global Kafka address with that processor's name as topic and the processor's worker count |
| Conf.KafkaConsumers | pkg/conf/conf.go:282-289 | one consumer config per input Kafka config, in order, with its address and topic and the processor's worker count |
| Conf.ProcessorOutputs | pkg/conf/conf.go:299-305 | the output map holds exactly the output processors, each mapped to a topic of its own name on the global address |
| Conf.OutputNamesOfPrefix | pkg/conf/conf.go:306-313 | the names of the named outputs grow by the last one's name |
| Conf.NamedOutputsDomain | pkg/conf/conf.go:306-313 | after writing the named outputs, the map holds the earlier keys plus the output names, and keys no named output uses keep their value |
| Conf.NamedOutputsOverride | pkg/conf/conf.go:299-313 | a named output overrides a processor output of the same name, and the last of several named outputs with one name wins |
| Conf.ApplyProcessor | pkg/conf/conf.go:273-314 | applying a matching processor panics with a nil dereference iff it has no output config; otherwise it keeps the name, type and global configs and sets an output map |
| Conf.DeriveFrom | pkg/conf/conf.go:268-315 | the scan over processors keeps the name, type and global configs of the config it starts from |
| Conf.NewInternalProcessorConfig | pkg/conf/conf.go:260-317 | a root config without a global Kafka config panics; the derived config has the requested name and no type |
| Conf.DeriveSkips | pkg/conf/conf.go:269-271 | processors with other names do not change the derived config |
| Conf.DeriveUnique | pkg/conf/conf.go:260-317 | when exactly one processor has the name, the derived config holds that processor's consumers, input processors first, a default output on the global address iff its default topic has partitions, and its output map |
| Conf.DeriveUnknownName | pkg/conf/conf.go:260-317 | a name no processor has gives a config with no consumers, no default output and no output map |
| Conf.ValidatedProcessorDerives | pkg/conf/conf.go:113-317 | for a processor of a validated root config with a non-empty global address, derivation succeeds with one consumer per input, at least one, and each consumer has an address, a topic and a positive worker count |
| Conf.NewInternalProcessorConfigOf | pkg/conf/conf.go:260-317 | the loops return exactly `NewInternalProcessorConfig` |
| Conf.ConsumerConfigsFor | pkg/conf/conf.go:273-290 | the consumer loops append the input-processor consumers, then the input-Kafka consumers |
| Conf.OutputMapFor | pkg/conf/conf.go:299-314 | the output loops build the processor outputs, then write the named Kafka outputs over them |
| Conf.ConsumerConfigsError | pkg/conf/conf.go:332-342 | the consumer configs pass iff each has an address, a topic and a positive worker count |
| Conf.InternalValidate | pkg/conf/conf.go:319-347 | `InternalProcessorConfig.Validate` accepts iff the name and type are non-empty, the global Kafka config is present, and there is at least one consumer config and all pass; a failure changes nothing; a success always leaves an output map, replacing a missing one by an empty one |
| Conf.InternalValidateIdempotent | pkg/conf/conf.go:319-347 | validating a validated config again gives the same config and the same result |
| Conf.DerivedConfigFailsValidation | pkg/conf/conf.go:260-265 | a config straight from `NewInternalProcessorConfig` never validates, because the type is not set: the error is the empty-name one or the empty-type one |
| Conf.TypeOfUniqueName | pkg/conf/conf.go:268-271 | when no other processor shares a processor's name, the type found under that name is that processor's |
| Conf.NewTypedProcessorConfig | pkg/conf/conf.go:260-317 | the corrected derivation succeeds exactly when the written one does and keeps the requested name; it also carries the processor's type |
| Conf.TypedDerivationValidates | pkg/conf/conf.go:260-347 | with the type carried, every processor of a validated root config whose Kafka address is given derives a config of its own type that passes `InternalProcessorConfig.Validate` |
| Conf.RegisterKeepsLast | pkg/conf/conf.go:383-388 | registering store configs by name adds exactly their names; each name maps to the last config with that name; other entries stay |
| Conf.RegisteredByName | pkg/conf/conf.go:368-388 | after loading store configs with distinct names, each name looks up its own config |
| Conf.ConfigState.constructor | pkg/conf/conf.go:355-359 | no config is loaded and both store tables are empty |
| Conf.ConfigState.Config | pkg/conf/conf.go:361-366 | panics with `ErrConfigNotInitialized` before a config is loaded, and otherwise returns it |
| Conf.ConfigState.GetRedisConfigByName | pkg/conf/conf.go:368-370 | finds a config iff the name is registered, and returns the registered one |
| Conf.ConfigState.GetMemcachedConfigByName | pkg/conf/conf.go:372-374 | finds a config iff the name is registered, and returns the registered one |
| Conf.ConfigState.LoadConfig | pkg/conf/conf.go:376-391 | a config that fails validation yields the wrapped error and changes nothing; otherwise the normalised config is installed and its store configs are registered by name over the earlier entries |
| Consumer.MarkedArePrefix | pkg/core/consumer.go:65-78 | the marked messages are a prefix of the delivered ones, in delivery order, and `consume` accepted each of them |
| Consumer.ClaimEndsAtFirstStop | pkg/core/consumer.go:65-84 | the claim keeps waiting iff no event ends it; otherwise it returns what the first ending event dictates (nil for a closed channel, `ErrConsumerNotify` for "exit", the consume error for a failed message), having marked exactly the messages delivered before that event |
| Consumer.OtherNotifyIgnored | pkg/core/consumer.go:79-82 | a notification other than "exit" changes nothing: removing it gives the same claim |
| Consumer.Handler.constructor | pkg/core/consumer.go:87-97 | keeps the two callbacks; the ready channel is still open and nothing is marked |
| Consumer.Handler.Setup | pkg/core/consumer.go:40-53 | the ready channel is closed exactly once however often it is called; returns the setup callback's result, or nil without one; marks nothing |
| Consumer.Handler.Cleanup | pkg/core/consumer.go:55-58 | always nil |
| Consumer.Handler.ConsumeClaim | pkg/core/consumer.go:60-85 | the loop marks exactly what `ClaimRun` marks, after what was marked before, and ends as it says; the ready signal is untouched |
| Consumer.ConsumerGroups.constructor | pkg/core/consumer.go:11 | no group and no close |
| Consumer.ConsumerGroups.InitConsumer | pkg/core/consumer.go:13-17 | starts an empty group list and returns nil |
| Consumer.ConsumerGroups.Add | pkg/core/worker.go:62 | appends the worker's group to the list |
| Consumer.ConsumerGroups.CloseConsumerGroup | pkg/core/consumer.go:99-103 | closes every group in the list once, in list order |
| Core.DoOnInit | pkg/core/core.go:130-138 | reports nil exactly when `OnInit` completed without error; passes on its error and turns a panic into an error |
| Core.CallbacksError | pkg/core/core.go:73-94 | the callbacks are accepted iff they are given and the processor type is "process" with a `Process` callback or "join" with a `Join` callback; given callbacks of any other type give `ErrProcessorTypeNotRecognized` |
| Core.ConfigWorkers | pkg/core/core.go:161-176 | one config starts exactly `n` workers |
| Core.WorkersOfNext | pkg/core/core.go:160-177 | each further consumer config adds its own workers after those of the configs before it |
| Core.StartsTotalWorkers | pkg/core/core.go:153-161 | when every config has a positive worker count, `Run` starts exactly `workerTotalCount` workers, so the start-up check looks at every worker |
| Core.ConfigWorkerAt | pkg/core/core.go:161-162 | worker `i` of a config gets index `i` and the uuid drawn at its position |
| Core.WorkerUuid | pkg/core/core.go:160-162 | the k-th worker started, across configs, draws the k-th uuid |
| Core.StartedWorkerIds | pkg/core/core.go:162 | every started worker runs with the worker id built from its index, the processor name, its topic and its uuid |
| Core.FirstStartupFailure | pkg/core/core.go:214-229 | names the first channel among the first `workerTotalCount` that has something to receive, and every channel before it is silent; none iff all of them are silent |
| Core.StartWorkers | pkg/core/core.go:160-177 | the nested loops start exactly the workers `WorkersOf` lists, config by config and index by index |
| Core.SumWorkers | pkg/core/core.go:153-156 | the counting loop computes the sum of the configs' worker counts |
| Core.StartConfigWorkers | pkg/core/core.go:161-176 | the inner loop starts exactly the config's workers, in index order |
| Core.NotifyAll | pkg/core/core.go:251-253 | "exit" is sent once on each notify channel, in order |
| Core.ExitOrder | pkg/core/core.go:242-275 | `Exit` notifies every worker, once each and before anything is closed; the consumer groups close before the producers; `OnExit` runs iff there is one, after both; the commit to Exited comes last |
| Core.Engine.constructor | pkg/core/core.go:18-38 | a fresh engine is in state Created, with no callbacks, no workers and nothing done |
| Core.Engine.Initialize | pkg/core/core.go:40-128 | a refused transition leaves everything as it was and returns the wrapped error; otherwise the transition is always released, the state becomes Initialized iff no error is returned, an invalid config is returned as is, a config that loads resets workers and metas, bad callbacks are returned and not kept, an unreachable output broker or a failing `OnInit` yields an error, and with none of these the call succeeds |
| Core.Engine.InitializeSteps | pkg/core/core.go:49-127 | the checks of `Initialize` in the source's order, with the same outcomes, while the transition is still held |
| Core.Engine.InitializeServices | pkg/core/core.go:97-127 | an unreachable output broker or a failing `OnInit` yields an error; otherwise the state is committed to Initialized; no consumer group is created |
| Core.Engine.Run | pkg/core/core.go:140-240 | a refused transition changes nothing; with no loaded config the call panics and releases the transition; a join processor whose state store cannot be created returns that error; otherwise exactly the configured workers are started, and then either every channel is silent and the state is Running, or the first reporting worker's error is returned after a full `Exit` |
| Core.Engine.RunSteps | pkg/core/core.go:152-239 | the body of `Run` after its transition, with the same outcomes |
| Core.Engine.CheckStartups | pkg/core/core.go:214-229 | the non-blocking loop finds exactly `FirstStartupFailure` |
| Core.Engine.NotifyWorkers | pkg/core/core.go:251-253 | sends "exit" once on each started worker's channel and changes nothing else |
| Core.Engine.Exit | pkg/core/core.go:242-275 | a refused transition does nothing; otherwise the effects happen in `ExitEffects` order, every consumer group is closed once, every producer connection is closed in table order, and the state ends Exited with the transition released |
| Core.Engine.ExitSteps | pkg/core/core.go:250-274 | the body of `Exit` after its transition, with the same effects |
| Cron.AdvancedByShift | pkg/core/cron.go:48-50 | advancing from `t + step` is advancing from `t` with one more step, so each round of the catch-up loop counts as one advance |
| Cron.CatchUpCount | pkg/core/cron.go:48-50 | the catch-up loop makes the least number of advances after which `watermark + windowSize` is no longer before `now` |
| Cron.LaunchedWindowsAreConsecutive | pkg/core/cron.go:51-67 | the windows launched while serving ticks are consecutive, starting at the caught-up watermark, and the final watermark is one step past the last of them, so none is skipped or repeated |
| Cron.Cron.constructor | pkg/core/cron.go:27-38 | a new cron holds its watermark and window size, is available and has a running ticker |
| Cron.Cron.CatchUp | pkg/core/cron.go:48-50 | the watermark ends advanced exactly `CatchUpCount` times |
| Cron.Cron.OnTick | pkg/core/cron.go:59-65 | a tick after the window has closed advances the watermark by one step and launches a pass for the watermark read before the advance; any other tick changes nothing |
| Cron.Cron.Run | pkg/core/cron.go:40-68 | a cron that already ran panics and launches nothing; otherwise it catches up, then the ticks advance the watermark and launch exactly the passes `TickRun` lists, ending as the events say; whenever `run` returns, by a stop signal or the panic, the ticker is stopped and the cron is unavailable |
| Cron.PartitionIsExact | pkg/core/cron.go:74-85 | every worker's batch id for the window lands on exactly one side: the left for topic index 0, the right otherwise |
| Cron.PartitionBatchIds | pkg/core/cron.go:74-85 | the partition loop builds exactly the left and right batch-id lists, in registry order |
| Cron.FetchKeySets | pkg/core/cron.go:152-168 | fails iff some batch id's Get fails for a reason other than a missing key |
| Cron.FetchKeySetsReadsWrittenLists | pkg/core/cron.go:152-168 | when each batch id holds the encoded key list a join worker wrote, or is missing and contributes no keys, the key lists read back concatenated in batch-id order |
| Cron.FetchRecords | pkg/core/cron.go:170-184 | fails iff some key's Get fails for a reason other than a missing key; never returns more records than keys |
| Cron.FetchedRecordsAreStored | pkg/core/cron.go:170-184 | every fetched record holds a listed key and the value stored under it; when every key is present, the records are the keys in order, each with its value |
| Cron.FetchedRecordsHoldStoredValues | pkg/core/cron.go:172-181 | every fetched record holds a listed key and its stored value |
| Cron.FetchedRecordsFollowKeys | pkg/core/cron.go:172-181 | with every key present, one record per key, in key order |
| Cron.RightRecords | pkg/core/cron.go:132-142 | every right record joined holds a right key whose Get returned that value; a miss or failure skips the key |
| Cron.Row | pkg/core/cron.go:143-148 | one right record is paired with every left record, in left order |
| Cron.PairsLength | pkg/core/cron.go:132-149 | the join visits `rights × lefts` pairs |
| Cron.PairsOrder | pkg/core/cron.go:132-149 | pair number `i * |lefts| + j` joins left record `j` with right record `i`: the right side is the outer loop |
| Cron.PairsMembers | pkg/core/cron.go:132-149 | every visited pair joins one of the left records with one of the right records |
| Cron.UntilFirstFailure | pkg/core/cron.go:143-147 | the calls made are a prefix of the pairs in which only the last call may fail; the prefix is shorter than all the pairs only when its last call failed |
| Cron.UntilFirstFailureIs | pkg/core/cron.go:143-147 | a prefix whose only failing call is its last, or which is all the pairs with no failure, is exactly the calls made |
| Cron.RightRecordsPrefix | pkg/core/cron.go:132-142 | the right records of a prefix of the keys are a prefix of the right records |
| Cron.PairsPrefix | pkg/core/cron.go:132-149 | more right records extend the pair sequence at its end |
| Cron.NextRow | pkg/core/cron.go:132-149 | one more right key adds its row, or nothing when its Get does not succeed, at the end of the pairs |
| Cron.JoinRow | pkg/core/cron.go:143-148 | the inner loop calls the callback on a prefix of the row and stops right after the first failure; without a failure it calls every pair of the row |
| Cron.FailedRowEndsPass | pkg/core/cron.go:143-147 | a row whose callback failed ends the pass: the calls so far plus that row's calls are exactly the calls made |
| Cron.NoFailureAppend | pkg/core/cron.go:132-149 | two runs of calls without a failure make one run without a failure |
| Cron.JoinKey | pkg/core/cron.go:133-148 | one right key: a miss or failed Get makes no call; otherwise the callback runs on a prefix of that key's row, up to and including the first failure, or on the whole row |
| Cron.CallbackLoop | pkg/core/cron.go:132-149 | the join loop makes exactly the calls `UntilFirstFailure` gives on all (left, right) pairs, right side outer |
| Cron.DeleteCalls | pkg/core/cron.go:86-123 | one Delete call per key, in order |
| Cron.DeleteAllAppend | pkg/core/cron.go:86-123 | deleting two lists in a row is deleting their concatenation |
| Cron.DeleteAllRemoves | pkg/core/cron.go:86-123 | after cleanup every listed key whose delete does not fail is gone, every other key reads as before, and the failing keys are unchanged |
| Cron.DeleteEach | pkg/core/cron.go:87-96 | each key is deleted in order and a failed delete does not stop the loop; the store ends as `DeleteAll` says and logs one Delete per key |
| Cron.JoinPassGuarantees | pkg/core/cron.go:70-150 | every worker's batch id is deleted whatever happens; the left record keys are deleted iff the left key lists were fetched, and the right record keys iff the right ones were too, in defer order (right keys, left keys, batch ids); the callback runs only when both key lists and the left records were read; every call joins a stored left record with a right record whose Get returned it |
| Cron.AsyncJoin | pkg/core/cron.go:70-150 | running a pass makes exactly the calls of `JoinPassOf` and deletes exactly its keys, right record keys first, then left record keys, then the batch ids |
| Cron.DeleteBatchIds | pkg/core/cron.go:86-97 | the first deferred function deletes the left batch ids, then the right ones |
| Cron.Chain | pkg/core/cron.go:86-123 | two cleanups in a row have the effect and the log of one cleanup of both lists |
| Cron.DeleteCallsAppend | pkg/core/cron.go:86-123 | the Delete calls of two lists are those of their concatenation |
| Cron.ChainOfThree | pkg/core/cron.go:86-123 | three cleanups in a row have the effect and the log of one cleanup of the three lists |
| Cron.DeleteAllOfThree | pkg/core/cron.go:86-123 | three cleanups in a row leave the store as one cleanup of the three lists |
| Cron.DeleteCallsOfThree | pkg/core/cron.go:86-123 | three cleanups in a row log what one cleanup of the three lists logs |
| Cron.DeleteAllKeepsValid | pkg/core/cron.go:86-123 | cleanup keeps the store well formed |
| Cron.FetchTwo | pkg/core/cron.go:170-184 | illustration of `FetchRecords`: two stored keys read back as their two records, in order |
| Cron.TwoWorkerPartition | pkg/core/cron.go:74-85 | illustration of the partition: a left worker and a right worker give one batch id on each side |
| Cron.TwoByOne | pkg/core/cron.go:132-149 | illustration of the join loop: two left records against one right record, with no callback failure, give two calls in left order |
| Cron.ScenarioReads | pkg/core/cron.go:100-142 | in a store holding the lists ["a", "b"] and ["c"] and the three records, both key lists and all three records read back |
| Cron.ScenarioPass | pkg/core/cron.go:70-150 | that scenario's pass calls (a, c) then (b, c) and deletes "c", then "a" and "b", then both batch ids |
| Cron.JoinScenario | pkg/core/cron.go:70-150 | after that pass the store is well formed and none of the three keys or two batch ids is left |
| Encoding.Utf8 | pkg/utils/id.go:14 | `[]byte(s)`: every character takes one to four bytes |
| Encoding.Base64Encode | pkg/utils/id.go:14 | `base64.StdEncoding`: four characters for every three bytes, rounded up, all from the padded standard alphabet |
| Encoding.Base64HasNoDash | pkg/utils/id.go:14 | base64 text never holds the `-` that separates a batch id's parts |
| Encoding.IntToDecimal | pkg/utils/id.go:31 | `%v` of an integer: at least one character, starting with `-` iff the value is negative |
| Encoding.ParseIntToDecimal | pkg/utils/id.go:31 | the decimal text of an integer parses back to that integer |
| Encoding.IntToDecimalInjective | pkg/utils/id.go:31 | different integers never print the same |
| Encoding.DecodeEncodeKeys | pkg/core/join_worker.go:38-44 | a serialised key list decodes to the same list |
| Encoding.StoredKeysOfEncoded | pkg/core/cron.go:163-165 | a key list written to a store reads back as that list |
| Fctl.TrimSlashRemovesOne | pkg/fctl/utils.go:15 | `TrimSuffix(p, "/")` removes exactly one trailing slash: putting it back gives the component again, and a component without one is unchanged |
| Fctl.DoubleSlashKeepsOne | pkg/fctl/utils.go:15 | illustration of the trailing-slash trim: only one slash goes: "a//" becomes "a/" |
| Fctl.ConcatPath | pkg/fctl/utils.go:12-22 | the builder loop produces the trimmed components separated by single slashes |
| Fctl.JoinedSplits | pkg/fctl/utils.go:12-22 | the joined path splits at any component boundary into the two joined halves and one slash, so separators go exactly between neighbouring components |
| Fctl.JoinedLength | pkg/fctl/utils.go:12-22 | the joined path has the trimmed components' length plus exactly one separator fewer than there are components |
| Fctl.JoinedEnds | pkg/fctl/utils.go:12-22 | a single component is only trimmed; the last trimmed component ends the path, after a separator when there are several, and no separator follows it |
| Fctl.ProcessorEndpointName | pkg/fctl/utils.go:78-80 | the endpoint name has the processor name's length, with each character lower-cased |
| Fctl.EndpointNameIsLowerCase | pkg/fctl/utils.go:78-80 | an endpoint name has no upper-case ASCII letter, keeps every other character, and lower-casing it again changes nothing |
| FreeCache.FreeGet | pkg/state/free_cache_state_store.go:23-32 | found iff the store holds the key, with its value; the library's not-found becomes the contract's miss and every other error passes through |
| FreeCache.FreeKeysConforms | pkg/state/free_cache_state_store.go:47-63 | on a well-formed store, the adapter's listing is exactly what the state-store contract's `Keys` gives, for every limit |
| FreeCache.FreeDeleteIdempotent | pkg/state/free_cache_state_store.go:42-45 | deleting twice leaves the same store as deleting once, and the key then reads as a miss |
| FreeCache.FreeCacheStateStore.constructor | pkg/state/free_cache_state_store.go:15-21 | a new store is empty and well formed |
| FreeCache.FreeCacheStateStore.Get | pkg/state/free_cache_state_store.go:23-32 | returns `FreeGet` of the current cache and changes nothing |
| FreeCache.FreeCacheStateStore.Put | pkg/state/free_cache_state_store.go:34-36 | the cache becomes the contract's put with no expiry; fails iff the library fails on that key |
| FreeCache.FreeCacheStateStore.PutWithExpireTime | pkg/state/free_cache_state_store.go:38-40 | the cache becomes the contract's put with the given expiry; fails iff the library fails on that key |
| FreeCache.FreeCacheStateStore.Delete | pkg/state/free_cache_state_store.go:42-45 | the key is deleted and the library's reply is dropped, so it never fails |
| FreeCache.FreeCacheStateStore.Keys | pkg/state/free_cache_state_store.go:47-63 | the iterator loop returns the first `limit` keys in iteration order, or all entries when the limit is 0, and never fails |
| FunctionState.EdgesGoForward | pkg/core/function_state.go:25-42 | no edge of the table leads backwards, leaves Exited or re-enters Created; only Running and Paused share a rank |
| FunctionState.StartStep | pkg/core/function_state.go:95-115 | the state never changes; a held flag is an error and changes nothing; otherwise the flag is taken iff the target is a successor of the current state, and it is an error iff it is not |
| FunctionState.TransitStep | pkg/core/function_state.go:76-92 | succeeds iff the flag is held and the destination is a successor; then the state becomes the destination, otherwise it stays; the flag is never touched |
| FunctionState.ResetStep | pkg/core/function_state.go:117-119 | clears the flag and keeps the state |
| FunctionState.ExitedIsAbsorbing | pkg/core/function_state.go:41 | no sequence of calls leaves Exited |
| FunctionState.LifecycleIsMonotone | pkg/core/function_state.go:25-42 | whatever calls are made, the lifecycle never goes back |
| FunctionState.StartCommitReset | pkg/core/function_state.go:76-119 | after a successful start to a target, the commit to it succeeds and the reset leaves the machine in the target with the flag free |
| FunctionState.FunctionState.constructor | pkg/core/function_state.go:44-51 | starts in Created with the flag free |
| FunctionState.FunctionState.GetState | pkg/core/function_state.go:53-58 | returns the state and the flag, changing nothing |
| FunctionState.FunctionState.TransitTo | pkg/core/function_state.go:76-92 | the edge-list scan leaves the object exactly as `TransitStep` says and returns its error |
| FunctionState.FunctionState.StartTransition | pkg/core/function_state.go:95-115 | the table scan leaves the object exactly as `StartStep` says; a reset function is returned iff there is no error |
| FunctionState.FunctionState.ResetTransition | pkg/core/function_state.go:117-119 | the object becomes `ResetStep` of what it was |
| JoinWorker.BatchKeys | pkg/core/join_worker.go:35-39 | any failed Get of the batch id, not only a miss, reads as the empty list; otherwise the stored list |
| JoinWorker.ProcessStepSpec | pkg/core/join_worker.go:27-49 | a record before the watermark is dropped and a context without a worker id panics, both leaving the store unchanged; otherwise the record is stored with the expiry and the batch list gains its key at the end, duplicates kept; a failed record put leaves the list unwritten; no other key changes |
| JoinWorker.BatchListCollectsKeys | pkg/core/join_worker.go:34-47 | on a store that does not fail, after a worker processed records in one window, the batch's key list reads back as the records' keys in arrival order |
| JoinWorker.JoinWorker.constructor | pkg/core/join_worker.go:19-25 | records the watermark, the store and the expiry |
| JoinWorker.JoinWorker.ProcessCallback | pkg/core/join_worker.go:27-49 | the store afterwards and the error are `ProcessStep`'s for the watermark read at entry, and the store received exactly the record put and, if that succeeded, the list put |
| Memcached.Int32 | pkg/state/memcached_state_store.go:51 | `int32(x)`: a signed 32-bit value congruent to `x` modulo 2^32, equal to `x` when `x` fits |
| Memcached.ServerKeyDiffers | pkg/state/memcached_state_store.go:31 | a non-empty key never equals the base64 key the server sees |
| Memcached.MemcachedGet | pkg/state/memcached_state_store.go:30-40 | found iff the server holds the base64 key, with its value; a cache miss becomes the contract's miss and other errors are wrapped |
| Memcached.MemcachedSet | pkg/state/memcached_state_store.go:46-58 | the server stores the value under the base64 key with the expiry cut to 32 bits; fails iff the server fails on that key |
| Memcached.MemcachedDelete | pkg/state/memcached_state_store.go:60-66 | as written: deletes the raw key, and a cache miss counts as success |
| Memcached.MemcachedDeleteEncoded | pkg/state/memcached_state_store.go:60-66 | as intended: deletes the base64 key that `Get` and `Put` use |
| Memcached.DeleteLeavesValue | pkg/state/memcached_state_store.go:60-66 | as written, a value put under a non-empty key is still read back after a successful delete of that key |
| Memcached.EncodedDeleteRemovesValue | pkg/state/memcached_state_store.go:60-66 | the corrected delete removes what the put stored: the key then reads as a miss |
| Memcached.MemcachedStateStore.constructor | pkg/state/memcached_state_store.go:24-26 | the store wraps the connected client |
| Memcached.MemcachedStateStore.Get | pkg/state/memcached_state_store.go:30-40 | returns `MemcachedGet` of the server |
| Memcached.MemcachedStateStore.Put | pkg/state/memcached_state_store.go:42-44 | `PutWithExpireTime` with no expiry |
| Memcached.MemcachedStateStore.PutWithExpireTime | pkg/state/memcached_state_store.go:46-58 | the new server state and the error are `MemcachedSet`'s |
| Memcached.MemcachedStateStore.Delete | pkg/state/memcached_state_store.go:60-66 | the corrected delete: the new server state and the error are `MemcachedDeleteEncoded`'s |
| Memcached.MemcachedStateStore.Keys | pkg/state/memcached_state_store.go:68-70 | always `ErrNotImplemented` |
| Memcached.NewMemcachedStateStore | pkg/state/memcached_state_store.go:18-28 | an unknown name dereferences a nil config and panics; a failed ping is returned; otherwise the store wraps the client |
| Producer.Broker.constructor | pkg/core/producer.go:32-33 | a broker with no connection, no close and an empty outbox |
| Producer.Broker.Connect | pkg/core/producer.go:36-50 | `sarama.NewSyncProducer` on one address: fails on an unreachable address and opens nothing; otherwise opens the next connection, to that address |
| Producer.Broker.Close | pkg/core/producer.go:85 | records one close of the connection |
| Producer.Broker.Send | pkg/core/producer.go:17 | the message reaches the outbox iff the connection accepts sends; otherwise an error |
| Producer.TopicOwners | pkg/core/producer.go:47-62 | each output topic is owned by an output with that topic, and every topic of a visited output has an owner: the last one visited |
| Producer.ConnectionsAreDistinct | pkg/core/producer.go:30-55 | connections numbered by address go to distinct addresses |
| Producer.FilledStep | pkg/core/producer.go:47-62 | one visit of the output loop: the address gets a connection if it has none, and the topic's entry is reassigned to it |
| Producer.FilledIsTable | pkg/core/producer.go:47-62 | once every output is visited, the table is one entry per topic, held by its last output, on a connection to that output's address, with one connection per distinct address |
| Producer.Producers.constructor | pkg/core/producer.go:21-24 | no default producer and an empty table |
| Producer.Producers.InitProducers | pkg/core/producer.go:26-65 | empties the table first; fails iff some address it needs is unreachable; a default output gets a connection of its own, opened first; the table is as `FilledIsTable` says; nothing is closed or sent |
| Producer.Producers.FillTable | pkg/core/producer.go:46-62 | the output loop fails iff some visited address is unreachable, opens one connection per distinct address, and fills the table by topic |
| Producer.Producers.DefaultProducer | pkg/core/producer.go:67-72 | fails iff there is no default producer, and otherwise returns it |
| Producer.Producers.GetProducer | pkg/core/producer.go:74-80 | fails iff the topic has no entry, and otherwise returns that entry |
| Producer.Producers.CloseProducers | pkg/core/producer.go:82-88 | one close per table entry, of that entry's connection, and nothing else: the default producer's connection is not closed |
| Producer.ClosesPerEntry | pkg/core/producer.go:82-88 | a connection is closed as often as there are table entries using it: a shared one repeatedly, an unused one never |
| Producer.Produce | pkg/core/producer.go:15-19 | the message goes out on the producer's topic, whatever the caller gave, unless the connection rejects it, and then the error is returned |
| ProcessorUtils.RouteOf | pkg/core/processor_utils.go:24-33 | a named route succeeds iff the config is loaded, the name is an output and a producer serves that output's topic, and then it is that topic's producer; no config is a nil dereference |
| ProcessorUtils.RoutesAfterInit | pkg/core/processor_utils.go:30 | once producers are set up for a config, every output name routes to the producer of its topic, whose connection is that of the last output with the same topic, which may not be the name's own address |
| ProcessorUtils.PassToDefaultOutputTopic | pkg/core/processor_utils.go:12-22 | fails iff there is no default producer; otherwise the record goes out on the default topic unless the connection rejects it, and the failed send is not reported |
| ProcessorUtils.PassToOutputTopic | pkg/core/processor_utils.go:24-39 | fails with `RouteOf`'s error and sends nothing when the route fails; otherwise succeeds, and the record goes out on the route's topic unless the connection rejects it |
| Redis.FirstGoodPing | pkg/state/redis_state_store.go:26-33 | the first successful ping among the first attempts, with every earlier ping failed; none iff all of those pings fail |
| Redis.RedisGet | pkg/state/redis_state_store.go:42-51 | found iff the server holds the key, with its value; `redis.Nil` becomes the contract's miss and other errors are wrapped |
| Redis.RedisKeys | pkg/state/redis_state_store.go:71-80 | fails iff the server's KEYS fails; otherwise a prefix of the server's listing of at most 1000 keys, and the whole listing when it is no longer |
| Redis.RedisKeysIsWholeListing | pkg/state/redis_state_store.go:71-80 | for a server with at most 1000 keys, `Keys` with any limit is the contract's `Keys(0)` |
| Redis.RedisDelete | pkg/state/redis_state_store.go:64-69 | the contract's delete, which succeeds on an absent key; fails iff the server fails on the key, and then nothing changes |
| Redis.RedisStateStore.constructor | pkg/state/redis_state_store.go:37-39 | the store wraps the connected client |
| Redis.RedisStateStore.Get | pkg/state/redis_state_store.go:42-51 | returns `RedisGet` of the server |
| Redis.RedisStateStore.Put | pkg/state/redis_state_store.go:53-55 | `PutWithExpireTime` with no expiry |
| Redis.RedisStateStore.PutWithExpireTime | pkg/state/redis_state_store.go:57-62 | the server becomes the contract's put with the given expiry; fails iff the server fails on that key |
| Redis.RedisStateStore.Delete | pkg/state/redis_state_store.go:64-69 | the new server state and the error are `RedisDelete`'s |
| Redis.RedisStateStore.Keys | pkg/state/redis_state_store.go:71-80 | returns `RedisKeys`, whatever the limit |
| Redis.NewRedisStateStore | pkg/state/redis_state_store.go:18-40 | an unknown name fails before any ping; otherwise the pings go on until the first success, at most three, and it fails with the name and address iff none of those succeeds |
| StateStore.ViewGet | pkg/state/state_store.go:11 | `Get`: ok iff the key is stored and does not fail, with its value; `ErrStateStoreKeyNotExist` iff it is absent and does not fail |
| StateStore.ViewPut | pkg/state/state_store.go:12-13 | `PutWithExpireTime`: fails iff the key fails, and then nothing changes |
| StateStore.ViewDelete | pkg/state/state_store.go:14 | `Delete`: fails iff the key fails, and then nothing changes; an absent key is no error |
| StateStore.ViewKeys | pkg/state/state_store.go:15 | `Keys(limit)`: fails iff listing fails; otherwise a prefix of the listing, all of it for limit 0, `limit` keys (or all there are) for a positive limit, none for a negative one |
| StateStore.PutKeepsValid | pkg/state/state_store.go:12-13 | a put keeps the listing duplicate-free and in step with the stored keys and expiries |
| StateStore.DeleteKeepsValid | pkg/state/state_store.go:14 | a delete keeps the listing duplicate-free and in step with the stored keys and expiries |
| StateStore.ListingCountsEntries | pkg/state/state_store.go:15 | in a well-formed store the listing has exactly as many keys as there are entries |
| StateStore.GetAfterPut | pkg/state/state_store.go:11-13 | a successful put is read back and no other key changes |
| StateStore.GetAfterDelete | pkg/state/state_store.go:11-14 | a successful delete leaves a miss, changes no other key, and deleting again changes nothing |
| StateStore.MapStore.constructor | pkg/state/state_store.go:10-16 | a new reference store is empty, well formed, and has logged nothing |
| StateStore.MapStore.Get | pkg/state/state_store.go:11 | returns `ViewGet` of the current store |
| StateStore.MapStore.PutWithExpireTime | pkg/state/state_store.go:13 | the new store and the error are `ViewPut`'s, the store stays well formed, and the call is logged |
| StateStore.MapStore.Put | pkg/state/state_store.go:12 | a put with no expiry, logged |
| StateStore.MapStore.Delete | pkg/state/state_store.go:14 | the new store and the error are `ViewDelete`'s, the store stays well formed, and the call is logged |
| StateStore.MapStore.Keys | pkg/state/state_store.go:15 | returns `ViewKeys` of the current store |
| StateStore.Registry.constructor | pkg/state/state_store.go:18 | the registry starts empty |
| StateStore.Registry.AddStateStore | pkg/state/state_store.go:20-22 | the store is registered under its name, replacing an older one; every other name keeps its store |
| StateStore.Registry.StateStores | pkg/state/state_store.go:24-26 | returns the registry itself |
| Utils.NewWorkerId | pkg/utils/id.go:11-16 | a worker id is the standard base64 of the UTF-8 bytes of `w_<processor>_<index>_<topic>_<uuid>`: only base64 characters, four per three bytes rounded up, and never a `-` |
| Utils.BatchIdFromWorkerId | pkg/utils/id.go:30-32 | a batch id is the worker id, then `-`, then a non-empty decimal of the watermark minus 1288834974 |
| Utils.IndexOfFirst | pkg/utils/id.go:30-32 | the first `-` of a batch id is found where it first occurs (used to read a batch id back) |
| Utils.SplitBatchIdFromWorkerId | pkg/utils/id.go:30-32 | for a worker id without `-` (every id `NewWorkerId` makes) the batch id gives back both the worker id and the watermark |
| Utils.BatchIdsAreDistinct | pkg/utils/id.go:30-32 | batch ids of different (worker, watermark) pairs never collide |
| Utils.BatchIdInjectiveInWatermark | pkg/utils/id.go:30-32 | for one worker, equal batch ids mean equal watermarks |
| Utils.LoadValue | pkg/utils/context.go:9-19 | as written: reads the worker-id key whatever key it is given; a missing or non-string value gives `("", false)` |
| Utils.LoadValueByKey | pkg/utils/context.go:9-19 | as intended: found iff the given key holds a string, which it returns; otherwise `("", false)` |
| Utils.WorkerId | pkg/utils/context.go:21-23 | found iff the context's worker-id key holds a string, and then returns that string |
| Utils.WorkerIndex | pkg/utils/context.go:25-27 | as written it returns exactly what `WorkerId` returns |
| Utils.WorkerIndexReadsWorkerId | pkg/utils/context.go:25-27 | on a context holding index 3, `WorkerIndex` reports the worker id; reading the index key is what the signature intends |
| Utils.NewWorkerContext | pkg/utils/context.go:29-39 | a context that already has a worker id is returned unchanged; otherwise exactly the id, index and topic keys are added, with the new worker id, and every other key is kept |
| Utils.NewWorkerContextIdempotent | pkg/utils/context.go:29-39 | deriving a worker context a second time, with any arguments, changes nothing |
| Utils.BatchId | pkg/utils/id.go:22-28 | ok iff the context has a worker id, and then it is that worker's batch id; otherwise a panic |
| Watermark.AdvancedByIsWholeWindows | pkg/core/watermark.go:24-34 | after n advances the watermark is the initial value plus exactly n windows |
| Watermark.AdvancedByIsMonotone | pkg/core/watermark.go:32-34 | more advances never move the watermark back when the window is not negative, and never forward when it is not positive |
| Watermark.Watermark.constructor | pkg/core/watermark.go:20-26 | records the window size and the clock reading as the starting value |
| Watermark.Watermark.Get | pkg/core/watermark.go:28-30 | returns the current value and changes nothing |
| Watermark.Watermark.Advance | pkg/core/watermark.go:32-34 | adds exactly the window size; the window size is a constant of the object |
| Worker.ConsumeFunc | pkg/core/worker.go:67-78 | the consume callback reports nil exactly when processing completed without error; it passes on the process callback's own error and turns a panic into an error |
| Worker.OnlyCompletedRecordsAreMarked | pkg/core/worker.go:67-79 | under the worker's consume callback, every record the handler marks was processed without error or panic |
| Worker.LoopEndsAtFirstError | pkg/core/worker.go:81-93 | the loop keeps consuming iff every `Consume` returns nil; otherwise it stops right after the first non-nil result, reporting nothing for `ErrConsumerNotify` and that error for any other |
| Worker.ErrorChannel.constructor | pkg/core/worker.go:22-23 | a new error channel has nothing sent and is not closed |
| Worker.ErrorChannel.Send | pkg/core/worker.go:43-45 | appends the error to what was sent and does not close the channel |
| Worker.ErrorChannel.Close | pkg/core/worker.go:46 | counts one close and sends nothing |
| Worker.WaitGroup.constructor | pkg/core/core.go:71 | a new wait group has counter 0 and no `Done` |
| Worker.WaitGroup.Add | pkg/core/worker.go:50 | adds `n` to the counter |
| Worker.WaitGroup.Done | pkg/core/worker.go:47 | lowers the counter by one and counts the `Done` |
| Worker.MetaRegistry.constructor | pkg/core/core.go:68 | the registry starts empty |
| Worker.MetaRegistry.AddWorkerMeta | pkg/core/worker.go:35 | the meta is registered under its worker id; every other entry is kept |
| Worker.Finish | pkg/core/worker.go:38-49 | sends the worker error iff there is one, closes the error channel once and marks the worker done |
| Worker.Work | pkg/core/worker.go:22-94 | registers an alive meta under the context's worker id; if creating the group fails, reports the wrapped error and ends with no `Consume` call; otherwise keeps the group, builds a handler with a nil setup and the worker's consume callback, and ends exactly as the consume loop does; once ended, the error is sent iff there is one, the channel is closed once and the wait group is back at its starting count, while a worker still consuming has sent nothing and holds one count |
| StateStoreWrapper.Count | pkg/state/state_store_wrapper.go:32-38 | one outcome moves at most one counter: a get miss counts a miss, any other get error a get failure, a failed put a put failure, a failed delete a delete failure |
| StateStoreWrapper.CountersAccountForOutcomes | pkg/state/state_store_wrapper.go:24-75 | from zero, the miss counter is the number of missed gets and the failure counters together are the number of failed operations: nothing is counted twice or lost |
| StateStoreWrapper.StateStoreWrapper.constructor | pkg/state/state_store_wrapper.go:17-22 | wraps the store with every counter at zero |
| StateStoreWrapper.StateStoreWrapper.Get | pkg/state/state_store_wrapper.go:24-41 | returns the wrapped store's result unchanged and counts it |
| StateStoreWrapper.StateStoreWrapper.Put | pkg/state/state_store_wrapper.go:43-45 | a put with no expiry, passed through and counted |
| StateStoreWrapper.StateStoreWrapper.PutWithExpireTime | pkg/state/state_store_wrapper.go:47-60 | the wrapped store does exactly its own put, the error comes back unchanged, and a failure is counted |
| StateStoreWrapper.StateStoreWrapper.Delete | pkg/state/state_store_wrapper.go:62-75 | the wrapped store does exactly its own delete, the error comes back unchanged, and a failure is counted |
| StateStoreWrapper.StateStoreWrapper.Keys | pkg/state/state_store_wrapper.go:77-79 | passed through unchanged and not counted |

## Left out

- Concurrency is not modelled. Goroutines, channels, `select` timing, `sync.WaitGroup` waits, `sync.Once`, the atomics and mutexes become sequential steps and event sequences, so interleavings are out of scope.
- The monitor's `TryLock` is not modelled, and neither are its "fail to lock monitor" replies: the lock is a concurrency primitive.
- Clocks, tickers, sleeps (including the redis ping retry delay) and `uuid.New` are parameters.
- Go map iteration order is a parameter constrained by `Enumerates`. The model does not fix any one order.
- JSON (sonic) encoding of key lists and request parameters is not modelled, because its byte format is a library's. Key lists use a lossless codec with a proved round trip.
- `UnmarshalParams` (`pkg/api/request.go:14-20`) and request bodies are not modelled; the handlers receive their parameters already decoded, except `loadRootConfig`.
- `ApiMonitor.Monitor.LoadRootConfig` takes the decoding as a function of the stored config, because `json.Unmarshal` decodes into the live `rootConfig` (`pkg/api/monitor.go:142`). Fields the parameters omit keep their values, and a decode error leaves the fields already written in place. What that function computes (the JSON merge itself) is not modelled; the method's contract holds for any such function.
- The HTTP transport is not modelled: routing by URL path, request bodies, the `/metrics` path and response formatting with `%+v`. Replies are values.
- Monitor `load` is not modelled. It downloads over HTTP, writes files and starts an async producer, all of which are I/O.
- The `Status` field of processor metadata is not modelled, because nothing in the modelled code reads it.
- `strings.ToLower` is modelled for ASCII letters only; other Unicode case mappings are out of scope.
- `Fctl.ProcessorEndpointName` lower-cases ASCII letters only (see above).
- `ApiMonitor.Monitor.RemoveTopics` deletes the initial topics and then the interim topics as one loop over their concatenation. The source's two loops make the same calls in the same order.
- A nil cluster admin is modelled as a panic (`Panic(NilDereference)`) when it is called. Nil elements inside config slices (a nil initial topic, a nil kafka config) are not modelled.
- Integer widths are not modelled: `int`/`int64` wrap-around of the watermark, of counters and of partition counts is out of scope. The one narrowing the code performs on purpose, `int32` partition counts, is `ApiMonitor.Int32Of`.
- Latency histograms and prometheus metrics are not modelled, because they are floating point and library state. The wrapper's integer counters are modelled.
- Library construction errors are not modelled (the bigcache and freecache constructors, sarama clients); connection failures are parameters.
- The stack trace that the panic recovery appends to its message is not modelled; a recovered panic keeps only its value.
- `Core.Engine.Run` does not run the cron. For a join processor, `pkg/core/core.go:191` calls the cron's `run` synchronously, before any worker starts. That call never returns: nothing in `pkg/core` closes `cronDone` or cancels the background context. The model instead goes on to start the workers. The cron loop is `Cron.Cron.Run`, modelled on its own.
- `Core.Engine.RunSteps` has the same gap as `Core.Engine.Run`: on the join path it starts the workers, where the source blocks forever in the cron's `run` at `pkg/core/core.go:191`.
- `Cron.Cron.Run` and `Cron.Cron.CatchUp` require that the catch-up loop of `pkg/core/cron.go:48-50` terminates. The source loops forever when the watermark's step is not positive and `t + windowSize < now`; the model does not cover that hang.
- `Cron.Cron.CatchUp` reads the clock once, as the parameter `now`. The source re-reads `time.Now()` on every round of the catch-up loop.
- `Core.Engine.Exit` models `OnExit` as a call that returns. A panic in `OnExit` (`pkg/core/core.go:267-270`) would skip the commit to Exited; that is not modelled.
- `Cron.AsyncJoin` models the join callback as returning an error or nothing. `asyncJoin` has no `recover` around `joinCallback` (`pkg/core/cron.go:143-147`), so a panicking callback would run the deferred deletes and then end the process; that is not modelled.
- `Watermark.AdvancedByIsMonotone` states that the watermark is non-decreasing only for `windowSize >= 0`, which nothing in the code enforces.
- `Utils.WorkerIndex` is kept as written. It returns what `WorkerId` returns, because the stored index is an integer that a string lookup by its own key could not read either.
- The root-level files of package `invokerlib` and the root `fctl/` directory are not modelled. They are superseded by `pkg/` and do not compile.
- The older `Cron`/`asyncJoin` in `pkg/core/watermark.go:36-148` and the stub `pkg/core/async_join_worker.go` are not modelled, because `pkg/core/cron.go` supersedes them.
- `pkg/logs`, `pkg/utils/metrics.go`, `pkg/stream` (a stub), the YAML, shell and kubectl functions of the `fctl` CLI, and the HTTP clients are not modelled; they are outside the processing engine.
- `addWorkerMeta` (called at `pkg/core/worker.go:35`) is not part of this model's sources. It is modelled as recording the meta under its worker id.

## Findings

| source | as written | input that shows it | evidently intended | confidence | as-written member | corrected member |
|---|---|---|---|---|---|---|
| pkg/utils/context.go:9-19 | `loadValue` ignores its `key` argument and always reads the worker-id key, so `WorkerIndex` returns the worker id | a context with worker id `"dzE="` and worker index `3`: loading the index key gives `("dzE=", true)` | the value stored under the requested key, as `Utils.WorkerId` now reads it | not executed | Utils.LoadValue, Utils.WorkerIndexReadsWorkerId | Utils.LoadValueByKey |
| pkg/state/memcached_state_store.go:60-66 | `Delete` sends the raw key, while `Get` and `PutWithExpireTime` send its base64 encoding | `Put("k", v)`, then `Delete("k")`, then `Get("k")` still returns `v`, because base64 of `"k"` is `"aw=="` | `Delete` addresses the same encoded key, as `Memcached.MemcachedStateStore.Delete` does | not executed | Memcached.MemcachedDelete, Memcached.DeleteLeavesValue | Memcached.MemcachedDeleteEncoded, Memcached.EncodedDeleteRemovesValue |
| pkg/api/monitor.go:191-196 | the rollback's `err` shadows the creation error (again at lines 224-229), so a failed topic creation whose rollback succeeds returns a nil error | a topic creation that fails while removing the topics created so far succeeds | the creation error is returned when the rollback succeeds, as `ApiMonitor.Monitor.FailCreation` does | not executed | ApiMonitor.RollbackErrorAsWritten, ApiMonitor.RollbackHidesCreationFailure | ApiMonitor.RollbackError |
| pkg/state/big_cache_state_store.go:94-99 | the loop reads `iter.Value()` before any `iter.SetNext()`; bigcache's iterator starts before its first entry, so that read returns `ErrInvalidIteratorState` | a cache holding one entry `"a"` and `Keys(0)`: the source returns the iterator error, the state-store contract lists `["a"]` | `SetNext` before each read, as `BigCache.BigCacheStateStore.Keys` does, listing up to `limit` keys | not executed | BigCache.BigKeys, BigCache.BigKeysFailsOnEntries | BigCache.BigKeysSetNextFirst, BigCache.BigKeysSetNextFirstConforms |
| pkg/conf/conf.go:260-317 | `NewInternalProcessorConfig` never sets `Type`, and `ProcessorClient.Initialize` (pkg/api/processor_client.go:26-33) validates the derived config, which requires a type, before sending | any monitor with one processor: `initializeProcessors` fails with "processor type should not be empty" whatever the processor would answer | the derived config carries the processor's type, so a validated root config's processors are initialized, as `ApiMonitor.Monitor.InitializeProcessors` does | not executed | ApiMonitor.ClientInitializeNeverSends, ApiMonitor.InitializeProcessorsAlwaysFails | Conf.TypedDerivationValidates, ApiMonitor.TypedInitializeForwards |
