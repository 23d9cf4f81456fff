# Verified model of credential, messaging and rewriting cores

A Dafny 4.11 model of four parts of the proxy's filters, and proofs about them. Run
`dafny verify dfyconfig.toml --resource-limit 2000000 --verification-time-limit 0`.

**Credentials (`Sts*.dfy`, `Lambda*.dfy`).** The STS credentials provider caches credentials per role and
fetches missing ones through one connection pool per key; roles other than the default one are assumed with the
default role's credentials, so their pools may wait for another pool's fetch. `StsProvider` has the provider and
its pools as objects updated in place; a ghost value shadows them, and every method is proved to move it by the
function of the same role in `StsModel`. About those functions `StsFlight` proves the in-flight structure,
`StsDrains` whom each operation answers, and `StsLedger` that every call has one fate; `StsRuns` proves both
over whole runs, `StsStranded` what becomes of callers whose fetch fails before they are added, `StsOrder` that
callers of a key are answered in turn, `StsProvenance` where granted credentials come from, `StsTokens` what
each fetch is authenticated with and where its result comes from, told from the events, and `StsReentry` that
callbacks may cancel other calls. `LambdaModel` and `LambdaStream` are the AWS Lambda filter as a value and all
interleavings of headers, data, trailers, credentials and destruction, `LambdaStates` what its fields then say,
`LambdaFilter` the filter as an object, `LambdaSystem` any number of filters sharing one provider, and
`LambdaRequests` each request among them. `StsDriver` and `LambdaDriver` drive the objects through any of the
runs.

**NATS Streaming (`Nats*.dfy`, `Nuid.dfy`).** The byte decoder, the PUB and SUB wire forms, the token generator,
the client with its two request maps, timers and connection phases, and the HTTP filters that publish through
it; `NatsDriver` drives the client object through any run. What the client sends, calls back and has its filters
reply is stated in terms of the events and lines received (`NatsSends`, `NatsCalls`, `NatsReplies`). Runs ask of
each new inbox that it has not been used; `NatsTokens` shows that the generator sees to that as long as it keeps
its prefix, and `NatsOrder` that requests are then published in the order in which they were accepted. When the
generator's sequence runs out it draws a new prefix and sequence at random, and nothing keeps an old token from
coming back.

**Protocol Buffers (`Proto*.dfy`).** Messages sized front to back and written back to front into a buffer of
exactly that size, against an independent reader of the wire format; the map-valued payload for any iteration
order of the map. `ProtoBytes` spells out the bytes.

**Rewriting (`Prompts`, `PromptReaders`, `Extractors`, `ExtractorOrders`, `HeaderFold`, over `Json`).** Prompt
insertion by provider schema and what each provider reads then (`PromptReaders`), extractor writes under dotted
names in any order, and the folding of repeated headers and query parameters.

Time, randomness, the network, regular expressions, cryptography, percent decoding and the iteration order of
maps are parameters: every theorem holds for all their values, except that `NatsOrder` takes the ordered map of
pending requests to iterate in the order of its keys. Runs start in the initial state; that it satisfies the
invariant, which the definition of a run asks for, is proved beside each definition (`LambdaSystem.InitialInv`,
`NatsRuns.StartInv`, `NatsSystem.StartInv`).

## What turned out not to hold

Each is stated exactly, for all inputs, next to the code as it is.

- `find` starts a fetch before it adds its caller, so if the fetch fails before it returns, the caller is added
  to a list that no outstanding fetch is for (`StsFlight.InlineFailureStrands`). This happens when the cluster
  is not configured (sts_fetcher.cc:53-64), and may happen when the request is handed over (sts_fetcher.cc:85
  and 118); a parameter says which pools' fetches fail that way, and how. A run keeps a fetch behind every
  waiting caller if and only if no call's fetch fails so (`StsRuns.EveryoneAttendedExactly`). The caller is not
  lost: it stays stranded exactly until its context is cancelled or a call revives its pool
  (`StsStranded.StrandedEndsExactly`), and that call either refuses it at once, when its fetch fails inline too,
  or puts a fetch behind it (`StsStranded.RevivedExactly`). When its pool's own fetch failed, the next call for
  the same key that misses does that (`StsStranded.NextMissRevives`); when the default role's fetch failed for a
  role that had to wait for it, no number of calls for that role starts anything
  (`StsStranded.QueuedRoleAloneWaits`), and the wait ends with a call that starts the default role's fetch.
- The cache key of a role without chaining is the role with `no-chain-` in front, so a role of that name shares
  the entry (`StsProvenance.KeyCollisions`). For any set of requests that has the default role's, every run
  grants each request credentials of its own role and mode if and only if no two different requests of the set
  share a key (`StsProvenance.OwnCredentialsExactly`); it fails in either order of the two
  (`StsProvenance.PrefixedRoleGetsForeignCredentials`, `StsProvenance.DefaultPrefixedFirst`,
  `StsProvenance.ChainedPrefixedFirst`).
- On an AWS route that names no function, body chunks after the local reply continue unsigned
  (`LambdaStream.DataContinuesUnsignedExactly`, over all runs; `LambdaStream.UnsignedChunk` is the shortest).
  What the connection manager does with them after a local reply is not part of this model.
- The Content-Length is wrong for a bodiless request with a non-empty default body and a transformer
  (`LambdaStream.ContentLengthExactly`, over all runs; `LambdaStream.LengthTooShort`): the transformer gets an
  empty buffer, and its output is appended to the default body instead of replacing it.
- A message with a carriage return does not survive encoding and decoding (`NatsDecoder.DecoderRoundTrip`).
- A malformed ack ends a request without a callback, so its filter never replies (`NatsSystem.FiltersReplyOnce`;
  `NatsDropped.MalformedAckLeavesFilterWaiting` is such a run, which exists for every environment whose first
  tokens are the generator's).
- When a prompt cannot be added, earlier ones stay in the body; it is unchanged exactly if the prompt handled
  first, the last one to prepend or else the first one to append, is the one that failed, or if there is none
  and the system string failed (`Prompts.FailureKeepsBodyExactly`).
- The result of the extractors depends on the order in which their map iterates exactly if all names can be
  walked in the body and one name continues another after a dot (`ExtractorOrders.MapOrderFreeExactly`): the
  shorter one first throws, the longer ones first succeeds.
- A repeated key loses the value that follows an empty one (`HeaderFold.MultiValuesExactly`,
  `HeaderFold.MultiValuesInGeneral`).

Where comments and code disagree the code is modelled: the cache hit needs five minutes left, not the minute its
comment names (sts_credentials_provider.cc:154); `addPrompts` does not fail when a field that the schema may
create is missing (ai_transformer.cc:386-394); an Anthropic `system` field that is not a string is replaced, not
extended (ai_transformer.cc:517-533).

## Model

| member | source | states |
|---|---|---|
| StsProvider.StsCredentialsProvider.Find | source/extensions/filters/http/aws_lambda/sts_credentials_provider.cc:126-224 | the object's `find`: answers at once or joins or starts a fetch, exactly as the value-level step; a caller that waits is at the front of the list of the pool it gets back |
| StsProvider.StsCredentialsProvider.StartFetch | source/extensions/filters/http/aws_lambda/sts_credentials_provider.cc:180-221 | the web token the provider holds for the default role or with chaining off, cached default-role credentials if fresh, otherwise queue behind the default role; the provider moves by the value-level step |
| StsProvider.StsCredentialsProvider.WaitForBase | source/extensions/filters/http/aws_lambda/sts_credentials_provider.cc:205-221 | the default-role pool is created and started if needed, the role is chained, the pool marked in flight |
| StsProvider.StsCredentialsProvider.OnResult | source/extensions/filters/http/aws_lambda/sts_credentials_provider.cc:88-107 | the cache entry is set and every chained role is started with the new credentials, last first |
| StsProvider.StsCredentialsProvider.OnFailure | source/extensions/filters/http/aws_lambda/sts_credentials_provider.cc:109-121 | every chained role is failed, last first, and the list emptied; terminates although provider and pools call each other |
| StsProvider.StsCredentialsProvider.KickLastChained | source/extensions/filters/http/aws_lambda/sts_credentials_provider.cc:98-106 | one turn of the loop: the last chained role, if its pool exists, starts a fetch with the new credentials and leaves the list |
| StsProvider.StsConnectionPool.Init | source/extensions/filters/http/aws_lambda/sts_connection_pool.cc:115-120 | in flight with the given authentication; a fetch that fails inline runs the whole failure before `init` returns |
| StsProvider.StsConnectionPool.Add | source/extensions/filters/http/aws_lambda/sts_connection_pool.cc:125-132 | the new context goes to the front of the list |
| StsProvider.StsConnectionPool.Cancel | source/extensions/filters/http/aws_lambda/sts_connection_pool.cc:64-71 | the context leaves the list and nothing else changes |
| StsProvider.StsConnectionPool.OnSuccess | source/extensions/filters/http/aws_lambda/sts_connection_pool.cc:143-200 | a body that does not parse is a failure; otherwise cache, chained roles, flag, then the waiters |
| StsProvider.StsConnectionPool.OnFailure | source/extensions/filters/http/aws_lambda/sts_connection_pool.cc:203-211 | flag, chained roles, then the waiters from the back of the list; ends by the measure (only the default role's pool has chained roles) |
| StsProvider.StsConnectionPool.DrainWaiters | source/extensions/filters/http/aws_lambda/sts_connection_pool.cc:195-199 | every waiter is called once, oldest first, and the list is empty afterwards |
| StsProvider.StsConnectionPool.FetchSucceeded | source/extensions/filters/http/aws_lambda/sts_fetcher.cc:131-135 | the callback for status 200 with a non-empty body, after which the fetcher has no request outstanding |
| StsProvider.StsConnectionPool.FetchFailed | source/extensions/filters/http/aws_lambda/sts_fetcher.cc:53-64 | a failed fetch, synchronous or not, after which it has no request outstanding |
| StsFlight.FetchOkKeepsInv | source/extensions/filters/http/aws_lambda/sts_connection_pool.cc:143-200 | a completed fetch keeps: in flight iff exactly one of an outstanding fetch and one place in the default pool's queue; queued once; only the default pool has a queue |
| StsFlight.FailForm | source/extensions/filters/http/aws_lambda/sts_credentials_provider.cc:109-121 | a failure empties exactly the failed pool and the pools chained to it, and no other pool changes |
| StsFlight.SucceedForm | source/extensions/filters/http/aws_lambda/sts_credentials_provider.cc:88-107 | a success empties its own pool, starts exactly the chained pools with the new credentials, and no other pool changes |
| StsFlight.FindKeepsAttendedExactly | source/extensions/filters/http/aws_lambda/sts_credentials_provider.cc:163-223 | `find` keeps a fetch behind every waiting caller if and only if it starts no fetch that fails before it returns |
| StsFlight.InlineFailureStrands | source/extensions/filters/http/aws_lambda/sts_fetcher.cc:53-64 | when the fetch it starts, its own or the default role's, fails inline, the caller is left waiting with no fetch outstanding that would answer it |
| StsFlight.WaitersHaveAFetch | source/extensions/filters/http/aws_lambda/sts_connection_pool.cc:125-132 | behind every attended waiting caller there is an outstanding fetch, its own or the default role's |
| StsFlight.SynchronousHit | source/extensions/filters/http/aws_lambda/sts_credentials_provider.cc:150-161 | a caller is answered at once exactly when its key is cached with more than five minutes left, and then nothing but its answer changes |
| StsLedger.FindKeepsLedger | source/extensions/filters/http/aws_lambda/sts_credentials_provider.cc:126-224 | a new call gets exactly one fate; the answers given before stay, and those added are its own if it hits, and otherwise exactly the refusals of callers whose fetch fails inline, in the order of the drains |
| StsLedger.FetchOkKeepsLedger | source/extensions/filters/http/aws_lambda/sts_connection_pool.cc:192-199 | a completed fetch answers exactly the callers in the lists it drains, in order: chained roles whose fetch fails inline, then all of its own pool; everybody keeps one fate |
| StsDrains.FetchOkDrains | source/extensions/filters/http/aws_lambda/sts_connection_pool.cc:143-200 | the lists a completed fetch drains, in which order and with what outcome; no other list changes |
| StsDrains.FailPoolDrains | source/extensions/filters/http/aws_lambda/sts_connection_pool.cc:203-211 | a failed fetch drains the lists of the chained roles, last first, and then its own |
| StsLedger.CancelKeepsLedger | source/extensions/filters/http/aws_lambda/sts_connection_pool.cc:64-71 | a cancel moves exactly one call from waiting to cancelled |
| StsLedger.AnsweredInCallOrder | source/extensions/filters/http/aws_lambda/sts_connection_pool.cc:195-199 | callers of a group are answered in the order they called, although contexts are pushed to the front and drained from the back |
| StsRuns.EveryRun | source/extensions/filters/http/aws_lambda/sts_credentials_provider.cc:88-224 | in every run from the empty provider, calls whose fetch fails inline included: in-flight structure and one fate per call |
| StsRuns.EveryoneAttendedExactly | source/extensions/filters/http/aws_lambda/sts_credentials_provider.cc:163-223 | a run keeps a fetch behind every waiting caller, after each event, if and only if no call's fetch fails before the call returns |
| StsRuns.QuietRunsAnsweredEveryone | source/extensions/filters/http/aws_lambda/sts_connection_pool.cc:195-211 | once nothing is outstanding a call is answered exactly if it was not cancelled and is not stranded, and none is stranded if no call's fetch failed inline |
| StsStranded.StrandedEndsExactly | source/extensions/filters/http/aws_lambda/sts_credentials_provider.cc:163-223 | a stranded caller stays so exactly until a call starts the fetch it depends on, or queues its pool behind one, or its context is cancelled |
| StsStranded.RevivedExactly | source/extensions/filters/http/aws_lambda/sts_credentials_provider.cc:180-223 | that call refuses the caller at once if its fetch fails inline, and otherwise leaves a fetch outstanding for it |
| StsStranded.BackedCompletes | source/extensions/filters/http/aws_lambda/sts_connection_pool.cc:143-211 | when that fetch completes the caller is answered, or, queued behind the default role, gets a fetch of its own |
| StsStranded.StrandedThroughoutExactly | source/extensions/filters/http/aws_lambda/sts_credentials_provider.cc:163-223 | over runs: stranded throughout if and only if no event revives or cancels |
| StsStranded.NextMissRevives | source/extensions/filters/http/aws_lambda/sts_credentials_provider.cc:183-189 | after a failure of a pool that needs no other, the next missing call for its key revives its callers |
| StsStranded.QueuedRoleAloneWaits | source/extensions/filters/http/aws_lambda/sts_credentials_provider.cc:163-223 | after a failure of the default role's fetch, calls for the queued role alone start nothing, however many |
| StsOrder.AnsweredInTurn | source/extensions/filters/http/aws_lambda/sts_connection_pool.cc:195-211 | in every run whose calls' times do not go back, callers of one key are answered in the order they called, and none overtakes one that waits |
| StsReentry.CancelThenPop | source/extensions/filters/http/aws_lambda/sts_connection_pool.cc:196-199 | one turn of the drain: the callback cancels contexts of any pools, and then the back of the list, still the caller called, is popped |
| StsReentry.ReentrantDrainIsARun | source/extensions/filters/http/aws_lambda/sts_connection_pool.cc:64-71 | callbacks that cancel other calls in the middle of the drains, any of them: the outcome is that of the run that cancels those not yet called first |
| StsProvenance.KeyCollisions | source/extensions/filters/http/aws_lambda/sts_credentials_provider.cc:138-143 | two requests share a cache key exactly if they are equal or one is without chaining and the other role name is its name with the prefix `no-chain-` |
| StsProvenance.CredentialsComeFromOwnRole | source/extensions/filters/http/aws_lambda/sts_credentials_provider.cc:150-203 | in every run whose different requests have different keys, granted credentials come from a completed fetch of the same role in the same mode; chained fetches use credentials of an earlier default-role fetch |
| StsProvenance.OwnCredentialsExactly | source/extensions/filters/http/aws_lambda/sts_credentials_provider.cc:138-203 | for any set of requests that has the default role's: all runs over the set grant own credentials if and only if no two different requests of it share a key |
| StsRuns.CacheIsLatest | source/extensions/filters/http/aws_lambda/sts_credentials_provider.cc:91-95 | in every run the cache holds per key the result of the last completed fetch of that key |
| StsProvenance.PrefixedRoleGetsForeignCredentials | source/extensions/filters/http/aws_lambda/sts_credentials_provider.cc:138-161 | a role named with the prefix is answered from the cache with another role's credentials (a concrete three-event run) |
| StsProvenance.DefaultPrefixedFirst | source/extensions/filters/http/aws_lambda/sts_credentials_provider.cc:138-161 | the other order with a prefixed default role: the unchained request is answered with the default role's credentials |
| StsProvenance.ChainedPrefixedFirst | source/extensions/filters/http/aws_lambda/sts_credentials_provider.cc:138-203 | the other order with a chained prefixed role: the unchained request is answered with credentials assumed through the default role |
| StsTokens.CallFetches | source/extensions/filters/http/aws_lambda/sts_credentials_provider.cc:180-221 | a call starts at most one fetch, for its own key or for the default role: with the web token for the default role and with chaining off, otherwise with what the default role's last completed fetch came back with; every other pool's fetch stays as it is |
| StsTokens.TokenIsInForce | source/extensions/filters/http/aws_lambda/sts_credentials_provider.cc:84-86 | at every point of a run the provider holds the last token it was given, or the one it was made with |
| StsTokens.FetchesTraced | source/extensions/filters/http/aws_lambda/sts_credentials_provider.cc:180-221 | every fetch outstanding after a run was started by one of its events and has been outstanding since: with the web token in force at that call, or with the default role's latest credentials then |
| StsTokens.ParsedExactly | source/extensions/filters/http/aws_lambda/sts_connection_pool.cc:165-186 | a response gives credentials exactly if all four fields are found, each field under its own name; an expiration that does not parse is ten minutes ahead |
| StsTokens.DoneTraced | source/extensions/filters/http/aws_lambda/sts_connection_pool.cc:143-200 | every completed fetch of a run has the fields of the response that ended it, and records the token in force, or the default role's credentials, when it was started |
| StsDriver.Handle | source/extensions/filters/http/aws_lambda/sts_connection_pool.cc:64-211 | one event of a run handed to the object it is for: provider and pools end in the state the step ends in, and are ready for the next |
| StsDriver.Drive | source/extensions/filters/http/aws_lambda/sts_credentials_provider.cc:88-224 | from the constructor through any legal run the objects end in the state of the run, so every theorem about runs is about them |
| LambdaDriver.Drive | source/extensions/filters/http/aws_lambda/aws_lambda_filter.cc:67-399 | a fresh filter object through any stream ends in the stream's state, so the theorems about streams are about it |
| LambdaFilter.AwsLambdaFilter.DecodeHeaders | source/extensions/filters/http/aws_lambda/aws_lambda_filter.cc:67-124 | the filter's state after headers, for every route and every way credentials come or do not come, and the local reply where there is one |
| LambdaFilter.AwsLambdaFilter.DecodeData | source/extensions/filters/http/aws_lambda/aws_lambda_filter.cc:335-372 | hash, buffer, status and signature after a chunk |
| LambdaFilter.AwsLambdaFilter.DecodeTrailers | source/extensions/filters/http/aws_lambda/aws_lambda_filter.cc:374-388 | end of the request by trailers |
| LambdaFilter.AwsLambdaFilter.OnSuccess | source/extensions/filters/http/aws_lambda/aws_lambda_filter.cc:273-323 | credentials: stored, rejected if incomplete, or finalising a request that ended while waiting |
| LambdaFilter.AwsLambdaFilter.FinalizeRequest | source/extensions/filters/http/aws_lambda/aws_lambda_filter.cc:390-399 | default body, transformer, signature, in this order |
| LambdaFilter.AwsLambdaFilter.OnDestroy | source/extensions/filters/http/aws_lambda/aws_lambda_filter.h:35-41 | a context still held is cancelled |
| LambdaStream.SignedOnceOverWhatIsSent | source/extensions/filters/http/aws_lambda/aws_lambda_filter.cc:67-399 | for every interleaving: signed at most once, exactly when usable credentials and the end of the request have both come, nothing sent before, and the bytes hashed are the bytes sent, which are the expected body |
| LambdaStream.ContextWhileCalling | source/extensions/filters/http/aws_lambda/aws_lambda_filter.cc:96-116 | a live filter holds a context exactly while it waits for credentials |
| LambdaStream.DataContinuesUnsignedExactly | source/extensions/filters/http/aws_lambda/aws_lambda_filter.cc:335-340 | for every run on an AWS route: something goes upstream unsigned if and only if the route names no function and a body chunk comes, and it is then the whole body |
| LambdaStream.UnsignedChunk | source/extensions/filters/http/aws_lambda/aws_lambda_filter.cc:88-94 | the two-event run: local reply sent, the chunk upstream, no signature |
| LambdaStream.ContentLengthExactly | source/extensions/filters/http/aws_lambda/aws_lambda_filter.cc:401-457 | for every run: a Content-Length is written exactly on a request sent with a transformer or the default body, and it is the length sent except exactly for a bodiless request with a non-empty default body and a transformer |
| LambdaStream.LengthTooShort | source/extensions/filters/http/aws_lambda/aws_lambda_filter.cc:401-457 | the one-event run with a Content-Length shorter than the body sent |
| LambdaStream.RepliesExactly | source/extensions/filters/http/aws_lambda/aws_lambda_filter.cc:88-333 | for every interleaving: one local reply if the route names no function, or credentials are refused or lack the access key or the secret key, and none otherwise |
| LambdaStream.SentExactly | source/extensions/filters/http/aws_lambda/aws_lambda_filter.cc:67-399 | in terms of the events alone: a request for a function is sent and signed exactly once its end and credentials with both keys have come, over what its chunks make up, with those credentials |
| LambdaStream.NotAwsPassesThrough | source/extensions/filters/http/aws_lambda/aws_lambda_filter.cc:70-77 | on a route that is not for AWS: no reply, no signature, and all chunks go upstream |
| LambdaStates.StateExactly | source/extensions/filters/http/aws_lambda/aws_lambda_filter.cc:67-374 | for every interleaving the state says what happened: destroyed, not on an AWS route, replied for want of a function or of usable credentials, waiting for credentials, or complete |
| LambdaStates.NothingBufferedAfterReply | source/extensions/filters/http/aws_lambda/aws_lambda_filter.cc:351-355 | a request replied to for want of credentials keeps exactly the chunks that came before that, and sends nothing |
| LambdaSystem.CancelAlwaysFindsTheContext | source/extensions/filters/http/aws_lambda/sts_connection_pool.cc:64-71 | any number of filters on one provider, every run, inline failures included: a filter that holds a context is in its pool's list, so the assertion in `cancel` never fails |
| LambdaSystem.SignedWithOwnCredentials | source/extensions/filters/http/aws_lambda/aws_lambda_filter.cc:273-323 | every run in which different requests have different cache keys: a request signed after asking the STS provider is signed once, over what is sent, with credentials a completed fetch of its own role and mode returned |
| LambdaSystem.NobodyWaitsInVain | source/extensions/filters/http/aws_lambda/aws_lambda_filter.cc:96-116 | once no fetch is outstanding, a live request for a function has not been told anything exactly if its call is stranded, which none is if no call's fetch failed inline |
| LambdaRequests.EachRequestIsAStream | source/extensions/filters/http/aws_lambda/aws_lambda_filter.cc:67-399 | any number of filters on one provider: each request goes through a legal run of its own stream, so the theorems about streams hold of it |
| LambdaRequests.DeniedIsReplied | source/extensions/filters/http/aws_lambda/aws_lambda_filter.cc:325-333 | a request that asked the STS provider gets a local reply at most once, only if its call was denied, and always then unless it was destroyed before |
| LambdaRequests.SignedWithResponseKeys | source/extensions/filters/http/aws_lambda/sts_connection_pool.cc:165-190 | the signature of a request that asked the STS provider has the access key, secret key and session token of a response to a fetch for the role, and in the mode, that its own headers name |
| NatsDecoder.DecoderImpl.ParseSlice | source/common/nats/codec_impl.cc:24-73 | the loop over one slice ends, never in `ValueComplete`, and does what the byte-by-byte automaton does, also up to a throw |
| NatsDecoder.DecoderImpl.Decode | source/common/nats/codec_impl.cc:16-22 | all slices in turn, up to a throw, with the messages called back before it |
| NatsDecoder.SlicingIrrelevant | source/common/nats/codec_impl.cc:16-73 | any cut of the bytes into slices, from any state, gives the same messages, the same rest and the same error, messages before an error included |
| NatsDecoder.DecodesSplitFrom | source/common/nats/codec_impl.cc:16-73 | from any state between slices, for any further slices: the messages called back are the lines of the CRLF split of the bytes carried and given, the text after them is the pending value, and it throws exactly at a carriage return without line feed, having called back the lines before |
| NatsDecoder.DecoderRoundTrip | source/common/nats/codec_impl.cc:75-78 | decoding, in any slices, what was encoded gives the messages back if and only if none contains a carriage return |
| NatsWire.DecimalRoundTrip | source/common/nats/message_builder.cc:25-26 | the printed length is read back exactly |
| NatsWire.ReadsBack | source/common/nats/message_builder.cc:13-36 | a length-prefixed NATS reader recovers every operation of any list: subject, reply and payload, whatever bytes the payload has |
| Nuid.NuidGenerator.NextToken | source/common/nats/nuid/nuid.cc:31-54 | the token is prefix and numeral of the new state; the sequence stays below 62^10 and no 64-bit sum overflows |
| Nuid.NuidGenerator.Convert | source/common/nats/nuid/nuid.cc:74-79 | the characters written are the fixed-width base-62 numeral, the rest of the array untouched |
| Nuid.NumeralsInOrder | source/common/nats/nuid/nuid.cc:74-79 | numerals of one width are ordered as the numbers |
| Nuid.NumeralInjective | source/common/nats/nuid/nuid.cc:74-79 | below 62^len different numbers have different numerals |
| Nuid.TokensAgreeExactly | source/common/nats/nuid/nuid.cc:31-54 | two tokens are equal exactly if prefix and sequence are |
| Nuid.TokensIncrease | source/common/nats/nuid/nuid.cc:31-54 | between two changes of prefix all tokens share it and strictly increase, however many calls lie between |
| Nuid.NextTokenReads | source/common/nats/nuid/nuid.cc:31-72 | a token has 22 characters and its last ten read in base 62 are the sequence, which went forward by the increment; when that reaches 62^10, prefix, sequence and an increment from 33 to 332 are drawn anew |
| Nuid.NoResetExactly | source/common/nats/nuid/nuid.cc:31-37 | a series of calls keeps the prefix exactly as long as the sequence stays below its bound |
| NatsTokens.GeneratedTokensAreFresh | source/common/nats/nuid/nuid.cc:31-54 | the tokens of any number of calls that keep the prefix are pairwise different |
| NatsTokens.GeneratedRunsAreLegal | source/common/nats/streaming/client_impl.cc:35-41 | with such tokens every inbox a run draws is new, so the run theorems apply to the generator's runs |
| NatsTokens.GeneratedFilterRunsAreLegal | source/common/nats/streaming/client_impl.cc:35-41 | the same for the runs of any number of filters on one client |
| NatsDriver.Drive | source/common/nats/streaming/client_impl.cc:35-156 | a new client object through any legal run ends in the run's state, so the theorems about runs are about it |
| NatsClient.ClientImpl.MakeRequest | source/common/nats/streaming/client_impl.cc:35-65 | the three connection phases of a publish; what is sent and to which subject is NatsSends.EverythingSent |
| NatsClient.ClientImpl.OnConnected | source/common/nats/streaming/client_impl.cc:95-108 | the flush publishes the pending requests in the map's order under the prefix of this response and empties the map |
| NatsClient.ClientImpl.CancelRequest | source/common/nats/streaming/client_impl.cc:112-119 | in flight when connected, pending otherwise |
| NatsClient.ClientImpl.OnResponse | source/common/nats/streaming/client_impl.cc:67-79 | a line is a payload exactly while one is due |
| NatsClient.ClientImpl.OnOperation | source/common/nats/streaming/client_impl.cc:129-156 | dispatch on the first token; anything unknown throws |
| NatsClient.ClientImpl.OnPubAck | source/common/nats/streaming/pub_request_handler.cc:10-52 | a well-formed ack calls back once, onResponse if it parses with an empty error and onFailure otherwise; every ack for a request in flight erases it and its timer |
| NatsClient.ClientImpl.OnTimeout | source/common/nats/streaming/pub_request_handler.cc:54-71 | the timeout callback, then the request and its timer are gone |
| NatsFrames.LinesAreFrames | source/common/nats/streaming/client_impl.cc:67-202 | feeding lines is what a parser of MSG-plus-payload frames does, whatever order each flush uses; the line after a MSG is its payload even if it reads like an operation |
| NatsFrames.LinesAreFeedable | source/common/nats/streaming/client_impl.cc:67-108 | every list of lines with no blank operation can be fed: each payload has an order in which the pending map iterates |
| NatsRuns.FlushForm | source/common/nats/streaming/client_impl.cc:95-108 | the flush moves exactly the pending requests into flight with their callbacks and timers |
| NatsRuns.FlushPublishes | source/common/nats/streaming/client_impl.cc:95-108 | it publishes each of them once, in the map's order, and subscribes nothing |
| NatsOrder.FlushInAcceptanceOrder | source/common/nats/streaming/client_impl.cc:95-108 | the map is ordered by inbox and inboxes by token: while the generator keeps its prefix that is the order in which the requests were accepted |
| NatsOrder.PublishedInAcceptanceOrder | source/common/nats/streaming/client_impl.cc:35-108 | in every run that draws its tokens within one prefix, all publications, of the flush and after it, come in the order of acceptance |
| Nuid.TokensAscend | source/common/nats/nuid/nuid.cc:31-54 | later calls within one prefix return greater tokens |
| NatsRuns.StepKeepsInv | source/common/nats/streaming/client_impl.cc:35-274 | every step keeps: pending only while connecting, in flight only while connected, timers exactly the keys in flight, SUB ids 1, 2, 3, ..., and one fate per request |
| NatsRuns.OneFateEach | source/common/nats/streaming/pub_request_handler.cc:10-94 | in every run each accepted request is in exactly one of pending, in flight, called back, cancelled, or ended by a malformed ack; called back at most once, with its own callbacks, never after a cancel |
| NatsRuns.PublishedOnceUnlessWithdrawn | source/common/nats/streaming/client_impl.cc:95-119 | in every run a request is published at most once, with its own subject and payload, and, once connected, exactly if it was not cancelled while pending |
| NatsSends.EverythingSent | source/common/nats/streaming/client_impl.cc:35-293 | in every run each event makes the client send exactly the messages that follow from the lines and requests so far: the three subscriptions and the connect request after INFO, PONG after PING, the heartbeat's answer to its reply subject, the publications of the flush and of a connected client, CONNECT for the first request, and nothing else |
| NatsSends.ThrowsExactly | source/common/nats/streaming/client_impl.cc:129-202 | in every run a line makes the client throw exactly if no payload is due and it is a MSG without three or four arguments, an INFO before any request, or unknown |
| NatsSends.PublishedUnderPrefix | source/common/nats/streaming/client_impl.cc:247-274 | in every run each publication's outer subject is the prefix of the connect response in force, a dot and the request's own subject; inside are the client's id, a guid of its own, and the subject and payload asked for |
| NatsSends.RequestMadeBy | source/common/nats/streaming/client_impl.cc:35-65 | every request was made by a publish event, with that event's contents, under the acknowledgement inbox named by the token drawn then |
| NatsSends.GuidsIncrease | source/common/nats/streaming/client_impl.cc:269-271 | guids are drawn one after the other: no two publications share a draw |
| NatsSends.GuidsAreNoInboxes | source/common/nats/streaming/client_impl.cc:269-271 | nor does a publication share its draw with the inbox of any request |
| NatsSends.GuidsDiffer | source/common/nats/streaming/client_impl.cc:269-271 | as long as no token comes twice all guids of a run differ |
| NatsSends.EqualsIgnoreCaseExactly | source/common/nats/streaming/client_impl.cc:141-156 | operations are compared up to the case of ASCII letters |
| NatsCalls.EveryCall | source/common/nats/streaming/pub_request_handler.cc:10-71 | in every run each event makes exactly the callbacks it should, for the request in flight it is about, with the kind its payload or timer gives |
| NatsCalls.KindsAreCauses | source/common/nats/streaming/pub_request_handler.cc:24-71 | every callback of a run is a response exactly if a payload line that parsed with an empty error caused it, a failure exactly if another well-formed ack did, a timeout exactly if its timer fired |
| NatsSystem.CompletionCancelsNothing | source/extensions/filters/http/nats/streaming/nats_streaming_filter.cc:164-171 | a completion, even one that destroys the filter, cancels nothing: the handle is dropped before the reply |
| NatsSystem.CancelInCallback | source/common/nats/streaming/pub_request_handler.cc:10-52 | a callback that destroys another filter, whose cancel comes before the request called back is erased, does what destroying it right after does |
| NatsSystem.FiltersReplyOnce | source/extensions/filters/http/nats/streaming/nats_streaming_filter.cc:39-45 | in every run a filter replies at most once, exactly if its request was called back, and holds a handle only until then; after a malformed ack it keeps the handle and has had no reply |
| NatsReplies.StatusSaysWhy | source/extensions/filters/http/nats/streaming/nats_streaming_filter.cc:115-125 | in every run a filter that replied did so once: 200 exactly if its ack parsed with an empty error, 500 exactly if another well-formed ack came, 408 exactly if its timer fired |
| NatsReplies.RelayedAsAsked | source/extensions/filters/http/nats/streaming/nats_streaming_filter.cc:137-162 | the request a filter has at the client carries the subject and payload the filter relayed |
| NatsReplies.ClientRuns | source/extensions/filters/http/nats/streaming/nats_streaming_filter.cc:137-162 | the client shared by the filters runs through what it sees of their events, so the theorems about its runs hold there |
| NatsDropped.MalformedAckLeavesFilterWaiting | source/common/nats/streaming/pub_request_handler.cc:10-52 | a run of relay, connect response and ack with a reply subject: the request is gone with its timer, nobody was called, and the filter still holds its handle |
| NatsDropped.GeneratedTokensArePlain | source/common/nats/nuid/nuid.cc:63-79 | the generator's tokens have neither blank nor dot, so every environment whose first tokens are its has that run |
| NatsDropped.TokensOfSpread | source/common/nats/streaming/client_impl.cc:136-139 | a line is split into its words, however many blanks and tabs stand between and around them |
| ProtoWire.VarintLength | go/type/streaming/protocol_vtproto.pb.go:53-55 | a varint takes at most k bytes exactly if the value is below 128^k |
| ProtoWire.NegativeTakesTenBytes | go/type/streaming/protocol_vtproto.pb.go:452-454 | a negative int32 or int64 always takes ten bytes |
| ProtoWire.SignedRoundTrip | go/type/streaming/protocol_vtproto.pb.go:427-446 | sign extension to 64 bits and back is the identity on int32 and int64 |
| ProtoWire.ReadsMessage | go/type/streaming/protocol_vtproto.pb.go:39-94 | whatever the fields, a wire-format reader finds each under its number and keeps the unknown bytes unchanged |
| ProtoBuffer.PutVarint | go/type/streaming/protocol_vtproto.pb.go:53-53 | the varint's bytes end up right before the old index, and nothing else is touched |
| ProtoBuffer.PutBytes | go/type/streaming/protocol_vtproto.pb.go:50-56 | one bytes field block, as a step from one finished tail of the encoding to the next, the bytes before it untouched |
| ProtoBuffer.SizeIsAll | go/type/streaming/protocol_vtproto.pb.go:679-711 | the sum over the fields plus the unknown bytes is the encoding's length |
| ProtoMessages.PutPubMsg | go/type/streaming/protocol_vtproto.pb.go:51-92 | its six fields, last to first, complete the encoding in front of the unknown bytes |
| ProtoMessages.PutPubAck | go/type/streaming/protocol_vtproto.pb.go:126-139 | its two fields |
| ProtoMessages.PutMsgProto | go/type/streaming/protocol_vtproto.pb.go:173-218 | its seven fields, the bool, the 64-bit timestamp and the 32-bit checksum included |
| ProtoMessages.PutConnectRequest | go/type/streaming/protocol_vtproto.pb.go:297-310 | its two fields |
| ProtoMessages.PutConnectResponse | go/type/streaming/protocol_vtproto.pb.go:344-394 | its seven fields, the last one with a two-byte tag |
| ProtoMessages.PutSubscriptionRequest | go/type/streaming/protocol_vtproto.pb.go:428-487 | its ten fields, five of them integers, three of which may be negative |
| ProtoMessages.MarshalToSizedBuffer | go/type/streaming/protocol_vtproto.pb.go:39-94 | any message, into any buffer that is large enough: the encoding is flush with the end, the index never below zero, the bytes before it untouched; the length is returned |
| ProtoMessages.SizeVT | go/type/streaming/protocol_vtproto.pb.go:679-711 | the size, field by field front to back, is the encoding's length |
| ProtoMessages.Marshal | go/type/streaming/protocol_vtproto.pb.go:21-32 | the buffer of that size is filled exactly, and the reader gives the message back |
| ProtoMessages.RoundTrip | go/type/streaming/protocol_vtproto.pb.go:39-94 | for every message the reader gives back all fields and the unknown bytes |
| ProtoBytes.PubMsgBytes | go/type/streaming/protocol_vtproto.pb.go:39-94 | the bytes of the message, tag byte by tag byte, empty fields left out |
| ProtoBytes.PubAckBytes | go/type/streaming/protocol_vtproto.pb.go:114-141 | its two fields with their tag bytes |
| ProtoBytes.MsgProtoBytes | go/type/streaming/protocol_vtproto.pb.go:161-220 | its seven fields with their tag bytes, a negative timestamp in 64-bit two's complement |
| ProtoBytes.ConnectRequestBytes | go/type/streaming/protocol_vtproto.pb.go:285-312 | its two fields with their tag bytes |
| ProtoBytes.ConnectResponseBytes | go/type/streaming/protocol_vtproto.pb.go:332-396 | its seven fields, field 100 under a two-byte tag |
| ProtoBytes.SubscriptionRequestBytes | go/type/streaming/protocol_vtproto.pb.go:416-489 | its ten fields, with their tag bytes |
| ProtoPayload.MapEntrySize | go/config/filter/http/nats/streaming/v2/payload_vtproto.pb.go:90-90 | the nested message a header becomes has exactly the size computed for it, empty key or value included |
| ProtoPayload.PutHeader | go/config/filter/http/nats/streaming/v2/payload_vtproto.pb.go:62-77 | the distance walked, which is written as the entry's length, is that size |
| ProtoPayload.SizeVT | go/config/filter/http/nats/streaming/v2/payload_vtproto.pb.go:81-100 | the loop over the headers sums the entry sizes |
| ProtoPayload.SizeFitsEveryOrder | go/config/filter/http/nats/streaming/v2/payload_vtproto.pb.go:86-92 | a size computed in one iteration order is the length written in any other |
| ProtoPayload.MarshalToSizedBuffer | go/config/filter/http/nats/streaming/v2/payload_vtproto.pb.go:39-79 | for any iteration order the encoding is written flush with the end, the bytes before it untouched |
| ProtoPayload.Marshal | go/config/filter/http/nats/streaming/v2/payload_vtproto.pb.go:21-32 | sized in one order and written in another, the buffer is filled exactly and the same headers and body are read back |
| ProtoPayload.RoundTrip | go/config/filter/http/nats/streaming/v2/payload_vtproto.pb.go:39-79 | for every order the reader gives the same header map, body and unknown bytes |
| ProtoBytes.PayloadBytes | go/config/filter/http/nats/streaming/v2/payload_vtproto.pb.go:39-79 | the bytes of a payload: each header a nested message whose key and value are written even when empty, the one ranged over last first, then the body |
| Prompts.ChatBody.AddPrompt | source/extensions/filters/http/transformation/ai_transformer.cc:396-444 | one prompt in any schema: into its array, refused, or a type error; what its provider then reads is PromptReaders.ReadsAsConfigured |
| Prompts.ChatBody.AddBedrockPrompts | source/extensions/filters/http/transformation/ai_transformer.cc:341-381 | Bedrock's two arrays, created when missing |
| Prompts.ChatBody.Sort | source/extensions/filters/http/transformation/ai_transformer.cc:461-484 | the first loop: Anthropic texts gathered in order, the other prompts reversed |
| Prompts.ChatBody.AddPrompts | source/extensions/filters/http/transformation/ai_transformer.cc:458-536 | the three loops and the system string do the value-level enrichment |
| Prompts.EnrichesExactly | source/extensions/filters/http/transformation/ai_transformer.cc:396-536 | success if and only if every array a prompt goes into is present as an array or may be created, and Anthropic texts meet an object |
| Prompts.EnrichedAsPromised | source/extensions/filters/http/transformation/ai_transformer.cc:458-536 | on success every array is its prepends in order, the original, its appends in order; Anthropic's system is the old string, then the system texts and the developer texts in order; no other field changes |
| Prompts.FailureKeepsBodyExactly | source/extensions/filters/http/transformation/ai_transformer.cc:458-536 | for any body and both lists: a failure leaves the body unchanged exactly if the prompt handled first, the last to prepend or else the first to append, cannot be added, or none goes into an array; otherwise the edits so far stay |
| Prompts.PrependedInOrder | source/extensions/filters/http/transformation/ai_transformer.cc:484-492 | inserting a reversed list at the front one by one restores the order, per array |
| PromptReaders.ReadsAsConfigured | source/extensions/filters/http/transformation/ai_transformer.cc:308-536 | each provider reads in every array, named by schema and role, the roles and texts of the prepended prompts, the items that were there, and those of the appended prompts, in order; a field no prompt belongs to is unchanged |
| PromptReaders.AnthropicSystem | source/extensions/filters/http/transformation/ai_transformer.cc:461-536 | Anthropic's one system string: the old string, the system prompts' contents line by line, then the developer prompts', prepended before appended |
| PromptReaders.SucceedsExactly | source/extensions/filters/http/transformation/ai_transformer.cc:396-536 | success in the same terms: exactly if every array a prompt belongs into is there as an array, or the schema creates it in an object or null, and a system string meets an object or null |
| PromptReaders.ThrowsExactly | source/extensions/filters/http/transformation/ai_transformer.cc:396-536 | a type error instead of a refusal exactly if the body is neither object nor null and the prompt handled first is one whose array would be created, or there is none and a system string would be written |
| Extractors.WriteNamed | source/extensions/filters/http/transformation/inja_transformer.cc:975-983 | walking a dotted name pointer by pointer, creating what is missing, and assigning is the same as writing the path |
| Extractors.WriteExtractions | source/extensions/filters/http/transformation/inja_transformer.cc:965-1004 | the loop over the extractors |
| Extractors.SucceedsExactlyIfWalkable | source/extensions/filters/http/transformation/inja_transformer.cc:976-983 | for names none of which is a prefix of another: no index throws if and only if the original body is an object, null or missing along every path |
| Extractors.AllReadBack | source/extensions/filters/http/transformation/inja_transformer.cc:985-1003 | every extracted value is read back under its own name |
| Extractors.LeavesUnrelated | source/extensions/filters/http/transformation/inja_transformer.cc:965-1004 | a path apart from all written ones keeps its value |
| Extractors.OrderIrrelevant | source/extensions/filters/http/transformation/inja_transformer.cc:965-1004 | the final body, or the failure, is the same for every order of the extractors |
| ExtractorOrders.NamesApartExactly | source/extensions/filters/http/transformation/inja_transformer.cc:975-983 | the paths of the names are apart exactly if the names differ and none continues another after a dot |
| ExtractorOrders.OrderFreeExactly | source/extensions/filters/http/transformation/inja_transformer.cc:965-1004 | any list of different paths: all orders give the same result if and only if no path is a prefix of another or some path cannot be walked, when every order throws |
| ExtractorOrders.MapOrderFreeExactly | source/extensions/filters/http/transformation/inja_transformer.cc:965-1004 | any map of extractors, by name: the loop's result is the same for every iteration order if and only if no name continues another after a dot or some name cannot be walked |
| HeaderFold.ParseHeaders | source/extensions/filters/http/transformation/body_header_transformer.cc:72-112 | the header loop is the fold; without request metadata no lists are made |
| HeaderFold.ParseQueryParameters | source/extensions/filters/http/transformation/body_header_transformer.cc:120-133 | the query loop, which branches differently, is the same fold |
| HeaderFold.MultiValuesExactly | source/extensions/filters/http/transformation/body_header_transformer.cc:82-101 | a repeated key keeps its last value, and its list is all its values in order if and only if none but the last is empty |
| HeaderFold.MultiValuesInGeneral | source/extensions/filters/http/transformation/body_header_transformer.cc:82-101 | for any values of a key: its list is the first value that is not empty followed by all that come right after such a one, and there is none if nothing does |
| HeaderFold.ParamExactly | source/extensions/filters/http/transformation/body_header_transformer.cc:143-157 | the first `=` ends the name; both parts are decoded, and a parameter without one is a name that is not |
| HeaderFold.SingleValueHasNoList | source/extensions/filters/http/transformation/body_header_transformer.cc:89-92 | a key with one value has no list |
| HeaderFold.ParseParameters | source/extensions/filters/http/transformation/body_header_transformer.cc:138-166 | the splitting loop |
| HeaderFold.JoinedParses | source/extensions/filters/http/transformation/body_header_transformer.cc:141-163 | items joined by `&` come back one by one, except an empty last item |
| HeaderFold.QueryRoundTrip | source/extensions/filters/http/transformation/body_header_transformer.cc:138-166 | a query string written with any encoding that hides `&` and `=` is read back pair by pair |

## Left out

- Envoy plumbing: sockets, cluster manager, load balancing, thread-local slots, stats, logging, factories and route lookup.
- `aws_authenticator.cc`: only the bytes fed to the payload hash and the keys used are kept; hashing and signing are foreign calls.
- Response parsing by regular expression and date parsing: a response either lacks a field or gives credentials with some expiry.
- `sts_fetcher.cc` as an object of its own: its one outstanding request is the field `fetch` of the pool; request formatting and the choice of failure status are not modelled.
- The destructor of a connection pool, and callbacks of waiters that call `find` again.
- AWS Lambda responses: unwrapping, ALB parsing, encode callbacks; and `updateHeaders`, which only sets headers.
- Lines of blanks only sent by the NATS server: the client then reads a first token that is not there, so such lines are excluded from the runs.
- The NATS client's `onClose` and `onFailure`, which only log, and the body collection of the NATS filter before it publishes.
- The NATS CONNECT message's text, and the Streaming messages' contents where the client passes them on: functions of their arguments.
- Go messages `Ack`, `SubscriptionResponse`, `UnsubscribeRequest`, `CloseRequest` and `CloseResponse`: the same two field blocks again; and nil receivers, which give empty results.
- `EncodeVarint` and `SizeOfVarint` come from a helper package that is not part of the repository; they are written from the Protocol Buffers encoding. Deprecated group fields among the unknown bytes and the UTF-8 check of string fields are not modelled.
- The body of a JSON value is a tree of values: the pointer that walks it is modelled as its path from the root, so no aliasing of nodes is expressed.
- Inja rendering, `extractValue`, the advanced-template branch of the extractor loop, JSON parsing and printing.
- `transformBody` around the prompt insertion: model name, field defaults and chat streaming set single fields.
- `BodyHeaderTransformer::transform` apart from its folds: it copies method, path and query string into the JSON.
- StsProvider.StsConnectionPool.Init: does not state that its caller is added only afterwards; that order is what StsFlight.InlineFailureStrands is about.
- LambdaSystem.SignedWithOwnCredentials: is over runs in which no two different requests share a cache key, the exact condition of StsProvenance.OwnCredentialsExactly.
- LambdaSystem's deliveries do not destroy other filters on the way: StsReentry.ReentrantDrainIsARun shows, for the provider, that such a drain is a run in which their calls are cancelled first, and filters do not share state.
- A fetch that succeeds before the call that starts it returns: only failures are modelled at that point.
- Runs in which a token repeats because the generator has changed its prefix.
- Go's separate message types share one datatype here, so that sizing, writing and reading are stated once; the type of a message is its constructor.
