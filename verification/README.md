# Verification of the Claude Code proxy

The proxy stands between Claude Code and Amazon Bedrock. Developers get *virtual keys* from a token service, send them
as bearer tokens, and have their `/v1/messages` requests checked, rate limited, translated to Bedrock's Converse
operations, and translated back. This project models the parts of it that keep state or change the form of a
conversation, and proves what they promise. `dafny verify dfyconfig.toml` checks all of it.

Conventions. Time is an integer number of microseconds since the epoch; `int(moment.timestamp())` is a floor to seconds.
The ledger is an upsert dictionary in insertion order. A Python exception is an `Err` or a failure status. Where the
source computes an expression there is a function; where it changes something step by step there is a method or a class,
proved against such a function, and the laws are then lemmas about the function. What an operation gives back and leaves
behind is also stated a second time, as a relation between the fields of what goes in and of what comes out, with the
literals of the source in place of the model's constants, and proved of the function, where possible as an equivalence or
with a proof that nothing else satisfies it. These relations end in `Says`, and `InStep` says what it means for one list
to render another. Cryptography, JSON serialization, shell globbing, `str()` and `int()` on foreign values are parameters (`Vault`, `Codec`, `Rules`, `Python`), with what is
assumed of them stated as a predicate (`Sound`, `Faithful` for the frames that are sent, `PrintsPlainly`), each with a
lemma that gives an instance (`ProxyAuth.SomeVaultIsSound`, `StreamText.SomeCodecIsFaithful`,
`RequestBuilder.SomePythonPrintsPlainly`).

The parts, and what is proved of each:

* **Virtual keys.** `KeyLedger`, `ProxyAuth`, `IssueService` hold the data, the atomic operations and the classes that
  perform them. `CachedKeys` shows that over any run of atomic operations the service with its cache cannot be told from
  the service without it, except in one way, which is pinned down exactly: a cache hit is served to a user who has
  meanwhile lost access. `KeyProtocol` splits every call into its reads and writes and lets calls, the shell helper and
  the clock interleave freely; `KeySafety` proves that a deactivated key never comes back and that an issued key always
  means its owner, `KeyStaleness` that a served key was active at most the cache's time to live ago (an hour at the most;
  4500 seconds through the shell helper). Coherence itself does not survive interleaving, nor does the single active key.
  For each there is the exact condition, as an equivalence for every step from a reachable state and for whole runs:
  `KeyRaces` says when a cache entry names a deactivated key, `KeyCoherence` when an entry ceases to be what the ledger
  would answer, `KeyCounts` when a user has a second active key. `KeyQuietRuns` gives a condition on the schedule under
  which the cache stays coherent but for the time between a save and its invalidation, and `RaceRuns` extends any run
  that has come to the right state, a fresh system's among them, to one in which the race is lost. `KeyMeaning` says
  what each operation and each authentication answers and changes, `HelperRuns` what the shell helper prints and stores,
  alone and in every run, and `HelperOwnership` whose key it prints.
* **Bedrock translation.** `ResponseParser` and `StreamDecoder` are two independent translations of one answer.
  `StreamAgreement` proves that they agree however the answer is cut into events and whatever the order of interleaved
  blocks; `SseFraming` and `StreamText` carry this through the text on the wire, read by the parser of the WHATWG HTML
  Living Standard. `DecoderInvariants` says what holds after every prefix of a stream, `FrameMeaning` what each frame
  says of its event. `RequestBuilder` is the third translation: `RequestMeaning` and `BuildMeaning` say which requests it
  accepts and what every part of the request it builds says of the one it was given; `RoundTrip` proves what happens to
  an answer that is parsed and echoed back, and exactly when that is the identity; `ReasoningGating` what a successful
  build says about reasoning.
* **Schemas.** `SchemaNormalizer` is the rewriting of JSON schemas on values, `SchemaHeap` the same thing as it runs, on
  dicts and lists that are copied and changed in place. `SchemaSemantics` gives schemas a meaning and proves that
  normalization only strengthens them when it leaves every `oneOf` of two or more alternatives as it is, that otherwise
  it can weaken them, and at one `oneOf` for exactly which values it does.
* **Admission.** `RateLimiter` and `RateLimitRuns`: the purged list refines a count over the history of the clock
  minute. `QuotaEngine`: the choice of the strictest budget is order-free and as strict as all budgets together.
  `PolicyEngine` and `PolicyRules`: the collection by scope is a declarative deny-overrides rule.
* **The request pipeline.** `AuditLogger`, `Pipeline` and `PipelineRuns` compose all of it into bounds on the calls that
  reach Bedrock and an exact accounting of what is recorded; `PipelineAnswers` says what each request is answered, exactly
  when it fails, and what the records say of it. `RevokedKeys` joins it to the key service: a deactivated key
  makes no further call.

Where the code does not do what one would expect, the model follows the code and says so:

* A user whose access is withdrawn keeps being served from the cache until the entry expires or is invalidated
  (`CachedKeys.CacheOutlivesDenial`).
* Two concurrent first issues leave two active keys (`RaceRuns.ConcurrentIssueDuplicates`, `RaceRuns.DuplicateRun`); a
  user gets a second one exactly at the save of a new or replacement key while one is active
  (`KeyCounts.AtMostOneExactly`).
* A revoke that lands between a ledger read and its cache put is overtaken by that put, and the revoked key is served
  again (`RaceRuns.RevokeCanBeOvertaken`, `RaceRuns.OvertakenRun`); entries are stale exactly after such a put, or
  between a save and its invalidation (`KeyRaces.StaleSince`).
* `Retry-After` is rounded down, so waiting exactly as long as told can be up to a second too short
  (`RateLimitRuns.RetryAfterPlusOneSuffices` gives the exact condition).
* Closing schemas under `oneOf` can make more values valid (`SchemaSemantics.OneOfCanWeaken`): those that one closed
  alternative accepts and another open one accepted before (`SchemaSemantics.OneOfWeakensExactly`).
* When no requested usage is given, the cost of a request counts only if the strictest budget is one on cost
  (`QuotaEngine.UnrequestedUsage`, `QuotaEngine.CostIsOverlooked`).
* Reasoning continuity asks for `thinking_blocks` to be non-empty, not for one of type `thinking`, so a tool use can go
  out with no reasoning before it (`ReasoningGating.ReasoningPrecedesToolUse`, `ReasoningGating.BareToolUse`). And any
  `thinking` object, even `{"type": "disabled"}`, asks for reasoning (`ReasoningGating.EnabledExactly`).
* The parser and the builder keep a reasoning signature beside `reasoningText`, not inside it; the stream decoder keeps
  no signature at all, so its thinking blocks are the parser's exactly when nothing is signed.
* A batch answer with a tool use that lacks an id or a name was fetched from Bedrock but is recorded nowhere
  (`PipelineRuns.IncompleteAnswerIsLost`, and `PipelineRuns.UnlabelledRun` for a run of one such request); a stream that
  was started is recorded as a success however it ends. `PipelineRuns.DispatchRecords` says for exactly which inputs a
  call goes unrecorded, `PipelineRuns.LogsAccount` that over every run these make up the difference.

## Model

| member | source | states |
|---|---|---|
| KeyLedger.IndexOf | tests/fakes/fake_postgres.py:32-45 | the position found holds the id, and no earlier record does |
| KeyLedger.Newest | repositories/virtual_key_repository.py:53-61 | a member of the list that no member is newer than |
| KeyLedger.GetActiveKeyForUser | repositories/virtual_key_repository.py:53-61 | a newest active record of the user if there is one, none exactly if there is none |
| KeyLedger.GetAfterSave | repositories/virtual_key_repository.py:63-64 | a save changes what is found under its own id and under no other |
| KeyLedger.GetKeyOfMember | repositories/virtual_key_repository.py:50-51 | in a ledger with distinct ids and hashes every record is found by its id and by its hash |
| KeyLedger.SaveFrame | repositories/virtual_key_repository.py:63-64 | a save that replaces and adds no active key of a user leaves that user's listing alone |
| KeyLedger.SaveNewActive | repositories/virtual_key_repository.py:63-64 | an active record under a new id is appended to its owner's listing |
| KeyLedger.LiveBound | repositories/virtual_key_repository.py:160-177 | an entry that counts as live is within its time to live to the microsecond |
| KeyLedger.KeyStore.Save | repositories/virtual_key_repository.py:63-64 | the whole new ledger: the record under its id, every other id as before |
| KeyLedger.KeyCache.GetActiveKey | repositories/virtual_key_repository.py:160-177 | the entry if it is unexpired and active, and then truly within its time |
| KeyLedger.KeyCache.PutActiveKey | repositories/virtual_key_repository.py:179-188 | the whole new table: this entry replaces the user's |
| KeyLedger.KeyCache.InvalidateUser | repositories/virtual_key_repository.py:190-191 | the user's entry is gone, at every clock reading |
| ProxyAuth.HeaderRoundTrip | proxy/auth.py:55-65 | a key sent as "Bearer " plus the key is extracted unchanged if and only if it has the prefix and does not end in white space |
| ProxyAuth.ExtractedKeyIsWellFormed | proxy/auth.py:55-65 | whatever is extracted from any header has the prefix and no trailing white space |
| IssueService.NormalizeCacheTtl | token_service/issue_service.py:22-25 | the result is positive, at most an hour, and the requested value unless that is out of range |
| IssueService.TokenIssueService.GetOrCreateKey | token_service/issue_service.py:48-75 | outcome, ledger and cache after the sequence of reads and writes equal the atomic specification |
| IssueService.TokenIssueService.IssueNewKey | token_service/issue_service.py:90-111 | the new record is saved, cached and returned, in both stores |
| IssueService.TokenIssueService.CacheKeyRecord | token_service/issue_service.py:113-124 | the entry written for a record, expiring after the normalized time to live |
| IssueService.VirtualKeyLifecycleService.SaveAndInvalidate | api/admin_virtual_keys.py:95-97 | the record is saved and the owner has no live entry at any clock reading |
| IssueService.VirtualKeyLifecycleService.RevokeKey | api/admin_virtual_keys.py:51-60 | the atomic specification; afterwards the ledger holds the key as revoked and nothing cached serves its owner |
| IssueService.VirtualKeyLifecycleService.DisableKey | api/admin_virtual_keys.py:62-67 | likewise for disabling |
| IssueService.VirtualKeyLifecycleService.RotateKey | api/admin_virtual_keys.py:69-87 | likewise, with the replacement saved |
| CachedKeys.ExecCoherent | token_service/issue_service.py:48-124 | every operation keeps each cache entry, expired or not, equal to what the ledger would answer now |
| CachedKeys.ExecAgrees | token_service/issue_service.py:48-75 | from coherent states cached and uncached service reach the same ledger, and show the caller the same if and only if no denied user is served |
| CachedKeys.RunCoherent | api/admin_virtual_keys.py:51-97 | coherence and equal ledgers after every run |
| CachedKeys.CachedServiceSimulatesPlain | token_service/issue_service.py:48-124 | over every run from an empty cache: same ledgers, and the i-th replies agree exactly when the i-th operation does not serve a denied user |
| CachedKeys.CacheOutlivesDenial | token_service/issue_service.py:50-58 | a run in which a denied user is served from the cache |
| CachedKeys.IssueCount | token_service/issue_service.py:61-75 | issuing takes the user's active keys from none to one; any other outcome changes no count |
| CachedKeys.DeactivateCount | api/admin_virtual_keys.py:51-67 | a deactivation takes one from the owner's count if the key was active, and changes nothing else |
| CachedKeys.RotateCount | api/admin_virtual_keys.py:69-87 | a rotation grows its owner's count if and only if the rotated key was inactive |
| CachedKeys.AtMostOneActiveKey | api/admin_virtual_keys.py:69-87 | in a run without rotations of inactive keys no user ever gains a second active key |
| KeyProtocol.NormalizeHelperTtl | scripts/api_key_helper.sh:14-28 | the result lies between 300 and 900 seconds, and is the given value if that does |
| KeyProtocol.SoloIssueIsAtomic | token_service/issue_service.py:48-75 | the small steps of an undisturbed get_or_create are the atomic operation, outcome and stores |
| KeyProtocol.SoloAdminIsAtomic | api/admin_virtual_keys.py:51-97 | the small steps of an undisturbed revoke, disable or rotate are the atomic operation |
| KeySafety.ApplyOk | token_service/issue_service.py:48-124 | every interleaved step keeps the ledger and protocol invariant and only extends the ledger: records persist, keep their identity, and never become active again |
| KeySafety.RunOk | token_service/issue_service.py:48-124 | the invariant holds in every reachable state |
| KeySafety.RunExtends | api/admin_virtual_keys.py:51-87 | between any two instants of a run the ledger has only been extended |
| KeySafety.DeactivationIsFinal | api/admin_virtual_keys.py:51-87 | in every interleaved run an inactive key stays inactive, and any later authentication with it is refused as inactive |
| KeySafety.IssuedKeyIdentifiesOwner | proxy/auth.py:29-65 | in every interleaved run a returned key authenticates later as its user under its key id, or is refused as inactive or orphaned, never anything else |
| KeySafety.AcceptedExactly | proxy/auth.py:29-53 | in every reachable state a header is accepted if and only if it carries the key of an active record whose user exists, and the context is that record's |
| KeySafety.IssueOutcomeExactly | token_service/issue_service.py:48-111 | past the cache: each refusal exactly for its reason; otherwise an active key of the user, issued exactly if there was none, cached for its whole time to live; no other key changes |
| KeyMeaning.ServedExactly | repositories/virtual_key_repository.py:160-177 | an entry is served if and only if it is active and the clock is before its second of expiry |
| KeyMeaning.IssueSays | token_service/issue_service.py:48-124 | the outcome, the ledger and the cache of get_or_create by their fields: cached, refused for one of the two reasons, reused, or issued with every field of the new record, of the entry and of the result |
| KeyMeaning.RevokeSays | api/admin_virtual_keys.py:51-60 | only status and revocation time of the one record change, the owner has no entry left, all else is as before; an unknown id changes nothing |
| KeyMeaning.DisableSays | api/admin_virtual_keys.py:62-67 | likewise, with the revocation time kept |
| KeyMeaning.RotateSays | api/admin_virtual_keys.py:69-87 | likewise for the old key, with every field of the replacement |
| KeyMeaning.ExtractExactly | proxy/auth.py:55-65 | a header is read as a key if and only if it is "Bearer", a space, and that vk_ key with white space around it; it counts as missing if and only if it is absent or blank |
| KeyMeaning.AuthSays | proxy/auth.py:29-53 | the first of unknown, inactive and orphaned that is the case, else the context with each field of the record and the user |
| KeyMeaning.SoloAuthIsAtomic | proxy/auth.py:29-53 | the two steps of an undisturbed authentication are the atomic one |
| KeyStaleness.RunTimely | token_service/issue_service.py:113-124 | in every reachable state each cache entry, helper file and call in flight carries a key that was active recently enough |
| KeyStaleness.ServiceStalenessBound | token_service/issue_service.py:48-75 | a key returned at clock reading t was active at an instant r with t < r + cache time to live, at most r + 3600 s, under every interleaving |
| KeyStaleness.HelperStalenessBound | scripts/api_key_helper.sh:30-76 | a key printed by the helper at t was active at an instant r with t < r + 4500 s, under every interleaving |
| KeyRaces.Effects | token_service/issue_service.py:48-124 | what any step does to ledger and cache: the record it saves, the entry it puts or drops, and nothing else |
| KeyRaces.StaleExactly | token_service/issue_service.py:61-64 | from every state that meets the invariant: after a step a cache entry names an inactive key if and only if the step put a key already inactive in the ledger or deactivated the cached one, or it was so before and the step left the entry alone |
| KeyRaces.StaleSince | api/admin_virtual_keys.py:95-97 | in every run an entry names an inactive key if and only if some earlier step made it so and no step since has put or dropped that entry |
| KeyCoherence.CoherenceExactly | token_service/issue_service.py:113-124 | from every state that meets the invariants, a coherent entry stops saying what the ledger would answer if and only if the step puts a key that is no longer the answer, deactivates the cached key, or saves a newer key of the user |
| KeyCoherence.PutCoherentExactly | token_service/issue_service.py:61-64 | whatever the cache held, a put leaves a coherent entry if and only if its key is still the one get_active_key_for_user returns |
| KeyQuietRuns.UnharmedIsCoherent | api/admin_virtual_keys.py:95-97 | in every run without a late put, an overriding save and an abandoned invalidation, an entry is coherent or its invalidation is still to come |
| KeyQuietRuns.QuietRunIsCoherent | api/admin_virtual_keys.py:51-97 | if no key of a user is saved while another issue call of that user is between ledger read and put, no replacement over a cached entry, and no invalidation abandoned, the entry is coherent but for the time between a save and its invalidation |
| KeyCounts.CountExactly | api/admin_virtual_keys.py:51-87 | the effect of any interleaved step on a user's active keys: one more exactly at the save of a new or replacement key, one less exactly at the deactivation of an active one |
| KeyCounts.GainsSecondExactly | token_service/issue_service.py:90-103 | a step gives a user a second active key if and only if it saves one for a user who has one |
| KeyCounts.AtMostOneExactly | token_service/issue_service.py:61-75 | in every interleaved run from at most one active key: never more than one if and only if no new or replacement key is saved while the user has one |
| RaceRuns.RevokeCanBeOvertaken | token_service/issue_service.py:61-75 | every run that has come to a state where a call would miss the cache and find an active key goes on to a run in which that key is revoked, cached all the same, and served |
| RaceRuns.OvertakenRun | token_service/issue_service.py:61-75 | such a run from a fresh system |
| RaceRuns.ConcurrentIssueDuplicates | token_service/issue_service.py:90-111 | every run that has come to a state where a call would miss the cache and find no active key goes on to a run with two active keys |
| RaceRuns.DuplicateRun | token_service/issue_service.py:90-111 | such a run from a fresh system: from no active key to two |
| HelperOwnership.PrintedKeyIsTheUsers | scripts/api_key_helper.sh:141-149 | in every run in which helpers use a file for one user only, each key a helper prints from it or after a fetch is that of a record of this user |
| HelperRuns.HelperStepSays | scripts/api_key_helper.sh:30-149 | in any state, what each step of the helper but those of its token request does: a fresh key in the file is printed and nothing touched, an answer with a virtual key is stored and printed, any other ends the helper without output |
| HelperRuns.HelperRunExactly | scripts/api_key_helper.sh:132-149 | a whole undisturbed helper: with a vk_ key in its file that expires after the second read, exactly that key is printed and nothing changes; otherwise the key printed is the one get_or_create returned, the file holds it until the second read plus 300 to 900 seconds, and nothing is printed exactly if the request failed or gave no vk_ key |
| HelperRuns.SecondRunPrintsTheSame | scripts/api_key_helper.sh:30-76 | until that second a later helper on the untouched file prints the same key and changes nothing |
| HelperRuns.PrintedExactly | scripts/api_key_helper.sh:141-149 | in every interleaved run a helper that ended printed a key that was fresh in its file, or one it had been given and then stored, or printed nothing because it was given no virtual key |
| RevokedKeys.DeactivatedKeyMakesNoCall | proxy/auth.py:36-41 | in every interleaved run, a request with a key deactivated earlier makes no Bedrock call, adds no usage event, changes no request window, and is refused as inactive |
| ResponseParser.ParseConverseResponse | proxy/bedrock_converse/response_parser.py:8-84 | fails exactly when a tool use lacks an id or a name; otherwise text and tool uses in order, reasoning in order in both forms, each with its fields, the stop reason if it is one of the four literals and else end_turn with the raw one beside it, and each usage counter under its name |
| ResponseParser.ParsedOnce | proxy/bedrock_converse/response_parser.py:8-84 | nothing but the parse says what a parse of this response has to say |
| StreamDecoder.StoppedStays | proxy/bedrock_converse/stream_decoder.py:115-126 | a decoder that has stopped yields nothing more and keeps its state |
| StreamDecoder.ConverseStreamDecoder.IterSseEvents | proxy/bedrock_converse/stream_decoder.py:44-128 | the frames, the way the generator ends and the whole final state, for every list of events |
| StreamDecoder.ConverseStreamDecoder.Consume | proxy/bedrock_converse/stream_decoder.py:44-126 | the same for the events a client lets it read |
| StreamDecoder.ConverseStreamDecoder.Handle | proxy/bedrock_converse/stream_decoder.py:46-126 | the effect of one event |
| StreamDecoder.ConverseStreamDecoder.NormalizeContentBlockStart | proxy/bedrock_converse/stream_decoder.py:134-158 | the block's type, and for reasoning a new empty record at a known position |
| StreamDecoder.ConverseStreamDecoder.NormalizeContentBlockDelta | proxy/bedrock_converse/stream_decoder.py:160-178 | found unless a reasoning delta has no reasoning start; the text is appended to both records |
| StreamDecoder.ConverseStreamDecoder.FlushPendingStop | proxy/bedrock_converse/stream_decoder.py:180-200 | the two stop frames once if a stop is pending, else none; the reason is the pending one if it is one of the four literals, else end_turn |
| DecoderInvariants.ThinkingIsWhatWasEmitted | proxy/bedrock_converse/stream_decoder.py:151-177 | after any events, both records are equally long and each text is the concatenation of the thinking deltas emitted since its start frame |
| DecoderInvariants.PrefixFrames | proxy/bedrock_converse/stream_decoder.py:44-126 | after any prefix each message_stop directly follows a message_delta, and an error frame is last and comes exactly from an exception |
| DecoderInvariants.StreamFrames | proxy/bedrock_converse/stream_decoder.py:44-128 | the same for whole streams |
| DecoderInvariants.OneStopPair | proxy/bedrock_converse/stream_decoder.py:106-128 | one messageStop with a reason gives exactly one message_delta and one message_stop, adjacent, wherever the metadata comes |
| DecoderInvariants.EndsExactly | proxy/bedrock_converse/stream_decoder.py:115-178 | the decoder runs on, ends, or fails with a KeyError if and only if no event stops it, the first that does is an exception, or it is a reasoning delta whose index has no earlier reasoning start |
| FrameMeaning.StreamIsTold | proxy/bedrock_converse/stream_decoder.py:44-178 | as far as a stream is handled, its frames are one for each event that speaks, with that event's role, index, block, text or message, and at a metadata event with a reason pending the stop: one of end_turn, max_tokens, stop_sequence, tool_use as it came, end_turn for any other, with each usage counter under its name |
| FrameMeaning.WholeStreamIsTold | proxy/bedrock_converse/stream_decoder.py:128-200 | over a whole stream the same, with one more stop at the end exactly if a reason is still pending, and the final usage that of the last metadata event |
| FrameMeaning.ToldOnce | proxy/bedrock_converse/stream_decoder.py:44-200 | no other frames tell the same events |
| StreamAgreement.StreamAgreesWithBatch | proxy/bedrock_converse/stream_decoder.py:44-200 | for every way of cutting an answer into interleaved events, folding the frames gives the parser's content, thinking texts, stop reason and usage; the thinking blocks are equal exactly when no block is signed |
| SseFraming.FramingRoundTrip | proxy/bedrock_converse/stream_decoder.py:203-204 | a standard event-stream parser dispatches exactly the framed pairs, for every sequence of one-line names and payloads |
| StreamText.NamesSay | proxy/bedrock_converse/stream_decoder.py:47-199 | each kind of frame goes out under its own event name |
| StreamText.SomeCodecIsFaithful | proxy/bedrock_converse/stream_decoder.py:203-204 | whatever frames are sent, there is a serialization that meets the assumption made of it |
| StreamText.WireIsLossless | proxy/bedrock_converse/stream_decoder.py:188-204 | reading the streamed text gives back the frames, for a serialization that can be read back on the frames sent |
| StreamText.WireAgreesWithBatch | proxy/bedrock_converse/stream_decoder.py:44-204 | the agreement with the batch parser holds for a client that reads the text on the wire |
| RequestBuilder.NormalizeThinkingBlocks | proxy/bedrock_converse/request_builder.py:250-265 | the loop yields the reasoning blocks in order or the first error |
| RequestBuilder.NormalizeContentBlocks | proxy/bedrock_converse/request_builder.py:150-204 | leading reasoning followed by the own blocks, or the first error |
| RequestBuilder.NormalizeMessage | proxy/bedrock_converse/request_builder.py:129-146 | one message or its error |
| RequestBuilder.NormalizeMessages | proxy/bedrock_converse/request_builder.py:123-147 | all messages in order, or the first error |
| RequestBuilder.NormalizeSystemBlocks | proxy/bedrock_converse/request_builder.py:95-120 | the system blocks in order, or an error at the first that is neither text nor mapping |
| RequestBuilder.ToolsAreNormalized | proxy/bedrock_converse/request_builder.py:287-305 | every tool keeps its place and name, and its schema is the normalized one |
| RequestBuilder.ContinuityMeans | proxy/bedrock_converse/request_builder.py:445-457 | the early-exit scan says yes if and only if every message can be read and none breaks continuity |
| RequestBuilder.BuildConverseRequest | proxy/bedrock_converse/request_builder.py:38-92 | the build or its first error, in the order of the steps |
| RequestMeaning.BlockExactly | proxy/bedrock_converse/request_builder.py:160-204 | a block goes out as a given block if and only if that one has its text, its tool use's id, name and input, its tool result's id, error flag and contents, or its media fields without the type |
| RequestMeaning.RefusedExactly | proxy/bedrock_converse/request_builder.py:164-203 | a block is refused if and only if it is none of those its role may hold, and with a type error if and only if its type is a list or mapping |
| RequestMeaning.ThinkingExactly | proxy/bedrock_converse/request_builder.py:250-265 | thinking blocks go out in order, one for each of type thinking, with text and non-empty signature; refused if and only if some block is no mapping |
| ReasoningGating.MessageAcceptedExactly | proxy/bedrock_converse/request_builder.py:129-204 | a message is built if and only if it is a mapping of one of the two roles with a list of blocks this role may hold and usable thinking; the role error exactly for any other role |
| ReasoningGating.MessageRenders | proxy/bedrock_converse/request_builder.py:150-204 | role kept, each own block saying the same by its fields, and before them one reasoning block per block of type thinking when included, with its text and signature |
| ReasoningGating.ConversationIsKept | proxy/bedrock_converse/request_builder.py:123-147 | message count, order and roles are kept by every successful build, and each block by its fields |
| ReasoningGating.DisabledMeansNone | proxy/bedrock_converse/request_builder.py:38-92 | with reasoning disabled no message contains reasoning and no thinking budget is sent |
| ReasoningGating.EnabledMeansContinuous | proxy/bedrock_converse/request_builder.py:315-370 | with reasoning enabled the budget is at least 1024, no tool choice is forced, and every message with tool use came with non-empty thinking blocks |
| ReasoningGating.EnabledExactly | proxy/bedrock_converse/request_builder.py:351-370 | reasoning is enabled if and only if it is supported, asked for, and no message breaks continuity |
| ReasoningGating.BudgetFollowsRequest | proxy/bedrock_converse/request_builder.py:362-370 | an explicit budget raised to the minimum wins over an effort; low, high and any other effort mean 1024, 8192 and 4096 |
| ReasoningGating.ReasoningPrecedesToolUse | proxy/bedrock_converse/request_builder.py:445-457 | a tool use goes out with reasoning if and only if some thinking block has the type thinking |
| ReasoningGating.BareToolUse | proxy/bedrock_converse/request_builder.py:258-259 | a request whose tool use goes out with reasoning enabled and no reasoning block |
| BuildMeaning.BuildMeans | proxy/bedrock_converse/request_builder.py:38-92 | a built request by its parts: reasoning and budget, messages block by block, system prompt, inference settings, tools, structured output, parallel tool use, streaming |
| BuildMeaning.AcceptedExactly | proxy/bedrock_converse/request_builder.py:38-92 | a request is built if and only if budget, messages, system prompt, stop sequences, tools and output format are each acceptable |
| BuildMeaning.RefusalReason | proxy/bedrock_converse/request_builder.py:49-82 | past the messages, the first part that is not acceptable decides the error |
| BuildMeaning.SystemMeans | proxy/bedrock_converse/request_builder.py:95-120 | each system block by its fields, and which system prompts are accepted |
| BuildMeaning.InferenceMeans | proxy/bedrock_converse/request_builder.py:268-278 | each setting goes along under its own name exactly if given and not null |
| BuildMeaning.ToolConfigMeans | proxy/bedrock_converse/request_builder.py:281-331 | each tool's name, description and closed schema, and the tool choice by its type; which tool lists are accepted |
| BuildMeaning.OutputMeans | proxy/bedrock_converse/request_builder.py:373-418 | the closed schema, name and description of a structured output, and exactly when it is refused |
| RoundTrip.EchoIsStablePartition | proxy/bedrock_converse/request_builder.py:123-265 | echoing any parsed answer gives its reasoning blocks and then the others, each group in order |
| RoundTrip.EchoIsExact | proxy/bedrock_converse/response_parser.py:19-44 | the echo is the original list if and only if every block is lossless and reasoning came first |
| RoundTrip.EchoContinuity | proxy/bedrock_converse/request_builder.py:445-457 | an echoed answer keeps reasoning going if and only if it used no tool or contained reasoning |
| SchemaNormalizer.InjectIdempotent | proxy/bedrock_converse/request_builder.py:427-442 | injecting twice is injecting once |
| SchemaNormalizer.InjectExact | proxy/bedrock_converse/request_builder.py:427-442 | at every path: an object node without additionalProperties, reached through lists, through items, anyOf, allOf and oneOf, and through a name under properties, $defs and definitions, gets false; nothing else changes |
| SchemaSemantics.NormalizationStrengthens | proxy/bedrock_converse/request_builder.py:421-442 | where every oneOf has at most one alternative or is left as it is by the injection, every value valid under the normalized schema is valid under the original |
| SchemaSemantics.OneOfCanWeaken | proxy/bedrock_converse/request_builder.py:441-442 | a schema with oneOf and a value that only its normalization accepts |
| SchemaSemantics.OneOfWeakensExactly | proxy/bedrock_converse/request_builder.py:441-442 | at a oneOf node: a value valid under the normalized schema was invalid under the original if and only if one normalized alternative accepts it and another original one accepted it |
| SchemaSemantics.DeclaredUnaffected | proxy/bedrock_converse/request_builder.py:421-442 | a value that uses only declared properties is judged the same before and after, oneOf included |
| SchemaHeap.NormalizeSchema | proxy/bedrock_converse/request_builder.py:421-424 | the result is the injected schema, with false at exactly those nodes, built of new objects only, and the caller's schema reads as before |
| SchemaHeap.InjectAdditionalPropertiesFalse | proxy/bedrock_converse/request_builder.py:427-442 | the recursion in place changes the tree of objects to the injected schema and touches nothing outside it |
| SchemaHeap.InjectList | proxy/bedrock_converse/request_builder.py:428-431 | likewise for the elements of a list |
| SchemaHeap.InjectDict | proxy/bedrock_converse/request_builder.py:434-442 | likewise for a dict: setdefault, the groups, the schema keys, with false at exactly the open nodes |
| SchemaHeap.InjectValues | proxy/bedrock_converse/request_builder.py:436-440 | likewise for the values of a group |
| SchemaHeap.SetDefault | proxy/bedrock_converse/request_builder.py:434-435 | false is stored for an open object node and nothing for any other |
| SchemaHeap.DeepCopy | proxy/bedrock_converse/request_builder.py:422 | an equal value made of fresh, unshared objects |
| RateLimiter.InMemoryRateLimiter.constructor | proxy/rate_limiter.py:16-20 | the limit is at least one and no request is stored |
| RateLimiter.InMemoryRateLimiter.Check | proxy/rate_limiter.py:22-47 | decision and every user's list after the purge and the append in place |
| RateLimitRuns.RefinesHistoryCount | proxy/rate_limiter.py:22-47 | in every run with an ordered clock a request is allowed if and only if fewer than the limit of the user's requests were allowed in its clock minute |
| RateLimitRuns.AtMostLimitPerMinute | proxy/rate_limiter.py:34-42 | never more than the limit per user and clock minute, and never more stored |
| RateLimitRuns.AtMostTwiceInSixtySeconds | proxy/rate_limiter.py:22-47 | at most twice the limit in any half-open interval of sixty seconds |
| RateLimitRuns.TwiceIsReached | proxy/rate_limiter.py:24-31 | for every limit a run that reaches twice the limit within a microsecond of a minute's end |
| RateLimitRuns.RetryBounds | proxy/rate_limiter.py:34-40 | retry_after is between 1 and 60: the whole seconds to the end of the clock minute, or one; it reaches the end exactly under a stated condition |
| RateLimitRuns.NextAfterDenial | proxy/rate_limiter.py:34-47 | after a denial the user's next request is allowed if and only if it comes at or after the end of the clock minute |
| RateLimitRuns.RetryAfterPlusOneSuffices | proxy/rate_limiter.py:34-40 | waiting a second more than told is always enough, waiting as told exactly under a stated condition |
| QuotaEngine.KeyOrder | proxy/quota_engine.py:113-126 | the selection tuple is a strict total order |
| QuotaEngine.SelectedIsMinimal | proxy/quota_engine.py:107-126 | none exactly if no policy is active, else an active policy with no active policy before it |
| QuotaEngine.LeastIsEarliest | proxy/quota_engine.py:113-126 | of policies that rank the same the earliest is taken |
| QuotaEngine.SelectionIsOrderFree | proxy/quota_engine.py:107-126 | with distinct ids the choice depends only on the set of policies |
| QuotaEngine.OrderMattersExactly | proxy/quota_engine.py:107-126 | two active policies are chosen by order if and only if they differ but rank the same |
| QuotaEngine.AllowedExactlyBelowAll | proxy/quota_engine.py:55-105 | allowed if and only if the projection is below the hard limit of every active policy |
| QuotaEngine.StricterExactly | proxy/quota_engine.py:113-130 | the ranking by allowed part of the limit, limit, percentage, scope (user, team, global, any other) and id |
| QuotaEngine.SnapshotExactly | proxy/quota_engine.py:138-163 | each kind of token at its own price per million, and the total |
| QuotaEngine.DecisionSays | proxy/quota_engine.py:55-105 | the whole decision by its fields: strictest budget, projection, both limits, cost |
| QuotaEngine.HardImpliesSoft | proxy/quota_engine.py:86-95 | reaching the hard limit means having reached the soft one, where that is not set higher |
| QuotaEngine.UnrequestedUsage | proxy/quota_engine.py:165-178 | without requested usage the cost is held against all policies or none, depending on the strictest one's metric |
| QuotaEngine.CostIsOverlooked | proxy/quota_engine.py:165-178 | a request allowed although its cost exceeds an active cost policy |
| QuotaEngine.RunStaysBelow | proxy/quota_engine.py:55-105 | usage that starts below every active hard limit never reaches one, over every run |
| PolicyEngine.CollectPoliciesByScope | proxy/policy_engine.py:105-135 | the loop collects scope by scope and records every scope it looked at |
| PolicyEngine.EvaluatePolicies | proxy/policy_engine.py:34-103 | the early returns give the specified decision |
| PolicyRules.CollectsApplicable | proxy/policy_engine.py:105-135 | exactly the policies that apply to the user are collected |
| PolicyRules.CapIsLeast | proxy/policy_engine.py:137-146 | the cap is the least applicable cap, none if there is none, and an error if one is no number |
| PolicyRules.DecisionIsDeclarative | proxy/policy_engine.py:34-103 | deny overrides, any rule makes a matching allow necessary, over the set of applicable policies |
| PolicyRules.DecisionIsTraced | proxy/policy_engine.py:34-103 | the scopes named, in order, and the ids of the matched policies; the two refusals for the user's own state |
| PolicyRules.DecisionIsOrderFree | proxy/policy_engine.py:105-135 | decision, reason and cap do not depend on the order of policies or the order and repetition of groups |
| PolicyRules.AddingDenyKeepsDenial | proxy/policy_engine.py:59-94 | deny rules added anywhere never turn a denial into an allow |
| PolicyRules.MatchedOrder | proxy/policy_engine.py:112-135 | the matched policies are those covered by a scope, in the order of scopes and within a scope of the list |
| PolicyRules.MatchedSomewhere | proxy/policy_engine.py:112-135 | exactly the applicable positions are matched |
| PolicyRules.MatchedOnce | proxy/policy_engine.py:112-135 | with distinct groups no position is matched twice |
| AuditLogger.Log.RecordSuccess | proxy/audit_logger.py:42-94 | one usage event and one audit event are appended, each with its own id, both with the user, e-mail, models and clock reading, the usage event with tokens, cost and latency |
| AuditLogger.Log.RecordDenial | proxy/audit_logger.py:96-121 | one audit event is appended, with id, actor, e-mail, models, reason, event type and clock reading, and no usage event |
| AuditLogger.Log.RecordAuthDenial | api/proxy_router.py:35-41 | likewise for a failed authentication, which has no user |
| Pipeline.Router.CreateMessage | api/proxy_router.py:22-157 | outcome, limiter, log and calls after the ordered gates equal the specified step |
| Pipeline.Router.Forward | api/proxy_router.py:116-155 | build, call and record, with each failure recorded nowhere |
| Pipeline.Router.StreamWithAudit | api/proxy_router.py:121-140 | a started generator records success with the usage of the events it read; an unstarted one records nothing |
| PipelineRuns.WindowsAreTheLimiters | api/proxy_router.py:94-95 | the limiter inside the pipeline sees exactly the requests that passed the gates before it |
| PipelineRuns.CalledExactlyWhenPassed | api/proxy_router.py:30-142 | a request makes one Bedrock call if it passed authentication, resolution, policy, quota, limit and build, and none otherwise |
| PipelineRuns.EveryCallPassed | api/proxy_router.py:30-142 | every call of a run belongs to a request that passed every gate in the state it found |
| PipelineRuns.CallsPerMinute | api/proxy_router.py:94-142 | at most the limit of Bedrock calls per user and clock minute, over every run |
| PipelineRuns.CallsPerSixtySeconds | api/proxy_router.py:94-142 | at most twice the limit in any sixty seconds |
| PipelineRuns.StepRecords | api/proxy_router.py:30-157 | what one audited request adds to both logs and to the calls, by outcome |
| PipelineAnswers.AnswerExactly | api/proxy_router.py:116-155 | a batch request that passed its gates is answered with the content, thinking, stop reasons and usage of Bedrock's own response if and only if that is complete, else with an error; a streaming one with the decoder's frames for the events read |
| PipelineAnswers.FailsExactly | api/proxy_router.py:30-157 | a request ends in an error if and only if its model cannot be used, its policy not evaluated, the request not built, or Bedrock's answer not used, or its failed authentication not recorded |
| PipelineAnswers.DenialSays | api/proxy_router.py:35-114 | each denial carries the reason of the gate that refused, in the source's words, and the limiter's the seconds to wait |
| PipelineAnswers.SuccessSays | proxy/audit_logger.py:42-94 | every field of the usage event and the audit event of a success, with the usage of the answer given |
| PipelineAnswers.DenialIsRecorded | proxy/audit_logger.py:96-121 | every field of the audit event of a denial |
| PipelineAnswers.UnauditedRecordsNothing | api/proxy_router.py:35-155 | without an audit logger the logs stay as they are, and for a request with a mapping as its body outcome, calls and limiter are the same as with one |
| PipelineRuns.DispatchRecords | api/proxy_router.py:116-155 | a request that cannot be built makes no call; any other makes one, which goes unrecorded if and only if, streaming, the call fails or the stream is never read, or, in a batch, the call fails or a tool use lacks its id or name |
| PipelineRuns.IncompleteAnswerIsLost | proxy/bedrock_converse/response_parser.py:8-64 | every request that passes all gates and is answered in a batch with an incomplete tool use makes its call and adds to neither log |
| PipelineRuns.UnlabelledRun | api/proxy_router.py:142-155 | a run of one such request: one call, no usage event, no audit event |
| PipelineRuns.StepLoses | api/proxy_router.py:116-155 | an audited request adds one call more than usage events if and only if its call is lost, else as many |
| PipelineRuns.LogsAccount | proxy/audit_logger.py:42-121 | over every run: one usage event per success, one audit event per success or denial, as many calls as usage events and lost calls together, and no more calls than requests |
| PipelineRuns.UsageMatchesAudit | proxy/audit_logger.py:54-94 | the usage events are, in order, those of the success events of the audit log, with the same request, user, e-mail, models and clock reading |
| PipelineRuns.DenialIsFirstRefusal | api/proxy_router.py:30-114 | each kind of denial happens if and only if its own gate refused after all earlier ones let the request through |
| PipelineRuns.DenialRecord | proxy/audit_logger.py:133-141 | a denial is recorded under the event type of the gate that refused, with no actor exactly when authentication failed |
| PipelineRuns.SameUsageEitherWay | api/proxy_router.py:117-154 | a stream read to its end records the same usage as the batch answer it streams |
| PipelineRuns.OwnGatesAdmit | api/proxy_router.py:44-92 | with the proxy's own engines a request reaches the limiter if and only if its key authenticates, its model resolves, and its user is active with proxy access |

## Left out

- The INSERT-only SQL of the PostgreSQL repository: the ledger is the upsert store of the in-memory repositories.
- `last_used_at`: recorded but never read back.
- Failing decryption, and failing stores: the encryption service decrypts what it encrypted and stores answer.
- The cache invalidation endpoint beyond removing one user's entry; it is one of the atomic operations of `CachedKeys`.
- The helper's time to live in forms the shell reads as octal: a value is all digits in base ten, or not.
- Stream events that carry several of the known keys at once; each event carries one.
- Streaming signatures and redacted reasoning: the decoder does not carry them.
- The model and inference-profile ids of a build, and the keys of a mapping given where a list is expected.
- A schema given as a list of pairs, which `dict()` would accept: treated as a Python error.
- SchemaHeap.NormalizeSchema: a schema that shares one dict in several places is copied without the sharing; parsed JSON never shares.
- SchemaSemantics.NormalizationStrengthens: does not give `$ref` a meaning, so a reference into `$defs` is not followed; a `oneOf` that injection changes is excluded because the claim is false there, as `OneOfWeakensExactly` says.
- Clock readings in a time zone offset by a fraction of a minute: a clock minute starts at a multiple of sixty seconds.
- Rounding of quota limits and costs: computed over exact reals.
- Model resolution: the resolver is a function that succeeds or fails.
- `fnmatchcase`, `json.dumps`, SHA-256, `uuid4` and `secrets`: parameters, with freshness, injectivity and round trips as stated preconditions.
- `count_tokens`: calls Bedrock without passing policy, quota or limiter.
- The other admin routes, request validation, metrics, infrastructure code and deployment scripts: no state of their own beyond a store.
