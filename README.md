# nobodywho core, modelled in Dafny

This project models the inference core of nobodywho, a library that runs a local language
model in a game engine:

- **the chat state** (`nobodywho/src/chat_state.rs`): the message history, rendered through the
  model's chat template. It includes the recovery for templates that refuse a system message,
  and the incremental "render diff" that sends the model only what is new.
- **the sampler configuration** (`nobodywho/src/sampler_config.rs`): the sampling methods, their
  defaults, and the sampler chain built from them.
- **the worker and its handle** (`nobodywho/core/src/llm.rs`):
  - filling a batch;
  - the "drop the oldest half" context shift;
  - the per-command state machine over the position counter and the key-value cache: read a
    prompt, generate until an end-of-generation token or a stop string, reset;
  - the worker's message loop;
  - the handle's bookkeeping of the chat state: say, receive, wait for a whole response.
- **the chat and embedding drivers** (`nobodywho/core/src/chat.rs`): one turn per user message, and
  a fold that reduces the response stream to a full response.

The modules are:

| file | module | what it holds |
|---|---|---|
| `base.dfy` | `Base` | `Option`, `Result`, and `Outcome`, a result that can also be a Rust panic. Also the 32-bit integer types, binary32 floats kept as bit patterns, and substring search with its lemmas. |
| `llama.dfy` | `Llama` | The part of the llama.cpp binding the core relies on: tokens, sampler stages and chains, and the batch and context classes. The context keeps its key-value cache as a sequence of cells. |
| `chat_state.dfy` | `ChatHistory` | The history, the template engine as two deterministic functions (compile and render), the pure specification of `render`/`render_diff`, and the `ChatState` class. |
| `sampler_config.dfy` | `Sampling` | `SamplerMethod`, `SamplerConfig`, the defaults, and `MakeSampler`. |
| `llm.dfy` | `Llm` | Batches, the context shift, the generation rules, the `WorkerState` class, the worker loop, and the `LLMActorHandle` class. |
| `chat.dfy` | `ChatDriver` | The fold, the chat loop, and the embedding loop. |

Conventions used throughout:

- **Panics.** A failed `assert!` or `debug_assert!`, an `expect` on an error, and an out-of-range
  string slice are all modelled as a `Panic` outcome. Debug assertions are treated as enabled,
  as in the crate's tests.
- **Engine calls are parameters.** The model cannot compute what the engine does, so these
  calls are passed in as deterministic functions: tokenizing, sampling, detokenizing, the
  end-of-generation check, the template engine, the worker's response stream, and the embedder.
- **Channels are sequences.** The handle's command channel is `sent`, its completion channel is
  `inbox`, and the worker's replies are `outputs`.
- **Sampler state.** The sampler chain's internal state is modelled as the history of caches it has drawn from (`seen`). `sample` receives that history and the current cache, and each draw appends the cache it used. The history survives resets and context shifts, as the chain itself does.
- **Worker steps.** What a command works on is a `Memory`: the committed cache and the sampler's history. What it emits and samples is a `Step`. `Handles` states `handle_msg` as a relation between the memory before, the result, the step and the memory after. The worker loop returns the chain of memories it passed through, starting from an empty cache and an empty history, with each command related to the next by `Handles`.

## Model

| member | source | states |
|---|---|---|
| ChatHistory.ConcatSystemAndFirstUserMessages | nobodywho/src/chat_state.rs:35-47 | Requires a system message followed by a user message, as the asserts demand. The result is one message shorter. It starts with a user message holding the system text, a blank line, then the user text. The remaining messages are unchanged, and the result can no longer be merged. |
| ChatHistory.MergeKeepsBothTexts | nobodywho/src/chat_state.rs:39-42 | The merged message still contains the system text and the user text, each intact. |
| ChatHistory.MergeRecovers | nobodywho/src/chat_state.rs:73-81 | When the template compiles, refuses the system role on a mergeable history, and renders the merged history, `render` returns that render and keeps the merged history. Its first message contains both original texts. |
| ChatHistory.Rendering | nobodywho/src/chat_state.rs:65-89 | The history is replaced by the merged one exactly when the template compiles and refuses the system role on a history that can be merged; otherwise it is kept. A success is the template's render of the final history. A failure is exactly the compile error, or a render error of the final history other than the system-role refusal, returned unchanged. A panic occurs exactly when the final history is refused again. |
| ChatHistory.RenderingDiff | nobodywho/src/chat_state.rs:91-102 | Leaves the history `render` leaves. Succeeds exactly when the render succeeds and the remembered length does not pass its end; then the render's first `length` characters followed by the diff give the whole render, and the new length is the render's length. It fails exactly when the render fails, with the render's error. Otherwise (a render panic, or a length past the end) it panics. Any non-success keeps the length. |
| ChatHistory.RenderingStable | nobodywho/src/chat_state.rs:65-89 | After a successful render, rendering the resulting history again gives the same text and the same history. |
| ChatHistory.RenderDiffTwiceIsEmpty | nobodywho/src/chat_state.rs:91-102 | A second `render_diff` with no new message returns the empty string and changes nothing. |
| ChatHistory.RecordsAppend | nobodywho/src/chat_state.rs:58-63 | Appending keeps the history faithful to the messages appended, whether or not it was merged. |
| ChatHistory.RecordsRendering | nobodywho/src/chat_state.rs:65-89 | A render, including the merge, keeps the history faithful to the messages appended. |
| ChatHistory.DiffsRebuildRender | nobodywho/src/chat_state.rs:91-102 | When each render extends the previous one, the successive diffs concatenate to the latest render. Nothing is skipped and nothing is sent twice. |
| ChatHistory.DiffsAt | nobodywho/src/chat_state.rs:95-99 | In a run of renders each extending the one before, the first diff is the first render, and each later diff is its render with the previous render's length cut off. |
| ChatHistory.RenderingDiffRun | nobodywho/src/chat_state.rs:91-102 | In such a run, `render_diff` called with the length the previous call left (0 for the first) returns exactly the next diff, leaves the history `render` leaves, and remembers its own render's length. |
| ChatHistory.ChatState.constructor | nobodywho/src/chat_state.rs:50-56 | An empty history, the given template, and length 0. |
| ChatHistory.ChatState.AddMessage | nobodywho/src/chat_state.rs:58-63 | Appends exactly one message with the given role and content. The length is unchanged. |
| ChatHistory.ChatState.Render | nobodywho/src/chat_state.rs:65-89 | The result and the new history are those of `Rendering` on the old history. |
| ChatHistory.ChatState.RenderDiff | nobodywho/src/chat_state.rs:91-102 | The result, the new history, and the new length are those of `RenderingDiff` on the old state. |
| Sampling.MakeSampler | nobodywho/src/sampler_config.rs:212-302 | The chain has timing switched off and 2 or 3 stages. The first stage is the penalties with the configured values. Greedy has two stages, the second is greedy, and none draws at random. Every other method ends in a drawing stage. The methods other than greedy and mirostat end in a draw with their own seed, and they are exactly the chains containing a separate draw. Both mirostat methods apply the temperature first. |
| Sampling.DefaultPipeline | nobodywho/src/sampler_config.rs:13-28 | The default configuration builds, in order: penalties with window -1 and zero magnitudes; temperature 0.8; mirostat v2 with seed 1234, tau 5.0 and eta 0.1. |
| Sampling.MirostatV1Stage | nobodywho/src/sampler_config.rs:285-292 | Mirostat v1 receives the vocabulary size, the seed, tau, eta, and the constant 100. |
| Sampling.MinPBuildsTopP | nobodywho/src/sampler_config.rs:252-258 | MinP builds a top-p stage from its min-p threshold and its keep count. |
| Sampling.DryAndXtcStages | nobodywho/src/sampler_config.rs:224-270 | DRY stops at newline, colon, double quote and asterisk. XTC and its final draw share the configured seed. |
| Sampling.Defaults | nobodywho/src/sampler_config.rs:62-210 | Top-k keeps 40. Top-p keeps mass 0.95 with no minimum count. Temperature is 0.8. Every variant's default seed is 1234. |
| Llama.Batch.Add | nobodywho/core/src/llm.rs:448 | Appends the entry when there is room. A full batch fails and is left unchanged. |
| Llama.Context.Decode | nobodywho/core/src/llm.rs:419 | Succeeds exactly when the batch is non-empty and fits in the remaining cache. It then commits every entry, in order. On failure nothing changes. |
| Llama.Context.ClearKvCacheSeq | nobodywho/core/src/llm.rs:185-189 | Removes exactly the cells whose positions lie in the range. |
| Llama.Context.KvCacheSeqAdd | nobodywho/core/src/llm.rs:194-199 | Moves exactly the cells whose positions lie in the range. |
| Llm.AddSequence | nobodywho/core/src/llm.rs:141-156 | Succeeds exactly when the tokens fit in the batch. On success, token i is at position `pos + i` and only the last token requests logits. On failure the result is a batch-add error, with the batch filled up to its capacity. |
| Llm.SequenceEntriesShape | nobodywho/core/src/llm.rs:149-153 | Entry i holds token i at position `pos + i`, and requests logits exactly when it is the last entry. |
| Llm.CommitKeepsContiguous | nobodywho/core/src/llm.rs:417-424 | Decoding a batch built at the counter's position keeps the cache contiguous and adds exactly the tokens, in order. |
| Llm.ShiftDropsOldestHalf | nobodywho/core/src/llm.rs:177-204 | On a contiguous cache of n cells, the delete-then-move calls leave exactly the newest n - n/2 cells, at positions 0 onwards. |
| Llm.ApplyContextShifting | nobodywho/core/src/llm.rs:177-204 | Never returns an error. A counter that differs from the cache's token count panics at the first debug assertion, with the cache untouched. On a contiguous cache it returns n/2 and leaves the newest n - n/2 cells, renumbered from 0. |
| Llm.BeforeSample | nobodywho/core/src/llm.rs:434-439 | The cache a round samples from stays contiguous and is never longer than before. When the cache fits, the cache leaves room for one more token, unless the context is shorter than 2. |
| Llm.CacheAfter | nobodywho/core/src/llm.rs:434-450 | The cache after the rounds stays contiguous, and after at least one round its last cell holds the last committed token, at the last position. |
| Llm.DrawnStep | nobodywho/core/src/llm.rs:434-450 | One more round samples from the shifted cache and commits its token right after it. The sampler's history gains that cache. The token counts as drawn exactly when it is the sampler's choice given the history and that cache. |
| Llm.StopRuleStep | nobodywho/core/src/llm.rs:466-480 | Across one emitted piece, the earlier stop checks are unchanged. The check on the response before the piece decides between going on with no stop seen, and ending on a stop string. |
| Llm.GeneratedStep | nobodywho/core/src/llm.rs:456-480 | One round keeps the loop's record. An end-of-generation token ends the loop and is not emitted. Any other token is emitted, and ends the loop when the response before it already contained a stop string. |
| Llm.StopEndedResponseContainsStop | nobodywho/core/src/llm.rs:466-480 | A response ended by a stop string contains that stop string. No earlier response prefix, except the one just before the last piece, contains any stop string. |
| Llm.StopAfterStopPiece | nobodywho/core/src/llm.rs:466-480 | A piece equal to the stop string, after a piece that does not contain it, ends the generation one piece later. The next piece is still emitted. |
| Llm.HorseExample | nobodywho/core/src/llm.rs:756-788 | An instance of `StopAfterStopPiece` on the crate's stop-word test: with stop string "horse", the pieces "giraffe, ", "horse" and ", " end the generation after ", ", and the response is the concatenation of all three pieces. |
| Llm.ContextSize | nobodywho/core/src/llm.rs:341-343 | A positive request at most the training context is used as is. A zero request, or one above the training context, gives the training context. The size is never above the training context, and is zero only when the training context is. |
| Llm.ReadResult | nobodywho/core/src/llm.rs:407-425 | A tokenizer failure, for the text or for `</tool_call>`, gives a tokenizer error. An empty token list, or one not shorter than the context, panics. Tokens that do not fit in the remaining cache give a decode error. Otherwise the read succeeds and the cache gains the tokens at consecutive positions after the old cells. Any non-success leaves the cache unchanged. |
| Llm.WorkerState.constructor | nobodywho/core/src/llm.rs:336-362 | Counter 0 and an empty cache. The context size is the requested size capped by the training context. The big batch has one slot per position and the small batch one slot. The sampler is `MakeSampler` of the configuration. No outputs. |
| Llm.WorkerState.HandleMsg | nobodywho/core/src/llm.rs:397-495 | Ensures `Handles` on the cache and the sampler's history before and after the command. A poisoned inference lock fails with the lock error, changes neither and sends nothing. A read does exactly what `ReadResult` says. A generation does exactly what `Generation` says, including that it gives up only after `fuel` committed tokens. A reset empties the cache and keeps the history. Only generation sends outputs: its tokens, then one Done with their concatenation when it completes. Every failure is one its command can have. |
| Llm.WorkerState.ReadString | nobodywho/core/src/llm.rs:407-425 | Its outcome and the new cache are exactly `ReadResult` on the old cache, so tokens that do not fit fail with a decode error. The counter stays the cache's length. The sampler's history and the outputs are unchanged. |
| Llm.WorkerState.ShiftIfFull | nobodywho/core/src/llm.rs:434-439 | The cache afterwards is `BeforeSample` of the cache before. The counter still equals the cache's length. |
| Llm.WorkerState.SampleNext | nobodywho/core/src/llm.rs:434-450 | The token is the sampler's choice given its history and the shifted cache, and the history gains that cache. The decode succeeds exactly when the shifted cache has room. It then appends the token at the next position. A failed decode implies a context shorter than 2. If the counter starts below n_ctx (with n_ctx at least 3), it stays below n_ctx. |
| Llm.WorkerState.EmitToken | nobodywho/core/src/llm.rs:456-480 | Keeps the generation record (`Generated`). The response is the concatenation of the emitted pieces, and exactly one Token event is sent per emitted piece. |
| Llm.WorkerState.GenerateRound | nobodywho/core/src/llm.rs:434-480 | One round keeps the generation record: the response, the events, the stop rule, the drawn tokens, the cache and the sampler's history. A failed decode leaves the response and the events unchanged, keeps the shifted cache, and adds the draw to the history. |
| Llm.WorkerState.GenerateRounds | nobodywho/core/src/llm.rs:434-480 | The generation loop ends in one of three ways. It completes with the loop's record and the stop rule satisfied. It gives up after exactly `fuel` committed tokens, with the record of a loop that has not stopped. Or a decode fails, possible only in a context shorter than 2: the events so far stay sent, every committed token was drawn on its round's cache, and the cache and history are those the last shift and draw left. |
| Llm.WorkerState.WriteUntilDone | nobodywho/core/src/llm.rs:426-488 | Ensures `GeneratedFrom`, that is `Generation` plus the events. Each committed token is the sampler's choice on the cache its round sampled from, given every cache drawn from before. The final cache and the sampler's history are those the rounds leave (`CacheAfter`, `SeenAfter`). Each emitted piece is the text of its token, and an end-of-generation token is committed but not emitted. Completion follows the stop rule as written. A completed generation sends the Token events, then one Done with the whole response. A failed decode gives a decode error, possible only in a context shorter than 2. `FuelExhausted` comes only after exactly `fuel` committed tokens. It never panics. |
| Llm.CountAfterCommand | nobodywho/core/src/llm.rs:426-493 | A completed generation command adds exactly one Done. Every other command adds none. No command adds a FatalErr. |
| Llm.SentForStep | nobodywho/core/src/llm.rs:364-375 | A completed command appends its events to the outputs, which stay the completed commands' events in order, with one Done per generation command and no FatalErr. A failing command's partial events add no Done and no FatalErr. |
| Llm.CompletionWorkerActor | nobodywho/core/src/llm.rs:332-380 | Handles commands in order, each on the state the previous one left. `memories` starts from an empty cache and an empty sampler history. Command i satisfies `Handles` from `memories[i]` to `memories[i + 1]` with `steps[i]`, with the worker's context size, sampler chain and stop strings (`HandledRun`); the failing command satisfies it with its error. It ends Ok exactly when every command was handled, and the outputs are then each command's events, in order. Otherwise it stops at the first failing command, with an error that command can have; the outputs are the earlier commands' events followed by what the failing one sent before failing. It never sends FatalErr, and the Done count equals the number of generation commands handled. A poisoned lock fails on the first command with nothing sent. |
| Llm.ServedStep | nobodywho/core/src/llm.rs:365-368 | A completed command extends the worker's record (`Served`): its step and memory join the run, its texts join `pieces`, and its events follow the earlier ones. |
| Llm.ServedFailed | nobodywho/core/src/llm.rs:369-371 | When a command fails, the run of completed commands stands, the failing command's step satisfies `Handles` with its error, and the outputs are the earlier events followed by its partial ones. They then hold no FatalErr, and one Done per completed generation. |
| Llm.FirstTerminal | nobodywho/core/src/llm.rs:292-301 | Every event before the index is a Token. The event at the index, if any, is a Done or a FatalErr. |
| Llm.GenerationReadBack | nobodywho/core/src/llm.rs:292-301 | The events of one completed generation are read back as exactly one response: the Done after the streamed pieces, carrying their concatenation. |
| Llm.LLMActorHandle.constructor | nobodywho/core/src/llm.rs:214-247 | A handle with an empty chat over the template, with nothing sent or received. |
| Llm.LLMActorHandle.WithSystemMessage | nobodywho/core/src/llm.rs:249-254 | Appends one system message. The length is unchanged. |
| Llm.LLMActorHandle.Say | nobodywho/core/src/llm.rs:256-266 | Appends the user message, then does what `RenderingDiff` does. A render failure becomes a template error and a render panic a panic; in both cases nothing is sent. With the worker gone it is a send error. Otherwise it sends exactly a read of the diff, then a generation command. |
| Llm.LLMActorHandle.HandleLLMOutput | nobodywho/core/src/llm.rs:268-278 | Token and FatalErr change nothing. A Done appends the assistant's response and renders the diff; any render failure panics. |
| Llm.LLMActorHandle.Recv | nobodywho/core/src/llm.rs:286-290 | Takes the oldest output and hands it to `handle_llmoutput`. An empty channel (where the real call would wait) reports Empty and changes nothing. |
| Llm.LLMActorHandle.TryRecv | nobodywho/core/src/llm.rs:280-284 | An empty channel is reported and nothing changes. Otherwise it takes the oldest output. A Token or FatalErr is returned and changes nothing. A Done updates the chat as `handle_llmoutput` does, and is returned exactly when that render succeeds, panicking otherwise. |
| Llm.LLMActorHandle.GetResponseBlocking | nobodywho/core/src/llm.rs:292-301 | Consumes through the first Done or FatalErr and returns its response or error. A Done updates the chat as `handle_llmoutput` does. With no terminal event queued, everything is consumed and it blocks. |
| ChatDriver.FoldResultIsLastItem | nobodywho/core/src/chat.rs:65-82 | The fold's result depends only on the last item: a token gives None, a Done gives its response, an error gives the error. An empty stream keeps the initial None. |
| ChatDriver.FoldEffects | nobodywho/core/src/chat.rs:65-80 | The fold emits exactly what the items emit, in stream order. |
| ChatDriver.StreamEffects | nobodywho/core/src/chat.rs:65-80 | An item emits its own effects at its place in the stream, between what the items before and after it emit. |
| ChatDriver.EmittedTokens | nobodywho/core/src/chat.rs:68-72 | Each token text is emitted as many times as the stream carries it. |
| ChatDriver.EmittedErrors | nobodywho/core/src/chat.rs:73-77 | Each error is emitted as many times as the stream carries it. |
| ChatDriver.EmittedNoResponse | nobodywho/core/src/chat.rs:65-80 | The fold itself never emits a response. |
| ChatDriver.AnsweredTurns | nobodywho/core/src/chat.rs:57-88 | Every emitted response is the Done of its own turn's stream. |
| ChatDriver.DialogueStep | nobodywho/core/src/chat.rs:57-88 | A turn adds the user's message, and the assistant's message once it is answered. |
| ChatDriver.TurnEffectsStep | nobodywho/core/src/chat.rs:65-87 | A turn adds the fold's effects, then its response if it has one. |
| ChatDriver.AddUserMessage | nobodywho/core/src/chat.rs:58-59 | Appends the user message and renders the diff. It yields the diff on success, and None (the loop panics) otherwise. |
| ChatDriver.AddAssistantMessage | nobodywho/core/src/chat.rs:86-87 | Appends the response and renders the diff, ignoring a render error. It reports a panic exactly when the render panics. |
| ChatDriver.ChatTurn | nobodywho/core/src/chat.rs:57-88 | The prompt, the fold, the panic flag, and the new history and length are exactly `Turn` on the old state. A missing prompt panics. A panic otherwise needs a response. The messages appended are the user's, then the assistant's exactly when the fold produced a response. |
| ChatDriver.TurnSpec | nobodywho/core/src/chat.rs:57-88 | There is a prompt exactly when the full render with the user's message succeeds and does not end before the remembered length. The prompt is then that render's new tail. The fold is over the worker's stream for the prompt. The turn panics exactly when there is no prompt, or when a response came back and rendering the assistant's message panics. |
| ChatDriver.TurnRecords | nobodywho/core/src/chat.rs:57-88 | A turn keeps the history faithful to the messages appended: the user's message, then the assistant's when the stream gave a response. |
| ChatDriver.RanStep | nobodywho/core/src/chat.rs:57-88 | The next turn, run on the state the earlier turns left, extends the record of turns, each run on the state its predecessors left. |
| ChatDriver.RecordStep | nobodywho/core/src/chat.rs:58-86 | A turn's prompt, and its response when it has one, are appended to those of the earlier turns. |
| ChatDriver.ProgressStep | nobodywho/core/src/chat.rs:57-88 | A turn extends the loop's record: the run, the prompts, the responses (each its own turn's Done), and the effects. The next state is the one the turn left. |
| ChatDriver.RecordTurn | nobodywho/core/src/chat.rs:59-87 | The prompt and the response join the record, the effects grow by the fold's and the response's. The loop stops with a panic exactly when the turn panicked, goes on exactly when the turn completed, never stops with Ok, and a failure is NoResponseError or the worker's error from the turn's stream. |
| ChatDriver.LoopTurn | nobodywho/core/src/chat.rs:57-88 | One iteration is exactly `Turn` on the chat state. The record is extended as `RecordTurn` says and the messages appended grow by the turn's. The loop stops with a panic exactly when the turn panicked and goes on exactly when it completed. A missing result stops it with NoResponseError, and a worker error with that error. |
| ChatDriver.LoopingContinues | nobodywho/core/src/chat.rs:57-88 | A completed turn keeps the loop going: every turn so far completed, and the state is the one the last turn left. |
| ChatDriver.LoopingEnds | nobodywho/core/src/chat.rs:57-88 | A turn that does not complete ends the loop with its panic or failure. Every earlier turn completed, and the state is the one the turn left. |
| ChatDriver.StepConcludes | nobodywho/core/src/chat.rs:57-88 | One iteration extends the loop's record, and either keeps the loop going or ends it as `Ended` says. |
| ChatDriver.ChatLoopStep | nobodywho/core/src/chat.rs:57-88 | One iteration on the chat state: the record grows by exactly one turn, the messages appended by the turn's, and the loop goes on or ends as `StepConcludes` says. |
| ChatDriver.ChatLoop | nobodywho/core/src/chat.rs:57-92 | Runs the turns in order, each `Turn` on the state the ones before it left, until every user message is answered or a turn ends the loop. The record, the messages appended and the way it ends are those `Ended` gives. |
| ChatDriver.SimpleChatLoop | nobodywho/core/src/chat.rs:39-93 | Starting from the system message, each turn is `Turn` on the state the turns before it left, so every prompt is that turn's render diff. Every turn before the last completed. Ok exactly when every user message was answered. A panic exactly when the last turn panicked: its user render failed, or its assistant render panicked. A failure is the last turn's stream ending without a result (NoResponseError) or with the worker's error. Every response is its turn's Done. The history records the system message, then each turn's user message and response, and the effects are each turn's stream effects followed by its response. |
| ChatDriver.SimpleEmbeddingLoop | nobodywho/core/src/chat.rs:108-119 | Embeds texts in order, emitting each embedding. It is Ok exactly when all were embedded. Otherwise it fails with the embedder's error on the first text that failed. |

## Left out

- Embedding worker (`run_embedding_worker`, `run_embedding_worker_result`), `cosine_similarity` and `dotproduct`: floating-point computation, which the model does not perform.
- `get_model` and `has_discrete_gpu`: file-system and GPU-device queries.
- Threads, channels and the global inference lock: modelled sequentially. Channels are sequences and the lock is a poisoned-or-not flag. Interleaving between handles sharing one worker is not modelled.
- Worker set-up errors (thread count, context creation) and the handle constructor's template and token `expect` panics: these are engine and OS calls. The handle is built from a template string that is already available.
- Send failures on the completion channel: the handle keeps a sender and the receiver for its whole life, so the worker's sends cannot fail while the handle exists. The `SendError` path is not modelled.
- `Llm.WorkerState.ReadString`: a decode failure for reasons other than cache space (engine compute errors) is not modelled. Decode fails only for an empty batch or a full cache.
- `Llama.Context.Decode`: llama.cpp pads the context size; the model uses the requested size as is.
- `Llm.WorkerState.WriteUntilDone`: generation is bounded by a `fuel` parameter. A generation still running after `fuel` committed tokens ends as `FuelExhausted`, which the source has no counterpart for; the source loops until a stop.
- `Llm.WorkerState.SampleNext`: the counter's 32-bit range is not checked beyond the invariant `n_ctx <= i32::MAX`, and `n_ctx - 1` is computed without wrap-around.
- `Llm.WorkerState.SampleNext`: `sample` is given the cache after the shift and the sampler's history. llama.cpp samples from the logits of the last decode, which the model does not compute.
- `ChatHistory.RenderingDiff`: lengths count characters, whereas the source counts UTF-8 bytes. Panics from slicing inside a multi-byte character are not modelled.
- `dbg!`, `println!` and `print_kv_cache` output: I/O. The `</tool_call>` tokenization is kept only for its error path.
- The chat loop's calls `ChatState::from_model` and `generate_response` come from a newer API than the handle in `llm.rs`. The loop is modelled over a chat state built from a template string, with the worker's response stream as a function of turn and prompt.
- `ChatTemplateError` and `InitWorkerError` (`nobodywho/core/src/chat.rs:48`, `:53`, `:113`): reading the chat template from the model file and starting the worker are set-up steps over the model file and the OS. The loops start from a template string and a worker stream that are already available.
- `nobodywho/src/lib.rs` and `nobody/src/lib.rs` (engine bindings): not part of this model.
