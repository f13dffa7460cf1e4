# A verified model of the AI DBA agent

The repository lets a language model investigate a PostgreSQL server through eight read-only
diagnostic tools. Three layers of it carry state, and their combined promises are what this
project proves: a token-bucket limiter in front of every tool, the pipeline each tool call goes
through with the ledgers it leaves behind, and the agent loop with its transcripts, its
sanitizer, its evidence gate and the offline playbook that stands in for a language model. The
evaluation harness around them (the scorer and the lock-contention scenario) is included.

`dafny verify dfyconfig.toml` checks everything.

## How it is organised

- `RateLimit` is the limiter as a class. `TokenClock` is its mathematics, with time measured in
  tokens earned; `LimiterHistory` carries it over to the code's refill arithmetic, `LimiterKeys`
  to many keys, and `LimiterThreads` to threads that interleave inside `try_acquire`.
- `Tools` is the wrapper around a tool with the audit log, the counter, the histogram, the gauge
  and the context variable. `Pipeline` cuts it into the steps that concurrent calls may come
  between, `Solo` shows that an uninterrupted call is the sequential wrapper, `Contexts` what
  one execution context sees, and `LoadBound` composes the pipeline with the limiter.
- `Loop` is the agent loop, as a function of an arbitrary model and an arbitrary world and as
  the imperative code that refines it. `LoopSafety` proves what every run keeps, `LoopOutcome`
  how a run ends and which tools it calls. `Transcripts`
  and `ChatTranscripts` are the three provider adapters.
- `Sanitize`, `Schemas`, `Json` and `Text` are the values the loop works on. `Playbook` and
  `PlaybookRuns` are the offline playbook and its runs through the real loop. `Scorer`,
  `OfflineScores` and `Chaos` are the evaluation harness.

Code that updates state is a class or a method proved against a function; the theorems are about
these functions, so they hold of the methods.

`Drip(t)` is `refill * t`, so `Drip(to) - Drip(from)`, like `Gain(to - from)`, is what a bucket
earns in a window. `Room` of a window is the capacity plus what was earned in it minus what was
granted in it. Three premises recur: `Sane` (correlation ids are never empty, tool bodies leave
the keys `status`, `tool` and `correlation_id` to the wrapper, and calls of other contexts carry
other contexts), `HexIds` (ids are twelve hexadecimal digits) and `Respectful` (the second part
of `Sane`, for one body). The code meets all three: `mcp_server/audit.py:34` makes the ids, and
none of the eight tools returns one of the three keys.

## Where the code does less than its documentation says

- `README.md:272-274` of the repository says that the schema rejects evidence that was not
  produced in this run. It does not: it compares the evidence with the list the model itself
  supplies. `LoopSafety.FabricationPassesTheSchema` gives, for any id, a run that calls no tool
  and has a diagnosis citing that id accepted. `LoopSafety.EvidenceIsRealIff` is the exact
  condition: the evidence of an accepted diagnosis belongs to audit records of the run if and
  only if every cited id is among the ids the run itself reports. The cross-check that
  `agent/loop.py:19-25` describes but does not perform is sufficient
  (`LoopSafety.EvidenceIsSound`).
- The limiter admits calls, not database work. A call that has been admitted may wait before its
  body starts, so bodies can bunch up: `LoadBound.SimpleBoundIff` shows that "at most
  capacity + refill * length bodies start in any window" holds in every run exactly when the
  limiter never refills or never grants. `LoadBound.StartsPerContext` is the bound that always
  holds, with one more for each context that has called the tool, and
  `LoadBound.PromptStartsInWindow` the one for calls that start promptly.
- Unwrapping a sanitized string does not always recover it: `Sanitize.RoundTripIff` says exactly
  when. Sanitizing is not always invisible to the playbook:
  `PlaybookRuns.SanitizingIsTransparentIff` says exactly when.
- The playbook's answer is rejected by the schema when it reports a count of more than 436
  digits, and in no other case (`PlaybookRuns.LongRunsDiagnose`).
- A diagnosis that finds nothing abnormal still scores at least a third on each chaos scenario
  (`OfflineScores.FiredRulesScore`).

## Model

| member | source | states |
|---|---|---|
| RateLimit.RateLimiter.constructor | mcp_server/rate_limit.py:23-27 | a new limiter has its settings and no buckets |
| RateLimit.RateLimiter.BucketFor | mcp_server/rate_limit.py:29-34 | finds the key's own bucket, or adds a full one and changes no other; distinct keys never share a bucket |
| RateLimit.RateLimiter.TryAcquire | mcp_server/rate_limit.py:36-45 | the answer and the whole new table are those of the functional limiter the theorems below are about; every other key's bucket is untouched |
| TokenClock.ClosedForm | mcp_server/rate_limit.py:40-45 | for any answers, the level of a capped bucket is the minimum over all windows ending now of their room: a lower bound that is attained |
| TokenClock.NeverOverdrawnIffWindowSafe | mcp_server/rate_limit.py:40-45 | a choice of answers never overdraws such a bucket if and only if no window holds more grants than capacity plus earnings |
| TokenClock.OfferIsLevel | mcp_server/rate_limit.py:40-45 | the code's bucket is that bucket under the code's own answers |
| TokenClock.GreedyIsOptimal | mcp_server/rate_limit.py:36-45 | at every prefix the bucket has granted at least as many calls as any window-safe rival |
| TokenClock.DeletionKeepsTheBucket | mcp_server/rate_limit.py:40-45 | deleting any denied calls leaves the level the same at every later instant, although each of them wrote both fields |
| TokenClock.DeniedCallsAreInvisible | mcp_server/rate_limit.py:40-45 | deleting any denied calls leaves every other answer the same |
| LimiterHistory.SameBucket | mcp_server/rate_limit.py:29-45 | lazy capped refill in seconds equals the bucket on the token clock, whenever the bucket was created |
| LimiterHistory.SameAnswers | mcp_server/rate_limit.py:36-45 | so do all the answers |
| LimiterHistory.TokensAreTheTightestWindow | mcp_server/rate_limit.py:36-45 | for every history, the tokens before a decision are the minimum over earlier calls i of capacity + refill * (now - t_i) - grants since i |
| LimiterHistory.GrantedIffWindowsFit | mcp_server/rate_limit.py:36-45 | a call is granted if and only if granting it keeps every window ending now within capacity + refill * length |
| LimiterHistory.LimiterIsGreedyOptimal | mcp_server/rate_limit.py:36-45 | the limiter's answers are window safe, and no window-safe rival is ever ahead of it |
| LimiterHistory.LimiterForgetsDenials | mcp_server/rate_limit.py:36-45 | deleting denied calls from any run changes no other answer, even if the bucket is then created later |
| LimiterKeys.BucketOfKey | mcp_server/rate_limit.py:29-34 | a key has a bucket exactly when it has been called, and it is the bucket of that key's calls alone |
| LimiterKeys.KeysAreIndependent | mcp_server/rate_limit.py:29-45 | in any interleaved run the answers on a key are those of a limiter that saw only that key, created at any earlier time |
| LimiterKeys.OneKeyWindow | mcp_server/rate_limit.py:36-45 | one key is granted at most capacity + refill * length in any window of time |
| LimiterKeys.GrantsInAnyWindow | mcp_server/rate_limit.py:36-45 | m keys together are granted at most m * (capacity + refill * length) in any window of any run |
| LimiterThreads.EveryScheduleIsSequential | mcp_server/rate_limit.py:36-45 | under every schedule of threads the answers, in decision order, are the sequential limiter's, each thread gets its own, and with the lock free the table is the sequential one |
| LimiterThreads.MutualExclusion | mcp_server/rate_limit.py:27-37 | no two threads are ever inside the lock |
| LimiterThreads.BucketsStaySound | mcp_server/rate_limit.py:38-45 | at every step of every schedule, 0 <= tokens <= capacity and last is not in the future |
| LimiterThreads.StepKeepsInv | mcp_server/rate_limit.py:36-45 | every step of every thread keeps the invariant that ties the half-done call to the sequential limiter |
| Tools.ToolServer.NewCorrelationId | mcp_server/audit.py:32-36 | sets the id of this context and of no other |
| Tools.ToolServer.GetCorrelationId | mcp_server/audit.py:39-40 | the context's current id, or "-" when it never had one |
| Tools.ToolServer.Audit | mcp_server/audit.py:55-78 | appends one record, with the context's current id, and changes nothing else |
| Tools.ToolServer.Record | mcp_server/metrics.py:61-66 | one increment and one observation of one series |
| Tools.ToolServer.ShiftGauge | mcp_server/metrics.py:38-42 | moves one tool's gauge |
| Tools.ToolServer.Close | mcp_server/tools/base.py:110-127 | audit, metrics and envelope of an exit |
| Tools.ToolServer.Call | mcp_server/tools/base.py:40-129 | the wrapper leaves the ledgers and returns the envelope of the functional wrapper, on all four exits |
| Tools.OneCallOneRecord | mcp_server/tools/base.py:40-129 | on every exit: one audit record with the call's own id, one increment and one observation of the right series and no other, every gauge back where it was, and an envelope that agrees with the record |
| Tools.EnvelopeTells | mcp_server/tools/base.py:44-127 | under any key the caller finds, after a success, what the tool returned there, and otherwise the standard field; after a refusal, an invalid input or an exception, the error under "error" and the standard fields |
| Tools.RecordTells | mcp_server/tools/base.py:44-121 | the whole new audit line of each exit: id, tool, validated or raw parameters, status, duration, row count exactly for a returned list of rows, and error |
| Json.SpreadWins | mcp_server/tools/base.py:122-127 | spreading a dictionary last puts its values over the standard fields |
| Tools.EnvelopeFields | mcp_server/tools/base.py:122-127 | spreading a result that avoids the reserved keys keeps status, tool and correlation id |
| Pipeline.StepKeepsMetrics | mcp_server/metrics.py:61-66 | every step of every call keeps each counter and each histogram equal to the number of calls that have written to it |
| Pipeline.StepKeepsGauge | mcp_server/tools/base.py:89-129 | every step keeps the gauge equal to the calls inside the try block |
| Pipeline.StepKeepsLines | mcp_server/audit.py:55-78 | every step keeps audited calls and audit lines in one-to-one correspondence |
| Pipeline.StepKeepsIds | mcp_server/audit.py:32-40 | every step keeps ids distinct and each context's current id that of its own call in flight |
| Pipeline.LedgersAgreeAlways | mcp_server/tools/base.py:40-129 | all of these hold in every reachable state of every interleaving of calls |
| Pipeline.CallsAreConserved | mcp_server/tools/base.py:40-129 | in every reachable state the calls begun for a tool are its four status counters plus the calls pending, and its gauge is the calls in the execute region |
| Pipeline.DrainedLedgersAgree | mcp_server/tools/base.py:40-129 | once nothing is in flight, audit lines, counter and histogram agree series by series, nothing is pending and every gauge is zero |
| Pipeline.ReturnedCallMatchesItsLine | mcp_server/tools/base.py:110-127 | a returned call has exactly one audit line, and its envelope carries that line's id, tool and status |
| Solo.UninterruptedCallIsServe | mcp_server/tools/base.py:40-129 | the steps of a call that nobody interrupts have the effect and the envelope of the sequential wrapper |
| Contexts.OneAtATimeAlways | mcp_server/tools/base.py:40-41 | in every reachable state all but the last call of a context have returned |
| Contexts.TrailsAgreeAlways | mcp_server/audit.py:55-78 | in every reachable state the audit lines of a context carry the ids of its audited calls, in the order in which they began, whatever is interleaved |
| LoadBound.HistoryAgrees | mcp_server/tools/base.py:44-92 | in every reachable state the shared buckets are those of the limiter's history, and its grants are the calls that passed it |
| LoadBound.GrantsAreConserved | mcp_server/tools/base.py:44-92 | grants = bodies started + invalid inputs + granted calls on their way to their body |
| LoadBound.GrantsInWindow | mcp_server/tools/base.py:44-60 | over every interleaving, at most capacity + refill * length calls of a tool pass the limiter in any window |
| LoadBound.StartsInWindow | mcp_server/tools/base.py:44-92 | bodies started in a window are at most that, plus those admitted before the window and held back until it |
| LoadBound.TurnsAlwaysInOrder | mcp_server/tools/base.py:44-92 | in one context a later call passes the limiter no earlier than an earlier one's body starts |
| LoadBound.HeldBackByContext | mcp_server/tools/base.py:44-92 | so each context holds back at most one call until a window |
| LoadBound.StartsPerContext | mcp_server/tools/base.py:44-92 | whatever the delays, at most capacity + refill * length bodies start in a window, plus one for each context that has called the tool |
| LoadBound.PromptStartsInWindow | mcp_server/tools/base.py:44-92 | if no call takes longer than a delay from limiter to body, at most capacity + refill * (length + delay) bodies start in a window |
| LoadBound.BurstAtOneInstant | mcp_server/tools/base.py:44-92 | with a refill and a capacity of at least one, any number of bodies can start at one instant |
| LoadBound.SimpleBoundIff | mcp_server/tools/base.py:44-92 | the bound without a delay holds in every run if and only if refill is zero or capacity is below one |
| Loop.ObserveCall | agent/loop.py:133-154 | one call: allowlist, server, id ledger, sanitizer, tool result |
| Loop.CallTurn | agent/loop.py:132-154 | all the calls of a turn, in order, or the exception of a malformed one |
| Loop.TakeTurn | agent/loop.py:101-156 | one iteration leaves the rest of the run unchanged |
| Loop.RunLoop | agent/loop.py:89-163 | the loop's outcome, calls on the model and effects on the server are those of the functional run |
| LoopSafety.LoopProtocol | agent/loop.py:97-163 | for any model: start (next_turn submit)* with at most one trailing next_turn, at most max_steps turns, each batch answered by results of the same length and ids, and exactly one of diagnosis and error |
| LoopOutcome.RunEndsAsItMust | agent/loop.py:101-163 | the outcome can be read off the calls on the model: after max_steps turns without a final or empty one the step error; after a final turn its answer, judged; after an empty turn its error; and an exception only when the model raises or asks for a malformed call |
| LoopOutcome.CallAllRaisesIff | agent/mcp_client.py:161-170 | a turn raises if and only if one of its calls names a tool and brings arguments that are not a dictionary |
| LoopOutcome.CallTells | agent/loop.py:133-154 | what the server is asked, what the model is shown and which id is kept, for each call; a name outside the eight reaches nobody and is answered with the unknown-tool fields |
| LoopOutcome.RunCallsWhatTheModelAsked | agent/loop.py:132-156 | the audit records of a finished run name, in order, exactly the tools its model asked for |
| LoopSafety.CallAllAnswers | agent/loop.py:132-156 | the results of a batch carry the ids of its calls, in order |
| LoopSafety.ObserveTrail | agent/loop.py:135-139 | a call adds its id both to the run's list and to the audit trail of its context, or, off the allowlist, to neither |
| LoopSafety.RunIdsAreTheAuditTrail | agent/loop.py:99-139 | the ids of a run are the ids of the audit records its context wrote, in order, whatever other contexts wrote in between, and as many as the allowlisted calls |
| LoopSafety.ContinueTrail | agent/loop.py:101-139 | the same at every iteration, also for a run that ends in an exception |
| LoopSafety.ContinueAppends | mcp_server/audit.py:55-78 | the audit log only grows during a run |
| LoopSafety.RunRecordedIffReported | agent/loop.py:99-139 | a finished run wrote an audit record with an id if and only if it reports the id |
| LoopSafety.EvidenceIsRealIff | agent/schemas.py:47-56 | every id a returned diagnosis cites belongs to an audit record of this run if and only if every cited id is among the run's own ids |
| LoopSafety.EvidenceIsSound | agent/schemas.py:30-56 | a returned diagnosis has evidence for each finding, drawn from its own list; if that whole list passes the documented cross-check, its evidence is real |
| LoopSafety.FabricationPassesTheSchema | agent/schemas.py:47-56 | any made-up id can be cited in an accepted diagnosis, by a run that called no tool and left every ledger as it was |
| LoopSafety.FinishedRunsSettle | agent/loop.py:101-163 | a run that returns a result leaves no batch of calls unanswered |
| Transcripts.ProtocolIsPaired | agent/loop.py:101-156 | in every history the loop can produce, each request is answered once, in order, by its own id, before anything else is said; what is pending is what the last turn asked for |
| Transcripts.RunsArePaired | agent/loop.py:101-163 | and nothing is pending once a run has returned a result, for any model whose final turns ask for no calls |
| Transcripts.AnthropicLLM.Start | agent/llm.py:123-130 | forgets earlier messages and opens with the question |
| Transcripts.AnthropicTurnTells | agent/llm.py:144-168 | the turn's calls are the tool-use blocks of the reply and the record its tool uses and texts, in order, each with its own id, name and input, empty when falsy; without a tool use the answer is the decoded texts, one to a line |
| Transcripts.AnthropicLLM.NextTurn | agent/llm.py:132-168 | asks the provider with the messages so far, reads its reply as just described, and appends one message |
| Transcripts.AnthropicLLM.SubmitToolResults | agent/llm.py:170-183 | appends one user message with all the results |
| Transcripts.AnthropicRecordsTurn | agent/llm.py:144-168 | the recorded assistant message asks for exactly the calls handed to the loop, with ids, names and arguments |
| Transcripts.AnthropicRuns | agent/llm.py:109-183 | in every run, roles alternate from the user, the wire transcript says what the neutral run said (ids, names, arguments, result contents), every tool use but the last turn's is answered once and in order, and every one of them once the run has returned a result |
| ChatTranscripts.OpenAILLM.NextTurn | agent/llm.py:238-280 | asks the provider with the messages so far; each call of the reply becomes one with its own id, name and decoded arguments, none when they are empty or not JSON; without calls the content is the answer; the message recorded has the reply's content and calls |
| ChatTranscripts.OpenAILLM.SubmitToolResults | agent/llm.py:282-290 | appends one tool message for each result, in order |
| ChatTranscripts.OpenAIRuns | agent/llm.py:191-290 | the same pairing for the OpenAI transcript: it says what the neutral run said, and a run that returned a result has every call answered once, in order, by its own id |
| ChatTranscripts.OllamaLLM.ReadCall | agent/llm.py:370-382 | a call as Ollama sends it becomes the loop's call: its own id or one made from position and name, arguments decoded when they come as text, none when they are missing, falsy or not JSON |
| ChatTranscripts.OllamaLLM.NextTurn | agent/llm.py:336-385 | the same for Ollama, reading each call in this way |
| ChatTranscripts.OllamaLLM.SubmitToolResults | agent/llm.py:387-396 | appends one tool message for each result, in order |
| ChatTranscripts.OllamaRuns | agent/llm.py:298-396 | the same pairing for the Ollama transcript, with the made-up ids the ones answered |
| Sanitize.SanitizeIsLeafwiseWrap | agent/sanitize.py:27-43 | a value is the sanitized one if and only if it has the shape, keys and other scalars of the input, and its k-th string leaf is the input's, cut at 2000 characters with the marker, between the two tags |
| Sanitize.SanitizedSize | agent/sanitize.py:24-43 | no string leaf leaves longer than 2035 characters, nor all of them together longer than 2035 times their number |
| Sanitize.SuspiciousIffSomeLeaf | agent/sanitize.py:46-54 | the recursive search is true if and only if some string leaf matches |
| Sanitize.RoundTripIff | eval/rule_llm.py:66-70 | removing the tags gives the wrapped string back if and only if it contains neither tag and fits under the cap or ends where the cap would have cut it, in the marker |
| Sanitize.WrapIsInvisible | eval/rule_llm.py:66-70 | up to the cap, removing tags after wrapping equals removing tags, even from a text that contains some |
| Text.RemoveAllSeam | eval/rule_llm.py:68-70 | left-to-right removal distributes over a seam that no occurrence can straddle |
| Text.RemoveAllAtFirst | eval/rule_llm.py:68-70 | removal keeps the text before the leftmost occurrence and goes on after it |
| Text.DecimalValue | eval/rule_llm.py:120 | the digits of a number stand for the number |
| Text.RemoveAllIdentity | eval/rule_llm.py:68-70 | removal changes a string exactly when the pattern occurs in it, and then shortens it by at least the pattern |
| Schemas.AcceptedIsValid | agent/schemas.py:17-56 | whatever JSON a model answers with, an accepted diagnosis meets the length bounds and has evidence for each finding from its own list |
| Schemas.AcceptedIff | agent/schemas.py:17-56 | validation accepts a JSON value as a diagnosis if and only if the value is well formed and says exactly this: known keys only, lengths, defaults, non-empty evidence from the list of calls |
| Schemas.RoundTrip | agent/schemas.py:17-56 | encoding then validating is the identity on valid diagnoses and rejects all others |
| Playbook.RuleBasedLLM.SubmitToolResults | eval/rule_llm.py:42-47 | appends the decodable results, in order, and drops the others |
| Playbook.RuleBasedLLM.NextTurn | eval/rule_llm.py:49-57 | the next tool of the playbook, then the diagnosis: what the playbook's policy answers to the calls so far |
| Playbook.CollectIds | eval/rule_llm.py:61-71 | the string ids of the results, first the opening and then the closing tags removed, in order; raises exactly when a result is not a dictionary |
| Playbook.SlowRule | eval/rule_llm.py:74-88 | one finding for every result with a value Python counts as true under one of the two slow-query keys |
| Playbook.LockRule | eval/rule_llm.py:91-108 | true if and only if some result has, under "rows", a list with a dictionary that has the key "blocked_pid" |
| Playbook.IdleRule | eval/rule_llm.py:111-131 | the first integer of at least three under "health" and "idle_in_transaction", if there is one |
| Playbook.BuildDiagnosis | eval/rule_llm.py:61-148 | the encoding of the diagnosis that PlaybookRuns.DiagnosisTells describes |
| PlaybookRuns.DiagnosisTells | eval/rule_llm.py:61-148 | the whole diagnosis in terms of the results alone: a slow-query finding for each result that lists some, the lock finding if and only if a row of a blocked session is there, the leak finding with the first reported count, the quiet one if and only if there is nothing else, all citing every id |
| PlaybookRuns.PlaybookTurnTells | eval/rule_llm.py:23-57 | the first four turns ask for the four tools in their order, every later one is the diagnosis, or raises when a result is not a dictionary |
| PlaybookRuns.SanitizingIsTransparentIff | eval/rule_llm.py:61-148 | the diagnosis from sanitized results equals the one from raw results if and only if no result has an empty string as its only sign of slow queries and no id is lost to the 2000-character cap |
| PlaybookRuns.DiagnosisIsValidIff | eval/rule_llm.py:111-148 | the diagnosis fits the schema if and only if there is an id to cite and the idle count has at most 436 digits |
| PlaybookRuns.DecimalLength | eval/rule_llm.py:120 | a number is written in at most k digits if and only if it is below ten to the k |
| PlaybookRuns.PlaybookCall | eval/rule_llm.py:49-57 | each playbook call reaches the server, and its id can be read back from the sanitized envelope |
| PlaybookRuns.ShownIsSanitized | agent/loop.py:135-156 | at every step of a playbook run, what it has been shown is what the server returned, sanitized |
| PlaybookRuns.PlaybookCallsFourTools | eval/rule_llm.py:24-57 | a run of five steps or more leaves exactly four audit records in its context, one for each tool of the playbook, in order |
| PlaybookRuns.ShortRunsFail | agent/loop.py:158-163 | with k <= 4 steps the run ends in the step error with exactly k ids |
| PlaybookRuns.LongRunsDiagnose | eval/rule_llm.py:42-148 | with five steps or more, whatever the limiter, the input models and the tools do, the run reports the server's four ids in call order and its diagnosis lists exactly these; the schema rejects it only for a count of over 436 digits |
| PlaybookRuns.SixtyFourBitRunsDiagnose | eval/rule_llm.py:42-148 | a count that fits 64 bits is never rejected |
| PlaybookRuns.RunDiagnosesRawResults | eval/rule_llm.py:61-148 | with five steps or more the run's diagnosis is the one the rules give on what the tools returned before sanitizing, if and only if no tool returned an empty string as its only sign of slow queries |
| Scorer.ScoreDiagnosis | eval/scorer.py:30-56 | matched and missing keywords in the order given, and the fraction matched; nothing matches without a diagnosis |
| Scorer.ScoreTells | eval/scorer.py:17-56 | without a diagnosis nothing matches and the score is zero; with one, the matched keywords are those that occur in its text, in order, the missing ones the rest; the score times the number of keywords is the number matched, and it passes when that is at least half |
| Scorer.HaystackIs | eval/scorer.py:38-42 | the text searched is the summary and every finding and action, with a space between any two |
| Scorer.MoreFindingsNeverHurt | eval/scorer.py:38-56 | appending findings loses no matched keyword and never lowers the score |
| OfflineScores.LowerFoldsWords | eval/scorer.py:38-42 | lower-casing ASCII letters treats the two sides of a space separately |
| OfflineScores.FiredRulesScore | eval/chaos.py:54-114 | a rule that fires gives its scenario the full score, or at least two thirds for idle transactions; reporting nothing abnormal gives at least a third of each |
| OfflineScores.OfflineRunsPass | eval/runner.py:29-47 | an offline run of five steps or more passes every scenario shown by what its tools returned before sanitizing: slow queries listed, a blocked session, three or more idle transactions |
| Chaos.OneOwner | eval/chaos.py:77-108 | in every interleaving at most one session owns the row; in its hold loop the holder is that session and the waiter's update cannot go through |
| Chaos.BlockedUntilStop | eval/chaos.py:88-105 | once in the loop the holder stays there, and no update of the waiter goes through, until stop |
| Chaos.OwnsFromUpdateToRollback | eval/chaos.py:80-105 | a session owns the row exactly from its own update to its own rollback |
| Chaos.WaiterWaits | eval/chaos.py:87-102 | unless its wait times out, the waiter goes on only after the holder has set the event, and owns the row only after the holder has given it back |
| Chaos.NeverStuck | eval/chaos.py:77-108 | until both threads have finished, one of them can take a step that needs no failure and no timeout |
| Chaos.StopFinishesBoth | eval/chaos.py:42-45 | after stop, in any order, the threads take at most ten steps, are never stuck before both have finished, and then the row is free |

## Left out

- Floating point: times and tokens are reals; rounding is not modelled. Capacity and refill are
  non-negative where a theorem needs it; the configuration does not check that.
- RateLimit.RateLimiter.TryAcquire: takes its two clock readings as arguments and no lock; the lock, and the order of the readings, are in LimiterThreads.
- LoadBound.GrantsInWindow: a whole `try_acquire` is one step of the pipeline and takes one clock reading; LimiterThreads.EveryScheduleIsSequential is why its inner steps need not be interleaved again.
- Pipeline.LedgersAgreeAlways: one call at a time in each context and ids that are never reused, which UUIDs make likely rather than certain; a tool body is one start and one finish; exceptions that are not `Exception` are not caught by the code and not modelled.
- Loop.RunLoop: other contexts' calls come between this run's calls, not inside them, because the loop sees a call only as a whole; Contexts.TrailsAgreeAlways states the audit trail of a context under the finer interleaving.
- Loop.ObserveCall: the text of the unknown-tool error quotes the name plainly, where the code uses Python's quoting; the warning for suspicious content is only logged and has no step.
- Scorer.MoreFindingsNeverHurt: lower-casing is any function that treats the two sides of a space separately, as Python's does.
- OfflineScores.FiredRulesScore: lowers ASCII letters only, which is all the playbook's own text contains; states lower bounds on the scores, not that the remaining keywords are absent from the playbook's fixed texts, so it does not say which scenarios fail.
- Chaos.StopFinishesBoth: no connection fails, and the wall-clock limits of `join` and of the event's `wait` only appear as steps that may or may not happen.
- Transcripts.AnthropicRuns: the provider is any function of the messages, which may raise; decoding and stripping a text is any function of it. The system prompt and the tool definitions are constant along a run and are not part of the Anthropic messages.
- ChatTranscripts.OllamaLLM.ReadCall: a function name that is JSON null is read like a missing one, where the code makes an id that ends in "None" and calls a tool without a name (which is then unknown); calls, functions and names of other types, on which the code raises, are modelled as a provider that raises.
- Tools.EnvelopeTells: the dictionary a tool returns has no key twice, as no Python dictionary has.
- Text encoding of JSON: `dumps` followed by `loads` is the identity on the value type; dates, decimals and tuples are not in it, nor is the limit on digits of an integer in Python.
- Pydantic beyond the diagnosis: the validation of a tool's input is an arbitrary answer, accept or reject.
- The suspicious-content pattern is an arbitrary predicate on strings.
- SQL and PostgreSQL: a tool body returns an arbitrary dictionary or raises.
- Reuse of one playbook object for a second run: its start does not reset it.
- The scripted model for tests, the choice of a provider, the metrics endpoint, the web interface, the command lines, the MCP server and the other two chaos scenarios, which are input, output and wiring.
