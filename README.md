# φ-Discovery MCP base: a verified model

This project models the deterministic core of the φ-Discovery MCP base in Dafny. The core has three parts.

- **The Rust base library (`lib.rs`).**
  - The block-based Fibonacci memo cache is modelled as a class. Its invariant is that exactly the indices `0..highest_computed` are stored, each holding its Fibonacci number.
  - `compute` is proved to return `Fib(n)` for every `n` up to 93, the largest index whose value fits in a u64.
  - The character-counting Betti vector and the Euler-characteristic checks are modelled with the u32/i32 casts and wrapping arithmetic written out.
- **The validation worker.**
  - The well-formedness scan is a loop proved against a prefix-balance specification.
  - The three judges are the theorem checker, the numerical validator and the symbolic verifier.
  - Dispatch by worker type decides between ack and nack.
  - The Redis verdict hashes and the success/failure counters are modelled as state.
  - The `validated_equations` table is modelled with its `ON CONFLICT … GREATEST` upsert.
- **The discovery worker.**
  - The phase lookup and the Python Betti vector with its `chi > 1` rejection gate.
  - The three pipeline stages, the Redis shared state, and the routing key a result is published under.

RabbitMQ topic-exchange matching is defined on dot-separated words. In a binding, `*` stands for one word and `#` for any number of words. Against that definition the model proves two things:

- each routing key reaches exactly the next stage's queue binding `discovery.{phase}.*`;
- a message entering at the pattern recognizer reaches the `validation.request` binding after three hops.

Modules:

- **`Strings`:** counting, substrings, split and join.
- **`Json`:** decoded messages and Python exceptions as a `Result`.
- **`FibonacciMemo`:** the cache.
- **`PhiTopology`:** the Rust Betti and Euler checks.
- **`TopicRouting`:** broker matching.
- **`Validation`:** the validation worker.
- **`Discovery`:** the discovery worker.
- **`Pipeline`:** properties that span the workers.

The model works in the following terms:

- **Message bodies.** A body is the decoded JSON object, a `map<string, Value>`.
- **Exceptions.** A Python exception that ends a handler becomes an `Err` of a `Result`.
- **Outside inputs.** Clock readings, the random draw of the equation generator, the phase-lock coherence and the outcome of the 50-digit φ identity test are parameters.

Three consequences of the code show up as proved facts:

- On a well-formed equation, the Python worker's B1 is half the Rust library's B1 (`Pipeline.RustAndPythonBetti`).
- The discovery gate rejects every equation that has an `=` and fewer than two opening parentheses (`Discovery.GateCounts`). This includes the golden-ratio identities that the equation generator derives.
- In the model, only the symbolic verifier returns a verdict for an `equation` field that is not a string, and that verdict is invalid (`Validation.VerifySymbolic`). Python treats some non-string equations differently; see "Left out".

## Model

| member | source | states |
|---|---|---|
| FibonacciMemo.BlockIndex | mcp-phi-base/src/lib.rs:131-133 | index `n` lies in block `b`: `10b <= n < 10b + 10` |
| FibonacciMemo.BlockOffset | mcp-phi-base/src/lib.rs:135-137 | the offset is below 10 and `n == block * 10 + offset` |
| FibonacciMemo.BlockPositionInjective | mcp-phi-base/src/lib.rs:131-137 | two indices with the same block and offset are equal, so positions never collide |
| FibonacciMemo.BlockOrder | mcp-phi-base/src/lib.rs:131-137 | block positions are ordered like the indices: first by block, then by offset |
| FibonacciMemo.FibTable | mcp-phi-base/src/lib.rs:357-361 | Fib(0), Fib(1), Fib(10), Fib(17) are 0, 1, 55, 1597; Fib(93) and Fib(94) spelled out |
| FibonacciMemo.FibFitsU64 | mcp-phi-base/src/lib.rs:192 | every Fib(n) with n <= 93 is at most u64::MAX, so the u64 sum `f1 + f2` never overflows there |
| FibonacciMemo.FibBeyondU64 | mcp-phi-base/src/lib.rs:192 | Fib(94) exceeds u64::MAX, so 93 is the largest index the cache can hold |
| FibonacciMemo.StoreAtLookup | mcp-phi-base/src/lib.rs:204-216 | after `store_value(n, v)`: `n` holds `v`; every other stored position keeps its value; the only new positions are zero padding in `n`'s block below `n` |
| FibonacciMemo.LayoutLookup | mcp-phi-base/src/lib.rs:195-202 | under the cache layout, `get_value(n)` is `Some(Fib(n))` for `n <= k` and `None` beyond |
| FibonacciMemo.InitialLayout | mcp-phi-base/src/lib.rs:121-128 | block 0 = [0, 1] is the layout for watermark 1 |
| FibonacciMemo.LayoutExtend | mcp-phi-base/src/lib.rs:160-163 | storing Fib(k+1) at k+1 turns the layout for `k` into the layout for `k+1` |
| FibonacciMemo.LayoutSound | mcp-phi-base/src/lib.rs:175-190 | under the layout every cached value is the Fibonacci number of its index |
| FibonacciMemo.LayoutTotals | mcp-phi-base/src/lib.rs:218-224 | a cache holding 0..k has k/10 + 1 blocks and k + 1 values |
| FibonacciMemo.BelowSize | mcp-phi-base/src/lib.rs:220 | the set of block indices below `c` has `c` elements |
| FibonacciMemo.FibonacciCache.constructor | mcp-phi-base/src/lib.rs:121-129 | `new` holds block 0 = [0, 1] with watermark 1 and establishes the invariant |
| FibonacciMemo.FibonacciCache.GetValue | mcp-phi-base/src/lib.rs:195-202 | under the invariant: `Some(Fib(n))` iff `n <= highest_computed`, otherwise `None` |
| FibonacciMemo.FibonacciCache.StoreValue | mcp-phi-base/src/lib.rs:204-216 | the padding loop and the write leave the storage equal to `StoreAt(old, n, v)` |
| FibonacciMemo.FibonacciCache.FibonacciRecursive | mcp-phi-base/src/lib.rs:169-193 | over a sound cache, returns Fib(n), at most u64::MAX, and writes nothing |
| FibonacciMemo.FibonacciCache.ComputeUpTo | mcp-phi-base/src/lib.rs:158-167 | returns Fib(n); the watermark becomes max(old, n); the invariant is kept; earlier values are unchanged |
| FibonacciMemo.FibonacciCache.Compute | mcp-phi-base/src/lib.rs:139-156 | returns Fib(n) for n <= 93 from a base case, the cache or a fill; the watermark never decreases; the invariant is kept |
| FibonacciMemo.FibonacciCache.GetStatistics | mcp-phi-base/src/lib.rs:218-224 | reports the block count, the watermark and the value total; under the invariant these are h/10 + 1 blocks and h + 1 values |
| FibonacciMemo.FibonacciTest | mcp-phi-base/src/lib.rs:356-362 | one cache answers 0, 1, 55, 1597 for 0, 1, 10, 17 |
| PhiTopology.AsU32 | mcp-phi-base/src/lib.rs:248-250 | `as u32` keeps any count below 2^32 |
| PhiTopology.WrappingAddU32 | mcp-phi-base/src/lib.rs:248 | the u32 `+ 1` is exact below 2^32 and wraps by 2^32 above |
| PhiTopology.AsI32 | mcp-phi-base/src/lib.rs:49 | `u32 as i32` is exact below 2^31 and subtracts 2^32 above |
| PhiTopology.BettiVectorCounts | mcp-phi-base/src/lib.rs:246-253 | for realistic lengths, B0 = count('=') + 1 >= 1, B1 = (count('(') + count(')')) / 2, B2 = count('∫') |
| PhiTopology.BettiB0Wraps | mcp-phi-base/src/lib.rs:248 | with 2^32 - 1 `=` signs the u32 addition wraps B0 to 0 |
| PhiTopology.EulerCharacteristicExact | mcp-phi-base/src/lib.rs:49 | the i32 arithmetic computes B0 - B1 + B2 modulo 2^32, exactly when it lies in the i32 range |
| PhiTopology.ValidateTopologyIff | mcp-phi-base/src/lib.rs:47-50 | away from i32 overflow, `validate_topology` holds iff chi == B0 - B1 + B2 |
| PhiTopology.EnsureEulerCharacteristicIff | mcp-phi-base/src/lib.rs:329-336 | away from overflow, passes iff B0 - B1 + B2 == target, iff a frame with those counts and chi = target passes `validate_topology`; a failure reports (target, B0 - B1 + B2) |
| PhiTopology.EnsureEulerCharacteristicWraps | mcp-phi-base/src/lib.rs:329-336 | for any counts, passes iff B0 - B1 + B2 wrapped into the i32 range is the target, and a failure reports (target, that wrapped value) |
| PhiTopology.InitialFrameChecks | mcp-phi-base/src/lib.rs:305-320 | the initial frame is topologically consistent, and it is accepted iff the target is at least 1 |
| PhiTopology.ValidateDiscoveryOfComputedFrame | mcp-phi-base/src/lib.rs:322-327 | a frame whose vector was computed from its equation always has B0 > 0, so it is accepted iff chi <= target and the flow is natural |
| PhiTopology.ComputedFrameAcceptance | mcp-phi-base/src/lib.rs:322-327 | a consistent frame computed from its equation is accepted iff the flow is natural and (count('=') + 1) - (count('(') + count(')')) / 2 + count('∫') <= target |
| Json.Merge | mcp-phi-base/workers/validation/validation_worker.py:150-157 | `{**data, ...}` keeps every input key, takes the new keys' values and leaves the other fields unchanged |
| Strings.SplitJoin | mcp-phi-base/workers/discovery/discovery_worker.py:106 | splitting a dot-joined key gives back its dot-free words |
| Strings.JoinSplit | mcp-phi-base/workers/discovery/discovery_worker.py:106 | joining the words of a split gives the key back |
| Strings.ContainsAt | mcp-phi-base/workers/discovery/discovery_worker.py:188-192 | substring `in` holds iff the substring occurs at some index |
| TopicRouting.LiteralMatchesItself | mcp-phi-base/workers/validation/validation_worker.py:92-96 | a binding without wildcards matches exactly the routing key equal to it |
| TopicRouting.PrefixStarMatches | mcp-phi-base/workers/discovery/discovery_worker.py:106-111 | a literal prefix then `*` matches exactly the keys of the prefix plus one word |
| TopicRouting.HashFreeMatchesSameLength | mcp-phi-base/workers/discovery/discovery_worker.py:95-99 | a binding without `#` matches only keys with as many words as it has |
| TopicRouting.TopicMatchesJoined | mcp-phi-base/workers/discovery/discovery_worker.py:95-111 | matching dot-joined texts is matching their words |
| Validation.RequestBindingText | mcp-phi-base/workers/validation/validation_worker.py:92-96 | the validation binding is the text `validation.request` |
| Validation.ScanStep | mcp-phi-base/workers/validation/validation_worker.py:227-233 | one character moves the balance by +1, -1 or 0; prefixes stay balanced iff the new balance is not negative |
| Validation.IsWellFormed | mcp-phi-base/workers/validation/validation_worker.py:219-235 | the scan with early exit returns true iff the equation has `=`, no prefix closes more than it opens, and the totals are equal; empty or `=`-free gives false |
| Validation.AllTrue | mcp-phi-base/workers/validation/validation_worker.py:147 | `all(...)`: true iff every check is true |
| Validation.TrueCount | mcp-phi-base/workers/validation/validation_worker.py:148 | `sum(...)`: at most the number of checks, equal to it iff all are true |
| Validation.CheckTheorem | mcp-phi-base/workers/validation/validation_worker.py:136-157 | the result extends the input with the five theorem keys; valid iff well formed; confidence 1 or 2/3; KeyError without an equation |
| Validation.ValidateNumerical | mcp-phi-base/workers/validation/validation_worker.py:159-184 | the result extends the input with the six numerical keys; an equation mentioning φ/phi is valid iff the identity test passed (confidence 1.0 or 0.5); a test list with one entry or none; precision "50" |
| Validation.VerifySymbolic | mcp-phi-base/workers/validation/validation_worker.py:186-217 | valid with confidence 0.9 iff the equation is a string with `=`, otherwise invalid with 0.0 (the judge's own `try` catches a non-string); the symbolic form is the equation; only a missing key escapes |
| Validation.Judge | mcp-phi-base/workers/validation/validation_worker.py:114-120 | each known worker type runs its own judge; any other type ends in UnboundLocalError; every result is a judged verdict about the input's equation; a verdict comes iff the type is known, the equation is present, and it is a string unless the judge is the symbolic verifier |
| Validation.ValidVerdictHasStringEquation | mcp-phi-base/workers/validation/validation_worker.py:125-127 | in the model, a valid verdict from any judge is about a string equation, so only strings reach the model's table (Python differs, see Left out) |
| Validation.TheoremVerdictIsWellFormedness | mcp-phi-base/workers/validation/validation_worker.py:140-148 | the theorem checker accepts exactly the well-formed equations, and gives confidence 1.0 exactly to them |
| Validation.ValidationOutcome | mcp-phi-base/workers/validation/validation_worker.py:104-134 | a delivery yields a verdict iff the body is an object with an equation, the worker type is known, and the equation is a string unless the judge is the symbolic verifier; the verdict is that judge's, and keeps the equation |
| Validation.Upsert | mcp-phi-base/workers/validation/validation_worker.py:264-271 | one record per equation; a new equation is inserted as given; a conflict keeps the greater confidence, takes the new metadata and keeps the first validation type; other records are unchanged |
| Validation.UpsertIdempotent | mcp-phi-base/workers/validation/validation_worker.py:264-271 | storing the same result twice equals storing it once |
| Validation.UpsertMonotone | mcp-phi-base/workers/validation/validation_worker.py:269 | no record is removed and no stored confidence decreases |
| Validation.StoreAllKeepsGreatest | mcp-phi-base/workers/validation/validation_worker.py:264-271 | after any series of stores, the table has exactly the old and offered equations; each confidence is the greatest one it had or was offered, and is one of those; validation types are kept |
| Validation.OfferedInSeries | mcp-phi-base/workers/validation/validation_worker.py:264-271 | an equation is offered by a series iff the series without its last row offers it, or the last row does |
| Validation.ValidationWorker.constructor | mcp-phi-base/workers/validation/validation_worker.py:36-48 | a worker starts with empty verdict hashes, zero counters and an empty table |
| Validation.ValidationWorker.UpdateValidationState | mcp-phi-base/workers/validation/validation_worker.py:242-256 | overwrites the equation's verdict hash with valid/confidence/timestamp and adds one to exactly one counter, chosen by `valid`; the table is unchanged |
| Validation.ValidationWorker.StoreValidatedEquation | mcp-phi-base/workers/validation/validation_worker.py:258-287 | the table becomes the upsert of the result with the whole result as metadata; only valid, self-describing records are stored |
| Validation.ValidationWorker.ProcessValidation | mcp-phi-base/workers/validation/validation_worker.py:104-134 | on any exception: nack and no change; otherwise record the verdict, upsert it iff valid, and ack |
| Discovery.DeterminePhase | mcp-phi-base/workers/discovery/discovery_worker.py:50-57 | past iff pattern_recognizer, future iff phase_optimizer, present for every other name |
| Discovery.DiscoveryBindingText | mcp-phi-base/workers/discovery/discovery_worker.py:106 | the binding is the text `discovery.` + phase + `.*` |
| Discovery.PastRoutingKeyText | mcp-phi-base/workers/discovery/discovery_worker.py:262-263 | phase past routes to `discovery.present.equation` |
| Discovery.PresentRoutingKeyText | mcp-phi-base/workers/discovery/discovery_worker.py:264-265 | phase present routes to `discovery.future.optimize` |
| Discovery.OtherRoutingKeyText | mcp-phi-base/workers/discovery/discovery_worker.py:266-267 | every other phase routes to `validation.request` |
| Discovery.ComputeBettiVector | mcp-phi-base/workers/discovery/discovery_worker.py:120-125 | the Python vector always has B0 >= 1 |
| Discovery.GateCounts | mcp-phi-base/workers/discovery/discovery_worker.py:152-159 | chi <= 1 iff opening parentheses are at least twice the `=` and `∫` signs together; an equation with `=` and fewer than two `(` is rejected |
| Discovery.PatternsOf | mcp-phi-base/workers/discovery/discovery_worker.py:186-193 | golden_ratio iff `φ` or `phi` in any letter case; laplacian iff `∇²` or `d²/dx²`; integral iff `∫`; each at most once, in that order |
| Discovery.PatternNames | mcp-phi-base/workers/discovery/discovery_worker.py:189-193 | the three pattern names are distinct and ranked in order of the checks |
| Discovery.RecognizePatterns | mcp-phi-base/workers/discovery/discovery_worker.py:182-201 | the result extends the input with patterns, phase past, timestamp and worker; an error without a string equation |
| Discovery.GenerateEquations | mcp-phi-base/workers/discovery/discovery_worker.py:203-219 | derives the two golden-ratio identities iff `golden_ratio` is among the patterns, otherwise none; phase present; confidence in [0.8, 1.0) |
| Discovery.OptimizePhase | mcp-phi-base/workers/discovery/discovery_worker.py:221-238 | implies `validates_golden_structure` iff the confidence (default 0) exceeds PSI; phase future, optimized; TypeError for a non-numeric confidence |
| Discovery.StageKeys | mcp-phi-base/workers/discovery/discovery_worker.py:195-237 | every stage writes `phase` and none writes `equation` |
| Discovery.Stage | mcp-phi-base/workers/discovery/discovery_worker.py:161-167 | each known type runs its own stage, which succeeds iff the recognizer has a string equation, the generator's patterns support `in`, or the optimizer's confidence is numeric; an unknown type ends in UnboundLocalError; a result carries the worker's own phase and keeps the equation |
| Discovery.Prepare | mcp-phi-base/workers/discovery/discovery_worker.py:143-167 | the gate rejects exactly the decoded string equations with chi > 1; a delivery is staged iff it decodes, has a string equation, passes the gate and its stage succeeds, and then the staged result is that stage's; a staged result comes from a known worker, has its phase and passed the gate |
| Discovery.LastDiscoveryUpdate | mcp-phi-base/workers/discovery/discovery_worker.py:246-252 | writes `last_discovery` iff the confidence exceeds PSI; errors for a non-numeric confidence or a missing field |
| Discovery.ChiUpdate | mcp-phi-base/workers/discovery/discovery_worker.py:254-257 | no write without `betti`; otherwise B0 - B1 + B2 of a list of at least three numbers, or an error |
| Discovery.DiscoveryWorker.constructor | mcp-phi-base/workers/discovery/discovery_worker.py:33-35 | the worker's phase is `_determine_phase` of its type; nothing has been written or published yet |
| Discovery.DiscoveryWorker.UpdateSharedState | mcp-phi-base/workers/discovery/discovery_worker.py:240-257 | stamps the phase, then writes last discovery, then chi; an exception keeps the earlier writes and reports failure |
| Discovery.DiscoveryWorker.RouteDiscovery | mcp-phi-base/workers/discovery/discovery_worker.py:259-277 | publishes the result once, under the key its phase selects |
| Discovery.DiscoveryWorker.ProcessDiscovery | mcp-phi-base/workers/discovery/discovery_worker.py:143-180 | nack with no change on the gate or on an exception before the shared-state writes; an exception inside the shared-state update keeps its earlier writes and nacks; otherwise write the state, publish and ack; in the model every publication has a string equation that passed the gate, carries the phase and goes to that phase's key |
| Pipeline.PhaseIsPlainWord | mcp-phi-base/workers/discovery/discovery_worker.py:50-57 | every phase is one word with no dot and no wildcard |
| Pipeline.BindingMatchesKey | mcp-phi-base/workers/discovery/discovery_worker.py:106-111 | `discovery.{phase}.*` matches a three-word key iff it starts with `discovery`, then the phase |
| Pipeline.BindingMissesShortKey | mcp-phi-base/workers/discovery/discovery_worker.py:106-111 | `discovery.{phase}.*` matches no two-word key |
| Pipeline.PrefixStarTopic | mcp-phi-base/workers/discovery/discovery_worker.py:106-111 | joined literal prefix plus `*` matches exactly the joined keys of that prefix plus one word |
| Pipeline.LiteralBindingMatches | mcp-phi-base/workers/validation/validation_worker.py:92-96 | a joined literal binding matches exactly the joined key with the same words |
| Pipeline.RequestMatchesKey | mcp-phi-base/workers/validation/validation_worker.py:92-96 | `validation.request` matches exactly the key `validation`, `request` |
| Pipeline.RoutingReachesNextStage | mcp-phi-base/workers/discovery/discovery_worker.py:259-267 | a known worker's key reaches worker `to` iff `to` is its next stage (present phase, or the optimizer); only the optimizer's key reaches validation |
| Pipeline.HopWithinDiscovery | mcp-phi-base/workers/discovery/discovery_worker.py:262-265 | a key `discovery.{next}.{last}` reaches the binding of phase `next` and no other, and never the validation binding |
| Pipeline.HopFromFuture | mcp-phi-base/workers/discovery/discovery_worker.py:266-267 | `validation.request` reaches no discovery binding and does reach the validation binding |
| Pipeline.OneHop | mcp-phi-base/workers/discovery/discovery_worker.py:259-267 | the known receivers of each known worker's key are exactly its next stages |
| Pipeline.ReceiverIsNextStage | mcp-phi-base/workers/discovery/discovery_worker.py:259-267 | one known worker receives a key iff it is a next stage of the publisher |
| Pipeline.FirstHop | mcp-phi-base/workers/discovery/discovery_worker.py:262-263 | the recognizer's key reaches the equation generator alone |
| Pipeline.SecondHop | mcp-phi-base/workers/discovery/discovery_worker.py:264-265 | the generator's key reaches the phase optimizer alone |
| Pipeline.LastHop | mcp-phi-base/workers/discovery/discovery_worker.py:266-267 | the optimizer's key reaches validation and no discovery worker |
| Pipeline.FinalKeyIsRequestBinding | mcp-phi-base/workers/discovery/discovery_worker.py:266-267 | the optimizer publishes under exactly the validation binding |
| Pipeline.ThreeHopsToValidation | mcp-phi-base/workers/discovery/discovery_worker.py:259-277 | recognizer → generator → optimizer → validation, with one receiver at each hop; the last key equals `validation.request` |
| Pipeline.PresentAmongKnown | mcp-phi-base/workers/discovery/discovery_worker.py:52-57 | among the known workers only the equation generator has the present phase |
| Pipeline.GateStableAlongPipeline | mcp-phi-base/workers/discovery/discovery_worker.py:152-173 | every stage keeps the equation, so a message that passed the gate passes it at every later hop |
| Pipeline.RustAndPythonBetti | mcp-phi-base/workers/discovery/discovery_worker.py:120-125 | on a well-formed equation B0 and B2 agree; Rust's B1 is count('(') and Python's is half of it; they agree iff there is no `(` |

## Left out

- Floating point is modelled as exact reals. This covers confidences, `PSI`, `2/3`, `0.8 + r * 0.2` and JSON numbers.
- The φ-identity test of the numerical validator at 50 digits (mpmath) is the parameter `phiIdentityHolds`.
- Outside readings are parameters:
  - the random draw of `_generate_equations` (a real in [0, 1));
  - the `check_phase_lock` coherence (the `np.std` of other workers' Redis phase stamps);
  - the clock readings behind `timestamp`, `time.time()` and the frame timestamp.
- `MCPNode::phase_lock` and the `PHI`/`PSI`/`LN_PHI` float constants of the Rust library are not modelled: they are floating-point formulas with no discrete behaviour to state.
- The global `Lazy<Arc<RwLock<…>>>` cache and the wrappers `fibonacci()`/`fibonacci_stats()` are left out. The cache is one sequential object.
- The async `discovery_cycle`, `enter_void_state`, `tokio::sleep` and the `dyn MCPNode` nodes are left out. They are concurrency over trait objects not in the source.
- `log_discovery` (`println!`) and the structlog calls are output only.
- The Bushido stream types are data without behaviour.
- I/O and transport are left out:
  - Connections to Redis, RabbitMQ and PostgreSQL, exchange and queue declarations, `basic_consume`, `start_consuming`, and the `run` loops.
  - `json.loads` is taken as already decoded. A body is `Some(value)` or `None` for a decode failure.
  - `json.dumps` of the metadata is not modelled.
  - Published messages are kept as a sequence of (routing key, body).
  - Each worker's Redis and PostgreSQL state is a field of its worker object, starting empty. Sharing between processes is not modelled.
- Redis key text is not modelled:
  - The verdict hash of `validation:{worker}:{equation}` is keyed by the equation value, within one worker. So the model keeps `5` and `"5"` apart, while Python's f-string key merges them into one hash.
  - `phase:{worker}` is a map from that key text to the clock reading.
  - The Redis TTL of `setex` is left out.
- `str()` rendering of confidences and booleans in Redis hashes is kept as the value, except `valid`, which is kept as Python's "True"/"False".
- Discovery.LastDiscoveryUpdate: the model writes `last_discovery` whatever the types of the `equation`, `confidence` and `timestamp` values. redis-py refuses a boolean, `None`, list or object as a hash value and raises DataError. The model does not follow that refusal: for example, a confidence of `true` (above PSI in Python) is written in the model, while Python nacks after the phase stamp.
- `created_at`/`updated_at` columns: clock values, not modelled.
- Broker and database behaviour are left out:
  - Nack's requeue behaviour is not modelled.
  - The PostgreSQL error path (exception, `rollback`) of `_store_validated_equation` is not modelled. The upsert is taken to succeed.
- Json.EquationOf: the model treats every non-string `equation` as a raised error (nack, no change), except in the symbolic verifier, whose own `try` the model follows. Python's duck typing lets some non-strings through, and the model does not follow these cases:
  - The theorem checker, given a falsy value (`null`, `0`, `false`, `[]`, `{}`) or a list or object without a `"="` item or key (such as `["x"]` or `{"a": 1}`), returns an invalid verdict with confidence 2/3. The failure counter goes up and the message is acked.
  - The theorem checker, given a list or object with a `"="` item or key whose `"("` and `")"` items or keys balance in order, such as `["="]`, `["=", "(", ")"]` or `{"=": 1}`, finds it well formed. It returns a valid verdict; the success counter goes up and the upsert is attempted.
  - The numerical validator, given a list or object such as `[]` or `{}`, evaluates `in` as membership. Without `φ` or `phi` among the items, it returns valid with confidence 1.0.
  - The discovery worker, given a list equation, passes `list.count`. It passes the gate exactly when the `"("` items are at least twice the `"="` and `"∫"` items together, the same condition as `Discovery.GateCounts` gives for strings, and is nacked otherwise. For a list that passes, what follows depends on the stage:
    - The recognizer fails at `lower()` unless the list has a `"φ"` item. With one, the `or` never calls `lower()`, the other tests are list membership, and the message is staged. It is published to `discovery.present.equation` and acked, unless it carries a non-numeric confidence (the comparison raises) or one above PSI (its `last_discovery` write fails as below).
    - The generator's confidence is always above PSI, so its `last_discovery` write is always attempted with the list, and redis-py rejects a list value. The message is nacked after the phase stamp.
    - The optimizer behaves the same when the confidence is above PSI. With a confidence of at most PSI, it publishes and acks.
- Validation.ValidVerdictHasStringEquation: "only string equations reach the table" holds of the model only, because of the Python cases above.
- Discovery.DiscoveryWorker.ProcessDiscovery: "every publication has a string equation" (the predicate `Forwarded`) holds of the model only, because of the recognizer's `"φ"`-list case and the optimizer's low-confidence list case above.
- In `_recognize_patterns`, `str.lower()` is modelled for ASCII letters only.
- FibonacciMemo.FibonacciCache.Compute: requires `n <= 93`. Beyond that the u64 addition overflows. It panics in a debug build and wraps in release, and the model does not follow either.
- The watermark's u32 width is not modelled, because it never exceeds 93.
- The Rust Betti counts are u32 (as written); the Python ones are unbounded.
- PhiTopology.ValidateTopology and PhiTopology.EnsureEulerCharacteristic assume release-build wrapping for the i32 arithmetic. A debug build would panic on overflow, and the model does not follow that.
- PhiTopology.BettiB0Wraps: the u32 `+ 1` of `compute_betti_vector` is taken to wrap, as in a release build. A debug build panics there instead.
- The launcher scripts are GUI and process control, not part of the core.
- The Rust test `test_phase_lock` does not compile, because `BettiFrame` has no `Default`, and it asserts nothing. It is not modelled.
