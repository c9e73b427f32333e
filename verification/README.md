# Workshop quota client, rule engine and game logic, in Dafny

This project models the core of a hands-on AI workshop repository:

- **QuotaAwareAPI.** A JavaScript client, `infrastructure/quota-monitor.js`, that spreads Gemini API requests over a pool of keys.
  - It rotates round-robin.
  - It flags keys that answered 429 until a reset interval passes.
  - It counts requests and errors per key.
  - It backs off exponentially between failed attempts.
- **QuotaAwareGemini.** The Python port of that client, in `logic_engine_ai.py`. It differs in one respect: a 4xx other than 429 is rotated away, where the JavaScript client returns it.
- **LogicEngine.** The small Python rules engine, as it appears in three files: an ordered rule list, add and remove by name, and ordered evaluation with per-rule error capture. The demonstration rule sets are included as checked scenarios.
- **Camera game.** The speed-clicker game logic of `gameLogic.js`, reference and starter:
  - the click/win/reset state machine;
  - the winner search;
  - the ranking of online players;
  - `M:SS` time formatting.
- **Face-reactive project.**
  - The blendshape-to-emotion classifier, reference and starter.
  - The fallback tables, title fallback, intensity wording and prompt choice of `geminiIntegration.js`.
  - The particle-pool activation and movement rules of `visualization.js`.
- **Offline mock.** The keyword router of the model API's offline mock.

The world outside the code becomes a parameter:

- the clock is a number passed in;
- the HTTP transport is a sequence of outcomes, either a status with a body or a thrown error;
- a backoff wait is returned as a delay in milliseconds, not slept;
- `Math.random()` draws, the canvas size and the remote model (`ask`) are arguments.

Python rule conditions and actions are total functions that give a value or a raised message.

Modules follow the source:

| module | file | models |
|---|---|---|
| `Wrappers` | wrappers.dfy | `Option` and `Result` |
| `Strings` | strings.dfy | decimal rendering and parsing, ASCII case mapping, `padStart`, substring search |
| `KeyPool` | key_pool.dfy | what both clients share: key filtering, rotation, backoff, the environment scan, outcomes and iteration traces, and the success rate |
| `QuotaMonitor` | quota_monitor.dfy | `QuotaAwareAPI` and `createFromEnv` |
| `QuotaScenarios` | quota_scenarios.dfy | failover, exhaustion and bad-request scenarios of `call`, and the comparison of the two clients' outcome classifications |
| `QuotaGemini` | quota_gemini.dfy | `QuotaAwareGemini` and `create_from_env` |
| `LogicEngine` | logic_engine.dfy | `Rule`, `add_rule`, `remove_rule`, `evaluate` |
| `LogicDemo` | logic_demo.dfy | the demonstration rules and contexts of `solution.py` and the starter `logic_engine.py` |
| `GameLogic`, `GameStarter` | game_logic.dfy | reference and starter `gameLogic.js` |
| `EmotionMapping` | emotion.dfy | reference and starter `emotionMapping.js` |
| `MockRouter` | mock_router.dfy | `getMockResponse` |
| `FallbackTables` | fallback_tables.dfy | the offline paths of `geminiIntegration.js` |
| `Visualization` | visualization.dfy | `emotionParams`, `updateVisualization`, `updateParticles` |

The starter templates repeat some reference functions unchanged, and those are modelled once:

- `getCurrentPlayer` and `getPlayerRank` in the starter `gameLogic.js`, lines 165-168 and 176-186;
- `getBlendshapeScore` in the starter `emotionMapping.js`, lines 10-13.

The starter's `initializeGame` (lines 29-43) has the same effect on the local game state as the reference's. It differs in the update it sends to the session: that update leaves out the round number. `GameStarter.InitPayload` models this difference.

A call of either client is specified by a predicate `CallSpec`. It relates the client before the call, the client after it, the result and the trace of loop iterations:

- Each iteration is either a skipped flagged key or a request sent.
- Each request sent records the key index, the request, the outcome, the verdict and the wait that followed.
- `Call` is a loop method proved against `CallSpec`.
- The scenario lemmas are stated over any outputs that satisfy it.

## Model

| member | source | states |
|---|---|---|
| KeyPool.FilterKeys | infrastructure/quota-monitor.js:31 | A key survives exactly when it is present and non-empty; no key is invented and every survivor is non-empty |
| KeyPool.FilterKeysConcat | infrastructure/quota-monitor.js:31 | Filtering keeps the order of the surviving keys: the filter of a concatenation is the concatenation of the filters |
| KeyPool.FilterKeysKeepsTruthy | modules/06-logic-engine/solutions/logic_engine_ai.py:40 | A list of non-empty keys passes the filter unchanged |
| KeyPool.FilterKeysExample | infrastructure/quota-monitor.js:31 | Only falsy entries are dropped: a blank key of spaces stays, while an absent and an empty key go |
| KeyPool.Rotate | infrastructure/quota-monitor.js:150-152 | The next index is always in range and wraps from the last key to the first |
| KeyPool.RotateTimesAdd | infrastructure/quota-monitor.js:150-152 | `a` rotations followed by `b` rotations are `a + b` rotations |
| KeyPool.RotateTimesInRange | modules/06-logic-engine/solutions/logic_engine_ai.py:204-206 | Any number of rotations keeps the index in `[0, n)` |
| KeyPool.FullCycle | infrastructure/quota-monitor.js:150-152 | `n` rotations bring the index back to where it started |
| KeyPool.Backoff | infrastructure/quota-monitor.js:158-161 | The wait lies between 100 and 2000 ms: `100·2^(a−1)` for attempts up to 5 and the 2000 ms cap from attempt 6 on |
| KeyPool.BackoffSchedule | infrastructure/quota-monitor.js:159-160 | The schedule is 100, 200, 400, 800, 1600 ms, then 2000 ms for every later attempt |
| KeyPool.BackoffMonotone | infrastructure/quota-monitor.js:160 | A later attempt never waits less |
| KeyPool.TotalBackoffClosedForm | infrastructure/quota-monitor.js:160 | After `k` failures the waits add up to `100·(2^k − 1)` ms for `k ≤ 5`, and to 3100 ms plus 2000 ms per further failure |
| KeyPool.CollectSlotsIsFilter | infrastructure/quota-monitor.js:257-262 | The slot loop keeps the truthy values of `GEMINI_KEY_1..10` in slot order; a gap does not stop the scan |
| KeyPool.NumberedKeys | infrastructure/quota-monitor.js:257-262 | A key is collected exactly when it is the non-empty value of one of the ten numbered slots |
| KeyPool.EnvKeys | infrastructure/quota-monitor.js:253-274 | Numbered keys win when there are any. `GEMINI_API_KEY` is used only when there are none. It fails exactly when neither source yields a key |
| KeyPool.RoundRobinCoversAll | infrastructure/quota-monitor.js:61-72 | `n` consecutive round-robin iterations visit every key of the pool |
| KeyPool.TotalDelayBound | infrastructure/quota-monitor.js:158-161 | A call waits at most 2000 ms per iteration in total |
| KeyPool.Bump | infrastructure/quota-monitor.js:114 | Incrementing one counter changes only that entry and raises the sum by one |
| QuotaMonitor.New | infrastructure/quota-monitor.js:30-46 | The constructor keeps the truthy keys in order and fails exactly when none remains. Otherwise: index 0, counters 0, flags null, `lastReset = now`; `resetInterval` and `maxRetries` fall back to 60000 and the key count when absent or 0 |
| QuotaMonitor.CheckQuotaReset | infrastructure/quota-monitor.js:167-179 | Once the interval has passed, every flag is cleared and `lastReset = now`; otherwise nothing changes. Counters, index and keys are never touched |
| QuotaMonitor.Authorize | infrastructure/quota-monitor.js:76-82 | The request goes to the caller's endpoint. It keeps the caller's method, body and other headers, and sets or overwrites `x-goog-api-key` with the key |
| QuotaMonitor.ClientErrorsAreReturned | infrastructure/quota-monitor.js:99-126 | A 4xx other than 429 is accepted and handed back like a success |
| QuotaMonitor.RotatesExactlyOnFailures | infrastructure/quota-monitor.js:84-111 | The client rotates exactly on a 429, a status of 500 or more, or a thrown error; only a 429 flags the key |
| QuotaMonitor.FlagsAfterAppend | infrastructure/quota-monitor.js:85-87 | A 429 stamps that key's flag with the clock reading; every other iteration leaves the flags alone |
| QuotaMonitor.IterationsRoundRobin | infrastructure/quota-monitor.js:61-138 | Iteration `k` of a call uses the key `k` rotations after the starting index, always in range |
| QuotaMonitor.IterationsSkip | infrastructure/quota-monitor.js:65-73 | An iteration skips its key without a request exactly when the earlier iterations left that key flagged |
| QuotaMonitor.IterationsRequests | infrastructure/quota-monitor.js:75-82 | Every request sent goes to the caller's endpoint with the caller's options and the iteration's key. Its verdict is the classification of its outcome |
| QuotaMonitor.IterationsBackOff | infrastructure/quota-monitor.js:84-138 | After a rejected request the call waits `Backoff(k + 1)`; after an accepted one it does not wait |
| QuotaMonitor.AccountStep | infrastructure/quota-monitor.js:86-115 | Every iteration is charged once: a rejected request to its key's error counter, an accepted one to its request counter, a skip to neither |
| QuotaMonitor.Call | infrastructure/quota-monitor.js:55-145 | `call` (see `CallSpec`). Effects on state: at most `maxRetries` iterations; every request sent to the caller's endpoint; one outcome consumed per request sent, in order; the index rotated once per rotated iteration; counters and flags match the trace; `totalRequestCount` stays the sum of the request counters. Result: the response returned exactly when the last request was accepted; otherwise the all-keys-exhausted error with the key count and `maxRetries` attempts |
| QuotaMonitor.ExhaustedTriedEveryKey | infrastructure/quota-monitor.js:61-144 | A call that gives up with `maxRetries` at least the key count has visited every key |
| QuotaMonitor.CallConsumesInOrder | infrastructure/quota-monitor.js:75-82 | The request of iteration `k` meets the next outcome the transport has not yet delivered |
| QuotaMonitor.CallTargetsEndpoint | infrastructure/quota-monitor.js:61-82 | Every retry of one call goes to the caller's endpoint, with the caller's method and body, and carries the key of the iteration that sent it |
| QuotaMonitor.CallContinuesAfterRotation | infrastructure/quota-monitor.js:61-138 | An iteration that rotated is followed by another while attempts remain |
| QuotaMonitor.CallFirstIteration | infrastructure/quota-monitor.js:59-66 | The first iteration uses the current key. It sends on it, with the first outcome, exactly when the key is unflagged after the reset check |
| QuotaMonitor.KeyLabelInjective | infrastructure/quota-monitor.js:202 | Distinct keys get distinct `Key i` labels |
| QuotaMonitor.ActiveCountAllClear | infrastructure/quota-monitor.js:188 | With every flag clear, every key counts as active |
| QuotaMonitor.ExhaustedLabels | infrastructure/quota-monitor.js:202 | The labels listed are exactly those of the flagged keys, and their number plus the active count is the key count |
| QuotaMonitor.ExhaustedLabelsExact | infrastructure/quota-monitor.js:202 | A key's label is listed exactly when its flag is set |
| KeyPool.SuccessRateAsWritten | infrastructure/quota-monitor.js:198-200 | The rate is N/A exactly when there are no successes. Otherwise it is at most 100, equals 100 exactly when there are no errors, and is negative exactly when errors outnumber successes |
| KeyPool.SuccessRateCanBeNegative | infrastructure/quota-monitor.js:198-200 | One success and three errors report a rate of −200% |
| KeyPool.SuccessShare | infrastructure/quota-monitor.js:198-200 | The corrected rate, successes over all requests sent, always lies between 0 and 100 |
| KeyPool.SuccessShareMatchesWithoutErrors | infrastructure/quota-monitor.js:198-200 | With no errors the written rate and the corrected one agree at 100% |
| QuotaMonitor.GetStats | infrastructure/quota-monitor.js:185-203 | `currentKey = index + 1`; totals are the sums of the per-key arrays; active keys plus listed exhausted keys make the key count; the success rate is the as-written formula over those totals: N/A exactly when nothing succeeded, and negative exactly when errors outnumber successes; uptime is the whole seconds since the last reset |
| QuotaMonitor.CallCountsOneSuccess | infrastructure/quota-monitor.js:113-115 | A call raises the reported request total by one exactly when it returns a response |
| QuotaMonitor.ResetStats | infrastructure/quota-monitor.js:235-242 | After `resetStats`: index 0, counters 0, flags clear and `lastReset = now`. The keys and configuration are kept |
| QuotaMonitor.ResetMatchesConstructor | infrastructure/quota-monitor.js:235-242 | Resetting gives exactly the client the constructor builds from the same keys and options |
| QuotaMonitor.StatsAfterReset | infrastructure/quota-monitor.js:235-242 | Right after a reset the statistics show key 1, every key active, nothing exhausted, zero totals and N/A |
| QuotaMonitor.CreateFromEnv | infrastructure/quota-monitor.js:253-279 | The client is built from the numbered keys, or else from `GEMINI_API_KEY`. It fails exactly when the environment supplies neither. On success the client is what the constructor builds from those keys with the caller's options |
| QuotaScenarios.FailoverTrace | infrastructure/quota-monitor.js:84-126 | On a fresh three-key client, a 429 on key 1 and then a 200 on key 2 make exactly two iterations with those verdicts |
| QuotaScenarios.FailoverToSecondKey | infrastructure/quota-monitor.js:84-126 | The same call returns the 200 response, leaves key 2 current and flags only key 1 |
| QuotaScenarios.FailoverBooks | infrastructure/quota-monitor.js:84-126 | The same call charges one error to key 1 and one request to key 2 |
| QuotaScenarios.BothKeysExhaustedTrace | infrastructure/quota-monitor.js:61-144 | A two-key client with two 429s makes two iterations, one per key, and gives up with `(2 keys, 2 attempts)` |
| QuotaScenarios.BothKeysExhaustedWaits | infrastructure/quota-monitor.js:93-95 | The same call waits 100 ms and then 200 ms |
| QuotaScenarios.BothKeysExhausted | infrastructure/quota-monitor.js:61-144 | The same call ends back on key 1 with both keys flagged |
| QuotaScenarios.BothKeysExhaustedBooks | infrastructure/quota-monitor.js:61-144 | The same call charges one error to each key and counts no request |
| QuotaScenarios.BadRequestReturned | infrastructure/quota-monitor.js:99-126 | A 400 on the first key is returned at once, counted as a request, and leaves the index and the error counters alone |
| QuotaGemini.New | modules/06-logic-engine/solutions/logic_engine_ai.py:39-49 | The constructor keeps the truthy keys in order and raises `ValueError` exactly when none remains. Otherwise the index and every count are 0 |
| QuotaGemini.Classify | modules/06-logic-engine/solutions/logic_engine_ai.py:85-106 | A response is accepted exactly when its status is below 400; a 4xx other than 429 is a client error |
| QuotaGemini.MakeRequest | modules/06-logic-engine/solutions/logic_engine_ai.py:66-83 | The request goes to the model's `generateContent` endpoint with the key and the prompt |
| QuotaGemini.BackoffSecondsMatchesMilliseconds | modules/06-logic-engine/solutions/logic_engine_ai.py:208-211 | The Python wait in seconds is the JavaScript wait in milliseconds, divided by 1000 |
| QuotaGemini.IterationsRoundRobin | modules/06-logic-engine/solutions/logic_engine_ai.py:68-123 | Iteration `k` uses the key `k` rotations after the starting index |
| QuotaGemini.IterationsSendEveryTime | modules/06-logic-engine/solutions/logic_engine_ai.py:72-83 | With no quota flags, every iteration sends a request and consumes one outcome |
| QuotaGemini.IterationsBackOff | modules/06-logic-engine/solutions/logic_engine_ai.py:86-123 | After a rejected request the call waits `Backoff(k + 1)` |
| QuotaGemini.AccountStep | modules/06-logic-engine/solutions/logic_engine_ai.py:87-118 | Every request is charged once: to its key's error counter when rejected, to its request counter when accepted |
| QuotaGemini.Call | modules/06-logic-engine/solutions/logic_engine_ai.py:51-128 | `call` (see `CallSpec`): at most one pass over the pool. It returns the response exactly when the last request was accepted, and otherwise raises after `len(keys)` attempts. The index, counters and `total_requests` match the trace |
| QuotaGemini.ExhaustedTriedEveryKey | modules/06-logic-engine/solutions/logic_engine_ai.py:68-128 | A call that raised tried every key with a request that failed, and ends on the key it started from |
| QuotaScenarios.ClassificationsAgreeExceptClientErrors | modules/06-logic-engine/solutions/logic_engine_ai.py:105-123 | The two clients read an outcome alike except for a 4xx other than 429: the JavaScript client returns it, the Python client rotates |
| QuotaGemini.GetStats | modules/06-logic-engine/solutions/logic_engine_ai.py:213-227 | `current_key = index + 1`, totals are the sums of the counters, and the rate is N/A exactly when nothing succeeded. As in the JavaScript client, the rate is negative exactly when errors outnumber successes |
| QuotaGemini.CreateFromEnv | modules/06-logic-engine/solutions/logic_engine_ai.py:244-272 | The numbered keys are used, or else `GEMINI_API_KEY`. It raises exactly when neither is set |
| LogicEngine.EntryShape | modules/06-logic-engine/solutions/solution.py:38-44 | A rule adds one line, headed by its name, exactly when its condition is not a clean false; a raised error gives an `ERROR` line |
| LogicEngine.AddRule | modules/06-logic-engine/solutions/solution.py:26-28 | The rule is appended after the existing ones |
| LogicEngine.RemoveRule | modules/06-logic-engine/solutions/solution.py:30-32 | No rule of that name remains |
| LogicEngine.RemoveRuleConcat | modules/06-logic-engine/solutions/solution.py:30-32 | Removal works piecewise, so the remaining rules keep their relative order |
| LogicEngine.RemoveRuleCount | modules/06-logic-engine/solutions/solution.py:30-32 | Exactly the rules of that name are removed |
| LogicEngine.RemoveAbsent | modules/06-logic-engine/solutions/solution.py:30-32 | Removing an absent name changes nothing |
| LogicEngine.RemoveRuleIdempotent | modules/06-logic-engine/solutions/solution.py:30-32 | Removing twice is removing once |
| LogicEngine.RemoveAfterAdd | modules/06-logic-engine/solutions/solution.py:26-32 | Adding a rule and then removing its name is removing the name |
| LogicEngine.EvaluateLength | modules/06-logic-engine/solutions/solution.py:34-46 | There is one entry per rule that fired or raised, so never more entries than rules |
| LogicEngine.EvaluateConcat | modules/06-logic-engine/solutions/solution.py:34-46 | Entries come in rule order: the report on a concatenation is the two reports in order |
| LogicEngine.EvaluateAfterAdd | modules/06-logic-engine/starter-template/logic_engine.py:29-53 | An added rule reports after all the earlier ones |
| LogicEngine.EvaluateQuiet | modules/06-logic-engine/starter-template/logic_engine.py:45-53 | Rules that do not fire contribute nothing |
| LogicEngine.EvaluateLoop | modules/06-logic-engine/solutions/logic_engine_ai.py:301-313 | The loop returns the ordered report, with at most one entry per rule. A rule whose condition or action raises an `Exception` subclass gets the error entry built from the exception's `str`, and the loop goes on to the next rule |
| LogicDemo.Compare | modules/06-logic-engine/solutions/solution.py:55 | Python ordering of a context value against a number raises exactly for a string, and is the integer comparison for an int |
| LogicDemo.SolutionBulk | modules/06-logic-engine/solutions/solution.py:53-57 | In the VIP scenario, 15 items trigger the bulk discount |
| LogicDemo.SolutionNotNew | modules/06-logic-engine/solutions/solution.py:59-63 | In the VIP scenario, a returning customer gets no welcome discount |
| LogicDemo.SolutionPerkSilent | modules/06-logic-engine/solutions/solution.py:65-69 | The as-written premium perk does not fire for a VIP member |
| LogicDemo.SolutionWinter | modules/06-logic-engine/solutions/solution.py:72-76 | January triggers the winter sale |
| LogicDemo.SolutionHighValue | modules/06-logic-engine/solutions/solution.py:78-82 | An order total of 650 gives the bonus line `... (order total: $650)` |
| LogicDemo.SolutionLoyalty | modules/06-logic-engine/solutions/solution.py:84-91 | 1500 points with the VIP tier give the loyalty line `... (current: 1500)` |
| LogicDemo.SolutionDemo | modules/06-logic-engine/solutions/solution.py:97-118 | The comprehensive scenario reports four actions: bulk, winter, high value and loyalty. The premium perk is not among them, contrary to the expected-output comment |
| LogicDemo.SolutionPerkCorrected | modules/06-logic-engine/solutions/solution.py:115 | A perk that accepts premium or VIP fires for the VIP member |
| LogicDemo.CorrectedSolutionDemo | modules/06-logic-engine/solutions/solution.py:113-118 | With that perk, the scenario reports the five actions the comment lists, in its order |
| LogicDemo.CorrectedPerkDiffersOnlyForVip | modules/06-logic-engine/solutions/solution.py:65-69 | The corrected perk differs from the original only on the VIP tier |
| LogicDemo.StarterScenarioPremiumBulk | modules/06-logic-engine/starter-template/logic_engine.py:81-89 | Scenario 1 gives the bulk and the premium discounts, in that order |
| LogicDemo.StarterScenarioNewCustomer | modules/06-logic-engine/starter-template/logic_engine.py:91-99 | Scenario 2 gives only the welcome discount |
| LogicDemo.StarterScenarioNothing | modules/06-logic-engine/starter-template/logic_engine.py:101-109 | Scenario 3 gives nothing |
| LogicDemo.StarterErrorCaptured | modules/06-logic-engine/starter-template/logic_engine.py:45-51 | A condition that raises becomes an `ERROR` line, and the later rules still run |
| LogicDemo.BulkRaises | modules/06-logic-engine/starter-template/logic_engine.py:62-66 | A string quantity makes the bulk rule raise Python's `TypeError` message for `>=` |
| GameLogic.InitializeGame | part2/camera-game/reference/src/gameLogic.js:35-50 | The round starts now, active, with score 0; the round number and target stay |
| GameLogic.EndGame | part2/camera-game/reference/src/gameLogic.js:134-135 | Only the active flag changes, to false |
| GameLogic.OnActionButtonClick | part2/camera-game/reference/src/gameLogic.js:64-93 | An inactive game is untouched and nothing is synced. An active one gains exactly one point, which is synced, and stays active exactly while the new score is below the target |
| GameLogic.InitPayload | part2/camera-game/reference/src/gameLogic.js:38-43 | The session update carries the first of the call's two clock readings. Its target and round number agree with the local state `initializeGame` leaves. Its round start is not after the local one, which takes the second reading, when the clock has not gone back |
| GameLogic.ResetGame | part2/camera-game/reference/src/gameLogic.js:166-184 | Score 0, active, the round number plus one, the start time now, and a zero score synced |
| GameLogic.StepKeepsInvariant | part2/camera-game/reference/src/gameLogic.js:64-93 | Initialising, clicking and resetting all keep the score within `0..target`, with an active game below the target |
| GameLogic.ScoreNeverPassesTarget | part2/camera-game/reference/src/gameLogic.js:18-25 | From the loaded state, no sequence of events takes the score outside 0..10 |
| GameLogic.TenClicksWin | part2/camera-game/reference/src/gameLogic.js:88-92 | Ten clicks after initialising reach 10 and end the game; an eleventh click changes nothing |
| GameLogic.FirstWinner | part2/camera-game/reference/src/gameLogic.js:110-121 | It finds the first entry that is online with a score at least the target, or reports that there is none |
| GameLogic.CheckWinCondition | part2/camera-game/reference/src/gameLogic.js:107-124 | Missing players give null. Otherwise null exactly when no entry wins; a winner is the first winning entry, with its id, name, score and elapsed time |
| GameLogic.OfflineNeverWins | part2/camera-game/reference/src/gameLogic.js:113 | The reported winner is always an online player |
| GameLogic.GetElapsedTime | part2/camera-game/reference/src/gameLogic.js:280-283 | 0 while the round start is unset or 0; otherwise the time since the start |
| GameLogic.WinnerTimeIsElapsed | part2/camera-game/reference/src/gameLogic.js:118 | A winner's time is the elapsed time once a round has started; with no start it is the raw clock reading |
| GameLogic.Lookup | part2/camera-game/reference/src/gameLogic.js:220 | Finds the player stored under an id, or reports the id absent |
| GameLogic.GetCurrentPlayer | part2/camera-game/reference/src/gameLogic.js:218-221 | Null exactly when the players are missing, the id is empty or no entry has it; otherwise the stored player |
| GameLogic.OnlineStandingsMembers | part2/camera-game/reference/src/gameLogic.js:253-259 | A standing is listed exactly when it comes from an online entry, with a missing score as 0 |
| GameLogic.SortByScore | part2/camera-game/reference/src/gameLogic.js:260 | Sorting is a permutation of its input |
| GameLogic.SortDescending | part2/camera-game/reference/src/gameLogic.js:260 | Sorting orders the scores from high to low |
| GameLogic.SortStable | part2/camera-game/reference/src/gameLogic.js:260 | Sorting is stable: players with equal scores keep their entry order |
| GameLogic.GetRankedPlayers | part2/camera-game/reference/src/gameLogic.js:250-251 | Missing players give an empty list |
| GameLogic.RankedPlayersSpec | part2/camera-game/reference/src/gameLogic.js:250-261 | The ranked list is a permutation of the online players, in descending score, with ties in entry order |
| GameLogic.IndexOfId | part2/camera-game/reference/src/gameLogic.js:241 | Finds the first position with the id, or reports none |
| GameLogic.GetPlayerRank | part2/camera-game/reference/src/gameLogic.js:229-243 | 0 exactly when the players are missing or the id is not in the ranked list. Otherwise the 1-based position of the id's first occurrence, at most the number of online players |
| GameLogic.RankZeroIffNotOnline | part2/camera-game/reference/src/gameLogic.js:229-243 | The rank is 0 exactly when no online entry carries the id |
| GameLogic.RankBetweenCounts | part2/camera-game/reference/src/gameLogic.js:233-242 | A ranked player comes after every online player with a higher score and no later than the last one with an equal score |
| GameLogic.JsRem | part2/camera-game/reference/src/gameLogic.js:271 | JavaScript's `%` gives a remainder with the sign of the dividend |
| GameLogic.FormatTimeShape | part2/camera-game/reference/src/gameLogic.js:268-274 | A non-negative time renders as unpadded minutes, a colon and exactly two digits of seconds |
| GameLogic.FormatTimeRoundTrip | part2/camera-game/reference/src/gameLogic.js:268-274 | Reading the rendering back gives the whole seconds, and the seconds field is below 60 |
| GameLogic.FormatTimeExample | part2/camera-game/reference/src/gameLogic.js:268-274 | 65000 ms renders as "1:05" |
| GameLogic.FormatTimeNegative | part2/camera-game/reference/src/gameLogic.js:269-273 | −1000 ms renders as "-1:-1": the minutes round down and the remainder keeps its sign |
| GameStarter.InitPayload | part2/camera-game/starter/src/gameLogic.js:32-36 | The starter's session update carries the first clock reading and the target of the local state, and no round number. Its round start is not after the local one when the clock has not gone back |
| GameStarter.PayloadOmitsRound | part2/camera-game/starter/src/gameLogic.js:32-36 | For the same clock reading, the starter's update is the reference's without the round number, so the two always differ |
| GameStarter.OnActionButtonClick | part2/camera-game/starter/src/gameLogic.js:90-96 | The stub click changes no state and syncs nothing |
| GameStarter.CheckWinCondition | part2/camera-game/starter/src/gameLogic.js:130-134 | The stub never reports a winner |
| GameStarter.StubClickAgreesWhenInactive | part2/camera-game/starter/src/gameLogic.js:90-96 | The stub click agrees with the reference exactly when the game is inactive |
| GameStarter.StubWinAgreesWithoutWinner | part2/camera-game/starter/src/gameLogic.js:130-134 | The stub winner check agrees with the reference exactly when no online player has reached the target |
| EmotionMapping.GetBlendshapeScore | part2/face-reactive/reference/src/emotionMapping.js:8-11 | The score of the first entry with the name, or 0 when no entry has it |
| EmotionMapping.LabelsExact | part2/face-reactive/reference/src/emotionMapping.js:22 | The classifier's results are exactly the six documented labels, one per emotion |
| EmotionMapping.Classify | part2/face-reactive/reference/src/emotionMapping.js:37-72 | Each emotion is returned exactly when its condition holds and no earlier condition does (excited, happy, surprised, angry, sad), and calm exactly when none holds |
| EmotionMapping.EmptyIsCalm | part2/face-reactive/reference/src/emotionMapping.js:24-73 | No blendshapes read as calm |
| EmotionMapping.HappyMeansJawClosed | part2/face-reactive/reference/src/emotionMapping.js:42-50 | A happy verdict implies `jawOpen ≤ 0.4` and smiles summing above 1 |
| EmotionMapping.SadAndSurprisedExclusive | part2/face-reactive/reference/src/emotionMapping.js:54-68 | The sad and surprised conditions never hold together |
| EmotionMapping.SmileExamples | part2/face-reactive/reference/src/emotionMapping.js:42-50 | A broad smile is excited with the jaw open and happy with it closed |
| EmotionMapping.StubDetectEmotion | part2/face-reactive/starter/src/emotionMapping.js:57-79 | The stub answers, for every face, a documented label: the one the full classifier gives when there is no face data (calm) |
| EmotionMapping.StubAgreesOnNeutralFaces | part2/face-reactive/starter/src/emotionMapping.js:77-78 | The stub agrees with the reference classifier exactly on faces with no strong expression |
| MockRouter.GroupTests | part2/camera-game/reference/backup/mocks/gemini-api-mock.js:198-236 | Each test in the chain is "some keyword of the group occurs" |
| MockRouter.RoutingIsFirstMatch | part2/camera-game/reference/backup/mocks/gemini-api-mock.js:194-240 | The chain of `includes` tests is first-match routing over the ordered keyword groups |
| MockRouter.CaseInsensitive | part2/camera-game/reference/backup/mocks/gemini-api-mock.js:195 | A prompt and its lower-cased form get the same response |
| MockRouter.EarliestGroupWins | part2/camera-game/reference/backup/mocks/gemini-api-mock.js:198-239 | A text that mentions group `i` is routed to group `i` or to an earlier group that it also mentions |
| MockRouter.Priority | part2/camera-game/reference/backup/mocks/gemini-api-mock.js:198-239 | The priority is recipe, emotion, review, code, game, then default; a mention of any group rules out the default |
| MockRouter.DefaultIffNoKeyword | part2/camera-game/reference/backup/mocks/gemini-api-mock.js:239 | The default answer comes exactly when no keyword of any group occurs |
| MockRouter.CookieIsRecipe | part2/camera-game/reference/backup/mocks/gemini-api-mock.js:198-202 | Matching is by substring: "cookie" is a recipe question |
| MockRouter.InterfaceIsEmotion | part2/camera-game/reference/backup/mocks/gemini-api-mock.js:206-211 | "interface" is an emotion question |
| MockRouter.DisplayIsGame | part2/camera-game/reference/backup/mocks/gemini-api-mock.js:231-235 | "display" is a game question |
| FallbackTables.FallbackTable | part2/face-reactive/reference/src/geminiIntegration.js:251 | An unknown response kind selects the affirmation table; every table has the same six emotion keys |
| FallbackTables.GetFallbackResponse | part2/face-reactive/reference/src/geminiIntegration.js:223-253 | The emotion's sentence from the selected table, or the neutral one for an unknown emotion; never empty |
| FallbackTables.UnknownKindIsAffirmation | part2/face-reactive/reference/src/geminiIntegration.js:251 | An unknown response kind answers as an affirmation |
| FallbackTables.UnknownEmotionIsNeutral | part2/face-reactive/reference/src/geminiIntegration.js:252 | An unknown emotion, including the classifier's "calm" and "excited", gets the neutral sentence |
| FallbackTables.GetDefaultVisualizationParams | part2/face-reactive/reference/src/geminiIntegration.js:258-311 | The emotion's entry or the neutral one. Every entry keeps to the schema's limits on speed, size, intensity and movement pattern |
| FallbackTables.TitleFallback | part2/face-reactive/reference/src/geminiIntegration.js:177-179 | The first character upper-cased, the rest unchanged, then " Moment" |
| FallbackTables.TitleRecoversEmotion | part2/face-reactive/reference/src/geminiIntegration.js:178 | Lowering the title's first letter gives the emotion back exactly when the emotion does not start with a capital letter |
| FallbackTables.TitleExample | part2/face-reactive/reference/src/geminiIntegration.js:189 | "happy" becomes "Happy Moment" |
| FallbackTables.DescribeIntensity | part2/face-reactive/reference/src/geminiIntegration.js:181 | "very strong" exactly above 0.7, "moderate" exactly in (0.4, 0.7], "subtle" otherwise; both thresholds are strict |
| FallbackTables.DescribeIntensityMonotone | part2/face-reactive/reference/src/geminiIntegration.js:181 | A higher intensity is never described more weakly |
| FallbackTables.SelectPrompt | part2/face-reactive/reference/src/geminiIntegration.js:67-73 | The description and suggestion templates are chosen exactly for their own names; anything else gets the affirmation template |
| FallbackTables.EmotionPrompt | part2/face-reactive/reference/src/geminiIntegration.js:67-73 | The emotion appears in the prompt right after the template's opening text |
| FallbackTables.PromptMentionsEmotion | part2/face-reactive/reference/src/geminiIntegration.js:67-71 | Every prompt mentions its emotion |
| FallbackTables.GenerateEmotionResponse | part2/face-reactive/reference/src/geminiIntegration.js:60-81 | With no client, or when the call fails, the fallback sentence; otherwise the model's answer to the selected prompt |
| FallbackTables.GenerateEmotionTitle | part2/face-reactive/reference/src/geminiIntegration.js:174-191 | With no client, or when the call fails, the fallback title; otherwise the model's answer to the title prompt |
| Visualization.ParamsFor | part2/face-reactive/reference/src/visualization.js:127 | An unknown emotion uses the calm parameters (80 particles); every count is at most the pool size of 150 |
| Visualization.EveryDetectedEmotionHasParams | part2/face-reactive/reference/src/visualization.js:77-114 | Every emotion the classifier reports has its own entry |
| Visualization.UpdateVisualization | part2/face-reactive/reference/src/visualization.js:125-150 | The pool length is unchanged. Among the first 150 particles, particle `i` is active exactly when `i` is below the emotion's count. An active particle gets the colour, size `5·sizeMultiplier` and fresh position and velocity; an inactive one keeps everything else. Particles past 150 are untouched |
| Visualization.ActivePrefix | part2/face-reactive/reference/src/visualization.js:130-134 | Exactly the emotion's count of particles ends up active |
| Visualization.Move | part2/face-reactive/reference/src/visualization.js:157-169 | An inactive particle is untouched. An active one keeps its velocity, size and colour, steps by its velocity when that stays on the canvas, and always ends on the canvas |
| Visualization.UpdateParticles | part2/face-reactive/reference/src/visualization.js:156-170 | The frame step moves every active particle by `Move`, never touches an inactive particle and never changes which particles are active |

## Left out

- Real I/O: `fetch` and `requests.post` are an outcome sequence; `setTimeout` and `time.sleep` are returned delays; `Date.now()` is a clock argument. Firebase, MediaPipe, the DOM, the canvas drawing and `console` output are not modelled.
- Verbose logging, `printStats` and `print_stats`: console output only.
- The percentage text of `successRate` (`toFixed(1)`, `:.1f`): the rate is a real number, or not applicable.
- Concurrent calls on one client instance: the clients are unsynchronised and promise nothing about interleaving.
- `generateContent`, `call_structured`, `getEmotionVisualizationParams` and the JSON decoding of responses. These are request building and parsing of the remote API's payloads. Python's `response.json()` decode failure is left out for the same reason.
- `generate_rule_from_description`: its semantics are Python's `eval` and `str.format`.
- The JSON payloads of the mock's `mockResponses` table: a response is named by its table key. `getMockResponseWithDelay` and `shouldUseMock` are a random delay and environment sniffing.
- The starter `visualization.js`, whose `updateVisualization` is an empty stub.
- Floating point: blendshape scores and visual parameters are exact reals, so IEEE-754 rounding is not modelled. `formatTime` takes a whole number of milliseconds.
- Unicode case mapping: `toLowerCase` and `toUpperCase` are ASCII only.
- JavaScript object details: prototype keys such as `players["toString"]` or `fallbacks["constructor"]` are not modelled. A players object is a sequence of entries with distinct ids in `Object.entries` order.
- QuotaMonitor.Call: a 429 stamps its key with the call's clock reading rather than a fresh `Date.now()`, since only whether a flag is set is ever read. The transport must supply at least `maxRetries` outcomes.
- QuotaGemini.Call: the transport must supply at least one outcome per key.
- LogicEngine.EvaluateLoop: only raises of `Exception` subclasses are modelled, since those are what the `except Exception` clause catches. `SystemExit`, `KeyboardInterrupt` and `GeneratorExit` escape `evaluate` in the source. So does an exception raised while computing `str(e)`. A rule's condition and action are total functions, so none of these cases arise in the model.
- QuotaMonitor.Call: of the caller's fetch options, only the method, headers and body are modelled. Other `RequestInit` fields such as `mode`, `signal` or `credentials` pass through the spread but are not represented.
- QuotaMonitor.Authorize: headers are a case-sensitive map from name to value, matching the object spread of a plain headers object. Two consequences of `fetch`'s own header handling are not modelled. First, `fetch` merges header names case-insensitively, so a caller's `X-Goog-Api-Key` header would be sent combined with the key. Second, a `Headers` instance spreads to an empty object, so its headers would be dropped.
- Visualization.UpdateVisualization: requires a pool of at least 150 particles. Called before `initVisualization`, the source throws a `TypeError`, and that is not modelled.
- `Math.random()` in `updateVisualization`: the four draws per particle are an argument `draws(i)`.

## Findings

| source | as written | input that shows it | evidently intended | confidence | as-written member | corrected member |
|---|---|---|---|---|---|---|
| modules/06-logic-engine/solutions/solution.py:65-69 | The premium perk tests `membership_tier == "premium"`, yet the expected output at line 115 lists it for a VIP member ("VIP is premium+") | the comprehensive scenario: tier "vip", 15 items, January, total 650, 1500 points | the perk applies to premium and VIP members, giving five actions | not executed | LogicDemo.SolutionDemo | LogicDemo.CorrectedSolutionDemo |
| infrastructure/quota-monitor.js:198-200 | `successRate` is `(totalRequests - totalErrors) / totalRequests`, but `totalRequests` counts only successes while errors are counted separately | one success and three errors: the rate reads −200% | the share of successes among all requests sent, between 0% and 100% | not executed | KeyPool.SuccessRateCanBeNegative | KeyPool.SuccessShare |

`QuotaMonitor.GetStats` and `QuotaGemini.GetStats` keep the formula as written, because they model what the clients report. `KeyPool.SuccessShare` is the corrected reading, with its bounds proved. The Python client computes the same formula at `modules/06-logic-engine/solutions/logic_engine_ai.py:225`.
