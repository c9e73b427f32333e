/** The Python port `QuotaAwareGemini`: the same key pool, counters, rotation and backoff
    as the JavaScript client, without quota flags, reset interval or `maxRetries`. Each
    call makes one pass over the pool, and a 4xx other than 429 is rotated rather than
    returned. */
module QuotaGemini {
  import opened Wrappers
  import opened Strings
  import opened KeyPool

  const DefaultModel: string := "gemini-2.0-flash-001"
  const EndpointPrefix: string := "https://generativelanguage.googleapis.com/v1beta/models/"
  const EndpointSuffix: string := ":generateContent"

  /** The request `call` posts: the endpoint for `model`, the key and the prompt. The
      request also carries a JSON content type and a 30-second timeout. */
  datatype Request = Request(endpoint: string, key: string, prompt: string)

  datatype Client = Client(
    keys: seq<string>,
    currentIndex: nat,
    requestCounts: seq<nat>,
    errorCounts: seq<nat>,
    totalRequests: nat)

  /** The invariant every operation keeps: a non-empty pool of non-empty keys, the index
      in range, one counter of each kind per key, the running total equal to the sum. */
  predicate Valid(c: Client) {
    && |c.keys| >= 1
    && (forall i :: 0 <= i < |c.keys| ==> c.keys[i] != "")
    && c.currentIndex < |c.keys|
    && |c.requestCounts| == |c.keys|
    && |c.errorCounts| == |c.keys|
    && c.totalRequests == Sum(c.requestCounts)
  }

  /** `QuotaAwareGemini(keys)`: falsy keys dropped in order; a `ValueError` when none remain. */
  function New(raw: seq<RawKey>): (r: Result<Client, ConfigError>)
    ensures r.Failure? <==> FilterKeys(raw) == []
    ensures r.Failure? ==> r.error == NoKeysConfigured
    ensures r.Success? ==> Valid(r.value) && r.value.keys == FilterKeys(raw)
    ensures r.Success? ==> r.value.currentIndex == 0 && r.value.totalRequests == 0
    ensures r.Success? ==> r.value.requestCounts == Zeros(|r.value.keys|) == r.value.errorCounts
  {
    var keys := FilterKeys(raw);
    if keys == [] then Failure(NoKeysConfigured)
    else
      SumZeros(|keys|);
      Success(Client(keys, 0, Zeros(|keys|), Zeros(|keys|), 0))
  }

  /** The Python client's reading of an outcome. `raise_for_status` throws for every
      status from 400 to 599; the ones from 500 up were already rotated, and the throw
      for the others is a `RequestException`, so it is caught and rotated too. */
  function Classify(o: Outcome): (v: Verdict)
    ensures v == Accepted <==> o.Responded? && o.reply.status < 400
    ensures v == ClientError <==> o.Responded? && 400 <= o.reply.status < 500 && o.reply.status != 429
  {
    match o
    case TransportFailure => TransportError
    case Responded(reply) =>
      if reply.status == 429 then QuotaExceeded
      else if reply.status >= 500 then ServerError
      else if reply.status >= 400 then ClientError
      else Accepted
  }

  /** The request posted for `prompt` with `key`, against the endpoint of `model`. */
  function MakeRequest(key: string, prompt: string, model: string): (r: Request)
    ensures r.key == key && r.prompt == prompt
    ensures |r.endpoint| == |EndpointPrefix| + |model| + |EndpointSuffix|
    ensures StartsWith(r.endpoint, EndpointPrefix)
    ensures r.endpoint[|EndpointPrefix|..|EndpointPrefix| + |model|] == model
  {
    var e := EndpointPrefix + model + EndpointSuffix;
    assert e[..|EndpointPrefix|] == EndpointPrefix;
    assert e[|EndpointPrefix|..|EndpointPrefix| + |model|] == model;
    Request(EndpointPrefix + model + EndpointSuffix, key, prompt)
  }

  /** `_backoff(attempt)` in seconds: `min(0.1 * 2 ** (attempt - 1), 2.0)`. */
  function BackoffSeconds(attempt: nat): real
    requires attempt >= 1
  {
    var raw := 0.1 * Pow2(attempt - 1) as real;
    if raw < 2.0 then raw else 2.0
  }

  /** The Python schedule in seconds is the JavaScript schedule in milliseconds. */
  lemma BackoffSecondsMatchesMilliseconds(attempt: nat)
    requires attempt >= 1
    ensures BackoffSeconds(attempt) * 1000.0 == Backoff(attempt) as real
  {
    Pow2Threshold(attempt - 1);
  }

  /** What iteration number `|prefix|` of a call from `start` does: it posts with the key
      `|prefix|` rotations on, its verdict is the classification of its outcome, and a
      rejected request is followed by the backoff of the new attempt count. */
  predicate StepOK(start: Client, prompt: string, model: string,
                   prefix: seq<Step<Request>>, s: Step<Request>)
    requires Valid(start)
  {
    var n := |start.keys|;
    RotateTimesInRange(start.currentIndex, n, |prefix|);
    && s.Sent?
    && s.keyIndex == RotateTimes(start.currentIndex, n, |prefix|)
    && s.request == MakeRequest(start.keys[s.keyIndex], prompt, model)
    && s.verdict == Classify(s.outcome)
    && s.delayMs == (if s.verdict == Accepted then 0 else Backoff(|prefix| + 1))
  }

  /** Every iteration of `trace` is a `StepOK` after the ones before it. */
  predicate Iterations(start: Client, prompt: string, model: string, trace: seq<Step<Request>>)
    requires Valid(start)
  {
    trace == [] ||
    (Iterations(start, prompt, model, trace[..|trace| - 1]) &&
     StepOK(start, prompt, model, trace[..|trace| - 1], trace[|trace| - 1]))
  }

  lemma IterationsAppend(start: Client, prompt: string, model: string, trace: seq<Step<Request>>, s: Step<Request>)
    requires Valid(start)
    ensures Iterations(start, prompt, model, trace + [s]) <==>
      Iterations(start, prompt, model, trace) && StepOK(start, prompt, model, trace, s)
  {
    assert (trace + [s])[..|trace|] == trace;
  }

  /** Iteration `k` of a call is a `StepOK` after the iterations before it. */
  lemma {:induction false} IterationAt(start: Client, prompt: string, model: string,
                                       trace: seq<Step<Request>>, k: nat)
    requires Valid(start) && Iterations(start, prompt, model, trace) && k < |trace|
    ensures StepOK(start, prompt, model, trace[..k], trace[k])
  {
    var init := trace[..|trace| - 1];
    if k < |init| {
      IterationAt(start, prompt, model, init, k);
      assert init[..k] == trace[..k] && init[k] == trace[k];
    }
  }

  /** Read position by position, the iterations use the keys round-robin. */
  lemma {:induction false} IterationsRoundRobin(start: Client, prompt: string, model: string,
                                                trace: seq<Step<Request>>)
    requires Valid(start) && Iterations(start, prompt, model, trace)
    ensures RoundRobin(trace, start.currentIndex, |start.keys|)
  {
    if trace != [] {
      var init := trace[..|trace| - 1];
      IterationsRoundRobin(start, prompt, model, init);
      assert forall k :: 0 <= k < |init| ==> trace[k] == init[k];
    }
  }

  /** Every iteration sends a request, so the outcomes consumed are one per iteration. */
  lemma {:induction false} IterationsSendEveryTime(start: Client, prompt: string, model: string,
                                                   trace: seq<Step<Request>>)
    requires Valid(start) && Iterations(start, prompt, model, trace)
    ensures |SentOutcomes(trace)| == |trace|
    ensures forall k :: 0 <= k < |trace| ==> trace[k].Sent? && SentOutcomes(trace)[k] == trace[k].outcome
  {
    if trace != [] {
      var init := trace[..|trace| - 1];
      IterationsSendEveryTime(start, prompt, model, init);
      assert forall k :: 0 <= k < |init| ==> trace[k] == init[k];
    }
  }

  /** The waits between iterations follow the backoff schedule. */
  lemma {:induction false} IterationsBackOff(start: Client, prompt: string, model: string,
                                             trace: seq<Step<Request>>)
    requires Valid(start) && Iterations(start, prompt, model, trace)
    ensures BacksOff(trace)
  {
    if trace != [] {
      var init := trace[..|trace| - 1];
      IterationsBackOff(start, prompt, model, init);
      assert forall k :: 0 <= k < |init| ==> trace[k] == init[k];
    }
  }

  /** Every request is charged once: a rejected one to its key's error counter, the
      accepted one to its request counter. */
  predicate Accounted(before: Client, after: Client, trace: seq<Step<Request>>)
    requires Valid(before) && Valid(after) && |after.keys| == |before.keys|
  {
    && (forall j :: 0 <= j < |before.keys| ==> after.errorCounts[j] == before.errorCounts[j] + ErrorsAt(trace, j))
    && (forall j :: 0 <= j < |before.keys| ==> after.requestCounts[j] == before.requestCounts[j] + SuccessesAt(trace, j))
  }

  lemma AccountStep(before: Client, cur: Client, next: Client, trace: seq<Step<Request>>, s: Step<Request>)
    requires Valid(before) && Valid(cur) && Valid(next)
    requires |cur.keys| == |before.keys| == |next.keys| && s.Sent? && s.keyIndex < |before.keys|
    requires Accounted(before, cur, trace)
    requires s.verdict != Accepted ==>
      next.errorCounts == Bump(cur.errorCounts, s.keyIndex) && next.requestCounts == cur.requestCounts
    requires s.verdict == Accepted ==>
      next.errorCounts == cur.errorCounts && next.requestCounts == Bump(cur.requestCounts, s.keyIndex)
    ensures Accounted(before, next, trace + [s])
  {
    AppendStep(trace, s);
  }

  predicate AllRotated(trace: seq<Step<Request>>) {
    forall k :: 0 <= k < |trace| ==> Rotated(trace[k])
  }

  /** What `call(prompt, model)` promises about the client `c'` it leaves, the `result`
      and the `trace` of its iterations, given the client `c` and the transport's
      `outcomes`. */
  predicate CallSpec(c: Client, prompt: string, model: string, outcomes: seq<Outcome>,
                     c': Client, result: CallResult, trace: seq<Step<Request>>)
    requires Valid(c)
  {
    var n := |c.keys|;
    && Valid(c')
    && c'.keys == c.keys
    // at most one pass over the pool, each iteration as StepOK describes
    && |trace| <= n
    && Iterations(c, prompt, model, trace)
    // one outcome consumed per iteration, in order
    && |trace| <= |outcomes|
    && SentOutcomes(trace) == outcomes[..|trace|]
    && TotalDelay(trace) <= CapDelayMs * |trace|
    // every iteration but the last rotated; the call returns exactly when the last was accepted
    && (result.Returned? <==> |trace| > 0 && !Rotated(trace[|trace| - 1]))
    && AllRotated(if result.Returned? then trace[..|trace| - 1] else trace)
    && (result.Returned? ==> trace[|trace| - 1].outcome == Responded(result.response))
    && (result.AllKeysExhausted? ==> |trace| == n && result.attempts == n && result.keyCount == n)
    && c'.currentIndex == RotateTimes(c.currentIndex, n, if result.Returned? then |trace| - 1 else |trace|)
    && Accounted(c, c', trace)
    && c'.totalRequests == c.totalRequests + (if result.Returned? then 1 else 0)
  }

  /** The loop invariant of `call`. */
  predicate Progress(c: Client, prompt: string, model: string, outcomes: seq<Outcome>,
                     cur: Client, trace: seq<Step<Request>>)
    requires Valid(c)
  {
    && Valid(cur)
    && cur.keys == c.keys
    && |trace| <= |c.keys| <= |outcomes|
    && cur.currentIndex == RotateTimes(c.currentIndex, |c.keys|, |trace|)
    && Iterations(c, prompt, model, trace)
    && AllRotated(trace)
    && SentOutcomes(trace) == outcomes[..|trace|]
    && Accounted(c, cur, trace)
    && cur.totalRequests == c.totalRequests
  }

  lemma ProgressStart(c: Client, prompt: string, model: string, outcomes: seq<Outcome>)
    requires Valid(c) && |outcomes| >= |c.keys|
    ensures Progress(c, prompt, model, outcomes, c, [])
  {
  }

  /** A rejected request: charge the key, rotate, spend one attempt, back off. */
  lemma ProgressReject(c: Client, prompt: string, model: string, outcomes: seq<Outcome>,
                       cur: Client, trace: seq<Step<Request>>)
    requires Valid(c) && Progress(c, prompt, model, outcomes, cur, trace)
    requires |trace| < |c.keys| && Classify(outcomes[|trace|]) != Accepted
    ensures
      var i := cur.currentIndex;
      var o := outcomes[|trace|];
      var s := Sent(i, MakeRequest(cur.keys[i], prompt, model), o, Classify(o), Backoff(|trace| + 1));
      Progress(c, prompt, model, outcomes,
               cur.(errorCounts := Bump(cur.errorCounts, i), currentIndex := Rotate(i, |c.keys|)),
               trace + [s])
  {
    var i := cur.currentIndex;
    var o := outcomes[|trace|];
    var s := Sent(i, MakeRequest(cur.keys[i], prompt, model), o, Classify(o), Backoff(|trace| + 1));
    var next := cur.(errorCounts := Bump(cur.errorCounts, i), currentIndex := Rotate(i, |c.keys|));
    AppendStep(trace, s);
    IterationsAppend(c, prompt, model, trace, s);
    AccountStep(c, cur, next, trace, s);
    assert outcomes[..|trace| + 1] == outcomes[..|trace|] + [o];
  }

  /** An accepted request ends the call with everything `CallSpec` promises. */
  lemma FinishAccepted(c: Client, prompt: string, model: string, outcomes: seq<Outcome>,
                       cur: Client, trace: seq<Step<Request>>)
    requires Valid(c) && Progress(c, prompt, model, outcomes, cur, trace)
    requires |trace| < |c.keys| && Classify(outcomes[|trace|]) == Accepted
    ensures
      var i := cur.currentIndex;
      var o := outcomes[|trace|];
      var s := Sent(i, MakeRequest(cur.keys[i], prompt, model), o, Accepted, 0);
      CallSpec(c, prompt, model, outcomes,
               cur.(requestCounts := Bump(cur.requestCounts, i), totalRequests := cur.totalRequests + 1),
               Returned(o.reply), trace + [s])
  {
    var i := cur.currentIndex;
    var o := outcomes[|trace|];
    var s := Sent(i, MakeRequest(cur.keys[i], prompt, model), o, Accepted, 0);
    var next := cur.(requestCounts := Bump(cur.requestCounts, i), totalRequests := cur.totalRequests + 1);
    AppendStep(trace, s);
    IterationsAppend(c, prompt, model, trace, s);
    AccountStep(c, cur, next, trace, s);
    assert outcomes[..|trace| + 1] == outcomes[..|trace|] + [o];
    IterationsBackOff(c, prompt, model, trace + [s]);
    TotalDelayBound(trace + [s]);
  }

  /** A full pass without success ends the call with everything `CallSpec` promises. */
  lemma FinishExhausted(c: Client, prompt: string, model: string, outcomes: seq<Outcome>,
                        cur: Client, trace: seq<Step<Request>>)
    requires Valid(c) && Progress(c, prompt, model, outcomes, cur, trace)
    requires |trace| == |c.keys|
    ensures CallSpec(c, prompt, model, outcomes, cur, AllKeysExhausted(|c.keys|, |trace|), trace)
  {
    IterationsBackOff(c, prompt, model, trace);
    TotalDelayBound(trace);
  }

  /** `call(prompt, model)` against a transport that answers its requests, in order,
      with `outcomes`. */
  method Call(c: Client, prompt: string, model: string, outcomes: seq<Outcome>)
    returns (c': Client, result: CallResult, trace: seq<Step<Request>>)
    requires Valid(c)
    requires |outcomes| >= |c.keys|
    ensures CallSpec(c, prompt, model, outcomes, c', result, trace)
  {
    var cur := c;
    var n := |c.keys|;
    var attempts: nat := 0;
    trace := [];
    ProgressStart(c, prompt, model, outcomes);
    while attempts < n
      invariant attempts == |trace|
      invariant Progress(c, prompt, model, outcomes, cur, trace)
    {
      var i := cur.currentIndex;
      var request := MakeRequest(cur.keys[i], prompt, model);
      var outcome := outcomes[attempts];
      var verdict := Classify(outcome);
      if verdict == Accepted {
        FinishAccepted(c, prompt, model, outcomes, cur, trace);
        trace := trace + [Sent(i, request, outcome, verdict, 0)];
        cur := cur.(requestCounts := Bump(cur.requestCounts, i), totalRequests := cur.totalRequests + 1);
        return cur, Returned(outcome.reply), trace;
      }
      ProgressReject(c, prompt, model, outcomes, cur, trace);
      attempts := attempts + 1;
      trace := trace + [Sent(i, request, outcome, verdict, Backoff(attempts))];
      cur := cur.(errorCounts := Bump(cur.errorCounts, i), currentIndex := Rotate(i, n));
    }
    FinishExhausted(c, prompt, model, outcomes, cur, trace);
    c' := cur;
    result := AllKeysExhausted(n, attempts);
  }

  /** A call that raised has tried every key of the pool, each with a request that failed,
      and has left the index where it started. */
  lemma ExhaustedTriedEveryKey(c: Client, prompt: string, model: string, outcomes: seq<Outcome>,
                               c': Client, result: CallResult, trace: seq<Step<Request>>, j: nat)
    requires Valid(c) && CallSpec(c, prompt, model, outcomes, c', result, trace)
    requires result.AllKeysExhausted? && j < |c.keys|
    ensures exists k :: 0 <= k < |trace| && trace[k].keyIndex == j && trace[k].Sent? && Rotated(trace[k])
    ensures c'.currentIndex == c.currentIndex
  {
    IterationsRoundRobin(c, prompt, model, trace);
    IterationsSendEveryTime(c, prompt, model, trace);
    RoundRobinCoversAll(trace, c.currentIndex, |c.keys|, j);
    FullCycle(c.currentIndex, |c.keys|);
  }

  /** The dictionary `get_stats` returns. */
  datatype Stats = Stats(
    currentKey: nat,
    totalKeys: nat,
    requestCounts: seq<nat>,
    errorCounts: seq<nat>,
    totalRequests: nat,
    totalErrors: nat,
    successRate: SuccessRate)

  /** `get_stats()`. */
  function GetStats(c: Client): (st: Stats)
    requires Valid(c)
    ensures st.totalKeys == |c.keys| && st.currentKey == c.currentIndex + 1 && 1 <= st.currentKey <= st.totalKeys
    ensures st.requestCounts == c.requestCounts && st.errorCounts == c.errorCounts
    ensures st.totalRequests == c.totalRequests && st.totalErrors == Sum(c.errorCounts)
    ensures st.successRate.NotApplicable? <==> c.totalRequests == 0
    ensures st.successRate.Percent? ==> st.successRate.value <= 100.0
    ensures st.successRate.Percent? ==> (st.successRate.value == 100.0 <==> st.totalErrors == 0)
    ensures st.successRate.Percent? ==> (st.successRate.value < 0.0 <==> st.totalErrors > st.totalRequests)
  {
    var total := Sum(c.requestCounts);
    var errors := Sum(c.errorCounts);
    Stats(c.currentIndex + 1, |c.keys|, c.requestCounts, c.errorCounts, total, errors,
          SuccessRateAsWritten(total, errors))
  }

  /** `create_from_env()`: the keys the environment supplies, or a `ValueError`. */
  function CreateFromEnv(env: Env): (r: Result<Client, ConfigError>)
    ensures r.Failure? <==> NumberedKeys(env) == [] && !Truthy(Lookup(env, SingleKeySlot))
    ensures r.Failure? ==> r.error == NoKeysInEnvironment
    ensures r.Success? ==> Valid(r.value) && r.value.currentIndex == 0 && r.value.totalRequests == 0
    ensures r.Success? && NumberedKeys(env) != [] ==> r.value.keys == NumberedKeys(env)
    ensures r.Success? && NumberedKeys(env) == [] ==> r.value.keys == [Lookup(env, SingleKeySlot).value]
  {
    match EnvKeys(env)
    case Failure(e) => Failure(e)
    case Success(keys) =>
      FilterKeysKeepsTruthy(keys);
      New(AsRaw(keys))
  }
}
