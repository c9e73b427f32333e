/** The JavaScript multi-key client `QuotaAwareAPI`: a pool of API keys used round-robin,
    per-key request and error counters, per-key "quota exhausted" flags cleared together
    once a reset interval has passed, and a bounded retry loop over the pool. */
module QuotaMonitor {
  import opened Wrappers
  import opened Strings
  import opened KeyPool

  /** A reading of `Date.now()`: milliseconds since 1970, always positive. Because of
      that, a stored timestamp is truthy exactly when it is present. */
  type Epoch = t: int | t > 0 witness 1

  /** The constructor's `options`; an absent or zero value falls back to the default. */
  datatype Options = Options(resetInterval: Option<int>, maxRetries: Option<int>)

  const DefaultResetIntervalMs: int := 60000

  /** The header that carries the key. */
  const KeyHeader: string := "x-goog-api-key"

  /** The caller's fetch options: HTTP method (`verb`), headers and body pass through to the transport. */
  datatype RequestOptions = RequestOptions(verb: string, headers: map<string, string>, body: Option<string>)

  /** A `fetch(endpoint, init)` call: the URL and the options it is made with. */
  datatype FetchRequest = FetchRequest(endpoint: string, init: RequestOptions)

  datatype Client = Client(
    keys: seq<string>,
    currentIndex: nat,
    requestCounts: seq<nat>,
    errorCounts: seq<nat>,
    quotaExhaustedAt: seq<Option<Epoch>>,
    lastReset: Epoch,
    resetInterval: int,
    maxRetries: int,
    totalRequestCount: nat)

  /** The invariant every operation keeps: a non-empty pool, the index in range, one
      counter and one flag per key, the running total equal to the per-key sum. */
  predicate Valid(c: Client) {
    && |c.keys| >= 1
    && (forall i :: 0 <= i < |c.keys| ==> c.keys[i] != "")
    && c.currentIndex < |c.keys|
    && |c.requestCounts| == |c.keys|
    && |c.errorCounts| == |c.keys|
    && |c.quotaExhaustedAt| == |c.keys|
    && c.totalRequestCount == Sum(c.requestCounts)
    && c.resetInterval != 0
    && c.maxRetries != 0
  }

  /** The state right after construction or `resetStats` at time `now`. */
  predicate Pristine(c: Client, now: Epoch) {
    && c.currentIndex == 0
    && c.requestCounts == Zeros(|c.keys|)
    && c.errorCounts == Zeros(|c.keys|)
    && |c.quotaExhaustedAt| == |c.keys|
    && (forall i :: 0 <= i < |c.quotaExhaustedAt| ==> c.quotaExhaustedAt[i].None?)
    && c.lastReset == now
    && c.totalRequestCount == 0
  }

  /** `value || fallback` for a numeric option. */
  function OrElse(value: Option<int>, fallback: int): int {
    if value.Some? && value.value != 0 then value.value else fallback
  }

  /** `new QuotaAwareAPI(keys, options)`. */
  function New(raw: seq<RawKey>, options: Options, now: Epoch): (r: Result<Client, ConfigError>)
    ensures r.Failure? <==> FilterKeys(raw) == []
    ensures r.Failure? ==> r.error == NoKeysConfigured
    ensures r.Success? ==> Valid(r.value) && Pristine(r.value, now) && r.value.keys == FilterKeys(raw)
    ensures r.Success? && options.resetInterval in {None, Some(0)} ==> r.value.resetInterval == DefaultResetIntervalMs
    ensures r.Success? && options.resetInterval !in {None, Some(0)} ==> r.value.resetInterval == options.resetInterval.value
    ensures r.Success? && options.maxRetries in {None, Some(0)} ==> r.value.maxRetries == |r.value.keys|
    ensures r.Success? && options.maxRetries !in {None, Some(0)} ==> r.value.maxRetries == options.maxRetries.value
  {
    var keys := FilterKeys(raw);
    if keys == [] then Failure(NoKeysConfigured)
    else
      SumZeros(|keys|);
      Success(Client(
        keys := keys,
        currentIndex := 0,
        requestCounts := Zeros(|keys|),
        errorCounts := Zeros(|keys|),
        quotaExhaustedAt := seq(|keys|, _ => None),
        lastReset := now,
        resetInterval := OrElse(options.resetInterval, DefaultResetIntervalMs),
        maxRetries := OrElse(options.maxRetries, |keys|),
        totalRequestCount := 0))
  }

  /** `checkQuotaReset`: once `resetInterval` has passed since the last clear, every flag
      is cleared and the clear time moves to `now`; counters and index are untouched. */
  function CheckQuotaReset(c: Client, now: Epoch): (c': Client)
    requires Valid(c)
    ensures Valid(c')
    ensures c'.keys == c.keys && c'.currentIndex == c.currentIndex
    ensures c'.requestCounts == c.requestCounts && c'.errorCounts == c.errorCounts
    ensures c'.totalRequestCount == c.totalRequestCount
    ensures c'.resetInterval == c.resetInterval && c'.maxRetries == c.maxRetries
    ensures now - c.lastReset >= c.resetInterval ==>
      c'.lastReset == now && forall i :: 0 <= i < |c'.quotaExhaustedAt| ==> c'.quotaExhaustedAt[i].None?
    ensures now - c.lastReset < c.resetInterval ==> c' == c
  {
    if now - c.lastReset >= c.resetInterval then
      c.(quotaExhaustedAt := seq(|c.keys|, _ => None), lastReset := now)
    else c
  }

  /** The request `call` hands to `fetch`: the caller's endpoint, and the caller's options
      with the key header set, overwriting a caller value for that header and keeping
      every other header. */
  function Authorize(req: FetchRequest, key: string): (sent: FetchRequest)
    ensures sent.endpoint == req.endpoint
    ensures sent.init.verb == req.init.verb && sent.init.body == req.init.body
    ensures sent.init.headers.Keys == req.init.headers.Keys + {KeyHeader}
    ensures sent.init.headers[KeyHeader] == key
    ensures forall h :: h in req.init.headers && h != KeyHeader ==> sent.init.headers[h] == req.init.headers[h]
  {
    req.(init := req.init.(headers := req.init.headers[KeyHeader := key]))
  }

  /** The JavaScript client's reading of an outcome: 429 flags, 5xx and thrown errors
      rotate, and every other status (400 included) is a success. */
  function Classify(o: Outcome): (v: Verdict)
    ensures v != ClientError
  {
    match o
    case TransportFailure => TransportError
    case Responded(reply) =>
      if reply.status == 429 then QuotaExceeded
      else if reply.status >= 500 then ServerError
      else Accepted
  }

  /** A 4xx other than 429 is handed back to the caller as a success, like a 2xx. */
  lemma ClientErrorsAreReturned(reply: Reply)
    requires 400 <= reply.status < 500 && reply.status != 429
    ensures Classify(Responded(reply)) == Accepted
  {
  }

  /** Only 429, 5xx and thrown errors make the client rotate. */
  lemma RotatesExactlyOnFailures(o: Outcome)
    ensures Classify(o) != Accepted <==>
      o.TransportFailure? || o.reply.status == 429 || o.reply.status >= 500
    ensures Classify(o) == QuotaExceeded <==> o.Responded? && o.reply.status == 429
  {
  }

  /** The number of loop iterations `call` may spend: `maxRetries`, or none when negative. */
  function Budget(c: Client): nat {
    if c.maxRetries > 0 then c.maxRetries else 0
  }

  /** The quota flags after the iterations of `trace`: a 429 stamps its key with `now`. */
  function FlagsAfter(flags: seq<Option<Epoch>>, trace: seq<Step<FetchRequest>>, now: Epoch): (f: seq<Option<Epoch>>)
    ensures |f| == |flags|
  {
    if trace == [] then flags
    else
      var f := FlagsAfter(flags, trace[..|trace| - 1], now);
      var s := trace[|trace| - 1];
      if s.Sent? && s.verdict == QuotaExceeded && s.keyIndex < |f| then f[s.keyIndex := Some(now)] else f
  }

  lemma FlagsAfterAppend(flags: seq<Option<Epoch>>, trace: seq<Step<FetchRequest>>, s: Step<FetchRequest>, now: Epoch)
    ensures FlagsAfter(flags, trace + [s], now) ==
      var f := FlagsAfter(flags, trace, now);
      if s.Sent? && s.verdict == QuotaExceeded && s.keyIndex < |f| then f[s.keyIndex := Some(now)] else f
  {
    assert (trace + [s])[..|trace|] == trace;
  }

  /** What iteration number `|prefix|` of a call starting from `start` does, given the
      iterations in `prefix` before it: it uses the key `|prefix|` rotations on; it skips
      that key, with no request, exactly when the key is flagged at that point; a request
      goes to the caller's endpoint with the caller's options and that key, its verdict
      is the classification of its outcome, and a rejected request is followed by the
      backoff of the new attempt count. */
  predicate StepOK(start: Client, now: Epoch, req: FetchRequest,
                   prefix: seq<Step<FetchRequest>>, s: Step<FetchRequest>)
    requires Valid(start)
  {
    var n := |start.keys|;
    var flags := FlagsAfter(start.quotaExhaustedAt, prefix, now);
    RotateTimesInRange(start.currentIndex, n, |prefix|);
    && s.keyIndex == RotateTimes(start.currentIndex, n, |prefix|)
    && (s.Skipped? <==> flags[s.keyIndex].Some?)
    && (s.Sent? ==>
          && s.request == Authorize(req, start.keys[s.keyIndex])
          && s.verdict == Classify(s.outcome)
          && s.delayMs == (if s.verdict == Accepted then 0 else Backoff(|prefix| + 1)))
  }

  /** Every iteration of `trace` is a `StepOK` after the ones before it. */
  predicate Iterations(start: Client, now: Epoch, req: FetchRequest, trace: seq<Step<FetchRequest>>)
    requires Valid(start)
  {
    trace == [] ||
    (Iterations(start, now, req, trace[..|trace| - 1]) &&
     StepOK(start, now, req, trace[..|trace| - 1], trace[|trace| - 1]))
  }

  lemma IterationsAppend(start: Client, now: Epoch, req: FetchRequest,
                         trace: seq<Step<FetchRequest>>, s: Step<FetchRequest>)
    requires Valid(start)
    ensures Iterations(start, now, req, trace + [s]) <==>
      Iterations(start, now, req, trace) && StepOK(start, now, req, trace, s)
  {
    assert (trace + [s])[..|trace|] == trace;
  }

  /** Iteration `k` of a call is a `StepOK` after the iterations before it. */
  lemma {:induction false} IterationAt(start: Client, now: Epoch, req: FetchRequest,
                                       trace: seq<Step<FetchRequest>>, k: nat)
    requires Valid(start) && Iterations(start, now, req, trace) && k < |trace|
    ensures StepOK(start, now, req, trace[..k], trace[k])
  {
    var init := trace[..|trace| - 1];
    if k < |init| {
      IterationAt(start, now, req, init, k);
      assert init[..k] == trace[..k] && init[k] == trace[k];
    }
  }

  /** Read position by position, the iterations of a call use the keys round-robin from
      the start index. */
  lemma IterationsRoundRobin(start: Client, now: Epoch, req: FetchRequest,
                             trace: seq<Step<FetchRequest>>)
    requires Valid(start) && Iterations(start, now, req, trace)
    ensures RoundRobin(trace, start.currentIndex, |start.keys|)
    ensures forall k :: 0 <= k < |trace| ==> trace[k].keyIndex < |start.keys|
  {
    forall k | 0 <= k < |trace|
      ensures trace[k].keyIndex == RotateTimes(start.currentIndex, |start.keys|, k) < |start.keys|
    {
      IterationAt(start, now, req, trace, k);
      RotateTimesInRange(start.currentIndex, |start.keys|, k);
    }
  }

  /** Iteration `k` skips its key exactly when the earlier iterations left it flagged. */
  lemma {:induction false} IterationsSkip(start: Client, now: Epoch, req: FetchRequest,
                                          trace: seq<Step<FetchRequest>>)
    requires Valid(start) && Iterations(start, now, req, trace)
    ensures forall k :: 0 <= k < |trace| ==>
      trace[k].keyIndex < |start.keys| &&
      (trace[k].Skipped? <==> FlagsAfter(start.quotaExhaustedAt, trace[..k], now)[trace[k].keyIndex].Some?)
  {
    if trace != [] {
      var init := trace[..|trace| - 1];
      IterationsSkip(start, now, req, init);
      RotateTimesInRange(start.currentIndex, |start.keys|, |init|);
      forall k | 0 <= k < |init|
        ensures trace[k] == init[k] && trace[..k] == init[..k]
      {
      }
    }
  }

  /** Every request sent goes to the caller's endpoint with the caller's options and the
      iteration's key, and its verdict is the classification of its outcome. */
  lemma {:induction false} IterationsRequests(start: Client, now: Epoch, req: FetchRequest,
                                              trace: seq<Step<FetchRequest>>)
    requires Valid(start) && Iterations(start, now, req, trace)
    ensures forall k :: 0 <= k < |trace| && trace[k].Sent? ==>
      trace[k].keyIndex < |start.keys| &&
      trace[k].request == Authorize(req, start.keys[trace[k].keyIndex]) &&
      trace[k].request.endpoint == req.endpoint &&
      trace[k].verdict == Classify(trace[k].outcome)
  {
    if trace != [] {
      var init := trace[..|trace| - 1];
      IterationsRequests(start, now, req, init);
      RotateTimesInRange(start.currentIndex, |start.keys|, |init|);
      assert forall k :: 0 <= k < |init| ==> trace[k] == init[k];
    }
  }

  /** The waits between iterations follow the backoff schedule. */
  lemma {:induction false} IterationsBackOff(start: Client, now: Epoch, req: FetchRequest,
                                             trace: seq<Step<FetchRequest>>)
    requires Valid(start) && Iterations(start, now, req, trace)
    ensures BacksOff(trace)
  {
    if trace != [] {
      var init := trace[..|trace| - 1];
      IterationsBackOff(start, now, req, init);
      assert forall k :: 0 <= k < |init| ==> trace[k] == init[k];
    }
  }

  /** Every iteration is charged once: rejected requests to the key's error counter,
      the accepted one to its request counter. */
  predicate Accounted(before: Client, after: Client, trace: seq<Step<FetchRequest>>)
    requires Valid(before) && Valid(after) && |after.keys| == |before.keys|
  {
    && (forall j :: 0 <= j < |before.keys| ==> after.errorCounts[j] == before.errorCounts[j] + ErrorsAt(trace, j))
    && (forall j :: 0 <= j < |before.keys| ==> after.requestCounts[j] == before.requestCounts[j] + SuccessesAt(trace, j))
  }

  /** Charging iteration `s` to the counters of its key keeps the books. */
  lemma AccountStep(before: Client, cur: Client, next: Client, trace: seq<Step<FetchRequest>>, s: Step<FetchRequest>)
    requires Valid(before) && Valid(cur) && Valid(next)
    requires |cur.keys| == |before.keys| == |next.keys| && s.keyIndex < |before.keys|
    requires Accounted(before, cur, trace)
    requires s.Skipped? ==> next.errorCounts == cur.errorCounts && next.requestCounts == cur.requestCounts
    requires s.Sent? && s.verdict != Accepted ==>
      next.errorCounts == Bump(cur.errorCounts, s.keyIndex) && next.requestCounts == cur.requestCounts
    requires s.Sent? && s.verdict == Accepted ==>
      next.errorCounts == cur.errorCounts && next.requestCounts == Bump(cur.requestCounts, s.keyIndex)
    ensures Accounted(before, next, trace + [s])
  {
    AppendStep(trace, s);
  }

  /** Every iteration of `trace` rotated. */
  predicate AllRotated(trace: seq<Step<FetchRequest>>) {
    forall k :: 0 <= k < |trace| ==> Rotated(trace[k])
  }

  /** What `call` promises about the client `c'` it leaves behind, the `result` it ends with
      and the `trace` of its loop iterations, given the client `c`, the clock reading `now`,
      the caller's endpoint and options `req`, and the transport's `outcomes`. */
  predicate CallSpec(c: Client, now: Epoch, req: FetchRequest, outcomes: seq<Outcome>,
                     c': Client, result: CallResult, trace: seq<Step<FetchRequest>>)
    requires Valid(c)
  {
    var start := CheckQuotaReset(c, now);
    var n := |c.keys|;
    && Valid(c')
    && c'.keys == c.keys && c'.resetInterval == c.resetInterval && c'.maxRetries == c.maxRetries
    && c'.lastReset == start.lastReset
    // at most maxRetries iterations, each one as StepOK describes
    && |trace| <= Budget(c)
    && Iterations(start, now, req, trace)
    // the transport's answers are consumed in order, one per request sent
    && |SentOutcomes(trace)| <= |outcomes|
    && SentOutcomes(trace) == outcomes[..|SentOutcomes(trace)|]
    && TotalDelay(trace) <= CapDelayMs * |trace|
    // every iteration but the last rotated; the call returns exactly when the last was accepted
    && (result.Returned? <==> |trace| > 0 && !Rotated(trace[|trace| - 1]))
    && AllRotated(if result.Returned? then trace[..|trace| - 1] else trace)
    && (result.Returned? ==> trace[|trace| - 1].outcome == Responded(result.response))
    && (result.AllKeysExhausted? ==>
          |trace| == Budget(c) && result.attempts == Budget(c) && result.keyCount == n)
    // the index moved once per rotated iteration, and stayed on the key that succeeded
    && c'.currentIndex == RotateTimes(c.currentIndex, n, if result.Returned? then |trace| - 1 else |trace|)
    // every iteration is accounted for exactly once
    && Accounted(c, c', trace)
    && c'.totalRequestCount == c.totalRequestCount + (if result.Returned? then 1 else 0)
    && c'.quotaExhaustedAt == FlagsAfter(start.quotaExhaustedAt, trace, now)
  }

  /** The loop invariant of `call`: what the iterations in `trace`, all of which rotated,
      have done to `cur`, with `used` outcomes consumed. */
  predicate Progress(c: Client, now: Epoch, req: FetchRequest, outcomes: seq<Outcome>,
                     cur: Client, trace: seq<Step<FetchRequest>>, used: nat)
    requires Valid(c)
  {
    var start := CheckQuotaReset(c, now);
    && Valid(cur)
    && cur.keys == c.keys && cur.resetInterval == c.resetInterval && cur.maxRetries == c.maxRetries
    && cur.lastReset == start.lastReset
    && |trace| <= Budget(c) <= |outcomes|
    && cur.currentIndex == RotateTimes(c.currentIndex, |c.keys|, |trace|)
    && Iterations(start, now, req, trace)
    && AllRotated(trace)
    && used == |SentOutcomes(trace)|
    && SentOutcomes(trace) == outcomes[..used]
    && Accounted(c, cur, trace)
    && cur.totalRequestCount == c.totalRequestCount
    && cur.quotaExhaustedAt == FlagsAfter(start.quotaExhaustedAt, trace, now)
  }

  /** A loop iteration keeps the client well formed: it changes only the index, the
      counters and the flags, each within its bounds. */
  lemma ValidStep(cur: Client, next: Client)
    requires Valid(cur)
    requires next.keys == cur.keys && next.resetInterval == cur.resetInterval && next.maxRetries == cur.maxRetries
    requires next.currentIndex < |cur.keys|
    requires |next.requestCounts| == |next.errorCounts| == |next.quotaExhaustedAt| == |cur.keys|
    requires next.totalRequestCount == Sum(next.requestCounts)
    ensures Valid(next)
  {
  }

  lemma ProgressStart(c: Client, now: Epoch, req: FetchRequest, outcomes: seq<Outcome>)
    requires Valid(c) && |outcomes| >= Budget(c)
    ensures Progress(c, now, req, outcomes, CheckQuotaReset(c, now), [], 0)
  {
  }

  /** The iteration on the current key when it is unflagged: a request to the caller's
      endpoint with the caller's options and the key, its outcome and verdict, and the
      backoff of the new attempt count unless the request was accepted. */
  function SentStep(cur: Client, req: FetchRequest, outcome: Outcome, attempt: nat): Step<FetchRequest>
    requires Valid(cur) && attempt >= 1
  {
    var i := cur.currentIndex;
    var verdict := Classify(outcome);
    Sent(i, Authorize(req, cur.keys[i]), outcome, verdict, if verdict == Accepted then 0 else Backoff(attempt))
  }

  /** The client after skipping its flagged current key. */
  function AfterSkip(cur: Client): Client
    requires Valid(cur)
  {
    cur.(currentIndex := Rotate(cur.currentIndex, |cur.keys|))
  }

  /** The client after a rejected request: the key charged an error, flagged with `now`
      on a 429, and the index rotated. */
  function AfterReject(cur: Client, now: Epoch, verdict: Verdict): Client
    requires Valid(cur)
  {
    var i := cur.currentIndex;
    var flags := if verdict == QuotaExceeded then cur.quotaExhaustedAt[i := Some(now)] else cur.quotaExhaustedAt;
    cur.(errorCounts := Bump(cur.errorCounts, i), currentIndex := Rotate(i, |cur.keys|), quotaExhaustedAt := flags)
  }

  /** The client after an accepted request: the key counts one more request. */
  function AfterAccept(cur: Client): Client
    requires Valid(cur)
  {
    cur.(requestCounts := Bump(cur.requestCounts, cur.currentIndex), totalRequestCount := cur.totalRequestCount + 1)
  }

  /** A flagged key: skip it, rotate, and spend one attempt. */
  lemma ProgressSkip(c: Client, now: Epoch, req: FetchRequest, outcomes: seq<Outcome>,
                     cur: Client, trace: seq<Step<FetchRequest>>, used: nat)
    requires Valid(c) && Progress(c, now, req, outcomes, cur, trace, used)
    requires |trace| < Budget(c) && cur.quotaExhaustedAt[cur.currentIndex].Some?
    ensures Progress(c, now, req, outcomes, AfterSkip(cur), trace + [Skipped(cur.currentIndex)], used)
  {
    var s: Step<FetchRequest> := Skipped(cur.currentIndex);
    var start := CheckQuotaReset(c, now);
    var next := AfterSkip(cur);
    AppendStep(trace, s);
    FlagsAfterAppend(start.quotaExhaustedAt, trace, s, now);
    IterationsAppend(start, now, req, trace, s);
    AccountStep(c, cur, next, trace, s);
  }

  /** A rejected request: charge the key, flag it on a 429, rotate, spend one attempt and
      back off with the new attempt count. */
  lemma ProgressReject(c: Client, now: Epoch, req: FetchRequest, outcomes: seq<Outcome>,
                       cur: Client, trace: seq<Step<FetchRequest>>, used: nat)
    requires Valid(c) && Progress(c, now, req, outcomes, cur, trace, used)
    requires |trace| < Budget(c) && cur.quotaExhaustedAt[cur.currentIndex].None?
    requires used < |outcomes| && Classify(outcomes[used]) != Accepted
    ensures Progress(c, now, req, outcomes, AfterReject(cur, now, Classify(outcomes[used])),
                     trace + [SentStep(cur, req, outcomes[used], |trace| + 1)], used + 1)
  {
    var s := SentStep(cur, req, outcomes[used], |trace| + 1);
    var next := AfterReject(cur, now, Classify(outcomes[used]));
    ValidStep(cur, next);
    RejectedStep(c, now, req, outcomes, cur, trace, used);
    AccountStep(c, cur, next, trace, s);
  }

  /** The trace facts of a rejected request appended to a run that has rotated so far. */
  lemma RejectedStep(c: Client, now: Epoch, req: FetchRequest, outcomes: seq<Outcome>,
                     cur: Client, trace: seq<Step<FetchRequest>>, used: nat)
    requires Valid(c) && Progress(c, now, req, outcomes, cur, trace, used)
    requires |trace| < Budget(c) && cur.quotaExhaustedAt[cur.currentIndex].None?
    requires used < |outcomes| && Classify(outcomes[used]) != Accepted
    ensures
      var s := SentStep(cur, req, outcomes[used], |trace| + 1);
      var start := CheckQuotaReset(c, now);
      && Iterations(start, now, req, trace + [s])
      && AllRotated(trace + [s])
      && |SentOutcomes(trace + [s])| == used + 1
      && SentOutcomes(trace + [s]) == outcomes[..used + 1]
      && FlagsAfter(start.quotaExhaustedAt, trace + [s], now) == AfterReject(cur, now, Classify(outcomes[used])).quotaExhaustedAt
  {
    var s := SentStep(cur, req, outcomes[used], |trace| + 1);
    var start := CheckQuotaReset(c, now);
    assert StepOK(start, now, req, trace, s);
    IterationsAppend(start, now, req, trace, s);
    FlagsAfterAppend(start.quotaExhaustedAt, trace, s, now);
    OutcomesAppended(outcomes, trace, used, s);
  }

  /** Appending a request that meets the next outcome keeps the outcomes consumed a prefix. */
  lemma OutcomesAppended(outcomes: seq<Outcome>, trace: seq<Step<FetchRequest>>, used: nat, s: Step<FetchRequest>)
    requires used == |SentOutcomes(trace)| < |outcomes| && SentOutcomes(trace) == outcomes[..used]
    requires s.Sent? && s.outcome == outcomes[used]
    ensures |SentOutcomes(trace + [s])| == used + 1 && SentOutcomes(trace + [s]) == outcomes[..used + 1]
  {
    AppendStep(trace, s);
    assert outcomes[..used + 1] == outcomes[..used] + [outcomes[used]];
  }

  /** An accepted request ends the call with everything `CallSpec` promises. */
  lemma FinishAccepted(c: Client, now: Epoch, req: FetchRequest, outcomes: seq<Outcome>,
                       cur: Client, trace: seq<Step<FetchRequest>>, used: nat)
    requires Valid(c) && Progress(c, now, req, outcomes, cur, trace, used)
    requires |trace| < Budget(c) && cur.quotaExhaustedAt[cur.currentIndex].None?
    requires used < |outcomes| && Classify(outcomes[used]) == Accepted
    ensures CallSpec(c, now, req, outcomes, AfterAccept(cur), Returned(outcomes[used].reply),
                     trace + [SentStep(cur, req, outcomes[used], |trace| + 1)])
  {
    var s := SentStep(cur, req, outcomes[used], |trace| + 1);
    var next := AfterAccept(cur);
    AcceptedStep(c, now, req, outcomes, cur, trace, used);
    ValidStep(cur, next);
    AccountStep(c, cur, next, trace, s);
  }

  /** The trace facts of an accepted request appended to a run that has rotated so far. */
  lemma AcceptedStep(c: Client, now: Epoch, req: FetchRequest, outcomes: seq<Outcome>,
                     cur: Client, trace: seq<Step<FetchRequest>>, used: nat)
    requires Valid(c) && Progress(c, now, req, outcomes, cur, trace, used)
    requires |trace| < Budget(c) && cur.quotaExhaustedAt[cur.currentIndex].None?
    requires used < |outcomes| && Classify(outcomes[used]) == Accepted
    ensures
      var s := SentStep(cur, req, outcomes[used], |trace| + 1);
      var start := CheckQuotaReset(c, now);
      && (trace + [s])[..|trace|] == trace
      && Iterations(start, now, req, trace + [s])
      && |SentOutcomes(trace + [s])| == used + 1
      && SentOutcomes(trace + [s]) == outcomes[..used + 1]
      && TotalDelay(trace + [s]) <= CapDelayMs * (|trace| + 1)
      && FlagsAfter(start.quotaExhaustedAt, trace + [s], now) == cur.quotaExhaustedAt
  {
    var s := SentStep(cur, req, outcomes[used], |trace| + 1);
    var start := CheckQuotaReset(c, now);
    assert StepOK(start, now, req, trace, s);
    IterationsAppend(start, now, req, trace, s);
    FlagsAfterAppend(start.quotaExhaustedAt, trace, s, now);
    OutcomesAppended(outcomes, trace, used, s);
    assert (trace + [s])[..|trace|] == trace;
    IterationsBackOff(start, now, req, trace + [s]);
    TotalDelayBound(trace + [s]);
  }

  /** A used-up budget ends the call with everything `CallSpec` promises. */
  lemma FinishExhausted(c: Client, now: Epoch, req: FetchRequest, outcomes: seq<Outcome>,
                        cur: Client, trace: seq<Step<FetchRequest>>, used: nat)
    requires Valid(c) && Progress(c, now, req, outcomes, cur, trace, used)
    requires |trace| == Budget(c)
    ensures CallSpec(c, now, req, outcomes, cur, AllKeysExhausted(|c.keys|, |trace|), trace)
  {
    IterationsBackOff(CheckQuotaReset(c, now), now, req, trace);
    TotalDelayBound(trace);
  }

  /** `call(endpoint, options)` against a transport that answers the requests it is sent,
      in order, with `outcomes`; `now` is the clock. */
  method Call(c: Client, now: Epoch, endpoint: string, options: RequestOptions, outcomes: seq<Outcome>)
    returns (c': Client, result: CallResult, trace: seq<Step<FetchRequest>>)
    requires Valid(c)
    requires |outcomes| >= Budget(c)
    ensures CallSpec(c, now, FetchRequest(endpoint, options), outcomes, c', result, trace)
  {
    var req := FetchRequest(endpoint, options);
    var cur := CheckQuotaReset(c, now);
    var n := |c.keys|;
    var attempts: nat := 0;
    var used: nat := 0;
    trace := [];
    ProgressStart(c, now, req, outcomes);
    while attempts < c.maxRetries
      invariant attempts == |trace|
      invariant Progress(c, now, req, outcomes, cur, trace, used)
    {
      var i := cur.currentIndex;
      if cur.quotaExhaustedAt[i].Some? {
        ProgressSkip(c, now, req, outcomes, cur, trace, used);
        trace := trace + [Skipped(i)];
        cur := AfterSkip(cur);
      } else {
        var outcome := outcomes[used];
        var step := SentStep(cur, req, outcome, attempts + 1);
        if step.verdict == Accepted {
          FinishAccepted(c, now, req, outcomes, cur, trace, used);
          return AfterAccept(cur), Returned(outcome.reply), trace + [step];
        }
        ProgressReject(c, now, req, outcomes, cur, trace, used);
        trace := trace + [step];
        cur := AfterReject(cur, now, step.verdict);
        used := used + 1;
      }
      attempts := attempts + 1;
    }
    FinishExhausted(c, now, req, outcomes, cur, trace, used);
    c' := cur;
    result := AllKeysExhausted(n, attempts);
  }

  /** Every key is tried when the budget covers the pool and the call still ran out of
      attempts: the rotation visits each index within the first `|keys|` iterations. */
  lemma ExhaustedTriedEveryKey(c: Client, now: Epoch, req: FetchRequest, outcomes: seq<Outcome>,
                               c': Client, result: CallResult, trace: seq<Step<FetchRequest>>, j: nat)
    requires Valid(c) && CallSpec(c, now, req, outcomes, c', result, trace)
    requires result.AllKeysExhausted? && Budget(c) >= |c.keys| && j < |c.keys|
    ensures exists k :: 0 <= k < |c.keys| && trace[k].keyIndex == j
  {
    var start := CheckQuotaReset(c, now);
    IterationsRoundRobin(start, now, req, trace);
    RoundRobinCoversAll(trace, start.currentIndex, |c.keys|, j);
  }

  /** A request sent at iteration `k` meets the next outcome the transport has not yet
      delivered: the one after those the earlier requests consumed. */
  lemma CallConsumesInOrder(c: Client, now: Epoch, req: FetchRequest, outcomes: seq<Outcome>,
                            c': Client, result: CallResult, trace: seq<Step<FetchRequest>>, k: nat)
    requires Valid(c) && CallSpec(c, now, req, outcomes, c', result, trace)
    requires k < |trace| && trace[k].Sent?
    ensures |SentOutcomes(trace[..k])| < |outcomes|
    ensures trace[k].outcome == outcomes[|SentOutcomes(trace[..k])|]
    ensures trace[k].verdict == Classify(trace[k].outcome)
  {
    ConsumedInOrder(CheckQuotaReset(c, now), now, req, outcomes, trace, k);
  }

  /** `CallConsumesInOrder` for any run of iterations that consumed a prefix of `outcomes`. */
  lemma ConsumedInOrder(start: Client, now: Epoch, req: FetchRequest, outcomes: seq<Outcome>,
                        trace: seq<Step<FetchRequest>>, k: nat)
    requires Valid(start) && Iterations(start, now, req, trace)
    requires |SentOutcomes(trace)| <= |outcomes| && SentOutcomes(trace) == outcomes[..|SentOutcomes(trace)|]
    requires k < |trace| && trace[k].Sent?
    ensures |SentOutcomes(trace[..k])| < |outcomes|
    ensures trace[k].outcome == outcomes[|SentOutcomes(trace[..k])|]
    ensures trace[k].verdict == Classify(trace[k].outcome)
  {
    var before := SentOutcomes(trace[..k]);
    SentOutcomesPrefix(trace, k + 1);
    AppendStep(trace[..k], trace[k]);
    assert trace[..k] + [trace[k]] == trace[..k + 1];
    NextOfPrefix(before, trace[k].outcome, SentOutcomes(trace), outcomes);
    IterationAt(start, now, req, trace, k);
  }

  /** If `a + [x]` starts `b` and `b` starts `c`, then `x` is the element of `c` after `a`. */
  lemma NextOfPrefix<T>(a: seq<T>, x: T, b: seq<T>, c: seq<T>)
    requires a + [x] <= b && |b| <= |c| && b == c[..|b|]
    ensures |a| < |c| && x == c[|a|]
  {
    assert b[|a|] == (a + [x])[|a|];
  }

  /** An iteration that rotated is followed by another while the budget lasts. */
  lemma CallContinuesAfterRotation(c: Client, now: Epoch, req: FetchRequest, outcomes: seq<Outcome>,
                                   c': Client, result: CallResult, trace: seq<Step<FetchRequest>>, k: nat)
    requires Valid(c) && CallSpec(c, now, req, outcomes, c', result, trace)
    requires k < |trace| && Rotated(trace[k]) && k + 1 < Budget(c)
    ensures k + 1 < |trace|
  {
  }

  /** Every retry of one call goes to the same endpoint, with the caller's method and
      body, and carries the key of the iteration that sent it. `CallSpec` includes the
      `Iterations` this lemma asks for, so it covers every trace `Call` can produce. */
  lemma CallTargetsEndpoint(c: Client, now: Epoch, endpoint: string, options: RequestOptions,
                            trace: seq<Step<FetchRequest>>, k: nat)
    requires Valid(c) && Iterations(CheckQuotaReset(c, now), now, FetchRequest(endpoint, options), trace)
    requires k < |trace| && trace[k].Sent?
    ensures trace[k].request.endpoint == endpoint
    ensures trace[k].request.init.verb == options.verb && trace[k].request.init.body == options.body
    ensures trace[k].keyIndex < |c.keys| && KeyHeader in trace[k].request.init.headers &&
            trace[k].request.init.headers[KeyHeader] == c.keys[trace[k].keyIndex]
  {
    IterationsRequests(CheckQuotaReset(c, now), now, FetchRequest(endpoint, options), trace);
  }

  /** The first iteration uses the current key; it sends on it, with the first outcome,
      unless the key is still flagged after the reset check. */
  lemma CallFirstIteration(c: Client, now: Epoch, req: FetchRequest, outcomes: seq<Outcome>,
                           c': Client, result: CallResult, trace: seq<Step<FetchRequest>>)
    requires Valid(c) && CallSpec(c, now, req, outcomes, c', result, trace)
    requires Budget(c) >= 1
    ensures |trace| >= 1 && trace[0].keyIndex == c.currentIndex
    ensures trace[0].Sent? <==> CheckQuotaReset(c, now).quotaExhaustedAt[c.currentIndex].None?
    ensures trace[0].Sent? ==> |outcomes| > 0 && trace[0].outcome == outcomes[0] && trace[0].verdict == Classify(outcomes[0])
  {
    var start := CheckQuotaReset(c, now);
    IterationsRoundRobin(start, now, req, trace);
    IterationsSkip(start, now, req, trace);
    assert trace[..0] == [];
    if trace[0].Sent? {
      CallConsumesInOrder(c, now, req, outcomes, c', result, trace, 0);
    }
  }

  /** The label `getStats` lists for an exhausted key: `"Key "` and its 1-based number. */
  function KeyLabel(i: nat): string {
    "Key " + NatToString(i + 1)
  }

  /** Distinct keys get distinct labels. */
  lemma KeyLabelInjective(i: nat, j: nat)
    requires KeyLabel(i) == KeyLabel(j)
    ensures i == j
  {
    PrefixCancel("Key ", NatToString(i + 1), NatToString(j + 1));
    ParseNatToString(i + 1);
    ParseNatToString(j + 1);
  }

  /** The number of keys whose flag is clear. */
  function ActiveCount(flags: seq<Option<Epoch>>): (n: nat)
    ensures n <= |flags|
  {
    if flags == [] then 0
    else ActiveCount(flags[..|flags| - 1]) + (if flags[|flags| - 1].None? then 1 else 0)
  }

  /** With every flag clear, every key is active. */
  lemma {:induction false} ActiveCountAllClear(flags: seq<Option<Epoch>>)
    requires forall i :: 0 <= i < |flags| ==> flags[i].None?
    ensures ActiveCount(flags) == |flags|
  {
    if flags != [] {
      var init := flags[..|flags| - 1];
      assert forall i :: 0 <= i < |init| ==> init[i] == flags[i];
      ActiveCountAllClear(init);
    }
  }

  /** The labels of the flagged keys. */
  function ExhaustedLabels(flags: seq<Option<Epoch>>): (labels: seq<string>)
    ensures |labels| + ActiveCount(flags) == |flags|
    ensures forall i :: 0 <= i < |flags| && flags[i].Some? ==> KeyLabel(i) in labels
    ensures forall l :: l in labels ==> exists i :: 0 <= i < |flags| && flags[i].Some? && l == KeyLabel(i)
  {
    if flags == [] then []
    else
      var init := flags[..|flags| - 1];
      var rest := ExhaustedLabels(init);
      assert forall i :: 0 <= i < |init| ==> flags[i] == init[i];
      if flags[|flags| - 1].Some? then rest + [KeyLabel(|flags| - 1)] else rest
  }

  /** A key's label is listed exactly when its flag is set. */
  lemma ExhaustedLabelsExact(flags: seq<Option<Epoch>>, i: nat)
    requires i < |flags|
    ensures KeyLabel(i) in ExhaustedLabels(flags) <==> flags[i].Some?
  {
    if KeyLabel(i) in ExhaustedLabels(flags) {
      var j :| 0 <= j < |flags| && flags[j].Some? && KeyLabel(i) == KeyLabel(j);
      KeyLabelInjective(i, j);
    }
  }

  /** The object `getStats` returns; `uptimeSeconds` is the number before the `'s'`. */
  datatype Stats = Stats(
    currentKey: nat,
    totalKeys: nat,
    activeKeys: nat,
    requestCounts: seq<nat>,
    errorCounts: seq<nat>,
    totalRequests: nat,
    totalErrors: nat,
    successRate: SuccessRate,
    uptimeSeconds: int,
    quotaExhausted: seq<string>)

  /** `getStats()` at clock reading `now`. */
  function GetStats(c: Client, now: Epoch): (st: Stats)
    requires Valid(c)
    ensures st.totalKeys == |c.keys| && 1 <= st.currentKey <= st.totalKeys
    ensures st.currentKey == c.currentIndex + 1
    ensures st.activeKeys + |st.quotaExhausted| == st.totalKeys
    ensures forall i :: 0 <= i < |c.keys| ==> (KeyLabel(i) in st.quotaExhausted <==> c.quotaExhaustedAt[i].Some?)
    ensures st.requestCounts == c.requestCounts && st.errorCounts == c.errorCounts
    ensures st.totalRequests == c.totalRequestCount && st.totalErrors == Sum(c.errorCounts)
    ensures st.successRate.NotApplicable? <==> c.totalRequestCount == 0
    ensures st.successRate.Percent? ==> st.successRate.value <= 100.0
    ensures st.successRate == SuccessRateAsWritten(st.totalRequests, st.totalErrors)
    ensures st.successRate.Percent? ==> (st.successRate.value < 0.0 <==> st.totalErrors > st.totalRequests)
    ensures st.uptimeSeconds * 1000 <= now - c.lastReset < (st.uptimeSeconds + 1) * 1000
  {
    var labels := ExhaustedLabels(c.quotaExhaustedAt);
    forall i | 0 <= i < |c.keys|
      ensures KeyLabel(i) in labels <==> c.quotaExhaustedAt[i].Some?
    {
      ExhaustedLabelsExact(c.quotaExhaustedAt, i);
    }
    var totalRequests := Sum(c.requestCounts);
    var totalErrors := Sum(c.errorCounts);
    Stats(
      currentKey := c.currentIndex + 1,
      totalKeys := |c.keys|,
      activeKeys := ActiveCount(c.quotaExhaustedAt),
      requestCounts := c.requestCounts,
      errorCounts := c.errorCounts,
      totalRequests := totalRequests,
      totalErrors := totalErrors,
      successRate := SuccessRateAsWritten(totalRequests, totalErrors),
      uptimeSeconds := (now - c.lastReset) / 1000,
      quotaExhausted := labels)
  }

  /** A call adds one to the reported request total exactly when it returns a response. */
  lemma CallCountsOneSuccess(c: Client, now: Epoch, req: FetchRequest, outcomes: seq<Outcome>,
                             c': Client, result: CallResult, trace: seq<Step<FetchRequest>>, later: Epoch)
    requires Valid(c) && CallSpec(c, now, req, outcomes, c', result, trace)
    ensures GetStats(c', later).totalRequests == GetStats(c, now).totalRequests + (if result.Returned? then 1 else 0)
  {
  }

  /** `resetStats()` at clock reading `now`: the pool and its configuration stay, every
      counter, flag and the index return to their initial values. */
  function ResetStats(c: Client, now: Epoch): (c': Client)
    requires Valid(c)
    ensures Valid(c') && Pristine(c', now)
    ensures c'.keys == c.keys && c'.resetInterval == c.resetInterval && c'.maxRetries == c.maxRetries
  {
    SumZeros(|c.keys|);
    c.(requestCounts := Zeros(|c.keys|), errorCounts := Zeros(|c.keys|),
       quotaExhaustedAt := seq(|c.keys|, _ => None), lastReset := now,
       totalRequestCount := 0, currentIndex := 0)
  }

  /** Resetting gives exactly the client the constructor builds from the same keys and
      the same settings. */
  lemma ResetMatchesConstructor(c: Client, now: Epoch)
    requires Valid(c)
    ensures New(AsRaw(c.keys), Options(Some(c.resetInterval), Some(c.maxRetries)), now) == Success(ResetStats(c, now))
  {
    FilterKeysKeepsTruthy(c.keys);
  }

  /** Right after a reset the statistics show a fresh pool: first key current, every key
      active, no requests, no success rate, no time elapsed. */
  lemma StatsAfterReset(c: Client, now: Epoch)
    requires Valid(c)
    ensures
      var st := GetStats(ResetStats(c, now), now);
      st.currentKey == 1 && st.activeKeys == st.totalKeys == |c.keys| && st.quotaExhausted == [] &&
      st.totalRequests == 0 && st.totalErrors == 0 && st.successRate == NotApplicable && st.uptimeSeconds == 0
  {
    var r := ResetStats(c, now);
    SumZeros(|c.keys|);
    ActiveCountAllClear(r.quotaExhaustedAt);
  }

  /** `createFromEnv(options)`: the keys the environment supplies, or an error when it
      supplies none; the client is built from them as the constructor builds it. */
  function CreateFromEnv(env: Env, options: Options, now: Epoch): (r: Result<Client, ConfigError>)
    ensures r.Failure? <==> NumberedKeys(env) == [] && !Truthy(Lookup(env, SingleKeySlot))
    ensures r.Failure? ==> r.error == NoKeysInEnvironment
    ensures r.Success? ==> Valid(r.value) && Pristine(r.value, now)
    ensures r.Success? && NumberedKeys(env) != [] ==> r.value.keys == NumberedKeys(env)
    ensures r.Success? && NumberedKeys(env) == [] ==> r.value.keys == [Lookup(env, SingleKeySlot).value]
    ensures r.Success? ==> New(AsRaw(r.value.keys), options, now) == Success(r.value)
  {
    match EnvKeys(env)
    case Failure(e) => Failure(e)
    case Success(keys) =>
      FilterKeysKeepsTruthy(keys);
      New(AsRaw(keys), options, now)
  }
}
