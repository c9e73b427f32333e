/** Concrete runs of `call` described in the client's documentation, derived from the
    contract of `Call` alone: whatever a call that meets `CallSpec` does on these
    inputs, it does what the documentation says. Also, how the JavaScript and the
    Python clients' readings of an outcome compare. */
module QuotaScenarios {
  import opened Wrappers
  import opened KeyPool
  import opened QuotaMonitor
  import QuotaGemini

  /** The iterations of the call in `FailoverToSecondKey`: a 429 on key 1, then the
      200 on key 2. */
  lemma FailoverTrace(c: Client, now: Epoch, req: FetchRequest, ok: string, spare: Outcome,
                      c': Client, result: CallResult, trace: seq<Step<FetchRequest>>)
    requires Valid(c) && Pristine(c, c.lastReset) && |c.keys| == 3 && c.maxRetries == 3
    requires now - c.lastReset < c.resetInterval
    requires CallSpec(c, now, req, [Responded(Reply(429, "")), Responded(Reply(200, ok)), spare], c', result, trace)
    ensures result == Returned(Reply(200, ok)) && |trace| == 2
    ensures trace[0].Sent? && trace[0].keyIndex == 0 && trace[0].verdict == QuotaExceeded
    ensures trace[1].Sent? && trace[1].keyIndex == 1 && trace[1].verdict == Accepted
  {
    var outcomes := [Responded(Reply(429, "")), Responded(Reply(200, ok)), spare];
    var start := CheckQuotaReset(c, now);
    // the first iteration sends on key 1 and meets the 429
    CallFirstIteration(c, now, req, outcomes, c', result, trace);
    CallContinuesAfterRotation(c, now, req, outcomes, c', result, trace, 0);
    // the second sends on key 2, which the 429 left clear, and meets the 200
    SecondIterationSends(start, now, req, outcomes, trace);
  }

  /** A call from index 0 whose first iteration sent on key 1 sends its second iteration
      on key 2 when key 2 started unflagged, and meets the second outcome there. */
  lemma SecondIterationSends(start: Client, now: Epoch, req: FetchRequest, outcomes: seq<Outcome>,
                             trace: seq<Step<FetchRequest>>)
    requires Valid(start) && |start.keys| >= 2 && start.currentIndex == 0 && start.quotaExhaustedAt[1].None?
    requires Iterations(start, now, req, trace) && |trace| >= 2
    requires |SentOutcomes(trace)| <= |outcomes| && SentOutcomes(trace) == outcomes[..|SentOutcomes(trace)|]
    requires trace[0].Sent? && trace[0].keyIndex == 0
    ensures trace[1].Sent? && trace[1].keyIndex == 1
    ensures |outcomes| >= 2 && trace[1].outcome == outcomes[1] && trace[1].verdict == Classify(outcomes[1])
  {
    IterationAt(start, now, req, trace, 1);
    assert trace[..1] == [trace[0]];
    SecondStep(start, now, req, trace[0], trace[1]);
    assert SentOutcomes([trace[0]]) == [trace[0].outcome] by {
      AppendStep([], trace[0]);
      assert [] + [trace[0]] == [trace[0]];
    }
    ConsumedInOrder(start, now, req, outcomes, trace, 1);
  }

  /** The iteration after one on key 1 uses key 2, and sends when key 2 started unflagged. */
  lemma SecondStep(start: Client, now: Epoch, req: FetchRequest, s0: Step<FetchRequest>, s1: Step<FetchRequest>)
    requires Valid(start) && |start.keys| >= 2 && start.currentIndex == 0 && start.quotaExhaustedAt[1].None?
    requires s0.keyIndex == 0 && StepOK(start, now, req, [s0], s1)
    ensures s1.Sent? && s1.keyIndex == 1
  {
    FlagsAfterAppend(start.quotaExhaustedAt, [], s0, now);
    assert [] + [s0] == [s0];
    assert RotateTimes(0, |start.keys|, 1) == 1;
  }

  /** A fresh three-key client that sees a 429 on the first key and a 200 on the second
      returns the 200 and stays on the second key, with the first key flagged. */
  lemma FailoverToSecondKey(c: Client, now: Epoch, req: FetchRequest, ok: string, spare: Outcome,
                            c': Client, result: CallResult, trace: seq<Step<FetchRequest>>)
    requires Valid(c) && Pristine(c, c.lastReset) && |c.keys| == 3 && c.maxRetries == 3
    requires now - c.lastReset < c.resetInterval
    requires CallSpec(c, now, req, [Responded(Reply(429, "")), Responded(Reply(200, ok)), spare], c', result, trace)
    ensures result == Returned(Reply(200, ok)) && |trace| == 2
    ensures c'.currentIndex == 1
    ensures c'.quotaExhaustedAt == [Some(now), None, None]
  {
    FailoverTrace(c, now, req, ok, spare, c', result, trace);
    var t1 := trace[..1];
    assert t1 == [] + [trace[0]] && trace == t1 + [trace[1]];
    FlagsAfterAppend(c.quotaExhaustedAt, [], trace[0], now);
    FlagsAfterAppend(c.quotaExhaustedAt, t1, trace[1], now);
  }

  /** In `FailoverToSecondKey`, the first key is charged one error and the second
      counts one success. */
  lemma FailoverBooks(c: Client, now: Epoch, req: FetchRequest, ok: string, spare: Outcome,
                      c': Client, result: CallResult, trace: seq<Step<FetchRequest>>)
    requires Valid(c) && Pristine(c, c.lastReset) && |c.keys| == 3 && c.maxRetries == 3
    requires now - c.lastReset < c.resetInterval
    requires CallSpec(c, now, req, [Responded(Reply(429, "")), Responded(Reply(200, ok)), spare], c', result, trace)
    ensures c'.errorCounts == [1, 0, 0] && c'.requestCounts == [0, 1, 0] && c'.totalRequestCount == 1
  {
    FailoverTrace(c, now, req, ok, spare, c', result, trace);
    var t1 := trace[..1];
    assert t1 == [] + [trace[0]] && trace == t1 + [trace[1]];
    AppendStep(t1, trace[1]);
    AppendStep([], trace[0]);
  }

  /** The iterations of the call in `BothKeysExhausted`: a 429 on each key in turn. */
  lemma BothKeysExhaustedTrace(c: Client, now: Epoch, req: FetchRequest,
                               c': Client, result: CallResult, trace: seq<Step<FetchRequest>>)
    requires Valid(c) && Pristine(c, c.lastReset) && |c.keys| == 2 && c.maxRetries == 2
    requires now - c.lastReset < c.resetInterval
    requires CallSpec(c, now, req, [Responded(Reply(429, "")), Responded(Reply(429, ""))], c', result, trace)
    ensures result == AllKeysExhausted(2, 2) && |trace| == 2
    ensures trace[0].Sent? && trace[0].keyIndex == 0 && trace[0].verdict == QuotaExceeded
    ensures trace[1].Sent? && trace[1].keyIndex == 1 && trace[1].verdict == QuotaExceeded
  {
    var outcomes := [Responded(Reply(429, "")), Responded(Reply(429, ""))];
    var start := CheckQuotaReset(c, now);
    CallFirstIteration(c, now, req, outcomes, c', result, trace);
    CallContinuesAfterRotation(c, now, req, outcomes, c', result, trace, 0);
    SecondIterationSends(start, now, req, outcomes, trace);
  }

  /** In `BothKeysExhausted`, the client waits 100 ms after the first 429 and 200 ms
      after the second. */
  lemma BothKeysExhaustedWaits(c: Client, now: Epoch, req: FetchRequest,
                               c': Client, result: CallResult, trace: seq<Step<FetchRequest>>)
    requires Valid(c) && Pristine(c, c.lastReset) && |c.keys| == 2 && c.maxRetries == 2
    requires now - c.lastReset < c.resetInterval
    requires CallSpec(c, now, req, [Responded(Reply(429, "")), Responded(Reply(429, ""))], c', result, trace)
    ensures |trace| == 2 && trace[0].Sent? && trace[1].Sent?
    ensures trace[0].delayMs == 100 && trace[1].delayMs == 200 && TotalDelay(trace) == 300
  {
    BothKeysExhaustedTrace(c, now, req, c', result, trace);
    TwoRejectionsWait(CheckQuotaReset(c, now), now, req, trace);
  }

  /** Two rejected requests in a row are followed by waits of 100 ms and 200 ms. */
  lemma TwoRejectionsWait(start: Client, now: Epoch, req: FetchRequest, trace: seq<Step<FetchRequest>>)
    requires Valid(start) && Iterations(start, now, req, trace) && |trace| == 2
    requires trace[0].Sent? && trace[0].verdict != Accepted && trace[1].Sent? && trace[1].verdict != Accepted
    ensures trace[0].delayMs == 100 && trace[1].delayMs == 200 && TotalDelay(trace) == 300
  {
    IterationAt(start, now, req, trace, 0);
    IterationAt(start, now, req, trace, 1);
    BackoffSchedule(1);
    BackoffSchedule(2);
    var t1 := trace[..1];
    assert t1 == [] + [trace[0]] && trace == t1 + [trace[1]];
    AppendStep(t1, trace[1]);
    AppendStep([], trace[0]);
  }

  /** A fresh two-key client with `maxRetries` 2 whose keys both answer 429 gives up
      after two attempts (waiting as `BothKeysExhaustedWaits` states) with both keys
      flagged and the index back on the first key. */
  lemma BothKeysExhausted(c: Client, now: Epoch, req: FetchRequest,
                          c': Client, result: CallResult, trace: seq<Step<FetchRequest>>)
    requires Valid(c) && Pristine(c, c.lastReset) && |c.keys| == 2 && c.maxRetries == 2
    requires now - c.lastReset < c.resetInterval
    requires CallSpec(c, now, req, [Responded(Reply(429, "")), Responded(Reply(429, ""))], c', result, trace)
    ensures result == AllKeysExhausted(2, 2) && |trace| == 2
    ensures c'.currentIndex == 0
    ensures c'.quotaExhaustedAt == [Some(now), Some(now)]
  {
    BothKeysExhaustedTrace(c, now, req, c', result, trace);
    BothKeysFlagged(c.quotaExhaustedAt, now, trace);
    assert RotateTimes(0, 2, 2) == 0;
  }

  /** In `BothKeysExhausted`, each key is charged one error and nothing counts as a
      success. */
  lemma BothKeysExhaustedBooks(c: Client, now: Epoch, req: FetchRequest,
                               c': Client, result: CallResult, trace: seq<Step<FetchRequest>>)
    requires Valid(c) && Pristine(c, c.lastReset) && |c.keys| == 2 && c.maxRetries == 2
    requires now - c.lastReset < c.resetInterval
    requires CallSpec(c, now, req, [Responded(Reply(429, "")), Responded(Reply(429, ""))], c', result, trace)
    ensures c'.errorCounts == [1, 1] && c'.requestCounts == [0, 0] && c'.totalRequestCount == 0
  {
    BothKeysExhaustedTrace(c, now, req, c', result, trace);
    BothKeysCharged(trace);
  }

  /** Two rejected requests, on keys 1 and 2, charge one error to each and no success. */
  lemma BothKeysCharged(trace: seq<Step<FetchRequest>>)
    requires |trace| == 2
    requires trace[0].Sent? && trace[0].keyIndex == 0 && trace[0].verdict == QuotaExceeded
    requires trace[1].Sent? && trace[1].keyIndex == 1 && trace[1].verdict == QuotaExceeded
    ensures ErrorsAt(trace, 0) == 1 && ErrorsAt(trace, 1) == 1
    ensures SuccessesAt(trace, 0) == 0 && SuccessesAt(trace, 1) == 0
  {
    var t1 := trace[..1];
    assert t1 == [] + [trace[0]] && trace == t1 + [trace[1]];
    AppendStep(t1, trace[1]);
    AppendStep([], trace[0]);
  }

  /** Two 429s, on keys 1 and 2, flag both keys. */
  lemma BothKeysFlagged(flags: seq<Option<Epoch>>, now: Epoch, trace: seq<Step<FetchRequest>>)
    requires |flags| == 2 && |trace| == 2
    requires trace[0].Sent? && trace[0].keyIndex == 0 && trace[0].verdict == QuotaExceeded
    requires trace[1].Sent? && trace[1].keyIndex == 1 && trace[1].verdict == QuotaExceeded
    ensures FlagsAfter(flags, trace, now) == [Some(now), Some(now)]
  {
    var t1 := trace[..1];
    assert t1 == [] + [trace[0]] && trace == t1 + [trace[1]];
    FlagsAfterAppend(flags, [], trace[0], now);
    FlagsAfterAppend(flags, t1, trace[1], now);
  }

  /** A 400 on the first key comes back to the caller as the response, counted as a
      success and charged no error, without rotating. */
  lemma BadRequestReturned(c: Client, now: Epoch, req: FetchRequest, body: string, more: seq<Outcome>,
                           c': Client, result: CallResult, trace: seq<Step<FetchRequest>>)
    requires Valid(c) && Pristine(c, c.lastReset) && now - c.lastReset < c.resetInterval
    requires Budget(c) >= 1
    requires CallSpec(c, now, req, [Responded(Reply(400, body))] + more, c', result, trace)
    ensures result == Returned(Reply(400, body)) && |trace| == 1
    ensures c'.currentIndex == 0 && c'.errorCounts == c.errorCounts
    ensures c'.requestCounts[0] == 1 && c'.totalRequestCount == 1
  {
    var outcomes := [Responded(Reply(400, body))] + more;
    CallFirstIteration(c, now, req, outcomes, c', result, trace);
    assert !Rotated(trace[0]);
    assert |trace| == 1;
    OneAcceptedCharged(trace);
    assert c'.errorCounts == c.errorCounts;
  }

  /** A single accepted request on key 1 counts one success there and charges no error. */
  lemma OneAcceptedCharged(trace: seq<Step<FetchRequest>>)
    requires |trace| == 1 && trace[0].Sent? && trace[0].keyIndex == 0 && trace[0].verdict == Accepted
    ensures forall j :: ErrorsAt(trace, j) == 0
    ensures SuccessesAt(trace, 0) == 1
  {
    assert trace == [] + [trace[0]];
    AppendStep([], trace[0]);
  }

  /** The two clients read an outcome the same way, except for a 4xx other than 429:
      the JavaScript client returns it, the Python client rotates away from it. */
  lemma ClassificationsAgreeExceptClientErrors(o: Outcome)
    ensures QuotaGemini.Classify(o) != QuotaMonitor.Classify(o) <==>
            o.Responded? && 400 <= o.reply.status < 500 && o.reply.status != 429
    ensures QuotaGemini.Classify(o) != QuotaMonitor.Classify(o) ==>
            QuotaMonitor.Classify(o) == Accepted && QuotaGemini.Classify(o) == ClientError
  {
  }
}
