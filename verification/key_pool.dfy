/** The parts of the key-rotation client that the JavaScript `QuotaAwareAPI` and its
    Python port `QuotaAwareGemini` share: filtering the configured keys, round-robin
    rotation, the exponential backoff schedule, the numbered environment slots, the
    transport's outcomes and the per-call trace of attempts with its accounting. */
module KeyPool {
  import opened Wrappers
  import opened Strings

  // ---------------------------------------------------------------------------
  // Keys
  // ---------------------------------------------------------------------------

  /** A key as a caller hands it over: absent (`undefined`, `None`) or a string. */
  type RawKey = Option<string>

  /** JavaScript and Python truthiness of a key: present and not the empty string.
      A string of spaces is truthy. */
  predicate Truthy(k: RawKey) {
    k.Some? && k.value != ""
  }

  /** `keys.filter(k => k)` and `[k for k in keys if k]`: the truthy keys, in order. */
  function FilterKeys(raw: seq<RawKey>): (keys: seq<string>)
    ensures |keys| <= |raw|
    ensures forall i :: 0 <= i < |keys| ==> keys[i] != ""
    ensures forall k :: k in keys <==> k != "" && Some(k) in raw
  {
    if raw == [] then []
    else
      var init := raw[..|raw| - 1];
      assert raw == init + [raw[|raw| - 1]];
      FilterKeys(init) + (if Truthy(raw[|raw| - 1]) then [raw[|raw| - 1].value] else [])
  }

  /** Filtering distributes over concatenation, so the surviving keys keep their order. */
  lemma {:induction false} FilterKeysConcat(a: seq<RawKey>, b: seq<RawKey>)
    ensures FilterKeys(a + b) == FilterKeys(a) + FilterKeys(b)
  {
    if b == [] {
      assert a + b == a;
    } else {
      var b' := b[..|b| - 1];
      assert (a + b)[..|a + b| - 1] == a + b';
      FilterKeysConcat(a, b');
    }
  }

  /** Wraps already-present keys as raw keys. */
  function AsRaw(keys: seq<string>): (raw: seq<RawKey>)
    ensures |raw| == |keys|
    ensures forall i :: 0 <= i < |keys| ==> raw[i] == Some(keys[i])
  {
    seq(|keys|, i requires 0 <= i < |keys| => Some(keys[i]))
  }

  /** Filtering keeps a list of non-empty keys exactly as it is. */
  lemma {:induction false} FilterKeysKeepsTruthy(keys: seq<string>)
    requires forall i :: 0 <= i < |keys| ==> keys[i] != ""
    ensures FilterKeys(AsRaw(keys)) == keys
  {
    if keys != [] {
      var init := keys[..|keys| - 1];
      var raw := AsRaw(keys);
      assert raw[..|raw| - 1] == AsRaw(init);
      assert Truthy(raw[|raw| - 1]) && raw[|raw| - 1].value == keys[|keys| - 1];
      assert FilterKeys(raw) == FilterKeys(AsRaw(init)) + [keys[|keys| - 1]];
      FilterKeysKeepsTruthy(init);
      assert keys == init + [keys[|keys| - 1]];
    }
  }

  /** Only falsy entries are dropped: absent and empty keys go, a blank key stays. */
  lemma FilterKeysExample()
    ensures FilterKeys([Some("  "), None, Some(""), Some("k2")]) == ["  ", "k2"]
  {
    var raw: seq<RawKey> := [Some("  "), None, Some(""), Some("k2")];
    assert raw[..3][..2][..1][..0] == [];
  }

  // ---------------------------------------------------------------------------
  // Rotation
  // ---------------------------------------------------------------------------

  /** `(currentIndex + 1) % keys.length`: the next key, wrapping from the last to the first. */
  function Rotate(i: nat, n: nat): (j: nat)
    requires n > 0
    ensures j < n
    ensures i < n ==> j == (if i + 1 == n then 0 else i + 1)
  {
    (i + 1) % n
  }

  /** The index reached after `k` rotations from `i`. */
  function RotateTimes(i: nat, n: nat, k: nat): (j: nat)
    requires n > 0
  {
    if k == 0 then i else Rotate(RotateTimes(i, n, k - 1), n)
  }

  /** Rotations compose: `a` rotations then `b` more are `a + b` rotations. */
  lemma {:induction false} RotateTimesAdd(i: nat, n: nat, a: nat, b: nat)
    requires n > 0
    ensures RotateTimes(RotateTimes(i, n, a), n, b) == RotateTimes(i, n, a + b)
  {
    if b > 0 {
      RotateTimesAdd(i, n, a, b - 1);
    }
  }

  /** Below the wrap point, `k` rotations simply add `k`. */
  lemma {:induction false} RotateTimesNoWrap(i: nat, n: nat, k: nat)
    requires i + k < n
    ensures RotateTimes(i, n, k) == i + k
  {
    if k > 0 {
      RotateTimesNoWrap(i, n, k - 1);
    }
  }

  /** Every rotation count keeps the index in range. */
  lemma {:induction false} RotateTimesInRange(i: nat, n: nat, k: nat)
    requires i < n
    ensures RotateTimes(i, n, k) < n
  {
  }

  /** Circularity: `n` rotations bring the index back to where it started. */
  lemma FullCycle(i: nat, n: nat)
    requires i < n
    ensures RotateTimes(i, n, n) == i
  {
    RotateTimesNoWrap(i, n, n - i - 1);
    assert RotateTimes(i, n, n - i) == 0;
    RotateTimesNoWrap(0, n, i);
    RotateTimesAdd(i, n, n - i, i);
  }

  // ---------------------------------------------------------------------------
  // Backoff
  // ---------------------------------------------------------------------------

  function Pow2(k: nat): (p: nat)
    ensures p >= 1
  {
    if k == 0 then 1 else 2 * Pow2(k - 1)
  }

  lemma {:induction false} Pow2Monotone(a: nat, b: nat)
    requires a <= b
    ensures Pow2(a) <= Pow2(b)
  {
    if a < b {
      Pow2Monotone(a, b - 1);
    }
  }

  /** 2^k stays below 32 up to k = 4 and reaches it from k = 5 on. */
  lemma Pow2Threshold(k: nat)
    ensures k <= 4 ==> Pow2(k) <= 16
    ensures k >= 5 ==> Pow2(k) >= 32
  {
    if k <= 4 {
      Pow2Monotone(k, 4);
    } else {
      Pow2Monotone(5, k);
    }
  }

  const BaseDelayMs: nat := 100
  const CapDelayMs: nat := 2000

  /** `Math.min(100 * Math.pow(2, attempt - 1), 2000)`: the wait, in milliseconds,
      after the `attempt`-th failed attempt of a call. */
  function Backoff(attempt: nat): (delay: nat)
    requires attempt >= 1
    ensures BaseDelayMs <= delay <= CapDelayMs
    ensures attempt <= 5 ==> delay == BaseDelayMs * Pow2(attempt - 1)
    ensures attempt >= 6 ==> delay == CapDelayMs
  {
    Pow2Threshold(attempt - 1);
    var raw := BaseDelayMs * Pow2(attempt - 1);
    if raw < CapDelayMs then raw else CapDelayMs
  }

  /** The schedule spelled out: 100, 200, 400, 800, 1600, then 2000 from then on. */
  lemma BackoffSchedule(attempt: nat)
    requires attempt >= 1
    ensures attempt == 1 ==> Backoff(attempt) == 100
    ensures attempt == 2 ==> Backoff(attempt) == 200
    ensures attempt == 3 ==> Backoff(attempt) == 400
    ensures attempt == 4 ==> Backoff(attempt) == 800
    ensures attempt == 5 ==> Backoff(attempt) == 1600
    ensures attempt >= 6 ==> Backoff(attempt) == 2000
  {
  }

  /** A later attempt never waits less. */
  lemma BackoffMonotone(a: nat, b: nat)
    requires 1 <= a <= b
    ensures Backoff(a) <= Backoff(b)
  {
    Pow2Monotone(a - 1, b - 1);
  }

  /** The total wait of the first `k` failed attempts. */
  function TotalBackoff(k: nat): nat {
    if k == 0 then 0 else TotalBackoff(k - 1) + Backoff(k)
  }

  /** The closed form of the worst-case wait of a call: 100·(2^k − 1) ms for up to five
      failures, then 3100 ms plus 2000 ms for each further failure. */
  lemma {:induction false} TotalBackoffClosedForm(k: nat)
    ensures k <= 5 ==> TotalBackoff(k) == BaseDelayMs * (Pow2(k) - 1)
    ensures k >= 5 ==> TotalBackoff(k) == 3100 + CapDelayMs * (k - 5)
  {
    if k > 0 {
      TotalBackoffClosedForm(k - 1);
    }
  }

  // ---------------------------------------------------------------------------
  // Environment slots
  // ---------------------------------------------------------------------------

  /** The process environment: variable name to value; an unset variable is absent. */
  type Env = map<string, string>

  const NumberedSlotCount: nat := 10
  const SingleKeySlot: string := "GEMINI_API_KEY"

  /** Why a client could not be built. */
  datatype ConfigError =
    | NoKeysConfigured      // the key list was empty after filtering
    | NoKeysInEnvironment   // neither a numbered slot nor the single-key slot held a key

  /** `GEMINI_KEY_<i>`. */
  function SlotName(i: nat): string {
    "GEMINI_KEY_" + NatToString(i)
  }

  function Lookup(env: Env, name: string): RawKey {
    if name in env then Some(env[name]) else None
  }

  /** The raw values of slots `1..upTo`, in slot order. */
  function SlotValues(env: Env, upTo: nat): (raw: seq<RawKey>)
    ensures |raw| == upTo
    ensures forall i :: 0 <= i < upTo ==> raw[i] == Lookup(env, SlotName(i + 1))
  {
    seq(upTo, i requires 0 <= i < upTo => Lookup(env, SlotName(i + 1)))
  }

  /** The loop over slots `1..upTo` that pushes every truthy value. */
  function CollectSlots(env: Env, upTo: nat): seq<string> {
    if upTo == 0 then []
    else
      var v := Lookup(env, SlotName(upTo));
      CollectSlots(env, upTo - 1) + (if Truthy(v) then [v.value] else [])
  }

  /** The slot loop filters the slot values in slot order: unset and empty slots are
      skipped, later slots still count (gaps are allowed). */
  lemma {:induction false} CollectSlotsIsFilter(env: Env, upTo: nat)
    ensures CollectSlots(env, upTo) == FilterKeys(SlotValues(env, upTo))
  {
    if upTo > 0 {
      CollectSlotsIsFilter(env, upTo - 1);
      assert SlotValues(env, upTo)[..upTo - 1] == SlotValues(env, upTo - 1);
    }
  }

  /** The keys of `GEMINI_KEY_1` .. `GEMINI_KEY_10`. */
  function NumberedKeys(env: Env): (keys: seq<string>)
    ensures forall k :: k in keys <==>
      k != "" && exists i :: 1 <= i <= NumberedSlotCount && Lookup(env, SlotName(i)) == Some(k)
  {
    var raw := SlotValues(env, NumberedSlotCount);
    CollectSlotsIsFilter(env, NumberedSlotCount);
    assert forall k :: Some(k) in raw <==>
      exists i :: 1 <= i <= NumberedSlotCount && Lookup(env, SlotName(i)) == Some(k) by {
      forall k | Some(k) in raw
        ensures exists i :: 1 <= i <= NumberedSlotCount && Lookup(env, SlotName(i)) == Some(k)
      {
        var j :| 0 <= j < |raw| && raw[j] == Some(k);
        assert Lookup(env, SlotName(j + 1)) == Some(k);
      }
      forall k | exists i :: 1 <= i <= NumberedSlotCount && Lookup(env, SlotName(i)) == Some(k)
        ensures Some(k) in raw
      {
        var i :| 1 <= i <= NumberedSlotCount && Lookup(env, SlotName(i)) == Some(k);
        assert raw[i - 1] == Some(k);
      }
    }
    CollectSlots(env, NumberedSlotCount)
  }

  /** The key list `createFromEnv` / `create_from_env` hands to the constructor. */
  function EnvKeys(env: Env): (r: Result<seq<string>, ConfigError>)
    ensures r.Failure? <==> NumberedKeys(env) == [] && !Truthy(Lookup(env, SingleKeySlot))
    ensures r.Failure? ==> r.error == NoKeysInEnvironment
    ensures r.Success? ==> |r.value| >= 1 && forall i :: 0 <= i < |r.value| ==> r.value[i] != ""
    ensures NumberedKeys(env) != [] ==> r == Success(NumberedKeys(env))
    ensures NumberedKeys(env) == [] && r.Success? ==> r.value == [Lookup(env, SingleKeySlot).value]
  {
    var numbered := NumberedKeys(env);
    var single := Lookup(env, SingleKeySlot);
    var keys := if numbered == [] && Truthy(single) then [single.value] else numbered;
    assert forall i :: 0 <= i < |keys| ==> keys[i] in keys;
    if keys == [] then Failure(NoKeysInEnvironment) else Success(keys)
  }

  // ---------------------------------------------------------------------------
  // Transport outcomes and the attempt trace
  // ---------------------------------------------------------------------------

  /** What the underlying HTTP request returned. */
  datatype Reply = Reply(status: int, body: string)

  /** One request's fate: a response with a status, or a thrown transport error. */
  datatype Outcome = Responded(reply: Reply) | TransportFailure

  /** How a client treated an outcome. */
  datatype Verdict =
    | Accepted        // counted as a success and handed back to the caller
    | QuotaExceeded   // status 429
    | ServerError     // status >= 500
    | ClientError     // Python only: a 4xx other than 429 raised by `raise_for_status`
    | TransportError  // the request threw

  /** One loop iteration of a call: a flagged key skipped without a request, or a request
      sent with the key at `keyIndex`, its outcome, the verdict and the wait that followed. */
  datatype Step<R> =
    | Skipped(keyIndex: nat)
    | Sent(keyIndex: nat, request: R, outcome: Outcome, verdict: Verdict, delayMs: nat)

  /** What a call ends with: the response, or the "all keys exhausted" error carrying
      the key count and the attempt count. */
  datatype CallResult = Returned(response: Reply) | AllKeysExhausted(keyCount: nat, attempts: nat)

  /** An iteration after which the call rotated and went on. */
  predicate Rotated<R>(s: Step<R>) {
    s.Skipped? || s.verdict != Accepted
  }

  /** The error iterations charged to key `j`: every rejected request sent with it. */
  function ErrorsAt<R>(trace: seq<Step<R>>, j: nat): nat {
    if trace == [] then 0
    else
      var s := trace[|trace| - 1];
      ErrorsAt(trace[..|trace| - 1], j) + (if s.Sent? && s.verdict != Accepted && s.keyIndex == j then 1 else 0)
  }

  /** The successful requests served by key `j`. */
  function SuccessesAt<R>(trace: seq<Step<R>>, j: nat): nat {
    if trace == [] then 0
    else
      var s := trace[|trace| - 1];
      SuccessesAt(trace[..|trace| - 1], j) + (if s.Sent? && s.verdict == Accepted && s.keyIndex == j then 1 else 0)
  }

  /** The outcomes the transport delivered, in the order the requests were sent. */
  function SentOutcomes<R>(trace: seq<Step<R>>): (os: seq<Outcome>)
    ensures |os| <= |trace|
  {
    if trace == [] then []
    else
      var s := trace[|trace| - 1];
      SentOutcomes(trace[..|trace| - 1]) + (if s.Sent? then [s.outcome] else [])
  }

  /** The outcomes consumed by a prefix of the iterations are a prefix of those consumed
      by all of them. */
  lemma {:induction false} SentOutcomesPrefix<R>(trace: seq<Step<R>>, k: nat)
    requires k <= |trace|
    ensures SentOutcomes(trace[..k]) <= SentOutcomes(trace)
  {
    if k < |trace| {
      var init := trace[..|trace| - 1];
      assert trace[..k] == init[..k];
      SentOutcomesPrefix(init, k);
    } else {
      assert trace[..k] == trace;
    }
  }

  /** The total time a call spent backing off. */
  function TotalDelay<R>(trace: seq<Step<R>>): nat {
    if trace == [] then 0
    else
      var s := trace[|trace| - 1];
      TotalDelay(trace[..|trace| - 1]) + (if s.Sent? then s.delayMs else 0)
  }

  /** Iteration `k` of a call that started at index `start` used the key `k` rotations on. */
  predicate RoundRobin<R>(trace: seq<Step<R>>, start: nat, n: nat)
    requires n > 0
  {
    forall k :: 0 <= k < |trace| ==> trace[k].keyIndex == RotateTimes(start, n, k)
  }

  /** The wait after iteration `k`: `Backoff(k + 1)` after a rejected request, nothing
      after a skip or a success. */
  predicate BacksOff<R>(trace: seq<Step<R>>) {
    forall k :: 0 <= k < |trace| && trace[k].Sent? ==>
      trace[k].delayMs == (if trace[k].verdict == Accepted then 0 else Backoff(k + 1))
  }

  /** How the trace accounting changes when one more iteration is appended. */
  lemma AppendStep<R>(trace: seq<Step<R>>, s: Step<R>)
    ensures (trace + [s])[..|trace|] == trace
    ensures forall j :: ErrorsAt(trace + [s], j)
                        == ErrorsAt(trace, j) + (if s.Sent? && s.verdict != Accepted && s.keyIndex == j then 1 else 0)
    ensures forall j :: SuccessesAt(trace + [s], j)
                        == SuccessesAt(trace, j) + (if s.Sent? && s.verdict == Accepted && s.keyIndex == j then 1 else 0)
    ensures SentOutcomes(trace + [s]) == SentOutcomes(trace) + (if s.Sent? then [s.outcome] else [])
    ensures TotalDelay(trace + [s]) == TotalDelay(trace) + (if s.Sent? then s.delayMs else 0)
  {
    assert (trace + [s])[..|trace|] == trace;
  }

  /** A round-robin run of `n` iterations visits every key. */
  lemma RoundRobinCoversAll<R>(trace: seq<Step<R>>, start: nat, n: nat, j: nat)
    requires n > 0 && start < n && |trace| >= n && j < n
    requires RoundRobin(trace, start, n)
    ensures exists k :: 0 <= k < n && trace[k].keyIndex == j
  {
    if j >= start {
      RotateTimesNoWrap(start, n, j - start);
      assert trace[j - start].keyIndex == j;
    } else {
      FullCycle(start, n);
      RotateTimesNoWrap(start, n, n - start - 1);
      assert RotateTimes(start, n, n - start) == 0;
      RotateTimesNoWrap(0, n, j);
      RotateTimesAdd(start, n, n - start, j);
      assert trace[n - start + j].keyIndex == j;
    }
  }

  /** Each backoff is at most the cap, so a call never waits more than 2 s per iteration. */
  lemma {:induction false} TotalDelayBound<R>(trace: seq<Step<R>>)
    requires BacksOff(trace)
    ensures TotalDelay(trace) <= CapDelayMs * |trace|
  {
    if trace != [] {
      var init := trace[..|trace| - 1];
      assert BacksOff(init) by {
        forall k | 0 <= k < |init| && init[k].Sent?
          ensures init[k].delayMs == (if init[k].verdict == Accepted then 0 else Backoff(k + 1))
        {
          assert init[k] == trace[k];
        }
      }
      TotalDelayBound(init);
    }
  }

  // ---------------------------------------------------------------------------
  // Counters
  // ---------------------------------------------------------------------------

  /** `array.reduce((a, b) => a + b, 0)` / `sum(array)`. */
  function Sum(s: seq<nat>): nat {
    if s == [] then 0 else Sum(s[..|s| - 1]) + s[|s| - 1]
  }

  function Zeros(n: nat): (s: seq<nat>)
    ensures |s| == n && forall i :: 0 <= i < n ==> s[i] == 0
  {
    seq(n, _ => 0)
  }

  lemma {:induction false} SumZeros(n: nat)
    ensures Sum(Zeros(n)) == 0
  {
    if n > 0 {
      assert Zeros(n)[..n - 1] == Zeros(n - 1);
      SumZeros(n - 1);
    }
  }

  /** Bumping one counter bumps the sum by one. */
  lemma {:induction false} SumIncrement(s: seq<nat>, i: nat)
    requires i < |s|
    ensures Sum(s[i := s[i] + 1]) == Sum(s) + 1
  {
    var t := s[i := s[i] + 1];
    if i == |s| - 1 {
      assert t[..|t| - 1] == s[..|s| - 1];
    } else {
      assert t[..|t| - 1] == s[..|s| - 1][i := s[i] + 1];
      SumIncrement(s[..|s| - 1], i);
    }
  }

  /** Bumps counter `i`. */
  function Bump(s: seq<nat>, i: nat): (t: seq<nat>)
    requires i < |s|
    ensures |t| == |s| && t[i] == s[i] + 1
    ensures forall j :: 0 <= j < |s| && j != i ==> t[j] == s[j]
    ensures Sum(t) == Sum(s) + 1
  {
    SumIncrement(s, i);
    s[i := s[i] + 1]
  }

  /** The success rate both clients report: not applicable before the first success,
      otherwise a percentage (its one-decimal rendering is not modelled). */
  datatype SuccessRate = NotApplicable | Percent(value: real)

  /** `(totalRequests - totalErrors) / totalRequests * 100`, or not applicable. */
  function SuccessRateAsWritten(totalRequests: nat, totalErrors: nat): (rate: SuccessRate)
    ensures rate.NotApplicable? <==> totalRequests == 0
    ensures rate.Percent? ==> rate.value <= 100.0
    ensures rate.Percent? ==> (rate.value == 100.0 <==> totalErrors == 0)
    ensures rate.Percent? ==> (rate.value < 0.0 <==> totalErrors > totalRequests)
  {
    if totalRequests > 0 then
      Percent((totalRequests - totalErrors) as real / totalRequests as real * 100.0)
    else NotApplicable
  }

  /** `totalRequests` counts only accepted requests, so the formula can go below zero:
      one success after three failures reports -200 percent. */
  lemma SuccessRateCanBeNegative()
    ensures SuccessRateAsWritten(1, 3) == Percent(-200.0)
  {
  }

  /** The share of successes among all requests sent, as a percentage. */
  function SuccessShare(successes: nat, errors: nat): (rate: SuccessRate)
    ensures rate.NotApplicable? <==> successes + errors == 0
    ensures rate.Percent? ==> 0.0 <= rate.value <= 100.0
    ensures rate.Percent? ==> (rate.value == 100.0 <==> errors == 0)
    ensures rate.Percent? ==> (rate.value == 0.0 <==> successes == 0)
  {
    if successes + errors > 0 then
      Percent(successes as real / (successes + errors) as real * 100.0)
    else NotApplicable
  }

  /** The two readings agree whenever nothing failed. */
  lemma SuccessShareMatchesWithoutErrors(successes: nat)
    requires successes > 0
    ensures SuccessShare(successes, 0) == SuccessRateAsWritten(successes, 0) == Percent(100.0)
  {
  }
}
