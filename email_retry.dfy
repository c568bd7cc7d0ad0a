/**
 * Bounded retry with exponential backoff and batched sending
 * (task-service/src/utils/emailRetry.js), with the email settings of
 * task-service/src/config/cron.js. Sending and sleeping are not performed:
 * each attempt's outcome is an input, and the sleeps are returned as a list.
 */
module EmailRetry {

  /** The email settings: attempts per message, the first backoff in ms, jobs per batch. */
  datatype EmailConfig = EmailConfig(maxRetries: nat, retryDelay: nat, batchSize: nat)

  const EMAIL: EmailConfig := EmailConfig(3, 5000, 50)

  /** The pause between two batches, in ms. */
  const BATCH_PAUSE: nat := 1000

  function Pow2(n: nat): (p: nat)
    ensures p >= 1
  {
    if n == 0 then 1 else 2 * Pow2(n - 1)
  }

  /** calculateDelay: the wait after failed attempt `attempt` (counted from 1). */
  function CalculateDelay(cfg: EmailConfig, attempt: nat): nat
    requires attempt >= 1
  {
    cfg.retryDelay * Pow2(attempt - 1)
  }

  /** Each backoff is twice the previous one, starting at retryDelay. */
  lemma DelayDoubles(cfg: EmailConfig, attempt: nat)
    requires attempt >= 1
    ensures CalculateDelay(cfg, 1) == cfg.retryDelay
    ensures CalculateDelay(cfg, attempt + 1) == 2 * CalculateDelay(cfg, attempt)
  {
    calc {
      CalculateDelay(cfg, attempt + 1);
      cfg.retryDelay * (2 * Pow2(attempt - 1));
      2 * (cfg.retryDelay * Pow2(attempt - 1));
    }
  }

  /** With the shipped settings a message is retried after 5 s, then after 10 s. */
  lemma ShippedBackoff()
    ensures CalculateDelay(EMAIL, 1) == 5000 && CalculateDelay(EMAIL, 2) == 10000
  {
  }

  /** Some attempt among the first maxRetries succeeds: `send(k)` is the outcome of attempt k. */
  predicate Delivers(cfg: EmailConfig, send: nat -> bool)
  {
    exists k | 1 <= k <= cfg.maxRetries :: send(k)
  }

  /**
   * sendWithRetry. Returns the result, the number of attempts made and the
   * sleeps taken, in order.
   */
  method SendWithRetry(cfg: EmailConfig, send: nat -> bool) returns (ok: bool, attempts: nat, sleeps: seq<nat>)
    ensures ok <==> Delivers(cfg, send)
    ensures attempts <= cfg.maxRetries
    ensures ok ==> attempts >= 1 && send(attempts) && forall k | 1 <= k < attempts :: !send(k)
    ensures !ok ==> attempts == cfg.maxRetries
    ensures |sleeps| == if attempts == 0 then 0 else attempts - 1
    ensures forall i | 0 <= i < |sleeps| :: sleeps[i] == CalculateDelay(cfg, i + 1)
  {
    ok, attempts, sleeps := false, 0, [];
    var attempt := 1;
    while attempt <= cfg.maxRetries
      invariant 1 <= attempt <= cfg.maxRetries + 1 || (cfg.maxRetries == 0 && attempt == 1)
      invariant attempts == attempt - 1
      invariant forall k | 1 <= k < attempt :: !send(k)
      invariant |sleeps| == if attempts == 0 then 0 else if attempt <= cfg.maxRetries then attempts else attempts - 1
      invariant forall i | 0 <= i < |sleeps| :: sleeps[i] == CalculateDelay(cfg, i + 1)
      decreases cfg.maxRetries + 1 - attempt
    {
      attempts := attempt;
      if send(attempt) {
        return true, attempts, sleeps;
      }
      if attempt < cfg.maxRetries {
        sleeps := sleeps + [CalculateDelay(cfg, attempt)];
      }
      attempt := attempt + 1;
    }
  }

  // ---------------------------------------------------------------------
  // Batches
  // ---------------------------------------------------------------------

  /** An email job; `user` is what the failure log records about it. */
  datatype Job = Job(user: string)

  datatype JobError = JobError(user: string, error: string)

  datatype BatchResults = BatchResults(total: nat, successful: nat, failed: nat, errors: seq<JobError>)

  const RETRY_FAILURE: string := "Email sending failed after retries"

  /** How many of the first `n` jobs get through; `sendOf(j)` gives job j's attempt outcomes. */
  function CountDelivered(cfg: EmailConfig, sendOf: nat -> nat -> bool, n: nat): nat
  {
    if n == 0 then 0 else CountDelivered(cfg, sendOf, n - 1) + (if Delivers(cfg, sendOf(n - 1)) then 1 else 0)
  }

  /** The failure entries of the first `n` jobs, in job order. */
  function FailureLog(cfg: EmailConfig, jobs: seq<Job>, sendOf: nat -> nat -> bool, n: nat): seq<JobError>
    requires n <= |jobs|
  {
    if n == 0 then []
    else FailureLog(cfg, jobs, sendOf, n - 1) + (if Delivers(cfg, sendOf(n - 1)) then [] else [JobError(jobs[n - 1].user, RETRY_FAILURE)])
  }

  /** Every job is counted once: as a success or as a logged failure. */
  lemma {:induction false} EachJobCountedOnce(cfg: EmailConfig, jobs: seq<Job>, sendOf: nat -> nat -> bool, n: nat)
    requires n <= |jobs|
    ensures CountDelivered(cfg, sendOf, n) + |FailureLog(cfg, jobs, sendOf, n)| == n
  {
    if n > 0 {
      EachJobCountedOnce(cfg, jobs, sendOf, n - 1);
    }
  }

  function Concat(batches: seq<seq<Job>>): seq<Job>
  {
    if batches == [] then [] else Concat(batches[..|batches| - 1]) + batches[|batches| - 1]
  }

  /** Every batch holds between 1 and `size` jobs, and every batch but the last exactly `size`. */
  predicate Batched(batches: seq<seq<Job>>, size: nat)
  {
    && (forall k | 0 <= k < |batches| :: 0 < |batches[k]| <= size)
    && (forall k | 0 <= k < |batches| - 1 :: |batches[k]| == size)
  }

  /** Appending a batch after a full one keeps the shape, and the jobs sent grow by that batch. */
  lemma BatchedSnoc(batches: seq<seq<Job>>, batch: seq<Job>, size: nat)
    requires Batched(batches, size) && 0 < |batch| <= size
    requires batches != [] ==> |batches[|batches| - 1]| == size
    ensures Batched(batches + [batch], size)
    ensures Concat(batches + [batch]) == Concat(batches) + batch
  {
    assert (batches + [batch])[..|batches|] == batches;
  }

  /** One batch: jobs lo..hi-1 sent in order, each through SendWithRetry. */
  method SendBatch(cfg: EmailConfig, jobs: seq<Job>, sendOf: nat -> nat -> bool, lo: nat, hi: nat, before: BatchResults)
    returns (after: BatchResults)
    requires lo <= hi <= |jobs|
    requires before.successful == CountDelivered(cfg, sendOf, lo)
    requires before.errors == FailureLog(cfg, jobs, sendOf, lo)
    requires |before.errors| == before.failed
    ensures after.total == before.total
    ensures after.successful == CountDelivered(cfg, sendOf, hi)
    ensures after.errors == FailureLog(cfg, jobs, sendOf, hi)
    ensures |after.errors| == after.failed
  {
    after := before;
    var j := lo;
    while j < hi
      invariant lo <= j <= hi
      invariant after.total == before.total
      invariant after.successful == CountDelivered(cfg, sendOf, j)
      invariant after.errors == FailureLog(cfg, jobs, sendOf, j)
      invariant |after.errors| == after.failed
    {
      var success, _, _ := SendWithRetry(cfg, sendOf(j));
      if success {
        after := after.(successful := after.successful + 1);
      } else {
        after := after.(failed := after.failed + 1, errors := after.errors + [JobError(jobs[j].user, RETRY_FAILURE)]);
      }
      j := j + 1;
    }
  }

  /**
   * processBatch over `jobs`: the results, the batches in the order they
   * were sent, and the number of pauses taken between them. A batch size
   * of 0 would never advance, so the settings must give a positive one.
   */
  method ProcessBatch(cfg: EmailConfig, jobs: seq<Job>, sendOf: nat -> nat -> bool)
    returns (results: BatchResults, batches: seq<seq<Job>>, pauses: nat)
    requires cfg.batchSize > 0
    ensures results.total == |jobs|
    ensures results.successful == CountDelivered(cfg, sendOf, |jobs|)
    ensures results.errors == FailureLog(cfg, jobs, sendOf, |jobs|)
    ensures results.successful + results.failed == results.total
    ensures |results.errors| == results.failed
    ensures Concat(batches) == jobs
    ensures forall k | 0 <= k < |batches| :: 0 < |batches[k]| <= cfg.batchSize
    ensures forall k | 0 <= k < |batches| - 1 :: |batches[k]| == cfg.batchSize
    ensures pauses == if batches == [] then 0 else |batches| - 1
  {
    results := BatchResults(|jobs|, 0, 0, []);
    batches := [];
    pauses := 0;
    var batchSize := cfg.batchSize;
    var i := 0;
    while i < |jobs|
      invariant 0 <= i <= |jobs|
      invariant results.total == |jobs|
      invariant results.successful == CountDelivered(cfg, sendOf, i)
      invariant results.errors == FailureLog(cfg, jobs, sendOf, i)
      invariant |results.errors| == results.failed
      invariant Concat(batches) == jobs[..i]
      invariant Batched(batches, batchSize)
      invariant batches != [] && i < |jobs| ==> |batches[|batches| - 1]| == batchSize
      invariant pauses == if batches == [] then 0 else if i < |jobs| then |batches| else |batches| - 1
      decreases |jobs| - i
    {
      var end := if i + batchSize < |jobs| then i + batchSize else |jobs|;
      var batch := jobs[i..end];
      results := SendBatch(cfg, jobs, sendOf, i, end, results);
      BatchedSnoc(batches, batch, batchSize);
      batches := batches + [batch];
      assert jobs[..end] == jobs[..i] + batch;
      if i + batchSize < |jobs| {
        pauses := pauses + 1;
      }
      i := end;
    }
    EachJobCountedOnce(cfg, jobs, sendOf, |jobs|);
    assert jobs[..|jobs|] == jobs;
  }
}
