/**
  `Text2ImageAPI.check_generation(request_id, attempts)`: ask the job's status
  at most `attempts` times and return the images of the first `DONE` answer.
  The remote status endpoint is a parameter: `source(k)` is the answer to the
  `k`-th query (counting from 0); the wait between queries is not modelled.
*/
module Poll {
  import opened Wrappers

  /** One answer of the status endpoint, after `response.json()`. */
  datatype Response =
    | Status(status: string, images: Option<seq<string>>)  // `data['status']`, `data.get('images')`
    | Broken                                               // request failed or the body had no status

  /** How the loop body treats an answer. */
  datatype Step = Finished(images: seq<string>) | Fails | Waits

  /**
    `if data['status'] == 'DONE': return data['images']`; any other status,
    including a failed job, means "try again"; a broken answer or a `DONE`
    answer without images raises.
  */
  function StepOf(r: Response): Step
  {
    match r
    case Broken => Fails
    case Status(status, images) =>
      if status == "DONE" then (if images.Some? then Finished(images.value) else Fails)
      else Waits
  }

  /** What the call produces: the images, `None` after the budget is used up, or an exception. */
  datatype Outcome = Done(images: seq<string>) | Exhausted | Failed

  /** The outcome together with the number of status queries made. */
  datatype PollRun = PollRun(outcome: Outcome, queries: nat)

  /** The poll that starts at query number `k` with `attempts` attempts left. */
  function PollFrom(source: nat -> Response, attempts: int, k: nat): PollRun
    decreases attempts
  {
    if attempts <= 0 then PollRun(Exhausted, k)
    else
      match StepOf(source(k))
      case Finished(images) => PollRun(Done(images), k + 1)
      case Fails => PollRun(Failed, k + 1)
      case Waits => PollFrom(source, attempts - 1, k + 1)
  }

  /** `check_generation` with `attempts` attempts. */
  function Poll(source: nat -> Response, attempts: int): PollRun
  {
    PollFrom(source, attempts, 0)
  }

  /** The queries `lo .. hi-1` all answered "not yet". */
  predicate WaitsBetween(source: nat -> Response, lo: nat, hi: int)
  {
    forall i: nat :: lo <= i < hi ==> StepOf(source(i)) == Waits
  }

  lemma {:induction false} PollFromStopsAt(source: nat -> Response, attempts: int, k: nat, j: nat)
    requires k <= j < k + attempts
    requires WaitsBetween(source, k, j) && StepOf(source(j)) != Waits
    ensures PollFrom(source, attempts, k) ==
      PollRun(if StepOf(source(j)).Finished? then Done(StepOf(source(j)).images) else Failed, j + 1)
    decreases attempts
  {
    if j > k {
      assert StepOf(source(k)) == Waits;
      PollFromStopsAt(source, attempts - 1, k + 1, j);
    }
  }

  lemma {:induction false} PollFromRunsOut(source: nat -> Response, attempts: int, k: nat)
    requires WaitsBetween(source, k, k + attempts)
    ensures PollFrom(source, attempts, k) == PollRun(Exhausted, k + if attempts > 0 then attempts else 0)
    decreases attempts
  {
    if attempts > 0 {
      assert StepOf(source(k)) == Waits;
      PollFromRunsOut(source, attempts - 1, k + 1);
    }
  }

  /**
    If the first `k` answers say "not yet" and answer `k + 1` (query number `k`)
    is `DONE` with images, with `k + 1 <= attempts`, the poll returns exactly
    those images after exactly `k + 1` queries.
  */
  lemma PollDoneAt(source: nat -> Response, attempts: int, k: nat, images: seq<string>)
    requires k < attempts
    requires WaitsBetween(source, 0, k) && StepOf(source(k)) == Finished(images)
    ensures Poll(source, attempts) == PollRun(Done(images), k + 1)
  {
    PollFromStopsAt(source, attempts, 0, k);
  }

  /** A broken answer before any `DONE` ends the poll with an exception, right after that query. */
  lemma PollFailsAt(source: nat -> Response, attempts: int, k: nat)
    requires k < attempts
    requires WaitsBetween(source, 0, k) && StepOf(source(k)) == Fails
    ensures Poll(source, attempts) == PollRun(Failed, k + 1)
  {
    PollFromStopsAt(source, attempts, 0, k);
  }

  /** Without a `DONE` within the budget the poll returns nothing after exactly `attempts` queries. */
  lemma PollRunsOut(source: nat -> Response, attempts: int)
    requires WaitsBetween(source, 0, attempts)
    ensures Poll(source, attempts) == PollRun(Exhausted, if attempts > 0 then attempts else 0)
  {
    PollFromRunsOut(source, attempts, 0);
  }

  lemma {:induction false} PollFromBounded(source: nat -> Response, attempts: int, k: nat)
    ensures var run := PollFrom(source, attempts, k);
      && k <= run.queries <= k + (if attempts > 0 then attempts else 0)
      && WaitsBetween(source, k, run.queries - (if run.outcome.Exhausted? then 0 else 1))
      && (run.outcome.Exhausted? ==> run.queries == k + (if attempts > 0 then attempts else 0))
      && (run.outcome.Done? ==> run.queries > k && StepOf(source(run.queries - 1)) == Finished(run.outcome.images))
      && (run.outcome.Failed? ==> run.queries > k && StepOf(source(run.queries - 1)) == Fails)
    decreases attempts
  {
    if attempts > 0 && StepOf(source(k)) == Waits {
      PollFromBounded(source, attempts - 1, k + 1);
    }
  }

  /**
    Every poll makes at most `attempts` queries, all answered "not yet" except
    the last one when it stopped early; running out of budget takes exactly
    `attempts` queries, and the images returned are those of the last answer.
  */
  lemma PollBounded(source: nat -> Response, attempts: int)
    ensures var run := Poll(source, attempts);
      && run.queries <= (if attempts > 0 then attempts else 0)
      && WaitsBetween(source, 0, run.queries - (if run.outcome.Exhausted? then 0 else 1))
      && (run.outcome.Exhausted? ==> run.queries == (if attempts > 0 then attempts else 0))
      && (run.outcome.Done? ==> run.queries > 0 && StepOf(source(run.queries - 1)) == Finished(run.outcome.images))
      && (run.outcome.Failed? ==> run.queries > 0 && StepOf(source(run.queries - 1)) == Fails)
  {
    PollFromBounded(source, attempts, 0);
  }

  /** The `while attempts > 0` loop of `check_generation`, counting its status queries. */
  method CheckGeneration(source: nat -> Response, attempts: int) returns (outcome: Outcome, queries: nat)
    ensures PollRun(outcome, queries) == Poll(source, attempts)
  {
    var left := attempts;
    queries := 0;
    while left > 0
      invariant PollFrom(source, left, queries) == Poll(source, attempts)
      decreases left
    {
      var step := StepOf(source(queries));
      queries := queries + 1;
      match step {
        case Finished(images) =>
          return Done(images), queries;
        case Fails =>
          return Failed, queries;
        case Waits =>
      }
      left := left - 1;
    }
    outcome := Exhausted;
  }
}
