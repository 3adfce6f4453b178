/**
 * pollJob of src/lib/poll.ts: fetch a job's status until it succeeds, fails or time runs
 * out. The clock and the fetches are inputs: `started` is the first reading of Date.now(),
 * and observation i holds what getWithRetry returned for the i-th request and what
 * Date.now() read after it. Past the last observation a request fails like a rejected
 * fetch, so every poll ends.
 */
module Poll {
  import opened Wrappers
  import opened Js
  import opened Errors
  import opened Endpoints

  datatype PollOptions = PollOptions(intervalMs: Option<int>, timeoutMs: Option<int>)

  datatype Observation = Observation(outcome: Result<Json, Error>, now: int)

  /** `{ status, label, data }` */
  datatype Job = Job(status: Json, jobLabel: Json, data: Json)

  /** A poll: its outcome, the path of every request made, and every sleep, in order. */
  datatype Poll = Poll(result: Result<Job, Error>, requests: seq<string>, sleeps: seq<int>)

  const DefaultIntervalMs: int := 1500
  const DefaultTimeoutMs: int := 300000

  function Observe(obs: seq<Observation>, i: nat): Observation {
    if i < |obs| then obs[i] else Observation(Failure(NetworkFailure), 0)
  }

  /** `values.includes(status)`: only a string equal to one of the values is included. */
  predicate Includes(values: seq<string>, status: Json) {
    status.Str? && status.s in values
  }

  function StatusOf(js: JobStatus, data: Json): Json {
    Get(data, js.statusField)
  }

  /** `labelField ? data?.[labelField] : undefined` */
  function LabelOf(js: JobStatus, data: Json): Json {
    if js.labelField.Some? && js.labelField.value != "" then Get(data, js.labelField.value) else Undefined
  }

  /** What one observation decides: an outcome, or another round after a sleep. */
  datatype Step = Done(result: Result<Job, Error>) | Wait

  /** The checks of one iteration: success first, then failure, then the deadline. */
  function Decide(js: JobStatus, timeout: int, started: int, o: Observation): (s: Step)
    ensures s.Wait? <==> (o.outcome.Success? && !Includes(js.successValues, StatusOf(js, o.outcome.value))
                          && !Includes(js.failureValues, StatusOf(js, o.outcome.value)) && o.now - started <= timeout)
    ensures o.outcome.Success? && Includes(js.successValues, StatusOf(js, o.outcome.value)) ==>
      s == Done(Success(Job(StatusOf(js, o.outcome.value), LabelOf(js, o.outcome.value), o.outcome.value)))
    ensures s.Done? && s.result.Success? ==> o.outcome.Success? && Includes(js.successValues, s.result.value.status)
  {
    match o.outcome
    case Failure(e) => Done(Failure(e))
    case Success(data) =>
      var status := StatusOf(js, data);
      if Includes(js.successValues, status) then Done(Success(Job(status, LabelOf(js, data), data)))
      else if Includes(js.failureValues, status) then Done(Failure(JobFailed(status, data)))
      else if o.now - started > timeout then Done(Failure(PollTimeout(data)))
      else Wait
  }

  /** The poll from request i on, every request to path. */
  function PollFrom(js: JobStatus, path: string, interval: int, timeout: int, started: int,
                    obs: seq<Observation>, i: nat): Poll
    decreases |obs| - i
  {
    match Decide(js, timeout, started, Observe(obs, i))
    case Done(r) => Poll(r, [path], [])
    case Wait =>
      var rest := PollFrom(js, path, interval, timeout, started, obs, i + 1);
      Poll(rest.result, [path] + rest.requests, [interval] + rest.sleeps)
  }

  /** pollJob */
  function PollSpec(spec: Spec, params: map<string, Json>, opts: PollOptions, started: int, obs: seq<Observation>): Poll {
    if spec.jobStatus.None? then Poll(Failure(PollingNotConfigured), [], [])
    else
      var js := spec.jobStatus.value;
      match Interpolate(js.pathTemplate, params)
      case Failure(e) => Poll(Failure(e), [], [])
      case Success(path) =>
        PollFrom(js, path, opts.intervalMs.GetOr(DefaultIntervalMs), opts.timeoutMs.GetOr(DefaultTimeoutMs), started, obs, 0)
  }

  /** Requests and sleeps already made, in front of the rest of a poll. */
  function Prefixed(requests: seq<string>, sleeps: seq<int>, p: Poll): Poll {
    Poll(p.result, requests + p.requests, sleeps + p.sleeps)
  }

  /** pollJob's loop. */
  method PollJob(spec: Spec, params: map<string, Json>, opts: PollOptions, started: int, obs: seq<Observation>)
    returns (p: Poll)
    ensures p == PollSpec(spec, params, opts, started, obs)
  {
    if spec.jobStatus.None? {
      return Poll(Failure(PollingNotConfigured), [], []);
    }
    var js := spec.jobStatus.value;
    var interval := opts.intervalMs.GetOr(DefaultIntervalMs);
    var timeout := opts.timeoutMs.GetOr(DefaultTimeoutMs);
    var requests: seq<string> := [];
    var sleeps: seq<int> := [];
    var i := 0;
    ghost var whole := PollSpec(spec, params, opts, started, obs);
    while true
      invariant i <= |obs|
      invariant i == 0 ==> requests == [] && sleeps == []
      invariant i > 0 ==> Interpolate(js.pathTemplate, params).Success?
      invariant i > 0 ==>
        whole == Prefixed(requests, sleeps, PollFrom(js, Interpolate(js.pathTemplate, params).value, interval, timeout, started, obs, i))
      decreases |obs| - i
    {
      var path := Interpolate(js.pathTemplate, params);
      if path.Failure? {
        return Poll(Failure(path.error), requests, sleeps);
      }
      assert whole == Prefixed(requests, sleeps, PollFrom(js, path.value, interval, timeout, started, obs, i));
      var o := Observe(obs, i);
      var step := Check(js, timeout, started, o);
      if step.Done? {
        PollEnds(js, path.value, interval, timeout, started, obs, i, requests, sleeps, whole);
        return Poll(step.result, requests + [path.value], sleeps);
      }
      PollGoesOn(js, path.value, interval, timeout, started, obs, i, requests, sleeps, whole);
      requests := requests + [path.value];
      sleeps := sleeps + [interval];
      i := i + 1;
    }
  }

  /** The checks of one iteration on the reply it got: success, then failure, then the deadline. */
  method Check(js: JobStatus, timeout: int, started: int, o: Observation) returns (s: Step)
    ensures s == Decide(js, timeout, started, o)
  {
    if o.outcome.Failure? {
      return Done(Failure(o.outcome.error));
    }
    var data := o.outcome.value;
    var status := Get(data, js.statusField);
    var jobLabel := if js.labelField.Some? && js.labelField.value != "" then Get(data, js.labelField.value) else Undefined;
    if Includes(js.successValues, status) {
      return Done(Success(Job(status, jobLabel, data)));
    }
    if Includes(js.failureValues, status) {
      return Done(Failure(JobFailed(status, data)));
    }
    if o.now - started > timeout {
      return Done(Failure(PollTimeout(data)));
    }
    return Wait;
  }

  /** An observation that decides ends the poll with this request as its last. */
  lemma PollEnds(js: JobStatus, path: string, interval: int, timeout: int, started: int, obs: seq<Observation>, i: nat,
                 requests: seq<string>, sleeps: seq<int>, whole: Poll)
    requires whole == Prefixed(requests, sleeps, PollFrom(js, path, interval, timeout, started, obs, i))
    requires Decide(js, timeout, started, Observe(obs, i)).Done?
    ensures whole == Poll(Decide(js, timeout, started, Observe(obs, i)).result, requests + [path], sleeps)
  {
    assert sleeps + [] == sleeps;
  }

  /** An observation that does not decide adds this request and one sleep, and the poll goes on. */
  lemma PollGoesOn(js: JobStatus, path: string, interval: int, timeout: int, started: int, obs: seq<Observation>, i: nat,
                   requests: seq<string>, sleeps: seq<int>, whole: Poll)
    requires whole == Prefixed(requests, sleeps, PollFrom(js, path, interval, timeout, started, obs, i))
    requires Decide(js, timeout, started, Observe(obs, i)).Wait?
    ensures i < |obs|
    ensures whole == Prefixed(requests + [path], sleeps + [interval], PollFrom(js, path, interval, timeout, started, obs, i + 1))
  {
    var next := PollFrom(js, path, interval, timeout, started, obs, i + 1);
    assert requests + ([path] + next.requests) == (requests + [path]) + next.requests;
    assert sleeps + ([interval] + next.sleeps) == (sleeps + [interval]) + next.sleeps;
  }

  // ----- properties -----

  /** Without a job status description pollJob throws before any request. */
  lemma NotConfiguredNoRequest(spec: Spec, params: map<string, Json>, opts: PollOptions, started: int, obs: seq<Observation>)
    requires spec.jobStatus.None?
    ensures PollSpec(spec, params, opts, started, obs) == Poll(Failure(PollingNotConfigured), [], [])
  {
  }

  /** The API as described has no job status, so polling it always throws that error. */
  lemma Action1CannotPoll(params: map<string, Json>, opts: PollOptions, started: int, obs: seq<Observation>)
    ensures PollSpec(Action1, params, opts, started, obs).result == Failure(PollingNotConfigured)
  {
  }

  /** n copies of x. */
  function Repeat<T>(x: T, n: nat): (r: seq<T>)
    ensures |r| == n
    ensures forall k :: 0 <= k < n ==> r[k] == x
  {
    seq(n, k => x)
  }

  /** Observation k leads to another round. */
  predicate Continues(js: JobStatus, timeout: int, started: int, obs: seq<Observation>, k: nat) {
    Decide(js, timeout, started, Observe(obs, k)).Wait?
  }

  /**
   * A poll requests the same path every time, sleeps the interval between consecutive
   * requests, goes on exactly while observations lead to another round, and ends with
   * what the last observation decides.
   */
  lemma {:induction false} PollShape(js: JobStatus, path: string, interval: int, timeout: int, started: int,
                                    obs: seq<Observation>, i: nat)
    requires i <= |obs|
    ensures var p := PollFrom(js, path, interval, timeout, started, obs, i);
      |p.requests| >= 1 && i + |p.requests| <= |obs| + 1 &&
      p.requests == Repeat(path, |p.requests|) &&
      p.sleeps == Repeat(interval, |p.requests| - 1) &&
      (forall k :: i <= k < i + |p.requests| - 1 ==> Continues(js, timeout, started, obs, k)) &&
      Decide(js, timeout, started, Observe(obs, i + |p.requests| - 1)) == Done(p.result)
    decreases |obs| - i
  {
    if Continues(js, timeout, started, obs, i) {
      assert i < |obs|;
      PollShape(js, path, interval, timeout, started, obs, i + 1);
      var rest := PollFrom(js, path, interval, timeout, started, obs, i + 1);
      assert [path] + Repeat(path, |rest.requests|) == Repeat(path, |rest.requests| + 1);
      assert [interval] + Repeat(interval, |rest.requests| - 1) == Repeat(interval, |rest.requests|);
    }
  }

  /** A status listed as both success and failure counts as success. */
  lemma SuccessBeforeFailure(js: JobStatus, timeout: int, started: int, data: Json, now: int)
    requires Includes(js.successValues, StatusOf(js, data)) && Includes(js.failureValues, StatusOf(js, data))
    ensures Decide(js, timeout, started, Observation(Success(data), now)).result.Success?
  {
  }

  /** A success observed after the deadline is still returned. */
  lemma SuccessPastDeadline(js: JobStatus, timeout: int, started: int, data: Json, now: int)
    requires Includes(js.successValues, StatusOf(js, data)) && now - started > timeout
    ensures Decide(js, timeout, started, Observation(Success(data), now))
         == Done(Success(Job(StatusOf(js, data), LabelOf(js, data), data)))
  {
  }

  /** A failure status throws with the response attached; the deadline is not consulted. */
  lemma FailureCarriesData(js: JobStatus, timeout: int, started: int, data: Json, now: int)
    requires !Includes(js.successValues, StatusOf(js, data)) && Includes(js.failureValues, StatusOf(js, data))
    ensures Decide(js, timeout, started, Observation(Success(data), now)) == Done(Failure(JobFailed(StatusOf(js, data), data)))
  {
  }

  /** Past the deadline, a status that is neither throws the timeout with the last response attached. */
  lemma TimeoutCarriesData(js: JobStatus, timeout: int, started: int, data: Json, now: int)
    requires !Includes(js.successValues, StatusOf(js, data)) && !Includes(js.failureValues, StatusOf(js, data))
    requires now - started > timeout
    ensures Decide(js, timeout, started, Observation(Success(data), now)) == Done(Failure(PollTimeout(data)))
  {
  }

  /** Without options, the poll sleeps 1500 ms between requests and gives up after 300000 ms. */
  lemma DefaultOptions(spec: Spec, params: map<string, Json>, started: int, obs: seq<Observation>)
    requires spec.jobStatus.Some? && Interpolate(spec.jobStatus.value.pathTemplate, params).Success?
    ensures var p := PollSpec(spec, params, PollOptions(None, None), started, obs);
      p.sleeps == Repeat(1500, |p.requests| - 1) &&
      (forall k :: 0 <= k < |p.requests| - 1 ==> Observe(obs, k).now - started <= 300000)
  {
    var js := spec.jobStatus.value;
    var path := Interpolate(js.pathTemplate, params).value;
    PollShape(js, path, 1500, 300000, started, obs, 0);
    var p := PollFrom(js, path, 1500, 300000, started, obs, 0);
    forall k | 0 <= k < |p.requests| - 1
      ensures Observe(obs, k).now - started <= 300000
    {
      assert Continues(js, 300000, started, obs, k);
    }
  }
}
