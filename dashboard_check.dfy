/**
 * The dashboard's check engine (`dashboard/lib/check.ts`): timeout conversion, the
 * evaluation of one probe outcome, the retry loop, and the run over all checks that
 * turns each check into one `CheckResult`.
 */
module DashboardCheck {
  import opened Wrappers
  import opened Text
  import opened Probe
  import opened Config
  import opened Expectations
  import opened RetryPolicy

  /** What one attempt of `runOnce` returns; the final URL is reported as `urlFinal`. */
  datatype Evaluation = Evaluation(
    ok: bool,
    reason: Option<string>,
    status: int,
    durationMs: int,
    urlFinal: string,
    headers: Option<Headers>,
    body: Option<string>)

  /** One check's entry in the run's output. */
  datatype CheckResult = CheckResult(
    app: string,
    name: string,
    url: string,
    ok: bool,
    status: int,
    reason: Option<string>,
    durationMs: int,
    urlFinal: string,
    headers: Option<Headers>,
    bodySnippet: Option<string>)

  /** The timeout, in seconds, used when a check gives none. */
  const DefaultTimeoutSec := 10

  /** The longest body prefix a result keeps. */
  const SnippetLength := 200

  /** The request `runOnce` sends for a check. */
  function ProbeRequest(check: Check): (r: Request)
    ensures r.url == check.url && r.timeoutMs >= 1000
    ensures check.timeoutSec.None? ==> r.timeoutMs == 10000
    ensures check.timeoutSec.Some? && check.timeoutSec.value >= 1 ==> r.timeoutMs == check.timeoutSec.value * 1000
    ensures check.timeoutSec.Some? && check.timeoutSec.value < 1 ==> r.timeoutMs == 1000
  {
    RequestFor(check, DefaultTimeoutSec)
  }

  /**
   * `runOnce` after the probe: a transport failure gives a fixed failure record; a
   * response is checked against the rules in order and the first broken one fails it.
   */
  function Evaluate(check: Check, res: Outcome): (r: Evaluation)
    ensures res.Failed? ==> r == Evaluation(false, Some(res.error), 0, res.durationMs, check.url, None, None)
    ensures res.Responded? ==>
      && r.status == res.status && r.durationMs == res.durationMs && r.urlFinal == res.finalUrl
      && r.headers == Some(res.headers) && r.body == Some(res.body)
    ensures res.Responded? ==> (r.ok <==> Verdict(check, res.status, res.body) == None)
    ensures res.Responded? ==> r.reason == ReasonOf(check, Verdict(check, res.status, res.body), res.status)
  {
    match res
    case Failed(error, durationMs) =>
      Evaluation(false, Some(error), 0, durationMs, check.url, None, None)
    case Responded(status, finalUrl, body, headers, durationMs) =>
      VerdictInOrder(check, status, body);
      if check.expectStatus.Some? && status != check.expectStatus.value then
        Evaluation(false, Some(ReasonFor(check, ExpectStatus, status)), status, durationMs, finalUrl, Some(headers), Some(body))
      else if check.expectStatusIn.Some? && status !in check.expectStatusIn.value then
        Evaluation(false, Some(ReasonFor(check, ExpectStatusIn, status)), status, durationMs, finalUrl, Some(headers), Some(body))
      else if check.expectStatusLt.Some? && !(status < check.expectStatusLt.value) then
        Evaluation(false, Some(ReasonFor(check, ExpectStatusLt, status)), status, durationMs, finalUrl, Some(headers), Some(body))
      else if check.mustContain.Some? && check.mustContain.value != "" && !Contains(body, check.mustContain.value) then
        Evaluation(false, Some(ReasonFor(check, MustContain, status)), status, durationMs, finalUrl, Some(headers), Some(body))
      else
        Evaluation(true, None, status, durationMs, finalUrl, Some(headers), Some(body))
  }

  /** A check with no expectation passes on any response, reporting the status it saw. */
  lemma AnyStatusPassesWithoutExpectations(check: Check, res: Outcome)
    requires res.Responded?
    requires check.expectStatus.None? && check.expectStatusIn.None? && check.expectStatusLt.None?
    requires check.mustContain.None?
    ensures Evaluate(check, res).ok && Evaluate(check, res).status == res.status
    ensures Evaluate(check, res).reason == None
  {
    NoExpectationAcceptsAll(check, res.status, res.body);
  }

  /** Whether attempt `j` of a check passes, when `attempts(j)` is that attempt's outcome. */
  function Passes(check: Check, attempts: nat -> Outcome): nat -> bool
  {
    (j: nat) => Evaluate(check, attempts(j)).ok
  }

  /** The evaluation `runWithRetries` returns: that of the last attempt it made. */
  function Retried(check: Check, attempts: nat -> Outcome): Evaluation
  {
    Evaluate(check, attempts(AttemptCount(Passes(check, attempts), Tries(check.retries)) - 1))
  }

  /**
   * `runWithRetries`: attempt `i` sees outcome `attempts(i)`. Returns the evaluation it
   * ends with, how many attempts it made and the pauses it took between them.
   */
  method RunWithRetries(check: Check, attempts: nat -> Outcome) returns (last: Evaluation, made: nat, delays: seq<nat>)
    ensures 1 <= made <= Tries(check.retries)
    ensures last == Evaluate(check, attempts(made - 1))
    ensures forall j :: 0 <= j < made - 1 ==> !Evaluate(check, attempts(j)).ok
    ensures last.ok || made == Tries(check.retries)
    ensures made == AttemptCount(Passes(check, attempts), Tries(check.retries))
    ensures last == Retried(check, attempts)
    ensures delays == Delays(made - 1)
  {
    var passed := Passes(check, attempts);
    last, made, delays := RetryLoop((j: nat) => Evaluate(check, attempts(j)), passed, Tries(check.retries));
    forall j | 0 <= j < made - 1
      ensures !Evaluate(check, attempts(j)).ok
    {
      assert !passed(j);
    }
    assert last.ok == passed(made - 1);
  }


  /** `r.body ? r.body.slice(0, 200) : undefined`. */
  function Snippet(body: Option<string>): (s: Option<string>)
    ensures s.None? <==> body.None? || body.value == ""
    ensures s.Some? ==> |s.value| <= SnippetLength && StartsWith(body.value, s.value)
    ensures s.Some? ==> |s.value| == |body.value| || |s.value| == SnippetLength
  {
    if body.None? || body.value == "" then None
    else if |body.value| <= SnippetLength then Some(body.value)
    else Some(body.value[..SnippetLength])
  }

  /** The result pushed for a job once its retries are over. */
  function ResultFor(job: Job, r: Evaluation): CheckResult
  {
    CheckResult(job.app, job.check.name, job.check.url, r.ok, r.status, r.reason,
                r.durationMs, r.urlFinal, r.headers, Snippet(r.body))
  }

  /** The attempt outcomes of job `k`, when `probe(k, i)` is the outcome of its attempt `i`. */
  function AttemptsOf(probe: (nat, nat) -> Outcome, k: nat): nat -> Outcome
  {
    (i: nat) => probe(k, i)
  }

  /** The result each task of a run must produce, task by task: task `k` sees the outcomes `probe(k, _)`. */
  function Expected(tasks: seq<Job>, probe: (nat, nat) -> Outcome): (rs: seq<CheckResult>)
    ensures |rs| == |tasks|
    ensures forall k :: 0 <= k < |rs| ==>
      var r := Retried(tasks[k].check, AttemptsOf(probe, k));
      && rs[k].app == tasks[k].app && rs[k].name == tasks[k].check.name && rs[k].url == tasks[k].check.url
      && rs[k].ok == r.ok && rs[k].status == r.status && rs[k].reason == r.reason
      && rs[k].durationMs == r.durationMs && rs[k].urlFinal == r.urlFinal && rs[k].headers == r.headers
      && rs[k].bodySnippet == Snippet(r.body)
  {
    seq(|tasks|, k requires 0 <= k < |tasks| => ResultFor(tasks[k], Retried(tasks[k].check, AttemptsOf(probe, k))))
  }

  /** One task of `checkAll`: run the job's check with retries and build its result. */
  method RunTask(job: Job, attempts: nat -> Outcome) returns (result: CheckResult)
    ensures result == ResultFor(job, Retried(job.check, attempts))
  {
    var r, _, _ := RunWithRetries(job.check, attempts);
    result := ResultFor(job, r);
  }

  /**
   * The pool loop of `checkAll`, one task at a time: every task runs and pushes its result.
   * Only the collection of results is specified, not its order.
   */
  method RunPool(tasks: seq<Job>, probe: (nat, nat) -> Outcome) returns (results: seq<CheckResult>)
    ensures |results| == |tasks|
    ensures multiset(results) == multiset(Expected(tasks, probe))
  {
    ghost var expected := Expected(tasks, probe);
    results := [];
    for k := 0 to |tasks|
      invariant results == expected[..k]
    {
      var result := RunTask(tasks[k], AttemptsOf(probe, k));
      assert expected[k] == result;
      assert expected[..k + 1] == expected[..k] + [result];
      results := results + [result];
    }
    assert expected[..|tasks|] == expected;
  }


  /** `checkAll`: one task per check of every application, then the pool runs them. */
  method CheckAll(apps: seq<AppChecks>, probe: (nat, nat) -> Outcome) returns (results: seq<CheckResult>)
    ensures |results| == |Jobs(apps)|
    ensures multiset(results) == multiset(Expected(Jobs(apps), probe))
  {
    var tasks := CollectJobs(apps);
    results := RunPool(tasks, probe);
  }
}
