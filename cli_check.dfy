/**
 * The command-line monitor (`scripts/check.js`): timeout conversion, HTML escaping, body
 * snippets, the evaluation of one probe outcome, the retry loop, the run over all checks,
 * and the selection of failures that decides whether an alert is sent.
 *
 * In this copy the records built for a broken expectation end with a spread of the probe
 * result, whose `ok` is true, so a broken expectation yields `ok: true` together with a
 * reason. The model keeps that behaviour.
 */
module CliCheck {
  import opened Wrappers
  import opened Text
  import opened Probe
  import opened Config
  import opened Expectations
  import opened RetryPolicy

  /** What one attempt of `runOnce` returns; the final URL is reported as `urlFinale`. */
  datatype Run = Run(
    ok: bool,
    reason: Option<string>,
    status: int,
    durationMs: int,
    urlFinale: string,
    headers: Option<Headers>,
    body: Option<string>)

  /** One check's entry in the collected results. */
  datatype Entry = Entry(app: string, name: string, url: string, result: Run)

  /** The timeout, in seconds, used when a check gives none. */
  const DefaultTimeoutSec := 50

  /** The request `runOnce` sends for a check. */
  function ProbeRequest(check: Check): (r: Request)
    ensures r.url == check.url && r.timeoutMs >= 1000
    ensures check.timeoutSec.None? ==> r.timeoutMs == 50000
    ensures check.timeoutSec.Some? && check.timeoutSec.value >= 1 ==> r.timeoutMs == check.timeoutSec.value * 1000
    ensures check.timeoutSec.Some? && check.timeoutSec.value < 1 ==> r.timeoutMs == 1000
  {
    RequestFor(check, DefaultTimeoutSec)
  }

  // ---------------------------------------------------------------- HTML escaping

  /** `escapeHtml`: '&' first, then '<', '>' and '"' become entities. */
  function EscapeHtml(s: string): (r: string)
    ensures '<' !in r && '>' !in r && '"' !in r
  {
    var amp := ReplaceChar(s, '&', "&amp;");
    var lt := ReplaceChar(amp, '<', "&lt;");
    var gt := ReplaceChar(lt, '>', "&gt;");
    ReplaceCharExcludes(amp, '<', "&lt;", '<');
    ReplaceCharExcludes(lt, '>', "&gt;", '<');
    ReplaceCharExcludes(lt, '>', "&gt;", '>');
    ReplaceCharExcludes(gt, '"', "&quot;", '<');
    ReplaceCharExcludes(gt, '"', "&quot;", '>');
    ReplaceCharExcludes(gt, '"', "&quot;", '"');
    ReplaceChar(gt, '"', "&quot;")
  }

  /** The text `escapeHtml` gives one character. */
  function Escaped(c: char): string
  {
    if c == '&' then "&amp;"
    else if c == '<' then "&lt;"
    else if c == '>' then "&gt;"
    else if c == '"' then "&quot;"
    else [c]
  }

  /** Reads escaped text back, left to right, turning each of the four entities into its character. */
  function Unescape(t: string): string
    decreases |t|
  {
    if |t| == 0 then ""
    else if StartsWith(t, "&amp;") then "&" + Unescape(t[5..])
    else if StartsWith(t, "&lt;") then "<" + Unescape(t[4..])
    else if StartsWith(t, "&gt;") then ">" + Unescape(t[4..])
    else if StartsWith(t, "&quot;") then "\"" + Unescape(t[6..])
    else [t[0]] + Unescape(t[1..])
  }

  lemma EscapeHtmlAppend(a: string, b: string)
    ensures EscapeHtml(a + b) == EscapeHtml(a) + EscapeHtml(b)
  {
    var amp := ReplaceChar(a, '&', "&amp;");
    var amp' := ReplaceChar(b, '&', "&amp;");
    ReplaceCharAppend(a, b, '&', "&amp;");
    var lt := ReplaceChar(amp, '<', "&lt;");
    var lt' := ReplaceChar(amp', '<', "&lt;");
    ReplaceCharAppend(amp, amp', '<', "&lt;");
    var gt := ReplaceChar(lt, '>', "&gt;");
    var gt' := ReplaceChar(lt', '>', "&gt;");
    ReplaceCharAppend(lt, lt', '>', "&gt;");
    ReplaceCharAppend(gt, gt', '"', "&quot;");
  }

  lemma EscapeHtmlChar(c: char)
    ensures EscapeHtml([c]) == Escaped(c)
  {
    if c == '&' {
      EscapeAmpersand();
    } else if c == '<' {
      EscapeLess();
    } else if c == '>' {
      EscapeGreater();
    } else if c == '"' {
      EscapeQuote();
    } else {
      EscapePlain(c);
    }
  }

  lemma EscapeAmpersand()
    ensures EscapeHtml("&") == "&amp;"
  {
    var amp := ReplaceChar("&", '&', "&amp;");
    ReplaceCharSingle('&', '&', "&amp;");
    assert amp == "&amp;";
    assert '<' !in amp && '>' !in amp && '"' !in amp;
    ReplaceCharAbsent(amp, '<', "&lt;");
    ReplaceCharAbsent(amp, '>', "&gt;");
    ReplaceCharAbsent(amp, '"', "&quot;");
  }

  lemma EscapeLess()
    ensures EscapeHtml("<") == "&lt;"
  {
    ReplaceCharSingle('<', '&', "&amp;");
    ReplaceCharSingle('<', '<', "&lt;");
    ReplaceCharAbsent("&lt;", '>', "&gt;");
    ReplaceCharAbsent("&lt;", '"', "&quot;");
  }

  lemma EscapeGreater()
    ensures EscapeHtml(">") == "&gt;"
  {
    ReplaceCharSingle('>', '&', "&amp;");
    ReplaceCharSingle('>', '<', "&lt;");
    ReplaceCharSingle('>', '>', "&gt;");
    ReplaceCharAbsent("&gt;", '"', "&quot;");
  }

  lemma EscapeQuote()
    ensures EscapeHtml("\"") == "&quot;"
  {
    ReplaceCharSingle('"', '&', "&amp;");
    ReplaceCharSingle('"', '<', "&lt;");
    ReplaceCharSingle('"', '>', "&gt;");
    ReplaceCharSingle('"', '"', "&quot;");
  }

  lemma EscapePlain(c: char)
    requires c != '&' && c != '<' && c != '>' && c != '"'
    ensures EscapeHtml([c]) == [c]
  {
    ReplaceCharSingle(c, '&', "&amp;");
    ReplaceCharSingle(c, '<', "&lt;");
    ReplaceCharSingle(c, '>', "&gt;");
    ReplaceCharSingle(c, '"', "&quot;");
  }

  lemma UnescapeEscaped(c: char, t: string)
    ensures Unescape(Escaped(c) + t) == [c] + Unescape(t)
  {
    var u := Escaped(c) + t;
    if c == '&' {
      assert u[..5] == "&amp;" && u[5..] == t;
    } else if c == '<' {
      assert u[..4] == "&lt;" && u[4..] == t;
      assert !StartsWith(u, "&amp;") by { assert u[1] == 'l'; }
    } else if c == '>' {
      assert u[..4] == "&gt;" && u[4..] == t;
      assert !StartsWith(u, "&amp;") && !StartsWith(u, "&lt;") by { assert u[1] == 'g'; }
    } else if c == '"' {
      assert u[..6] == "&quot;" && u[6..] == t;
      assert !StartsWith(u, "&amp;") && !StartsWith(u, "&lt;") && !StartsWith(u, "&gt;") by { assert u[1] == 'q'; }
    } else {
      assert u[0] == c && u[1..] == t;
      assert !StartsWith(u, "&amp;") && !StartsWith(u, "&lt;") && !StartsWith(u, "&gt;") && !StartsWith(u, "&quot;") by {
        assert u[0] != '&';
      }
    }
  }

  /** Escaping loses nothing: reading the entities back gives the original text. */
  lemma {:induction false} UnescapeEscapeHtml(s: string)
    ensures Unescape(EscapeHtml(s)) == s
    decreases |s|
  {
    if |s| == 0 {
      assert EscapeHtml(s) == "";
    } else {
      assert s == [s[0]] + s[1..];
      EscapeHtmlAppend([s[0]], s[1..]);
      EscapeHtmlChar(s[0]);
      UnescapeEscaped(s[0], EscapeHtml(s[1..]));
      UnescapeEscapeHtml(s[1..]);
    }
  }

  // ---------------------------------------------------------------- body snippet

  /** `bodySnippet(body, max)`: the first `max` characters of the body without NUL characters; "" for no body. */
  function BodySnippet(body: Option<string>, max: nat): (r: string)
    ensures body.None? || body.value == "" ==> r == ""
    ensures |r| <= max && '\0' !in r
    ensures body.Some? && '\0' !in body.value ==> StartsWith(body.value, r)
    ensures body.Some? && '\0' !in body.value && |body.value| <= max ==> r == body.value
    ensures body.Some? && '\0' !in body.value && |body.value| > max ==> r == body.value[..max]
  {
    if body.None? || body.value == "" then ""
    else
      var cut := if |body.value| <= max then body.value else body.value[..max];
      ReplaceCharExcludes(cut, '\0', "", '\0');
      ReplaceCharDropShortens(cut, '\0');
      if '\0' !in body.value then
        assert forall x :: x in cut ==> x in body.value;
        ReplaceCharAbsent(cut, '\0', "");
        ReplaceChar(cut, '\0', "")
      else
        ReplaceChar(cut, '\0', "")
  }

  // ---------------------------------------------------------------- evaluation

  /**
   * `runOnce` after the probe: a transport failure gives a fixed failure record; for a
   * response the rules are checked in order and the first broken one names the reason,
   * but the record still says `ok`, since the probe result spread last carries `ok: true`.
   */
  function Evaluate(check: Check, res: Outcome): (r: Run)
    ensures r.ok <==> res.Responded?
    ensures res.Failed? ==> r == Run(false, Some(res.error), 0, res.durationMs, check.url, None, None)
    ensures res.Responded? ==>
      && r.status == res.status && r.durationMs == res.durationMs && r.urlFinale == res.finalUrl
      && r.headers == Some(res.headers) && r.body == Some(res.body)
    ensures res.Responded? ==> r.reason == ReasonOf(check, Verdict(check, res.status, res.body), res.status)
  {
    match res
    case Failed(error, durationMs) =>
      Run(false, Some(error), 0, durationMs, check.url, None, None)
    case Responded(status, finalUrl, body, headers, durationMs) =>
      VerdictInOrder(check, status, body);
      // the spread of the probe result comes last: its `ok` (true) wins
      if check.expectStatus.Some? && status != check.expectStatus.value then
        Run(true, Some(ReasonFor(check, ExpectStatus, status)), status, durationMs, finalUrl, Some(headers), Some(body))
      else if check.expectStatusIn.Some? && status !in check.expectStatusIn.value then
        Run(true, Some(ReasonFor(check, ExpectStatusIn, status)), status, durationMs, finalUrl, Some(headers), Some(body))
      else if check.expectStatusLt.Some? && !(status < check.expectStatusLt.value) then
        Run(true, Some(ReasonFor(check, ExpectStatusLt, status)), status, durationMs, finalUrl, Some(headers), Some(body))
      else if check.mustContain.Some? && check.mustContain.value != "" && !Contains(body, check.mustContain.value) then
        Run(true, Some(ReasonFor(check, MustContain, status)), status, durationMs, finalUrl, Some(headers), Some(body))
      else
        Run(true, None, status, durationMs, finalUrl, Some(headers), Some(body))
  }

  /** Whether attempt `j` of a check passes, when `attempts(j)` is that attempt's outcome. */
  function Passes(check: Check, attempts: nat -> Outcome): nat -> bool
  {
    (j: nat) => Evaluate(check, attempts(j)).ok
  }

  /** The result `runWithRetries` returns: that of the last attempt it made. */
  function Retried(check: Check, attempts: nat -> Outcome): Run
  {
    Evaluate(check, attempts(AttemptCount(Passes(check, attempts), Tries(check.retries)) - 1))
  }

  /**
   * `runWithRetries`: attempt `i` sees outcome `attempts(i)`. Returns the result it ends
   * with, how many attempts it made and the pauses it took between them.
   */
  method RunWithRetries(check: Check, attempts: nat -> Outcome) returns (last: Run, made: nat, delays: seq<nat>)
    ensures 1 <= made <= Tries(check.retries)
    ensures last == Evaluate(check, attempts(made - 1))
    ensures forall j :: 0 <= j < made - 1 ==> !Evaluate(check, attempts(j)).ok
    ensures last.ok || made == Tries(check.retries)
    ensures made == AttemptCount(Passes(check, attempts), Tries(check.retries))
    ensures last == Retried(check, attempts)
    ensures delays == Delays(made - 1)
  {
    var passed := Passes(check, attempts);
    last, made, delays := RetryLoop((j: nat) => Evaluate(check, attempts(j)), passed, Tries(check.retries));
    forall j | 0 <= j < made - 1
      ensures !Evaluate(check, attempts(j)).ok
    {
      assert !passed(j);
    }
    assert last.ok == passed(made - 1);
  }


  /** Only transport failures are retried: the run stops at the first attempt that got a response. */
  lemma StopsAtFirstResponse(check: Check, attempts: nat -> Outcome)
    ensures var n := AttemptCount(Passes(check, attempts), Tries(check.retries));
      && (forall j :: 0 <= j < n - 1 ==> attempts(j).Failed?)
      && (attempts(n - 1).Responded? || n == Tries(check.retries))
  {
    PassesIffResponded(check, attempts);
  }

  /** A check ends failed exactly when every allowed attempt failed in transport. */
  lemma FailsIffEveryAttemptFailed(check: Check, attempts: nat -> Outcome)
    ensures !Retried(check, attempts).ok <==> forall j :: 0 <= j < Tries(check.retries) ==> attempts(j).Failed?
  {
    var passed := Passes(check, attempts);
    var tries := Tries(check.retries);
    PassesIffResponded(check, attempts);
    EndsFailedIffAllFail(passed, tries);
    assert Retried(check, attempts).ok == passed(AttemptCount(passed, tries) - 1);
  }

  /** In this copy an attempt passes exactly when it got a response. */
  lemma PassesIffResponded(check: Check, attempts: nat -> Outcome)
    ensures forall j: nat :: Passes(check, attempts)(j) <==> attempts(j).Responded?
  {
    forall j: nat
      ensures Passes(check, attempts)(j) <==> attempts(j).Responded?
    {
      assert Passes(check, attempts)(j) == Evaluate(check, attempts(j)).ok;
    }
  }

  // ---------------------------------------------------------------- the run over all checks

  /** The entry pushed for a job once its retries are over. */
  function EntryFor(job: Job, r: Run): Entry
  {
    Entry(job.app, job.check.name, job.check.url, r)
  }

  /** The attempt outcomes of job `k`, when `probe(k, i)` is the outcome of its attempt `i`. */
  function AttemptsOf(probe: (nat, nat) -> Outcome, k: nat): nat -> Outcome
  {
    (i: nat) => probe(k, i)
  }

  /** The entry each job of a run must produce, job by job: job `k` sees the outcomes `probe(k, _)`. */
  function Expected(jobs: seq<Job>, probe: (nat, nat) -> Outcome): (es: seq<Entry>)
    ensures |es| == |jobs|
    ensures forall k :: 0 <= k < |es| ==>
      && es[k].app == jobs[k].app && es[k].name == jobs[k].check.name && es[k].url == jobs[k].check.url
      && es[k].result == Retried(jobs[k].check, AttemptsOf(probe, k))
  {
    seq(|jobs|, k requires 0 <= k < |jobs| => EntryFor(jobs[k], Retried(jobs[k].check, AttemptsOf(probe, k))))
  }

  /** One job of `main`: run the check with retries and build its entry. */
  method RunJob(job: Job, attempts: nat -> Outcome) returns (entry: Entry)
    ensures entry == EntryFor(job, Retried(job.check, attempts))
  {
    var r, _, _ := RunWithRetries(job.check, attempts);
    entry := EntryFor(job, r);
  }

  /**
   * The pool loop of `main`, one job at a time: every job runs and pushes its entry.
   * Only the collection of entries is specified, not its order.
   */
  method RunPool(jobs: seq<Job>, probe: (nat, nat) -> Outcome) returns (results: seq<Entry>)
    ensures |results| == |jobs|
    ensures multiset(results) == multiset(Expected(jobs, probe))
  {
    ghost var expected := Expected(jobs, probe);
    results := [];
    for k := 0 to |jobs|
      invariant results == expected[..k]
    {
      var entry := RunJob(jobs[k], AttemptsOf(probe, k));
      assert expected[k] == entry;
      assert expected[..k + 1] == expected[..k] + [entry];
      results := results + [entry];
    }
    assert expected[..|jobs|] == expected;
  }


  /** The job loops of `main`: one job per check of every application, all collected by the pool. */
  method RunAll(apps: seq<AppChecks>, probe: (nat, nat) -> Outcome) returns (results: seq<Entry>)
    ensures |results| == |Jobs(apps)|
    ensures multiset(results) == multiset(Expected(Jobs(apps), probe))
  {
    var jobs := CollectJobs(apps);
    results := RunPool(jobs, probe);
  }

  // ---------------------------------------------------------------- failures and the alert gate

  /** `results.filter(r => !r.result.ok)`. */
  function Failures(results: seq<Entry>): (fs: seq<Entry>)
    ensures |fs| <= |results|
    ensures forall e :: multiset(fs)[e] == if e.result.ok then 0 else multiset(results)[e]
  {
    if |results| == 0 then []
    else
      assert results == [results[0]] + results[1..];
      (if results[0].result.ok then [] else [results[0]]) + Failures(results[1..])
  }

  /**
   * The first lines of the alert: the time of the run and the incident count out of all checks.
   * It opens with the four characters the script holds there, a siren emoji whose UTF-8 bytes
   * were read back as Windows-1252.
   */
  function IncidentHeader(now: string, incidents: nat, total: nat): string
  {
    "\U{F0}\U{178}\U{161}\U{A8} <b>Site monitor</b>\n" + now + "\n" +
    "Incidents: <b>" + IntToString(incidents) + "</b> / " + IntToString(total) + "\n"
  }

  /**
   * The alert gate of `main`: an alert is attempted only when some check failed and both
   * the Telegram token and chat id are set; its header counts the failures among all results.
   */
  function AlertHeader(results: seq<Entry>, token: Option<string>, chatId: Option<string>, now: string): (h: Option<string>)
    ensures h.Some? <==> (exists e :: e in results && !e.result.ok) && Truthy(token) && Truthy(chatId)
    ensures h.Some? ==> 0 < |Failures(results)| <= |results|
    ensures h.Some? ==> h.value == IncidentHeader(now, |Failures(results)|, |results|)
  {
    var failures := Failures(results);
    assert |failures| > 0 <==> exists e :: e in results && !e.result.ok by {
      if |failures| > 0 {
        assert multiset(failures)[failures[0]] > 0;
      }
      if e :| e in results && !e.result.ok {
        assert multiset(failures)[e] > 0;
      }
    }
    if |failures| > 0 && Truthy(token) && Truthy(chatId) then
      Some(IncidentHeader(now, |failures|, |results|))
    else
      None
  }

  /** A check that ends failed ended on a transport failure, after every allowed attempt failed. */
  lemma FailedRunIsTransportFailure(check: Check, attempts: nat -> Outcome)
    requires !Retried(check, attempts).ok
    ensures Retried(check, attempts).status == 0 && Retried(check, attempts).reason.Some?
    ensures forall j :: 0 <= j < Tries(check.retries) ==> attempts(j).Failed?
  {
    FailsIffEveryAttemptFailed(check, attempts);
    var n := AttemptCount(Passes(check, attempts), Tries(check.retries));
    assert attempts(n - 1).Failed?;
  }

  /**
   * A broken expectation never reaches the failures: in the results of a run over `jobs`
   * (`RunAll` runs `Jobs(apps)`), every failure
   * is the entry of a job whose allowed attempts all failed in transport, and it carries
   * status 0 and the transport error as its reason.
   */
  lemma FailuresAreTransportFailures(jobs: seq<Job>, probe: (nat, nat) -> Outcome, results: seq<Entry>, e: Entry)
    requires multiset(results) == multiset(Expected(jobs, probe))
    requires e in Failures(results)
    ensures e.result.status == 0 && e.result.reason.Some?
    ensures exists k ::
      && 0 <= k < |jobs| && Expected(jobs, probe)[k] == e
      && (forall j :: 0 <= j < Tries(jobs[k].check.retries) ==> probe(k, j).Failed?)
  {
    var expected := Expected(jobs, probe);
    assert multiset(Failures(results))[e] > 0;
    assert multiset(expected)[e] > 0;
    var k :| 0 <= k < |expected| && expected[k] == e;
    var attempts := AttemptsOf(probe, k);
    assert e.result == Retried(jobs[k].check, attempts);
    FailedRunIsTransportFailure(jobs[k].check, attempts);
    forall j | 0 <= j < Tries(jobs[k].check.retries)
      ensures probe(k, j).Failed?
    {
      assert attempts(j).Failed?;
    }
  }

  /** The outcomes `fetchWithTimeout(check.url, …)` gives when `fetch` does as `raw(j)` says on attempt `j`. */
  function FetchedAttempts(check: Check, raw: nat -> Attempt): nat -> Outcome
  {
    (j: nat) => Fetch(check.url, raw(j))
  }

  /**
   * A check that ends failed reports why: its reason is the classified error of its last
   * attempt, never empty, and "TIMEOUT" when that attempt was aborted by the timer.
   */
  lemma FailureReasonNamesError(check: Check, raw: nat -> Attempt)
    requires !Retried(check, FetchedAttempts(check, raw)).ok
    ensures var n := AttemptCount(Passes(check, FetchedAttempts(check, raw)), Tries(check.retries));
      && raw(n - 1).Threw?
      && Retried(check, FetchedAttempts(check, raw)).reason == Some(ErrorKind(raw(n - 1).name, raw(n - 1).message))
      && Retried(check, FetchedAttempts(check, raw)).reason.value != ""
  {
    var attempts := FetchedAttempts(check, raw);
    FailedRunIsTransportFailure(check, attempts);
    var n := AttemptCount(Passes(check, attempts), Tries(check.retries));
    assert attempts(n - 1) == Fetch(check.url, raw(n - 1));
  }
}
