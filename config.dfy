/** The monitor's input: applications, each with an ordered list of HTTP checks. */
module Config {
  import opened Wrappers
  import opened Probe

  /**
   * One monitored endpoint (`httpMethod` is the source's `method`). Optional fields are `None` when absent; `timeoutSec` is also
   * `None` when its value is not a finite number. Numbers are whole numbers here.
   */
  datatype Check = Check(
    name: string,
    url: string,
    httpMethod: Option<string>,
    timeoutSec: Option<int>,
    retries: Option<int>,
    expectStatus: Option<int>,
    expectStatusIn: Option<seq<int>>,
    expectStatusLt: Option<int>,
    mustContain: Option<string>,
    headers: Option<map<string, string>>)

  datatype AppChecks = AppChecks(app: string, checks: seq<Check>)

  /** One unit of work of a run: a check together with the application it belongs to. */
  datatype Job = Job(app: string, check: Check)

  function Max(a: int, b: int): int { if a < b then b else a }

  /**
   * `toMs(sec, def)`: seconds to milliseconds, never below one second; a missing or
   * non-finite number of seconds falls back to `def`.
   */
  function ToMs(sec: Option<int>, def: int): (ms: int)
    ensures ms >= 1000 && ms % 1000 == 0
    ensures sec.Some? && sec.value >= 1 ==> ms == sec.value * 1000
    ensures sec.Some? && sec.value < 1 ==> ms == 1000
    ensures sec.None? ==> ms == Max(1, def) * 1000
  {
    Max(1, if sec.Some? then sec.value else def) * 1000
  }

  /**
   * The request `runOnce` gives the probe: the check's URL, its method (GET when absent
   * or empty), its timeout with `defaultSec` as fallback, and its headers (none when absent).
   */
  function RequestFor(check: Check, defaultSec: int): (r: Request)
    ensures r.url == check.url && r.timeoutMs >= 1000
    ensures r.httpMethod == (if check.httpMethod.Some? && check.httpMethod.value != "" then check.httpMethod.value else "GET")
    ensures r.httpMethod != ""
    ensures check.timeoutSec.None? ==> r.timeoutMs == Max(1, defaultSec) * 1000
    ensures check.timeoutSec.Some? && check.timeoutSec.value >= 1 ==> r.timeoutMs == check.timeoutSec.value * 1000
    ensures check.timeoutSec.Some? && check.timeoutSec.value < 1 ==> r.timeoutMs == 1000
    ensures r.headers == check.headers.GetOr(map[])
  {
    Request(check.url,
            if check.httpMethod.Some? && check.httpMethod.value != "" then check.httpMethod.value else "GET",
            ToMs(check.timeoutSec, defaultSec),
            check.headers.GetOr(map[]))
  }

  /** The jobs of one application, in the order of its checks. */
  function JobsOf(a: AppChecks): (js: seq<Job>)
    ensures |js| == |a.checks|
    ensures forall j :: 0 <= j < |js| ==> js[j] == Job(a.app, a.checks[j])
  {
    seq(|a.checks|, j requires 0 <= j < |a.checks| => Job(a.app, a.checks[j]))
  }

  /** The number of checks across all applications. */
  function CheckCount(apps: seq<AppChecks>): nat
  {
    if |apps| == 0 then 0 else |apps[0].checks| + CheckCount(apps[1..])
  }

  /** All checks of all applications flattened into one job list, application by application. */
  function Jobs(apps: seq<AppChecks>): (js: seq<Job>)
    ensures |js| == CheckCount(apps)
  {
    if |apps| == 0 then [] else JobsOf(apps[0]) + Jobs(apps[1..])
  }

  /** Every job is a check of one of the applications, under that application's name. */
  lemma {:induction false} JobsSound(apps: seq<AppChecks>, k: nat)
    requires k < |Jobs(apps)|
    ensures exists i :: 0 <= i < |apps| && Jobs(apps)[k].app == apps[i].app && Jobs(apps)[k].check in apps[i].checks
  {
    var first := JobsOf(apps[0]);
    if k < |first| {
      assert Jobs(apps)[k] == first[k];
      assert apps[0].checks[k] in apps[0].checks;
    } else {
      var rest := apps[1..];
      assert Jobs(apps)[k] == Jobs(rest)[k - |first|];
      JobsSound(rest, k - |first|);
      var i :| 0 <= i < |rest| && Jobs(rest)[k - |first|].app == rest[i].app && Jobs(rest)[k - |first|].check in rest[i].checks;
      assert rest[i] == apps[i + 1];
    }
  }

  /** Flattening a concatenation of application lists concatenates their job lists. */
  lemma {:induction false} JobsAppend(xs: seq<AppChecks>, ys: seq<AppChecks>)
    ensures Jobs(xs + ys) == Jobs(xs) + Jobs(ys)
    decreases |xs|
  {
    if |xs| == 0 {
      assert xs + ys == ys;
    } else {
      assert (xs + ys)[0] == xs[0];
      assert (xs + ys)[1..] == xs[1..] + ys;
      JobsAppend(xs[1..], ys);
    }
  }

  /** Check `c` of application `a` sits at position CheckCount(apps[..a]) + c of the job list. */
  lemma JobAt(apps: seq<AppChecks>, a: nat, c: nat)
    requires a < |apps| && c < |apps[a].checks|
    ensures CheckCount(apps[..a]) + c < |Jobs(apps)|
    ensures Jobs(apps)[CheckCount(apps[..a]) + c] == Job(apps[a].app, apps[a].checks[c])
  {
    assert apps == apps[..a] + apps[a..];
    JobsAppend(apps[..a], apps[a..]);
    assert apps[a..][0] == apps[a];
    assert Jobs(apps[a..]) == JobsOf(apps[a]) + Jobs(apps[a..][1..]);
  }

  /** Adding one application appends its jobs. */
  lemma JobsSnoc(apps: seq<AppChecks>, a: nat)
    requires a < |apps|
    ensures Jobs(apps[..a + 1]) == Jobs(apps[..a]) + JobsOf(apps[a])
  {
    assert apps[..a + 1] == apps[..a] + [apps[a]];
    JobsAppend(apps[..a], [apps[a]]);
    assert [apps[a]][1..] == [];
  }

  /** The nested loops that list one job per check, application by application. */
  method CollectJobs(apps: seq<AppChecks>) returns (tasks: seq<Job>)
    ensures tasks == Jobs(apps)
  {
    tasks := [];
    for a := 0 to |apps|
      invariant tasks == Jobs(apps[..a])
    {
      var app := apps[a];
      for c := 0 to |app.checks|
        invariant tasks == Jobs(apps[..a]) + JobsOf(app)[..c]
      {
        assert JobsOf(app)[..c + 1] == JobsOf(app)[..c] + [Job(app.app, app.checks[c])];
        tasks := tasks + [Job(app.app, app.checks[c])];
      }
      assert JobsOf(app)[..|app.checks|] == JobsOf(app);
      JobsSnoc(apps, a);
    }
    assert apps[..|apps|] == apps;
  }
}
