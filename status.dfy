/**
 * The dashboard's status endpoint: it finds the configuration (a GitHub contents API URL,
 * a public URL, or the bundled file), runs every check and returns the results with counts.
 */
module StatusEndpoint {
  import opened Wrappers
  import opened Text
  import opened Config
  import opened Probe
  import opened DashboardCheck

  /** The response body: when it was made, how many results, how many passed and failed, and the results. */
  datatype Summary = Summary(timestamp: string, total: nat, ok: nat, ko: nat, results: seq<CheckResult>)

  /** The passing results, in order. */
  function OkResults(results: seq<CheckResult>): seq<CheckResult>
  {
    if |results| == 0 then []
    else (if results[0].ok then [results[0]] else []) + OkResults(results[1..])
  }

  /** The failing results, in order. */
  function KoResults(results: seq<CheckResult>): seq<CheckResult>
  {
    if |results| == 0 then []
    else (if results[0].ok then [] else [results[0]]) + KoResults(results[1..])
  }

  /**
   * The summary the endpoint returns: `total` counts every result, `ok` the passing ones and
   * `ko` the failing ones, so that every result is counted exactly once.
   */
  function Summarize(now: string, results: seq<CheckResult>): (s: Summary)
    ensures s.timestamp == now && s.results == results && s.total == |results|
    ensures s.ok == |OkResults(results)| && s.ko == |KoResults(results)|
    ensures s.ok + s.ko == s.total
    ensures s.ko == 0 <==> forall i :: 0 <= i < |results| ==> results[i].ok
  {
    OkKoPartition(results);
    NoKoIffAllOk(results);
    Summary(now, |results|, |OkResults(results)|, |KoResults(results)|, results)
  }

  /** The filters keep exactly the passing, respectively failing, results, each as often as it occurs. */
  lemma {:induction false} FiltersKeep(results: seq<CheckResult>)
    ensures forall r :: multiset(OkResults(results))[r] == if r.ok then multiset(results)[r] else 0
    ensures forall r :: multiset(KoResults(results))[r] == if r.ok then 0 else multiset(results)[r]
  {
    if |results| > 0 {
      FiltersKeep(results[1..]);
      assert results == [results[0]] + results[1..];
    }
  }

  /** Every result is either passing or failing, never both: the two filters split the results. */
  lemma {:induction false} OkKoPartition(results: seq<CheckResult>)
    ensures multiset(OkResults(results)) + multiset(KoResults(results)) == multiset(results)
    ensures |OkResults(results)| + |KoResults(results)| == |results|
  {
    if |results| > 0 {
      OkKoPartition(results[1..]);
      assert results == [results[0]] + results[1..];
    }
  }

  /** Nothing fails exactly when every result passed. */
  lemma {:induction false} NoKoIffAllOk(results: seq<CheckResult>)
    ensures |KoResults(results)| == 0 <==> forall i :: 0 <= i < |results| ==> results[i].ok
  {
    if |results| > 0 {
      NoKoIffAllOk(results[1..]);
      assert forall i :: 1 <= i < |results| ==> results[i] == results[1..][i - 1];
    }
  }

  /**
   * A parsed JSON value, as far as the loader tells values apart: `Null` is any falsy value,
   * `Array` an array of applications, `Object` any other truthy value, with its `content`
   * field when that is a string (the loader treats an empty one as absent).
   */
  datatype Json = Null | Array(apps: seq<AppChecks>) | Object(content: Option<string>)

  /** The remote request: `Failed` when the fetch threw, the status was not ok, or the body was not JSON. */
  datatype Fetched = Failed | Received(json: Json)

  /** Which way the configuration URL was read. */
  datatype Branch = NoRemote | GitHubApi | PublicUrl

  const GitHubApiPrefix := "https://api.github.com/"

  /** Which way a configuration URL is read: none when it is unset or empty. */
  function BranchOf(configUrl: Option<string>): Branch
  {
    if !Truthy(configUrl) then NoRemote
    else if StartsWith(configUrl.value, GitHubApiPrefix) then GitHubApi
    else PublicUrl
  }

  /**
   * The configuration the handler runs. `fetched` is what the request to `configUrl` gave;
   * `decode` is base64 decoding followed by `JSON.parse` (`None` when either throws);
   * `local` is the bundled configuration file (`None` when it cannot be imported). A remote
   * value is used when it is truthy; otherwise the bundled file, or no applications.
   */
  function LoadedApps(configUrl: Option<string>, fetched: Fetched, decode: string -> Option<Json>,
                      local: Option<seq<AppChecks>>): (apps: Json)
    ensures apps != Null
    ensures BranchOf(configUrl) == NoRemote || fetched.Failed? ==> apps == Array(local.GetOr([]))
    ensures BranchOf(configUrl) == PublicUrl && fetched.Received? ==>
      apps == (if fetched.json == Null then Array(local.GetOr([])) else fetched.json)
    ensures BranchOf(configUrl) == GitHubApi && fetched.Received? && fetched.json.Array? ==> apps == fetched.json
    ensures BranchOf(configUrl) == GitHubApi && fetched.Received? && !fetched.json.Array? && !(fetched.json.Object? && Truthy(fetched.json.content)) ==>
      apps == Array(local.GetOr([]))
    ensures BranchOf(configUrl) == GitHubApi && fetched.Received? && fetched.json.Object? && Truthy(fetched.json.content) ==>
      var decoded := decode(fetched.json.content.value);
      apps == (if decoded.None? || decoded.value == Null then Array(local.GetOr([])) else decoded.value)
  {
    var remote :=
      match fetched
      case Failed => Null
      case Received(json) =>
        match BranchOf(configUrl)
        case NoRemote => Null
        case PublicUrl => json
        case GitHubApi =>
          if json.Object? && Truthy(json.content) then decode(json.content.value).GetOr(Null)
          else if json.Array? then json
          else Null;
    if remote == Null then Array(local.GetOr([])) else remote
  }

  /**
   * The configuration loader: the remote branch in a try block whose errors leave `apps`
   * unset, then the fallback to the bundled file.
   */
  method LoadApps(configUrl: Option<string>, fetched: Fetched, decode: string -> Option<Json>, local: Option<seq<AppChecks>>)
    returns (apps: Json, branch: Branch)
    ensures branch == BranchOf(configUrl)
    ensures apps == LoadedApps(configUrl, fetched, decode, local)
  {
    apps := Null;
    branch := NoRemote;
    if Truthy(configUrl) {
      if StartsWith(configUrl.value, GitHubApiPrefix) {
        branch := GitHubApi;
        if fetched.Received? {
          var json := fetched.json;
          if json.Object? && Truthy(json.content) {
            var decoded := decode(json.content.value);
            if decoded.Some? {
              apps := decoded.value;
            }
          } else {
            apps := if json.Array? then json else Null;
          }
        }
      } else {
        branch := PublicUrl;
        if fetched.Received? {
          apps := fetched.json;
        }
      }
    }
    if apps == Null {
      apps := Array(local.GetOr([]));
    }
  }

  /** The counts depend only on which results there are, not on their order. */
  lemma CountsIgnoreOrder(a: seq<CheckResult>, b: seq<CheckResult>)
    requires multiset(a) == multiset(b)
    ensures |OkResults(a)| == |OkResults(b)| && |KoResults(a)| == |KoResults(b)|
  {
    FiltersKeep(a);
    FiltersKeep(b);
    var okA, okB := multiset(OkResults(a)), multiset(OkResults(b));
    var koA, koB := multiset(KoResults(a)), multiset(KoResults(b));
    forall r
      ensures okA[r] == okB[r] && koA[r] == koB[r]
    {
    }
    assert okA == okB;
    assert koA == koB;
    assert |OkResults(a)| == |okA|;
    assert |KoResults(a)| == |koA|;
  }

  /**
   * The handler: loads the configuration, runs every check and summarises. A configuration
   * that is not an array cannot be iterated, so the request fails (`None`).
   */
  method Handle(now: string, configUrl: Option<string>, fetched: Fetched, decode: string -> Option<Json>,
                local: Option<seq<AppChecks>>, probe: (nat, nat) -> Outcome)
    returns (apps: Json, response: Option<Summary>)
    ensures apps == LoadedApps(configUrl, fetched, decode, local)
    ensures response.Some? <==> apps.Array?
    ensures response.Some? ==>
      var expected := Expected(Jobs(apps.apps), probe);
      && response.value == Summarize(now, response.value.results)
      && multiset(response.value.results) == multiset(expected)
      && response.value.total == |expected|
      && response.value.ok == |OkResults(expected)|
      && response.value.ko == |KoResults(expected)|
  {
    var branch;
    apps, branch := LoadApps(configUrl, fetched, decode, local);
    if !apps.Array? {
      return apps, None;
    }
    var results := CheckAll(apps.apps, probe);
    CountsIgnoreOrder(results, Expected(Jobs(apps.apps), probe));
    response := Some(Summarize(now, results));
  }
}
