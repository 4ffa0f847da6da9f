/** The REST client (Services/NetworkService.swift): the endpoint table of
    `API`, the urls and bodies the service builds, how a fetch's outcome is
    handed to its completion, and the polling guard over `pollingTimer`.

    The HTTP session is not modelled: a request the service makes is
    appended to `issued`, and a response arrives when the environment calls
    `OnFetchResponse` or `OnResolveResponse` for one of the requests still
    awaiting an answer. A timer firing is a call of `Tick`. A completion
    closure is named by a number, and what it is called with is appended to
    `delivered` or `resolutions`. JSON decoding of a 422 body is the function
    parameter `decodeApiError`. */
module Network {
  import opened Base

  /** One alert as the backend sends it (Models/Alert.swift). */
  datatype Alert = Alert(id: string, title: string, date: string, dangerLevel: string, status: string)

  /** The backend's routes. */
  datatype Api = HealthCheck | GetAlerts | Resolve(id: string)

  datatype HttpMethod = Get | Patch

  /** `API.method`: only the status update is a PATCH. */
  function MethodOf(api: Api): (m: HttpMethod)
    ensures m == Patch <==> api.Resolve?
  {
    match api
    case HealthCheck => Get
    case GetAlerts => Get
    case Resolve(_) => Patch
  }

  const HealthPath: string := "/health"
  const AlertsPath: string := "/api/v1/alerts"
  const StatusSuffix: string := "/status"

  /** `API.path`: the two fixed routes, or the alerts path, the id and
      `/status`, from which the id can be read back. */
  function PathOf(api: Api): (p: string)
    ensures api.HealthCheck? ==> p == HealthPath
    ensures api.GetAlerts? ==> p == AlertsPath
    ensures api.Resolve? ==>
              && |p| == |AlertsPath| + 1 + |api.id| + |StatusSuffix|
              && HasPrefix(p, AlertsPath + "/") && HasSuffix(p, StatusSuffix)
              && p[|AlertsPath| + 1..|p| - |StatusSuffix|] == api.id
  {
    match api
    case HealthCheck => HealthPath
    case GetAlerts => AlertsPath
    case Resolve(id) =>
      var p := AlertsPath + "/" + id + StatusSuffix;
      assert p[..|AlertsPath| + 1] == AlertsPath + "/";
      assert p[|p| - |StatusSuffix|..] == StatusSuffix;
      assert p[|AlertsPath| + 1..|p| - |StatusSuffix|] == id;
      p
  }

  /** `s` ends with `p`. */
  predicate HasSuffix(s: string, p: string)
  {
    |p| <= |s| && s[|s| - |p|..] == p
  }

  /** The reverse reading of the endpoint table: which route a path
      names, if any. */
  function RouteOf(path: string): (r: Option<Api>)
    ensures r.Some? ==> PathOf(r.value) == path
  {
    if path == HealthPath then Some(HealthCheck)
    else if path == AlertsPath then Some(GetAlerts)
    else if |path| >= |AlertsPath| + 1 + |StatusSuffix| && HasPrefix(path, AlertsPath + "/") && HasSuffix(path, StatusSuffix) then
      var id := path[|AlertsPath| + 1..|path| - |StatusSuffix|];
      assert path == path[..|AlertsPath| + 1] + id + path[|path| - |StatusSuffix|..];
      Some(Resolve(id))
    else None
  }

  /** Every route's path reads back as that route, so the table is
      injective: no two routes share a path. */
  lemma PathRoundTrip(api: Api)
    ensures RouteOf(PathOf(api)) == Some(api)
  {
    if api.Resolve? {
      var p := PathOf(api);
      assert p != HealthPath by { assert |p| > |HealthPath|; }
      assert p != AlertsPath by { assert |p| > |AlertsPath|; }
    }
  }

  /** Distinct routes have distinct paths. */
  lemma PathInjective(a: Api, b: Api)
    requires PathOf(a) == PathOf(b)
    ensures a == b
  {
    PathRoundTrip(a);
    PathRoundTrip(b);
  }

  /** `endpoint`, the route both `healthCheckURL` and `fetchAlerts` use. */
  const Endpoint: Api := HealthCheck

  /** `healthCheckURL`, which is also the url `fetchAlerts` builds: an
      `https` url ending in `/health`, never the `getAlerts` url. */
  function HealthCheckUrl(apiKey: string): (u: string)
    ensures HasPrefix(u, "https://") && HasSuffix(u, HealthPath)
    ensures u != "https://" + apiKey + PathOf(GetAlerts)
  {
    var u := "https://" + apiKey + PathOf(Endpoint);
    var b := "https://" + apiKey + AlertsPath;
    assert u[|u| - 1] == 'h' && b[|b| - 1] == 's';
    assert u[..8] == "https://";
    assert u[|u| - |HealthPath|..] == HealthPath;
    u
  }

  /** The health-check url is the `/health` route of the host, not the
      `getAlerts` route, so polling (which requests it) never reaches the
      alerts list. */
  lemma FetchAlertsPollsHealth(apiKey: string)
    ensures HealthCheckUrl(apiKey) == "https://" + apiKey + "/health"
    ensures HealthCheckUrl(apiKey) != "https://" + apiKey + PathOf(GetAlerts)
  {
  }

  /** Foundation's `replacingOccurrences(of:with:)`: every occurrence of
      `target` in `s`, found left to right without overlap, is replaced by
      `replacement`; an empty target changes nothing, and neither does
      replacing the target by itself. */
  function ReplaceAll(s: string, target: string, replacement: string): (r: string)
    ensures target == [] ==> r == s
    ensures replacement == target ==> r == s
    decreases |s|
  {
    assert |s| >= |target| ==> s == s[..|target|] + s[|target|..];
    assert s != [] ==> s == [s[0]] + s[1..];
    if target == [] || |s| < |target| then s
    else if s[..|target|] == target then replacement + ReplaceAll(s[|target|..], target, replacement)
    else [s[0]] + ReplaceAll(s[1..], target, replacement)
  }

  /** Replacing a target that does not occur changes nothing. */
  lemma {:induction false} ReplaceAbsent(s: string, target: string, replacement: string)
    requires !Contains(s, target)
    ensures ReplaceAll(s, target, replacement) == s
    decreases |s|
  {
    if target != [] && |s| >= |target| {
      assert !OccursAt(s, target, 0);
      assert !Contains(s[1..], target) by {
        forall i: nat | i <= |s[1..]| ensures !OccursAt(s[1..], target, i) {
          assert !OccursAt(s, target, i + 1);
          if i + |target| <= |s[1..]| {
            assert s[1..][i..i + |target|] == s[i + 1..i + 1 + |target|];
          }
        }
      }
      ReplaceAbsent(s[1..], target, replacement);
    }
  }

  /** The placeholder `resolveAlert` substitutes. */
  const Placeholder: string := "{alert_id}"

  /** The url `resolveAlert` builds: no scheme, and the placeholder
      replaced in the already substituted path. That replacement is inert
      unless the id itself contains `{alert_id}`, so the url is the api
      key, the alerts path, the id and `/status`. */
  function ResolveUrl(apiKey: string, id: string): (u: string)
    ensures HasPrefix(u, apiKey)
    ensures !Contains(id, Placeholder) ==> u == apiKey + "/api/v1/alerts/" + id + "/status"
  {
    ResolvePathInert(id);
    var u := apiKey + ReplaceAll(PathOf(Resolve(id)), Placeholder, id);
    assert u[..|apiKey|] == apiKey;
    u
  }

  /** The resolve path is left alone by the placeholder replacement when
      the id does not contain the placeholder. */
  lemma ResolvePathInert(id: string)
    ensures !Contains(id, Placeholder) ==> ReplaceAll(PathOf(Resolve(id)), Placeholder, id) == PathOf(Resolve(id))
  {
    if !Contains(id, Placeholder) {
      PlaceholderOnlyFromId(id);
      ReplaceAbsent(PathOf(Resolve(id)), Placeholder, id);
    }
  }

  /** A slice lying within the middle part of a concatenation is a slice
      of that part. */
  lemma SliceOfMiddle(pre: string, mid: string, post: string, j: nat, len: nat)
    requires j + len <= |mid|
    ensures (pre + mid + post)[|pre| + j..|pre| + j + len] == mid[j..j + len]
  {
    var whole := pre + mid + post;
    var ws, ms := whole[|pre| + j..|pre| + j + len], mid[j..j + len];
    forall m | 0 <= m < len ensures ws[m] == ms[m] {
      assert whole[|pre| + j + m] == mid[j + m];
    }
    assert ws == ms;
  }

  /** The resolve path holds the placeholder only where the id does: the
      parts around the id hold no `{` and no `}`. */
  lemma PlaceholderOnlyFromId(id: string)
    requires !Contains(id, Placeholder)
    ensures !Contains(PathOf(Resolve(id)), Placeholder)
  {
    var pre := AlertsPath + "/";
    var p := PathOf(Resolve(id));
    assert p == pre + id + StatusSuffix;
    forall i: nat | i <= |p| ensures !OccursAt(p, Placeholder, i) {
      if i + 10 <= |p| {
        assert p[i..i + 10][0] == p[i] && p[i..i + 10][9] == p[i + 9];
        if i < |pre| {
          assert p[i] == pre[i];
        } else if i + 10 <= |pre| + |id| {
          var j := i - |pre|;
          SliceOfMiddle(pre, id, StatusSuffix, j, 10);
          assert !OccursAt(id, Placeholder, j);
        } else {
          assert p[i + 9] == StatusSuffix[i + 9 - |pre| - |id|];
        }
      }
    }
  }

  /** The body of the status update, `["status": "resolved"]`. */
  const ResolveBody: map<string, string> := map["status" := "resolved"]

  /** One request the session is asked to send. */
  datatype HttpRequest = HttpRequest(url: string, verb: HttpMethod, body: map<string, string>)

  /** The request `resolveAlert(id:)` sends. */
  function ResolveRequest(apiKey: string, id: string): (req: HttpRequest)
    ensures req.verb == MethodOf(Resolve(id)) == Patch
    ensures req.body == ResolveBody && req.body["status"] == "resolved"
  {
    HttpRequest(ResolveUrl(apiKey, id), MethodOf(Resolve(id)), ResolveBody)
  }

  /** One entry of a 422 body's `detail` list. */
  datatype ApiErrorDetail = ApiErrorDetail(loc: seq<string>, msg: string, kind: string)

  /** The 422 body, `{detail: [...]}`. */
  datatype ApiError = ApiError(detail: seq<ApiErrorDetail>)

  /** The decoded answer to a fetch: the result of decoding `[Alert]`,
      the status code if a response arrived, and the raw body if any. */
  datatype FetchResponse = FetchResponse(result: Result<seq<Alert>, Error>, statusCode: Option<int>, data: Option<string>)

  /** What the failure branch logs about the body. */
  datatype Diagnostic = NoDiagnostic | Detail(msg: string) | UndecodableBody

  /** The text logged when a 422 body has an empty `detail` list. */
  const NoContent: string := "내용 없음"

  /** The 422 diagnostic: only a failed fetch with a body and status 422
      is examined; the message is the first detail's, or the sentinel. */
  function Diagnose(resp: FetchResponse, decodeApiError: string -> Option<ApiError>): (d: Diagnostic)
    ensures d != NoDiagnostic <==> resp.result.Failure? && resp.data.Some? && resp.statusCode == Some(422)
    ensures d == UndecodableBody <==>
              resp.result.Failure? && resp.data.Some? && resp.statusCode == Some(422) &&
              decodeApiError(resp.data.value).None?
    ensures d.Detail? ==>
              (&& decodeApiError(resp.data.value).Some?
               && var details := decodeApiError(resp.data.value).value.detail;
                  d.msg == if details == [] then NoContent else details[0].msg)
  {
    if resp.result.Failure? && resp.data.Some? && resp.statusCode == Some(422) then
      match decodeApiError(resp.data.value)
      case Some(apiError) => Detail(if apiError.detail == [] then NoContent else apiError.detail[0].msg)
      case None => UndecodableBody
    else NoDiagnostic
  }

  /** The value `fetchAlerts` hands its completion: the decoded list or
      the original error, unchanged. */
  function FetchCompletion(resp: FetchResponse): (r: Result<seq<Alert>, Error>)
    ensures r == resp.result
  {
    match resp.result
    case Success(alerts) => Success(alerts)
    case Failure(error) => Failure(error)
  }

  /** Whatever the 422 body holds and however it decodes, a fetch that
      produced a diagnostic hands its completion the original error: the
      completion does not depend on the diagnostic. */
  lemma FetchCompletionPassesThrough(resp: FetchResponse, decodeApiError: string -> Option<ApiError>)
    ensures Diagnose(resp, decodeApiError) != NoDiagnostic ==> FetchCompletion(resp) == Failure(resp.result.error)
  {
  }

  /** A live polling subscription: the timer's number and the completion
      every fetch it triggers reports to. */
  datatype PollingTimer = PollingTimer(serial: nat, subscriber: nat)

  class NetworkService {
    /** The server host the urls are built from. */
    const apiKey: string
    /** `pollingTimer`: the live timer, if any. */
    var pollingTimer: Option<PollingTimer>
    /** Every timer the service has armed, in order. */
    var timers: seq<PollingTimer>
    /** Every timer the service has cancelled, in order. */
    var stopped: seq<PollingTimer>
    /** Every request handed to the session, in order. */
    var issued: seq<HttpRequest>
    /** The completions of the fetches still awaiting a response. */
    var pendingFetches: seq<nat>
    /** The completion and alert id of each status update still awaiting a
        response. */
    var pendingResolves: seq<(nat, string)>
    /** Every call of a fetch completion: which completion, with what. */
    var delivered: seq<(nat, Result<seq<Alert>, Error>)>
    /** Every call of a resolve completion: which completion, with what. */
    var resolutions: seq<(nat, Result<(), Error>)>

    /** At most one timer is live: every armed timer other than the current
        one has been cancelled, and the current one has not. */
    ghost predicate Valid()
      reads this
    {
      && (forall k :: 0 <= k < |timers| ==> timers[k].serial == k)
      && (pollingTimer.Some? ==>
            |timers| > 0 && pollingTimer.value == timers[|timers| - 1] && pollingTimer.value !in stopped)
      && (forall k :: 0 <= k < |timers| ==> timers[k] in stopped || pollingTimer == Some(timers[k]))
      && (forall t :: t in stopped ==> t.serial < |timers|)
    }

    constructor (apiKey: string)
      ensures Valid()
      ensures this.apiKey == apiKey && pollingTimer == None
      ensures timers == [] && stopped == [] && issued == []
      ensures pendingFetches == [] && pendingResolves == [] && delivered == [] && resolutions == []
    {
      this.apiKey := apiKey;
      pollingTimer := None;
      timers, stopped, issued := [], [], [];
      pendingFetches, pendingResolves, delivered, resolutions := [], [], [], [];
    }

    /** `performHealthCheck()`: a GET of `healthCheckURL`; its response is
        only logged. */
    method PerformHealthCheck()
      modifies this
      ensures issued == old(issued) + [HttpRequest(HealthCheckUrl(apiKey), MethodOf(HealthCheck), map[])]
      ensures pollingTimer == old(pollingTimer) && timers == old(timers) && stopped == old(stopped)
      ensures pendingFetches == old(pendingFetches) && pendingResolves == old(pendingResolves)
      ensures delivered == old(delivered) && resolutions == old(resolutions)
    {
      issued := issued + [HttpRequest(HealthCheckUrl(apiKey), MethodOf(HealthCheck), map[])];
    }

    /** `startAlertPolling(completion:)`: arms a timer only when none is
        live. */
    method StartAlertPolling(subscriber: nat)
      requires Valid()
      modifies this
      ensures Valid()
      ensures old(pollingTimer).Some? ==> pollingTimer == old(pollingTimer) && timers == old(timers)
      ensures old(pollingTimer).None? ==>
                var t := PollingTimer(|old(timers)|, subscriber);
                pollingTimer == Some(t) && timers == old(timers) + [t]
      ensures stopped == old(stopped) && issued == old(issued)
      ensures pendingFetches == old(pendingFetches) && pendingResolves == old(pendingResolves)
      ensures delivered == old(delivered) && resolutions == old(resolutions)
    {
      if pollingTimer.Some? {
        return;
      }
      var t := PollingTimer(|timers|, subscriber);
      timers := timers + [t];
      pollingTimer := Some(t);
    }

    /** `stopAlertPolling()`: cancels the live timer, if any, and clears
        it; calling it again changes nothing. Fetches already sent stay
        pending. */
    method StopAlertPolling()
      requires Valid()
      modifies this
      ensures Valid()
      ensures pollingTimer == None
      ensures stopped == old(stopped) + (if old(pollingTimer).Some? then [old(pollingTimer).value] else [])
      ensures timers == old(timers) && issued == old(issued)
      ensures pendingFetches == old(pendingFetches) && pendingResolves == old(pendingResolves)
      ensures delivered == old(delivered) && resolutions == old(resolutions)
    {
      if pollingTimer.Some? {
        stopped := stopped + [pollingTimer.value];
      }
      pollingTimer := None;
    }

    /** `fetchAlerts(completion:)`: a GET of `"https://" + apiKey +
        endpoint.path`, that is of the health-check url, whose answer goes
        to `subscriber`. */
    method FetchAlerts(subscriber: nat)
      modifies this
      ensures issued == old(issued) + [HttpRequest(HealthCheckUrl(apiKey), Get, map[])]
      ensures pendingFetches == old(pendingFetches) + [subscriber]
      ensures pollingTimer == old(pollingTimer) && timers == old(timers) && stopped == old(stopped)
      ensures pendingResolves == old(pendingResolves)
      ensures delivered == old(delivered) && resolutions == old(resolutions)
    {
      var alertsUrl := "https://" + apiKey + PathOf(Endpoint);
      issued := issued + [HttpRequest(alertsUrl, Get, map[])];
      pendingFetches := pendingFetches + [subscriber];
    }

    /** One firing of the polling timer: the live timer fetches for its
        subscriber; once stopped, no timer fires and nothing is sent. */
    method Tick()
      requires Valid()
      modifies this
      ensures Valid()
      ensures old(pollingTimer).None? ==> issued == old(issued) && pendingFetches == old(pendingFetches)
      ensures old(pollingTimer).Some? ==>
                issued == old(issued) + [HttpRequest(HealthCheckUrl(apiKey), Get, map[])] &&
                pendingFetches == old(pendingFetches) + [old(pollingTimer).value.subscriber]
      ensures pollingTimer == old(pollingTimer) && timers == old(timers) && stopped == old(stopped)
      ensures pendingResolves == old(pendingResolves)
      ensures delivered == old(delivered) && resolutions == old(resolutions)
    {
      if pollingTimer.Some? {
        FetchAlerts(pollingTimer.value.subscriber);
      }
    }

    /** The response to pending fetch `k` arrives: its completion is called
        with the list or the original error, whether or not polling has
        stopped meanwhile. */
    method OnFetchResponse(k: nat, resp: FetchResponse)
      requires k < |pendingFetches|
      modifies this
      ensures delivered == old(delivered) + [(old(pendingFetches)[k], FetchCompletion(resp))]
      ensures pendingFetches == old(pendingFetches)[..k] + old(pendingFetches)[k + 1..]
      ensures pollingTimer == old(pollingTimer) && timers == old(timers) && stopped == old(stopped)
      ensures issued == old(issued) && pendingResolves == old(pendingResolves) && resolutions == old(resolutions)
    {
      var subscriber := pendingFetches[k];
      delivered := delivered + [(subscriber, FetchCompletion(resp))];
      pendingFetches := pendingFetches[..k] + pendingFetches[k + 1..];
    }

    /** `resolveAlert(id:completion:)`: a PATCH of the status body to the
        resolve url. */
    method ResolveAlert(id: string, subscriber: nat)
      modifies this
      ensures issued == old(issued) + [ResolveRequest(apiKey, id)]
      ensures pendingResolves == old(pendingResolves) + [(subscriber, id)]
      ensures pollingTimer == old(pollingTimer) && timers == old(timers) && stopped == old(stopped)
      ensures pendingFetches == old(pendingFetches)
      ensures delivered == old(delivered) && resolutions == old(resolutions)
    {
      var path := PathOf(Resolve(id));
      var urlString := apiKey + ReplaceAll(path, Placeholder, id);
      issued := issued + [HttpRequest(urlString, MethodOf(Resolve(id)), ResolveBody)];
      pendingResolves := pendingResolves + [(subscriber, id)];
    }

    /** The response to pending status update `k` arrives: its completion
        is called with success or the original error; no alert is changed
        locally. */
    method OnResolveResponse(k: nat, result: Result<(), Error>)
      requires k < |pendingResolves|
      modifies this
      ensures resolutions == old(resolutions) + [(old(pendingResolves)[k].0, result)]
      ensures pendingResolves == old(pendingResolves)[..k] + old(pendingResolves)[k + 1..]
      ensures pollingTimer == old(pollingTimer) && timers == old(timers) && stopped == old(stopped)
      ensures issued == old(issued) && pendingFetches == old(pendingFetches) && delivered == old(delivered)
    {
      var subscriber := pendingResolves[k].0;
      resolutions := resolutions + [(subscriber, result)];
      pendingResolves := pendingResolves[..k] + pendingResolves[k + 1..];
    }
  }
}
