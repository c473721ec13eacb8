/** The health endpoints: the system status aggregated over a list of
    service-health records, the single-service lookup and its 404, the
    status filter of the health query and the range check on `hours`. */
module HealthRoutes {
  import opened LogTypes
  import LP = LogProcessor

  /** An endpoint's answer: a body, or the `HTTPException` it raises. */
  datatype Response<T> = Ok(value: T) | HttpError(status: nat, detail: string)

  // ---------------------------------------------------------------------------
  // System health
  // ---------------------------------------------------------------------------

  /** `sum(1 for h in services if h.status == status)`. */
  function CountStatus(hs: seq<LP.ServiceHealth>, status: ServiceStatus): nat {
    if hs == [] then 0
    else CountStatus(hs[..|hs| - 1], status) + (if hs[|hs| - 1].status == status then 1 else 0)
  }

  predicate HasStatus(hs: seq<LP.ServiceHealth>, status: ServiceStatus) {
    exists i :: 0 <= i < |hs| && hs[i].status == status
  }

  lemma {:induction false} CountStatusPositive(hs: seq<LP.ServiceHealth>, status: ServiceStatus)
    ensures CountStatus(hs, status) > 0 <==> HasStatus(hs, status)
    decreases |hs|
  {
    if hs != [] {
      var n := |hs| - 1;
      CountStatusPositive(hs[..n], status);
      if HasStatus(hs[..n], status) {
        var i :| 0 <= i < n && hs[..n][i].status == status;
        assert hs[i].status == status;
      }
      if HasStatus(hs, status) && hs[n].status != status {
        var i :| 0 <= i < |hs| && hs[i].status == status;
        assert hs[..n][i].status == status;
      }
    }
  }

  /** The `overall_status` chain of `get_system_health`. */
  function OverallStatus(hs: seq<LP.ServiceHealth>): ServiceStatus {
    if CountStatus(hs, Critical) > 0 then Critical
    else if CountStatus(hs, Warning) > 0 then Warning
    else Healthy
  }

  /** One critical service makes the system critical; otherwise one warning
      service makes it warning; otherwise it is healthy, whatever the
      services with unknown status. */
  lemma OverallStatusSpec(hs: seq<LP.ServiceHealth>)
    ensures OverallStatus(hs) == Critical <==> HasStatus(hs, Critical)
    ensures OverallStatus(hs) == Warning <==> !HasStatus(hs, Critical) && HasStatus(hs, Warning)
    ensures OverallStatus(hs) == Healthy <==> !HasStatus(hs, Critical) && !HasStatus(hs, Warning)
  {
    CountStatusPositive(hs, Critical);
    CountStatusPositive(hs, Warning);
  }

  datatype SystemHealth = SystemHealth(
    overallStatus: ServiceStatus, services: seq<LP.ServiceHealth>, totalServices: nat,
    healthyServices: nat, warningServices: nat, criticalServices: nat, lastUpdated: int)

  /** `get_system_health` over the processor's list of records. */
  function SystemHealthOf(hs: seq<LP.ServiceHealth>, now: int): SystemHealth {
    SystemHealth(OverallStatus(hs), hs, |hs|, CountStatus(hs, Healthy), CountStatus(hs, Warning),
                 CountStatus(hs, Critical), now)
  }

  /** Every service has exactly one of the four statuses, so the three counts
      the API reports add up to at most the total; the shortfall is the
      number of services whose status is unknown. */
  lemma {:induction false} SystemHealthCounts(hs: seq<LP.ServiceHealth>, now: int)
    ensures var r := SystemHealthOf(hs, now);
      r.healthyServices + r.warningServices + r.criticalServices + CountStatus(hs, Unknown) == r.totalServices
    ensures var r := SystemHealthOf(hs, now);
      r.healthyServices + r.warningServices + r.criticalServices <= r.totalServices
    decreases |hs|
  {
    if hs != [] {
      SystemHealthCounts(hs[..|hs| - 1], now);
    }
  }

  // ---------------------------------------------------------------------------
  // One service
  // ---------------------------------------------------------------------------

  /** `get_service_health`: 404 exactly when the processor's answer is an
      empty (falsy) dictionary. */
  function ServiceHealthRoute(serviceName: string, lookup: map<string, Option<LP.ServiceHealth>>)
    : (r: Response<map<string, Option<LP.ServiceHealth>>>)
    ensures r.HttpError? <==> lookup == map[]
    ensures r.HttpError? ==> r.status == 404
    ensures r.Ok? ==> r.value == lookup
  {
    if |lookup| == 0 then HttpError(404, "Service " + serviceName + " not found") else Ok(lookup)
  }

  /** The processor answers a non-empty name with a one-entry dictionary
      (holding None for an unknown service), so the lookup never fails with
      404 for one; an empty name returns all records and fails only when
      there are none. An empty path segment never reaches the handler. */
  lemma ServiceLookupNotFound(p: LP.LogProcessorService, name: string)
    ensures name != "" ==> ServiceHealthRoute(name, p.GetServiceHealth(Some(name))).Ok?
    ensures name == "" ==> (ServiceHealthRoute(name, p.GetServiceHealth(Some(name))).HttpError?
                            <==> p.serviceHealth == map[])
  {
    var r := p.GetServiceHealth(Some(name));
    if name != "" {
      assert name in r;
    } else if p.serviceHealth != map[] {
      var k :| k in p.serviceHealth;
      assert k in r;
    }
  }

  // ---------------------------------------------------------------------------
  // The health query
  // ---------------------------------------------------------------------------

  datatype HealthQuery = HealthQuery(
    serviceName: Option<string>, statusFilter: Option<seq<string>>,
    startTime: Option<int>, endTime: Option<int>)

  datatype HealthResponse = HealthResponse(
    services: seq<LP.ServiceHealth>, totalCount: nat, queryTimestamp: int, filtersApplied: HealthQuery)

  /** `[h for h in services if h.status in status_filter]`: the filter is a
      list of strings, and a status (a `str` enum) equals the string of its
      value, so any other string matches nothing. */
  function FilterStatus(hs: seq<LP.ServiceHealth>, statuses: seq<string>): seq<LP.ServiceHealth> {
    if hs == [] then []
    else
      var n := |hs| - 1;
      FilterStatus(hs[..n], statuses) + (if StatusValue(hs[n].status) in statuses then [hs[n]] else [])
  }

  /** The filter keeps exactly the records whose status is listed. */
  lemma {:induction false} FilterStatusMembers(hs: seq<LP.ServiceHealth>, statuses: seq<string>)
    ensures forall h :: h in FilterStatus(hs, statuses) <==> h in hs && StatusValue(h.status) in statuses
    decreases |hs|
  {
    if hs != [] {
      var n := |hs| - 1;
      FilterStatusMembers(hs[..n], statuses);
      assert hs == hs[..n] + [hs[n]];
    }
  }

  /** The filter keeps order: filtering a concatenation filters each part. */
  lemma {:induction false} FilterStatusAppend(a: seq<LP.ServiceHealth>, b: seq<LP.ServiceHealth>, statuses: seq<string>)
    ensures FilterStatus(a + b, statuses) == FilterStatus(a, statuses) + FilterStatus(b, statuses)
    decreases |b|
  {
    if b == [] {
      assert a + b == a;
    } else {
      var n := |b| - 1;
      FilterStatusAppend(a, b[..n], statuses);
      assert (a + b)[..|a + b| - 1] == a + b[..n] && (a + b)[|a + b| - 1] == b[n];
      var x := if StatusValue(b[n].status) in statuses then [b[n]] else [];
      assert FilterStatus(a + b, statuses) == FilterStatus(a + b[..n], statuses) + x;
      assert FilterStatus(b, statuses) == FilterStatus(b[..n], statuses) + x;
    }
  }

  /** Filtering twice by the same statuses is filtering once. */
  lemma {:induction false} FilterStatusIdempotent(hs: seq<LP.ServiceHealth>, statuses: seq<string>)
    ensures FilterStatus(FilterStatus(hs, statuses), statuses) == FilterStatus(hs, statuses)
    decreases |hs|
  {
    if hs != [] {
      var n := |hs| - 1;
      var f := FilterStatus(hs[..n], statuses);
      FilterStatusIdempotent(hs[..n], statuses);
      if StatusValue(hs[n].status) in statuses {
        var fh := f + [hs[n]];
        assert fh[..|fh| - 1] == f && fh[|fh| - 1] == hs[n];
        assert FilterStatus(fh, statuses) == FilterStatus(f, statuses) + [hs[n]];
        assert FilterStatus(hs, statuses) == fh;
      } else {
        assert FilterStatus(hs, statuses) == f + [] == f;
      }
    }
  }

  /** Python truthiness of an optional string and of an optional list. */
  predicate GivenName(s: Option<string>) { s.Some? && s.value != "" }
  predicate GivenFilter(s: Option<seq<string>>) { s.Some? && s.value != [] }

  /** `query_health_data`: `single` is the processor's record for the named
      service (None when falsy), `all` its list of every record. */
  function QueryHealthData(q: HealthQuery, single: Option<LP.ServiceHealth>, all: seq<LP.ServiceHealth>, now: int)
    : HealthResponse
  {
    var base := if GivenName(q.serviceName) then (if single.Some? then [single.value] else []) else all;
    var services := if GivenFilter(q.statusFilter) then FilterStatus(base, q.statusFilter.value) else base;
    HealthResponse(services, |services|, now, q)
  }

  /** The query answers with the named record or every record, keeps exactly
      the ones whose status is in a non-empty filter and leaves the list
      unchanged without one; the count is the length of what it returns. */
  lemma QueryHealthDataSpec(q: HealthQuery, single: Option<LP.ServiceHealth>, all: seq<LP.ServiceHealth>, now: int)
    ensures var r := QueryHealthData(q, single, all, now);
      var base := if GivenName(q.serviceName) then (if single.Some? then [single.value] else []) else all;
      && r.totalCount == |r.services|
      && (!GivenFilter(q.statusFilter) ==> r.services == base)
      && (GivenFilter(q.statusFilter) ==>
            forall h :: h in r.services <==> h in base && StatusValue(h.status) in q.statusFilter.value)
      && (GivenName(q.serviceName) ==> |r.services| <= 1)
  {
    var base := if GivenName(q.serviceName) then (if single.Some? then [single.value] else []) else all;
    if GivenFilter(q.statusFilter) {
      FilterStatusMembers(base, q.statusFilter.value);
      if GivenName(q.serviceName) {
        FilterStatusLength(base, q.statusFilter.value);
      }
    }
  }

  const INTERNAL_ERROR := "Internal server error"

  /** What `query_health_data` as written holds in `services_health` before
      the filter: the processor's answer for the named service wrapped in a
      list when it is truthy, or the AttributeError of the call to
      `get_all_services_health`, which the processor does not define. */
  datatype Fetched = Lookups(items: seq<map<string, Option<LP.ServiceHealth>>>) | MissingMethod

  function FetchAsWritten(p: LP.LogProcessorService, q: HealthQuery): Fetched
    reads p
  {
    if GivenName(q.serviceName) then
      var health := p.GetServiceHealth(q.serviceName);
      Lookups(if |health| > 0 then [health] else [])
    else MissingMethod
  }

  /** `query_health_data` as written. A dictionary in the list has no
      `.status`, so a filter raises AttributeError; without one,
      `HealthResponse` refuses a dictionary keyed by a service name as a
      `ServiceHealth`. Every exception becomes the handler's 500. */
  function QueryHealthDataAsWritten(p: LP.LogProcessorService, q: HealthQuery, now: int): Response<HealthResponse>
    reads p
  {
    match FetchAsWritten(p, q)
    case MissingMethod => HttpError(500, INTERNAL_ERROR)
    case Lookups(items) =>
      if items == [] then Ok(HealthResponse([], 0, now, q))
      else HttpError(500, INTERNAL_ERROR)
  }

  /** As written, every health query fails with 500: a named service always
      gets a one-entry dictionary from the processor, and the unnamed query
      calls a method the processor lacks. */
  lemma QueryHealthDataFails(p: LP.LogProcessorService, q: HealthQuery, now: int)
    ensures FetchAsWritten(p, q).Lookups? ==> |FetchAsWritten(p, q).items| == 1
    ensures QueryHealthDataAsWritten(p, q, now) == HttpError(500, INTERNAL_ERROR)
  {
  }

  lemma {:induction false} FilterStatusLength(hs: seq<LP.ServiceHealth>, statuses: seq<string>)
    ensures |FilterStatus(hs, statuses)| <= |hs|
    decreases |hs|
  {
    if hs != [] {
      FilterStatusLength(hs[..|hs| - 1], statuses);
    }
  }

  // ---------------------------------------------------------------------------
  // Metrics and trends
  // ---------------------------------------------------------------------------

  /** The window the two endpoints report, in seconds on the server clock. */
  datatype TimeRange = TimeRange(start: int, end: int, hours: int)

  const MAX_HOURS: int := 168

  /** The check on `hours` shared by `/metrics` and `/trends`, and the window
      `end - timedelta(hours=hours)` .. `end` it then reports. */
  function HoursWindow(hours: int, now: int): (r: Response<TimeRange>) {
    if hours < 1 || hours > MAX_HOURS then HttpError(400, "Hours must be between 1 and 168")
    else Ok(TimeRange(now - hours * 3600, now, hours))
  }

  /** Exactly the hours from 1 to 168 are accepted; an accepted window ends
      now, spans that many hours and so lasts between an hour and a week. */
  lemma HoursWindowSpec(hours: int, now: int)
    ensures HoursWindow(hours, now).Ok? <==> 1 <= hours <= 168
    ensures HoursWindow(hours, now).HttpError? ==> HoursWindow(hours, now).status == 400
    ensures HoursWindow(hours, now).Ok? ==>
      var w := HoursWindow(hours, now).value;
      && w.end == now && w.hours == hours && w.end - w.start == hours * 3600
      && 3600 <= w.end - w.start <= 7 * 24 * 3600
  {
  }
}
