/**
  The status a health check reports (the framework's HealthStatus enum) and its
  string form, as `ToString()` gives it when the `/health` writer builds its
  per-check entries.
 */
module HealthStatus {
  import opened Wrappers

  /** The three members of HealthStatus, in the framework's declaration order. */
  datatype Status = Unhealthy | Degraded | Healthy

  /** The name `ToString()` gives each member: each of the three names belongs to exactly one member. */
  function StatusName(s: Status): (r: string)
    ensures r == "Unhealthy" <==> s == Unhealthy
    ensures r == "Degraded" <==> s == Degraded
    ensures r == "Healthy" <==> s == Healthy
  {
    match s
    case Unhealthy => "Unhealthy"
    case Degraded => "Degraded"
    case Healthy => "Healthy"
  }

  /** Reads a member back from its name; the partner of StatusName. */
  function ParseStatusName(name: string): (r: Option<Status>)
    ensures r.Some? ==> StatusName(r.value) == name
  {
    if name == "Unhealthy" then Some(Unhealthy)
    else if name == "Degraded" then Some(Degraded)
    else if name == "Healthy" then Some(Healthy)
    else None
  }

  /** Every status is recovered from its name, so distinct statuses have distinct names. */
  lemma StatusNameRoundTrip(s: Status)
    ensures ParseStatusName(StatusName(s)) == Some(s)
  {
  }

  lemma StatusNameInjective(s: Status, t: Status)
    ensures StatusName(s) == StatusName(t) <==> s == t
  {
    StatusNameRoundTrip(s);
    StatusNameRoundTrip(t);
  }
}
