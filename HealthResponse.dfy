/**
  The response writer of the `/health` endpoint: it sets the JSON content type
  and writes the report as an object with the overall status and one
  `{name, status}` element per report entry, in entry order.

  The JSON text itself is not modelled; the object handed to the serializer is.
  Its top-level `status` is the HealthStatus value itself, while each element's
  `status` is that value's `ToString()`.
 */
module HealthResponse {
  import opened Wrappers
  import opened HealthStatus

  /** One entry of the framework's health report: the registration name and the status its check produced. */
  datatype ReportEntry = ReportEntry(key: string, status: Status)

  /** The report the framework passes to the writer: an overall status and the entries in order. */
  datatype HealthReport = HealthReport(status: Status, entries: seq<ReportEntry>)

  /** One element of the `checks` array. */
  datatype CheckItem = CheckItem(name: string, status: string)

  /** The object serialized as the response body. */
  datatype ReportBody = ReportBody(status: Status, checks: seq<CheckItem>)

  /** The part of the HTTP response the writer sets. */
  datatype JsonResponse = JsonResponse(contentType: string, body: ReportBody)

  const JsonContentType: string := "application/json"

  /** The projection of the report entries onto `{name, status}` elements, in order. */
  function ProjectEntries(entries: seq<ReportEntry>): (r: seq<CheckItem>)
    ensures |r| == |entries|
    ensures forall i :: 0 <= i < |entries| ==>
      r[i].name == entries[i].key && r[i].status == StatusName(entries[i].status)
  {
    if entries == [] then []
    else [CheckItem(entries[0].key, StatusName(entries[0].status))] + ProjectEntries(entries[1..])
  }

  /**
    The `/health` writer: JSON content type, the report's own overall status, and
    one element per entry with its key and the name of its status.
   */
  function WriteHealthReport(report: HealthReport): (r: JsonResponse)
    ensures r.contentType == "application/json"
    ensures r.body.status == report.status
    ensures |r.body.checks| == |report.entries|
    ensures forall i :: 0 <= i < |report.entries| ==>
      r.body.checks[i] == CheckItem(report.entries[i].key, StatusName(report.entries[i].status))
  {
    JsonResponse(JsonContentType, ReportBody(report.status, ProjectEntries(report.entries)))
  }

  /** Reads `{name, status}` elements back into report entries; None if a status is not a HealthStatus name. */
  function ReadChecks(items: seq<CheckItem>): (r: Option<seq<ReportEntry>>)
    ensures r.Some? ==> |r.value| == |items|
  {
    if items == [] then Some([])
    else
      match (ParseStatusName(items[0].status), ReadChecks(items[1..]))
      case (Some(s), Some(rest)) => Some([ReportEntry(items[0].name, s)] + rest)
      case _ => None
  }

  /** The projection loses nothing: the entries are recovered from the written elements. */
  lemma {:induction false} ProjectEntriesRoundTrip(entries: seq<ReportEntry>)
    ensures ReadChecks(ProjectEntries(entries)) == Some(entries)
  {
    if entries != [] {
      var items := ProjectEntries(entries);
      assert items[1..] == ProjectEntries(entries[1..]);
      ProjectEntriesRoundTrip(entries[1..]);
      StatusNameRoundTrip(entries[0].status);
      assert entries == [ReportEntry(entries[0].key, entries[0].status)] + entries[1..];
    }
  }

  /** The written body determines the report it was written from. */
  lemma WriteHealthReportInjective(a: HealthReport, b: HealthReport)
    ensures WriteHealthReport(a) == WriteHealthReport(b) <==> a == b
  {
    if WriteHealthReport(a) == WriteHealthReport(b) {
      ProjectEntriesRoundTrip(a.entries);
      ProjectEntriesRoundTrip(b.entries);
    }
  }

  /**
    With every check healthy, the body lists "live", "ready" and "database", each
    with status "Healthy", and carries the overall status unchanged.
   */
  lemma AllHealthyBody()
    ensures WriteHealthReport(HealthReport(Healthy, [
        ReportEntry("live", Healthy), ReportEntry("ready", Healthy), ReportEntry("database", Healthy)]))
      == JsonResponse("application/json", ReportBody(Healthy, [
        CheckItem("live", "Healthy"), CheckItem("ready", "Healthy"), CheckItem("database", "Healthy")]))
  {
  }
}
