# Health checks of the boilerplate API, modelled in Dafny

This project models the health-check layer of the service: the three checks
it registers (liveness, readiness, database reachability), the names they are
registered under, the table of health endpoints with the name predicate of
each, and the response writer of `/health`.

- `Wrappers.dfy`: the `Option` type.
- `HealthStatus.dfy`: the HealthStatus enum, the name `ToString()` gives each
  member, and the reading back of a name.
- `HealthChecks.dfy`: `LivenessCheckHealth` (a function: the check has no
  state); the class `ReadinessHealthCheck` with its `isReady` field, setter and
  check; the class `Logger`, the injected logger seen as the trace of records
  written to it; the class `DbConnectionHealthCheck`, whose check takes the
  probe's outcome (`Connected(b)` or `Threw(ex)`) as input.
- `HealthCheckSetup.dfy`: the registration table, the route table as written,
  the selection a name predicate makes among the registrations, and the route
  table as mapped with the liveness entry moved to `/health/live`, as line 74
  of the source says.
- `HealthResponse.dfy`: the `/health` writer, as the structured object handed
  to the serializer, with the reading back of its `checks` array.

The framework's HealthCheckContext and CancellationToken become the value
`CheckContext`; asynchronous calls are plain calls. The database probe and the
logger are the only I/O; the first is an input value, the second an output
trace. Evaluating the readiness check has no `modifies` clause, so it cannot
change the flag.

Points where the code does something one might not expect:
- the top-level `status` of the `/health` body (line 107) is the HealthStatus
  value itself, not its string form; only the per-check `status` (line 108) is
  `ToString()`. The model keeps the first as a `Status` and the second as a
  string. How the serializer encodes the enum is not modelled.
- `/health/ready` is mapped twice and `/health/live` not at all (see Findings).
- no code here computes the overall status or the HTTP status code, and no code
  here rejects duplicate names; the framework does these.

## Model

| member | source | states |
|---|---|---|
| HealthChecks.LivenessCheckHealth | src/MHemmer.Boilerplate.Api/Setup/HealthCheckSetup.cs:15-18 | the liveness check is Healthy for every context and token |
| HealthChecks.ReadinessHealthCheck.constructor | src/MHemmer.Boilerplate.Api/Setup/HealthCheckSetup.cs:27 | a new readiness check has its flag set |
| HealthChecks.ReadinessHealthCheck.IsReady | src/MHemmer.Boilerplate.Api/Setup/HealthCheckSetup.cs:28 | the getter gives the current value of the flag |
| HealthChecks.ReadinessHealthCheck.SetIsReady | src/MHemmer.Boilerplate.Api/Setup/HealthCheckSetup.cs:28 | the setter makes the flag the given value and changes nothing else |
| HealthChecks.ReadinessHealthCheck.CheckHealth | src/MHemmer.Boilerplate.Api/Setup/HealthCheckSetup.cs:29-35 | Healthy iff the flag is set, Unhealthy iff it is not; the flag is not changed |
| HealthChecks.ReadinessToggle | src/MHemmer.Boilerplate.Api/Setup/HealthCheckSetup.cs:27-34 | a fresh check is Healthy; after setting false it is Unhealthy; after setting true again it is Healthy |
| HealthChecks.Logger.LogCritical | src/MHemmer.Boilerplate.Api/Setup/HealthCheckSetup.cs:65 | logging appends exactly one Critical record with the message and the exception |
| HealthChecks.ConnectionStatus | src/MHemmer.Boilerplate.Api/Setup/HealthCheckSetup.cs:57-61 | a probe answer of true is Healthy, any other answer Unhealthy |
| HealthChecks.DbConnectionHealthCheck.constructor | src/MHemmer.Boilerplate.Api/Setup/HealthCheckSetup.cs:46-50 | the check keeps the logger it is given |
| HealthChecks.DbConnectionHealthCheck.CheckHealth | src/MHemmer.Boilerplate.Api/Setup/HealthCheckSetup.cs:52-68 | Healthy iff the probe answers true; a probe that throws gives Unhealthy, no exception escapes, and exactly one Critical record "Unable to reach database!" with the exception is appended; an answering probe leaves the log unchanged |
| HealthChecks.DbCheckOnFreshLogger | src/MHemmer.Boilerplate.Api/Setup/HealthCheckSetup.cs:52-68 | run against an empty log, the database check leaves no record when the probe answers and exactly the one critical record when it throws |
| HealthStatus.StatusName | src/MHemmer.Boilerplate.Api/Setup/HealthCheckSetup.cs:108 | `ToString()` of a status is its member name, and each of "Unhealthy", "Degraded", "Healthy" is the name of exactly one member |
| HealthStatus.StatusNameRoundTrip | src/MHemmer.Boilerplate.Api/Setup/HealthCheckSetup.cs:108 | the string form of every status reads back as that status |
| HealthStatus.StatusNameInjective | src/MHemmer.Boilerplate.Api/Setup/HealthCheckSetup.cs:108 | two statuses have the same string form iff they are equal |
| HealthCheckSetup.RegisteredNames | src/MHemmer.Boilerplate.Api/Setup/HealthCheckSetup.cs:89-92 | the names of the constant table `Registrations` (one entry per `AddCheck` call) are exactly "live", "ready", "database" in that order, pairwise distinct |
| HealthCheckSetup.Matches | src/MHemmer.Boilerplate.Api/Setup/HealthCheckSetup.cs:101-123 | the `/health` predicate accepts every name; a name-equality predicate accepts a name iff it is the given one |
| HealthCheckSetup.Select | src/MHemmer.Boilerplate.Api/Setup/HealthCheckSetup.cs:99-124 | a predicate selects at most the registered checks, and a registration is selected iff it is registered and its name satisfies the predicate; that each is kept once and in order is stated by SelectSingle and SelectAppend |
| HealthCheckSetup.SelectSingle | src/MHemmer.Boilerplate.Api/Setup/HealthCheckSetup.cs:99-124 | one registration is selected exactly when its name satisfies the predicate |
| HealthCheckSetup.SelectAppend | src/MHemmer.Boilerplate.Api/Setup/HealthCheckSetup.cs:99-124 | selecting from a concatenation is the concatenation of the selections, so matching registrations are kept once each and in registration order |
| HealthCheckSetup.SelectAnyName | src/MHemmer.Boilerplate.Api/Setup/HealthCheckSetup.cs:101 | the always-true predicate of `/health` selects every registration, in order |
| HealthCheckSetup.SelectByUniqueName | src/MHemmer.Boilerplate.Api/Setup/HealthCheckSetup.cs:115-123 | among distinctly named registrations a name-equality predicate selects exactly the registration with that name |
| HealthCheckSetup.RouteSelections | src/MHemmer.Boilerplate.Api/Setup/HealthCheckSetup.cs:99-124 | in the constant table `Routes` (one entry per `MapHealthChecks` call), `/health` selects all three checks; the two `/health/ready` entries select only "live" and only "ready"; `/health/database` selects only "database" |
| HealthCheckSetup.RoutesAsWrittenCollide | src/MHemmer.Boilerplate.Api/Setup/HealthCheckSetup.cs:113-120 | the route table maps `/health/ready` twice and maps no `/health/live` |
| HealthCheckSetup.IntendedRoutesSelect | src/MHemmer.Boilerplate.Api/Setup/HealthCheckSetup.cs:71-77 | the table as mapped, with the liveness entry moved to `/health/live` as line 74 says and `/health/database` kept as mapped, maps each path once, with `/health/live` running only liveness and `/health/ready` only readiness |
| HealthResponse.ProjectEntries | src/MHemmer.Boilerplate.Api/Setup/HealthCheckSetup.cs:108 | one element per report entry, in entry order, whose name is the entry key and whose status is the string form of the entry status |
| HealthResponse.WriteHealthReport | src/MHemmer.Boilerplate.Api/Setup/HealthCheckSetup.cs:102-111 | content type `application/json`, the report's overall status unchanged, and the `checks` array as the per-entry projection |
| HealthResponse.ProjectEntriesRoundTrip | src/MHemmer.Boilerplate.Api/Setup/HealthCheckSetup.cs:108 | the report entries are recovered from the written `checks` array |
| HealthResponse.WriteHealthReportInjective | src/MHemmer.Boilerplate.Api/Setup/HealthCheckSetup.cs:105-109 | two reports give the same response iff they are the same report |
| HealthResponse.AllHealthyBody | src/MHemmer.Boilerplate.Api/Setup/HealthCheckSetup.cs:102-111 | with all three checks healthy the body lists "live", "ready", "database", each "Healthy" |

## Left out

- The overall status of a report and its mapping to HTTP 200/503: the framework's health-check service and middleware compute them, not this code; the writer takes the overall status from the report.
- Running the selected checks and collecting their entries: framework behaviour; the model states only which registrations each predicate selects.
- Rejection of duplicate check names at registration: framework behaviour, not in this code.
- Which of the two `/health/ready` mappings takes effect: framework routing; the table is modelled as written.
- The plain-text responses of the endpoints without a writer: the framework's default writer.
- The dependency-injection lifetimes (lines 85-87): container wiring.
- `volatile` on the readiness flag and all concurrency: the flag is a plain field.
- Asynchrony, `Task` and cancellation: calls are synchronous, and the token's effect on the probe is folded into the probe outcome.
- The real database connection (`CanConnectAsync`): its outcome is an input.
- The report's entries: `report.Entries` is a dictionary; the model takes it as its enumeration sequence and does not require its keys to be unique, and every lemma holds for all sequences.
- The JSON text that System.Text.Json produces, including how it encodes the top-level enum value: the body is a structured record.
- TelemetrySetup.cs, Program.cs and DomainDbContext.cs are not part of this model: library configuration, process bootstrap and an empty database context.

## Findings

| source | as written | input that shows it | evidently intended | confidence | as-written member | corrected member |
|---|---|---|---|---|---|---|
| src/MHemmer.Boilerplate.Api/Setup/HealthCheckSetup.cs:113-120 | the liveness predicate is mapped at `/health/ready`, the same path as the readiness predicate, and `/health/live` is never mapped | a request to `/health/live` has no route; `/health/ready` has two | liveness at `/health/live` and readiness alone at `/health/ready`, as the doc comment at lines 74-75 says; `/health/database`, which the comment does not mention, kept as mapped | not executed; the doc comment states the intended paths | HealthCheckSetup.RoutesAsWrittenCollide | HealthCheckSetup.IntendedRoutesSelect |
