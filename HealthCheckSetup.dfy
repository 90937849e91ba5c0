/**
  The registration of the three checks under their names and the table of
  health endpoints, each with the name predicate that chooses which registered
  checks it runs.
 */
module HealthCheckSetup {

  /** Which check class a registration runs. */
  datatype CheckKind = LivenessCheck | ReadinessCheck | DbConnectionCheck

  /** One `AddCheck<T>(name)` call. */
  datatype Registration = Registration(name: string, kind: CheckKind)

  /** The registrations made by SetupHealthCheck, in the order of the calls. */
  const Registrations: seq<Registration> := [
    Registration("live", LivenessCheck),
    Registration("ready", ReadinessCheck),
    Registration("database", DbConnectionCheck)
  ]

  /** The names of a sequence of registrations, in order. */
  function Names(regs: seq<Registration>): (r: seq<string>)
    ensures |r| == |regs|
    ensures forall i :: 0 <= i < |regs| ==> r[i] == regs[i].name
  {
    if regs == [] then [] else [regs[0].name] + Names(regs[1..])
  }

  /** No name occurs twice. */
  predicate Distinct(names: seq<string>) {
    forall i, j :: 0 <= i < j < |names| ==> names[i] != names[j]
  }

  /** The registered names are "live", "ready", "database", in that order, and pairwise distinct. */
  lemma RegisteredNames()
    ensures Names(Registrations) == ["live", "ready", "database"]
    ensures Distinct(Names(Registrations))
  {
  }

  /** The predicate an endpoint filters registrations with. */
  datatype NamePredicate = AnyName | NameEquals(name: string)

  /** The predicate lambdas: `_ => true`, and `check => check.Name == n`. */
  predicate Matches(p: NamePredicate, name: string)
    ensures p.AnyName? ==> Matches(p, name)
    ensures p.NameEquals? ==> (Matches(p, name) <==> name == p.name)
  {
    match p
    case AnyName => true
    case NameEquals(n) => name == n
  }

  /** How an endpoint writes its response: the JSON report writer, or the framework's default plain status. */
  datatype Writer = JsonReportWriter | PlainStatusWriter

  /** One `MapHealthChecks(path, options)` call. */
  datatype Route = Route(path: string, filter: NamePredicate, writer: Writer)

  /** The endpoints mapped by MapHealthCheck, in the order of the calls. */
  const Routes: seq<Route> := [
    Route("/health", AnyName, JsonReportWriter),
    Route("/health/ready", NameEquals("live"), PlainStatusWriter),
    Route("/health/ready", NameEquals("ready"), PlainStatusWriter),
    Route("/health/database", NameEquals("database"), PlainStatusWriter)
  ]

  /** The registrations a predicate chooses, in registration order. */
  function Select(p: NamePredicate, regs: seq<Registration>): (r: seq<Registration>)
    ensures |r| <= |regs|
    ensures forall x :: x in r <==> x in regs && Matches(p, x.name)
  {
    if regs == [] then []
    else if Matches(p, regs[0].name) then [regs[0]] + Select(p, regs[1..])
    else Select(p, regs[1..])
  }

  /** The always-true predicate keeps every registration, in order. */
  lemma {:induction false} SelectAnyName(regs: seq<Registration>)
    ensures Select(AnyName, regs) == regs
  {
    if regs != [] {
      SelectAnyName(regs[1..]);
      assert regs == [regs[0]] + regs[1..];
    }
  }

  /** A single registration is kept exactly when it matches. */
  lemma SelectSingle(p: NamePredicate, x: Registration)
    ensures Select(p, [x]) == if Matches(p, x.name) then [x] else []
  {
  }

  /**
    Selection distributes over concatenation; with SelectSingle this fixes that
    every matching registration is kept once and in registration order.
   */
  lemma {:induction false} SelectAppend(p: NamePredicate, a: seq<Registration>, b: seq<Registration>)
    ensures Select(p, a + b) == Select(p, a) + Select(p, b)
  {
    if a == [] {
      assert a + b == b;
    } else {
      var c := a + b;
      assert c[0] == a[0] && c[1..] == a[1..] + b;
      SelectAppend(p, a[1..], b);
      if Matches(p, a[0].name) {
        calc {
          Select(p, c);
          [a[0]] + Select(p, a[1..] + b);
          [a[0]] + (Select(p, a[1..]) + Select(p, b));
          ([a[0]] + Select(p, a[1..])) + Select(p, b);
        }
      }
    }
  }

  /** A predicate that matches no registration selects nothing. */
  lemma {:induction false} SelectNoMatch(p: NamePredicate, regs: seq<Registration>)
    requires forall k :: 0 <= k < |regs| ==> !Matches(p, regs[k].name)
    ensures Select(p, regs) == []
  {
    if regs != [] {
      SelectNoMatch(p, regs[1..]);
    }
  }

  /** Among registrations with distinct names, a name-equality predicate chooses exactly the one with that name. */
  lemma {:induction false} SelectByUniqueName(regs: seq<Registration>, i: nat)
    requires Distinct(Names(regs))
    requires i < |regs|
    ensures Select(NameEquals(regs[i].name), regs) == [regs[i]]
  {
    var rest := regs[1..];
    assert Distinct(Names(rest)) by {
      forall a, b | 0 <= a < b < |rest| ensures Names(rest)[a] != Names(rest)[b] {
        assert Names(regs)[a + 1] != Names(regs)[b + 1];
      }
    }
    if i == 0 {
      forall k | 0 <= k < |rest| ensures rest[k].name != regs[0].name {
        assert Names(regs)[0] != Names(regs)[k + 1];
      }
      SelectNoMatch(NameEquals(regs[0].name), rest);
    } else {
      assert Names(regs)[0] != Names(regs)[i];
      SelectByUniqueName(rest, i - 1);
    }
  }

  /**
    What each mapped endpoint selects: `/health` runs every registered check in
    order, each other entry exactly one, and `/health/ready` is mapped twice,
    once for "live" and once for "ready".
   */
  lemma RouteSelections()
    ensures Routes[0].path == "/health" && Select(Routes[0].filter, Registrations) == Registrations
    ensures Routes[1].path == "/health/ready" && Select(Routes[1].filter, Registrations) == [Registrations[0]]
    ensures Routes[2].path == "/health/ready" && Select(Routes[2].filter, Registrations) == [Registrations[1]]
    ensures Routes[3].path == "/health/database" && Select(Routes[3].filter, Registrations) == [Registrations[2]]
  {
    RegisteredNames();
    SelectAnyName(Registrations);
    SelectByUniqueName(Registrations, 0);
    SelectByUniqueName(Registrations, 1);
    SelectByUniqueName(Registrations, 2);
  }

  /** The endpoints mapped at a path. */
  function RoutesAt(table: seq<Route>, path: string): (r: seq<Route>)
    ensures |r| <= |table|
    ensures forall x :: x in r <==> x in table && x.path == path
  {
    if table == [] then []
    else if table[0].path == path then [table[0]] + RoutesAt(table[1..], path)
    else RoutesAt(table[1..], path)
  }

  /** A table in which no path is mapped twice. */
  predicate DistinctPaths(table: seq<Route>) {
    forall i, j :: 0 <= i < j < |table| ==> table[i].path != table[j].path
  }

  /**
    The table as written maps `/health/ready` twice, with two different
    predicates, and never maps `/health/live`.
   */
  lemma RoutesAsWrittenCollide()
    ensures !DistinctPaths(Routes)
    ensures |RoutesAt(Routes, "/health/ready")| == 2
    ensures RoutesAt(Routes, "/health/live") == []
  {
  }

  /**
    The table as mapped, with the liveness entry moved to `/health/live` as the
    doc comment of MapHealthCheck says; `/health/database` is kept as mapped.
   */
  const IntendedRoutes: seq<Route> := [
    Route("/health", AnyName, JsonReportWriter),
    Route("/health/live", NameEquals("live"), PlainStatusWriter),
    Route("/health/ready", NameEquals("ready"), PlainStatusWriter),
    Route("/health/database", NameEquals("database"), PlainStatusWriter)
  ]

  /**
    In the intended table every path is mapped once, `/health/live` runs only the
    liveness check and `/health/ready` only the readiness check.
   */
  lemma IntendedRoutesSelect()
    ensures DistinctPaths(IntendedRoutes)
    ensures RoutesAt(IntendedRoutes, "/health/live") == [IntendedRoutes[1]]
    ensures RoutesAt(IntendedRoutes, "/health/ready") == [IntendedRoutes[2]]
    ensures Select(IntendedRoutes[0].filter, Registrations) == Registrations
    ensures Select(IntendedRoutes[1].filter, Registrations) == [Registration("live", LivenessCheck)]
    ensures Select(IntendedRoutes[2].filter, Registrations) == [Registration("ready", ReadinessCheck)]
    ensures Select(IntendedRoutes[3].filter, Registrations) == [Registration("database", DbConnectionCheck)]
  {
    RouteSelections();
  }
}
