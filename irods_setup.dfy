/** Setting up iRODS servers and zones in a compose project: the step
    sequence on one server, the catalog provider and consumer setups, the
    consumer batch, the database -> provider -> consumers phases of a zone and
    the batch of zones.

    Every command run in a container (including the catalog database setup
    and the ODBC driver configuration, whose modules are external) is an
    oracle giving an exit code; a non-zero code is where the source raises.
    Each external step is recorded as an event, so a run is the list of
    steps attempted and the failure, if any, it ends with. Thread pools are
    modelled as sequential loops over their units.

    Each coordinator step appears twice: a method that issues the steps one
    after the other as the source does, proved equal to a function stating
    the run it produces, and the lemmas reason about that function. */
module IrodsSetup {
  import opened Outcomes
  import opened Lines
  import opened Containers
  import opened SetupBuilder
  import SetupInputBuilder
  import SetupInputBuilder42
  import Zones

  /** Keyword arguments for the builder's `setup`, by the field they name. */
  type Keywords = map<SetupInputBuilder42.Key, Value>

  /** An external step run against a container. */
  datatype Action =
    | SetupCatalog(forceRecreate: bool)    // catalog database setup on the database container
    | ConfigureOdbc(driver: Option<string>) // ODBC driver configuration on the provider container
    | StopServer                            // `irodsctl stop`
    | WriteInput(input: string)             // write the setup input to `/input`
    | ShowInput                             // `cat /input`
    | RunSetupScript                        // `setup_irods.py < /input`
    | RestartServer                         // `irodsctl restart`

  datatype Event = Event(target: Container, action: Action)

  /** What the environment answers: the exit code of every step, the iRODS
      version and hostname of every container, the database server port, the
      containers the compose project lists, and the output of the 4.3.x
      builder for a set of keyword arguments (that builder is not part of
      this model). */
  datatype Env = Env(
    execute: (Container, Action) -> int,
    version: Container -> Version,
    hostname: Container -> string,
    databasePort: int,
    containers: seq<Container>,
    render43: Keywords -> string)

  datatype SetupError =
    | CatalogSetupFailed(database: Container)
    | OdbcSetupFailed(provider: Container)
    | BuilderUnavailable(server: Container, reason: VersionError)
    | RepeatedKeyword                       // TypeError: a keyword given twice to `setup`
    | InputRejected(builderError: SetupInputBuilder.BuilderError)
    | InputFileFailed(server: Container)    // 'failed to create setup script input file'
    | SetupScriptFailed(server: Container)  // 'failed to set up iRODS server'
    | RestartFailed(server: Container)      // 'failed to start iRODS server after setup'
    | ConsumersFailed                       // 'failed to set up one or more catalog service consumers'
    | ZonesFailed                           // 'failed to set up one or more iRODS Zones'

  /** The steps attempted, in order, and the error raised at the end, if any. */
  datatype Run = Run(events: seq<Event>, failure: Option<SetupError>)

  predicate Passed(r: Run) {
    r.failure.None?
  }

  /** The five steps of a server setup, in the order they are issued. */
  function ServerSteps(c: Container, input: string): seq<Event> {
    [Event(c, StopServer), Event(c, WriteInput(input)), Event(c, ShowInput),
     Event(c, RunSetupScript), Event(c, RestartServer)]
  }

  /** `setup_irods_server`: stop (failure only logged), write the input
      (failure raises), show it (exit code ignored), run the setup script
      (failure raises), restart (failure raises). */
  function ServerSetup(env: Env, c: Container, input: string): Run {
    var steps := ServerSteps(c, input);
    if env.execute(c, WriteInput(input)) != 0 then Run(steps[..2], Some(InputFileFailed(c)))
    else if env.execute(c, RunSetupScript) != 0 then Run(steps[..4], Some(SetupScriptFailed(c)))
    else if env.execute(c, RestartServer) != 0 then Run(steps, Some(RestartFailed(c)))
    else Run(steps, None)
  }

  method SetupIrodsServer(env: Env, c: Container, input: string) returns (run: Run)
    ensures run == ServerSetup(env, c, input)
  {
    var events := [Event(c, StopServer)];
    var ec := env.execute(c, StopServer);
    // a failed stop is only logged
    events := events + [Event(c, WriteInput(input))];
    ec := env.execute(c, WriteInput(input));
    if ec != 0 {
      return Run(events, Some(InputFileFailed(c)));
    }
    events := events + [Event(c, ShowInput)];
    ec := env.execute(c, ShowInput);
    events := events + [Event(c, RunSetupScript)];
    ec := env.execute(c, RunSetupScript);
    if ec != 0 {
      return Run(events, Some(SetupScriptFailed(c)));
    }
    events := events + [Event(c, RestartServer)];
    ec := env.execute(c, RestartServer);
    if ec != 0 {
      return Run(events, Some(RestartFailed(c)));
    }
    run := Run(events, None);
  }

  /** The steps run in the fixed order, stopping at the first step that
      raises: a failed write leaves 2 steps, a failed setup script 4, and
      only a failed write, setup script or restart fails the setup. */
  lemma ServerSetupOrder(env: Env, c: Container, input: string)
    ensures var r := ServerSetup(env, c, input);
      && r.events <= ServerSteps(c, input)
      && (Passed(r) <==>
           env.execute(c, WriteInput(input)) == 0 && env.execute(c, RunSetupScript) == 0 &&
           env.execute(c, RestartServer) == 0)
      && (|r.events| == 2 <==> env.execute(c, WriteInput(input)) != 0)
      && (|r.events| == 4 <==>
           env.execute(c, WriteInput(input)) == 0 && env.execute(c, RunSetupScript) != 0)
      && (!Passed(r) ==> r.events[|r.events| - 1].action != StopServer)
  {
  }

  /** The exit codes of the stop and `cat` steps change nothing. */
  lemma ServerSetupIgnoresStopAndShow(env1: Env, env2: Env, c: Container, input: string)
    requires env1.execute(c, WriteInput(input)) == env2.execute(c, WriteInput(input))
    requires env1.execute(c, RunSetupScript) == env2.execute(c, RunSetupScript)
    requires env1.execute(c, RestartServer) == env2.execute(c, RestartServer)
    ensures ServerSetup(env1, c, input) == ServerSetup(env2, c, input)
  {
  }

  /** The server setup once its input has been rendered; a rendering that
      raised runs no step. */
  function ServerFromInput(env: Env, c: Container, input: Result<string, SetupError>): Run {
    match input
    case Err(e) => Run([], Some(e))
    case Ok(text) => ServerSetup(env, c, text)
  }

  /** Every step runs on the server being set up, and a setup that passes
      ends with the server's restart. */
  lemma ServerStepsStayOnServer(env: Env, c: Container, input: Result<string, SetupError>)
    ensures var r := ServerFromInput(env, c, input);
      && (forall i :: 0 <= i < |r.events| ==> r.events[i].target == c)
      && (Passed(r) ==> |r.events| == 5 && r.events[4] == Event(c, RestartServer))
      && (input.Err? ==> r == Run([], Some(input.error)))
  {
  }

  /** Some keyword is given both by the caller and by the setup itself. */
  predicate Repeats(fixed: Keywords, kwargs: Keywords) {
    exists k :: k in fixed && k in kwargs
  }

  /** The setup input for server `c`: the builder family is chosen from the
      server's version, `setup` receives the fixed keywords plus the caller's
      (a keyword given twice is a TypeError), and `build` renders it. */
  function SetupInput(env: Env, c: Container, fixed: Keywords,
                      kwargs: Keywords): Result<string, SetupError>
  {
    match MakeSetupBuilder(env.version(c))
    case Err(e) => Err(BuilderUnavailable(c, e))
    case Ok(family) =>
      if Repeats(fixed, kwargs) then Err(RepeatedKeyword)
      else if family == Release42 then Render42(fixed + kwargs)
      else Ok(env.render43(fixed + kwargs))
  }

  /** What a fresh 4.2.x builder renders after `setup(**keywords)`. */
  function Render42(keywords: Keywords): Result<string, SetupError> {
    match SetupInputBuilder42.Build(SetupInputBuilder42.Merge(SetupInputBuilder42.Defaults, keywords))
    case Ok(input) => Ok(input)
    case Err(e) => Err(InputRejected(e))
  }

  /** No input is rendered for a server whose version has no builder, nor
      when a keyword is given twice; otherwise the 4.2.x builder renders it
      from the merged keywords. */
  lemma SetupInputRefusals(env: Env, c: Container, fixed: Keywords, kwargs: Keywords)
    ensures var r := SetupInput(env, c, fixed, kwargs);
      && (MakeSetupBuilder(env.version(c)).Err? <==> r.Err? && r.error.BuilderUnavailable?)
      && (MakeSetupBuilder(env.version(c)).Ok? && Repeats(fixed, kwargs) ==> r == Err(RepeatedKeyword))
      && (MakeSetupBuilder(env.version(c)) == Ok(Release42) && !Repeats(fixed, kwargs) ==>
           r == Render42(fixed + kwargs))
  {
  }

  /** Keywords that make the builder a consumer yield the consumer script. */
  lemma Render42Consumer(keywords: Keywords)
    requires SetupInputBuilder42.Merge(SetupInputBuilder42.Defaults, keywords).catalogServiceRole == Str("consumer")
    ensures Render42(keywords) ==
      Ok(SetupInputBuilder42.BuildInputForCatalogConsumer(SetupInputBuilder42.Merge(SetupInputBuilder42.Defaults, keywords)))
  {
  }

  method RenderSetupInput(env: Env, c: Container, fixed: Keywords,
                          kwargs: Keywords) returns (r: Result<string, SetupError>)
    ensures r == SetupInput(env, c, fixed, kwargs)
  {
    var family := MakeSetupBuilder(env.version(c));
    if family.Err? {
      return Err(BuilderUnavailable(c, family.error));
    }
    if Repeats(fixed, kwargs) {
      return Err(RepeatedKeyword);
    }
    if family.value == Release42 {
      var created := new SetupInputBuilder42.Builder();
      var builder := created.Setup(fixed + kwargs);
      var built := builder.BuildInput();
      if built.Err? {
        return Err(InputRejected(built.error));
      }
      r := Ok(built.value);
    } else {
      r := Ok(env.render43(fixed + kwargs));
    }
  }

  /** The keywords the provider setup passes itself. */
  function ProviderKeywords(env: Env, db: Container): Keywords {
    map[SetupInputBuilder42.CatalogServiceRole := Str("provider"),
        SetupInputBuilder42.DatabaseServerHostname := Str(env.hostname(db)),
        SetupInputBuilder42.DatabaseServerPort := Int(env.databasePort)]
  }

  /** `setup_irods_catalog_provider`: configure ODBC on the provider, then
      render its input against the database container and set the server
      up. As written, the database container is looked up with the
      provider's service instance; `dbInstance` is not used. */
  function ProviderSetup(env: Env, dbInstance: int, providerInstance: int,
                         odbc: Option<string>, kwargs: Keywords): Run
  {
    var csp := Container(CatalogProvider, providerInstance);
    var configure := Event(csp, ConfigureOdbc(odbc));
    if env.execute(csp, ConfigureOdbc(odbc)) != 0 then Run([configure], Some(OdbcSetupFailed(csp)))
    else
      var db := Container(CatalogDatabase, providerInstance);
      var server := ServerFromInput(env, csp, SetupInput(env, csp, ProviderKeywords(env, db), kwargs));
      Run([configure] + server.events, server.failure)
  }

  method SetupIrodsCatalogProvider(env: Env, dbInstance: int, providerInstance: int,
                                   odbc: Option<string>, kwargs: Keywords)
    returns (run: Run)
    ensures run == ProviderSetup(env, dbInstance, providerInstance, odbc, kwargs)
  {
    var csp := Container(CatalogProvider, providerInstance);
    var ec := env.execute(csp, ConfigureOdbc(odbc));
    if ec != 0 {
      return Run([Event(csp, ConfigureOdbc(odbc))], Some(OdbcSetupFailed(csp)));
    }
    var db := Container(CatalogDatabase, providerInstance);
    var input := RenderSetupInput(env, csp, ProviderKeywords(env, db), kwargs);
    if input.Err? {
      return Run([Event(csp, ConfigureOdbc(odbc))], Some(input.error));
    }
    var server := SetupIrodsServer(env, csp, input.value);
    run := Run([Event(csp, ConfigureOdbc(odbc))] + server.events, server.failure);
  }

  /** The database instance a caller names plays no part in the provider
      setup (see the database lookup above). */
  lemma ProviderIgnoresDatabaseInstance(env: Env, db1: int, db2: int, p: int,
                                        odbc: Option<string>, kwargs: Keywords)
    ensures ProviderSetup(env, db1, p, odbc, kwargs) == ProviderSetup(env, db2, p, odbc, kwargs)
  {
  }

  /** Every step of the provider setup runs on the provider container, and the
      ODBC configuration comes first. */
  lemma ProviderStepsStayOnProvider(env: Env, dbInstance: int, p: int,
                                    odbc: Option<string>, kwargs: Keywords)
    ensures var r := ProviderSetup(env, dbInstance, p, odbc, kwargs);
      && |r.events| >= 1
      && r.events[0] == Event(Container(CatalogProvider, p), ConfigureOdbc(odbc))
      && (forall i :: 0 <= i < |r.events| ==> r.events[i].target == Container(CatalogProvider, p))
  {
    var csp := Container(CatalogProvider, p);
    ServerStepsStayOnServer(env, csp, SetupInput(env, csp, ProviderKeywords(env, Container(CatalogDatabase, p)), kwargs));
  }

  /** A provider setup that passes has restarted the provider server last. */
  lemma ProviderPassEndsWithRestart(env: Env, dbInstance: int, p: int,
                                    odbc: Option<string>, kwargs: Keywords)
    requires Passed(ProviderSetup(env, dbInstance, p, odbc, kwargs))
    ensures var r := ProviderSetup(env, dbInstance, p, odbc, kwargs);
      |r.events| >= 2 && r.events[|r.events| - 1] == Event(Container(CatalogProvider, p), RestartServer)
  {
    var csp := Container(CatalogProvider, p);
    ServerStepsStayOnServer(env, csp, SetupInput(env, csp, ProviderKeywords(env, Container(CatalogDatabase, p)), kwargs));
  }

  /** The keywords the consumer setup passes itself. */
  function ConsumerKeywords(env: Env, csp: Container): Keywords {
    map[SetupInputBuilder42.CatalogServiceRole := Str("consumer"),
        SetupInputBuilder42.CatalogServiceProviderHost := Str(env.hostname(csp))]
  }

  /** `setup_irods_catalog_consumer`: render the consumer's input against the
      provider's hostname and set the consumer's server up. */
  function ConsumerSetup(env: Env, providerInstance: int, consumerInstance: int,
                         kwargs: Keywords): Run
  {
    var csp := Container(CatalogProvider, providerInstance);
    var csc := Container(CatalogConsumer, consumerInstance);
    ServerFromInput(env, csc, SetupInput(env, csc, ConsumerKeywords(env, csp), kwargs))
  }

  method SetupIrodsCatalogConsumer(env: Env, providerInstance: int, consumerInstance: int,
                                   kwargs: Keywords) returns (run: Run)
    ensures run == ConsumerSetup(env, providerInstance, consumerInstance, kwargs)
  {
    var csp := Container(CatalogProvider, providerInstance);
    var csc := Container(CatalogConsumer, consumerInstance);
    var input := RenderSetupInput(env, csc, ConsumerKeywords(env, csp), kwargs);
    if input.Err? {
      return Run([], Some(input.error));
    }
    run := SetupIrodsServer(env, csc, input.value);
  }

  /** Every step of a consumer setup runs on that consumer's container. */
  lemma ConsumerStepsStayOnConsumer(env: Env, p: int, n: int, kwargs: Keywords)
    ensures var r := ConsumerSetup(env, p, n, kwargs);
      forall i :: 0 <= i < |r.events| ==> r.events[i].target == Container(CatalogConsumer, n)
  {
    var csc := Container(CatalogConsumer, n);
    ServerStepsStayOnServer(env, csc, SetupInput(env, csc, ConsumerKeywords(env, Container(CatalogProvider, p)), kwargs));
  }

  /** On a 4.2.x consumer, the input written is the 19-line consumer script
      whose provider-host line names the provider's container. */
  lemma ConsumerInputNamesProvider(env: Env, p: int, n: int, kwargs: Keywords)
    requires env.version(Container(CatalogConsumer, n)).major == 4
    requires env.version(Container(CatalogConsumer, n)).minor == 2
    requires SetupInputBuilder42.CatalogServiceRole !in kwargs
    requires SetupInputBuilder42.CatalogServiceProviderHost !in kwargs
    requires SetupInputBuilder42.NoNewlines(
      SetupInputBuilder42.Merge(SetupInputBuilder42.Defaults,
                                ConsumerKeywords(env, Container(CatalogProvider, p)) + kwargs))
    ensures var r := SetupInput(env, Container(CatalogConsumer, n),
                                ConsumerKeywords(env, Container(CatalogProvider, p)), kwargs);
      && r.Ok?
      && |Split(r.value)| == 19
      && Split(r.value)[2] == "2"
      && Split(r.value)[4] == env.hostname(Container(CatalogProvider, p))
  {
    var csp := Container(CatalogProvider, p);
    var fixed := ConsumerKeywords(env, csp);
    var s := SetupInputBuilder42.Merge(SetupInputBuilder42.Defaults, fixed + kwargs);
    assert SetupInputBuilder42.Field(s, SetupInputBuilder42.CatalogServiceRole) == Str("consumer");
    assert SetupInputBuilder42.Field(s, SetupInputBuilder42.CatalogServiceProviderHost) ==
      Str(env.hostname(csp));
    assert !Repeats(fixed, kwargs);
    SetupInputRefusals(env, Container(CatalogConsumer, n), fixed, kwargs);
    Render42Consumer(fixed + kwargs);
    SetupInputBuilder42.ConsumerBuildReadsBack(s);
    SetupInputBuilder42.ConsumerScriptShape(s);
  }

  /** `setup_irods_catalog_consumers`' selection: a non-empty list keeps the
      listed consumer instances that are running, in listing order; `None`,
      and as written also the empty list (which is falsy), selects every
      running consumer instance. */
  function SelectConsumers(listing: seq<int>, requested: Option<seq<int>>): seq<int> {
    match requested
    case Some(wanted) =>
      if |wanted| > 0 then Filter(listing, n => n in wanted) else listing
    case None => listing
  }

  lemma SelectListed(listing: seq<int>, wanted: seq<int>)
    requires |wanted| > 0
    ensures forall n :: n in SelectConsumers(listing, Some(wanted)) <==> n in listing && n in wanted
    ensures |SelectConsumers(listing, Some(wanted))| <= |listing|
  {
  }

  /** The selection keeps the listing's order: selecting from a concatenation
      selects from each part, one after the other, and a single running
      instance is kept exactly when a non-empty list names it. */
  lemma SelectInOrder(a: seq<int>, b: seq<int>, n: int, requested: Option<seq<int>>)
    ensures SelectConsumers(a + b, requested) == SelectConsumers(a, requested) + SelectConsumers(b, requested)
    ensures requested.Some? && |requested.value| > 0 ==>
      SelectConsumers([n], requested) == if n in requested.value then [n] else []
  {
    if requested.Some? && |requested.value| > 0 {
      FilterAppend(a, b, m => m in requested.value);
      FilterSingleton(n, m => m in requested.value);
    }
  }

  /** The empty list does not mean "none": like `None` it selects everything. */
  lemma SelectEmptySelectsAll(listing: seq<int>)
    ensures SelectConsumers(listing, Some([])) == listing
    ensures SelectConsumers(listing, None) == listing
  {
  }

  /** A list naming every running instance selects the listing unchanged. */
  lemma {:induction false} SelectEverything(listing: seq<int>, wanted: seq<int>)
    requires |wanted| > 0
    requires forall i :: 0 <= i < |listing| ==> listing[i] in wanted
    ensures SelectConsumers(listing, Some(wanted)) == listing
  {
    FilterAll(listing, n => n in wanted);
  }

  /** The events of several units run one after the other. */
  function Concat(runs: seq<Run>): seq<Event>
    decreases |runs|
  {
    if |runs| == 0 then [] else Concat(runs[..|runs| - 1]) + runs[|runs| - 1].events
  }

  /** The events of unit `i` appear, whole and in place, in the batch. */
  lemma {:induction false} ConcatSegment(runs: seq<Run>, i: int)
    requires 0 <= i < |runs|
    ensures Concat(runs) == Concat(runs[..i]) + runs[i].events + Concat(runs[i + 1..])
    decreases |runs|
  {
    var n := |runs| - 1;
    var init := runs[..n];
    if i == n {
      assert runs[i + 1..] == [];
    } else {
      ConcatSegment(init, i);
      assert init[..i] == runs[..i];
      var rest := runs[i + 1..];
      assert rest[..|rest| - 1] == init[i + 1..];
      assert rest[|rest| - 1] == runs[n];
    }
  }

  /** Attempt every unit, collect every result, fail iff any failed. */
  function Batch(runs: seq<Run>, err: SetupError): (r: Run)
    ensures Passed(r) <==> forall i :: 0 <= i < |runs| ==> Passed(runs[i])
    ensures !Passed(r) ==> r.failure == Some(err)
  {
    Run(Concat(runs), if forall i :: 0 <= i < |runs| ==> Passed(runs[i]) then None else Some(err))
  }

  /** What a loop over the units has gathered so far: the units' events one
      after the other, and a flag that is 0 exactly when no unit failed. */
  predicate Collected(runs: seq<Run>, events: seq<Event>, rc: int) {
    && events == Concat(runs)
    && (rc == 0 <==> forall j :: 0 <= j < |runs| ==> Passed(runs[j]))
  }

  /** One more unit collected: its events follow the earlier ones and the
      flag records whether it failed. */
  lemma BatchStep(runs: seq<Run>, r: Run, events: seq<Event>, rc: int)
    requires Collected(runs, events, rc)
    ensures Collected(runs + [r], events + r.events, if r.failure.Some? then 1 else rc)
  {
    assert (runs + [r])[..|runs|] == runs;
    if r.failure.None? {
      forall j | 0 <= j < |runs + [r]| && (forall j' :: 0 <= j' < |runs| ==> Passed(runs[j']))
        ensures Passed((runs + [r])[j])
      {
        if j < |runs| {
          assert (runs + [r])[j] == runs[j];
        }
      }
    } else {
      assert (runs + [r])[|runs|] == r;
    }
  }

  /** Once every unit is collected, the gathered events and flag are the batch. */
  lemma BatchCollected(runs: seq<Run>, events: seq<Event>, rc: int, err: SetupError)
    requires Collected(runs, events, rc)
    ensures Batch(runs, err) == Run(events, if rc != 0 then Some(err) else None)
  {
  }

  /** Every unit of a batch is attempted, whatever the others do. */
  lemma BatchAttemptsEvery(runs: seq<Run>, err: SetupError, i: int)
    requires 0 <= i < |runs|
    ensures Batch(runs, err).events == Concat(runs[..i]) + runs[i].events + Concat(runs[i + 1..])
  {
    ConcatSegment(runs, i);
  }

  /** The runs of the selected consumers, in selection order. */
  function ConsumerRuns(env: Env, providerInstance: int, selected: seq<int>,
                        kwargs: Keywords): (runs: seq<Run>)
    ensures |runs| == |selected|
    decreases |selected|
  {
    if |selected| == 0 then []
    else ConsumerRuns(env, providerInstance, selected[..|selected| - 1], kwargs) +
         [ConsumerSetup(env, providerInstance, selected[|selected| - 1], kwargs)]
  }

  lemma ConsumerRunsSnoc(env: Env, p: int, selected: seq<int>, kwargs: Keywords, i: int)
    requires 0 <= i < |selected|
    ensures ConsumerRuns(env, p, selected[..i + 1], kwargs) ==
      ConsumerRuns(env, p, selected[..i], kwargs) + [ConsumerSetup(env, p, selected[i], kwargs)]
  {
    assert selected[..i + 1][..i] == selected[..i];
  }

  lemma {:induction false} ConsumerRunsAt(env: Env, p: int, selected: seq<int>,
                                           kwargs: Keywords, i: int)
    requires 0 <= i < |selected|
    ensures ConsumerRuns(env, p, selected, kwargs)[i] == ConsumerSetup(env, p, selected[i], kwargs)
    decreases |selected|
  {
    if i < |selected| - 1 {
      ConsumerRunsAt(env, p, selected[..|selected| - 1], kwargs, i);
    }
  }

  function ConsumerSelection(env: Env, requested: Option<seq<int>>): seq<int> {
    SelectConsumers(ConsumerInstances(env.containers), requested)
  }

  /** `setup_irods_catalog_consumers`. */
  function ConsumersSetup(env: Env, providerInstance: int, requested: Option<seq<int>>,
                          kwargs: Keywords): Run
  {
    Batch(ConsumerRuns(env, providerInstance, ConsumerSelection(env, requested), kwargs),
          ConsumersFailed)
  }

  method SetupIrodsCatalogConsumers(env: Env, providerInstance: int,
                                    requested: Option<seq<int>>, kwargs: Keywords)
    returns (run: Run)
    ensures run == ConsumersSetup(env, providerInstance, requested, kwargs)
  {
    var selected := SelectConsumers(ConsumerInstances(env.containers), requested);
    run := SetupConsumerBatch(env, providerInstance, selected, kwargs);
  }

  /** The consumer thread pool, run one unit after the other: every selected
      consumer is set up, `rc` records whether any failed, and the batch
      raises after all have been collected. */
  method SetupConsumerBatch(env: Env, providerInstance: int, selected: seq<int>, kwargs: Keywords)
    returns (run: Run)
    ensures run == Batch(ConsumerRuns(env, providerInstance, selected, kwargs), ConsumersFailed)
  {
    var events: seq<Event> := [];
    var rc := 0;
    var i := 0;
    while i < |selected|
      invariant 0 <= i <= |selected|
      invariant Collected(ConsumerRuns(env, providerInstance, selected[..i], kwargs), events, rc)
    {
      events, rc := CollectConsumer(env, providerInstance, selected, kwargs, i, events, rc);
      i := i + 1;
    }
    assert selected[..i] == selected;
    BatchCollected(ConsumerRuns(env, providerInstance, selected, kwargs), events, rc, ConsumersFailed);
    run := Run(events, if rc != 0 then Some(ConsumersFailed) else None);
  }

  /** One unit of the consumer thread pool: set consumer `selected[i]` up and
      collect its result after those of the consumers before it. */
  method CollectConsumer(env: Env, providerInstance: int, selected: seq<int>, kwargs: Keywords,
                         i: int, events: seq<Event>, rc: int)
    returns (events': seq<Event>, rc': int)
    requires 0 <= i < |selected|
    requires Collected(ConsumerRuns(env, providerInstance, selected[..i], kwargs), events, rc)
    ensures Collected(ConsumerRuns(env, providerInstance, selected[..i + 1], kwargs), events', rc')
  {
    var r := SetupIrodsCatalogConsumer(env, providerInstance, selected[i], kwargs);
    ConsumerRunsSnoc(env, providerInstance, selected, kwargs, i);
    BatchStep(ConsumerRuns(env, providerInstance, selected[..i], kwargs), r, events, rc);
    events' := events + r.events;
    rc' := if r.failure.Some? then 1 else rc;
  }


  /** Every selected consumer is attempted: its setup's steps appear in the
      batch, and the batch fails iff some selected consumer failed. */
  lemma ConsumersAttemptedAndCollected(env: Env, p: int, requested: Option<seq<int>>,
                                       kwargs: Keywords, i: int)
    requires 0 <= i < |ConsumerSelection(env, requested)|
    ensures var n := ConsumerSelection(env, requested)[i];
      forall e :: e in ConsumerSetup(env, p, n, kwargs).events ==>
        e in ConsumersSetup(env, p, requested, kwargs).events
    ensures Passed(ConsumersSetup(env, p, requested, kwargs)) <==>
      forall n :: n in ConsumerSelection(env, requested) ==> Passed(ConsumerSetup(env, p, n, kwargs))
  {
    var selected := ConsumerSelection(env, requested);
    var runs := ConsumerRuns(env, p, selected, kwargs);
    forall j | 0 <= j < |selected|
      ensures runs[j] == ConsumerSetup(env, p, selected[j], kwargs)
    {
      ConsumerRunsAt(env, p, selected, kwargs, j);
    }
    BatchAttemptsEvery(runs, ConsumersFailed, i);
  }

  /** `setup_irods_zone`: the catalog database, then the provider, then the
      consumers; a phase that raises prevents the later ones. */
  function ZoneSetup(env: Env, forceRecreate: bool, providerInstance: int, dbInstance: int,
                     requested: Option<seq<int>>, odbc: Option<string>,
                     kwargs: Keywords): Run
  {
    var db := Container(CatalogDatabase, dbInstance);
    var catalog := Event(db, SetupCatalog(forceRecreate));
    if env.execute(db, SetupCatalog(forceRecreate)) != 0 then Run([catalog], Some(CatalogSetupFailed(db)))
    else
      var provider := ProviderSetup(env, dbInstance, providerInstance, odbc, kwargs);
      if !Passed(provider) then Run([catalog] + provider.events, provider.failure)
      else
        var consumers := ConsumersSetup(env, providerInstance, requested, kwargs);
        Run([catalog] + provider.events + consumers.events, consumers.failure)
  }

  method SetupIrodsZone(env: Env, forceRecreate: bool, providerInstance: int, dbInstance: int,
                        requested: Option<seq<int>>, odbc: Option<string>,
                        kwargs: Keywords) returns (run: Run)
    ensures run == ZoneSetup(env, forceRecreate, providerInstance, dbInstance, requested, odbc, kwargs)
  {
    var db := Container(CatalogDatabase, dbInstance);
    var ec := env.execute(db, SetupCatalog(forceRecreate));
    if ec != 0 {
      return Run([Event(db, SetupCatalog(forceRecreate))], Some(CatalogSetupFailed(db)));
    }
    var events := [Event(db, SetupCatalog(forceRecreate))];
    var provider := SetupIrodsCatalogProvider(env, dbInstance, providerInstance, odbc, kwargs);
    events := events + provider.events;
    if provider.failure.Some? {
      return Run(events, provider.failure);
    }
    var consumers := SetupIrodsCatalogConsumers(env, providerInstance, requested, kwargs);
    run := Run(events + consumers.events, consumers.failure);
  }

  /** The zone's catalog database is always set up first; the zone passes
      iff all three phases pass; and a consumer is only ever touched after
      the database setup passed and the provider passed, its server having
      been restarted before. */
  lemma ZonePhaseOrder(env: Env, force: bool, p: int, d: int, requested: Option<seq<int>>,
                       odbc: Option<string>, kwargs: Keywords)
    ensures var r := ZoneSetup(env, force, p, d, requested, odbc, kwargs);
      && |r.events| >= 1
      && r.events[0] == Event(Container(CatalogDatabase, d), SetupCatalog(force))
      && (Passed(r) <==>
           env.execute(Container(CatalogDatabase, d), SetupCatalog(force)) == 0 &&
           Passed(ProviderSetup(env, d, p, odbc, kwargs)) &&
           Passed(ConsumersSetup(env, p, requested, kwargs)))
      && (forall i :: 0 <= i < |r.events| && r.events[i].target.service == CatalogConsumer ==>
           && env.execute(Container(CatalogDatabase, d), SetupCatalog(force)) == 0
           && Passed(ProviderSetup(env, d, p, odbc, kwargs))
           && Event(Container(CatalogProvider, p), RestartServer) in r.events[..i])
  {
    var db := Container(CatalogDatabase, d);
    var r := ZoneSetup(env, force, p, d, requested, odbc, kwargs);
    var provider := ProviderSetup(env, d, p, odbc, kwargs);
    ProviderStepsStayOnProvider(env, d, p, odbc, kwargs);
    forall i | 0 <= i < |r.events| && r.events[i].target.service == CatalogConsumer
      ensures env.execute(db, SetupCatalog(force)) == 0
      ensures Passed(provider)
      ensures Event(Container(CatalogProvider, p), RestartServer) in r.events[..i]
    {
      assert env.execute(db, SetupCatalog(force)) == 0;
      assert Passed(provider);
      var k := |provider.events|;
      assert r.events[..1 + k] == [Event(db, SetupCatalog(force))] + provider.events;
      assert i >= 1 + k;
      ProviderPassEndsWithRestart(env, d, p, odbc, kwargs);
      assert r.events[k] == provider.events[k - 1];
    }
  }

  /** A failed database setup stops the zone there: its run is that one step
      and its failure, so no provider is touched unless the database setup
      passed; a failed provider setup likewise ends the run with its own steps. */
  lemma DatabaseFailureStopsZone(env: Env, force: bool, p: int, d: int, requested: Option<seq<int>>,
                                 odbc: Option<string>, kwargs: Keywords)
    ensures var db := Container(CatalogDatabase, d);
      var r := ZoneSetup(env, force, p, d, requested, odbc, kwargs);
      && (env.execute(db, SetupCatalog(force)) != 0 ==>
           r == Run([Event(db, SetupCatalog(force))], Some(CatalogSetupFailed(db))))
      && (forall i :: 0 <= i < |r.events| && r.events[i].target.service == CatalogProvider ==>
           env.execute(db, SetupCatalog(force)) == 0)
      && (env.execute(db, SetupCatalog(force)) == 0 && !Passed(ProviderSetup(env, d, p, odbc, kwargs)) ==>
           r == Run([Event(db, SetupCatalog(force))] + ProviderSetup(env, d, p, odbc, kwargs).events,
                    ProviderSetup(env, d, p, odbc, kwargs).failure))
  {
  }

  /** The keywords each zone passes down: its name and its keys (its port is
      not passed). */
  function ZoneKeywords(z: Zones.ZoneInfo): Keywords {
    map[SetupInputBuilder42.ZoneName := Str(z.zoneName),
        SetupInputBuilder42.ZoneKey := Str(z.zoneKey),
        SetupInputBuilder42.NegotiationKey := Str(z.negotiationKey)]
  }

  function ZoneRun(env: Env, z: Zones.ZoneInfo, odbc: Option<string>): Run {
    ZoneSetup(env, false, z.providerServiceInstance, z.databaseServiceInstance,
              z.consumerServiceInstances, odbc, ZoneKeywords(z))
  }

  /** The runs of the zones, in list order. */
  function ZoneRuns(env: Env, zones: seq<Zones.ZoneInfo>, odbc: Option<string>): (runs: seq<Run>)
    ensures |runs| == |zones|
    decreases |zones|
  {
    if |zones| == 0 then []
    else ZoneRuns(env, zones[..|zones| - 1], odbc) + [ZoneRun(env, zones[|zones| - 1], odbc)]
  }

  lemma ZoneRunsSnoc(env: Env, zones: seq<Zones.ZoneInfo>, odbc: Option<string>, i: int)
    requires 0 <= i < |zones|
    ensures ZoneRuns(env, zones[..i + 1], odbc) == ZoneRuns(env, zones[..i], odbc) + [ZoneRun(env, zones[i], odbc)]
  {
    assert zones[..i + 1][..i] == zones[..i];
  }

  lemma {:induction false} ZoneRunsAt(env: Env, zones: seq<Zones.ZoneInfo>, odbc: Option<string>, i: int)
    requires 0 <= i < |zones|
    ensures ZoneRuns(env, zones, odbc)[i] == ZoneRun(env, zones[i], odbc)
    decreases |zones|
  {
    if i < |zones| - 1 {
      ZoneRunsAt(env, zones[..|zones| - 1], odbc, i);
    }
  }

  /** One unit of the zone thread pool. */
  method SetupZone(env: Env, z: Zones.ZoneInfo, odbc: Option<string>) returns (run: Run)
    ensures run == ZoneRun(env, z, odbc)
  {
    run := SetupIrodsZone(env, false, z.providerServiceInstance, z.databaseServiceInstance,
                          z.consumerServiceInstances, odbc, ZoneKeywords(z));
  }

  /** `setup_irods_zones`. */
  function ZonesSetup(env: Env, zones: seq<Zones.ZoneInfo>, odbc: Option<string>): Run {
    Batch(ZoneRuns(env, zones, odbc), ZonesFailed)
  }

  method SetupIrodsZones(env: Env, zones: seq<Zones.ZoneInfo>, odbc: Option<string>)
    returns (run: Run)
    ensures run == ZonesSetup(env, zones, odbc)
  {
    var events: seq<Event> := [];
    var rc := 0;
    var i := 0;
    while i < |zones|
      invariant 0 <= i <= |zones|
      invariant Collected(ZoneRuns(env, zones[..i], odbc), events, rc)
    {
      events, rc := CollectZone(env, zones, odbc, i, events, rc);
      i := i + 1;
    }
    assert zones[..i] == zones;
    BatchCollected(ZoneRuns(env, zones, odbc), events, rc, ZonesFailed);
    run := Run(events, if rc != 0 then Some(ZonesFailed) else None);
  }

  /** One unit of the zone thread pool: set zone `zones[i]` up and collect
      its result after those of the zones before it. */
  method CollectZone(env: Env, zones: seq<Zones.ZoneInfo>, odbc: Option<string>, i: int,
                     events: seq<Event>, rc: int)
    returns (events': seq<Event>, rc': int)
    requires 0 <= i < |zones|
    requires Collected(ZoneRuns(env, zones[..i], odbc), events, rc)
    ensures Collected(ZoneRuns(env, zones[..i + 1], odbc), events', rc')
  {
    var r := SetupZone(env, zones[i], odbc);
    ZoneRunsSnoc(env, zones, odbc, i);
    BatchStep(ZoneRuns(env, zones[..i], odbc), r, events, rc);
    events' := events + r.events;
    rc' := if r.failure.Some? then 1 else rc;
  }

  /** Every zone's catalog database setup is attempted, whatever the other
      zones do, and the batch fails iff some zone failed. */
  lemma EveryZoneAttempted(env: Env, zones: seq<Zones.ZoneInfo>, odbc: Option<string>, i: int)
    requires 0 <= i < |zones|
    ensures Event(Container(CatalogDatabase, zones[i].databaseServiceInstance), SetupCatalog(false))
      in ZonesSetup(env, zones, odbc).events
    ensures Passed(ZonesSetup(env, zones, odbc)) <==>
      forall j :: 0 <= j < |zones| ==> Passed(ZoneRun(env, zones[j], odbc))
    ensures !Passed(ZonesSetup(env, zones, odbc)) ==> ZonesSetup(env, zones, odbc).failure == Some(ZonesFailed)
  {
    var runs := ZoneRuns(env, zones, odbc);
    forall j | 0 <= j < |zones|
      ensures runs[j] == ZoneRun(env, zones[j], odbc)
    {
      ZoneRunsAt(env, zones, odbc, j);
    }
    var z := zones[i];
    ZonePhaseOrder(env, false, z.providerServiceInstance, z.databaseServiceInstance,
                   z.consumerServiceInstances, odbc, ZoneKeywords(z));
    BatchAttemptsEvery(runs, ZonesFailed, i);
    assert runs[i].events[0] in runs[i].events;
  }
}
