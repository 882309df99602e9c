# iRODS testing environment: zone setup and readiness, modelled in Dafny

The testing environment stands up iRODS servers in compose-managed containers.
Each zone has three kinds of server:

- a catalog database;
- a catalog service provider (CSP);
- any number of catalog service consumers (CSC).

The environment then configures every server, and waits until each one answers.

This project models the coordinating core of that environment:

- **Builder choice.** The setup-input builder family is chosen from the iRODS version installed on a server (`SetupBuilder`).
- **Base builder.** The version-independent builder's `build` selects a renderer by catalog service role (`SetupInputBuilder`).
- **4.2.x builder** (`SetupInputBuilder42`):
  - its documented defaults;
  - its keyword-argument override `setup`;
  - its two renderers, which produce the newline-joined answer script that `setup_irods.py` reads line by line.
- **Zone planning** (`Zones`):
  - the `zone_info` record;
  - the zone and negotiation keys;
  - `get_info_for_zones`, which divides the running consumer instances into per-zone windows.
- **Server setup** (`IrodsSetup`):
  - `setup_irods_server`, the step sequence on one server;
  - the provider and consumer setups;
  - the consumer batch;
  - the database → provider → consumers phases of a zone;
  - the batch of zones.
- **Services** (`Services`):
  - `irods_server_is_ready`;
  - the per-instance retry loops of `wait_for_topology_setup`;
  - the scaling and planning done by `create_topologies`.

`Outcomes` and `Lines` hold the generic pieces: `Option`/`Result`, the order-preserving filter behind the list comprehensions, and Python's `str()`, `'\n'.join` and `split('\n')`.

## How the environment is modelled

Everything the core asks of Docker, compose or a container is an oracle in `IrodsSetup.Env`:

- the exit code of every command;
- the iRODS version of a container;
- the hostname of a container;
- the database server port;
- the list of containers in the project;
- the text that the 4.3.x builder renders.

Every external step is recorded as an `Event`. A `Run` is the list of steps attempted plus the error raised at the end, if any. A raised exception is therefore a `Some(error)` after the last step it allowed.

The readiness probe is an oracle too: for each check and attempt number, it gives whether the command in the container exited with 0.

Thread pools become sequential loops. Both batches wait for every unit and do not depend on the order in which units finish.

## Where the code is followed, or read by intent

**Followed as written**

- **The provider's database container** is looked up with the *provider's* service instance (`irods_setup.py:70-74`). The `database_service_instance` argument therefore has no effect (`IrodsSetup.ProviderIgnoresDatabaseInstance`).
- **An empty consumer list** (`irods_setup.py:150-163`):
  - The code tests the list for truth, and an empty list is false, so it selects every running consumer. This is the same as passing `None`.
  - The docstrings of `setup_irods_catalog_consumers` and `zone_info` say an empty list sets up nothing. The model follows the code.
  - The `len(...) is 0` branch inside the truth test can never be reached.
  - As a consequence, the consumer windows of `get_info_for_zones` are disjoint (`Zones.WindowsDisjoint`), but the consumer *setups* need not be. A zone whose window is empty is planned the empty list, and so sets up every running consumer (`Services.EmptyWindowSetsUpEveryConsumer`). For example, with one consumer per zone, two zones and only consumer 1 running, both zones set consumer 1 up (`Services.TwoZonesShareAConsumer`).

**Read by intent**

- **Bare names in `setup`** (`setup/4_2_x/setup_input_builder.py:79-105`). The method looks every keyword up under a bare name, `kwargs.get(service_account_name, ...)`, and none of those names is defined. The model uses the evidently intended `kwargs.get('service_account_name', ...)`. The code as written is modelled beside it; see Findings.
- **`services.py:146`** calls `irods_setup.get_info_for_zones`. `irods_setup.py` defines no such function and imports nothing from `zone_info.py`, which is where the function lives (`zone_info.py:72-100`). As written, `create_topologies` raises AttributeError after scaling and installing, before any zone is planned. The model uses the evidently intended `zone_info.get_info_for_zones` (`Zones.GetInfoForZones`). The code as written is modelled beside it; see Findings.
- **Three defects that stop the code loading or constructing.** The model assumes the modules load and the 4.2.x builder can be constructed, deriving from the base builder:
  - `from . import 4_2_x` and `from . import 4_3_x` (`setup/setup_builder.py:2-3`);
  - `from . import setup.setup_builder` (`irods_setup.py:12`);
  - the 4.2.x class inheriting from its own name and calling `super(setup_input_builder_4_2_x, self)` (`setup/4_2_x/setup_input_builder.py:1-13`).

## Model

| member | source | states |
|---|---|---|
| Outcomes.Filter | irods_testing_environment/irods_setup.py:155-159 | A list comprehension with a condition never grows the list, and keeps exactly the elements that satisfy the condition. |
| Outcomes.FilterAppend | irods_testing_environment/irods_setup.py:155-159 | A list comprehension with a condition keeps the input's order: applied to a concatenation, it gives the result for the first part followed by the result for the second. |
| Outcomes.FilterSingleton | irods_testing_environment/irods_setup.py:155-159 | A one-element list keeps its element exactly when the condition holds. Together with FilterAppend, this makes the result the in-order subsequence of the elements that pass. |
| Outcomes.FilterAll | irods_testing_environment/irods_setup.py:155-159 | When every element satisfies the condition, the comprehension returns the list unchanged, in its order. |
| Lines.ToStr | irods_testing_environment/setup/4_2_x/setup_input_builder.py:119-140 | `str()` of a string is the string itself. `str()` of an integer is non-empty and has no newline; it reads back as that integer (Lines.ToStrValue). |
| Lines.IntToString | irods_testing_environment/setup/4_2_x/setup_input_builder.py:117-121 | `str(n)` is non-empty, has no newline, and starts with `-` exactly when n is negative. |
| Lines.NatToStringValue | irods_testing_environment/setup/4_2_x/setup_input_builder.py:117-121 | The decimal digits written for a natural number n read back as n. |
| Lines.IntToStringValue | irods_testing_environment/setup/4_2_x/setup_input_builder.py:117-121 | `str(n)` read as a decimal number with an optional minus sign is n. |
| Lines.IntToStringInjective | irods_testing_environment/setup/4_2_x/setup_input_builder.py:117-121 | Different integers get different strings. |
| Lines.ToStrValue | irods_testing_environment/setup/4_2_x/setup_input_builder.py:119-140 | `str()` of an integer answer reads back as that integer. |
| Lines.SplitJoin | irods_testing_environment/setup/4_2_x/setup_input_builder.py:118-141 | Splitting `'\n'.join(lines)` on newlines gives the lines back, when no line contains a newline. This is what lets the setup script read the answers one per line. |
| Containers.ConsumerInstances | irods_testing_environment/irods_setup.py:161-163 | The listed consumer instances are exactly those of the consumer containers in the project, and there are no more of them than containers. Their order and repeats are those of the listing (ConsumerInstancesAppend, ConsumerInstancesSingleton). |
| Containers.ConsumerInstancesAppend | irods_testing_environment/irods_setup.py:161-163 | The comprehension keeps the container listing's order and its repeats: the instances of a concatenation are those of the first part followed by those of the second. |
| Containers.ConsumerInstancesSingleton | irods_testing_environment/irods_setup.py:161-163 | One container gives its instance if it is a consumer, and nothing otherwise. With ConsumerInstancesAppend, this fixes the list as the consumer containers' instances in listing order. |
| SetupBuilder.MakeSetupBuilder | irods_testing_environment/setup/setup_builder.py:12-24 | The result is each outcome if and only if its condition holds: major ≠ 4 gives the 4.x error; 4 with a minor outside 2..3 gives the 4.2/4.3 error; 4.2 gives the 4.2.x builder; 4.3 gives the 4.3.x builder. |
| SetupBuilder.PatchIsIgnored | irods_testing_environment/setup/setup_builder.py:12-21 | The patch number never changes the choice. |
| SetupBuilder.SupportedVersions | irods_testing_environment/setup/setup_builder.py:14-24 | A builder is returned if and only if the version is 4.2.* or 4.3.*. |
| SetupInputBuilder.RoleOf | irods_testing_environment/setup/setup_input_builder.py:46-52 | The role table has an entry for exactly `'provider'` and `'consumer'`. Every other value has none. |
| SetupInputBuilder.Build | irods_testing_environment/setup/setup_input_builder.py:39-55 | `build` returns the provider renderer's output for `'provider'` and the consumer renderer's for `'consumer'`. Any other role raises the unsupported-role error carrying that role. |
| SetupInputBuilder.AbstractSetup | irods_testing_environment/setup/setup_input_builder.py:15-20 | The base class's `setup` always fails. |
| SetupInputBuilder.AbstractBuildInputForCatalogConsumer | irods_testing_environment/setup/setup_input_builder.py:23-29 | The base class's consumer renderer always fails. |
| SetupInputBuilder.AbstractBuildInputForCatalogProvider | irods_testing_environment/setup/setup_input_builder.py:31-37 | The base class's provider renderer always fails. |
| SetupInputBuilder.AbstractBuilderBuildsNothing | irods_testing_environment/setup/setup_input_builder.py:39-55 | On the base class, `build` fails whatever the role. |
| SetupInputBuilder42.Builder.constructor | irods_testing_environment/setup/4_2_x/setup_input_builder.py:8-42 | A new builder holds the documented defaults: zone `tempZone`, port 1247, database port 5432, admin `rods`, provider host `localhost`, empty role. |
| SetupInputBuilder42.Merge | irods_testing_environment/setup/4_2_x/setup_input_builder.py:79-105 | After `setup(**kwargs)`, every field whose keyword was supplied holds the supplied value, and every other field keeps its old value. |
| SetupInputBuilder42.Builder.Setup | irods_testing_environment/setup/4_2_x/setup_input_builder.py:44-107 | `setup` updates the builder's fields as described for Merge, and returns the same builder so that calls chain. |
| SetupInputBuilder42.MergeNothing | irods_testing_environment/setup/4_2_x/setup_input_builder.py:79-105 | `setup()` with no keywords changes nothing. |
| SetupInputBuilder42.MergeTwice | irods_testing_environment/setup/4_2_x/setup_input_builder.py:79-105 | Two `setup` calls equal one call carrying both sets of keywords, with the later call winning. |
| SetupInputBuilder42.MergeIdempotent | irods_testing_environment/setup/4_2_x/setup_input_builder.py:79-105 | Repeating the same `setup` call has no further effect. |
| SetupInputBuilder42.ConsumerLines | irods_testing_environment/setup/4_2_x/setup_input_builder.py:118-141 | The consumer answer list has 19 lines. |
| SetupInputBuilder42.ProviderLines | irods_testing_environment/setup/4_2_x/setup_input_builder.py:150-181 | The provider answer list has 26 lines. |
| SetupInputBuilder42.ConsumerLinesInOrder | irods_testing_environment/setup/4_2_x/setup_input_builder.py:116-141 | Each of the 19 consumer lines, by position: `str()` of the field the script asks for at that point, or the fixed role choice "2", "y" or empty confirmation. |
| SetupInputBuilder42.ProviderLinesInOrder | irods_testing_environment/setup/4_2_x/setup_input_builder.py:149-181 | Each of the 26 provider lines, by position: the field for that question, or the empty role choice, "y" or empty confirmation. |
| SetupInputBuilder42.ConsumerScriptShape | irods_testing_environment/setup/4_2_x/setup_input_builder.py:116-141 | The consumer script has 19 lines: role choice "2" third; zone name and provider host fourth and fifth; "y" as line 12; empty confirmations as lines 17 and 19. |
| SetupInputBuilder42.ProviderScriptShape | irods_testing_environment/setup/4_2_x/setup_input_builder.py:149-181 | The provider script has 26 lines: an empty role choice third; the database host fifth; "y" as lines 9 and 19; empty confirmations as lines 24 and 26. |
| SetupInputBuilder42.ConsumerInputSplits | irods_testing_environment/setup/4_2_x/setup_input_builder.py:110-141 | `build_input_for_catalog_consumer` (BuildInputForCatalogConsumer): when no field contains a newline, the text it returns, read back line by line, is exactly the 19 consumer answers. |
| SetupInputBuilder42.ProviderInputSplits | irods_testing_environment/setup/4_2_x/setup_input_builder.py:143-181 | `build_input_for_catalog_provider` (BuildInputForCatalogProvider): when no field contains a newline, the text it returns, read back line by line, is exactly the 26 provider answers. |
| SetupInputBuilder42.ConsumerBuildReadsBack | irods_testing_environment/setup/setup_input_builder.py:46-52 | A builder whose role is `'consumer'` builds the consumer script, which reads back as the consumer answers. |
| SetupInputBuilder42.BuildRoles | irods_testing_environment/setup/setup_input_builder.py:39-55 | The 4.2.x builder's inherited `build` (SetupInputBuilder42.Build) succeeds if and only if the role is `'provider'` or `'consumer'`. It gives the provider text for `'provider'`, the consumer text for `'consumer'`, and the unsupported-role error carrying the role otherwise. |
| SetupInputBuilder42.BuildAnswersRolePrompt | irods_testing_environment/setup/4_2_x/setup_input_builder.py:110-181 | When no field contains a newline, `build` (SetupInputBuilder42.Build) gives a consumer 19 lines answering the role prompt with "2", and a provider 26 lines answering it with the empty default. |
| SetupInputBuilder42.ConsumerScriptSkipsDatabase | irods_testing_environment/setup/4_2_x/setup_input_builder.py:118-141 | The consumer script asks for none of the seven database fields. |
| SetupInputBuilder42.ConsumerIgnoresDatabase | irods_testing_environment/setup/4_2_x/setup_input_builder.py:118-141 | Changing any of the database fields leaves the consumer input unchanged. |
| SetupInputBuilder42.ProviderIgnoresProviderHost | irods_testing_environment/setup/4_2_x/setup_input_builder.py:150-181 | The provider input does not depend on the catalog service provider host. |
| SetupInputBuilder42.DefaultConsumerZoneSection | irods_testing_environment/setup/4_2_x/setup_input_builder.py:15-42 | With the defaults, the consumer's zone section is `tempZone`, `localhost`, 1247, 20000, 20199, 1248. |
| SetupInputBuilder42.DefaultProviderDatabaseSection | irods_testing_environment/setup/4_2_x/setup_input_builder.py:15-42 | With the defaults, the provider's database section is `localhost`, 5432, `ICAT`, `irods`, password `testpassword`. |
| SetupInputBuilder42.SetupAsWritten | irods_testing_environment/setup/4_2_x/setup_input_builder.py:79 | `setup` as written fails with a NameError on `service_account_name`, whatever the keywords. |
| SetupInputBuilder42.SetupAsWrittenDropsOverrides | irods_testing_environment/setup/4_2_x/setup_input_builder.py:79-105 | Asking for another zone name raises under the code as written, but takes effect under the intended merge. |
| Zones.MakeNegotiationKey | irods_testing_environment/zone_info.py:58-64 | The negotiation key is exactly 32 underscores, whatever the zone names. |
| Zones.MakeZoneKey | irods_testing_environment/zone_info.py:67-69 | The zone key is `ZONE_KEY_FOR_` followed by the zone name. |
| Zones.ZoneKeysDistinct | irods_testing_environment/zone_info.py:67-69 | Distinct zone names give distinct zone keys. |
| Zones.NegotiationKeysHaveRequiredSize | irods_testing_environment/zone_info.py:15-22 | The default negotiation key, and every generated one, has the required 32 bytes. |
| Zones.Window | irods_testing_environment/zone_info.py:77-83 | Zone i's consumers are exactly the listed instances n with i·k < n ≤ (i+1)·k. |
| Zones.WindowInOrder | irods_testing_environment/zone_info.py:77-83 | A zone's consumers are in listing order: the window of a concatenation is the window of the first part followed by the window of the second, and a single instance is kept exactly when it is in the window. |
| Zones.DefaultZoneInfoFields | irods_testing_environment/zone_info.py:15-22 | The defaults of `zone_info` (DefaultZoneInfo): zone `tempZone`, key `TEMPORARY_ZONE_KEY`, the 32-byte default negotiation key, port 1247, database and provider instance 1, and `None` for the consumers. |
| Zones.GetInfoForZones | irods_testing_environment/zone_info.py:72-100 | One entry per zone name, in order (the list ZonePlan). Entry i has that name, its zone key, the 32-byte negotiation key, port 1247, database and provider instance i+1, and the running consumers of window i. |
| Zones.WindowMembers | irods_testing_environment/zone_info.py:77-83 | A zone receives exactly the running consumer instances of its window, and never any other kind of container. |
| Zones.WindowsDisjoint | irods_testing_environment/zone_info.py:81-82 | No consumer instance is planned into two different zones. This holds for the plans only; see EmptyWindowSetsUpEveryConsumer for the setups. |
| Zones.WindowsCover | irods_testing_environment/zone_info.py:75-83 | The windows of zones 0..zoneCount-1 together hold exactly the listed instances in (0, zoneCount·k]. |
| Zones.NoConsumersPerZone | irods_testing_environment/zone_info.py:72-83 | With the default of 0 consumers per zone, every zone's list is empty. |
| IrodsSetup.SetupIrodsServer | irods_testing_environment/irods_setup.py:14-45 | Runs stop, write input, `cat`, setup script and restart, in order. It stops where the source raises. |
| IrodsSetup.ServerSetupOrder | irods_testing_environment/irods_setup.py:26-45 | The steps are a prefix of the fixed five. The setup passes if and only if write, setup script and restart all exit 0. A failed write leaves 2 steps; a failed setup script leaves 4. |
| IrodsSetup.ServerSetupIgnoresStopAndShow | irods_testing_environment/irods_setup.py:26-34 | The exit codes of the stop and `cat` steps never change the outcome. |
| IrodsSetup.ServerStepsStayOnServer | irods_testing_environment/irods_setup.py:14-45 | Every step targets the server being set up. A passing setup has 5 steps, ending with the restart. An input that failed to render runs no step. |
| IrodsSetup.SetupInputRefusals | irods_testing_environment/irods_setup.py:76-83 | Rendering fails with BuilderUnavailable if and only if the version has no builder. For a supported version, it fails with TypeError when a keyword is given twice. Otherwise a 4.2 server gets the 4.2.x rendering of the merged keywords. |
| IrodsSetup.RenderSetupInput | irods_testing_environment/irods_setup.py:76-83 | Creating a builder, then calling `setup(...)` and `build()` on it, gives exactly the input described for SetupInputRefusals. |
| IrodsSetup.Render42Consumer | irods_testing_environment/irods_setup.py:116-121 | Keywords that set the role to consumer render the consumer script, whatever other text they carry. |
| IrodsSetup.SetupIrodsCatalogProvider | irods_testing_environment/irods_setup.py:48-89 | ODBC is configured first, then the provider's input is rendered against the database container and the server is set up. |
| IrodsSetup.ProviderIgnoresDatabaseInstance | irods_testing_environment/irods_setup.py:70-74 | The provider setup is the same whatever database instance the caller names. |
| IrodsSetup.ProviderStepsStayOnProvider | irods_testing_environment/irods_setup.py:62-89 | Every provider step targets the provider container, and the ODBC configuration is the first step. |
| IrodsSetup.ProviderPassEndsWithRestart | irods_testing_environment/irods_setup.py:89 | A passing provider setup ends with the provider's restart. |
| IrodsSetup.SetupIrodsCatalogConsumer | irods_testing_environment/irods_setup.py:92-128 | The consumer's input is rendered with role consumer and the provider's hostname, and the consumer's server is set up. |
| IrodsSetup.ConsumerStepsStayOnConsumer | irods_testing_environment/irods_setup.py:104-128 | Every consumer step targets that consumer's container. |
| IrodsSetup.ConsumerInputNamesProvider | irods_testing_environment/irods_setup.py:116-121 | On a 4.2 consumer, the input is the 19-line consumer script. Its role line is "2" and its provider-host line is the provider container's hostname. |
| IrodsSetup.SelectListed | irods_testing_environment/irods_setup.py:150-159 | A non-empty list selects exactly the running instances it names, and never more instances than are running. |
| IrodsSetup.SelectInOrder | irods_testing_environment/irods_setup.py:150-159 | The selection keeps the listing's order: selecting from a concatenation is selecting from each part, one after the other. With a non-empty list, a single running instance is kept exactly when the list names it. |
| IrodsSetup.SelectEmptySelectsAll | irods_testing_environment/irods_setup.py:150-163 | Both an empty list and `None` select every running consumer. |
| IrodsSetup.SelectEverything | irods_testing_environment/irods_setup.py:155-159 | A list naming every running instance keeps the listing unchanged, in order. |
| IrodsSetup.Batch | irods_testing_environment/irods_setup.py:165-193 | A batch passes if and only if every unit passed. Otherwise it raises the batch's own error. |
| IrodsSetup.BatchAttemptsEvery | irods_testing_environment/irods_setup.py:167-189 | Every unit's steps appear whole and in place in the batch, whatever the other units do. |
| IrodsSetup.SetupConsumerBatch | irods_testing_environment/irods_setup.py:165-193 | The loop over the selected consumers, collecting each unit's result, gives exactly the batch of their setups. |
| IrodsSetup.SetupIrodsCatalogConsumers | irods_testing_environment/irods_setup.py:130-193 | Sets up the selected consumers as one batch. |
| IrodsSetup.ConsumersAttemptedAndCollected | irods_testing_environment/irods_setup.py:165-193 | Every step of every selected consumer's setup occurs in the batch. The batch passes if and only if every selected consumer passed. |
| IrodsSetup.SetupIrodsZone | irods_testing_environment/irods_setup.py:195-234 | Runs the catalog database, then the provider, then the consumers. A phase that raises stops the rest. |
| IrodsSetup.ZonePhaseOrder | irods_testing_environment/irods_setup.py:216-234 | The database setup is the first step. The zone passes if and only if all three phases pass. A consumer step only happens after the database and the provider passed, with the provider's restart earlier in the run. |
| IrodsSetup.DatabaseFailureStopsZone | irods_testing_environment/irods_setup.py:216-234 | If the database setup fails, the run is that one step and its failure. No provider step happens unless the database setup passed. If the provider fails, the run ends with the provider's steps and its failure. |
| IrodsSetup.SetupZone | irods_testing_environment/irods_setup.py:245-254 | A zone is set up with its instances, its consumers and its name and keys. Its port is not passed. |
| IrodsSetup.SetupIrodsZones | irods_testing_environment/irods_setup.py:236-269 | The loop over the zones gives exactly the batch of their setups. |
| IrodsSetup.EveryZoneAttempted | irods_testing_environment/irods_setup.py:241-269 | Every zone's catalog database setup is attempted. The batch passes if and only if every zone passed. A failure raises the zones error. |
| Services.IrodsServerIsReady | irods_testing_environment/services.py:21-46 | A negative repeat count raises and runs nothing. Otherwise the result is true if and only if the first repeat+1 probes succeed. A false result comes after successes ending in the first failed probe. Never more than repeat+1 probes are run. |
| Services.WaitForInstance | irods_testing_environment/services.py:77-83 | One instance's retry loop makes exactly the checks InstanceChecks describes. |
| Services.InstanceChecksShape | irods_testing_environment/services.py:77-83 | Retries are numbered 0, 1, … with the same repeat count. Every check before the last found the server not ready. The last check found it ready or reached the retry limit. |
| Services.InstanceChecksBounded | irods_testing_environment/services.py:98-104 | An instance is checked at least once and at most retries+1 times (once when retries ≤ 0). |
| Services.InstanceEndsReady | irods_testing_environment/services.py:77-83 | The loop ends with the server ready if and only if some retry up to the limit finds it ready. |
| Services.InstanceCheckMembers | irods_testing_environment/services.py:64-83 | The loop checks only its own instance, with its repeat count, starting at retry 0 and never past the limit. |
| Services.WaitForConsumers | irods_testing_environment/services.py:85-104 | Checks consumers 1 to consumer_count in turn, each with its own retry count. |
| Services.ConsumerCheckMembers | irods_testing_environment/services.py:85-104 | A zone's consumer checks are all of consumers 1..count with repeat count 0, and each such consumer is checked. |
| Services.WaitForTopologySetup | irods_testing_environment/services.py:48-104 | The zone-by-zone loop makes exactly the checks TopologyChecks describes. |
| Services.TopologyChecksExpected | irods_testing_environment/services.py:64-104 | Every check is either the zone's provider (instance zone+1, repeat count 4) or a consumer 1..consumer_count (repeat count 0), within the retry limit. |
| Services.TopologyCoverage | irods_testing_environment/services.py:64-104 | In every zone s, provider s+1 and every consumer 1..consumer_count is checked. |
| Services.ZoneNames | irods_testing_environment/services.py:143 | `zone_count` copies of the zone name (none when the count is negative). |
| Services.CreateTopologies | irods_testing_environment/services.py:107-148 | Scales databases and providers to zone_count and consumers to consumer_count·zone_count. Plans one zone per name (the ZonePlan of `get_info_for_zones`), with that name, its zone key, the 32-byte negotiation key, port 1247, instances i+1 and consumer window i, and sets up all of them. |
| Services.CreateTopologiesAsWritten | irods_testing_environment/services.py:146 | `create_topologies` as written: after scaling, the call to `irods_setup.get_info_for_zones` raises AttributeError. |
| Services.CreateTopologiesAsWrittenSetsUpNoZone | irods_testing_environment/services.py:143-148 | With at least one zone, the code as written raises before any zone setup. The intended planning sets up the first zone's catalog database. |
| Services.EmptyWindowSetsUpEveryConsumer | irods_testing_environment/irods_setup.py:150-163 | A zone planned with an empty window sets up every running consumer of the project. |
| Services.TwoZonesShareAConsumer | irods_testing_environment/zone_info.py:77-83 | With one consumer per zone, two zones and only consumer 1 running, zone 0 is planned [1] and zone 1 is planned []. Both select consumer 1 for setup. |
| Services.ScaledConsumersPartitioned | irods_testing_environment/services.py:131-146 | When the project holds exactly the consumers it was scaled to, each one is planned into exactly one zone. |

## Left out

- **Docker, compose and container lookup** (`containers.get`, `compose_project.containers`, container names, `container_hostname`) are the oracles of `IrodsSetup.Env`. The model is only as good as those oracles.
- **`execute.execute_command`** is the `Env.execute` exit-code oracle. The commands' text is not modelled; in particular, the setup input is not shell-quoted inside `echo "..."`.
- **Readiness probes** (`ils` run as user `irods`) are the `Probes` oracle. `time.sleep` and the waits between retries are left out, because the outcomes never depend on time.
- **Logging** is left out everywhere. This includes the misnamed consumer container (`i + 1`) that appears only in log messages (`irods_setup.py:179-180`).
- **Thread pools.** `ThreadPoolExecutor` and `as_completed` are run as sequential loops. The result of a batch does not depend on completion order. Concurrent interleaving of steps across units is not modelled.
- **External setup modules.** `database_setup.setup_catalog`, `database_setup.database_server_port` and `odbc_setup.configure_odbc_driver` are not part of this model. The source ignores the return values of `setup_catalog` (`irods_setup.py:217-219`) and `configure_odbc_driver` (`irods_setup.py:68`); only an exception they raise stops the run. A non-zero code from `Env.execute` for these steps stands for "raised". `database_server_port` is the `Env.databasePort` value.
- **`irods_config.get_irods_version`** is the `Env.version` oracle.
- **The 4.3.x builder** (`setup/4_3_x`) is not part of this model. Its output is the `Env.render43` oracle.
- **`create_topologies` steps before planning.** `install.make_installer(...).install_irods_packages` and the compose `build`/`up` calls are left out. `CreateTopologies` returns the scale it would request, then plans and sets up the zones.
- **`zone_info.provider_hostname`** (`zone_info.py:47-55`) is a pure container lookup and is left out.
- **Unsupported keywords.** A keyword that names no builder field is ignored by `setup`, so the model does not represent it. Keywords that collide with a function's own parameter names (for example `odbc_driver` passed through `**kwargs`) are also not modelled.
- **`discovery.py`, `run_core_tests.py` and `run_topology_tests.py`** are outside the core. This covers repository cloning, the test runners and discovery.
- **SetupInputBuilder42.DefaultConsumerZoneSection:** states the defaulted consumer text only for its zone section. `ConsumerLinesInOrder` gives every line in terms of the fields.
- **SetupInputBuilder42.DefaultProviderDatabaseSection:** states the defaulted provider text only for its database section. `ProviderLinesInOrder` gives every line in terms of the fields.
- **SetupInputBuilder42.Builder.BuildInput** carries no contract of its own. It is `SetupInputBuilder42.Build` on the builder's fields, and the lemmas above are about that function.
- **Integers** are unbounded. Python's integers are too, so no width is modelled.

## Findings

| source | as written | input that shows it | evidently intended | confidence | as-written member | corrected member |
|---|---|---|---|---|---|---|
| irods_testing_environment/setup/4_2_x/setup_input_builder.py:79-105 | `kwargs.get(service_account_name, self.service_account_name)` and likewise for every field: the key is a bare name, which is not defined in `setup` | `setup(zone_name='otherZone')` on a fresh 4.2.x builder raises NameError on `service_account_name` instead of setting the zone name | `kwargs.get('service_account_name', ...)`: the keyword's own name as a string key | not executed | SetupInputBuilder42.SetupAsWrittenDropsOverrides | SetupInputBuilder42.Merge |
| irods_testing_environment/services.py:146 | `irods_setup.get_info_for_zones(ctx, zone_names, consumer_count)`: `irods_setup` defines no `get_info_for_zones` and imports nothing from `zone_info` | `create_topologies(ctx, 1)` scales and installs, then raises AttributeError, and no zone is planned or set up | `zone_info.get_info_for_zones(...)`, the planner defined at `zone_info.py:72-100` | not executed | Services.CreateTopologiesAsWrittenSetsUpNoZone | Services.CreateTopologies |
