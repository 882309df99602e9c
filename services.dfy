/** The services that bring a test topology up and wait for it: the readiness
    probe of one iRODS server, the per-instance retry loops over a whole
    topology, and the scaling plan of `create_topologies`. Every command run in
    a container is an oracle: the probe outcomes are given as functions. */
module Services {
  import opened Outcomes
  import opened Containers
  import Zones
  import IrodsSetup

  /** `irods_server_is_ready` refuses a negative repeat count. */
  datatype ReadyError = NegativeRepeatAttempts

  /** The first `n` probes, counted from 0, all succeed. */
  predicate Succeeds(probe: nat -> bool, n: int) {
    forall a: nat :: a < n ==> probe(a)
  }

  /** `irods_server_is_ready`: probe `probe(0)`, `probe(1)`, ... (each the exit
      status of one run of the command, true for 0) until one fails or
      `repeatAttempts + 1` have succeeded. `probes` is how many were run. */
  method IrodsServerIsReady(probe: nat -> bool, repeatAttempts: int)
    returns (r: Result<bool, ReadyError>, probes: nat)
    ensures repeatAttempts < 0 ==> r == Err(NegativeRepeatAttempts) && probes == 0
    ensures repeatAttempts >= 0 ==> r.Ok?
    ensures r.Ok? ==> (r.value <==> Succeeds(probe, repeatAttempts + 1))
    ensures r.Ok? ==> 1 <= probes <= repeatAttempts + 1
    ensures r == Ok(true) ==> probes == repeatAttempts + 1
    ensures r == Ok(false) ==> Succeeds(probe, probes - 1) && !probe(probes - 1)
  {
    if repeatAttempts < 0 {
      return Err(NegativeRepeatAttempts), 0;
    }
    var attempt: nat := 0;
    while probe(attempt)
      invariant attempt <= repeatAttempts
      invariant Succeeds(probe, attempt)
      decreases repeatAttempts - attempt
    {
      if attempt == repeatAttempts {
        return Ok(true), attempt + 1;
      }
      attempt := attempt + 1;
    }
    return Ok(false), attempt + 1;
  }

  /** One readiness check of `wait_for_topology_setup`: the zone being
      waited for, the container checked and the retry number (0 first). */
  datatype Attempt = Attempt(zone: int, target: Container, retry: nat)

  /** A readiness check as it happened: which, with which repeat count, and
      whether the server was found ready. */
  datatype Check = Check(attempt: Attempt, repeatAttempts: nat, ready: bool)

  /** The outcome of the `a`-th command run during readiness check `at`. */
  type Probes = (Attempt, nat) -> bool

  /** The probe stream of one readiness check. */
  function ProbesOf(probe: Probes, at: Attempt): nat -> bool {
    (a: nat) => probe(at, a)
  }

  /** A readiness check finds the server ready. */
  predicate Ready(probe: Probes, at: Attempt, repeatAttempts: nat) {
    Succeeds(ProbesOf(probe, at), repeatAttempts + 1)
  }

  /** The highest retry number a retry loop can reach: `retry_count >= retries`
      stops it at once for a negative `retries`. */
  function RetryLimit(retries: int): nat {
    if retries < 0 then 0 else retries
  }

  /** The checks of one instance's retry loop, from retry number `retry` on:
      check, and stop when ready or when `retry >= retries`. */
  function InstanceChecks(probe: Probes, zone: int, target: Container, repeatAttempts: nat,
                          retries: int, retry: nat): (checks: seq<Check>)
    ensures |checks| >= 1
    decreases if retry >= retries then 0 else retries - retry
  {
    var at := Attempt(zone, target, retry);
    var ok := Ready(probe, at, repeatAttempts);
    [Check(at, repeatAttempts, ok)] +
      (if ok || retry >= retries then []
       else InstanceChecks(probe, zone, target, repeatAttempts, retries, retry + 1))
  }

  /** One readiness check: `irods_server_is_ready` on the check's probes. */
  method CheckReady(probe: Probes, at: Attempt, repeatAttempts: nat) returns (ok: bool)
    ensures ok == Ready(probe, at, repeatAttempts)
  {
    var r, probes := IrodsServerIsReady(ProbesOf(probe, at), repeatAttempts);
    ok := r == Ok(true);
  }

  /** One instance's retry loop; `retry_count` starts at 0 for every instance. */
  method WaitForInstance(probe: Probes, zone: int, target: Container, repeatAttempts: nat,
                         retries: int)
    returns (checks: seq<Check>)
    ensures checks == InstanceChecks(probe, zone, target, repeatAttempts, retries, 0)
  {
    checks := [];
    var retry: nat := 0;
    var done := false;
    while !done
      invariant done ==> checks == InstanceChecks(probe, zone, target, repeatAttempts, retries, 0)
      invariant !done ==>
        checks + InstanceChecks(probe, zone, target, repeatAttempts, retries, retry) ==
        InstanceChecks(probe, zone, target, repeatAttempts, retries, 0)
      decreases !done, if retry >= retries then 0 else retries - retry
    {
      var at := Attempt(zone, target, retry);
      var ok := CheckReady(probe, at, repeatAttempts);
      var step := [Check(at, repeatAttempts, ok)];
      if ok || retry >= retries {
        checks := checks + step;
        done := true;
      } else {
        assert checks + InstanceChecks(probe, zone, target, repeatAttempts, retries, retry) ==
          (checks + step) + InstanceChecks(probe, zone, target, repeatAttempts, retries, retry + 1);
        checks := checks + step;
        retry := retry + 1;
      }
    }
  }

  /** The repeat count `wait_for_topology_setup` uses for a provider. */
  const ProviderRepeatAttempts: nat := 4

  /** The provider container waited for in zone `zone`. */
  function ProviderOf(zone: int): Container {
    Container(CatalogProvider, zone + 1)
  }

  /** The checks of consumers 1..count in zone `zone`, in that order. */
  function ConsumerChecks(probe: Probes, zone: int, count: int, retries: int): seq<Check>
    decreases count
  {
    if count <= 0 then []
    else ConsumerChecks(probe, zone, count - 1, retries) +
         InstanceChecks(probe, zone, Container(CatalogConsumer, count), 0, retries, 0)
  }

  /** Zone `zone`: its provider, instance zone+1, then every consumer. */
  function ZoneChecks(probe: Probes, zone: int, consumerCount: int, retries: int): seq<Check> {
    InstanceChecks(probe, zone, ProviderOf(zone), ProviderRepeatAttempts, retries, 0)
      + ConsumerChecks(probe, zone, consumerCount, retries)
  }

  /** The checks of zones 0..zoneCount-1, in that order. */
  function TopologyChecks(probe: Probes, zoneCount: int, consumerCount: int, retries: int): seq<Check>
    decreases zoneCount
  {
    if zoneCount <= 0 then []
    else TopologyChecks(probe, zoneCount - 1, consumerCount, retries) +
         ZoneChecks(probe, zoneCount - 1, consumerCount, retries)
  }

  /** The consumers' part of one zone's wait: consumers 1..count in turn,
      each with its own retry count. */
  method WaitForConsumers(probe: Probes, zone: int, count: int, retries: int)
    returns (checks: seq<Check>)
    ensures checks == ConsumerChecks(probe, zone, count, retries)
  {
    checks := [];
    var c := 0;
    while c < count
      invariant 0 <= c && (c <= count || c == 0)
      invariant checks == ConsumerChecks(probe, zone, c, retries)
    {
      var consumer := WaitForInstance(probe, zone, Container(CatalogConsumer, c + 1), 0, retries);
      checks := checks + consumer;
      c := c + 1;
    }
    if count < 0 {
      assert ConsumerChecks(probe, zone, count, retries) == [];
    }
  }

  /** One zone's wait: its provider, then its consumers. */
  method WaitForZone(probe: Probes, zone: int, consumerCount: int, retries: int)
    returns (checks: seq<Check>)
    ensures checks == ZoneChecks(probe, zone, consumerCount, retries)
  {
    var provider := WaitForInstance(probe, zone, ProviderOf(zone), ProviderRepeatAttempts, retries);
    var consumers := WaitForConsumers(probe, zone, consumerCount, retries);
    checks := provider + consumers;
  }

  /** `wait_for_topology_setup`: it has no failure outcome; it returns the
      readiness checks it made. */
  method WaitForTopologySetup(probe: Probes, zoneCount: int, consumerCount: int, retries: int)
    returns (checks: seq<Check>)
    ensures checks == TopologyChecks(probe, zoneCount, consumerCount, retries)
  {
    checks := [];
    var s := 0;
    while s < zoneCount
      invariant 0 <= s && (s <= zoneCount || s == 0)
      invariant checks == TopologyChecks(probe, s, consumerCount, retries)
    {
      var zone := WaitForZone(probe, s, consumerCount, retries);
      checks := checks + zone;
      s := s + 1;
    }
    if zoneCount < 0 {
      assert TopologyChecks(probe, zoneCount, consumerCount, retries) == [];
    }
  }

  /** The retry loop of one instance checks retry numbers 0, 1, ... in turn,
      each with the same repeat count; it stops at the first check that finds
      the server ready, or else at the retry limit, and never runs past it. */
  lemma {:induction false} InstanceChecksShape(probe: Probes, zone: int, target: Container,
                                               repeatAttempts: nat, retries: int, retry: nat)
    ensures var cs := InstanceChecks(probe, zone, target, repeatAttempts, retries, retry);
      && retry + |cs| - 1 <= (if retries > retry then retries else retry)
      && (forall j :: 0 <= j < |cs| ==>
            cs[j].attempt == Attempt(zone, target, retry + j)
            && cs[j].repeatAttempts == repeatAttempts
            && cs[j].ready == Ready(probe, cs[j].attempt, repeatAttempts))
      && (forall j :: 0 <= j < |cs| - 1 ==> !cs[j].ready)
      && (cs[|cs| - 1].ready || retry + |cs| - 1 >= retries)
    decreases if retry >= retries then 0 else retries - retry
  {
    var at := Attempt(zone, target, retry);
    var ok := Ready(probe, at, repeatAttempts);
    if !(ok || retry >= retries) {
      InstanceChecksShape(probe, zone, target, repeatAttempts, retries, retry + 1);
      var cs := InstanceChecks(probe, zone, target, repeatAttempts, retries, retry);
      var tail := InstanceChecks(probe, zone, target, repeatAttempts, retries, retry + 1);
      assert cs == [Check(at, repeatAttempts, ok)] + tail;
      forall j | 0 <= j < |cs|
        ensures cs[j].attempt == Attempt(zone, target, retry + j)
      {
        if j > 0 {
          assert cs[j] == tail[j - 1];
        }
      }
    }
  }

  /** An instance is checked at most `retries + 1` times (once when `retries`
      is not positive). */
  lemma InstanceChecksBounded(probe: Probes, zone: int, target: Container,
                              repeatAttempts: nat, retries: int)
    ensures 1 <= |InstanceChecks(probe, zone, target, repeatAttempts, retries, 0)| <= RetryLimit(retries) + 1
  {
    InstanceChecksShape(probe, zone, target, repeatAttempts, retries, 0);
  }

  /** The retry loop ends with the server found ready exactly when one of the
      checks it may make, retry 0 up to the retry limit, finds it ready. */
  lemma InstanceEndsReady(probe: Probes, zone: int, target: Container,
                          repeatAttempts: nat, retries: int)
    ensures var cs := InstanceChecks(probe, zone, target, repeatAttempts, retries, 0);
      cs[|cs| - 1].ready <==>
        exists j :: 0 <= j <= RetryLimit(retries) && Ready(probe, Attempt(zone, target, j), repeatAttempts)
  {
    var cs := InstanceChecks(probe, zone, target, repeatAttempts, retries, 0);
    InstanceChecksShape(probe, zone, target, repeatAttempts, retries, 0);
    if cs[|cs| - 1].ready {
      assert Ready(probe, Attempt(zone, target, |cs| - 1), repeatAttempts);
    } else {
      forall j | 0 <= j <= RetryLimit(retries)
        ensures !Ready(probe, Attempt(zone, target, j), repeatAttempts)
      {
        assert cs[j].attempt == Attempt(zone, target, j);
      }
    }
  }

  /** What an instance's retry loop checks: only that instance, in that zone,
      with that repeat count, with retry numbers up to the limit, starting with
      retry 0. */
  lemma InstanceCheckMembers(probe: Probes, zone: int, target: Container,
                             repeatAttempts: nat, retries: int)
    ensures var cs := InstanceChecks(probe, zone, target, repeatAttempts, retries, 0);
      && cs[0].attempt == Attempt(zone, target, 0)
      && forall c :: c in cs ==>
           && c.attempt.zone == zone && c.attempt.target == target
           && c.repeatAttempts == repeatAttempts && c.attempt.retry <= RetryLimit(retries)
  {
    InstanceChecksShape(probe, zone, target, repeatAttempts, retries, 0);
  }

  /** A check of `wait_for_topology_setup` within `zoneCount` zones of
      `consumerCount` consumers each: the zone's provider with repeat count 4,
      or one of the consumers 1..consumerCount with repeat count 0. */
  predicate Expected(c: Check, zoneCount: int, consumerCount: int, retries: int) {
    && 0 <= c.attempt.zone < zoneCount
    && c.attempt.retry <= RetryLimit(retries)
    && ((c.attempt.target == Container(CatalogProvider, c.attempt.zone + 1)
         && c.repeatAttempts == ProviderRepeatAttempts)
        || (c.attempt.target.service == CatalogConsumer
            && 1 <= c.attempt.target.instance <= consumerCount
            && c.repeatAttempts == 0))
  }

  /** The first check of an instance in zone `zone`. */
  predicate FirstChecked(checks: seq<Check>, zone: int, target: Container) {
    exists c :: c in checks && c.attempt == Attempt(zone, target, 0)
  }

  /** Zone `zone`'s consumer checks: exactly consumers 1..count, each checked. */
  lemma {:induction false} ConsumerCheckMembers(probe: Probes, zone: int, count: int, retries: int)
    ensures forall c :: c in ConsumerChecks(probe, zone, count, retries) ==>
      && c.attempt.zone == zone && c.attempt.retry <= RetryLimit(retries)
      && c.attempt.target.service == CatalogConsumer
      && 1 <= c.attempt.target.instance <= count && c.repeatAttempts == 0
    ensures forall n :: 1 <= n <= count ==>
      FirstChecked(ConsumerChecks(probe, zone, count, retries), zone, Container(CatalogConsumer, n))
    decreases count
  {
    if count > 0 {
      ConsumerCheckMembers(probe, zone, count - 1, retries);
      InstanceCheckMembers(probe, zone, Container(CatalogConsumer, count), 0, retries);
      var last := InstanceChecks(probe, zone, Container(CatalogConsumer, count), 0, retries, 0);
      assert last[0] in last;
    }
  }

  /** Every check `wait_for_topology_setup` makes is an expected one. */
  lemma {:induction false} TopologyChecksExpected(probe: Probes, zoneCount: int,
                                                  consumerCount: int, retries: int)
    ensures forall c :: c in TopologyChecks(probe, zoneCount, consumerCount, retries) ==>
      Expected(c, zoneCount, consumerCount, retries)
    decreases zoneCount
  {
    if zoneCount > 0 {
      var z := zoneCount - 1;
      var earlier := TopologyChecks(probe, z, consumerCount, retries);
      var provider := InstanceChecks(probe, z, ProviderOf(z), ProviderRepeatAttempts, retries, 0);
      var consumers := ConsumerChecks(probe, z, consumerCount, retries);
      TopologyChecksExpected(probe, z, consumerCount, retries);
      InstanceCheckMembers(probe, z, ProviderOf(z), ProviderRepeatAttempts, retries);
      ConsumerCheckMembers(probe, z, consumerCount, retries);
      forall c | c in earlier + (provider + consumers)
        ensures Expected(c, zoneCount, consumerCount, retries)
      {
        if c in earlier {
          assert Expected(c, z, consumerCount, retries);
        } else if c in provider {
        } else {
          assert c in consumers;
        }
      }
    }
  }

  /** A zone's checks are all in the topology's log. */
  lemma {:induction false} ZoneInTopology(probe: Probes, zoneCount: int, consumerCount: int,
                                          retries: int, s: int, c: Check)
    requires 0 <= s < zoneCount
    requires c in ZoneChecks(probe, s, consumerCount, retries)
    ensures c in TopologyChecks(probe, zoneCount, consumerCount, retries)
    decreases zoneCount
  {
    if s < zoneCount - 1 {
      ZoneInTopology(probe, zoneCount - 1, consumerCount, retries, s, c);
    }
  }

  /** In every zone `s`, `wait_for_topology_setup` checks provider instance
      s+1 and every consumer instance 1..consumerCount. */
  lemma TopologyCoverage(probe: Probes, zoneCount: int, consumerCount: int, retries: int)
    ensures forall s :: 0 <= s < zoneCount ==>
      FirstChecked(TopologyChecks(probe, zoneCount, consumerCount, retries), s, ProviderOf(s))
    ensures forall s, n :: 0 <= s < zoneCount && 1 <= n <= consumerCount ==>
      FirstChecked(TopologyChecks(probe, zoneCount, consumerCount, retries), s,
                   Container(CatalogConsumer, n))
  {
    var all := TopologyChecks(probe, zoneCount, consumerCount, retries);
    forall s | 0 <= s < zoneCount
      ensures FirstChecked(all, s, ProviderOf(s))
    {
      InstanceCheckMembers(probe, s, ProviderOf(s), ProviderRepeatAttempts, retries);
      var provider := InstanceChecks(probe, s, ProviderOf(s), ProviderRepeatAttempts, retries, 0);
      assert provider[0] in ZoneChecks(probe, s, consumerCount, retries);
      ZoneInTopology(probe, zoneCount, consumerCount, retries, s, provider[0]);
    }
    forall s, n | 0 <= s < zoneCount && 1 <= n <= consumerCount
      ensures FirstChecked(all, s, Container(CatalogConsumer, n))
    {
      ConsumerCheckMembers(probe, s, consumerCount, retries);
      var c :| c in ConsumerChecks(probe, s, consumerCount, retries)
        && c.attempt == Attempt(s, Container(CatalogConsumer, n), 0);
      ZoneInTopology(probe, zoneCount, consumerCount, retries, s, c);
    }
  }

  /** The number of containers `create_topologies` scales each service to. */
  datatype Scale = Scale(databases: int, providers: int, consumers: int)

  function TopologyScale(zoneCount: int, consumerCount: int): Scale {
    Scale(zoneCount, zoneCount, consumerCount * zoneCount)
  }

  /** `[zone_name for i in range(zone_count)]`. */
  function ZoneNames(zoneName: string, zoneCount: int): (names: seq<string>)
    ensures |names| == (if zoneCount < 0 then 0 else zoneCount)
    ensures forall i :: 0 <= i < |names| ==> names[i] == zoneName
  {
    seq(if zoneCount < 0 then 0 else zoneCount, _ => zoneName)
  }

  /** `create_topologies` after the project is up: plan the zones over the
      containers there are and set them all up. */
  method CreateTopologies(env: IrodsSetup.Env, zoneCount: int, zoneName: string,
                          consumerCount: int, odbc: Option<string>)
    returns (scale: Scale, infos: seq<Zones.ZoneInfo>, run: IrodsSetup.Run)
    ensures scale == Scale(zoneCount, zoneCount, consumerCount * zoneCount)
    ensures |infos| == (if zoneCount < 0 then 0 else zoneCount)
    ensures forall i :: 0 <= i < |infos| ==>
      && infos[i].zoneName == zoneName
      && infos[i].zoneKey == Zones.MakeZoneKey(zoneName)
      && infos[i].negotiationKey == Zones.MakeNegotiationKey(zoneName, "")
      && infos[i].zonePort == 1247
      && infos[i].databaseServiceInstance == i + 1
      && infos[i].providerServiceInstance == i + 1
      && infos[i].consumerServiceInstances ==
         Some(Zones.Window(ConsumerInstances(env.containers), i, consumerCount))
    ensures infos == Zones.ZonePlan(env.containers, ZoneNames(zoneName, zoneCount), consumerCount)
    ensures run == IrodsSetup.ZonesSetup(env, infos, odbc)
  {
    scale := TopologyScale(zoneCount, consumerCount);
    var names := ZoneNames(zoneName, zoneCount);
    infos := Zones.GetInfoForZones(env.containers, names, consumerCount);
    run := IrodsSetup.SetupIrodsZones(env, infos, odbc);
  }

  /** When the project holds exactly the consumers `create_topologies` scaled
      to, numbered 1..consumerCount*zoneCount, every one of them is planned
      into exactly one of the zones. */
  lemma ScaledConsumersPartitioned(listing: seq<int>, zoneCount: nat, consumerCount: int, n: int)
    requires forall m :: m in listing <==> 1 <= m <= TopologyScale(zoneCount, consumerCount).consumers
    requires n in listing
    ensures exists i :: 0 <= i < zoneCount && n in Zones.Window(listing, i, consumerCount)
    ensures forall i, j :: (0 <= i < zoneCount && 0 <= j < zoneCount &&
      n in Zones.Window(listing, i, consumerCount) && n in Zones.Window(listing, j, consumerCount)) ==> i == j
  {
    Zones.WindowsCover(listing, zoneCount, consumerCount, n);
    forall i, j | 0 <= i < zoneCount && 0 <= j < zoneCount &&
      n in Zones.Window(listing, i, consumerCount) && n in Zones.Window(listing, j, consumerCount)
      ensures i == j
    {
      if i != j {
        Zones.WindowsDisjoint(listing, i, j, consumerCount, n);
      }
    }
  }

  /** `create_topologies` as written: it calls `get_info_for_zones` on the
      `irods_setup` module, which defines no such attribute. */
  datatype TopologyError = AttributeError(owner: string, name: string)

  /** What `create_topologies` as written gets to: the project is scaled, and
      then the planning call raises, so no zone is planned or set up. */
  datatype TopologyOutcome = TopologyOutcome(scale: Scale, zones: Result<IrodsSetup.Run, TopologyError>)

  function CreateTopologiesAsWritten(env: IrodsSetup.Env, zoneCount: int, zoneName: string,
                                     consumerCount: int, odbc: Option<string>): (r: TopologyOutcome)
    ensures r.scale == Scale(zoneCount, zoneCount, consumerCount * zoneCount)
    ensures r.zones == Err(AttributeError("irods_setup", "get_info_for_zones"))
  {
    TopologyOutcome(TopologyScale(zoneCount, consumerCount),
                    Err(AttributeError("irods_setup", "get_info_for_zones")))
  }

  /** The discrepancy: with at least one zone, the code as written raises
      before any zone setup, while the intended planning call sets up the
      catalog database of the first zone (and of every other). */
  lemma CreateTopologiesAsWrittenSetsUpNoZone(env: IrodsSetup.Env, zoneCount: int, zoneName: string,
                                              consumerCount: int, odbc: Option<string>)
    requires zoneCount >= 1
    ensures CreateTopologiesAsWritten(env, zoneCount, zoneName, consumerCount, odbc).zones.Err?
    ensures var infos := Zones.ZonePlan(env.containers, ZoneNames(zoneName, zoneCount), consumerCount);
      IrodsSetup.Event(Container(CatalogDatabase, 1), IrodsSetup.SetupCatalog(false))
        in IrodsSetup.ZonesSetup(env, infos, odbc).events
  {
    var infos := Zones.ZonePlan(env.containers, ZoneNames(zoneName, zoneCount), consumerCount);
    assert infos[0].databaseServiceInstance == 1;
    IrodsSetup.EveryZoneAttempted(env, infos, odbc, 0);
  }

  /** A zone planned with an empty window gets the empty list, and the
      consumer setup reads the empty list as "every running consumer": such a
      zone sets up all the consumers of the project. */
  lemma EmptyWindowSetsUpEveryConsumer(env: IrodsSetup.Env, zoneNames: seq<string>, k: int, i: int)
    requires 0 <= i < |zoneNames|
    requires Zones.Window(ConsumerInstances(env.containers), i, k) == []
    ensures IrodsSetup.ConsumerSelection(env,
      Zones.ZonePlan(env.containers, zoneNames, k)[i].consumerServiceInstances) ==
      ConsumerInstances(env.containers)
  {
    IrodsSetup.SelectEmptySelectsAll(ConsumerInstances(env.containers));
  }

  /** So the windows are disjoint, but the setups need not be: with one
      consumer per zone, two zones and only consumer 1 running, zone 0 is
      planned consumer 1, zone 1 is planned nothing, and both set consumer 1 up. */
  lemma TwoZonesShareAConsumer(env: IrodsSetup.Env)
    requires env.containers == [Container(CatalogConsumer, 1)]
    ensures var plan := Zones.ZonePlan(env.containers, ["a", "b"], 1);
      && plan[0].consumerServiceInstances == Some([1])
      && plan[1].consumerServiceInstances == Some([])
      && IrodsSetup.ConsumerSelection(env, plan[0].consumerServiceInstances) == [1]
      && IrodsSetup.ConsumerSelection(env, plan[1].consumerServiceInstances) == [1]
  {
    var listing := ConsumerInstances(env.containers);
    assert listing == [1] by {
      assert env.containers[..0] == [];
    }
    assert Zones.Window(listing, 0, 1) == [1] by {
      assert listing[..0] == [];
    }
    assert Zones.Window(listing, 1, 1) == [] by {
      assert listing[..0] == [];
    }
    IrodsSetup.SelectEmptySelectsAll(listing);
    IrodsSetup.SelectEverything(listing, [1]);
  }
}
