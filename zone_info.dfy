/** Zone planning: the record describing one iRODS zone and the containers
    that serve it, the derived zone and negotiation keys, and the assignment of
    service instances to zones. */
module Zones {
  import opened Outcomes
  import opened Containers

  /** One zone: its identity, its port, the service instances of its
      database and provider containers, and its consumer instances; None
      means "every running consumer", an empty list means none was assigned. */
  datatype ZoneInfo = ZoneInfo(
    zoneName: string,
    zoneKey: string,
    negotiationKey: string,
    zonePort: int,
    databaseServiceInstance: int,
    providerServiceInstance: int,
    consumerServiceInstances: Option<seq<int>>)

  /** A `zone_info` built with every default. */
  const DefaultZoneInfo: ZoneInfo := ZoneInfo(
    zoneName := "tempZone",
    zoneKey := "TEMPORARY_ZONE_KEY",
    negotiationKey := "32_byte_server_negotiation_key__",
    zonePort := 1247,
    databaseServiceInstance := 1,
    providerServiceInstance := 1,
    consumerServiceInstances := None)

  /** Every default of the `zone_info` constructor. */
  lemma DefaultZoneInfoFields()
    ensures DefaultZoneInfo.zoneName == "tempZone"
    ensures DefaultZoneInfo.zoneKey == "TEMPORARY_ZONE_KEY"
    ensures DefaultZoneInfo.negotiationKey == "32_byte_server_negotiation_key__"
    ensures DefaultZoneInfo.zonePort == 1247
    ensures DefaultZoneInfo.databaseServiceInstance == 1
    ensures DefaultZoneInfo.providerServiceInstance == 1
    ensures DefaultZoneInfo.consumerServiceInstances == None
  {
  }

  const NegotiationKeySize: nat := 32

  /** A negotiation key of exactly 32 underscores; the zone names are not
      used (unique keys are not generated yet). */
  function MakeNegotiationKey(localZoneName: string, remoteZoneName: string): (key: string)
    ensures |key| == NegotiationKeySize
    ensures forall i :: 0 <= i < |key| ==> key[i] == '_'
  {
    seq(NegotiationKeySize, _ => '_')
  }

  /** `'_'.join(['ZONE_KEY_FOR', zoneName])`. */
  function MakeZoneKey(zoneName: string): (key: string)
    ensures |key| == |zoneName| + 13
    ensures key[..13] == "ZONE_KEY_FOR_" && key[13..] == zoneName
  {
    "ZONE_KEY_FOR" + "_" + zoneName
  }

  /** Distinct zone names get distinct zone keys. */
  lemma ZoneKeysDistinct(a: string, b: string)
    requires a != b
    ensures MakeZoneKey(a) != MakeZoneKey(b)
  {
    assert MakeZoneKey(a)[13..] == a;
  }

  /** Every negotiation key in use has the required 32 bytes: the default
      one and every one `MakeNegotiationKey` returns. */
  lemma NegotiationKeysHaveRequiredSize(local: string, remote: string)
    ensures |DefaultZoneInfo.negotiationKey| == NegotiationKeySize
    ensures |MakeNegotiationKey(local, remote)| == NegotiationKeySize
  {
  }

  /** Instance `n` lies in the window of zone `i` when `i*k < n <= (i+1)*k`. */
  predicate InWindow(n: int, i: int, k: int) {
    i * k < n <= (i + 1) * k
  }

  /** The consumer instances of zone `i`: those of `listing` in its window,
      in listing order. */
  function Window(listing: seq<int>, i: int, k: int): (r: seq<int>)
    ensures forall n :: n in r <==> n in listing && InWindow(n, i, k)
  {
    Filter(listing, n => InWindow(n, i, k))
  }

  /** A zone's window keeps the listing's order: the window of a
      concatenation is the windows of its parts, one after the other, and a
      single instance is kept exactly when it lies in the window. */
  lemma WindowInOrder(a: seq<int>, b: seq<int>, n: int, i: int, k: int)
    ensures Window(a + b, i, k) == Window(a, i, k) + Window(b, i, k)
    ensures Window([n], i, k) == if InWindow(n, i, k) then [n] else []
  {
    FilterAppend(a, b, m => InWindow(m, i, k));
    FilterSingleton(n, m => InWindow(m, i, k));
  }

  /** The entry `get_info_for_zones` makes for zone index `i`. */
  function ZoneFor(containers: seq<Container>, zoneNames: seq<string>, k: int, i: nat): ZoneInfo
    requires i < |zoneNames|
  {
    ZoneInfo(
      zoneName := zoneNames[i],
      zoneKey := MakeZoneKey(zoneNames[i]),
      negotiationKey := MakeNegotiationKey(zoneNames[i], ""),
      zonePort := DefaultZoneInfo.zonePort,
      databaseServiceInstance := i + 1,
      providerServiceInstance := i + 1,
      consumerServiceInstances := Some(Window(ConsumerInstances(containers), i, k)))
  }

  /** The list `get_info_for_zones` returns: entry `i` for zone name `i`. */
  function ZonePlan(containers: seq<Container>, zoneNames: seq<string>, k: int): (plan: seq<ZoneInfo>)
    ensures |plan| == |zoneNames|
  {
    seq(|zoneNames|, i requires 0 <= i < |zoneNames| => ZoneFor(containers, zoneNames, k, i))
  }

  /** `get_info_for_zones`: one entry per zone name, in order; zone `i` gets
      database and provider instance `i + 1` and the running consumer
      instances of its window. */
  method GetInfoForZones(containers: seq<Container>, zoneNames: seq<string>, k: int)
    returns (infos: seq<ZoneInfo>)
    ensures infos == ZonePlan(containers, zoneNames, k)
    ensures |infos| == |zoneNames|
    ensures forall i :: 0 <= i < |infos| ==>
      && infos[i].zoneName == zoneNames[i]
      && infos[i].zoneKey == MakeZoneKey(zoneNames[i])
      && infos[i].negotiationKey == MakeNegotiationKey(zoneNames[i], "")
      && infos[i].zonePort == 1247
      && infos[i].databaseServiceInstance == i + 1
      && infos[i].providerServiceInstance == i + 1
      && infos[i].consumerServiceInstances == Some(Window(ConsumerInstances(containers), i, k))
  {
    infos := [];
    var i := 0;
    while i < |zoneNames|
      invariant 0 <= i <= |zoneNames|
      invariant |infos| == i
      invariant forall j :: 0 <= j < i ==> infos[j] == ZoneFor(containers, zoneNames, k, j)
    {
      var consumers := Filter(ConsumerInstances(containers), n => InWindow(n, i, k));
      var zn := zoneNames[i];
      infos := infos + [ZoneInfo(
        zoneName := zn,
        zoneKey := MakeZoneKey(zn),
        negotiationKey := MakeNegotiationKey(zn, ""),
        zonePort := 1247,
        databaseServiceInstance := i + 1,
        providerServiceInstance := i + 1,
        consumerServiceInstances := Some(consumers))];
      i := i + 1;
    }
  }

  /** A zone receives exactly the running consumer instances of its window;
      non-consumer containers never appear. */
  lemma WindowMembers(containers: seq<Container>, i: int, k: int, n: int)
    ensures n in Window(ConsumerInstances(containers), i, k) <==>
      Container(CatalogConsumer, n) in containers && i * k < n <= (i + 1) * k
  {
  }

  lemma MulMono(a: int, b: int, k: int)
    requires a <= b && k >= 0
    ensures a * k <= b * k
  {
  }

  /** Different zones never share a consumer instance. */
  lemma WindowsDisjoint(listing: seq<int>, i: int, j: int, k: int, n: int)
    requires i != j
    ensures !(n in Window(listing, i, k) && n in Window(listing, j, k))
  {
    if n in Window(listing, i, k) && n in Window(listing, j, k) {
      if k <= 0 {
      } else if i < j {
        MulMono(i + 1, j, k);
      } else {
        MulMono(j + 1, i, k);
      }
    }
  }

  /** The zone whose window holds instance `n`. */
  lemma WindowOf(n: int, k: int) returns (i: int)
    requires k > 0
    ensures InWindow(n, i, k)
    ensures n > 0 ==> i >= 0
  {
    i := (n - 1) / k;
    assert k * i + (n - 1) % k == n - 1;
    assert 0 <= (n - 1) % k < k;
    assert (i + 1) * k == k * i + k;
    if n > 0 {
      if i < 0 {
        MulMono(i, -1, k);
        assert false;
      }
    }
  }

  /** With `k` instances per zone, the windows of zones `0 .. zoneCount-1`
      together hold exactly the running consumer instances in
      `(0, zoneCount*k]`. */
  lemma WindowsCover(listing: seq<int>, zoneCount: nat, k: int, n: int)
    ensures (exists i :: 0 <= i < zoneCount && n in Window(listing, i, k)) <==>
      n in listing && 0 < n <= zoneCount * k
  {
    if n in listing && 0 < n <= zoneCount * k {
      assert k > 0 by {
        if k <= 0 { MulMono(0, zoneCount, k); assert false; }
      }
      var i := WindowOf(n, k);
      if i >= zoneCount {
        MulMono(zoneCount, i, k);
        assert false;
      }
      assert n in Window(listing, i, k);
    }
    if exists i :: 0 <= i < zoneCount && n in Window(listing, i, k) {
      var i :| 0 <= i < zoneCount && n in Window(listing, i, k);
      MulMono(0, i, if k < 0 then 0 else k);
      MulMono(i + 1, zoneCount, if k < 0 then 0 else k);
    }
  }

  lemma WindowNeedsWidth(n: int, i: int, k: int)
    requires InWindow(n, i, k)
    ensures k > 0
  {
    if k <= 0 {
      MulMono(i, i + 1, -k);
    }
  }

  /** With no consumers per zone (the default), every zone's list is empty. */
  lemma NoConsumersPerZone(listing: seq<int>, i: int, k: int)
    requires k <= 0
    ensures Window(listing, i, k) == []
  {
    if Window(listing, i, k) != [] {
      var n := Window(listing, i, k)[0];
      WindowNeedsWidth(n, i, k);
    }
  }
}
