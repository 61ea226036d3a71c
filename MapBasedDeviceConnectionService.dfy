/**
  The in-memory device connection service: for every tenant, a bucket that
  maps each device to the gateway through which it was last seen and the date
  of that record's last update. Writes that would add a device to a bucket
  already holding the configured maximum are refused.
 */
module DeviceConnectionStore {

  import opened Wrappers
  import opened DeviceConnectionConstants

  /** HTTP status codes the service reports. */
  const HttpOk: int := 200
  const HttpNoContent: int := 204
  const HttpForbidden: int := 403
  const HttpNotFound: int := 404

  /** The last-known-gateway record of one device. */
  datatype Record = Record(gatewayId: string, lastUpdated: string)

  /** The result handed back to the caller: a status code and an optional payload. */
  datatype DeviceConnectionResult = DeviceConnectionResult(status: int, payload: Option<Record>)

  /** deviceId -> record, for one tenant. */
  type Bucket = map<string, Record>

  /** tenantId -> bucket. */
  type Gateways = map<string, Bucket>

  // ---------------------------------------------------------------------
  // The record as the JSON object the service stores and hands out
  // ---------------------------------------------------------------------

  /** The JSON object of a record: its two fields under their keys. */
  function ToJson(r: Record): (j: map<string, string>)
    ensures j.Keys == {FieldGatewayId, FieldLastUpdated}
  {
    map[FieldGatewayId := r.gatewayId, FieldLastUpdated := r.lastUpdated]
  }

  /** Reads a record back from a JSON object; None when a field is missing. */
  function FromJson(j: map<string, string>): Option<Record>
  {
    if FieldGatewayId in j && FieldLastUpdated in j
    then Some(Record(j[FieldGatewayId], j[FieldLastUpdated]))
    else None
  }

  /** The JSON view loses nothing: a record is read back from its JSON object unchanged. */
  lemma JsonRoundTrip(r: Record)
    ensures FromJson(ToJson(r)) == Some(r)
  {
    FieldKeysDistinct();
  }

  /**
    A fresh record for a newly seen device: a JSON object holding the gateway
    id and, as the last-updated date, the current time `now`.
   */
  function CreateLastKnownGatewayJson(gatewayId: string, now: string): (r: Record)
    ensures ToJson(r) == map[FieldGatewayId := gatewayId][FieldLastUpdated := now]
  {
    FieldKeysDistinct();
    Record(gatewayId, now)
  }

  /**
    Puts the current time `now` into the last-updated field of a record and
    leaves every other field as it was.
   */
  function SetLastUpdateDate(r: Record, now: string): (r': Record)
    ensures ToJson(r') == ToJson(r)[FieldLastUpdated := now]
  {
    FieldKeysDistinct();
    r.(lastUpdated := now)
  }

  // ---------------------------------------------------------------------
  // The two operations as functions of the store's state
  // ---------------------------------------------------------------------

  /** The bucket of a tenant, or an empty one when the tenant has none yet. */
  function TenantBucket(gateways: Gateways, tenantId: string): Bucket
  {
    if tenantId in gateways then gateways[tenantId] else map[]
  }

  /**
    The admission rule: a write is admitted when the bucket holds fewer than
    the maximum number of devices, or exactly the maximum and the device is
    one of them.
   */
  predicate Admits(size: nat, maxDevices: nat, present: bool): (b: bool)
    ensures b <==> (if present then size else size + 1) <= maxDevices
  {
    size < maxDevices || (size == maxDevices && present)
  }

  /**
    The remapping done on an admitted write: an existing record only gets its
    date refreshed, a new device gets a fresh record.
   */
  function Compute(bucket: Bucket, deviceId: string, gatewayId: string, now: string): (b': Bucket)
    ensures b'.Keys == bucket.Keys + {deviceId}
    ensures forall d :: d in bucket && d != deviceId ==> b'[d] == bucket[d]
    ensures deviceId in bucket ==> b'[deviceId].gatewayId == bucket[deviceId].gatewayId
    ensures deviceId !in bucket ==> b'[deviceId].gatewayId == gatewayId
    ensures b'[deviceId].lastUpdated == now
  {
    bucket[deviceId := if deviceId in bucket
                       then SetLastUpdateDate(bucket[deviceId], now)
                       else CreateLastKnownGatewayJson(gatewayId, now)]
  }

  /** The store's state after an operation, with the result reported to the caller. */
  datatype Step = Step(gateways: Gateways, result: DeviceConnectionResult)

  /**
    Set the last known gateway of a device: get or create the tenant's bucket,
    then either apply the write (204) or refuse it over quota (403).
   */
  function SetLastKnownGateway(gateways: Gateways, maxDevices: nat, tenantId: string, deviceId: string,
                               gatewayId: string, now: string): (s: Step)
    ensures tenantId in s.gateways
    ensures s.gateways.Keys == gateways.Keys + {tenantId}
    ensures forall t :: t in gateways && t != tenantId ==> s.gateways[t] == gateways[t]
    ensures s.result.payload == None
    ensures s.result.status == HttpNoContent || s.result.status == HttpForbidden
    ensures s.result.status == HttpNoContent <==>
      Admits(|TenantBucket(gateways, tenantId)|, maxDevices, deviceId in TenantBucket(gateways, tenantId))
    ensures s.result.status == HttpNoContent ==>
      s.gateways[tenantId] == Compute(TenantBucket(gateways, tenantId), deviceId, gatewayId, now)
    ensures s.result.status == HttpForbidden ==> s.gateways[tenantId] == TenantBucket(gateways, tenantId)
  {
    var bucket := TenantBucket(gateways, tenantId);
    var admitted := Admits(|bucket|, maxDevices, deviceId in bucket);
    var newBucket := if admitted then Compute(bucket, deviceId, gatewayId, now) else bucket;
    Step(gateways[tenantId := newBucket],
         DeviceConnectionResult(if admitted then HttpNoContent else HttpForbidden, None))
  }

  /** Get the last known gateway of a device: 200 with its record, or 404. */
  function GetLastKnownGateway(gateways: Gateways, tenantId: string, deviceId: string): (r: DeviceConnectionResult)
    ensures r.status == HttpOk || r.status == HttpNotFound
    ensures r.status == HttpOk <==> tenantId in gateways && deviceId in gateways[tenantId]
    ensures r.status == HttpOk ==> r.payload == Some(gateways[tenantId][deviceId])
    ensures r.status == HttpNotFound ==> r.payload == None
  {
    if tenantId in gateways then
      if deviceId in gateways[tenantId] then DeviceConnectionResult(HttpOk, Some(gateways[tenantId][deviceId]))
      else DeviceConnectionResult(HttpNotFound, None)
    else DeviceConnectionResult(HttpNotFound, None)
  }

  /** Every tenant's bucket holds at most `maxDevices` devices. */
  predicate WithinQuota(gateways: Gateways, maxDevices: nat)
  {
    forall t :: t in gateways ==> |gateways[t]| <= maxDevices
  }

  // ---------------------------------------------------------------------
  // The service object
  // ---------------------------------------------------------------------

  class MapBasedDeviceConnectionService {
    /** tenantId -> (deviceId -> record) */
    var lastKnownGateways: Gateways
    /** The configured maximum number of devices per tenant. */
    const maxDevicesPerTenant: nat

    constructor (maxDevicesPerTenant: nat)
      ensures this.maxDevicesPerTenant == maxDevicesPerTenant
      ensures lastKnownGateways == map[]
      ensures WithinQuota(lastKnownGateways, maxDevicesPerTenant)
    {
      this.maxDevicesPerTenant := maxDevicesPerTenant;
      lastKnownGateways := map[];
    }

    method SetLastKnownGatewayForDevice(tenantId: string, deviceId: string, gatewayId: string, now: string)
      returns (result: DeviceConnectionResult)
      modifies this
      ensures lastKnownGateways ==
        SetLastKnownGateway(old(lastKnownGateways), maxDevicesPerTenant, tenantId, deviceId, gatewayId, now).gateways
      ensures result ==
        SetLastKnownGateway(old(lastKnownGateways), maxDevicesPerTenant, tenantId, deviceId, gatewayId, now).result
      ensures old(WithinQuota(lastKnownGateways, maxDevicesPerTenant)) ==> WithinQuota(lastKnownGateways, maxDevicesPerTenant)
    {
      ghost var before := lastKnownGateways;
      if tenantId !in lastKnownGateways {
        lastKnownGateways := lastKnownGateways[tenantId := map[]];
      }
      var bucket := lastKnownGateways[tenantId];
      assert bucket == TenantBucket(before, tenantId);
      var currentMapSize := |bucket|;
      if currentMapSize < maxDevicesPerTenant
        || (currentMapSize == maxDevicesPerTenant && deviceId in bucket)
      {
        var record := if deviceId in bucket then SetLastUpdateDate(bucket[deviceId], now)
                      else CreateLastKnownGatewayJson(gatewayId, now);
        lastKnownGateways := lastKnownGateways[tenantId := bucket[deviceId := record]];
        assert lastKnownGateways == before[tenantId := Compute(bucket, deviceId, gatewayId, now)];
        result := DeviceConnectionResult(HttpNoContent, None);
      } else {
        assert lastKnownGateways == before[tenantId := bucket];
        result := DeviceConnectionResult(HttpForbidden, None);
      }
      if WithinQuota(before, maxDevicesPerTenant) {
        SetKeepsQuota(before, maxDevicesPerTenant, tenantId, deviceId, gatewayId, now);
      }
    }

    method GetLastKnownGatewayForDevice(tenantId: string, deviceId: string) returns (result: DeviceConnectionResult)
      ensures result == GetLastKnownGateway(lastKnownGateways, tenantId, deviceId)
    {
      if tenantId in lastKnownGateways {
        var bucket := lastKnownGateways[tenantId];
        if deviceId in bucket {
          result := DeviceConnectionResult(HttpOk, Some(bucket[deviceId]));
        } else {
          result := DeviceConnectionResult(HttpNotFound, None);
        }
      } else {
        result := DeviceConnectionResult(HttpNotFound, None);
      }
    }
  }

  // ---------------------------------------------------------------------
  // Properties of one set
  // ---------------------------------------------------------------------

  /**
    A write for a new device into a bucket below the maximum succeeds, adds the
    device with exactly the supplied gateway id, and grows the bucket by one.
   */
  lemma SetNewDeviceBelowMax(gateways: Gateways, maxDevices: nat, tenantId: string, deviceId: string,
                             gatewayId: string, now: string)
    requires deviceId !in TenantBucket(gateways, tenantId)
    requires |TenantBucket(gateways, tenantId)| < maxDevices
    ensures var s := SetLastKnownGateway(gateways, maxDevices, tenantId, deviceId, gatewayId, now);
      && s.result.status == HttpNoContent
      && s.gateways[tenantId][deviceId] == Record(gatewayId, now)
      && |s.gateways[tenantId]| == |TenantBucket(gateways, tenantId)| + 1
  {
  }

  /**
    A write for a new device into a bucket that has reached the maximum is
    refused with 403, and no record of any tenant changes.
   */
  lemma SetNewDeviceAtMax(gateways: Gateways, maxDevices: nat, tenantId: string, deviceId: string,
                          gatewayId: string, now: string)
    requires deviceId !in TenantBucket(gateways, tenantId)
    requires |TenantBucket(gateways, tenantId)| >= maxDevices
    ensures var s := SetLastKnownGateway(gateways, maxDevices, tenantId, deviceId, gatewayId, now);
      && s.result.status == HttpForbidden
      && s.gateways[tenantId] == TenantBucket(gateways, tenantId)
      && (forall t :: t in gateways ==> s.gateways[t] == gateways[t])
  {
  }

  /**
    Updates bypass the quota: a write for a device already in a bucket that
    does not exceed the maximum (in particular one exactly at it) succeeds.
   */
  lemma SetExistingDeviceBypassesQuota(gateways: Gateways, maxDevices: nat, tenantId: string, deviceId: string,
                                       gatewayId: string, now: string)
    requires deviceId in TenantBucket(gateways, tenantId)
    requires |TenantBucket(gateways, tenantId)| <= maxDevices
    ensures SetLastKnownGateway(gateways, maxDevices, tenantId, deviceId, gatewayId, now).result.status == HttpNoContent
  {
  }

  /**
    The admission test as written compares the size with the maximum for
    equality: a bucket holding more than the maximum refuses even its own
    devices (unreachable while the maximum stays fixed, see SetKeepsQuota).
   */
  lemma SetExistingDeviceOverMax(gateways: Gateways, maxDevices: nat, tenantId: string, deviceId: string,
                                 gatewayId: string, now: string)
    requires deviceId in TenantBucket(gateways, tenantId)
    requires |TenantBucket(gateways, tenantId)| > maxDevices
    ensures var s := SetLastKnownGateway(gateways, maxDevices, tenantId, deviceId, gatewayId, now);
      && s.result.status == HttpForbidden
      && s.gateways[tenantId] == gateways[tenantId]
  {
  }

  /**
    An admitted write for an existing device keeps its stored gateway id,
    whatever gateway id was supplied, replaces only its last-updated date, and
    leaves the bucket's devices as they were.
   */
  lemma SetExistingDeviceKeepsGateway(gateways: Gateways, maxDevices: nat, tenantId: string, deviceId: string,
                                      gatewayId: string, now: string)
    requires deviceId in TenantBucket(gateways, tenantId)
    requires |TenantBucket(gateways, tenantId)| <= maxDevices
    ensures var s := SetLastKnownGateway(gateways, maxDevices, tenantId, deviceId, gatewayId, now);
      && s.gateways[tenantId][deviceId] == Record(gateways[tenantId][deviceId].gatewayId, now)
      && s.gateways[tenantId].Keys == gateways[tenantId].Keys
      && |s.gateways[tenantId]| == |gateways[tenantId]|
  {
  }

  /** A set keeps every bucket within the maximum when all were within it before. */
  lemma SetKeepsQuota(gateways: Gateways, maxDevices: nat, tenantId: string, deviceId: string,
                      gatewayId: string, now: string)
    requires WithinQuota(gateways, maxDevices)
    ensures WithinQuota(SetLastKnownGateway(gateways, maxDevices, tenantId, deviceId, gatewayId, now).gateways, maxDevices)
  {
  }

  /** After an accepted set, a get for the same device finds it with the new date. */
  lemma GetAfterSet(gateways: Gateways, maxDevices: nat, tenantId: string, deviceId: string,
                    gatewayId: string, now: string)
    ensures var s := SetLastKnownGateway(gateways, maxDevices, tenantId, deviceId, gatewayId, now);
      var r := GetLastKnownGateway(s.gateways, tenantId, deviceId);
      s.result.status == HttpNoContent ==> r.status == HttpOk && r.payload.value.lastUpdated == now
  {
  }

  // ---------------------------------------------------------------------
  // Sequential executions
  // ---------------------------------------------------------------------

  /** A call to the service, with the time at which a set is made. */
  datatype Request =
    | SetRequest(tenantId: string, deviceId: string, gatewayId: string, now: string)
    | GetRequest(tenantId: string, deviceId: string)

  /** One call: a get reports and leaves the state as it is. */
  function Apply(gateways: Gateways, maxDevices: nat, req: Request): Step
  {
    match req
    case SetRequest(t, d, g, now) => SetLastKnownGateway(gateways, maxDevices, t, d, g, now)
    case GetRequest(t, d) => Step(gateways, GetLastKnownGateway(gateways, t, d))
  }

  /** The state after a sequence of calls, one after another. */
  function Run(gateways: Gateways, maxDevices: nat, reqs: seq<Request>): Gateways
    decreases |reqs|
  {
    if reqs == [] then gateways
    else Run(Apply(gateways, maxDevices, reqs[0]).gateways, maxDevices, reqs[1..])
  }

  /** The results of a sequence of calls, in order. */
  function Results(gateways: Gateways, maxDevices: nat, reqs: seq<Request>): (rs: seq<DeviceConnectionResult>)
    ensures |rs| == |reqs|
    decreases |reqs|
  {
    if reqs == [] then []
    else
      var s := Apply(gateways, maxDevices, reqs[0]);
      [s.result] + Results(s.gateways, maxDevices, reqs[1..])
  }

  /** Under sequential calls with a fixed maximum, no bucket ever exceeds it. */
  lemma {:induction false} RunKeepsQuota(gateways: Gateways, maxDevices: nat, reqs: seq<Request>)
    requires WithinQuota(gateways, maxDevices)
    ensures WithinQuota(Run(gateways, maxDevices, reqs), maxDevices)
    decreases |reqs|
  {
    if reqs != [] {
      if reqs[0].SetRequest? {
        var SetRequest(t, d, g, now) := reqs[0];
        SetKeepsQuota(gateways, maxDevices, t, d, g, now);
      }
      RunKeepsQuota(Apply(gateways, maxDevices, reqs[0]).gateways, maxDevices, reqs[1..]);
    }
  }

  /**
    No record ever disappears and, since an existing device only has its date
    refreshed, the gateway id first stored for a device stays for good.
   */
  lemma {:induction false} RunKeepsGateway(gateways: Gateways, maxDevices: nat, reqs: seq<Request>,
                                           tenantId: string, deviceId: string)
    requires tenantId in gateways && deviceId in gateways[tenantId]
    ensures var after := Run(gateways, maxDevices, reqs);
      && tenantId in after && deviceId in after[tenantId]
      && after[tenantId][deviceId].gatewayId == gateways[tenantId][deviceId].gatewayId
    decreases |reqs|
  {
    if reqs != [] {
      var next: Gateways := Apply(gateways, maxDevices, reqs[0]).gateways;
      assert tenantId in next && deviceId in next[tenantId];
      assert next[tenantId][deviceId].gatewayId == gateways[tenantId][deviceId].gatewayId;
      RunKeepsGateway(next, maxDevices, reqs[1..], tenantId, deviceId);
    }
  }

  /** A tenant's bucket, once created, is never removed; no other tenant's bucket appears without a set for it. */
  lemma {:induction false} RunTenants(gateways: Gateways, maxDevices: nat, reqs: seq<Request>)
    ensures gateways.Keys <= Run(gateways, maxDevices, reqs).Keys
    ensures forall t :: t in Run(gateways, maxDevices, reqs) && t !in gateways ==>
      exists i :: 0 <= i < |reqs| && reqs[i].SetRequest? && reqs[i].tenantId == t
    decreases |reqs|
  {
    if reqs != [] {
      var next: Gateways := Apply(gateways, maxDevices, reqs[0]).gateways;
      RunTenants(next, maxDevices, reqs[1..]);
      forall t | t in Run(gateways, maxDevices, reqs) && t !in gateways
        ensures exists i :: 0 <= i < |reqs| && reqs[i].SetRequest? && reqs[i].tenantId == t
      {
        if t in next {
          assert reqs[0].SetRequest? && reqs[0].tenantId == t;
        } else {
          var i :| 0 <= i < |reqs[1..]| && reqs[1..][i].SetRequest? && reqs[1..][i].tenantId == t;
          assert reqs[i + 1] == reqs[1..][i];
        }
      }
    }
  }

  /** Running a sequence of calls is running a prefix, then the rest from where the prefix left off. */
  lemma {:induction false} RunSplit(gateways: Gateways, maxDevices: nat, reqs: seq<Request>, i: nat)
    requires i <= |reqs|
    ensures Run(gateways, maxDevices, reqs) == Run(Run(gateways, maxDevices, reqs[..i]), maxDevices, reqs[i..])
    decreases i
  {
    if i > 0 {
      var next: Gateways := Apply(gateways, maxDevices, reqs[0]).gateways;
      var prefix, rest := reqs[..i], reqs[1..];
      PrefixShift(reqs, i);
      RunSplit(next, maxDevices, rest, i - 1);
    } else {
      assert reqs[..0] == [] && reqs[0..] == reqs;
    }
  }

  /** Slicing facts RunSplit needs, kept apart from the store's functions. */
  lemma PrefixShift(reqs: seq<Request>, i: nat)
    requires 0 < i <= |reqs|
    ensures reqs[..i] != [] && reqs[..i][0] == reqs[0] && reqs[..i][1..] == reqs[1..][..i - 1]
    ensures reqs[1..][i - 1..] == reqs[i..]
  {
  }

  /** A set, admitted or refused, leaves its tenant with a bucket for the rest of any run. */
  lemma SetTenantPersists(gateways: Gateways, maxDevices: nat, reqs: seq<Request>, i: nat)
    requires i < |reqs| && reqs[i].SetRequest?
    ensures reqs[i].tenantId in Run(gateways, maxDevices, reqs)
  {
    RunSplit(gateways, maxDevices, reqs, i + 1);
    var prefix := reqs[..i + 1];
    RunSplit(gateways, maxDevices, prefix, i);
    var mid := Run(gateways, maxDevices, prefix[..i]);
    assert prefix[i..] == [reqs[i]];
    assert Run(mid, maxDevices, prefix[i..]) == Apply(mid, maxDevices, reqs[i]).gateways;
    RunTenants(Run(gateways, maxDevices, prefix), maxDevices, reqs[i + 1..]);
  }

  /**
    Two gets in a row report the same result. At the level of the state
    functions a get leaves the state as it is by definition (see Apply); that
    the service's own get changes nothing is what the missing modifies clause
    of GetLastKnownGatewayForDevice says.
   */
  lemma GetIsRepeatable(gateways: Gateways, maxDevices: nat, tenantId: string, deviceId: string)
    ensures var reqs := [GetRequest(tenantId, deviceId), GetRequest(tenantId, deviceId)];
      && Run(gateways, maxDevices, reqs) == gateways
      && Results(gateways, maxDevices, reqs)[0] == Results(gateways, maxDevices, reqs)[1]
  {
    var req := GetRequest(tenantId, deviceId);
    var reqs := [req, req];
    assert reqs[1..] == [req] && reqs[1..][1..] == [];
    assert Results(gateways, maxDevices, reqs[1..][1..]) == [];
    assert Results(gateways, maxDevices, reqs[1..]) == [GetLastKnownGateway(gateways, tenantId, deviceId)];
    assert Run(gateways, maxDevices, reqs[1..]) == gateways;
  }

  /**
    A device record appears only through a set for that very tenant and
    device: there is no other way from absent to present.
   */
  lemma {:induction false} RunDevices(gateways: Gateways, maxDevices: nat, reqs: seq<Request>,
                                      tenantId: string, deviceId: string)
    requires tenantId in Run(gateways, maxDevices, reqs) && deviceId in Run(gateways, maxDevices, reqs)[tenantId]
    requires !(tenantId in gateways && deviceId in gateways[tenantId])
    ensures exists i :: 0 <= i < |reqs| && reqs[i].SetRequest? && reqs[i].tenantId == tenantId
                                         && reqs[i].deviceId == deviceId
    decreases |reqs|
  {
    if reqs != [] {
      var next: Gateways := Apply(gateways, maxDevices, reqs[0]).gateways;
      if tenantId in next && deviceId in next[tenantId] {
        assert reqs[0].SetRequest? && reqs[0].tenantId == tenantId && reqs[0].deviceId == deviceId;
      } else {
        RunDevices(next, maxDevices, reqs[1..], tenantId, deviceId);
        var i :| 0 <= i < |reqs[1..]| && reqs[1..][i].SetRequest? && reqs[1..][i].tenantId == tenantId
                                       && reqs[1..][i].deviceId == deviceId;
        assert reqs[i + 1] == reqs[1..][i];
      }
    }
  }

  /** Starting from an empty store, a device that no set named is not found. */
  lemma NeverWrittenNotFound(maxDevices: nat, reqs: seq<Request>, tenantId: string, deviceId: string)
    requires forall i :: 0 <= i < |reqs| && reqs[i].SetRequest? ==>
      reqs[i].tenantId != tenantId || reqs[i].deviceId != deviceId
    ensures GetLastKnownGateway(Run(map[], maxDevices, reqs), tenantId, deviceId) == DeviceConnectionResult(HttpNotFound, None)
  {
    var after := Run(map[], maxDevices, reqs);
    if tenantId in after && deviceId in after[tenantId] {
      RunDevices(map[], maxDevices, reqs, tenantId, deviceId);
    }
  }

  /**
    With a maximum of two devices: two new devices are admitted, a third is
    refused, the first keeps its gateway, and the refused one is not found.
   */
  method QuotaScenario()
  {
    var service := new MapBasedDeviceConnectionService(2);
    var r := service.SetLastKnownGatewayForDevice("t1", "d1", "gwA", "2020-01-01T00:00:00Z");
    assert r.status == HttpNoContent;
    r := service.SetLastKnownGatewayForDevice("t1", "d2", "gwB", "2020-01-01T00:00:01Z");
    assert r.status == HttpNoContent;
    r := service.SetLastKnownGatewayForDevice("t1", "d3", "gwC", "2020-01-01T00:00:02Z");
    assert r.status == HttpForbidden;
    r := service.GetLastKnownGatewayForDevice("t1", "d1");
    assert r.status == HttpOk && r.payload.value.gatewayId == "gwA";
    r := service.GetLastKnownGatewayForDevice("t1", "d3");
    assert r.status == HttpNotFound;
  }

  /** A second set for a known device with another gateway id leaves the first gateway id in place. */
  method RefreshScenario()
  {
    var service := new MapBasedDeviceConnectionService(2);
    var r := service.SetLastKnownGatewayForDevice("t1", "d1", "gwA", "2020-01-01T00:00:00Z");
    r := service.SetLastKnownGatewayForDevice("t1", "d1", "gwZ", "2020-01-01T00:00:05Z");
    assert r.status == HttpNoContent;
    r := service.GetLastKnownGatewayForDevice("t1", "d1");
    assert r.payload == Some(Record("gwA", "2020-01-01T00:00:05Z"));
  }
}
