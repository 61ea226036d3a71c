# Device connection store — a Dafny model

This project models the in-memory device connection service of Eclipse Hono's
device registry (`MapBasedDeviceConnectionService`) and the action vocabulary of
the Device Connection API (`DeviceConnectionConstants.DeviceConnectionAction`).

The service keeps, per tenant, a bucket mapping each device to its last known
gateway record: the id of the gateway and the date of the record's last update.
It offers two operations:

- **set last known gateway** gets or creates the tenant's bucket. It then applies
  the admission rule: the write goes ahead when the bucket holds fewer devices
  than the configured maximum, or exactly the maximum and the device is already
  one of them. An admitted write for a new device stores a fresh record with the
  supplied gateway id (204). An admitted write for a known device only refreshes
  the last-updated date and keeps the stored gateway id. A refused write reports
  403.
- **get last known gateway** reports 200 with the record, or 404 when the tenant
  has no bucket or the device has no record. It changes nothing.

The action vocabulary is a closed enumeration of six actions, each with a fixed
message subject. `from` finds the action whose subject equals a string exactly
and case-sensitively, and yields `UNKNOWN` for a null or unmatched subject.
`isValid` holds when `from` yields anything but `UNKNOWN`.

Files:

- `Wrappers.dfy`: `Option`, which stands for a Java reference that may be null.
- `DeviceConnectionConstants.dfy`: the record field keys, the action datatype,
  its subjects, the linear scan behind `from`, `isValid`, and lemmas about them.
- `MapBasedDeviceConnectionService.dfy`: the record and its JSON view; the two
  operations as functions of the state (`SetLastKnownGateway`,
  `GetLastKnownGateway`); the class `MapBasedDeviceConnectionService`, whose
  methods update its map field in place and are proved against those functions;
  lemmas about single calls and about sequences of calls (`Run`).

Modelling choices:

- The current time is a parameter `now` of the set operation, an opaque string.
- Null arguments make the source throw. Dafny strings cannot be null, so this
  precondition holds by typing. Empty ids are accepted, as in the code.
- The configured maximum is a `nat` constant of the class, fixed at construction.
- Status codes are the integers 200, 204, 403 and 404.
- The stored JSON object is a `Record` datatype. `ToJson` gives its JSON view
  under the keys `gateway-id` and `last-updated`. `FromJson` reads it back.

Behaviour of the code a reader may not expect, modelled as written:

- A refused write still creates the tenant's (empty) bucket, because the bucket
  is obtained with `computeIfAbsent` before the quota is checked
  (`SetNewDeviceAtMax`, `RunTenants`).
- A write for a known device keeps the stored gateway id and refreshes only the
  date (`SetExistingDeviceKeepsGateway`, `RunKeepsGateway`).
- The admission test compares the size with the maximum by equality. So a device
  already in a bucket holding MORE than the maximum is refused
  (`SetExistingDeviceOverMax`). With a fixed maximum no bucket ever gets there
  (`RunKeepsQuota`).
- Nothing makes `last-updated` non-decreasing: the date is whatever `now` the
  write supplies.
- Ids must be non-null, not non-empty.

## Model

| member | source | states |
|---|---|---|
| DeviceConnectionConstants.Subject | core/src/main/java/org/eclipse/hono/util/DeviceConnectionConstants.java:71-106 | the subject of every action other than Unknown is one of the five action subjects, and Unknown's subject is "unknown" |
| DeviceConnectionConstants.SubjectInjective | core/src/main/java/org/eclipse/hono/util/DeviceConnectionConstants.java:71-91 | the six subjects are pairwise distinct: equal subjects mean equal actions |
| DeviceConnectionConstants.Scan | core/src/main/java/org/eclipse/hono/util/DeviceConnectionConstants.java:116-120 | the scan yields an action of the list whose subject equals the string, yields such an action whenever one exists, and yields Unknown when none matches |
| DeviceConnectionConstants.From | core/src/main/java/org/eclipse/hono/util/DeviceConnectionConstants.java:114-123 | a null subject yields Unknown; a result other than Unknown has exactly the given subject; a string equal to an action's subject yields that action |
| DeviceConnectionConstants.IsValid | core/src/main/java/org/eclipse/hono/util/DeviceConnectionConstants.java:131-133 | a subject is valid iff it is present and equals the subject of some action other than Unknown |
| DeviceConnectionConstants.FromSubject | core/src/main/java/org/eclipse/hono/util/DeviceConnectionConstants.java:104-123 | round trip: looking up the subject of any action yields that action |
| DeviceConnectionConstants.FromEachSubject | core/src/main/java/org/eclipse/hono/util/DeviceConnectionConstants.java:71-123 | each subject resolves to the action declared with it: get-last-gw to GET_LAST_GATEWAY, set-last-gw to SET_LAST_GATEWAY, and so on for all six |
| DeviceConnectionConstants.FromKnownIff | core/src/main/java/org/eclipse/hono/util/DeviceConnectionConstants.java:114-133 | from yields a non-Unknown action, and isValid holds, iff the string is one of the five subjects of the other actions |
| DeviceConnectionConstants.UnknownIsNotValid | core/src/main/java/org/eclipse/hono/util/DeviceConnectionConstants.java:114-133 | isValid(null) and isValid("unknown") are false; from("unknown") is Unknown |
| DeviceConnectionConstants.FromIsCaseSensitive | core/src/main/java/org/eclipse/hono/util/DeviceConnectionConstants.java:117 | matching is case-sensitive: from("GET-LAST-GW") is Unknown and "SET-LAST-GW" is not valid |
| DeviceConnectionConstants.FieldKeysDistinct | core/src/main/java/org/eclipse/hono/util/DeviceConnectionConstants.java:31-37 | the record keys "gateway-id" and "last-updated" differ |
| DeviceConnectionStore.ToJson | services/device-registry-base/src/main/java/org/eclipse/hono/deviceregistry/service/deviceconnection/MapBasedDeviceConnectionService.java:108-119 | a stored record is a JSON object with exactly the keys gateway-id and last-updated |
| DeviceConnectionStore.JsonRoundTrip | services/device-registry-base/src/main/java/org/eclipse/hono/deviceregistry/service/deviceconnection/MapBasedDeviceConnectionService.java:108-119 | both fields are read back from a record's JSON object unchanged |
| DeviceConnectionStore.CreateLastKnownGatewayJson | services/device-registry-base/src/main/java/org/eclipse/hono/deviceregistry/service/deviceconnection/MapBasedDeviceConnectionService.java:108-113 | a new record's JSON object is the empty object with gateway-id put to the gateway id, then last-updated put to the current time |
| DeviceConnectionStore.SetLastUpdateDate | services/device-registry-base/src/main/java/org/eclipse/hono/deviceregistry/service/deviceconnection/MapBasedDeviceConnectionService.java:115-119 | the record's JSON object afterwards is the one before with only last-updated put to the current time |
| DeviceConnectionStore.Admits | services/device-registry-base/src/main/java/org/eclipse/hono/deviceregistry/service/deviceconnection/MapBasedDeviceConnectionService.java:73-74 | a write is admitted iff the bucket after it would hold at most the maximum: size <= max for a device already present, size + 1 <= max for a new one |
| DeviceConnectionStore.Compute | services/device-registry-base/src/main/java/org/eclipse/hono/deviceregistry/service/deviceconnection/MapBasedDeviceConnectionService.java:75-77 | the remapping adds the device (if new) and nothing else, leaves other devices' records alone, keeps an existing gateway id, stores the supplied gateway id for a new device, and sets the date to now |
| DeviceConnectionStore.SetLastKnownGateway | services/device-registry-base/src/main/java/org/eclipse/hono/deviceregistry/service/deviceconnection/MapBasedDeviceConnectionService.java:62-85 | afterwards the tenant has a bucket; no other tenant appears or changes; the status is 204 iff the admission rule admits the write, else 403; no payload; on 204 the tenant's bucket is the old (or new empty) bucket remapped at the one device only, on 403 it is the old (or new empty) bucket unchanged |
| DeviceConnectionStore.GetLastKnownGateway | services/device-registry-base/src/main/java/org/eclipse/hono/deviceregistry/service/deviceconnection/MapBasedDeviceConnectionService.java:87-106 | 200 with the stored record iff the tenant has a bucket holding the device, otherwise 404 without payload |
| DeviceConnectionStore.MapBasedDeviceConnectionService.constructor | services/device-registry-base/src/main/java/org/eclipse/hono/deviceregistry/service/deviceconnection/MapBasedDeviceConnectionService.java:49-56 | a new service has no tenant and the configured maximum, so it is within quota |
| DeviceConnectionStore.MapBasedDeviceConnectionService.SetLastKnownGatewayForDevice | services/device-registry-base/src/main/java/org/eclipse/hono/deviceregistry/service/deviceconnection/MapBasedDeviceConnectionService.java:62-85 | the in-place update leaves the map and returns the result that SetLastKnownGateway gives for the old map, and keeps every bucket within the maximum |
| DeviceConnectionStore.MapBasedDeviceConnectionService.GetLastKnownGatewayForDevice | services/device-registry-base/src/main/java/org/eclipse/hono/deviceregistry/service/deviceconnection/MapBasedDeviceConnectionService.java:87-106 | returns what GetLastKnownGateway gives for the current map and, having no modifies clause, changes no state |
| DeviceConnectionStore.SetNewDeviceBelowMax | services/device-registry-base/src/main/java/org/eclipse/hono/deviceregistry/service/deviceconnection/MapBasedDeviceConnectionService.java:72-78 | a new device in a bucket below the maximum: 204, stored with exactly the supplied gateway id and the current time, bucket grows by one |
| DeviceConnectionStore.SetNewDeviceAtMax | services/device-registry-base/src/main/java/org/eclipse/hono/deviceregistry/service/deviceconnection/MapBasedDeviceConnectionService.java:73-83 | a new device in a bucket at (or over) the maximum: 403, and no record of any tenant changes |
| DeviceConnectionStore.SetExistingDeviceBypassesQuota | services/device-registry-base/src/main/java/org/eclipse/hono/deviceregistry/service/deviceconnection/MapBasedDeviceConnectionService.java:73-78 | a write for a device already in a bucket not over the maximum (in particular exactly at it) gets 204 |
| DeviceConnectionStore.SetExistingDeviceOverMax | services/device-registry-base/src/main/java/org/eclipse/hono/deviceregistry/service/deviceconnection/MapBasedDeviceConnectionService.java:73-74 | a device already in a bucket holding more than the maximum is refused with 403 and the bucket stays as it was |
| DeviceConnectionStore.SetExistingDeviceKeepsGateway | services/device-registry-base/src/main/java/org/eclipse/hono/deviceregistry/service/deviceconnection/MapBasedDeviceConnectionService.java:75-77 | an admitted write for a known device keeps its gateway id, sets its date to now, and leaves the bucket's set of devices and its size unchanged |
| DeviceConnectionStore.SetKeepsQuota | services/device-registry-base/src/main/java/org/eclipse/hono/deviceregistry/service/deviceconnection/MapBasedDeviceConnectionService.java:72-83 | a set keeps every bucket within the maximum |
| DeviceConnectionStore.GetAfterSet | services/device-registry-base/src/main/java/org/eclipse/hono/deviceregistry/service/deviceconnection/MapBasedDeviceConnectionService.java:69-105 | after a set reporting 204, a get for that device reports 200 with the date of that write |
| DeviceConnectionStore.RunKeepsQuota | services/device-registry-base/src/main/java/org/eclipse/hono/deviceregistry/service/deviceconnection/MapBasedDeviceConnectionService.java:72-83 | under any sequence of calls with a fixed maximum, every bucket stays within the maximum |
| DeviceConnectionStore.RunKeepsGateway | services/device-registry-base/src/main/java/org/eclipse/hono/deviceregistry/service/deviceconnection/MapBasedDeviceConnectionService.java:75-77 | a stored record never disappears and its gateway id never changes under any sequence of calls |
| DeviceConnectionStore.RunTenants | services/device-registry-base/src/main/java/org/eclipse/hono/deviceregistry/service/deviceconnection/MapBasedDeviceConnectionService.java:69-70 | buckets are never removed, and a bucket appears only for a tenant some set was called for, whatever its status |
| DeviceConnectionStore.RunSplit | services/device-registry-base/src/main/java/org/eclipse/hono/deviceregistry/service/deviceconnection/MapBasedDeviceConnectionService.java:62-106 | running a sequence of calls is running any prefix of it, then the rest from the state the prefix left |
| DeviceConnectionStore.SetTenantPersists | services/device-registry-base/src/main/java/org/eclipse/hono/deviceregistry/service/deviceconnection/MapBasedDeviceConnectionService.java:69-70 | a set at any step, admitted or refused, leaves its tenant with a bucket at the end of the run |
| DeviceConnectionStore.RunDevices | services/device-registry-base/src/main/java/org/eclipse/hono/deviceregistry/service/deviceconnection/MapBasedDeviceConnectionService.java:69-83 | a device record that was absent before a sequence of calls and present after it was named by some set for that tenant and device: absent to present happens only through a set |
| DeviceConnectionStore.NeverWrittenNotFound | services/device-registry-base/src/main/java/org/eclipse/hono/deviceregistry/service/deviceconnection/MapBasedDeviceConnectionService.java:87-105 | starting from an empty store, a get for a device no set named reports 404 without payload |
| DeviceConnectionStore.GetIsRepeatable | services/device-registry-base/src/main/java/org/eclipse/hono/deviceregistry/service/deviceconnection/MapBasedDeviceConnectionService.java:93-105 | two gets in a row report the same result; that the state is unchanged holds by the definition of a get step, while for the service itself it is the missing modifies clause of GetLastKnownGatewayForDevice |

`QuotaScenario` and `RefreshScenario` are client methods that run two call
sequences against the class. With a maximum of 2: two new devices get 204, a
third gets 403, the first device still has its gateway, and the refused device
is not found. Setting a known device again with another gateway id keeps the
first gateway id and takes the new date.

## Left out

- Concurrency: the size check and the `compute` are not atomic, and the outer map is a plain `HashMap`. The model is sequential, so the quota is proved only for sequential calls.
- Wall-clock time and ISO-8601 formatting of the date: the date is the opaque `now` parameter, and no order on dates is claimed.
- Aliasing of the stored JSON object: the source returns the stored object itself, so a later refresh of the date changes what an earlier get handed out. The model returns record values.
- `Future` wrapping, `Span` parameters and logging: the result is returned directly.
- Configuration injection (`setConfig`/`getConfig`): the maximum is fixed at construction. Changing it at run time could leave a bucket over the maximum, the case `SetExistingDeviceOverMax` describes. A negative maximum (the source's `int`) is not modelled: it would refuse every write.
- `DeviceConnectionResult.from` is not part of this model; a result is a status code and an optional record.
- The other constants of `DeviceConnectionConstants` (cache name, endpoint, event bus address, adapter-instance field keys) take no part in the store.
