/**
 * The device manager contract: device records in a key-value world state,
 * modelled as a map from device id to record. Clock readings are passed in as
 * opaque timestamps.
 */
module Devices {
  import opened Wrappers

  datatype DeviceState = DeviceState(
    id: string,
    location: string,
    zoneId: string,
    reputation: real,
    status: string,
    lastUpdate: int,
    transactionCount: nat,
    successfulTx: nat,
    failedTx: nat)

  datatype LedgerError = AlreadyExists(id: string) | DoesNotExist(id: string)

  const InitialReputation: real := 1.0
  const ActiveStatus: string := "active"
  const SuccessStatus: string := "success"
  /** Response time, in milliseconds, from which a transaction earns no time credit. */
  const MaxAcceptableResponseMs: int := 5000

  /** Every recorded transaction counted exactly once, as a success or as a failure. */
  predicate CountersConsistent(d: DeviceState) {
    d.successfulTx + d.failedTx == d.transactionCount
  }

  /** The record a new device starts with. */
  function NewDevice(id: string, location: string, zoneId: string, now: int): (d: DeviceState)
    ensures d.id == id && d.location == location && d.zoneId == zoneId
    ensures d.reputation == 1.0 && d.status == "active"
    ensures d.transactionCount == 0 && CountersConsistent(d)
  {
    DeviceState(id, location, zoneId, InitialReputation, ActiveStatus, now, 0, 0, 0)
  }

  /** max(0, 1 - responseTime / 5000 ms); above 1 for a negative response time. */
  function ResponseTimeScore(responseTimeMs: int): (s: real)
    ensures s >= 0.0
    ensures responseTimeMs >= 0 ==> s <= 1.0
    ensures responseTimeMs >= MaxAcceptableResponseMs ==> s == 0.0
  {
    var s := 1.0 - responseTimeMs as real / MaxAcceptableResponseMs as real;
    if s < 0.0 then 0.0 else s
  }

  /**
   * Lifetime device trust: 70% lifetime success rate, 30% response-time score.
   * Not smoothed: the whole history counts through the two counters.
   */
  function CumulativeReputation(successful: nat, total: nat, responseTimeMs: int): (r: real)
    requires total > 0
    ensures r >= 0.0
    ensures successful <= total && responseTimeMs >= 0 ==> r <= 1.0
    ensures responseTimeMs >= MaxAcceptableResponseMs ==> r == 0.7 * (successful as real / total as real)
    ensures successful == total && responseTimeMs == 0 ==> r == 1.0
    ensures successful == 0 ==> r <= 0.3 || responseTimeMs < 0
  {
    var rate := successful as real / total as real;
    assert successful <= total ==> rate <= 1.0;
    rate * 0.7 + ResponseTimeScore(responseTimeMs) * 0.3
  }

  /**
   * The record after one transaction with `status`: one more transaction, one
   * more success exactly when the status is "success" and one more failure
   * otherwise, the reputation recomputed from the new counters, the timestamp
   * renewed, and nothing else changed.
   */
  function Recorded(d: DeviceState, status: string, responseTimeMs: int, now: int): (e: DeviceState)
    ensures e.transactionCount == d.transactionCount + 1
    ensures status == "success" ==> e.successfulTx == d.successfulTx + 1 && e.failedTx == d.failedTx
    ensures status != "success" ==> e.failedTx == d.failedTx + 1 && e.successfulTx == d.successfulTx
    ensures CountersConsistent(d) ==> CountersConsistent(e)
    ensures CountersConsistent(d) && responseTimeMs >= 0 ==> 0.0 <= e.reputation <= 1.0
    ensures e.reputation == CumulativeReputation(e.successfulTx, e.transactionCount, responseTimeMs)
    ensures e.(reputation := d.reputation, lastUpdate := d.lastUpdate,
               transactionCount := d.transactionCount, successfulTx := d.successfulTx, failedTx := d.failedTx) == d
    ensures e.lastUpdate == now
  {
    var count := d.transactionCount + 1;
    var successful := if status == SuccessStatus then d.successfulTx + 1 else d.successfulTx;
    var failed := if status == SuccessStatus then d.failedTx else d.failedTx + 1;
    d.(transactionCount := count, successfulTx := successful, failedTx := failed,
       reputation := CumulativeReputation(successful, count, responseTimeMs), lastUpdate := now)
  }

  class DeviceManager {
    /** The world state: device id to device record. */
    var world: map<string, DeviceState>

    /** Every stored record has consistent counters. */
    ghost predicate Valid()
      reads this
    {
      forall id :: id in world ==> CountersConsistent(world[id])
    }

    constructor (world: map<string, DeviceState>)
      ensures this.world == world
    {
      this.world := world;
    }

    /** The record stored under `id`, or a "does not exist" error. */
    function GetDevice(id: string): (r: Result<DeviceState, LedgerError>)
      reads this
      ensures r.Success? <==> id in world
      ensures r.Success? ==> r.value == world[id]
      ensures r.Failure? ==> r.error == DoesNotExist(id)
    {
      if id in world then Success(world[id]) else Failure(DoesNotExist(id))
    }

    /** Whether a record is stored under `id`: exactly when GetDevice finds one. */
    function DeviceExists(id: string): (present: bool)
      reads this
      ensures present <==> GetDevice(id).Success?
    {
      id in world
    }

    /**
     * Stores a new active device with full reputation and zero counters; an
     * existing id is an "already exists" error and nothing is written.
     */
    method CreateDevice(id: string, location: string, zoneId: string, now: int) returns (err: Option<LedgerError>)
      modifies this
      ensures id in old(world) ==> err == Some(AlreadyExists(id)) && world == old(world)
      ensures id !in old(world) ==> err == None && world == old(world)[id := NewDevice(id, location, zoneId, now)]
      ensures old(Valid()) ==> Valid()
    {
      if DeviceExists(id) {
        return Some(AlreadyExists(id));
      }
      var device := NewDevice(id, location, zoneId, now);
      world := world[id := device];
      err := None;
    }

    /** Sets the status (and timestamp) of a stored device; an unknown id is an error and nothing is written. */
    method UpdateDeviceStatus(id: string, status: string, now: int) returns (err: Option<LedgerError>)
      modifies this
      ensures id !in old(world) ==> err == Some(DoesNotExist(id)) && world == old(world)
      ensures id in old(world) ==>
                err == None && world == old(world)[id := old(world)[id].(status := status, lastUpdate := now)]
      ensures old(Valid()) ==> Valid()
    {
      var found := GetDevice(id);
      if found.Failure? {
        return Some(found.error);
      }
      var device := found.value;
      device := device.(status := status);
      device := device.(lastUpdate := now);
      world := world[id := device];
      err := None;
    }

    /**
     * Counts one transaction of a stored device and recomputes its reputation
     * from the lifetime counters; an unknown id is an error and nothing is
     * written. The transaction type is accepted but not used.
     */
    method RecordTransaction(id: string, txType: string, status: string, responseTimeMs: int, now: int)
      returns (err: Option<LedgerError>)
      modifies this
      ensures id !in old(world) ==> err == Some(DoesNotExist(id)) && world == old(world)
      ensures id in old(world) ==>
                err == None && world == old(world)[id := Recorded(old(world)[id], status, responseTimeMs, now)]
      ensures old(Valid()) ==> Valid()
    {
      var found := GetDevice(id);
      if found.Failure? {
        return Some(found.error);
      }
      var device := found.value;
      device := device.(transactionCount := device.transactionCount + 1);
      if status == SuccessStatus {
        device := device.(successfulTx := device.successfulTx + 1);
      } else {
        device := device.(failedTx := device.failedTx + 1);
      }
      var successRate := device.successfulTx as real / device.transactionCount as real;
      var responseTimeScore := 1.0 - responseTimeMs as real / MaxAcceptableResponseMs as real;
      if responseTimeScore < 0.0 {
        responseTimeScore := 0.0;
      }
      device := device.(reputation := successRate * 0.7 + responseTimeScore * 0.3);
      device := device.(lastUpdate := now);
      world := world[id := device];
      err := None;
    }

    /**
     * The records whose zone is `zoneId`, one per matching key, in no fixed
     * order; `keys` names the key each record was read from.
     */
    method QueryDevicesByZone(zoneId: string) returns (devices: seq<DeviceState>, ghost keys: seq<string>)
      ensures |devices| == |keys|
      ensures forall i :: 0 <= i < |keys| ==> keys[i] in world && devices[i] == world[keys[i]]
      ensures forall k :: k in keys <==> k in world && world[k].zoneId == zoneId
      ensures forall i, j :: 0 <= i < j < |keys| ==> keys[i] != keys[j]
      ensures forall d :: d in devices ==> d.zoneId == zoneId
    {
      devices, keys := [], [];
      var unvisited := world.Keys;
      while unvisited != {}
        invariant unvisited <= world.Keys
        invariant |devices| == |keys|
        invariant forall i :: 0 <= i < |keys| ==> keys[i] in world && devices[i] == world[keys[i]]
        invariant forall k :: k in keys <==> k in world && k !in unvisited && world[k].zoneId == zoneId
        invariant forall i, j :: 0 <= i < j < |keys| ==> keys[i] != keys[j]
        decreases unvisited
      {
        var k :| k in unvisited;
        var device := world[k];
        if device.zoneId == zoneId {
          devices, keys := devices + [device], keys + [k];
        }
        unvisited := unvisited - {k};
      }
      forall d | d in devices
        ensures d.zoneId == zoneId
      {
        var i :| 0 <= i < |devices| && devices[i] == d;
        assert keys[i] in keys;
      }
    }
  }
}
