/**
 * The registered smart contract: IoT device records with a location, a zone and
 * a reputation, kept in a key-value world state modelled as a map from device
 * id to record. Transaction timestamps (seconds) are passed in as parameters.
 */
module Contract {
  import opened Wrappers

  datatype Device = Device(
    id: string,
    location: string,
    reputation: real,
    lastUpdate: int,
    zoneId: string)

  datatype ContractError =
    | DeviceNotFound(id: string)
    | AlreadyExists(id: string)
    | InvalidReputation(value: real)

  const InitialReputation: real := 1.0

  /** The device InitLedger seeds the ledger with. */
  const SeedDevice: Device := Device("device1", "zone1", 1.0, 1635724800, "Z1")

  function SeedDevices(): seq<Device> {
    [SeedDevice]
  }

  /** The world state after writing each device of `ds` under its id, in order. */
  function PutAll(world: map<string, Device>, ds: seq<Device>): map<string, Device>
    decreases |ds|
  {
    if ds == [] then world
    else PutAll(world, ds[..|ds| - 1])[ds[|ds| - 1].id := ds[|ds| - 1]]
  }

  /** The ids under which a list of devices is written. */
  function WrittenIds(ds: seq<Device>): set<string> {
    set d | d in ds :: d.id
  }

  /**
   * Writing a list of devices adds exactly their ids to the keys, keeps every
   * other key as it was, and leaves under the last device's id that device.
   */
  lemma {:induction false} PutAllEffect(world: map<string, Device>, ds: seq<Device>)
    ensures PutAll(world, ds).Keys == world.Keys + WrittenIds(ds)
    ensures forall k :: k in world && k !in WrittenIds(ds) ==> PutAll(world, ds)[k] == world[k]
    ensures ds != [] ==> PutAll(world, ds)[ds[|ds| - 1].id] == ds[|ds| - 1]
    decreases |ds|
  {
    if ds != [] {
      var init := ds[..|ds| - 1];
      PutAllEffect(world, init);
      assert ds == init + [ds[|ds| - 1]];
      assert WrittenIds(ds) == WrittenIds(init) + {ds[|ds| - 1].id};
    }
  }

  class SmartContract {
    /** The world state: device id to device record. */
    var world: map<string, Device>

    constructor (world: map<string, Device>)
      ensures this.world == world
    {
      this.world := world;
    }

    /** Writes the seed devices; afterwards "device1" holds the seed record and every other key is unchanged. */
    method InitLedger()
      modifies this
      ensures world == old(world)["device1" := Device("device1", "zone1", 1.0, 1635724800, "Z1")]
    {
      var devices := SeedDevices();
      var i := 0;
      while i < |devices|
        invariant 0 <= i <= |devices|
        invariant world == PutAll(old(world), devices[..i])
      {
        assert devices[..i + 1][..i] == devices[..i];
        world := world[devices[i].id := devices[i]];
        i := i + 1;
      }
      assert devices[..|devices|] == devices;
      PutAllEffect(old(world), devices);
      assert WrittenIds(devices) == {"device1"};
    }

    /**
     * Writes a device with full reputation under `id`. An existing record is
     * silently replaced: there is no duplicate check.
     */
    method RegisterDevice(id: string, location: string, zoneId: string, txSeconds: int)
      modifies this
      ensures world == old(world)[id := Device(id, location, InitialReputation, txSeconds, zoneId)]
    {
      var device := Device(id, location, InitialReputation, txSeconds, zoneId);
      world := world[id := device];
    }

    /** The record stored under `id`, or a "does not exist" error. */
    function QueryDevice(id: string): (r: Result<Device, ContractError>)
      reads this
      ensures r.Success? <==> id in world
      ensures r.Success? ==> r.value == world[id]
      ensures r.Failure? ==> r.error == DeviceNotFound(id)
    {
      if id in world then Success(world[id]) else Failure(DeviceNotFound(id))
    }

    /**
     * Sets the reputation (and timestamp) of a stored device to any value; the
     * error of QueryDevice for an unknown id, with nothing written.
     */
    method UpdateDeviceReputation(id: string, newReputation: real, txSeconds: int) returns (err: Option<ContractError>)
      modifies this
      ensures id !in old(world) ==> err == Some(DeviceNotFound(id)) && world == old(world)
      ensures id in old(world) ==>
                err == None && world == old(world)[id := old(world)[id].(reputation := newReputation, lastUpdate := txSeconds)]
    {
      var found := QueryDevice(id);
      if found.Failure? {
        return Some(found.error);
      }
      var device := found.value;
      device := device.(reputation := newReputation);
      device := device.(lastUpdate := txSeconds);
      world := world[id := device];
      err := None;
    }

    /** RegisterDevice with the duplicate check its tests expect: an existing id is an error and nothing is written. */
    method RegisterDeviceChecked(id: string, location: string, zoneId: string, txSeconds: int)
      returns (err: Option<ContractError>)
      modifies this
      ensures id in old(world) ==> err == Some(AlreadyExists(id)) && world == old(world)
      ensures id !in old(world) ==>
                err == None && world == old(world)[id := Device(id, location, InitialReputation, txSeconds, zoneId)]
    {
      if id in world {
        return Some(AlreadyExists(id));
      }
      RegisterDevice(id, location, zoneId, txSeconds);
      err := None;
    }

    /**
     * UpdateDeviceReputation with the range check its tests expect, made before
     * the ledger is read: a value outside [0, 1] is an error and nothing is written.
     */
    method UpdateDeviceReputationChecked(id: string, newReputation: real, txSeconds: int)
      returns (err: Option<ContractError>)
      modifies this
      ensures !(0.0 <= newReputation <= 1.0) ==> err == Some(InvalidReputation(newReputation)) && world == old(world)
      ensures 0.0 <= newReputation <= 1.0 && id !in old(world) ==> err == Some(DeviceNotFound(id)) && world == old(world)
      ensures 0.0 <= newReputation <= 1.0 && id in old(world) ==>
                err == None && world == old(world)[id := old(world)[id].(reputation := newReputation, lastUpdate := txSeconds)]
      ensures forall k :: k in world ==> 0.0 <= world[k].reputation <= 1.0 || (k in old(world) && world[k] == old(world)[k])
    {
      if !(0.0 <= newReputation <= 1.0) {
        return Some(InvalidReputation(newReputation));
      }
      err := UpdateDeviceReputation(id, newReputation, txSeconds);
    }
  }

  /** As written, registering an existing id succeeds and replaces the record. */
  method DuplicateRegistrationScenario() returns (location: string)
    ensures location == "other-zone"
  {
    var c := new SmartContract(map[]);
    c.RegisterDevice("test-device", "test-zone", "Z1", 0);
    c.RegisterDevice("test-device", "other-zone", "Z1", 1);
    location := c.world["test-device"].location;
  }

  /** With the duplicate check, the second registration is refused and the first record stays. */
  method CheckedDuplicateRegistrationScenario() returns (err: Option<ContractError>, location: string)
    ensures err == Some(AlreadyExists("test-device")) && location == "test-zone"
  {
    var c := new SmartContract(map[]);
    c.RegisterDevice("test-device", "test-zone", "Z1", 0);
    err := c.RegisterDeviceChecked("test-device", "other-zone", "Z1", 1);
    location := c.world["test-device"].location;
  }

  /** As written, a reputation of 1.5 is accepted and stored. */
  method OutOfRangeReputationScenario() returns (err: Option<ContractError>, stored: real)
    ensures err == None && stored == 1.5
  {
    var c := new SmartContract(map[]);
    c.RegisterDevice("test-device", "test-zone", "Z1", 0);
    err := c.UpdateDeviceReputation("test-device", 1.5, 1);
    stored := c.world["test-device"].reputation;
  }

  /** With the range check, 1.5 is refused before the ledger is read, even for an unknown id. */
  method CheckedOutOfRangeReputationScenario() returns (err: Option<ContractError>)
    ensures err == Some(InvalidReputation(1.5))
  {
    var c := new SmartContract(map[]);
    err := c.UpdateDeviceReputationChecked("test-device", 1.5, 1);
  }
}
