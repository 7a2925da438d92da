/**
 * What the three revisions of `create` and `terminate` share: the launch
 * spec dictionary with its BlockDeviceMappings list (a separate object, so
 * that a shallow copy shares it), the two mappings a launch can add, the
 * spot request and the search of an instance's block device mappings for
 * the drive's volume.
 */
module Launch {
  import opened Wrappers
  import opened Tags
  import opened Cloud
  import opened Directory
  import opened Lifecycle
  import opened XDrive

  /** The BlockDeviceMappings list of a launch spec; `append` changes it in place. */
  class MappingList {
    var items: seq<Mapping>

    constructor (items: seq<Mapping>)
      ensures this.items == items
    {
      this.items := items;
    }

    method Append(m: Mapping)
      modifies this
      ensures items == old(items) + [m]
    {
      items := items + [m];
    }
  }

  /**
   * A launch spec dictionary. MinCount and MaxCount are None once deleted;
   * the mapping list is a reference, as in the dictionary.
   */
  class LaunchSpec {
    var imageId: string
    var instanceType: string
    var securityGroups: seq<string>
    var keyName: string
    var minCount: Option<int>
    var maxCount: Option<int>
    var mappings: MappingList

    /** dict(ImageId=…, InstanceType=…, SecurityGroups=["simon"], KeyName="key", MinCount=1, MaxCount=1, BlockDeviceMappings=…) */
    constructor (imageId: string, instanceType: string, mappings: MappingList)
      ensures this.imageId == imageId && this.instanceType == instanceType
      ensures securityGroups == ["simon"] && keyName == "key"
      ensures minCount == Some(1) && maxCount == Some(1)
      ensures this.mappings == mappings
    {
      this.imageId := imageId;
      this.instanceType := instanceType;
      securityGroups := ["simon"];
      keyName := "key";
      minCount := Some(1);
      maxCount := Some(1);
      this.mappings := mappings;
    }

    /** dict.copy(): a new dictionary whose BlockDeviceMappings is the same list. */
    method Copy() returns (c: LaunchSpec)
      ensures fresh(c)
      ensures c.imageId == imageId && c.instanceType == instanceType
      ensures c.securityGroups == securityGroups && c.keyName == keyName
      ensures c.minCount == minCount && c.maxCount == maxCount
      ensures c.mappings == mappings
    {
      c := new LaunchSpec(imageId, instanceType, mappings);
      c.securityGroups := securityGroups;
      c.keyName := keyName;
      c.minCount := minCount;
      c.maxCount := maxCount;
    }

    /** copy.deepcopy: a new dictionary with a new list holding the same mappings. */
    method DeepCopy() returns (c: LaunchSpec)
      ensures fresh(c) && fresh(c.mappings)
      ensures c.imageId == imageId && c.instanceType == instanceType
      ensures c.securityGroups == securityGroups && c.keyName == keyName
      ensures c.minCount == minCount && c.maxCount == maxCount
      ensures c.mappings.items == mappings.items
    {
      var list := new MappingList(mappings.items);
      c := new LaunchSpec(imageId, instanceType, list);
      c.securityGroups := securityGroups;
      c.keyName := keyName;
      c.minCount := minCount;
      c.maxCount := maxCount;
    }

    /** spec.update(InstanceType=…, ImageId=…) */
    method Update(instanceType: string, imageId: string)
      modifies this
      ensures this.instanceType == instanceType && this.imageId == imageId
      ensures securityGroups == old(securityGroups) && keyName == old(keyName)
      ensures minCount == old(minCount) && maxCount == old(maxCount) && mappings == old(mappings)
    {
      this.instanceType := instanceType;
      this.imageId := imageId;
    }

    /**
     * del spec["MinCount"]; del spec["MaxCount"]: a KeyError for the first
     * key missing, with any deletion before it kept.
     */
    method DeleteCounts() returns (r: Result<(), Error>)
      modifies this
      ensures imageId == old(imageId) && instanceType == old(instanceType)
      ensures securityGroups == old(securityGroups) && keyName == old(keyName) && mappings == old(mappings)
      ensures old(minCount).None? ==> r == Err(KeyError("MinCount")) && minCount == old(minCount) && maxCount == old(maxCount)
      ensures old(minCount).Some? && old(maxCount).None? ==> r == Err(KeyError("MaxCount")) && minCount.None? && maxCount.None?
      ensures old(minCount).Some? && old(maxCount).Some? ==> r.Ok? && minCount.None? && maxCount.None?
    {
      if minCount.None? {
        return Err(KeyError("MinCount"));
      }
      minCount := None;
      if maxCount.None? {
        return Err(KeyError("MaxCount"));
      }
      maxCount := None;
      r := Ok(());
    }
  }

  /** Python truth of an optional size: None and 0 are false. */
  predicate SizeGiven(size: Option<int>) {
    size.Some? && size.value != 0
  }

  /** The root volume mapping `bootsize` adds. */
  function BootMapping(size: int): Mapping {
    Mapping(BootDevice, Ebs("gp2", size, None, None))
  }

  /** How a drive mapping names its snapshot: no key at all, or the key even when there is none. */
  datatype SnapshotKey = OnlyWhenFound | Always

  /**
   * The /dev/xvdf mapping of a drive of `size` GiB that survives
   * termination, restored from `snap` when there is one.
   */
  function DriveMapping(size: int, snap: Option<Id>, key: SnapshotKey): (m: Mapping)
    ensures m.deviceName == Device && m.ebs.volumeType == "gp2" && m.ebs.volumeSize == size
    ensures m.ebs.deleteOnTermination == Some(false)
    ensures key == OnlyWhenFound ==> (m.ebs.snapshotId.Some? <==> snap.Some?)
    ensures key == Always ==> m.ebs.snapshotId == Some(snap)
    ensures m.ebs.snapshotId.Some? ==> m.ebs.snapshotId.value == snap
  {
    var sid := if key == Always || snap.Some? then Some(snap) else None;
    Mapping(Device, Ebs("gp2", size, Some(false), sid))
  }

  /** The drive mapping's size when a drive is named; Python's `if drive:` is false for None and "", and "" stands for no drive. */
  function DriveSize(drive: string, drivesize: int): Option<int> {
    if drive != "" then Some(drivesize) else None
  }

  /** The mappings a create appends, in order: the boot mapping, then the drive's. */
  function CreateMappings(bootsize: Option<int>, drive: Option<int>, snap: Option<Id>, key: SnapshotKey): seq<Mapping> {
    (if SizeGiven(bootsize) then [BootMapping(bootsize.value)] else []) +
    (if drive.Some? then [DriveMapping(drive.value, snap, key)] else [])
  }

  /** How many mappings name device `dev`. */
  function CountDevice(ms: seq<Mapping>, dev: string): nat {
    if ms == [] then 0 else (if ms[0].deviceName == dev then 1 else 0) + CountDevice(ms[1..], dev)
  }

  lemma {:induction false} CountDeviceAppend(a: seq<Mapping>, b: seq<Mapping>, dev: string)
    ensures CountDevice(a + b, dev) == CountDevice(a, dev) + CountDevice(b, dev)
  {
    if a == [] {
      assert a + b == b;
    } else {
      assert (a + b)[1..] == a[1..] + b;
      CountDeviceAppend(a[1..], b, dev);
    }
  }

  /**
   * The mappings of a create: one /dev/xvda mapping exactly when a boot
   * size is given, one /dev/xvdf mapping exactly when a drive is, and the
   * drive's mapping survives termination, has the drive's size and names the
   * snapshot as its key rule says.
   */
  lemma CreateMappingsShape(bootsize: Option<int>, drive: Option<int>, snap: Option<Id>, key: SnapshotKey)
    ensures CountDevice(CreateMappings(bootsize, drive, snap, key), BootDevice) == if SizeGiven(bootsize) then 1 else 0
    ensures CountDevice(CreateMappings(bootsize, drive, snap, key), Device) == if drive.Some? then 1 else 0
    ensures forall m :: m in CreateMappings(bootsize, drive, snap, key) && m.deviceName == Device ==>
      m == DriveMapping(drive.value, snap, key) && m.ebs.deleteOnTermination == Some(false) &&
      m.ebs.volumeSize == drive.value && (key == OnlyWhenFound ==> (m.ebs.snapshotId.Some? <==> snap.Some?))
    ensures DistinctDevices(CreateMappings(bootsize, drive, snap, key))
    ensures key == OnlyWhenFound ==> !HasNoneSnapshotId(CreateMappings(bootsize, drive, snap, key))
  {
    var boot := if SizeGiven(bootsize) then [BootMapping(bootsize.value)] else [];
    var data := if drive.Some? then [DriveMapping(drive.value, snap, key)] else [];
    CountDeviceAppend(boot, data, BootDevice);
    CountDeviceAppend(boot, data, Device);
    assert CountDevice(boot, Device) == 0 by {
      if boot != [] { assert boot[1..] == []; }
    }
    assert CountDevice(data, BootDevice) == 0 by {
      if data != [] { assert data[1..] == []; }
    }
    if boot != [] { assert boot[1..] == []; }
    if data != [] { assert data[1..] == []; }
  }

  /**
   * create_spot: the spec loses MinCount and MaxCount and is sent as a spot
   * request; the fulfilled request is a launched instance.
   */
  method CreateSpot(w: World, spec: LaunchSpec, zone: string) returns (r: Result<Resource, Error>)
    requires w.Valid()
    modifies w, spec
    ensures w.Valid()
    ensures spec.imageId == old(spec.imageId) && spec.instanceType == old(spec.instanceType)
    ensures spec.mappings == old(spec.mappings)
    ensures old(spec.minCount).None? ==>
      r == Err(KeyError("MinCount")) && spec.minCount.None? && spec.maxCount == old(spec.maxCount) &&
      w.TablesUnchanged() && w.trace == old(w.trace)
    ensures old(spec.minCount).Some? && old(spec.maxCount).None? ==>
      r == Err(KeyError("MaxCount")) && spec.minCount.None? && spec.maxCount.None? &&
      w.TablesUnchanged() && w.trace == old(w.trace)
    ensures old(spec.minCount).Some? && old(spec.maxCount).Some? ==> spec.minCount.None? && spec.maxCount.None?
    ensures old(spec.minCount).Some? && old(spec.maxCount).Some? ==> Launched(r, old(w.instances), w.instances,
      old(w.volumes), w.volumes, old(w.snapshots), old(w.nextId), w.nextId, old(w.trace), w.trace, spec.mappings.items, zone)
    ensures w.snapshots == old(w.snapshots) && w.clock == old(w.clock) && w.host == old(w.host)
  {
    var d := spec.DeleteCounts();
    if d.Err? {
      return Err(d.error);
    }
    r := w.RunInstances(spec.mappings.items, zone);
  }

  /**
   * `create_instances(**spec)[0]` or a fulfilled spot request, given the
   * tables before and after: the error cases of the provider, or the new
   * running instance with one new volume per mapping.
   */
  ghost predicate Launched(r: Result<Resource, Error>, ins: seq<Resource>, ins': seq<Resource>,
                           vs: seq<Resource>, vs': seq<Resource>, ss: seq<Resource>,
                           n0: Id, n1: Id, t0: seq<Action>, t1: seq<Action>, ms: seq<Mapping>, zone: string)
  {
    (r.Ok? <==> !HasNoneSnapshotId(ms) && DistinctDevices(ms) && SnapshotsKnown(ms, ss)) &&
    (HasNoneSnapshotId(ms) ==> r == Err(ProviderError("ParamValidation")) && t1 == t0) &&
    (!HasNoneSnapshotId(ms) && !DistinctDevices(ms) ==> r == Err(ProviderError("InvalidBlockDeviceMapping"))) &&
    (!HasNoneSnapshotId(ms) ==> t1 == t0 + [LaunchRequested(ms)]) &&
    (r.Err? ==> ins' == ins && vs' == vs && n1 == n0) &&
    (r.Ok? ==> r.value == Instance(n0, None, zone, true, LaunchedDevices(ms, n0 + 1)) &&
               ins' == ins + [r.value] && vs' == vs + LaunchedVolumes(ms, n0 + 1, n0, zone, ss) &&
               n1 == n0 + 1 + |ms|)
  }

  /** The on-demand launch: the spec as it is, sent to create_instances. */
  method CreateInstances(w: World, spec: LaunchSpec, zone: string) returns (r: Result<Resource, Error>)
    requires w.Valid()
    modifies w
    ensures w.Valid()
    ensures Launched(r, old(w.instances), w.instances, old(w.volumes), w.volumes, old(w.snapshots),
                     old(w.nextId), w.nextId, old(w.trace), w.trace, spec.mappings.items, zone)
    ensures w.snapshots == old(w.snapshots) && w.clock == old(w.clock) && w.host == old(w.host)
  {
    r := w.RunInstances(spec.mappings.items, zone);
  }

  /** The instance a launch from mappings `ms` creates, once named `name`. */
  function NewInstance(id: Id, ms: seq<Mapping>, zone: string, name: string): Resource {
    Tagged(Instance(id, None, zone, true, LaunchedDevices(ms, id + 1)), NameKey, name)
  }

  /**
   * What the three revisions of create do between building the spec and
   * preparing the drive: a spot or on-demand launch, the instance named
   * `name`, and the remote channel pointed at it as `user`. With no other
   * instance of that name before, the new one is the only one after.
   */
  method LaunchAndName(w: World, spec: LaunchSpec, spot: bool, zone: string, name: string, user: string)
    returns (r: Result<Resource, Error>)
    requires w.Valid() && Matching(w.instances, Some(name)) == []
    requires spec.minCount.Some? && spec.maxCount.Some?
    modifies w, spec
    ensures w.Valid()
    ensures w.snapshots == old(w.snapshots) && w.clock == old(w.clock)
    ensures spec.mappings == old(spec.mappings) && spec.imageId == old(spec.imageId)
    ensures spec.instanceType == old(spec.instanceType)
    ensures var ms := spec.mappings.items;
      (r.Ok? <==> !HasNoneSnapshotId(ms) && DistinctDevices(ms) && SnapshotsKnown(ms, old(w.snapshots))) &&
      (HasNoneSnapshotId(ms) ==> r == Err(ProviderError("ParamValidation"))) &&
      (!HasNoneSnapshotId(ms) && !DistinctDevices(ms) ==> r == Err(ProviderError("InvalidBlockDeviceMapping")))
    ensures r.Err? ==>
      w.TablesUnchanged() && w.host == old(w.host) &&
      w.trace == old(w.trace) + (if HasNoneSnapshotId(spec.mappings.items) then [] else [LaunchRequested(spec.mappings.items)])
    ensures r.Ok? ==>
      w.volumes == old(w.volumes) + LaunchedVolumes(spec.mappings.items, old(w.nextId) + 1, old(w.nextId), zone, old(w.snapshots)) &&
      w.nextId == old(w.nextId) + 1 + |spec.mappings.items|
    ensures r.Ok? ==>
      var inst := NewInstance(old(w.nextId), spec.mappings.items, zone, name);
      r.value == inst && w.instances == old(w.instances) + [inst] && Matching(w.instances, Some(name)) == [inst] &&
      w.host == Host(inst.id, user, false, false, "", None, false) &&
      w.trace == old(w.trace) + [LaunchRequested(spec.mappings.items), TagsCreated(inst.id, NameKey, name)]
  {
    var launched := LaunchEither(w, spec, spot, zone);
    if launched.Err? {
      return launched;
    }
    r := NameLaunched(w, old(w.instances), launched.value, name, user);
  }

  /** create_spot or create_instances, as `spot` says. */
  method LaunchEither(w: World, spec: LaunchSpec, spot: bool, zone: string) returns (r: Result<Resource, Error>)
    requires w.Valid()
    requires spec.minCount.Some? && spec.maxCount.Some?
    modifies w, spec
    ensures w.Valid()
    ensures w.snapshots == old(w.snapshots) && w.clock == old(w.clock) && w.host == old(w.host)
    ensures spec.mappings == old(spec.mappings) && spec.imageId == old(spec.imageId)
    ensures spec.instanceType == old(spec.instanceType)
    ensures Launched(r, old(w.instances), w.instances, old(w.volumes), w.volumes, old(w.snapshots),
                     old(w.nextId), w.nextId, old(w.trace), w.trace, spec.mappings.items, zone)
  {
    if spot {
      r := CreateSpot(w, spec, zone);
    } else {
      r := CreateInstances(w, spec, zone);
    }
  }

  /** set_name on the instance just launched, and the remote channel pointed at it. */
  method NameLaunched(w: World, ghost ins: seq<Resource>, inst: Resource, name: string, user: string)
    returns (r: Result<Resource, Error>)
    requires w.Valid() && inst.Instance? && w.instances == ins + [inst]
    requires forall i :: 0 <= i < |ins| ==> ins[i].id < inst.id
    requires Matching(ins, Some(name)) == []
    modifies w
    ensures w.Valid() && r == Ok(Tagged(inst, NameKey, name))
    ensures w.instances == ins + [Tagged(inst, NameKey, name)]
    ensures Matching(w.instances, Some(name)) == [Tagged(inst, NameKey, name)]
    ensures w.volumes == old(w.volumes) && w.snapshots == old(w.snapshots)
    ensures w.nextId == old(w.nextId) && w.clock == old(w.clock)
    ensures w.host == Host(inst.id, user, false, false, "", None, false)
    ensures w.trace == old(w.trace) + [TagsCreated(inst.id, NameKey, name)]
  {
    NameFreshEntry(ins, inst, name);
    SetName(w, inst, name);
    w.AddressNew(inst.id, user, false);
    r := Ok(Tagged(inst, NameKey, name));
  }

  /** The volume id of the first mapping at device `dev`, if any. */
  function FirstAt(devices: seq<DeviceMapping>, dev: string): Option<Id> {
    if devices == [] then None
    else if devices[0].deviceName == dev then Some(devices[0].volumeId)
    else FirstAt(devices[1..], dev)
  }

  /**
   * FirstAt finds nothing exactly when no mapping is at `dev`, and
   * otherwise the volume of a mapping at `dev` with none at `dev` before it.
   */
  lemma {:induction false} FirstAtFinds(devices: seq<DeviceMapping>, dev: string)
    ensures FirstAt(devices, dev).None? <==> forall k :: 0 <= k < |devices| ==> devices[k].deviceName != dev
    ensures FirstAt(devices, dev).Some? ==> exists k :: (0 <= k < |devices| &&
      devices[k] == DeviceMapping(dev, FirstAt(devices, dev).value) &&
      forall j :: 0 <= j < k ==> devices[j].deviceName != dev)
  {
    if devices != [] && devices[0].deviceName != dev {
      var rest := devices[1..];
      FirstAtFinds(rest, dev);
      assert forall k :: 0 <= k < |rest| ==> rest[k] == devices[k + 1];
      if FirstAt(rest, dev).Some? {
        var k :| 0 <= k < |rest| && rest[k] == DeviceMapping(dev, FirstAt(rest, dev).value) &&
          forall j :: 0 <= j < k ==> rest[j].deviceName != dev;
        assert devices[k + 1] == rest[k];
        assert forall j :: 0 <= j < k + 1 ==> devices[j].deviceName != dev by {
          forall j | 0 <= j < k + 1 ensures devices[j].deviceName != dev {
            if j > 0 { assert devices[j] == rest[j - 1]; }
          }
        }
      }
    } else if devices != [] {
      assert devices[0] == DeviceMapping(dev, devices[0].volumeId);
    }
  }

  /**
   * `for bdm in instance.block_device_mappings: if bdm["DeviceName"] ==
   * "/dev/xvdf": … break` — the volume id of the first /dev/xvdf mapping.
   */
  method FindDriveVolume(devices: seq<DeviceMapping>) returns (r: Option<Id>)
    ensures r == FirstAt(devices, Device)
  {
    var k := 0;
    while k < |devices|
      invariant 0 <= k <= |devices|
      invariant FirstAt(devices, Device) == FirstAt(devices[k..], Device)
    {
      if devices[k].deviceName == Device {
        return Some(devices[k].volumeId);
      }
      assert devices[k..][1..] == devices[k + 1..];
      k := k + 1;
    }
    return None;
  }

  /** aws.ec2.Volume(id): the volume with that id, if it still exists. */
  function VolumeById(vs: seq<Resource>, id: Id): (r: Option<Resource>)
    ensures r.Some? ==> r.value in vs && r.value.id == id
    ensures r.None? ==> forall v :: v in vs ==> v.id != id
  {
    if vs == [] then None
    else if vs[0].id == id then Some(vs[0])
    else VolumeById(vs[1..], id)
  }

  /**
   * The loop of create that names the drive's volume: set_name on the volume
   * of the first /dev/xvdf mapping of the new instance, nothing when there is
   * none.
   */
  method NameDriveVolume(w: World, inst: Resource, name: string) returns (vid: Option<Id>)
    requires w.Valid() && inst.Instance?
    modifies w
    ensures w.Valid()
    ensures vid == FirstAt(inst.devices, Device)
    ensures w.instances == old(w.instances) && w.snapshots == old(w.snapshots)
    ensures w.nextId == old(w.nextId) && w.clock == old(w.clock) && w.host == old(w.host)
    ensures vid.Some? ==> w.volumes == Retagged(old(w.volumes), vid.value, NameKey, name) &&
                          w.trace == old(w.trace) + [TagsCreated(vid.value, NameKey, name)]
    ensures vid.None? ==> w.volumes == old(w.volumes) && w.trace == old(w.trace)
  {
    vid := FindDriveVolume(inst.devices);
    if vid.Some? {
      w.CreateTags(Volumes, vid.value, NameKey, name);
    }
  }

  /** The id of the latest snapshot, when there is one. */
  function SnapId(latest: Option<Resource>): Option<Id> {
    if latest.Some? then Some(latest.value.id) else None
  }

  /**
   * Every snapshot the mappings of a create name is known to the provider
   * when the latest snapshot is one of its snapshots.
   */
  lemma CreateMappingsKnown(bootsize: Option<int>, drive: Option<int>, latest: Option<Resource>,
                            key: SnapshotKey, ss: seq<Resource>)
    requires latest.Some? ==> latest.value in ss
    ensures SnapshotsKnown(CreateMappings(bootsize, drive, SnapId(latest), key), ss)
  {
    var ms := CreateMappings(bootsize, drive, SnapId(latest), key);
    forall m | m in ms && m.ebs.snapshotId.Some? && m.ebs.snapshotId.value.Some?
      ensures SnapshotById(ss, m.ebs.snapshotId.value.value).Some?
    {
      assert m == DriveMapping(drive.value, SnapId(latest), key);
    }
  }

  /**
   * After the launch, before the drive is prepared: the remote channel
   * addresses the new instance with /v1 unmounted, and the last volume of
   * the table is the drive's new volume, untagged and attached to the
   * instance at /dev/xvdf, the one its first /dev/xvdf mapping names; no
   * earlier volume carries the drive's name.
   */
  ghost predicate AwaitsDrive(w: World, inst: Resource, drive: string)
    reads w
  {
    DriveWaiting(w.volumes, w.host, inst, drive)
  }

  /** AwaitsDrive, on the volume table `vs` and the host record `h`. */
  ghost predicate DriveWaiting(vs: seq<Resource>, h: Host, inst: Resource, drive: string) {
    inst.Instance? && drive != "" && h.target == inst.id && !h.mounted && |vs| > 0 &&
    var v := vs[|vs| - 1];
    v.Volume? && v.tags == None && v.attachments == [Attachment(inst.id, Device, false)] &&
    ZoneOf(v) == ZoneOf(inst) && FirstAt(inst.devices, Device) == Some(v.id) &&
    Matching(vs[..|vs| - 1], Some(drive)) == []
  }

  /**
   * A launch whose mappings end with the drive's leaves the drive waiting:
   * its volume is the last of the table, formatted exactly when the
   * snapshot it was restored from was, and no earlier volume carries the
   * drive's name when none did before the launch.
   */
  lemma LaunchLeavesDriveWaiting(vs: seq<Resource>, h: Host, inst: Resource, name: string, drive: string,
                                 vs0: seq<Resource>, pre: seq<Mapping>, size: int, snap: Option<Id>,
                                 key: SnapshotKey, n0: Id, zone: string, ss: seq<Resource>)
    requires drive != "" && Matching(vs0, Some(drive)) == []
    requires FirstAt(LaunchedDevices(pre + [DriveMapping(size, snap, key)], n0 + 1), Device) == Some(n0 + 1 + |pre|)
    requires inst == NewInstance(n0, pre + [DriveMapping(size, snap, key)], zone, name)
    requires vs == vs0 + LaunchedVolumes(pre + [DriveMapping(size, snap, key)], n0 + 1, n0, zone, ss)
    requires h.target == inst.id && !h.mounted
    ensures DriveWaiting(vs, h, inst, drive)
    ensures vs[|vs| - 1].id == n0 + 1 + |pre|
    ensures vs[|vs| - 1].formatted == RestoredFormatted(snap, ss)
  {
    var dm := DriveMapping(size, snap, key);
    var init := vs0 + LaunchedVolumes(pre, n0 + 1, n0, zone, ss);
    var v := Volume(n0 + 1 + |pre|, None, zone, [Attachment(n0, Device, false)], snap, RestoredFormatted(snap, ss));
    assert inst.Instance? && inst.id == n0 && inst.zone == zone && FirstAt(inst.devices, Device) == Some(v.id) by {
      NewInstanceShape(inst, n0, pre + [dm], zone, name);
    }
    assert vs == init + [v] by {
      LaunchedPieces(vs0, pre, size, snap, key, n0, zone, ss);
    }
    assert Matching(init, Some(drive)) == [] by {
      LaunchedKeepsUnnamed(vs0, pre, n0, zone, ss, drive);
    }
    DriveWaitingOf(vs, h, inst, drive, init, v);
  }

  /** The waiting state, from the shape of the last volume and the instance. */
  lemma DriveWaitingOf(vs: seq<Resource>, h: Host, inst: Resource, drive: string, init: seq<Resource>, v: Resource)
    requires drive != "" && Matching(init, Some(drive)) == []
    requires inst.Instance? && FirstAt(inst.devices, Device) == Some(v.id)
    requires vs == init + [v]
    requires v.Volume? && v.tags == None && v.zone == inst.zone && v.attachments == [Attachment(inst.id, Device, false)]
    requires h.target == inst.id && !h.mounted
    ensures DriveWaiting(vs, h, inst, drive) && vs[|vs| - 1] == v
  {
    assert vs[..|vs| - 1] == init;
  }

  lemma NewInstanceShape(inst: Resource, id: Id, ms: seq<Mapping>, zone: string, name: string)
    requires inst == NewInstance(id, ms, zone, name)
    ensures inst.Instance? && inst.id == id && inst.zone == zone && inst.devices == LaunchedDevices(ms, id + 1)
  {
  }

  /** The table after the launch: the untagged volumes, then the drive's. */
  lemma LaunchedPieces(vs0: seq<Resource>, pre: seq<Mapping>, size: int, snap: Option<Id>,
                       key: SnapshotKey, n0: Id, zone: string, ss: seq<Resource>)
    ensures vs0 + LaunchedVolumes(pre + [DriveMapping(size, snap, key)], n0 + 1, n0, zone, ss) ==
            vs0 + LaunchedVolumes(pre, n0 + 1, n0, zone, ss) +
            [Volume(n0 + 1 + |pre|, None, zone, [Attachment(n0, Device, false)], snap, RestoredFormatted(snap, ss))]
  {
    var dm := DriveMapping(size, snap, key);
    var b := LaunchedVolumes(pre, n0 + 1, n0, zone, ss);
    var v := Volume(n0 + 1 + |pre|, None, zone, [Attachment(n0, Device, false)], snap, RestoredFormatted(snap, ss));
    assert LaunchedVolumes(pre + [dm], n0 + 1, n0, zone, ss) == b + [v] by {
      LaunchedVolumesSnoc(pre, dm, n0 + 1, n0, zone, ss);
      DriveVolumeShape(LaunchedVolume(dm, n0 + 1 + |pre|, n0, zone, ss), size, snap, key, n0 + 1 + |pre|, n0, zone, ss);
    }
    AppendAssoc(vs0, b, [v]);
  }

  /** The untagged volumes of a launch add no entry named `drive`. */
  lemma LaunchedKeepsUnnamed(vs0: seq<Resource>, pre: seq<Mapping>, n0: Id, zone: string, ss: seq<Resource>,
                             drive: string)
    requires drive != "" && Matching(vs0, Some(drive)) == []
    ensures Matching(vs0 + LaunchedVolumes(pre, n0 + 1, n0, zone, ss), Some(drive)) == []
  {
    LaunchedUntagged(pre, n0 + 1, n0, zone, ss);
    MatchingUntagged(vs0, LaunchedVolumes(pre, n0 + 1, n0, zone, ss), drive);
  }

  lemma AppendAssoc<T>(a: seq<T>, b: seq<T>, c: seq<T>)
    ensures a + (b + c) == a + b + c
  {
  }

  lemma DriveVolumeShape(v: Resource, size: int, snap: Option<Id>, key: SnapshotKey, id: Id, iid: Id,
                         zone: string, ss: seq<Resource>)
    requires v == LaunchedVolume(DriveMapping(size, snap, key), id, iid, zone, ss)
    ensures v == Volume(id, None, zone, [Attachment(iid, Device, false)], snap, RestoredFormatted(snap, ss))
  {
  }

  /** The table after a launch ends with the volume of the last mapping. */
  lemma LaunchedTail(vs: seq<Resource>, vs0: seq<Resource>, pre: seq<Mapping>, dm: Mapping,
                     first: Id, iid: Id, zone: string, ss: seq<Resource>)
    requires vs == vs0 + LaunchedVolumes(pre + [dm], first, iid, zone, ss)
    ensures |vs| > 0 && vs[|vs| - 1] == LaunchedVolume(dm, first + |pre|, iid, zone, ss)
    ensures vs[..|vs| - 1] == vs0 + LaunchedVolumes(pre, first, iid, zone, ss)
    ensures vs == vs0 + LaunchedVolumes(pre, first, iid, zone, ss) + [LaunchedVolume(dm, first + |pre|, iid, zone, ss)]
  {
    LaunchedVolumesSnoc(pre, dm, first, iid, zone, ss);
    assert vs == (vs0 + LaunchedVolumes(pre, first, iid, zone, ss)) + [LaunchedVolume(dm, first + |pre|, iid, zone, ss)];
  }

  /** The drive's new volume once it is named, and formatted when `format`. */
  function NamedDrive(v: Resource, drive: string, format: bool): Resource {
    var t := Tagged(v, NameKey, drive);
    if format then WithFilesystem(t) else t
  }

  /**
   * The part of create that the three revisions share once the instance
   * runs: the drive's volume is named, then formatted when `format` (there
   * was no snapshot). Afterwards it is the only volume with the drive's
   * name, attached to the instance, and nothing else in the table changed.
   */
  method NameAndFormat(w: World, inst: Resource, drive: string, format: bool)
    requires w.Valid() && AwaitsDrive(w, inst, drive)
    modifies w
    ensures w.Valid()
    ensures w.instances == old(w.instances) && w.snapshots == old(w.snapshots)
    ensures w.nextId == old(w.nextId) && w.clock == old(w.clock) && w.host == old(w.host)
    ensures var v := old(w.volumes)[|old(w.volumes)| - 1];
      w.volumes == old(w.volumes)[..|old(w.volumes)| - 1] + [NamedDrive(v, drive, format)] &&
      Matching(w.volumes, Some(drive)) == [NamedDrive(v, drive, format)] &&
      DriveAttachedTo(w.volumes, drive, inst) &&
      (w.DeviceFormatted() <==> format || v.formatted) &&
      w.trace == old(w.trace) + [TagsCreated(v.id, NameKey, drive)] + (if format then FormatSteps(v.formatted) else [])
  {
    ghost var vs := w.volumes;
    ghost var pre := vs[..|vs| - 1];
    ghost var v := vs[|vs| - 1];
    assert vs == pre + [v];
    NameWaiting(w, inst, drive, pre, v);
    FormatWhen(w, pre, Tagged(v, NameKey, drive), drive, format);
    NamedDriveFacts(pre, v, drive, format, inst);
  }

  /** The trace of naming the drive's volume, no format, and a mount that fails. */
  lemma MountFailedTrace(t0: seq<Action>, t1: seq<Action>, t2: seq<Action>, vid: Id, drive: string,
                         format: bool, formatted: bool)
    requires !format
    requires t1 == t0 + [TagsCreated(vid, NameKey, drive)] + (if format then FormatSteps(formatted) else [])
    requires t2 == t1 + [Ran(MkdirCmd), Ran(MountCmd)]
    ensures t2 == t0 + [TagsCreated(vid, NameKey, drive), Ran(MkdirCmd), Ran(MountCmd)]
  {
  }

  /** The naming step of NameAndFormat: the drive's volume gets the drive's name. */
  method NameWaiting(w: World, inst: Resource, drive: string, ghost pre: seq<Resource>, ghost v: Resource)
    requires w.Valid() && AwaitsDrive(w, inst, drive) && w.volumes == pre + [v]
    modifies w
    ensures w.Valid()
    ensures w.instances == old(w.instances) && w.snapshots == old(w.snapshots)
    ensures w.nextId == old(w.nextId) && w.clock == old(w.clock) && w.host == old(w.host)
    ensures w.volumes == pre + [Tagged(v, NameKey, drive)]
    ensures w.trace == old(w.trace) + [TagsCreated(v.id, NameKey, drive)]
    ensures Tagged(v, NameKey, drive).Volume? && HoldsSlot(Tagged(v, NameKey, drive), w.host.target, Device)
    ensures forall x :: x in pre ==> !HoldsSlot(x, w.host.target, Device)
  {
    WaitingRetagged(w.volumes, w.nextId, pre, v, inst.id, drive);
    var vid := NameDriveVolume(w, inst, drive);
  }

  /**
   * Naming the last volume of a valid table, which holds slot (`iid`,
   * /dev/xvdf), changes that volume alone and keeps the slot its own.
   */
  lemma WaitingRetagged(vs: seq<Resource>, bound: Id, pre: seq<Resource>, v: Resource, iid: Id, drive: string)
    requires ValidVolumes(vs, bound) && vs == pre + [v] && HoldsSlot(v, iid, Device)
    ensures Retagged(vs, v.id, NameKey, drive) == pre + [Tagged(v, NameKey, drive)]
    ensures Tagged(v, NameKey, drive).Volume? && HoldsSlot(Tagged(v, NameKey, drive), iid, Device)
    ensures forall x :: x in pre ==> !HoldsSlot(x, iid, Device)
  {
    assert pre == vs[..|vs| - 1];
    LastHoldsSlot(vs, bound, iid, Device);
    var t := Retagged(vs, v.id, NameKey, drive);
    assert t == pre + [Tagged(v, NameKey, drive)] by {
      forall i | 0 <= i < |vs| ensures t[i] == (pre + [Tagged(v, NameKey, drive)])[i] {
      }
    }
    assert SlotsOf(Tagged(v, NameKey, drive)) == SlotsOf(v);
  }

  /**
   * The drive's volume once named (and formatted when `format`) is the only
   * one with the drive's name, attached to the instance, and the device is
   * formatted exactly when it was formatted already or `format`.
   */
  lemma NamedDriveFacts(pre: seq<Resource>, v: Resource, drive: string, format: bool, inst: Resource)
    requires drive != "" && Matching(pre, Some(drive)) == []
    requires v.Volume? && v.attachments == [Attachment(inst.id, Device, false)] && ZoneOf(v) == ZoneOf(inst)
    requires forall x :: x in pre ==> !HoldsSlot(x, inst.id, Device)
    ensures Matching(pre + [NamedDrive(v, drive, format)], Some(drive)) == [NamedDrive(v, drive, format)]
    ensures DriveAttachedTo(pre + [NamedDrive(v, drive, format)], drive, inst)
    ensures (exists x :: x in pre + [NamedDrive(v, drive, format)] && HoldsSlot(x, inst.id, Device) && x.formatted)
            <==> format || v.formatted
  {
    var u := NamedDrive(v, drive, format);
    assert u.Volume? && u.attachments == v.attachments && ZoneOf(u) == ZoneOf(v);
    assert u.formatted == (format || v.formatted);
    assert NameOf(u) == drive by {
      SetNameThenGetName(v.tags, drive);
    }
    MatchingAppend(pre, u, Some(drive));
    assert HoldsSlot(u, inst.id, Device) by {
      assert SlotsOf(u) == SlotsOf(v);
    }
    OnlyLastHolds(pre, u, inst.id, Device);
  }

  /** formatdisk when `format`, on a device only the last volume `t` holds. */
  method FormatWhen(w: World, ghost pre: seq<Resource>, ghost t: Resource, drive: string, format: bool)
    requires w.Valid() && w.volumes == pre + [t] && t.Volume? && HoldsSlot(t, w.host.target, Device)
    requires forall x :: x in pre ==> !HoldsSlot(x, w.host.target, Device)
    modifies w
    ensures w.Valid()
    ensures w.instances == old(w.instances) && w.snapshots == old(w.snapshots)
    ensures w.nextId == old(w.nextId) && w.clock == old(w.clock) && w.host == old(w.host)
    ensures w.volumes == pre + [if format then WithFilesystem(t) else t]
    ensures w.trace == old(w.trace) + (if format then FormatSteps(t.formatted) else [])
  {
    if format {
      OnlyLastHolds(pre, t, w.host.target, Device);
      var d := new Drive(drive);
      var ok := d.FormatDisk(w);
      assert ok.Ok?;
      if !t.formatted {
        FormattedAtLast(pre, t, w.host.target, Device);
      } else {
        assert WithFilesystem(t) == t;
      }
    } else {
      assert w.trace == old(w.trace) + [];
    }
  }

  /** The last volume of a valid table holding a slot is the only one holding it, and its id is its own. */
  lemma LastHoldsSlot(vs: seq<Resource>, bound: Id, iid: Id, dev: string)
    requires ValidVolumes(vs, bound) && |vs| > 0 && HoldsSlot(vs[|vs| - 1], iid, dev)
    ensures forall i :: 0 <= i < |vs| - 1 ==> vs[i].id != vs[|vs| - 1].id && !HoldsSlot(vs[i], iid, dev)
    ensures forall x :: x in vs[..|vs| - 1] ==> !HoldsSlot(x, iid, dev)
  {
    forall x | x in vs[..|vs| - 1] ensures !HoldsSlot(x, iid, dev) {
      var i :| 0 <= i < |vs| - 1 && vs[i] == x;
    }
  }

  /** Whether a slot is formatted or present is decided by the last volume once no other holds the slot. */
  lemma OnlyLastHolds(pre: seq<Resource>, t: Resource, iid: Id, dev: string)
    requires HoldsSlot(t, iid, dev) && forall x :: x in pre ==> !HoldsSlot(x, iid, dev)
    ensures (exists x :: x in pre + [t] && HoldsSlot(x, iid, dev) && x.formatted) <==> t.formatted
    ensures exists x :: x in pre + [t] && HoldsSlot(x, iid, dev)
  {
    assert t in pre + [t];
  }

  /** mkfs on the slot only the last volume holds formats that volume alone. */
  lemma FormattedAtLast(pre: seq<Resource>, t: Resource, iid: Id, dev: string)
    requires HoldsSlot(t, iid, dev) && forall x :: x in pre ==> !HoldsSlot(x, iid, dev)
    ensures FormattedAt(pre + [t], iid, dev) == pre + [WithFilesystem(t)]
  {
    var r := FormattedAt(pre + [t], iid, dev);
    assert forall i :: 0 <= i < |pre| ==> r[i] == pre[i];
  }

  /**
   * The volumes a launch creates for mappings that end with the drive's:
   * the instance's first /dev/xvdf entry names the last of them, and the
   * others carry no tags.
   */
  lemma LaunchedDrive(pre: seq<Mapping>, dm: Mapping, first: Id, iid: Id, zone: string, ss: seq<Resource>)
    requires DistinctDevices(pre + [dm]) && dm.deviceName == Device
    ensures FirstAt(LaunchedDevices(pre + [dm], first), Device) == Some(first + |pre|)
    ensures LaunchedVolumes(pre + [dm], first, iid, zone, ss) ==
      LaunchedVolumes(pre, first, iid, zone, ss) + [LaunchedVolume(dm, first + |pre|, iid, zone, ss)]
    ensures forall x :: x in LaunchedVolumes(pre, first, iid, zone, ss) ==> x.tags == None
  {
    LaunchedDriveDevice(pre, dm, first);
    LaunchedVolumesSnoc(pre, dm, first, iid, zone, ss);
    LaunchedUntagged(pre, first, iid, zone, ss);
  }

  lemma LaunchedDriveDevice(pre: seq<Mapping>, dm: Mapping, first: Id)
    requires DistinctDevices(pre + [dm]) && dm.deviceName == Device
    ensures FirstAt(LaunchedDevices(pre + [dm], first), Device) == Some(first + |pre|)
  {
    var ms := pre + [dm];
    var ds := LaunchedDevices(ms, first);
    LaunchedDeviceAt(ms, first);
    DeviceNameAt(ms);
    assert ds[|pre|] == DeviceMapping(Device, first + |pre|);
    assert forall j :: 0 <= j < |ds| && j != |pre| ==> ds[j].deviceName == ms[j].deviceName != ms[|pre|].deviceName;
    FirstAtOnly(ds, Device, |pre|);
  }

  /** The only entry at `dev` is the first. */
  lemma {:induction false} FirstAtOnly(ds: seq<DeviceMapping>, dev: string, k: nat)
    requires k < |ds| && ds[k].deviceName == dev
    requires forall j :: 0 <= j < |ds| && j != k ==> ds[j].deviceName != dev
    ensures FirstAt(ds, dev) == Some(ds[k].volumeId)
  {
    if k > 0 {
      var rest := ds[1..];
      assert forall j :: 0 <= j < |rest| ==> rest[j] == ds[j + 1];
      FirstAtOnly(rest, dev, k - 1);
    }
  }

  lemma LaunchedVolumesSnoc(pre: seq<Mapping>, dm: Mapping, first: Id, iid: Id, zone: string, ss: seq<Resource>)
    ensures LaunchedVolumes(pre + [dm], first, iid, zone, ss) ==
      LaunchedVolumes(pre, first, iid, zone, ss) + [LaunchedVolume(dm, first + |pre|, iid, zone, ss)]
  {
    var a := LaunchedVolumes(pre + [dm], first, iid, zone, ss);
    var b := LaunchedVolumes(pre, first, iid, zone, ss);
    LaunchedVolumeAt(pre + [dm], first, iid, zone, ss);
    LaunchedVolumeAt(pre, first, iid, zone, ss);
    assert forall i :: 0 <= i < |pre| ==> a[i] == b[i];
    assert a[|pre|] == LaunchedVolume(dm, first + |pre|, iid, zone, ss);
  }

  lemma LaunchedUntagged(pre: seq<Mapping>, first: Id, iid: Id, zone: string, ss: seq<Resource>)
    ensures forall x :: x in LaunchedVolumes(pre, first, iid, zone, ss) ==> x.tags == None
  {
    var b := LaunchedVolumes(pre, first, iid, zone, ss);
    LaunchedVolumeAt(pre, first, iid, zone, ss);
    forall x | x in b ensures x.tags == None {
      var i :| 0 <= i < |b| && b[i] == x;
    }
  }

  /** Untagged entries appended to a table add nothing to the matches of a non-empty name. */
  lemma {:induction false} MatchingUntagged(a: seq<Resource>, b: seq<Resource>, n: string)
    requires n != "" && forall x :: x in b ==> x.tags == None
    ensures Matching(a + b, Some(n)) == Matching(a, Some(n))
  {
    if b != [] {
      var init := b[..|b| - 1];
      var last := b[|b| - 1];
      assert b == init + [last];
      assert a + b == (a + init) + [last];
      assert forall x :: x in init ==> x in b;
      MatchingUntagged(a, init, n);
      MatchingAppend(a + init, last, Some(n));
      assert last in b;
    } else {
      assert a + b == a;
    }
  }

  // ----- the first steps of terminate -----

  /**
   * What `aws.get(instance)` hands terminate: a name is looked up uniquely
   * across instances, volumes and snapshots (None when nothing has it); an
   * object is taken as it is.
   */
  function TerminateTarget(ins: seq<Resource>, vs: seq<Resource>, ss: seq<Resource>, arg: InstanceArg)
    : Result<Option<Resource>, Error>
  {
    match arg
    case Given(i) => Ok(Some(i))
    case ByName(n) =>
      var found := Matching(ins, Some(n)) + Matching(vs, Some(n)) + Matching(ss, Some(n));
      if |found| == 0 then Ok(None) else if |found| == 1 then Ok(Some(found[0])) else Err(MoreThanOne(found))
  }

  /** The lookup of terminate, with the directory's `get` over its default collections. */
  method ResolveTarget(w: World, arg: InstanceArg) returns (r: Result<Option<Resource>, Error>)
    ensures r == TerminateTarget(w.instances, w.volumes, w.snapshots, arg)
  {
    match arg {
      case Given(i) => r := Ok(Some(i));
      case ByName(n) =>
        var f := Get(w, Some(n), AllCollections, true);
        GatherDefault(w, Some(n));
        match f {
          case Err(e) => r := Err(e);
          case Ok(NoMatch) => r := Ok(None);
          case Ok(Sole(x)) => r := Ok(Some(x));
          case Ok(Every(_)) => assert false; r := Ok(None);
        }
    }
  }

  /**
   * The instance and drive terminate works on: the instance must have
   * block_device_mappings, its first /dev/xvdf mapping binds the drive
   * variable `variable` (left unbound without one), and the drive is named
   * after that mapping's volume, which must still exist.
   */
  function DriveOfTarget(vs: seq<Resource>, target: Option<Resource>, variable: string)
    : Result<(Resource, string), Error>
  {
    if target.None? || !target.value.Instance? then Err(AttributeError("block_device_mappings"))
    else
      match FirstAt(target.value.devices, Device)
      case None => Err(UnboundLocal(variable))
      case Some(vid) =>
        match VolumeById(vs, vid)
        case None => Err(ProviderError("InvalidVolume.NotFound"))
        case Some(v) => Ok((target.value, NameOf(v)))
  }

  /**
   * The first steps of each revision's terminate: look the instance up,
   * stop docker, and find the drive on the instance's /dev/xvdf mapping. A
   * failed lookup stops before docker is touched; the other errors after.
   */
  method StopAndFind(w: World, arg: InstanceArg, variable: string) returns (r: Result<(Resource, string), Error>)
    requires w.Valid() && (arg.Given? ==> arg.inst in w.instances)
    modifies w
    ensures w.Valid() && w.TablesUnchanged()
    ensures TerminateTarget(old(w.instances), old(w.volumes), old(w.snapshots), arg).Err? ==>
      r == Err(TerminateTarget(old(w.instances), old(w.volumes), old(w.snapshots), arg).error) &&
      w.host == old(w.host) && w.trace == old(w.trace)
    ensures TerminateTarget(old(w.instances), old(w.volumes), old(w.snapshots), arg).Ok? ==>
      r == DriveOfTarget(old(w.volumes), TerminateTarget(old(w.instances), old(w.volumes), old(w.snapshots), arg).value, variable) &&
      w.host == old(w.host).(dockerRunning := false) && w.trace == old(w.trace) + [DockerStopped]
    ensures r.Ok? ==> r.value.0 in w.instances && r.value.0.Instance?
  {
    var target := ResolveTarget(w, arg);
    if target.Err? {
      return Err(target.error);
    }
    w.StopDocker();
    if target.value.None? || !target.value.value.Instance? {
      return Err(AttributeError("block_device_mappings"));
    }
    var inst := target.value.value;
    TargetListed(w.instances, w.volumes, w.snapshots, arg);
    var vid := FindDriveVolume(inst.devices);
    if vid.None? {
      return Err(UnboundLocal(variable));
    }
    var volume := VolumeById(w.volumes, vid.value);
    if volume.None? {
      return Err(ProviderError("InvalidVolume.NotFound"));
    }
    r := Ok((inst, NameOf(volume.value)));
  }

  /** An instance the terminate lookup finds is an instance of the table. */
  lemma TargetListed(ins: seq<Resource>, vs: seq<Resource>, ss: seq<Resource>, arg: InstanceArg)
    requires forall x :: x in vs ==> x.Volume?
    requires forall x :: x in ss ==> x.Snapshot?
    requires arg.Given? ==> arg.inst in ins
    requires TerminateTarget(ins, vs, ss, arg).Ok? && TerminateTarget(ins, vs, ss, arg).value.Some?
    requires TerminateTarget(ins, vs, ss, arg).value.value.Instance?
    ensures TerminateTarget(ins, vs, ss, arg).value.value in ins
  {
    if arg.ByName? {
      var a, b, c := Matching(ins, Some(arg.name)), Matching(vs, Some(arg.name)), Matching(ss, Some(arg.name));
      var x := (a + b + c)[0];
      assert x in a + b + c;
      assert x in a || x in b || x in c;
    }
  }

  /** Termination keeps every name, so it commutes with the name filter. */
  lemma {:induction false} MatchingReleaseFrom(vs: seq<Resource>, iid: Id, name: Option<string>)
    ensures Matching(ReleaseFrom(vs, iid), name) == ReleaseFrom(Matching(vs, name), iid)
  {
    if vs != [] {
      var x, rest := vs[0], vs[1..];
      MatchingReleaseFrom(rest, iid, name);
      assert NameOf(Released(x, iid)) == NameOf(x);
      if Matches(x, name) {
        var m := [x] + Matching(rest, name);
        assert m[0] == x && m[1..] == Matching(rest, name);
        if !DeletedWith(x, iid) {
          var rf := [Released(x, iid)] + ReleaseFrom(rest, iid);
          assert rf[0] == Released(x, iid) && rf[1..] == ReleaseFrom(rest, iid);
        }
      } else if !DeletedWith(x, iid) {
        var rf := [Released(x, iid)] + ReleaseFrom(rest, iid);
        assert rf[0] == Released(x, iid) && rf[1..] == ReleaseFrom(rest, iid);
      }
    }
  }

  /**
   * The drive as a launch leaves it, its one volume attached to the
   * instance at /dev/xvdf and kept on termination, is still the one volume
   * with its name once the instance terminates. When the provider has
   * released the instance's volumes it is no longer attached and nothing is
   * left for the detach that follows; when it has not yet, the volume is
   * unchanged and still attached, and the detach request is sent for it.
   */
  lemma TerminateReleasesDrive(vs: seq<Resource>, inst: Resource, v: Resource, dn: string, released: bool)
    requires Matching(vs, Some(dn)) == [v]
    requires v.Volume? && v.attachments == [Attachment(inst.id, Device, false)]
    ensures Matching(AfterTermination(vs, inst.id, released), Some(dn)) == [if released then v.(attachments := []) else v]
    ensures released ==> !Attached(v.(attachments := [])) && DetachSteps(v.(attachments := [])) == []
    ensures !released ==> Attached(v) && DetachSteps(v) == [DetachRequested(v.id, inst.id)]
  {
    if released {
      MatchingReleaseFrom(vs, inst.id, Some(dn));
      assert !DeletedWith(v, inst.id);
      assert [v][1..] == [];
      assert AttachmentsWithout(v.attachments, inst.id) == [];
      assert Released(v, inst.id) == v.(attachments := []);
    }
  }
}
