/**
 * The cloud account and the remote host as in-memory state.
 *
 * `World` stands for everything the tool reads and changes through boto3
 * (the instance, volume and snapshot collections of one account) and through
 * fabric (the machine that `fab.env.host_string` addresses). Each method of
 * `World` is one provider request or one remote command; all of them append
 * what they did to `trace`, so orderings can be stated on it.
 */
module Cloud {
  import opened Wrappers
  import opened Tags

  /** Provider-assigned resource ids; the model only needs them fresh and comparable. */
  type Id = nat

  /** The fixed device slot of the data volume, its mount point, the boot device. */
  const Device: string := "/dev/xvdf"
  const MountPoint: string := "/v1"
  const BootDevice: string := "/dev/xvda"

  datatype Attachment = Attachment(instanceId: Id, device: string, deleteOnTermination: bool)

  /** An entry of `instance.block_device_mappings`. */
  datatype DeviceMapping = DeviceMapping(deviceName: string, volumeId: Id)

  /**
   * The fields of a launch-spec block device mapping. `deleteOnTermination`
   * is None when the key is absent; `snapshotId` is None when the key is
   * absent and Some(None) when the key is there with the value None.
   */
  datatype Ebs = Ebs(volumeType: string, volumeSize: int, deleteOnTermination: Option<bool>,
                     snapshotId: Option<Option<Id>>)
  datatype Mapping = Mapping(deviceName: string, ebs: Ebs)

  /** The three resource kinds `aws.get` searches; all carry an id and tags. */
  datatype Resource =
    | Instance(id: Id, tags: TagList, zone: string, running: bool, devices: seq<DeviceMapping>)
    | Volume(id: Id, tags: TagList, zone: string, attachments: seq<Attachment>,
             snapshotId: Option<Id>, formatted: bool)
    | Snapshot(id: Id, tags: TagList, startTime: int, volumeId: Id, formatted: bool)

  function NameOf(r: Resource): string {
    GetName(r.tags)
  }

  /** The availability zone of an instance or volume. */
  function ZoneOf(r: Resource): string {
    if r.Snapshot? then "" else r.zone
  }

  /** An instance in the running state. */
  predicate Running(r: Resource) {
    r.Instance? && r.running
  }

  datatype Collection = Instances | Volumes | Snapshots

  /** The exceptions the modelled code raises, or lets escape from a library. */
  datatype Error =
    | MoreThanOne(found: seq<Resource>)   // aws.get: "More than one resource found"
    | ZoneMismatch                         // "volume and instance must be in same availability zone"
    | NoVolumeOrSnapshot(drive: string)    // "No volume or snapshot found for <drive>"
    | VolumeExists                         // "cannot get snapshot as volume exists"
    | VolumeMissing(drive: string)         // "volume <drive> does not exist"
    | InstanceExists(name: string)         // "instance <name> already exists"
    | AttributeError(attribute: string)    // an attribute read on None or on the wrong kind
    | IndexError                           // attachments[0] of an empty list
    | KeyError(key: string)                // a missing dictionary key
    | TypeError                            // `raise` applied to a string
    | UnboundLocal(variable: string)       // a local read before any assignment
    | CommandFailed(command: string)       // fabric aborts on a failed remote command
    | ProviderError(code: string)          // a request the provider refuses

  /**
   * The machine the remote channel addresses: which instance, as which user,
   * whether /v1 is mounted, whether some process other than docker holds it,
   * the owner set by chown, docker's graph folder from /etc/docker/daemon.json
   * (None when that file was never written) and whether docker runs.
   */
  datatype Host = Host(target: Id, user: string, mounted: bool, busy: bool, owner: string,
                       graph: Option<string>, dockerRunning: bool)

  /**
   * The machine the remote channel reaches once it addresses instance `iid`
   * as `user`. Staying on the addressed machine keeps its state. Moving to
   * another machine finds it as `there` describes it (its target and user
   * aside): the model tracks one machine at a time, so the state of the
   * machine moved to is an input. A process can hold /v1 only while
   * something is mounted there.
   */
  function Moved(h: Host, iid: Id, user: string, there: Host): Host {
    if iid == h.target then h.(user := user)
    else there.(target := iid, user := user, busy := there.busy && there.mounted)
  }

  /** One provider request or remote command, in the order issued. */
  datatype Action =
    | LaunchRequested(mappings: seq<Mapping>)
    | VolumeCreated(volumeId: Id, fromSnapshot: Id)
    | TagsCreated(resourceId: Id, key: string, value: string)
    | AttachRequested(volumeId: Id, instanceId: Id, device: string)
    | DetachRequested(volumeId: Id, instanceId: Id)
    | SnapshotStarted(snapshotId: Id, volumeId: Id)
    | DeleteRequested(volumeId: Id)
    | InstanceTerminated(instanceId: Id)
    | Ran(command: string)
    | FileFetched(path: string)
    | DockerStopped
    | DockerInstalled
    | DockerFolderSet(folder: string)

  const BlkidCmd: string := "blkid /dev/xvdf"
  const MkfsCmd: string := "mkfs -t ext4 /dev/xvdf"
  const MkdirCmd: string := "mkdir -p /v1"
  const MountCmd: string := "mount /dev/xvdf /v1"
  const UmountCmd: string := "umount /v1"
  const FuserCmd: string := "fuser -km /v1"
  const DaemonConfig: string := "/etc/docker/daemon.json"

  function ChownCmd(user: string): string {
    "chown -R " + user + ":" + user + " /v1"
  }

  predicate StartsWith(s: string, prefix: string) {
    |prefix| <= |s| && s[..|prefix|] == prefix
  }

  /** Docker keeps files open on the mounted drive when its graph folder is under /v1. */
  predicate DockerHoldsDrive(h: Host) {
    h.mounted && h.dockerRunning && h.graph.Some? && StartsWith(h.graph.value, MountPoint)
  }

  /**
   * The machine once fuser -km /v1 has run. With a filesystem mounted at /v1
   * it kills what holds that filesystem: the busy process, and docker when
   * its graph lives there. With nothing mounted, /v1 is a directory of the
   * root filesystem, so every process using the root filesystem is killed,
   * docker wherever its graph lives included.
   */
  function AfterFuser(h: Host): Host {
    if h.mounted then h.(busy := false, dockerRunning := h.dockerRunning && !DockerHoldsDrive(h))
    else h.(busy := false, dockerRunning := false)
  }

  /** The (instance, device) slots a volume occupies. */
  function SlotsOf(v: Resource): set<(Id, string)> {
    if v.Volume? then set a | a in v.attachments :: (a.instanceId, a.device) else {}
  }

  /** Volume `v` is attached to instance `iid` at device `dev`. */
  predicate HoldsSlot(v: Resource, iid: Id, dev: string) {
    (iid, dev) in SlotsOf(v)
  }

  predicate WellFormedVolume(v: Resource, bound: Id) {
    v.Volume? && v.id < bound && |v.attachments| <= 1 &&
    forall a :: a in v.attachments ==> a.instanceId < bound
  }

  /**
   * A volume table as the provider keeps it: ids are distinct and below the
   * id counter, a volume has at most one attachment, and no two volumes
   * share one device slot of one instance.
   */
  ghost predicate ValidVolumes(vs: seq<Resource>, bound: Id) {
    (forall i :: 0 <= i < |vs| ==> WellFormedVolume(vs[i], bound)) &&
    (forall i, j :: 0 <= i < |vs| && 0 <= j < |vs| && i != j ==> Apart(vs[i], vs[j]))
  }

  /** Two volumes of one table: different ids, and no device slot in common. */
  ghost predicate Apart(a: Resource, b: Resource) {
    a.id != b.id && SlotsOf(a) !! SlotsOf(b)
  }

  // ----- pure updates of a resource table -----

  /** A resource with its tags' `key` set to `value`; everything else as it was. */
  function Tagged(r: Resource, key: string, value: string): (t: Resource)
    ensures t.id == r.id && t.tags == WithTag(r.tags, key, value)
  {
    var tags := WithTag(r.tags, key, value);
    match r
    case Instance(id, _, zone, running, devices) => Instance(id, tags, zone, running, devices)
    case Volume(id, _, zone, atts, snap, fs) => Volume(id, tags, zone, atts, snap, fs)
    case Snapshot(id, _, time, vid, fs) => Snapshot(id, tags, time, vid, fs)
  }

  /** create_tags on the resource `id`: `key` is set to `value`. */
  function Retagged(rs: seq<Resource>, id: Id, key: string, value: string): (r: seq<Resource>)
    ensures |r| == |rs|
    ensures forall i {:trigger r[i]} :: 0 <= i < |rs| ==>
      r[i] == if rs[i].id == id then Tagged(rs[i], key, value) else rs[i]
  {
    if rs == [] then []
    else
      [if rs[0].id == id then Tagged(rs[0], key, value) else rs[0]]
      + Retagged(rs[1..], id, key, value)
  }

  /** The volume `id` gets the attachment list `atts`. */
  function Reattached(vs: seq<Resource>, id: Id, atts: seq<Attachment>): (r: seq<Resource>)
    ensures |r| == |vs|
    ensures forall i {:trigger r[i]} :: 0 <= i < |vs| ==>
      r[i] == if vs[i].Volume? && vs[i].id == id then vs[i].(attachments := atts) else vs[i]
  {
    if vs == [] then []
    else
      [if vs[0].Volume? && vs[0].id == id then vs[0].(attachments := atts) else vs[0]]
      + Reattached(vs[1..], id, atts)
  }

  function WithFilesystem(v: Resource): Resource {
    if v.Volume? then Volume(v.id, v.tags, v.zone, v.attachments, v.snapshotId, true) else v
  }

  /** mkfs on device `dev` of instance `iid` puts a filesystem on the volume there. */
  function FormattedAt(vs: seq<Resource>, iid: Id, dev: string): (r: seq<Resource>)
    ensures |r| == |vs|
    ensures forall i {:trigger r[i]} :: 0 <= i < |vs| ==>
      r[i] == if HoldsSlot(vs[i], iid, dev) then WithFilesystem(vs[i]) else vs[i]
  {
    if vs == [] then []
    else
      [if HoldsSlot(vs[0], iid, dev) then WithFilesystem(vs[0]) else vs[0]] + FormattedAt(vs[1..], iid, dev)
  }

  /** The instance `id` is no longer running. */
  function Stopped(rs: seq<Resource>, id: Id): (r: seq<Resource>)
    ensures |r| == |rs|
    ensures forall i :: 0 <= i < |rs| ==>
      r[i] == if rs[i].Instance? && rs[i].id == id then rs[i].(running := false) else rs[i]
  {
    if rs == [] then []
    else
      [if rs[0].Instance? && rs[0].id == id then rs[0].(running := false) else rs[0]] + Stopped(rs[1..], id)
  }

  function RemoveId(rs: seq<Resource>, id: Id): (r: seq<Resource>)
    ensures |r| <= |rs|
    ensures forall x :: x in r <==> x in rs && x.id != id
  {
    if rs == [] then []
    else if rs[0].id == id then RemoveId(rs[1..], id)
    else [rs[0]] + RemoveId(rs[1..], id)
  }

  function AttachmentsWithout(atts: seq<Attachment>, iid: Id): (r: seq<Attachment>)
    ensures |r| <= |atts|
    ensures forall a :: a in r <==> a in atts && a.instanceId != iid
  {
    if atts == [] then []
    else if atts[0].instanceId == iid then AttachmentsWithout(atts[1..], iid)
    else [atts[0]] + AttachmentsWithout(atts[1..], iid)
  }

  /** A volume the termination of `iid` deletes: attached there with DeleteOnTermination. */
  predicate DeletedWith(v: Resource, iid: Id) {
    v.Volume? && exists a :: a in v.attachments && a.instanceId == iid && a.deleteOnTermination
  }

  /** A volume as it is once instance `iid` is gone: without its attachment there. */
  function Released(v: Resource, iid: Id): (r: Resource)
    ensures r.id == v.id && r.Volume? == v.Volume?
    ensures r.Volume? ==> (|r.attachments| <= |v.attachments| &&
                           forall a :: a in r.attachments ==> a in v.attachments && a.instanceId != iid)
    ensures SlotsOf(r) <= SlotsOf(v)
  {
    if v.Volume? then v.(attachments := AttachmentsWithout(v.attachments, iid)) else v
  }

  /**
   * The volume table once instance `iid` has terminated: volumes attached with
   * DeleteOnTermination are gone, the others attached there are detached.
   */
  function ReleaseFrom(vs: seq<Resource>, iid: Id): (r: seq<Resource>)
    ensures |r| <= |vs|
    ensures forall x :: x in r <==> (exists v :: v in vs && !DeletedWith(v, iid) && x == Released(v, iid))
  {
    if vs == [] then []
    else if DeletedWith(vs[0], iid) then ReleaseFrom(vs[1..], iid)
    else [Released(vs[0], iid)] + ReleaseFrom(vs[1..], iid)
  }

  /**
   * The volume table right after instance.terminate() returns: released
   * from the instance when the provider has already let its volumes go,
   * still attached otherwise.
   */
  function AfterTermination(vs: seq<Resource>, iid: Id, released: bool): seq<Resource> {
    if released then ReleaseFrom(vs, iid) else vs
  }

  function SnapshotById(snaps: seq<Resource>, id: Id): (r: Option<Resource>)
    ensures r.Some? ==> r.value in snaps && r.value.id == id
    ensures r.None? ==> forall s :: s in snaps ==> s.id != id
  {
    if snaps == [] then None
    else if snaps[0].id == id then Some(snaps[0])
    else SnapshotById(snaps[1..], id)
  }

  predicate DistinctDevices(ms: seq<Mapping>) {
    var ns := DeviceNames(ms);
    forall i, j :: 0 <= i < |ns| && 0 <= j < |ns| && i != j ==> ns[i] != ns[j]
  }

  /** The DeviceName of each mapping, in order. */
  function DeviceNames(ms: seq<Mapping>): (ns: seq<string>)
    ensures |ns| == |ms|
  {
    if ms == [] then [] else [ms[0].deviceName] + DeviceNames(ms[1..])
  }

  lemma {:induction false} DeviceNameAt(ms: seq<Mapping>)
    ensures forall k :: 0 <= k < |ms| ==> DeviceNames(ms)[k] == ms[k].deviceName
  {
    if ms != [] {
      DeviceNameAt(ms[1..]);
      assert forall k :: 0 < k < |ms| ==> DeviceNames(ms)[k] == DeviceNames(ms[1..])[k - 1] && ms[1..][k - 1] == ms[k];
    }
  }

  /** Some mapping carries the SnapshotId key with the value None. */
  predicate HasNoneSnapshotId(ms: seq<Mapping>) {
    exists m :: m in ms && m.ebs.snapshotId == Some(None)
  }

  /** Every SnapshotId a mapping names is one of `snaps`. */
  predicate SnapshotsKnown(ms: seq<Mapping>, snaps: seq<Resource>) {
    forall m :: m in ms && m.ebs.snapshotId.Some? && m.ebs.snapshotId.value.Some? ==>
      SnapshotById(snaps, m.ebs.snapshotId.value.value).Some?
  }

  /** The snapshot a mapping restores from, if any. */
  function MappedSnapshot(m: Mapping): Option<Id> {
    if m.ebs.snapshotId.Some? then m.ebs.snapshotId.value else None
  }

  /** Whether a volume restored from snapshot `sid` carries a filesystem. */
  function RestoredFormatted(sid: Option<Id>, snaps: seq<Resource>): bool {
    sid.Some? && SnapshotById(snaps, sid.value).Some? && SnapshotById(snaps, sid.value).value.Snapshot? &&
    SnapshotById(snaps, sid.value).value.formatted
  }

  /**
   * The volume a launch creates for one mapping, attached to the new
   * instance; DeleteOnTermination defaults to true for launch mappings.
   */
  function LaunchedVolume(m: Mapping, vid: Id, iid: Id, zone: string, snaps: seq<Resource>): Resource {
    Volume(vid, None, zone, [Attachment(iid, m.deviceName, m.ebs.deleteOnTermination.GetOr(true))],
           MappedSnapshot(m), RestoredFormatted(MappedSnapshot(m), snaps))
  }

  function LaunchedVolumes(ms: seq<Mapping>, first: Id, iid: Id, zone: string, snaps: seq<Resource>): (r: seq<Resource>)
    ensures |r| == |ms|
  {
    if ms == [] then []
    else [LaunchedVolume(ms[0], first, iid, zone, snaps)] + LaunchedVolumes(ms[1..], first + 1, iid, zone, snaps)
  }

  /** The k-th volume a launch creates comes from the k-th mapping and takes the k-th fresh id. */
  lemma {:induction false} LaunchedVolumeAt(ms: seq<Mapping>, first: Id, iid: Id, zone: string, snaps: seq<Resource>)
    ensures forall k :: 0 <= k < |ms| ==>
      LaunchedVolumes(ms, first, iid, zone, snaps)[k] == LaunchedVolume(ms[k], first + k, iid, zone, snaps)
  {
    if ms != [] {
      LaunchedVolumeAt(ms[1..], first + 1, iid, zone, snaps);
      var r := LaunchedVolumes(ms, first, iid, zone, snaps);
      forall k | 0 <= k < |ms| ensures r[k] == LaunchedVolume(ms[k], first + k, iid, zone, snaps) {
        if k > 0 {
          assert r[k] == LaunchedVolumes(ms[1..], first + 1, iid, zone, snaps)[k - 1];
          assert ms[1..][k - 1] == ms[k];
        }
      }
    }
  }

  function LaunchedDevices(ms: seq<Mapping>, first: Id): (r: seq<DeviceMapping>)
    ensures |r| == |ms|
  {
    if ms == [] then [] else [DeviceMapping(ms[0].deviceName, first)] + LaunchedDevices(ms[1..], first + 1)
  }

  /** The k-th device entry of a launched instance names the k-th mapping's device and volume. */
  lemma {:induction false} LaunchedDeviceAt(ms: seq<Mapping>, first: Id)
    ensures forall k :: 0 <= k < |ms| ==> LaunchedDevices(ms, first)[k] == DeviceMapping(ms[k].deviceName, first + k)
  {
    if ms != [] {
      LaunchedDeviceAt(ms[1..], first + 1);
      var r := LaunchedDevices(ms, first);
      forall k | 0 <= k < |ms| ensures r[k] == DeviceMapping(ms[k].deviceName, first + k) {
        if k > 0 {
          assert r[k] == LaunchedDevices(ms[1..], first + 1)[k - 1];
          assert ms[1..][k - 1] == ms[k];
        }
      }
    }
  }

  class World {
    var instances: seq<Resource>
    var volumes: seq<Resource>
    var snapshots: seq<Resource>
    var nextId: Id
    var clock: int
    var host: Host
    var trace: seq<Action>

    ghost predicate Valid()
      reads this
    {
      (forall i :: 0 <= i < |instances| ==> instances[i].Instance? && instances[i].id < nextId) &&
      ValidVolumes(volumes, nextId) &&
      (forall i :: 0 <= i < |snapshots| ==>
        snapshots[i].Snapshot? && snapshots[i].id < nextId && snapshots[i].startTime < clock) &&
      (host.busy ==> host.mounted)
    }

    /** The provider tables, the id counter and the clock are as they were. */
    twostate predicate TablesUnchanged()
      reads this
    {
      instances == old(instances) && volumes == old(volumes) && snapshots == old(snapshots) &&
      nextId == old(nextId) && clock == old(clock)
    }

    /** /dev/xvdf is visible on the addressed machine. */
    predicate DevicePresent()
      reads this
    {
      exists v :: v in volumes && HoldsSlot(v, host.target, Device)
    }

    /** blkid finds a filesystem signature on /dev/xvdf. */
    predicate DeviceFormatted()
      reads this
    {
      exists v :: v in volumes && HoldsSlot(v, host.target, Device) && v.formatted
    }

    constructor (instances: seq<Resource>, volumes: seq<Resource>, snapshots: seq<Resource>,
                 nextId: Id, clock: int, host: Host)
      requires forall i :: 0 <= i < |instances| ==> instances[i].Instance? && instances[i].id < nextId
      requires ValidVolumes(volumes, nextId)
      requires forall i :: 0 <= i < |snapshots| ==>
        snapshots[i].Snapshot? && snapshots[i].id < nextId && snapshots[i].startTime < clock
      requires host.busy ==> host.mounted
      ensures Valid()
      ensures this.instances == instances && this.volumes == volumes && this.snapshots == snapshots
      ensures this.nextId == nextId && this.clock == clock && this.host == host && trace == []
    {
      this.instances := instances;
      this.volumes := volumes;
      this.snapshots := snapshots;
      this.nextId := nextId;
      this.clock := clock;
      this.host := host;
      trace := [];
    }

    /** The collection an `ec2.<collection>.all()` lists. */
    function Listing(c: Collection): seq<Resource>
      reads this
    {
      match c
      case Instances => instances
      case Volumes => volumes
      case Snapshots => snapshots
    }

    // ----- provider requests -----

    /**
     * create_instances with the given block device mappings, waited on until
     * running. Client-side parameter validation rejects a SnapshotId of None
     * before any request is made; the provider refuses a device named twice
     * and a snapshot it does not know.
     */
    method RunInstances(ms: seq<Mapping>, zone: string) returns (r: Result<Resource, Error>)
      requires Valid()
      modifies this
      ensures Valid()
      ensures HasNoneSnapshotId(ms) ==> r == Err(ProviderError("ParamValidation")) && trace == old(trace)
      ensures !HasNoneSnapshotId(ms) && !DistinctDevices(ms) ==>
        r == Err(ProviderError("InvalidBlockDeviceMapping"))
      ensures !HasNoneSnapshotId(ms) && DistinctDevices(ms) && !SnapshotsKnown(ms, old(snapshots)) ==>
        r == Err(ProviderError("InvalidSnapshot.NotFound"))
      ensures r.Ok? <==> !HasNoneSnapshotId(ms) && DistinctDevices(ms) && SnapshotsKnown(ms, old(snapshots))
      ensures r.Err? ==> TablesUnchanged()
      ensures r.Ok? ==> r.value == Instance(old(nextId), None, zone, true, LaunchedDevices(ms, old(nextId) + 1))
      ensures r.Ok? ==> instances == old(instances) + [r.value] && nextId == old(nextId) + 1 + |ms|
      ensures r.Ok? ==> volumes == old(volumes) + LaunchedVolumes(ms, old(nextId) + 1, old(nextId), zone, old(snapshots))
      ensures snapshots == old(snapshots) && clock == old(clock) && host == old(host)
      ensures !HasNoneSnapshotId(ms) ==> trace == old(trace) + [LaunchRequested(ms)]
    {
      if exists m :: m in ms && m.ebs.snapshotId == Some(None) {
        return Err(ProviderError("ParamValidation"));
      }
      trace := trace + [LaunchRequested(ms)];
      if !DistinctDevices(ms) {
        return Err(ProviderError("InvalidBlockDeviceMapping"));
      }
      if !SnapshotsKnown(ms, snapshots) {
        return Err(ProviderError("InvalidSnapshot.NotFound"));
      }
      var iid := nextId;
      var inst := Instance(iid, None, zone, true, LaunchedDevices(ms, iid + 1));
      var added := LaunchedVolumes(ms, iid + 1, iid, zone, snapshots);
      LaunchKeepsVolumes(volumes, ms, iid, zone, snapshots);
      instances := instances + [inst];
      volumes := volumes + added;
      nextId := iid + 1 + |ms|;
      r := Ok(inst);
    }

    /** create_volume(SnapshotId, AvailabilityZone): a new, untagged, unattached volume. */
    method CreateVolume(snap: Resource, zone: string) returns (v: Resource)
      requires Valid() && snap.Snapshot?
      modifies this
      ensures Valid()
      ensures v == Volume(old(nextId), None, zone, [], Some(snap.id), snap.formatted)
      ensures volumes == old(volumes) + [v] && nextId == old(nextId) + 1
      ensures instances == old(instances) && snapshots == old(snapshots) && clock == old(clock)
      ensures host == old(host) && trace == old(trace) + [VolumeCreated(v.id, snap.id)]
    {
      v := Volume(nextId, None, zone, [], Some(snap.id), snap.formatted);
      WidenVolumes(volumes, nextId, nextId + 1);
      AppendVolume(volumes, v, nextId + 1);
      volumes := volumes + [v];
      nextId := nextId + 1;
      trace := trace + [VolumeCreated(v.id, snap.id)];
    }

    /** res.create_tags(Tags=[{Key, Value}]) on the resource `id` of collection `c`. */
    method CreateTags(c: Collection, id: Id, key: string, value: string)
      requires Valid()
      modifies this
      ensures Valid()
      ensures instances == if c == Instances then Retagged(old(instances), id, key, value) else old(instances)
      ensures volumes == if c == Volumes then Retagged(old(volumes), id, key, value) else old(volumes)
      ensures snapshots == if c == Snapshots then Retagged(old(snapshots), id, key, value) else old(snapshots)
      ensures nextId == old(nextId) && clock == old(clock) && host == old(host)
      ensures trace == old(trace) + [TagsCreated(id, key, value)]
    {
      match c {
        case Instances => instances := Retagged(instances, id, key, value);
        case Volumes =>
          var vs := Retagged(volumes, id, key, value);
          NarrowKeepsVolumes(volumes, vs, nextId);
          volumes := vs;
        case Snapshots => snapshots := Retagged(snapshots, id, key, value);
      }
      trace := trace + [TagsCreated(id, key, value)];
    }

    /**
     * instance.attach_volume(VolumeId, Device) for an available volume. The
     * provider refuses a stopped or terminated instance, a volume of another
     * availability zone and a device slot already taken on the instance.
     */
    method AttachVolume(vol: Resource, inst: Resource, device: string) returns (r: Result<(), Error>)
      requires Valid() && vol in volumes && vol.attachments == [] && inst in instances
      modifies this
      ensures Valid()
      ensures !inst.running ==> r == Err(ProviderError("IncorrectState"))
      ensures inst.running && vol.zone != inst.zone ==> r == Err(ProviderError("InvalidVolume.ZoneMismatch"))
      ensures (inst.running && vol.zone == inst.zone &&
               exists w :: w in old(volumes) && HoldsSlot(w, inst.id, device)) ==>
              r == Err(ProviderError("InvalidParameterValue"))
      ensures r.Ok? <==> (inst.running && vol.zone == inst.zone &&
                          !exists w :: w in old(volumes) && HoldsSlot(w, inst.id, device))
      ensures volumes == if r.Ok? then Reattached(old(volumes), vol.id, [Attachment(inst.id, device, false)])
                         else old(volumes)
      ensures instances == old(instances) && snapshots == old(snapshots)
      ensures nextId == old(nextId) && clock == old(clock) && host == old(host)
      ensures trace == old(trace) + [AttachRequested(vol.id, inst.id, device)]
    {
      trace := trace + [AttachRequested(vol.id, inst.id, device)];
      if !inst.running {
        return Err(ProviderError("IncorrectState"));
      }
      if vol.zone != inst.zone {
        return Err(ProviderError("InvalidVolume.ZoneMismatch"));
      }
      if exists w :: w in volumes && HoldsSlot(w, inst.id, device) {
        return Err(ProviderError("InvalidParameterValue"));
      }
      var att := Attachment(inst.id, device, false);
      var k :| 0 <= k < |volumes| && volumes[k] == vol;
      assert inst.id < nextId;
      AttachKeepsVolumes(volumes, k, att, nextId);
      volumes := Reattached(volumes, vol.id, [att]);
      r := Ok(());
    }

    /** volume.detach_from_instance(InstanceId, Force=True), waited on until available. */
    method DetachFromInstance(vol: Resource, iid: Id)
      requires Valid() && vol in volumes
      modifies this
      ensures Valid()
      ensures volumes == Reattached(old(volumes), vol.id, AttachmentsWithout(vol.attachments, iid))
      ensures instances == old(instances) && snapshots == old(snapshots)
      ensures nextId == old(nextId) && clock == old(clock) && host == old(host)
      ensures trace == old(trace) + [DetachRequested(vol.id, iid)]
    {
      var vs := Reattached(volumes, vol.id, AttachmentsWithout(vol.attachments, iid));
      forall i | 0 <= i < |vs| ensures forall a :: a in vs[i].attachments ==> a in volumes[i].attachments {
        if volumes[i].id == vol.id {
          assert volumes[i] == vol by {
            var k :| 0 <= k < |volumes| && volumes[k] == vol;
          }
        }
      }
      NarrowKeepsVolumes(volumes, vs, nextId);
      volumes := vs;
      trace := trace + [DetachRequested(vol.id, iid)];
    }

    /** create_snapshot(VolumeId), waited on until completed: an untagged snapshot, started now. */
    method CreateSnapshot(vol: Resource) returns (s: Resource)
      requires Valid() && vol in volumes
      modifies this
      ensures Valid()
      ensures s == Snapshot(old(nextId), None, old(clock), vol.id, vol.formatted)
      ensures snapshots == old(snapshots) + [s]
      ensures nextId == old(nextId) + 1 && clock == old(clock) + 1
      ensures instances == old(instances) && volumes == old(volumes) && host == old(host)
      ensures trace == old(trace) + [SnapshotStarted(s.id, vol.id)]
    {
      s := Snapshot(nextId, None, clock, vol.id, vol.formatted);
      WidenVolumes(volumes, nextId, nextId + 1);
      snapshots := snapshots + [s];
      nextId := nextId + 1;
      clock := clock + 1;
      trace := trace + [SnapshotStarted(s.id, vol.id)];
    }

    /** volume.delete(): the provider refuses a volume that is still attached. */
    method DeleteVolume(vol: Resource) returns (r: Result<(), Error>)
      requires Valid() && vol in volumes
      modifies this
      ensures Valid()
      ensures r.Ok? <==> vol.attachments == []
      ensures r.Err? ==> r.error == ProviderError("VolumeInUse")
      ensures volumes == if r.Ok? then RemoveId(old(volumes), vol.id) else old(volumes)
      ensures instances == old(instances) && snapshots == old(snapshots)
      ensures nextId == old(nextId) && clock == old(clock) && host == old(host)
      ensures trace == old(trace) + [DeleteRequested(vol.id)]
    {
      trace := trace + [DeleteRequested(vol.id)];
      if vol.attachments != [] {
        return Err(ProviderError("VolumeInUse"));
      }
      RemoveKeepsVolumes(volumes, vol.id, nextId);
      volumes := RemoveId(volumes, vol.id);
      r := Ok(());
    }

    /**
     * instance.terminate(): the instance stops running. The call returns
     * while it shuts down, so its volumes may still be attached;
     * `released` says whether the provider has already let them go.
     */
    method TerminateInstance(inst: Resource, released: bool)
      requires Valid() && inst in instances
      modifies this
      ensures Valid()
      ensures instances == Stopped(old(instances), inst.id)
      ensures volumes == AfterTermination(old(volumes), inst.id, released)
      ensures snapshots == old(snapshots) && nextId == old(nextId) && clock == old(clock)
      ensures host == old(host) && trace == old(trace) + [InstanceTerminated(inst.id)]
    {
      ReleaseKeepsVolumes(volumes, inst.id, nextId);
      instances := Stopped(instances, inst.id);
      if released {
        volumes := ReleaseFrom(volumes, inst.id);
      }
      trace := trace + [InstanceTerminated(inst.id)];
    }

    // ----- remote commands -----

    /** An ordinary remote command that always succeeds and changes nothing the model tracks. */
    method Run(command: string)
      requires Valid()
      modifies this
      ensures Valid() && TablesUnchanged() && host == old(host)
      ensures trace == old(trace) + [Ran(command)]
    {
      trace := trace + [Ran(command)];
    }

    /** blkid /dev/xvdf: succeeds iff a filesystem is there. */
    method Blkid() returns (ok: bool)
      requires Valid()
      modifies this
      ensures Valid() && TablesUnchanged() && host == old(host)
      ensures ok == old(DeviceFormatted())
      ensures trace == old(trace) + [Ran(BlkidCmd)]
    {
      ok := DeviceFormatted();
      trace := trace + [Ran(BlkidCmd)];
    }

    /** mkfs -t ext4 /dev/xvdf: succeeds iff the device is there, and formats it. */
    method Mkfs() returns (ok: bool)
      requires Valid()
      modifies this
      ensures Valid()
      ensures ok == old(DevicePresent())
      ensures volumes == if ok then FormattedAt(old(volumes), old(host).target, Device) else old(volumes)
      ensures instances == old(instances) && snapshots == old(snapshots)
      ensures nextId == old(nextId) && clock == old(clock) && host == old(host)
      ensures trace == old(trace) + [Ran(MkfsCmd)]
    {
      ok := DevicePresent();
      if ok {
        var vs := FormattedAt(volumes, host.target, Device);
        NarrowKeepsVolumes(volumes, vs, nextId);
        volumes := vs;
      }
      trace := trace + [Ran(MkfsCmd)];
    }

    /** mount /dev/xvdf /v1: needs a filesystem on the device and /v1 not yet mounted. */
    method MountDevice() returns (ok: bool)
      requires Valid()
      modifies this
      ensures Valid() && TablesUnchanged()
      ensures ok == (old(DeviceFormatted()) && !old(host).mounted)
      ensures host == if ok then old(host).(mounted := true) else old(host)
      ensures trace == old(trace) + [Ran(MountCmd)]
    {
      ok := DeviceFormatted() && !host.mounted;
      if ok {
        host := host.(mounted := true);
      }
      trace := trace + [Ran(MountCmd)];
    }

    /** chown -R user:user /v1. */
    method Chown(user: string)
      requires Valid()
      modifies this
      ensures Valid() && TablesUnchanged()
      ensures host == old(host).(owner := user)
      ensures trace == old(trace) + [Ran(ChownCmd(user))]
    {
      host := host.(owner := user);
      trace := trace + [Ran(ChownCmd(user))];
    }

    /** umount /v1: fails when nothing is mounted or a process still holds /v1. */
    method Umount() returns (ok: bool)
      requires Valid()
      modifies this
      ensures Valid() && TablesUnchanged()
      ensures ok == (old(host).mounted && !old(host).busy && !DockerHoldsDrive(old(host)))
      ensures host == if ok then old(host).(mounted := false) else old(host)
      ensures trace == old(trace) + [Ran(UmountCmd)]
    {
      ok := host.mounted && !host.busy && !DockerHoldsDrive(host);
      if ok {
        host := host.(mounted := false);
      }
      trace := trace + [Ran(UmountCmd)];
    }

    /**
     * fuser -km /v1: kills every process using the filesystem /v1 lies on
     * and succeeds iff it found one. With a filesystem mounted there, those
     * are what holds it, docker when its graph is under /v1; with nothing
     * mounted, the root filesystem's users, docker always among them. It
     * unmounts nothing.
     */
    method Fuser() returns (ok: bool)
      requires Valid()
      modifies this
      ensures Valid() && TablesUnchanged()
      ensures ok == (!old(host).mounted || old(host).busy || DockerHoldsDrive(old(host)))
      ensures host == AfterFuser(old(host))
      ensures host.mounted == old(host).mounted && !host.busy && !DockerHoldsDrive(host)
      ensures !old(host).mounted ==> !host.dockerRunning
      ensures old(host).mounted && !DockerHoldsDrive(old(host)) ==> host.dockerRunning == old(host).dockerRunning
      ensures trace == old(trace) + [Ran(FuserCmd)]
    {
      ok := !host.mounted || host.busy || DockerHoldsDrive(host);
      host := AfterFuser(host);
      trace := trace + [Ran(FuserCmd)];
    }

    /** fab.get of /etc/docker/daemon.json, and its "graph" entry. */
    method ReadDockerGraph() returns (r: Result<string, Error>)
      requires Valid()
      modifies this
      ensures Valid() && TablesUnchanged() && host == old(host)
      ensures r == if host.graph.Some? then Ok(host.graph.value) else Err(CommandFailed("get " + DaemonConfig))
      ensures trace == old(trace) + [FileFetched(DaemonConfig)]
    {
      r := if host.graph.Some? then Ok(host.graph.value) else Err(CommandFailed("get " + DaemonConfig));
      trace := trace + [FileFetched(DaemonConfig)];
    }

    /** apps.stop_docker(): stops every container and the daemon; never fails. */
    method StopDocker()
      requires Valid()
      modifies this
      ensures Valid() && TablesUnchanged()
      ensures host == old(host).(dockerRunning := false)
      ensures trace == old(trace) + [DockerStopped]
    {
      host := host.(dockerRunning := false);
      trace := trace + [DockerStopped];
    }

    /**
     * apps.install_docker(): yum install, usermod and pip. Nothing starts the
     * service, so whether docker runs is as it was.
     */
    method InstallDocker()
      requires Valid()
      modifies this
      ensures Valid() && TablesUnchanged()
      ensures host == old(host)
      ensures trace == old(trace) + [DockerInstalled]
    {
      trace := trace + [DockerInstalled];
    }

    /** apps.set_docker_folder(folder): daemon.json names folder/docker and docker restarts. */
    method SetDockerFolder(folder: string)
      requires Valid()
      modifies this
      ensures Valid() && TablesUnchanged()
      ensures host == old(host).(graph := Some(folder + "/docker"), dockerRunning := true)
      ensures trace == old(trace) + [DockerFolderSet(folder)]
    {
      host := host.(graph := Some(folder + "/docker"), dockerRunning := true);
      trace := trace + [DockerFolderSet(folder)];
    }

    /**
     * fab.env.host_string and fab.env.user now address instance `iid`, a
     * machine already in use. Staying on the addressed machine keeps its
     * state; moving to another finds that machine as `there` describes it.
     */
    method Address(iid: Id, user: string, there: Host)
      requires Valid()
      modifies this
      ensures Valid() && TablesUnchanged() && trace == old(trace)
      ensures host == Moved(old(host), iid, user, there)
      ensures host.target == iid && host.user == user
      ensures iid == old(host).target ==> host == old(host).(user := user)
      ensures iid != old(host).target ==>
        host.mounted == there.mounted && host.owner == there.owner && host.graph == there.graph &&
        host.dockerRunning == there.dockerRunning
    {
      host := Moved(host, iid, user, there);
    }

    /**
     * The remote channel addresses instance `iid`, just launched from an
     * image: nothing is mounted, daemon.json is not written, and docker runs
     * iff the image ships it.
     */
    method AddressNew(iid: Id, user: string, imageHasDocker: bool)
      requires Valid()
      modifies this
      ensures Valid() && TablesUnchanged() && trace == old(trace)
      ensures host == Host(iid, user, false, false, "", None, imageHasDocker)
    {
      host := Host(iid, user, false, false, "", None, imageHasDocker);
    }
  }

  // ----- the volume table invariant under each update -----

  lemma WidenVolumes(vs: seq<Resource>, bound: Id, bound': Id)
    requires ValidVolumes(vs, bound) && bound <= bound'
    ensures ValidVolumes(vs, bound')
  {
    forall i | 0 <= i < |vs| ensures WellFormedVolume(vs[i], bound') {
      assert WellFormedVolume(vs[i], bound);
    }
  }

  /** A fresh, unattached volume can join the table. */
  lemma AppendVolume(vs: seq<Resource>, v: Resource, bound: Id)
    requires ValidVolumes(vs, bound) && WellFormedVolume(v, bound) && v.attachments == []
    requires forall i :: 0 <= i < |vs| ==> vs[i].id != v.id
    ensures ValidVolumes(vs + [v], bound)
  {
    assert SlotsOf(v) == {};
    var ws := vs + [v];
    forall i | 0 <= i < |ws| ensures WellFormedVolume(ws[i], bound) {
      if i < |vs| { assert ws[i] == vs[i]; }
    }
  }

  lemma SlotsShrink(v: Resource, w: Resource)
    requires v.Volume? && w.Volume?
    requires forall a :: a in w.attachments ==> a in v.attachments
    ensures SlotsOf(w) <= SlotsOf(v)
  {
    forall s | s in SlotsOf(w) ensures s in SlotsOf(v) {
      var a :| a in w.attachments && s == (a.instanceId, a.device);
    }
  }

  /**
   * An update that keeps every volume's id and only drops attachments keeps
   * the invariant (create_tags, mkfs, detach).
   */
  lemma NarrowKeepsVolumes(vs: seq<Resource>, ws: seq<Resource>, bound: Id)
    requires ValidVolumes(vs, bound) && |ws| == |vs|
    requires forall i :: 0 <= i < |vs| ==>
      ws[i].Volume? && ws[i].id == vs[i].id && |ws[i].attachments| <= |vs[i].attachments|
    requires forall i :: 0 <= i < |vs| ==> forall a :: a in ws[i].attachments ==> a in vs[i].attachments
    ensures ValidVolumes(ws, bound)
  {
    forall i | 0 <= i < |vs| ensures SlotsOf(ws[i]) <= SlotsOf(vs[i]) && WellFormedVolume(ws[i], bound) {
      assert WellFormedVolume(vs[i], bound);
      SlotsShrink(vs[i], ws[i]);
    }
  }

  /** Attaching the unattached volume at index k to a free slot keeps the invariant. */
  lemma AttachKeepsVolumes(vs: seq<Resource>, k: int, att: Attachment, bound: Id)
    requires ValidVolumes(vs, bound) && 0 <= k < |vs| && vs[k].attachments == []
    requires att.instanceId < bound
    requires forall w :: w in vs ==> !HoldsSlot(w, att.instanceId, att.device)
    ensures Reattached(vs, vs[k].id, [att]) == vs[k := vs[k].(attachments := [att])]
    ensures ValidVolumes(Reattached(vs, vs[k].id, [att]), bound)
  {
    var ws := vs[k := vs[k].(attachments := [att])];
    assert SlotsOf(ws[k]) == {(att.instanceId, att.device)};
    forall i | 0 <= i < |vs| && i != k ensures SlotsOf(ws[k]) !! SlotsOf(vs[i]) {
      assert vs[i] in vs;
    }
    assert WellFormedVolume(vs[k], bound);
    assert WellFormedVolume(ws[k], bound);
  }

  /** The invariant holds for [v] + ws when v is distinct from every entry of ws. */
  lemma ConsKeepsVolumes(v: Resource, ws: seq<Resource>, bound: Id)
    requires WellFormedVolume(v, bound) && ValidVolumes(ws, bound)
    requires forall k :: 0 <= k < |ws| ==> ws[k].id != v.id && SlotsOf(ws[k]) !! SlotsOf(v)
    ensures ValidVolumes([v] + ws, bound)
  {
    var r := [v] + ws;
    forall i | 0 <= i < |r| ensures WellFormedVolume(r[i], bound) {
      if i > 0 { assert r[i] == ws[i - 1]; }
    }
    forall i, j | 0 <= i < |r| && 0 <= j < |r| && i != j
      ensures r[i].id != r[j].id && SlotsOf(r[i]) !! SlotsOf(r[j])
    {
      if i > 0 { assert r[i] == ws[i - 1]; }
      if j > 0 { assert r[j] == ws[j - 1]; }
    }
  }

  lemma TailKeepsVolumes(vs: seq<Resource>, bound: Id)
    requires ValidVolumes(vs, bound) && vs != []
    ensures ValidVolumes(vs[1..], bound)
    ensures forall w :: w in vs[1..] ==> w.id != vs[0].id && SlotsOf(w) !! SlotsOf(vs[0])
  {
    var rest := vs[1..];
    assert forall i :: 0 <= i < |rest| ==> rest[i] == vs[i + 1];
    forall w | w in rest ensures w.id != vs[0].id && SlotsOf(w) !! SlotsOf(vs[0]) {
      var m :| 0 <= m < |rest| && rest[m] == w;
      assert vs[m + 1] == w;
    }
  }

  lemma {:induction false} RemoveKeepsVolumes(vs: seq<Resource>, id: Id, bound: Id)
    requires ValidVolumes(vs, bound)
    ensures ValidVolumes(RemoveId(vs, id), bound)
  {
    if vs != [] {
      TailKeepsVolumes(vs, bound);
      RemoveKeepsVolumes(vs[1..], id, bound);
      if vs[0].id != id {
        var rr := RemoveId(vs[1..], id);
        forall k | 0 <= k < |rr| ensures rr[k].id != vs[0].id && SlotsOf(rr[k]) !! SlotsOf(vs[0]) {
          assert rr[k] in rr;
        }
        ConsKeepsVolumes(vs[0], rr, bound);
      }
    }
  }

  lemma {:induction false} ReleaseKeepsVolumes(vs: seq<Resource>, iid: Id, bound: Id)
    requires ValidVolumes(vs, bound)
    ensures ValidVolumes(ReleaseFrom(vs, iid), bound)
  {
    if vs != [] {
      TailKeepsVolumes(vs, bound);
      ReleaseKeepsVolumes(vs[1..], iid, bound);
      if !DeletedWith(vs[0], iid) {
        var v := Released(vs[0], iid);
        var rr := ReleaseFrom(vs[1..], iid);
        forall k | 0 <= k < |rr| ensures rr[k].id != v.id && SlotsOf(rr[k]) !! SlotsOf(v) {
          assert rr[k] in rr;
          var w :| w in vs[1..] && !DeletedWith(w, iid) && rr[k] == Released(w, iid);
        }
        assert WellFormedVolume(vs[0], bound);
        ConsKeepsVolumes(v, rr, bound);
      }
    }
  }

  /** The volumes a launch creates can join the table. */
  lemma LaunchKeepsVolumes(vs: seq<Resource>, ms: seq<Mapping>, iid: Id, zone: string, snaps: seq<Resource>)
    requires ValidVolumes(vs, iid) && DistinctDevices(ms)
    ensures ValidVolumes(vs + LaunchedVolumes(ms, iid + 1, iid, zone, snaps), iid + 1 + |ms|)
  {
    var bound := iid + 1 + |ms|;
    LaunchedValid(ms, iid, zone, snaps);
    WidenVolumes(vs, iid, bound);
    JoinValid(vs, LaunchedVolumes(ms, iid + 1, iid, zone, snaps), iid, bound);
  }

  /** The volumes of one launch form a valid table of their own, all above the old counter. */
  lemma LaunchedValid(ms: seq<Mapping>, iid: Id, zone: string, snaps: seq<Resource>)
    requires DistinctDevices(ms)
    ensures var added := LaunchedVolumes(ms, iid + 1, iid, zone, snaps);
      ValidVolumes(added, iid + 1 + |ms|) && forall k :: 0 <= k < |added| ==> Above(added[k], iid)
  {
    var bound := iid + 1 + |ms|;
    var added := LaunchedVolumes(ms, iid + 1, iid, zone, snaps);
    LaunchedVolumeAt(ms, iid + 1, iid, zone, snaps);
    DeviceNameAt(ms);
    forall k | 0 <= k < |added| ensures SlotsOf(added[k]) == {(iid, ms[k].deviceName)} {
    }
    forall k | 0 <= k < |added| ensures WellFormedVolume(added[k], bound) && Above(added[k], iid) {
    }
    forall i, j | 0 <= i < |added| && 0 <= j < |added| && i != j ensures Apart(added[i], added[j]) {
    }
  }

  /** A volume whose id and slots are all at or above `iid`. */
  ghost predicate Above(v: Resource, iid: Id) {
    v.id >= iid && forall s :: s in SlotsOf(v) ==> s.0 >= iid
  }

  /** Two valid tables, one below `iid` and one above it, join into a valid table. */
  lemma JoinValid(vs: seq<Resource>, added: seq<Resource>, iid: Id, bound: Id)
    requires ValidVolumes(vs, bound) && ValidVolumes(added, bound)
    requires forall i :: 0 <= i < |vs| ==> WellFormedVolume(vs[i], iid)
    requires forall k :: 0 <= k < |added| ==> Above(added[k], iid)
    ensures ValidVolumes(vs + added, bound)
  {
    var r := vs + added;
    forall i | 0 <= i < |r| ensures WellFormedVolume(r[i], bound) {
      if i < |vs| { assert r[i] == vs[i]; } else { assert r[i] == added[i - |vs|]; }
    }
    forall i, j | 0 <= i < |r| && 0 <= j < |r| && i != j ensures Apart(r[i], r[j]) {
      if i < |vs| && j < |vs| {
        assert r[i] == vs[i] && r[j] == vs[j];
      } else if i >= |vs| && j >= |vs| {
        assert r[i] == added[i - |vs|] && r[j] == added[j - |vs|];
      } else {
        var (a, b) := if i < |vs| then (vs[i], added[j - |vs|]) else (vs[j], added[i - |vs|]);
        assert r[i] == a || r[i] == b;
        assert WellFormedVolume(a, iid) && Above(b, iid);
        assert forall s :: s in SlotsOf(a) ==> s.0 < iid;
      }
    }
  }
}
