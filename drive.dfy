/**
 * xdrive/drive.py: a persistent drive for spot instances. The drive keeps
 * no state but its name; between sessions it lives as snapshots carrying
 * that name, and while in use as the one volume carrying it, attached at
 * /dev/xvdf and mounted at /v1.
 */
module XDrive {
  import opened Wrappers
  import opened Tags
  import opened Cloud
  import opened Directory
  import opened Lifecycle

  const DefaultUser: string := "ec2-user"

  /** A volume with an attachment. */
  predicate Attached(v: Resource) {
    v.Volume? && v.attachments != []
  }

  /** The one line attach and detach add to the trace when the volume was attached. */
  function DetachSteps(v: Resource): seq<Action> {
    if Attached(v) then [DetachRequested(v.id, v.attachments[0].instanceId)] else []
  }

  /** The commands unmount issues on a host: umount, then fuser -km when umount fails. */
  function UnmountSteps(h: Host): seq<Action> {
    [Ran(UmountCmd)] + if h.mounted && !h.busy && !DockerHoldsDrive(h) then [] else [Ran(FuserCmd)]
  }

  /** The host record once unmount has run. */
  function AfterUnmount(h: Host): Host {
    if h.mounted && !h.busy && !DockerHoldsDrive(h) then h.(mounted := false) else AfterFuser(h)
  }

  /** The snapshot create_snapshot adds for the drive `name` of volume `v`. */
  function SnapshotFor(id: Id, time: int, v: Resource, name: string): Resource {
    Snapshot(id, WithTag(None, NameKey, name), time, v.id, v.Volume? && v.formatted)
  }

  /** The host once docker is stopped when its graph lives under /v1. */
  function DockerStoppedFor(h: Host): Host {
    if h.graph.Some? && StartsWith(h.graph.value, MountPoint) then h.(dockerRunning := false) else h
  }

  /** The docker stop disconnect issues, when its graph lives under /v1. */
  function DockerSteps(h: Host): seq<Action> {
    if h.graph.Some? && StartsWith(h.graph.value, MountPoint) then [DockerStopped] else []
  }

  /** The provider calls create_snapshot adds for volume `v`, when `save`. */
  function SnapshotSteps(v: Resource, save: bool, id: Id, name: string): seq<Action> {
    if save then [SnapshotStarted(id, v.id), TagsCreated(id, NameKey, name)] else []
  }

  /** Everything disconnect issues for the drive's volume `v`, in order. */
  function DisconnectSteps(h: Host, v: Resource, save: bool, id: Id, name: string): seq<Action> {
    [FileFetched(DaemonConfig)] + DockerSteps(h) + UnmountSteps(DockerStoppedFor(h)) + DetachSteps(v) +
    SnapshotSteps(v, save, id, name) + [DeleteRequested(v.id)]
  }

  /** The commands formatdisk issues on a present device: blkid, then mkfs unless formatted. */
  function FormatSteps(formatted: bool): seq<Action> {
    if formatted then [Ran(BlkidCmd)] else [Ran(BlkidCmd), Ran(MkfsCmd)]
  }

  /** The host record once /v1 is unmounted and nothing holds it. */
  function Unmounted(h: Host): Host {
    if h.mounted then h.(mounted := false, busy := false, dockerRunning := h.dockerRunning && !DockerHoldsDrive(h))
    else h
  }

  /** The commands the corrected unmount issues: fuser and a second umount only when /v1 is mounted but held. */
  function RetrySteps(h: Host): seq<Action> {
    if !h.mounted || (!h.busy && !DockerHoldsDrive(h)) then [Ran(UmountCmd)]
    else [Ran(UmountCmd), Ran(FuserCmd), Ran(UmountCmd)]
  }

  class Drive {
    const name: string

    constructor (name: string)
      ensures this.name == name
    {
      this.name := name;
    }

    /**
     * connect: attach (as ec2-user), format when blank, mount. On success the
     * drive's one volume is attached to the instance, carries a filesystem and
     * is mounted at /v1, owned by ec2-user.
     */
    method Connect(w: World, instance: InstanceArg, there: Host) returns (r: Result<(), Error>)
      requires w.Valid()
      requires instance.Given? ==> instance.inst in w.instances
      modifies w
      ensures w.Valid()
      ensures w.instances == old(w.instances) && w.snapshots == old(w.snapshots) && w.clock == old(w.clock)
      ensures Resolve(old(w.instances), instance).Err? ==>
        r == Err(Resolve(old(w.instances), instance).error) &&
        w.TablesUnchanged() && w.host == old(w.host) && w.trace == old(w.trace)
      ensures r.Ok? ==>
        var inst := Resolve(old(w.instances), instance).value;
        DriveAttachedTo(w.volumes, name, inst) && w.host.target == inst.id && w.DeviceFormatted() &&
        w.host.mounted && w.host.owner == DefaultUser && !Moved(old(w.host), inst.id, DefaultUser, there).mounted
      ensures Resolve(old(w.instances), instance).Ok? ==>
        ConnectedAs(r, old(w.volumes), w.volumes, old(w.snapshots), old(w.nextId), w.nextId, old(w.trace), w.trace,
                    old(w.host), w.host, Resolve(old(w.instances), instance).value, name, DefaultUser, there)
      ensures AtMostOneNamed(old(w.volumes), name) ==> AtMostOneNamed(w.volumes, name)
    {
      ghost var vs0, ss, n0, t0, h0 := w.volumes, w.snapshots, w.nextId, w.trace, w.host;
      r := Attach(w, instance, DefaultUser, there);
      if r.Err? {
        return;
      }
      ghost var inst := Resolve(old(w.instances), instance).value;
      ghost var vs, ta := w.volumes, w.trace;
      assert w.DeviceFormatted() == SlotFormatted(vs, inst.id);
      r := FormatAndMount(w);
      AtMostOneIffLookupUnique(vs, name);
      FormattedAtKeeps(vs, inst.id, Device, name, inst);
      ConnectedFrom(r, vs0, vs, w.volumes, ss, n0, w.nextId, t0, ta, w.trace, h0, w.host, inst, name, DefaultUser, there);
    }


    /**
     * The rest of connect once the device is attached: formatdisk, which
     * cannot fail on a present device, then mount.
     */
    method FormatAndMount(w: World) returns (r: Result<(), Error>)
      requires w.Valid() && w.DevicePresent()
      modifies w
      ensures w.Valid()
      ensures w.instances == old(w.instances) && w.snapshots == old(w.snapshots)
      ensures w.nextId == old(w.nextId) && w.clock == old(w.clock) && w.DeviceFormatted()
      ensures w.volumes == if old(w.DeviceFormatted()) then old(w.volumes)
                           else FormattedAt(old(w.volumes), old(w.host).target, Device)
      ensures r.Ok? <==> !old(w.host).mounted
      ensures r.Ok? ==> w.host == old(w.host).(mounted := true, owner := old(w.host).user)
      ensures r.Ok? ==> w.trace == old(w.trace) + FormatSteps(old(w.DeviceFormatted())) +
                                   [Ran(MkdirCmd), Ran(MountCmd), Ran(ChownCmd(old(w.host).user))]
      ensures r.Err? ==> r == Err(CommandFailed(MountCmd)) && w.host == old(w.host)
      ensures r.Err? ==> w.trace == old(w.trace) + FormatSteps(old(w.DeviceFormatted())) + [Ran(MkdirCmd), Ran(MountCmd)]
      ensures MountedAfterAttach(r, old(w.volumes), w.volumes, old(w.trace), w.trace, old(w.host), w.host,
                                 old(w.host).target, old(w.host).user)
    {
      r := FormatDisk(w);
      assert r.Ok?;
      r := Mount(w);
    }

    /**
     * disconnect: stop docker when its graph lives under /v1, unmount,
     * detach, snapshot when `save`, delete the volume. A crash at any step
     * leaves the earlier steps done. On success no volume carries the name
     * and the drive has one more snapshot exactly when `save`.
     */
    method Disconnect(w: World, save: bool) returns (r: Result<(), Error>)
      requires w.Valid()
      modifies w
      ensures w.Valid()
      ensures w.instances == old(w.instances)
      ensures old(w.host).graph.None? ==>
        r == Err(CommandFailed("get " + DaemonConfig)) && w.TablesUnchanged() && w.host == old(w.host) &&
        w.trace == old(w.trace) + [FileFetched(DaemonConfig)]
      ensures old(w.host).graph.Some? ==> w.host == AfterUnmount(DockerStoppedFor(old(w.host)))
      ensures old(w.host).graph.Some? && |old(Matching(w.volumes, Some(name)))| >= 2 ==>
        r == Err(MoreThanOne(old(Matching(w.volumes, Some(name))))) && w.volumes == old(w.volumes) &&
        w.snapshots == old(w.snapshots)
      ensures old(w.host).graph.Some? && old(Matching(w.volumes, Some(name))) == [] ==>
        r == Err(VolumeMissing(name)) && w.volumes == old(w.volumes) && w.snapshots == old(w.snapshots)
      ensures old(w.host).graph.Some? && |old(Matching(w.volumes, Some(name)))| == 1 ==>
        var v := old(Matching(w.volumes, Some(name)))[0];
        var saved := if save then [SnapshotFor(old(w.nextId), old(w.clock), v, name)] else [];
        r.Ok? &&
        Matching(w.volumes, Some(name)) == [] && w.volumes == RemoveId(old(w.volumes), v.id) &&
        w.snapshots == old(w.snapshots) + saved &&
        Matching(w.snapshots, Some(name)) == old(Matching(w.snapshots, Some(name))) + saved &&
        w.trace == old(w.trace) + DisconnectSteps(old(w.host), v, save, old(w.nextId), name)
    {
      ghost var vs := w.volumes;
      ghost var n0 := w.nextId;
      ghost var t0 := w.trace;
      var graph := w.ReadDockerGraph();
      if graph.Err? {
        return Err(graph.error);
      }
      if StartsWith(graph.value, MountPoint) {
        w.StopDocker();
      }
      ghost var t1 := w.trace;
      assert t1 == t0 + [FileFetched(DaemonConfig)] + DockerSteps(old(w.host));
      assert w.host == DockerStoppedFor(old(w.host));
      Unmount(w);
      ghost var t2 := w.trace;
      assert t2 == t1 + UnmountSteps(DockerStoppedFor(old(w.host)));
      r := Release(w, save);
      if r.Err? {
        return;
      }
      ghost var v := Matching(vs, Some(name))[0];
      ConcatSix(t0, [FileFetched(DaemonConfig)], DockerSteps(old(w.host)), UnmountSteps(DockerStoppedFor(old(w.host))),
                DetachSteps(v), SnapshotSteps(v, save, n0, name), [DeleteRequested(v.id)]);
    }

    /**
     * The last three steps of disconnect: detach, snapshot when `save`,
     * delete. The drive's one volume is gone and, when saved, a snapshot
     * carrying the drive's name is the newest of the table.
     */
    method Release(w: World, save: bool) returns (r: Result<(), Error>)
      requires w.Valid()
      modifies w
      ensures w.Valid()
      ensures w.instances == old(w.instances) && w.host == old(w.host)
      ensures |old(Matching(w.volumes, Some(name)))| >= 2 ==>
        r == Err(MoreThanOne(old(Matching(w.volumes, Some(name))))) && w.volumes == old(w.volumes) &&
        w.snapshots == old(w.snapshots)
      ensures old(Matching(w.volumes, Some(name))) == [] ==>
        r == Err(VolumeMissing(name)) && w.volumes == old(w.volumes) && w.snapshots == old(w.snapshots)
      ensures |old(Matching(w.volumes, Some(name)))| == 1 ==>
        var v := old(Matching(w.volumes, Some(name)))[0];
        var saved := if save then [SnapshotFor(old(w.nextId), old(w.clock), v, name)] else [];
        r.Ok? &&
        Matching(w.volumes, Some(name)) == [] && w.volumes == RemoveId(old(w.volumes), v.id) &&
        w.snapshots == old(w.snapshots) + saved &&
        Matching(w.snapshots, Some(name)) == old(Matching(w.snapshots, Some(name))) + saved &&
        w.trace == old(w.trace) + DetachSteps(v) + SnapshotSteps(v, save, old(w.nextId), name) + [DeleteRequested(v.id)]
    {
      ghost var vs := w.volumes;
      ghost var n0 := w.nextId;
      r := Detach(w);
      if r.Err? {
        return;
      }
      ghost var v := Matching(vs, Some(name))[0];
      ghost var t3 := w.trace;
      if save {
        r := CreateSnapshot(w);
      }
      ghost var t4 := w.trace;
      assert t4 == t3 + SnapshotSteps(v, save, n0, name);
      r := DeleteVolume(w);
      RemoveReattached(vs, v.id);
    }

    /**
     * latest_snapshot: an error while a volume carries the drive's name;
     * otherwise the newest snapshot carrying it (the first of the newest when
     * several share a start time), or None.
     */
    method LatestSnapshot(w: World) returns (r: Result<Option<Resource>, Error>)
      requires w.Valid()
      ensures |Matching(w.volumes, Some(name))| >= 2 ==> r == Err(MoreThanOne(Matching(w.volumes, Some(name))))
      ensures |Matching(w.volumes, Some(name))| == 1 ==> r == Err(VolumeExists)
      ensures Matching(w.volumes, Some(name)) == [] ==> r == Ok(LatestNamed(w.snapshots, name))
      ensures r == Ok(None) ==> forall s :: s in w.snapshots ==> NameOf(s) != name
      ensures r.Ok? && r.value.Some? ==>
        r.value.value in w.snapshots && r.value.value.Snapshot? && NameOf(r.value.value) == name &&
        forall s :: s in w.snapshots && NameOf(s) == name ==> s.startTime <= r.value.value.startTime
    {
      var volume := LookupIn(w, Volumes, name);
      match volume {
        case Err(e) => return Err(e);
        case Ok(Some(_)) => return Err(VolumeExists);
        case Ok(None) =>
      }
      var snapshots := LookupAllIn(w, Snapshots, name);
      var ns := snapshots.value;
      assert ns == NamedSnapshots(w.snapshots, name);
      if ns != [] {
        var i := LatestIndex(ns);
        forall s | s in w.snapshots && NameOf(s) == name ensures s.startTime <= ns[i].startTime {
          assert s in ns;
        }
        return Ok(Some(ns[i]));
      }
      return Ok(None);
    }

    /**
     * detach: an error when no volume carries the name; a detach request only
     * when the volume is attached; afterwards the volume has no attachment.
     */
    method Detach(w: World) returns (r: Result<(), Error>)
      requires w.Valid()
      modifies w
      ensures w.Valid()
      ensures w.instances == old(w.instances) && w.snapshots == old(w.snapshots)
      ensures w.nextId == old(w.nextId) && w.clock == old(w.clock) && w.host == old(w.host)
      ensures |old(Matching(w.volumes, Some(name)))| >= 2 ==>
        r == Err(MoreThanOne(old(Matching(w.volumes, Some(name))))) && w.TablesUnchanged() && w.trace == old(w.trace)
      ensures old(Matching(w.volumes, Some(name))) == [] ==>
        r == Err(VolumeMissing(name)) && w.TablesUnchanged() && w.trace == old(w.trace)
      ensures |old(Matching(w.volumes, Some(name)))| == 1 ==>
        var v := old(Matching(w.volumes, Some(name)))[0];
        r.Ok? && v.Volume? &&
        w.volumes == Reattached(old(w.volumes), v.id, []) &&
        Matching(w.volumes, Some(name)) == [v.(attachments := [])] &&
        w.trace == old(w.trace) + DetachSteps(v)
    {
      ghost var vs := w.volumes;
      var volume := LookupIn(w, Volumes, name);
      match volume {
        case Err(e) => return Err(e);
        case Ok(None) => return Err(VolumeMissing(name));
        case Ok(Some(v)) =>
          SoleMatch(vs, name);
          var k := IndexOf(vs, v);
          assert WellFormedVolume(vs[k], w.nextId);
          if v.attachments != [] {
            var iid := v.attachments[0].instanceId;
            assert AttachmentsWithout(v.attachments, iid) == [];
            w.DetachFromInstance(v, iid);
          } else {
            ReattachedUnattached(vs, k);
          }
          ReattachedSole(vs, k, [], name);
          r := Ok(());
      }
    }

    /** create_snapshot: a snapshot of the drive's volume, named like the drive. */
    method CreateSnapshot(w: World) returns (r: Result<(), Error>)
      requires w.Valid()
      modifies w
      ensures w.Valid()
      ensures w.instances == old(w.instances) && w.volumes == old(w.volumes) && w.host == old(w.host)
      ensures |old(Matching(w.volumes, Some(name)))| >= 2 ==>
        r == Err(MoreThanOne(old(Matching(w.volumes, Some(name))))) && w.TablesUnchanged() && w.trace == old(w.trace)
      ensures old(Matching(w.volumes, Some(name))) == [] ==>
        r == Err(AttributeError("id")) && w.TablesUnchanged() && w.trace == old(w.trace)
      ensures |old(Matching(w.volumes, Some(name)))| == 1 ==>
        var v := old(Matching(w.volumes, Some(name)))[0];
        var s := SnapshotFor(old(w.nextId), old(w.clock), v, name);
        r.Ok? && v.Volume? && NameOf(s) == name &&
        w.snapshots == old(w.snapshots) + [s] &&
        Matching(w.snapshots, Some(name)) == old(Matching(w.snapshots, Some(name))) + [s] &&
        w.nextId == old(w.nextId) + 1 && w.clock == old(w.clock) + 1 &&
        w.trace == old(w.trace) + [SnapshotStarted(s.id, v.id), TagsCreated(s.id, NameKey, name)]
    {
      ghost var vs := w.volumes;
      ghost var ss := w.snapshots;
      var volume := LookupIn(w, Volumes, name);
      match volume {
        case Err(e) => return Err(e);
        case Ok(None) => return Err(AttributeError("id"));
        case Ok(Some(v)) =>
          SoleMatch(vs, name);
          SnapshotVolume(w, v);
          r := Ok(());
      }
    }

    /** The snapshot step of create_snapshot, on the volume the lookup found: start it, then name it. */
    method SnapshotVolume(w: World, v: Resource)
      requires w.Valid() && v in w.volumes
      modifies w
      ensures w.Valid()
      ensures w.instances == old(w.instances) && w.volumes == old(w.volumes) && w.host == old(w.host)
      ensures var s := SnapshotFor(old(w.nextId), old(w.clock), v, name);
        v.Volume? && NameOf(s) == name &&
        w.snapshots == old(w.snapshots) + [s] &&
        Matching(w.snapshots, Some(name)) == old(Matching(w.snapshots, Some(name))) + [s] &&
        w.nextId == old(w.nextId) + 1 && w.clock == old(w.clock) + 1 &&
        w.trace == old(w.trace) + [SnapshotStarted(s.id, v.id), TagsCreated(s.id, NameKey, name)]
    {
      ghost var ss := w.snapshots;
      var k := IndexOf(w.volumes, v);
      assert WellFormedVolume(w.volumes[k], w.nextId);
      var snap := w.CreateSnapshot(v);
      SnapshotNamed(ss, snap, name);
      SetName(w, snap, name);
      assert Tagged(snap, NameKey, name) == SnapshotFor(snap.id, snap.startTime, v, name);
    }

    /** delete_volume: deletes the drive's volume; snapshots stay as they are. */
    method DeleteVolume(w: World) returns (r: Result<(), Error>)
      requires w.Valid()
      modifies w
      ensures w.Valid()
      ensures w.instances == old(w.instances) && w.snapshots == old(w.snapshots)
      ensures w.nextId == old(w.nextId) && w.clock == old(w.clock) && w.host == old(w.host)
      ensures |old(Matching(w.volumes, Some(name)))| >= 2 ==>
        r == Err(MoreThanOne(old(Matching(w.volumes, Some(name))))) && w.TablesUnchanged() && w.trace == old(w.trace)
      ensures old(Matching(w.volumes, Some(name))) == [] ==>
        r == Err(AttributeError("delete")) && w.TablesUnchanged() && w.trace == old(w.trace)
      ensures |old(Matching(w.volumes, Some(name)))| == 1 ==>
        var v := old(Matching(w.volumes, Some(name)))[0];
        w.trace == old(w.trace) + [DeleteRequested(v.id)] &&
        (Attached(v) ==> r == Err(ProviderError("VolumeInUse")) && w.volumes == old(w.volumes)) &&
        (!Attached(v) ==> r.Ok? && w.volumes == RemoveId(old(w.volumes), v.id) &&
                                 Matching(w.volumes, Some(name)) == [])
    {
      ghost var vs := w.volumes;
      var volume := LookupIn(w, Volumes, name);
      match volume {
        case Err(e) => return Err(e);
        case Ok(None) => return Err(AttributeError("delete"));
        case Ok(Some(v)) =>
          SoleMatch(vs, name);
          var d := w.DeleteVolume(v);
          if d.Err? {
            return Err(d.error);
          }
          RemoveSoleNamed(vs, v, name);
          r := Ok(());
      }
    }

    /**
     * formatdisk: nothing to do when blkid finds a filesystem; otherwise mkfs,
     * which aborts when no device is attached. Afterwards the device carries
     * a filesystem.
     */
    method FormatDisk(w: World) returns (r: Result<(), Error>)
      requires w.Valid()
      modifies w
      ensures w.Valid()
      ensures w.instances == old(w.instances) && w.snapshots == old(w.snapshots)
      ensures w.nextId == old(w.nextId) && w.clock == old(w.clock) && w.host == old(w.host)
      ensures r.Ok? <==> old(w.DevicePresent())
      ensures r.Err? ==> r.error == CommandFailed(MkfsCmd) && w.volumes == old(w.volumes)
      ensures r.Ok? ==> w.DeviceFormatted()
      ensures old(w.DeviceFormatted()) ==> w.volumes == old(w.volumes) && w.trace == old(w.trace) + [Ran(BlkidCmd)]
      ensures !old(w.DeviceFormatted()) ==> w.trace == old(w.trace) + [Ran(BlkidCmd), Ran(MkfsCmd)]
      ensures !old(w.DeviceFormatted()) && old(w.DevicePresent()) ==>
        w.volumes == FormattedAt(old(w.volumes), w.host.target, Device)
    {
      var formatted := w.Blkid();
      if formatted {
        return Ok(());
      }
      var made := w.Mkfs();
      if !made {
        return Err(CommandFailed(MkfsCmd));
      }
      FormattedAtFormats(old(w.volumes), w.host.target, Device);
      r := Ok(());
    }

    /** mount: /v1 is created, the device mounted there (or fabric aborts) and handed to the user. */
    method Mount(w: World) returns (r: Result<(), Error>)
      requires w.Valid()
      modifies w
      ensures w.Valid() && w.TablesUnchanged()
      ensures r.Ok? <==> old(w.DeviceFormatted()) && !old(w.host).mounted
      ensures r.Ok? ==> w.host == old(w.host).(mounted := true, owner := old(w.host).user)
      ensures r.Ok? ==> w.trace == old(w.trace) + [Ran(MkdirCmd), Ran(MountCmd), Ran(ChownCmd(old(w.host).user))]
      ensures r.Err? ==> r.error == CommandFailed(MountCmd) && w.host == old(w.host)
      ensures r.Err? ==> w.trace == old(w.trace) + [Ran(MkdirCmd), Ran(MountCmd)]
    {
      w.Run(MkdirCmd);
      var mounted := w.MountDevice();
      if !mounted {
        return Err(CommandFailed(MountCmd));
      }
      w.Chown(w.host.user);
      r := Ok(());
    }

    /**
     * The restore branch of attach: with no volume carrying the name, a new
     * volume from the latest snapshot carrying it, in `zone`, named like the
     * drive; an error when there is no such snapshot.
     */
    method Restore(w: World, zone: string) returns (r: Result<Resource, Error>)
      requires w.Valid() && Matching(w.volumes, Some(name)) == []
      modifies w
      ensures w.Valid()
      ensures w.instances == old(w.instances) && w.snapshots == old(w.snapshots)
      ensures w.clock == old(w.clock) && w.host == old(w.host)
      ensures LatestNamed(old(w.snapshots), name).None? ==>
        r == Err(NoVolumeOrSnapshot(name)) && w.TablesUnchanged() && w.trace == old(w.trace)
      ensures LatestNamed(old(w.snapshots), name).Some? ==>
        var s := LatestNamed(old(w.snapshots), name).value;
        var v := RestoredVolume(old(w.nextId), s, zone, name);
        r == Ok(v) && w.volumes == old(w.volumes) + [v] && w.nextId == old(w.nextId) + 1 &&
        Matching(w.volumes, Some(name)) == [v] &&
        w.trace == old(w.trace) + [VolumeCreated(v.id, s.id), TagsCreated(v.id, NameKey, name)]
    {
      var snapshot := LatestSnapshot(w);
      // latest_snapshot raises only while a volume carries the name, which restore rules out
      assert snapshot.Ok?;
      if snapshot.value.None? {
        return Err(NoVolumeOrSnapshot(name));
      }
      var s := snapshot.value.value;
      var v := RestoreFrom(w, s, zone);
      r := Ok(v);
    }

    /** The restoring step of restore: a volume from snapshot `s`, named after the drive. */
    method RestoreFrom(w: World, s: Resource, zone: string) returns (v: Resource)
      requires w.Valid() && Matching(w.volumes, Some(name)) == [] && s.Snapshot?
      modifies w
      ensures w.Valid()
      ensures w.instances == old(w.instances) && w.snapshots == old(w.snapshots)
      ensures w.clock == old(w.clock) && w.host == old(w.host)
      ensures v == RestoredVolume(old(w.nextId), s, zone, name)
      ensures w.volumes == old(w.volumes) + [v] && w.nextId == old(w.nextId) + 1
      ensures Matching(w.volumes, Some(name)) == [v]
      ensures w.trace == old(w.trace) + [VolumeCreated(v.id, s.id), TagsCreated(v.id, NameKey, name)]
    {
      ghost var vs := w.volumes;
      var u := w.CreateVolume(s, zone);
      assert forall i :: 0 <= i < |vs| ==> vs[i].id < u.id;
      NameFreshEntry(vs, u, name);
      SetName(w, u, name);
      assert Tagged(u, NameKey, name) == RestoredVolume(u.id, s, zone, name);
      v := RestoredVolume(u.id, s, zone, name);
    }

    /**
     * attach: the drive's volume, or one restored from its latest snapshot,
     * attached to the instance at /dev/xvdf. An existing volume must be in the
     * instance's availability zone; one still attached elsewhere is detached
     * first.
     */
    method Attach(w: World, instance: InstanceArg, user: string, there: Host) returns (r: Result<(), Error>)
      requires w.Valid()
      requires instance.Given? ==> instance.inst in w.instances
      modifies w
      ensures w.Valid()
      ensures w.instances == old(w.instances) && w.snapshots == old(w.snapshots) && w.clock == old(w.clock)
      ensures Resolve(old(w.instances), instance).Err? ==>
        r == Err(Resolve(old(w.instances), instance).error) &&
        w.TablesUnchanged() && w.host == old(w.host) && w.trace == old(w.trace)
      ensures Resolve(old(w.instances), instance).Ok? ==>
        w.host == Moved(old(w.host), Resolve(old(w.instances), instance).value.id, user, there)
      ensures Resolve(old(w.instances), instance).Ok? ==>
        AttachedAs(r, old(w.volumes), w.volumes, old(w.snapshots), old(w.nextId), w.nextId,
                   old(w.trace), w.trace, Resolve(old(w.instances), instance).value, name)
      ensures r.Ok? ==> DriveAttachedTo(w.volumes, name, Resolve(old(w.instances), instance).value)
      ensures r.Ok? ==> w.host.target == Resolve(old(w.instances), instance).value.id && w.DevicePresent()
      ensures AtMostOneNamed(old(w.volumes), name) ==> AtMostOneNamed(w.volumes, name)
    {
      var resolved := ResolveIn(w, instance);
      if resolved.Err? {
        return Err(resolved.error);
      }
      var inst := resolved.value;
      ResolvedIsListed(w.instances, instance);
      w.Address(inst.id, user, there);
      ghost var vs, ss, n0, t0 := w.volumes, w.snapshots, w.nextId, w.trace;
      r := AttachTo(w, inst);
      assert AttachedAs(r, vs, w.volumes, ss, n0, w.nextId, t0, w.trace, inst, name);
    }

    /** attach once the instance is known and addressed. */
    method AttachTo(w: World, inst: Resource) returns (r: Result<(), Error>)
      requires w.Valid() && inst in w.instances && w.host.target == inst.id
      modifies w
      ensures w.Valid()
      ensures w.instances == old(w.instances) && w.snapshots == old(w.snapshots) && w.clock == old(w.clock)
      ensures w.host == old(w.host)
      ensures AttachedAs(r, old(w.volumes), w.volumes, old(w.snapshots), old(w.nextId), w.nextId,
                         old(w.trace), w.trace, inst, name)
      ensures r.Ok? ==> DriveAttachedTo(w.volumes, name, inst) && w.DevicePresent()
      ensures AtMostOneNamed(old(w.volumes), name) ==> AtMostOneNamed(w.volumes, name)
    {
      ghost var vs, ss, n0, t0 := w.volumes, w.snapshots, w.nextId, w.trace;
      var volume := LookupIn(w, Volumes, name);
      match volume {
        case Err(e) =>
          r := Err(e);
          assert AttachedAs(r, vs, w.volumes, ss, n0, w.nextId, t0, w.trace, inst, name);
        case Ok(Some(x)) =>
          if ZoneOf(x) != ZoneOf(inst) {
            r := Err(ZoneMismatch);
            assert AttachedAs(r, vs, w.volumes, ss, n0, w.nextId, t0, w.trace, inst, name);
            return;
          }
          SoleMatch(vs, name);
          r := AttachNamed(w, inst, x);
          assert AttachedAs(r, vs, w.volumes, ss, n0, w.nextId, t0, w.trace, inst, name);
        case Ok(None) =>
          r := AttachRestored(w, inst);
          assert AttachedAs(r, vs, w.volumes, ss, n0, w.nextId, t0, w.trace, inst, name);
      }
    }

    /** attach when no volume carries the name: restore one, then attach it. */
    method AttachRestored(w: World, inst: Resource) returns (r: Result<(), Error>)
      requires w.Valid() && inst in w.instances && w.host.target == inst.id
      requires Matching(w.volumes, Some(name)) == []
      modifies w
      ensures w.Valid()
      ensures w.instances == old(w.instances) && w.snapshots == old(w.snapshots) && w.clock == old(w.clock)
      ensures w.host == old(w.host)
      ensures RestoredAs(r, old(w.volumes), w.volumes, old(w.snapshots), old(w.nextId), w.nextId,
                         old(w.trace), w.trace, inst, name)
      ensures r.Ok? ==> DriveAttachedTo(w.volumes, name, inst) && w.DevicePresent()
      ensures AtMostOneNamed(w.volumes, name)
    {
      ghost var vs, ss, n0, t0 := w.volumes, w.snapshots, w.nextId, w.trace;
      NoneNamedAtMostOne(vs, name);
      var restored := Restore(w, ZoneOf(inst));
      if restored.Err? {
        r := Err(restored.error);
        assert RestoredAs(r, vs, w.volumes, ss, n0, w.nextId, t0, w.trace, inst, name);
        return;
      }
      var v := restored.value;
      ghost var s := LatestNamed(ss, name).value;
      assert v == RestoredVolume(n0, s, ZoneOf(inst), name);
      ghost var t1 := w.trace;
      assert t1 == t0 + [VolumeCreated(v.id, s.id), TagsCreated(v.id, NameKey, name)];
      assert forall i :: 0 <= i < |vs| ==> vs[i].id != v.id;
      AppendedSlots(vs, v, inst.id, Device);
      var att := Attachment(inst.id, Device, false);
      r := AttachNamed(w, inst, v);
      AppendedReattached(vs, v, if r.Ok? then [att] else []);
      assert v.(attachments := []) == v;
      assert w.volumes == vs + [if r.Ok? then v.(attachments := [att]) else v];
      AppendThree(t0, VolumeCreated(v.id, s.id), TagsCreated(v.id, NameKey, name), AttachRequested(v.id, inst.id, Device));
      assert RestoredAs(r, vs, w.volumes, ss, n0, w.nextId, t0, w.trace, inst, name);
    }

    /**
     * The tail of attach: detach the drive's volume when it is attached,
     * then attach it at /dev/xvdf of the instance.
     */
    method AttachNamed(w: World, inst: Resource, v: Resource) returns (r: Result<(), Error>)
      requires w.Valid() && inst in w.instances && w.host.target == inst.id
      requires Matching(w.volumes, Some(name)) == [v] && ZoneOf(v) == ZoneOf(inst)
      modifies w
      ensures w.Valid()
      ensures w.instances == old(w.instances) && w.snapshots == old(w.snapshots) && w.clock == old(w.clock)
      ensures w.host == old(w.host) && w.nextId == old(w.nextId)
      ensures v.Volume?
      ensures r.Ok? <==> Running(inst) && !SlotTakenByOther(old(w.volumes), inst.id, Device, v.id)
      ensures r.Err? ==> r.error == AttachRefused(inst)
      ensures w.volumes == Reattached(old(w.volumes), v.id,
                                      if r.Ok? then [Attachment(inst.id, Device, false)] else [])
      ensures Matching(w.volumes, Some(name)) ==
        [v.(attachments := if r.Ok? then [Attachment(inst.id, Device, false)] else [])]
      ensures AtMostOneNamed(w.volumes, name)
      ensures w.trace == old(w.trace) + DetachSteps(v) + [AttachRequested(v.id, inst.id, Device)]
      ensures r.Ok? ==> w.DevicePresent()
    {
      ghost var vs1 := w.volumes;
      ghost var t1 := w.trace;
      SoleMatch(vs1, name);
      var k := IndexOf(vs1, v);
      assert WellFormedVolume(vs1[k], w.nextId);
      ReattachedSole(vs1, k, [], name);
      var u := v;
      if u.attachments != [] {
        var detached := Detach(w);
        u := u.(attachments := []);
      } else {
        ReattachedUnattached(vs1, k);
      }
      assert w.volumes == Reattached(vs1, v.id, []);
      assert w.trace == t1 + DetachSteps(v);
      assert Matching(w.volumes, Some(name)) == [u];
      assert u in w.volumes by { assert u in Matching(w.volumes, Some(name)); }
      SlotFreeAfterDetach(vs1, k, inst.id, Device);
      var att := Attachment(inst.id, Device, false);
      var attached := w.AttachVolume(u, inst, Device);
      ReattachedTwice(vs1, v.id, [], if attached.Ok? then [att] else []);
      ReattachedSole(vs1, k, if attached.Ok? then [att] else [], name);
      if attached.Err? {
        return Err(attached.error);
      }
      AttachedHolds(w.volumes, name, u.(attachments := [att]));
      r := Ok(());
    }

    /**
     * unmount: umount, and when that fails fuser -km; neither outcome raises.
     * The fallback kills what holds /v1 but leaves /v1 mounted.
     */
    method Unmount(w: World)
      requires w.Valid()
      modifies w
      ensures w.Valid() && w.TablesUnchanged()
      ensures w.host == AfterUnmount(old(w.host))
      ensures w.trace == old(w.trace) + UnmountSteps(old(w.host))
    {
      var clean := w.Umount();
      if !clean {
        var forced := w.Fuser();
      }
    }

    /**
     * formatdisk twice in a row: once the first call succeeds, the second
     * only probes with blkid, so mkfs runs at most once.
     */
    method FormatDiskTwice(w: World) returns (first: Result<(), Error>, second: Result<(), Error>)
      requires w.Valid()
      modifies w
      ensures w.Valid()
      ensures first.Ok? ==>
        second.Ok? && w.DeviceFormatted() &&
        w.trace == old(w.trace) + FormatSteps(old(w.DeviceFormatted())) + [Ran(BlkidCmd)]
    {
      first := FormatDisk(w);
      if first.Err? {
        return first, first;
      }
      ghost var t1 := w.trace;
      assert t1 == old(w.trace) + FormatSteps(old(w.DeviceFormatted()));
      assert w.DevicePresent() by {
        var v :| v in w.volumes && HoldsSlot(v, w.host.target, Device) && v.formatted;
      }
      second := FormatDisk(w);
    }

    /**
     * unmount as its log messages describe it: when umount fails on a
     * mounted /v1, fuser -km frees it and umount runs again, so /v1 always
     * ends up unmounted; with nothing mounted there is nothing to force, and
     * docker keeps running unless it held the drive.
     */
    method UnmountRetry(w: World)
      requires w.Valid()
      modifies w
      ensures w.Valid() && w.TablesUnchanged()
      ensures w.host == Unmounted(old(w.host))
      ensures !w.host.mounted && !w.host.busy && !DockerHoldsDrive(w.host)
      ensures w.host.dockerRunning == (old(w.host).dockerRunning && !DockerHoldsDrive(old(w.host)))
      ensures w.trace == old(w.trace) + RetrySteps(old(w.host))
    {
      var clean := w.Umount();
      if !clean && w.host.mounted {
        var forced := w.Fuser();
        var again := w.Umount();
      }
    }
  }

  /** The volume restore creates for drive `name` from snapshot `s`, in `zone`. */
  function RestoredVolume(id: Id, s: Resource, zone: string, name: string): Resource {
    Volume(id, WithTag(None, NameKey, name), zone, [], Some(s.id), s.Snapshot? && s.formatted)
  }

  /** The provider's refusal of attach_volume for an available volume of the instance's zone. */
  function AttachRefused(inst: Resource): Error {
    if Running(inst) then ProviderError("InvalidParameterValue") else ProviderError("IncorrectState")
  }

  /** A volume other than `id` occupies slot `dev` of instance `iid`. */
  predicate SlotTakenByOther(vs: seq<Resource>, iid: Id, dev: string, id: Id) {
    exists x :: x in vs && x.id != id && HoldsSlot(x, iid, dev)
  }

  /**
   * What attach does once the instance `inst` is known, given the volumes,
   * snapshots, id counter and trace before (`vs`, `ss`, `n0`, `t0`) and after
   * (`vs'`, `n1`, `t1`).
   */
  ghost predicate AttachedAs(r: Result<(), Error>, vs: seq<Resource>, vs': seq<Resource>, ss: seq<Resource>,
                             n0: Id, n1: Id, t0: seq<Action>, t1: seq<Action>, inst: Resource, name: string)
    requires forall k :: 0 <= k < |ss| ==> ss[k].Snapshot?
  {
    var found := Matching(vs, Some(name));
    var att := Attachment(inst.id, Device, false);
    (|found| >= 2 ==> r == Err(MoreThanOne(found)) && vs' == vs && n1 == n0 && t1 == t0) &&
    (|found| == 1 && ZoneOf(found[0]) != ZoneOf(inst) ==> r == Err(ZoneMismatch) && vs' == vs && n1 == n0 && t1 == t0) &&
    (|found| == 1 && ZoneOf(found[0]) == ZoneOf(inst) ==>
       (r.Ok? <==> Running(inst) && !SlotTakenByOther(vs, inst.id, Device, found[0].id)) &&
       (r.Err? ==> r.error == AttachRefused(inst)) &&
       vs' == Reattached(vs, found[0].id, if r.Ok? then [att] else []) && n1 == n0 &&
       t1 == t0 + DetachSteps(found[0]) + [AttachRequested(found[0].id, inst.id, Device)]) &&
    (found == [] ==> RestoredAs(r, vs, vs', ss, n0, n1, t0, t1, inst, name))
  }

  /**
   * The restore branch of attach: with no snapshot carrying the name, an
   * error and nothing changed; otherwise the volume restored from the latest
   * one is appended, then attached when the instance is running and its
   * /dev/xvdf is free.
   */
  ghost predicate RestoredAs(r: Result<(), Error>, vs: seq<Resource>, vs': seq<Resource>, ss: seq<Resource>,
                             n0: Id, n1: Id, t0: seq<Action>, t1: seq<Action>, inst: Resource, name: string)
    requires forall k :: 0 <= k < |ss| ==> ss[k].Snapshot?
  {
    var att := Attachment(inst.id, Device, false);
    (LatestNamed(ss, name).None? ==>
       r == Err(NoVolumeOrSnapshot(name)) && vs' == vs && n1 == n0 && t1 == t0) &&
    (LatestNamed(ss, name).Some? ==>
       var s := LatestNamed(ss, name).value;
       var v := RestoredVolume(n0, s, ZoneOf(inst), name);
       (r.Ok? <==> Running(inst) && !SlotTakenByOther(vs, inst.id, Device, v.id)) &&
       (r.Err? ==> r.error == AttachRefused(inst)) &&
       vs' == vs + [if r.Ok? then v.(attachments := [att]) else v] && n1 == n0 + 1 &&
       t1 == t0 + [VolumeCreated(v.id, s.id), TagsCreated(v.id, NameKey, name), AttachRequested(v.id, inst.id, Device)])
  }

  /** Some volume attached at /dev/xvdf of instance `iid` carries a filesystem. */
  ghost predicate SlotFormatted(vs: seq<Resource>, iid: Id) {
    exists v :: v in vs && HoldsSlot(v, iid, Device) && v.formatted
  }

  /**
   * What formatdisk and mount do on the device attached to instance `iid`,
   * given the volumes, trace and machine before (`vs`, `t0`, `h0`) and after
   * (`vs'`, `t1`, `h1`): mkfs only when the device is blank, then mount,
   * which fails exactly when /v1 is already mounted, and chown to `user`.
   */
  ghost predicate MountedAfterAttach(r: Result<(), Error>, vs: seq<Resource>, vs': seq<Resource>,
                                     t0: seq<Action>, t1: seq<Action>, h0: Host, h1: Host, iid: Id, user: string)
  {
    var formatted := SlotFormatted(vs, iid);
    var tf := t0 + FormatSteps(formatted);
    vs' == (if formatted then vs else FormattedAt(vs, iid, Device)) &&
    (r.Ok? <==> !h0.mounted) &&
    (r.Ok? ==> h1 == h0.(mounted := true, owner := user) &&
               t1 == tf + [Ran(MkdirCmd), Ran(MountCmd), Ran(ChownCmd(user))]) &&
    (r.Err? ==> r == Err(CommandFailed(MountCmd)) && h1 == h0 && t1 == tf + [Ran(MkdirCmd), Ran(MountCmd)])
  }

  /**
   * What connect does once the instance `inst` is known, given the volumes,
   * snapshots, id counter, trace and machine before (`vs`, `ss`, `n0`, `t0`,
   * `h0`) and after (`vs'`, `n1`, `t1`, `h1`): attach as `user`, which moves
   * the channel to `inst` (found as `there` when it is another machine);
   * when attach fails, nothing more. Otherwise formatdisk, which cannot fail
   * on the attached device and runs mkfs only when it is blank, then mount,
   * which fails exactly when /v1 is already mounted on that machine.
   */
  ghost predicate ConnectedAs(r: Result<(), Error>, vs: seq<Resource>, vs': seq<Resource>, ss: seq<Resource>,
                              n0: Id, n1: Id, t0: seq<Action>, t1: seq<Action>, h0: Host, h1: Host,
                              inst: Resource, name: string, user: string, there: Host)
    requires forall k :: 0 <= k < |ss| ==> ss[k].Snapshot?
  {
    var h := Moved(h0, inst.id, user, there);
    exists ra: Result<(), Error>, va: seq<Resource>, ta: seq<Action> ::
      AttachedAs(ra, vs, va, ss, n0, n1, t0, ta, inst, name) &&
      (ra.Err? ==> r == ra && vs' == va && t1 == ta && h1 == h) &&
      (ra.Ok? ==> MountedAfterAttach(r, va, vs', ta, t1, h, h1, inst.id, user))
  }

  /** A successful attach followed by formatdisk and mount is what connect promises. */
  lemma ConnectedFrom(r: Result<(), Error>, vs: seq<Resource>, va: seq<Resource>, vs': seq<Resource>,
                      ss: seq<Resource>, n0: Id, n1: Id, t0: seq<Action>, ta: seq<Action>, t1: seq<Action>,
                      h0: Host, h1: Host, inst: Resource, name: string, user: string, there: Host)
    requires forall k :: 0 <= k < |ss| ==> ss[k].Snapshot?
    requires AttachedAs(Ok(()), vs, va, ss, n0, n1, t0, ta, inst, name)
    requires MountedAfterAttach(r, va, vs', ta, t1, Moved(h0, inst.id, user, there), h1, inst.id, user)
    ensures ConnectedAs(r, vs, vs', ss, n0, n1, t0, t1, h0, h1, inst, name, user, there)
  {
  }

  /**
   * The outcomes of connect: it succeeds exactly when the instance runs, the
   * drive's one volume is in the instance's zone (or, with none, a snapshot
   * carries the name), /dev/xvdf is free for it, and /v1 is free on the
   * machine reached; each refusal of attach is reported as such, with the
   * tables untouched where attach raises before any request.
   */
  lemma ConnectOutcome(r: Result<(), Error>, vs: seq<Resource>, vs': seq<Resource>, ss: seq<Resource>,
                       n0: Id, n1: Id, t0: seq<Action>, t1: seq<Action>, h0: Host, h1: Host,
                       inst: Resource, name: string, user: string, there: Host)
    requires forall k :: 0 <= k < |ss| ==> ss[k].Snapshot?
    requires ConnectedAs(r, vs, vs', ss, n0, n1, t0, t1, h0, h1, inst, name, user, there)
    ensures r.Ok? <==>
      !Moved(h0, inst.id, user, there).mounted && Running(inst) &&
      if |Matching(vs, Some(name))| == 1 then
        ZoneOf(Matching(vs, Some(name))[0]) == ZoneOf(inst) &&
        !SlotTakenByOther(vs, inst.id, Device, Matching(vs, Some(name))[0].id)
      else
        Matching(vs, Some(name)) == [] && LatestNamed(ss, name).Some? && !SlotTakenByOther(vs, inst.id, Device, n0)
    ensures |Matching(vs, Some(name))| >= 2 ==>
      r == Err(MoreThanOne(Matching(vs, Some(name)))) && vs' == vs && n1 == n0 && t1 == t0
    ensures |Matching(vs, Some(name))| == 1 && ZoneOf(Matching(vs, Some(name))[0]) != ZoneOf(inst) ==>
      r == Err(ZoneMismatch) && vs' == vs && n1 == n0 && t1 == t0
    ensures Matching(vs, Some(name)) == [] && LatestNamed(ss, name).None? ==>
      r == Err(NoVolumeOrSnapshot(name)) && vs' == vs && n1 == n0 && t1 == t0
    ensures r.Err? ==>
      r.error in {MoreThanOne(Matching(vs, Some(name))), ZoneMismatch, NoVolumeOrSnapshot(name),
                  AttachRefused(inst), CommandFailed(MountCmd)}
  {
    var ra: Result<(), Error>, va: seq<Resource>, ta: seq<Action> :|
      AttachedAs(ra, vs, va, ss, n0, n1, t0, ta, inst, name) &&
      (ra.Err? ==> r == ra && vs' == va && t1 == ta && h1 == Moved(h0, inst.id, user, there)) &&
      (ra.Ok? ==> MountedAfterAttach(r, va, vs', ta, t1, Moved(h0, inst.id, user, there), h1, inst.id, user));
  }

  /** The only volume named `name` is attached to `inst` at /dev/xvdf, in its zone. */
  ghost predicate DriveAttachedTo(vs: seq<Resource>, name: string, inst: Resource) {
    var found := Matching(vs, Some(name));
    |found| == 1 && found[0].Volume? && found[0].attachments == [Attachment(inst.id, Device, false)] &&
    ZoneOf(found[0]) == ZoneOf(inst)
  }

  /**
   * unmount as written: when a process holds /v1, umount fails, fuser -km
   * kills the holder, and /v1 is still mounted when unmount returns; the
   * corrected unmount leaves it unmounted.
   */
  lemma BusyUnmountStaysMounted(h: Host)
    requires h.mounted && h.busy
    ensures UnmountSteps(h) == [Ran(UmountCmd), Ran(FuserCmd)]
    ensures AfterUnmount(h).mounted && !AfterUnmount(h).busy
    ensures !Unmounted(h).mounted && RetrySteps(h) == UnmountSteps(h) + [Ran(UmountCmd)]
  {
  }

  /**
   * unmount as written, with nothing mounted at /v1: umount fails, so
   * fuser -km runs on the root filesystem and kills docker wherever its
   * graph lives; the corrected unmount issues umount alone and leaves the
   * machine as it was.
   */
  lemma UnmountedFuserStopsDocker(h: Host)
    requires !h.mounted && h.dockerRunning
    ensures UnmountSteps(h) == [Ran(UmountCmd), Ran(FuserCmd)]
    ensures !AfterUnmount(h).mounted && !AfterUnmount(h).dockerRunning
    ensures Unmounted(h) == h && Unmounted(h).dockerRunning && RetrySteps(h) == [Ran(UmountCmd)]
  {
  }

  // ----- helper lemmas -----

  /** Deleting a volume whose attachments were reset leaves what deleting it would. */
  lemma {:induction false} RemoveReattached(vs: seq<Resource>, id: Id)
    ensures RemoveId(Reattached(vs, id, []), id) == RemoveId(vs, id)
  {
    if vs != [] {
      var ws := Reattached(vs, id, []);
      assert ws[1..] == Reattached(vs[1..], id, []);
      RemoveReattached(vs[1..], id);
    }
  }

  /** mkfs changes no name and no attachment, so the drive stays attached where it was. */
  lemma FormattedAtKeeps(vs: seq<Resource>, iid: Id, dev: string, n: string, inst: Resource)
    ensures AtMostOneNamed(FormattedAt(vs, iid, dev), n) <==> AtMostOneNamed(vs, n)
    ensures DriveAttachedTo(vs, n, inst) && AtMostOneNamed(vs, n) ==> DriveAttachedTo(FormattedAt(vs, iid, dev), n, inst)
  {
    var ws := FormattedAt(vs, iid, dev);
    assert forall i :: 0 <= i < |vs| ==> NameOf(ws[i]) == NameOf(vs[i]);
    MatchingSameNames(vs, ws, Some(n));
    AtMostOneSameNames(vs, ws, n);
    if DriveAttachedTo(vs, n, inst) && AtMostOneNamed(vs, n) {
      var v := Matching(vs, Some(n))[0];
      assert v in Matching(vs, Some(n));
      var k := IndexOf(vs, v);
      SoleMatchMoves(vs, ws, k, n);
    }
  }

  lemma ConcatSix(t: seq<Action>, a: seq<Action>, b: seq<Action>, c: seq<Action>,
                  d: seq<Action>, e: seq<Action>, f: seq<Action>)
    ensures t + a + b + c + d + e + f == t + (a + b + c + d + e + f)
  {
  }

  lemma AppendThree(t: seq<Action>, a: Action, b: Action, c: Action)
    ensures t + [a, b] + [] + [c] == t + [a, b, c]
  {
  }

  lemma AttachedHolds(vs: seq<Resource>, name: string, v: Resource)
    requires Matching(vs, Some(name)) == [v] && v.Volume? && v.attachments != []
    ensures v in vs && HoldsSlot(v, v.attachments[0].instanceId, v.attachments[0].device)
  {
    assert v in Matching(vs, Some(name));
    assert (v.attachments[0].instanceId, v.attachments[0].device) in SlotsOf(v);
  }

  lemma ReattachedTwice(vs: seq<Resource>, id: Id, a1: seq<Attachment>, a2: seq<Attachment>)
    ensures Reattached(Reattached(vs, id, a1), id, a2) == Reattached(vs, id, a2)
  {
  }

  /** A fresh volume at the end holds no slot and is the only entry with its id. */
  lemma AppendedSlots(vs: seq<Resource>, v: Resource, iid: Id, dev: string)
    requires v.Volume? && v.attachments == [] && forall i :: 0 <= i < |vs| ==> vs[i].id != v.id
    ensures SlotTakenByOther(vs + [v], iid, dev, v.id) <==> SlotTakenByOther(vs, iid, dev, v.id)
    ensures DetachSteps(v) == []
  {
    if SlotTakenByOther(vs + [v], iid, dev, v.id) {
      var x :| x in vs + [v] && x.id != v.id && HoldsSlot(x, iid, dev);
      assert x in vs;
    }
  }

  lemma AppendedReattached(vs: seq<Resource>, v: Resource, atts: seq<Attachment>)
    requires v.Volume? && forall i :: 0 <= i < |vs| ==> vs[i].id != v.id
    ensures Reattached(vs + [v], v.id, atts) == vs + [v.(attachments := atts)]
  {
    var ws := Reattached(vs + [v], v.id, atts);
    assert forall i :: 0 <= i < |vs| ==> ws[i] == vs[i];
  }

  /** A table with no entry named `n` has at most one. */
  lemma NoneNamedAtMostOne(vs: seq<Resource>, n: string)
    requires Matching(vs, Some(n)) == []
    ensures AtMostOneNamed(vs, n)
  {
    AtMostOneIffLookupUnique(vs, n);
  }

  /** Once volume k has no attachment, the slot is taken iff another volume holds it. */
  lemma SlotFreeAfterDetach(vs: seq<Resource>, k: nat, iid: Id, dev: string)
    requires k < |vs| && vs[k].Volume?
    requires forall i, j :: 0 <= i < |vs| && 0 <= j < |vs| && i != j ==> vs[i].id != vs[j].id
    ensures (exists x :: x in Reattached(vs, vs[k].id, []) && HoldsSlot(x, iid, dev)) <==>
      SlotTakenByOther(vs, iid, dev, vs[k].id)
  {
    var ws := Reattached(vs, vs[k].id, []);
    assert SlotsOf(ws[k]) == {};
    if exists x :: x in ws && HoldsSlot(x, iid, dev) {
      var x :| x in ws && HoldsSlot(x, iid, dev);
      var i :| 0 <= i < |ws| && ws[i] == x;
      assert i != k;
      assert vs[i] == x && vs[i].id != vs[k].id;
    }
    if SlotTakenByOther(vs, iid, dev, vs[k].id) {
      var x :| x in vs && x.id != vs[k].id && HoldsSlot(x, iid, dev);
      var i :| 0 <= i < |vs| && vs[i] == x;
      assert ws[i] == x;
    }
  }

  /** Re-setting the attachments of an unattached volume to none changes nothing. */
  lemma ReattachedUnattached(vs: seq<Resource>, k: nat)
    requires k < |vs| && vs[k].Volume? && vs[k].attachments == []
    requires forall i, j :: 0 <= i < |vs| && 0 <= j < |vs| && i != j ==> vs[i].id != vs[j].id
    ensures Reattached(vs, vs[k].id, []) == vs
  {
    var ws := Reattached(vs, vs[k].id, []);
    forall i | 0 <= i < |vs| ensures ws[i] == vs[i] {
      if i != k { assert vs[i].id != vs[k].id; }
    }
  }

  /** The drive's volume keeps its name, and stays the only one with it, when its attachments change. */
  lemma ReattachedSole(vs: seq<Resource>, k: nat, atts: seq<Attachment>, n: string)
    requires k < |vs| && vs[k].Volume? && NameOf(vs[k]) == n && AtMostOneNamed(vs, n)
    requires forall i, j :: 0 <= i < |vs| && 0 <= j < |vs| && i != j ==> vs[i].id != vs[j].id
    ensures Reattached(vs, vs[k].id, atts)[k] == vs[k].(attachments := atts)
    ensures Matching(Reattached(vs, vs[k].id, atts), Some(n)) == [vs[k].(attachments := atts)]
    ensures AtMostOneNamed(Reattached(vs, vs[k].id, atts), n)
  {
    var ws := Reattached(vs, vs[k].id, atts);
    SoleMatchMoves(vs, ws, k, n);
  }

  /** Naming a snapshot just taken adds exactly it to the snapshots carrying the name. */
  lemma SnapshotNamed(ss: seq<Resource>, s0: Resource, n: string)
    requires forall i :: 0 <= i < |ss| ==> ss[i].id < s0.id
    requires s0.Snapshot? && s0.tags == None
    ensures Retagged(ss + [s0], s0.id, NameKey, n) == ss + [Tagged(s0, NameKey, n)]
    ensures NameOf(Tagged(s0, NameKey, n)) == n
    ensures Matching(Retagged(ss + [s0], s0.id, NameKey, n), Some(n)) ==
      Matching(ss, Some(n)) + [Tagged(s0, NameKey, n)]
  {
    var s1 := Tagged(s0, NameKey, n);
    RetaggedAbsent(ss, s0.id, NameKey, n);
    assert Retagged(ss + [s0], s0.id, NameKey, n) == ss + [s1];
    SetNameThenGetName(None, n);
    MatchingAppend(ss, s1, Some(n));
  }

  /** After mkfs on a present device, blkid finds a filesystem there. */
  lemma FormattedAtFormats(vs: seq<Resource>, iid: Id, dev: string)
    requires exists v :: v in vs && HoldsSlot(v, iid, dev)
    ensures exists v :: v in FormattedAt(vs, iid, dev) && HoldsSlot(v, iid, dev) && v.formatted
  {
    var v :| v in vs && HoldsSlot(v, iid, dev);
    var k :| 0 <= k < |vs| && vs[k] == v;
    var ws := FormattedAt(vs, iid, dev);
    assert ws[k] == WithFilesystem(v);
    assert SlotsOf(ws[k]) == SlotsOf(v);
    assert ws[k] in ws;
  }
}
