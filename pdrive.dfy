/**
 * pdrive.py: the earlier revision of the persistent drive. Its
 * formatdisk, unmount, create_snapshot, delete_volume and latest_snapshot
 * are the same code as the later Drive's and are run through a Drive of
 * the same name, made for the call. It differs in three places: the user comes from the
 * configuration, mount hands /v1 to that user, and detach always detaches
 * from the first attachment, so it fails on a volume that is not attached.
 */
module PDrive {
  import opened Wrappers
  import opened Cloud
  import opened Directory
  import opened Lifecycle
  import opened XDrive

  /** config.py's login user. */
  const User: string := "ec2-user"

  class Pdrive {
    const name: string

    constructor (name: string)
      ensures this.name == name
    {
      this.name := name;
    }

    /**
     * connect: attach as the configured user, format when blank, mount.
     * On success the drive's one volume is attached to the instance,
     * formatted and mounted at /v1, owned by the configured user.
     */
    method Connect(w: World, instance: InstanceArg, there: Host) returns (r: Result<(), Error>)
      requires w.Valid()
      requires instance.Given? ==> instance.inst in w.instances
      modifies w
      ensures w.Valid()
      ensures w.instances == old(w.instances) && w.snapshots == old(w.snapshots) && w.clock == old(w.clock)
      ensures Resolve(old(w.instances), instance).Err? ==>
        r == Err(Resolve(old(w.instances), instance).error) &&
        w.TablesUnchanged() && w.host == old(w.host) && w.trace == old(w.trace)
      ensures r.Ok? ==>
        var inst := Resolve(old(w.instances), instance).value;
        DriveAttachedTo(w.volumes, name, inst) && w.host.target == inst.id && w.DeviceFormatted() &&
        w.host.mounted && w.host.owner == User && !Moved(old(w.host), inst.id, User, there).mounted
      ensures Resolve(old(w.instances), instance).Ok? ==>
        ConnectedAs(r, old(w.volumes), w.volumes, old(w.snapshots), old(w.nextId), w.nextId, old(w.trace), w.trace,
                    old(w.host), w.host, Resolve(old(w.instances), instance).value, name, User, there)
      ensures AtMostOneNamed(old(w.volumes), name) ==> AtMostOneNamed(w.volumes, name)
    {
      ghost var vs0, ss, n0, t0, h0 := w.volumes, w.snapshots, w.nextId, w.trace, w.host;
      r := Attach(w, instance, there);
      if r.Err? {
        return;
      }
      ghost var inst := Resolve(old(w.instances), instance).value;
      ghost var vs, ta := w.volumes, w.trace;
      assert w.DeviceFormatted() == SlotFormatted(vs, inst.id);
      r := FormatAndMount(w);
      AtMostOneIffLookupUnique(vs, name);
      FormattedAtKeeps(vs, inst.id, Device, name, inst);
      ConnectedFrom(r, vs0, vs, w.volumes, ss, n0, w.nextId, t0, ta, w.trace, h0, w.host, inst, name, User, there);
    }


    /** The rest of connect once the device is attached: the later formatdisk, then this mount. */
    method FormatAndMount(w: World) returns (r: Result<(), Error>)
      requires w.Valid() && w.DevicePresent()
      modifies w
      ensures w.Valid()
      ensures w.instances == old(w.instances) && w.snapshots == old(w.snapshots)
      ensures w.nextId == old(w.nextId) && w.clock == old(w.clock) && w.DeviceFormatted()
      ensures w.volumes == if old(w.DeviceFormatted()) then old(w.volumes)
                           else FormattedAt(old(w.volumes), old(w.host).target, Device)
      ensures r.Ok? <==> !old(w.host).mounted
      ensures r.Ok? ==> w.host == old(w.host).(mounted := true, owner := User)
      ensures r.Ok? ==> w.trace == old(w.trace) + FormatSteps(old(w.DeviceFormatted())) +
                                   [Ran(MkdirCmd), Ran(MountCmd), Ran(ChownCmd(User))]
      ensures r.Err? ==> r == Err(CommandFailed(MountCmd)) && w.host == old(w.host)
      ensures r.Err? ==> w.trace == old(w.trace) + FormatSteps(old(w.DeviceFormatted())) + [Ran(MkdirCmd), Ran(MountCmd)]
      ensures MountedAfterAttach(r, old(w.volumes), w.volumes, old(w.trace), w.trace, old(w.host), w.host,
                                 old(w.host).target, User)
    {
      var drive := new Drive(name);
      r := drive.FormatDisk(w);
      assert r.Ok?;
      r := Mount(w);
    }

    /**
     * disconnect: as the later revision's, except that detach fails with an
     * IndexError, after the unmount, when the volume is not attached; then
     * no snapshot is taken and the volume stays.
     */
    method Disconnect(w: World, save: bool) returns (r: Result<(), Error>)
      requires w.Valid()
      modifies w
      ensures w.Valid()
      ensures w.instances == old(w.instances)
      ensures old(w.host).graph.None? ==>
        r == Err(CommandFailed("get " + DaemonConfig)) && w.TablesUnchanged() && w.host == old(w.host) &&
        w.trace == old(w.trace) + [FileFetched(DaemonConfig)]
      ensures old(w.host).graph.Some? ==> w.host == AfterUnmount(DockerStoppedFor(old(w.host)))
      ensures old(w.host).graph.Some? && |old(Matching(w.volumes, Some(name)))| >= 2 ==>
        r == Err(MoreThanOne(old(Matching(w.volumes, Some(name))))) && w.volumes == old(w.volumes) &&
        w.snapshots == old(w.snapshots)
      ensures old(w.host).graph.Some? && old(Matching(w.volumes, Some(name))) == [] ==>
        r == Err(VolumeMissing(name)) && w.volumes == old(w.volumes) && w.snapshots == old(w.snapshots)
      ensures old(w.host).graph.Some? && |old(Matching(w.volumes, Some(name)))| == 1 &&
              !Attached(old(Matching(w.volumes, Some(name)))[0]) ==>
        r == Err(IndexError) && w.volumes == old(w.volumes) && w.snapshots == old(w.snapshots)
      ensures old(w.host).graph.Some? && |old(Matching(w.volumes, Some(name)))| == 1 &&
              Attached(old(Matching(w.volumes, Some(name)))[0]) ==>
        var v := old(Matching(w.volumes, Some(name)))[0];
        var saved := if save then [SnapshotFor(old(w.nextId), old(w.clock), v, name)] else [];
        r.Ok? &&
        Matching(w.volumes, Some(name)) == [] && w.volumes == RemoveId(old(w.volumes), v.id) &&
        w.snapshots == old(w.snapshots) + saved &&
        Matching(w.snapshots, Some(name)) == old(Matching(w.snapshots, Some(name))) + saved &&
        w.trace == old(w.trace) + DisconnectSteps(old(w.host), v, save, old(w.nextId), name)
    {
      ghost var vs := w.volumes;
      ghost var n0 := w.nextId;
      ghost var t0 := w.trace;
      var graph := w.ReadDockerGraph();
      if graph.Err? {
        return Err(graph.error);
      }
      if StartsWith(graph.value, MountPoint) {
        w.StopDocker();
      }
      ghost var t1 := w.trace;
      assert t1 == t0 + [FileFetched(DaemonConfig)] + DockerSteps(old(w.host));
      assert w.host == DockerStoppedFor(old(w.host));
      var drive := new Drive(name);
      drive.Unmount(w);
      ghost var t2 := w.trace;
      assert t2 == t1 + UnmountSteps(DockerStoppedFor(old(w.host)));
      r := Release(w, save);
      if r.Err? {
        return;
      }
      ghost var v := Matching(vs, Some(name))[0];
      ConcatSix(t0, [FileFetched(DaemonConfig)], DockerSteps(old(w.host)), UnmountSteps(DockerStoppedFor(old(w.host))),
                DetachSteps(v), SnapshotSteps(v, save, n0, name), [DeleteRequested(v.id)]);
    }

    /**
     * The last three steps of disconnect: detach, snapshot when `save`,
     * delete. The drive's one volume is gone and, when saved, a snapshot
     * carrying the drive's name is the newest of the table.
     */
    method Release(w: World, save: bool) returns (r: Result<(), Error>)
      requires w.Valid()
      modifies w
      ensures w.Valid()
      ensures w.instances == old(w.instances) && w.host == old(w.host)
      ensures |old(Matching(w.volumes, Some(name)))| >= 2 ==>
        r == Err(MoreThanOne(old(Matching(w.volumes, Some(name))))) && w.volumes == old(w.volumes) &&
        w.snapshots == old(w.snapshots)
      ensures old(Matching(w.volumes, Some(name))) == [] ==>
        r == Err(VolumeMissing(name)) && w.volumes == old(w.volumes) && w.snapshots == old(w.snapshots)
      ensures |old(Matching(w.volumes, Some(name)))| == 1 && !Attached(old(Matching(w.volumes, Some(name)))[0]) ==>
        r == Err(IndexError) && w.volumes == old(w.volumes) && w.snapshots == old(w.snapshots)
      ensures |old(Matching(w.volumes, Some(name)))| == 1 && Attached(old(Matching(w.volumes, Some(name)))[0]) ==>
        var v := old(Matching(w.volumes, Some(name)))[0];
        var saved := if save then [SnapshotFor(old(w.nextId), old(w.clock), v, name)] else [];
        r.Ok? &&
        Matching(w.volumes, Some(name)) == [] && w.volumes == RemoveId(old(w.volumes), v.id) &&
        w.snapshots == old(w.snapshots) + saved &&
        Matching(w.snapshots, Some(name)) == old(Matching(w.snapshots, Some(name))) + saved &&
        w.trace == old(w.trace) + DetachSteps(v) + SnapshotSteps(v, save, old(w.nextId), name) + [DeleteRequested(v.id)]
    {
      ghost var vs := w.volumes;
      ghost var n0 := w.nextId;
      r := Detach(w);
      if r.Err? {
        return;
      }
      var drive := new Drive(name);
      ghost var v := Matching(vs, Some(name))[0];
      ghost var t3 := w.trace;
      if save {
        r := drive.CreateSnapshot(w);
      }
      ghost var t4 := w.trace;
      assert t4 == t3 + SnapshotSteps(v, save, n0, name);
      r := drive.DeleteVolume(w);
      RemoveReattached(vs, v.id);
    }

    /**
     * attach: the later revision's attach, logged in as the configured user.
     * Its own detach runs only on an attached volume, where it does what the
     * later detach does.
     */
    method Attach(w: World, instance: InstanceArg, there: Host) returns (r: Result<(), Error>)
      requires w.Valid()
      requires instance.Given? ==> instance.inst in w.instances
      modifies w
      ensures w.Valid()
      ensures w.instances == old(w.instances) && w.snapshots == old(w.snapshots) && w.clock == old(w.clock)
      ensures Resolve(old(w.instances), instance).Err? ==>
        r == Err(Resolve(old(w.instances), instance).error) &&
        w.TablesUnchanged() && w.host == old(w.host) && w.trace == old(w.trace)
      ensures Resolve(old(w.instances), instance).Ok? ==>
        w.host == Moved(old(w.host), Resolve(old(w.instances), instance).value.id, User, there)
      ensures Resolve(old(w.instances), instance).Ok? ==>
        AttachedAs(r, old(w.volumes), w.volumes, old(w.snapshots), old(w.nextId), w.nextId,
                   old(w.trace), w.trace, Resolve(old(w.instances), instance).value, name)
      ensures r.Ok? ==> DriveAttachedTo(w.volumes, name, Resolve(old(w.instances), instance).value)
      ensures r.Ok? ==> w.host.target == Resolve(old(w.instances), instance).value.id && w.DevicePresent()
      ensures AtMostOneNamed(old(w.volumes), name) ==> AtMostOneNamed(w.volumes, name)
    {
      var drive := new Drive(name);
      r := drive.Attach(w, instance, User, there);
    }

    /** mount: like the later mount, but /v1 goes to the configured user. */
    method Mount(w: World) returns (r: Result<(), Error>)
      requires w.Valid()
      modifies w
      ensures w.Valid() && w.TablesUnchanged()
      ensures r.Ok? <==> old(w.DeviceFormatted()) && !old(w.host).mounted
      ensures r.Ok? ==> w.host == old(w.host).(mounted := true, owner := User)
      ensures r.Ok? ==> w.trace == old(w.trace) + [Ran(MkdirCmd), Ran(MountCmd), Ran(ChownCmd(User))]
      ensures r.Err? ==> r.error == CommandFailed(MountCmd) && w.host == old(w.host)
      ensures r.Err? ==> w.trace == old(w.trace) + [Ran(MkdirCmd), Ran(MountCmd)]
    {
      w.Run(MkdirCmd);
      var mounted := w.MountDevice();
      if !mounted {
        return Err(CommandFailed(MountCmd));
      }
      w.Chown(User);
      r := Ok(());
    }

    /**
     * detach: an error when no volume carries the name, an IndexError when
     * it has no attachment, otherwise a forced detach from its first one.
     */
    method Detach(w: World) returns (r: Result<(), Error>)
      requires w.Valid()
      modifies w
      ensures w.Valid()
      ensures w.instances == old(w.instances) && w.snapshots == old(w.snapshots)
      ensures w.nextId == old(w.nextId) && w.clock == old(w.clock) && w.host == old(w.host)
      ensures |old(Matching(w.volumes, Some(name)))| >= 2 ==>
        r == Err(MoreThanOne(old(Matching(w.volumes, Some(name))))) && w.TablesUnchanged() && w.trace == old(w.trace)
      ensures old(Matching(w.volumes, Some(name))) == [] ==>
        r == Err(VolumeMissing(name)) && w.TablesUnchanged() && w.trace == old(w.trace)
      ensures |old(Matching(w.volumes, Some(name)))| == 1 && !Attached(old(Matching(w.volumes, Some(name)))[0]) ==>
        r == Err(IndexError) && w.TablesUnchanged() && w.trace == old(w.trace)
      ensures |old(Matching(w.volumes, Some(name)))| == 1 && Attached(old(Matching(w.volumes, Some(name)))[0]) ==>
        var v := old(Matching(w.volumes, Some(name)))[0];
        r.Ok? &&
        w.volumes == Reattached(old(w.volumes), v.id, []) &&
        Matching(w.volumes, Some(name)) == [v.(attachments := [])] &&
        w.trace == old(w.trace) + [DetachRequested(v.id, v.attachments[0].instanceId)]
    {
      ghost var vs := w.volumes;
      var volume := LookupIn(w, Volumes, name);
      match volume {
        case Err(e) => return Err(e);
        case Ok(None) => return Err(VolumeMissing(name));
        case Ok(Some(v)) =>
          SoleMatch(vs, name);
          if v.attachments == [] {
            return Err(IndexError);
          }
          var k := IndexOf(vs, v);
          assert WellFormedVolume(vs[k], w.nextId);
          var iid := v.attachments[0].instanceId;
          assert AttachmentsWithout(v.attachments, iid) == [];
          w.DetachFromInstance(v, iid);
          ReattachedSole(vs, k, [], name);
          r := Ok(());
      }
    }
  }
}
