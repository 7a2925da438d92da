/**
 * xdrive/server.py: creating an instance around a drive and terminating it
 * while keeping the drive, and listing the tasks that run in its docker
 * containers. The configuration file gives the login user and, per itype
 * key, an instance type and an AMI.
 */
module XServer {
  import opened Wrappers
  import opened Tags
  import opened Cloud
  import opened Directory
  import opened Lifecycle
  import opened XDrive
  import opened Launch

  /** The entries of config.yaml create reads. */
  datatype Conf = Conf(user: string, itypes: map<string, string>, amis: map<string, string>)

  /** The itype key the spec starts from. */
  const Free: string := "free"

  /** The snapshot a named drive is launched from: the latest carrying its name. */
  function LaunchSnapshot(ss: seq<Resource>, drive: string): Option<Resource>
    requires forall k :: 0 <= k < |ss| ==> ss[k].Snapshot?
  {
    if drive != "" then LatestNamed(ss, drive) else None
  }

  /**
   * Why building the launch spec stops, in the order the code meets it: a
   * missing "free" entry, a missing entry for `itype`, or a drive whose
   * latest snapshot cannot be asked for because a volume carries its name.
   */
  function SpecRefusal(volumes: seq<Resource>, conf: Conf, itype: string, drive: string): Option<Error> {
    var found := Matching(volumes, Some(drive));
    if Free !in conf.amis || Free !in conf.itypes then Some(KeyError(Free))
    else if itype !in conf.itypes || itype !in conf.amis then Some(KeyError(itype))
    else if drive != "" && |found| >= 2 then Some(MoreThanOne(found))
    else if drive != "" && |found| == 1 then Some(VolumeExists)
    else None
  }

  /** Why create stops before launching anything: the name is taken (or ambiguous), or the spec cannot be built. */
  function Refusal(instances: seq<Resource>, volumes: seq<Resource>, conf: Conf, name: string,
                   itype: string, drive: string): Option<Error> {
    match Lookup(instances, name)
    case Err(e) => Some(e)
    case Ok(Some(_)) => Some(InstanceExists(name))
    case Ok(None) => SpecRefusal(volumes, conf, itype, drive)
  }

  /**
   * create never launches a second instance under a name in use: whenever
   * an instance carries `name`, create is refused, by the name check itself.
   */
  lemma TakenNameRefused(instances: seq<Resource>, volumes: seq<Resource>, conf: Conf, name: string,
                         itype: string, drive: string, i: Resource)
    requires i in instances && NameOf(i) == name
    ensures Refusal(instances, volumes, conf, name, itype, drive) == Some(InstanceExists(name)) ||
            Refusal(instances, volumes, conf, name, itype, drive) == Some(MoreThanOne(Matching(instances, Some(name))))
  {
    assert i in Matching(instances, Some(name));
  }

  /** The remote steps of preparing a drive after its volume is named: format when new, mount, docker on /v1. */
  function PrepareSteps(vid: Id, drive: string, blank: bool, formatted: bool, user: string): seq<Action> {
    [TagsCreated(vid, NameKey, drive)] + (if blank then FormatSteps(formatted) else []) +
    [Ran(MkdirCmd), Ran(MountCmd), Ran(ChownCmd(user)), DockerInstalled, DockerFolderSet(MountPoint)]
  }

  /** The drive is formatted exactly when it was launched without a snapshot. */
  lemma FormatOnlyWhenFresh(vid: Id, drive: string, blank: bool, user: string)
    ensures Ran(MkfsCmd) in PrepareSteps(vid, drive, blank, false, user) <==> blank
    ensures Ran(MountCmd) in PrepareSteps(vid, drive, blank, false, user)
  {
    var s := PrepareSteps(vid, drive, blank, false, user);
    if !blank {
      assert s == [TagsCreated(vid, NameKey, drive), Ran(MkdirCmd), Ran(MountCmd), Ran(ChownCmd(user)),
                   DockerInstalled, DockerFolderSet(MountPoint)];
      assert ChownCmd(user) != MkfsCmd by {
        assert ChownCmd(user)[0] == 'c' && MkfsCmd[0] == 'm';
      }
    } else {
      assert s[2] == Ran(MkfsCmd);
    }
  }

  /**
   * The spec create builds: its own dictionary with "free"'s AMI and type,
   * updated to `itype`'s, then a boot mapping when a boot size is given and
   * a drive mapping, restoring the latest snapshot of the drive when it has
   * one, when a drive is named.
   */
  method BuildSpec(w: World, conf: Conf, itype: string, bootsize: Option<int>, drive: string, drivesize: int)
    returns (r: Result<LaunchSpec, Error>, latest: Option<Resource>)
    requires w.Valid()
    ensures SpecRefusal(w.volumes, conf, itype, drive).Some? ==> r == Err(SpecRefusal(w.volumes, conf, itype, drive).value)
    ensures SpecRefusal(w.volumes, conf, itype, drive).None? ==>
      r.Ok? && fresh(r.value) && fresh(r.value.mappings) &&
      r.value.imageId == conf.amis[itype] && r.value.instanceType == conf.itypes[itype] &&
      r.value.minCount == Some(1) && r.value.maxCount == Some(1) &&
      latest == LaunchSnapshot(w.snapshots, drive) &&
      r.value.mappings.items == CreateMappings(bootsize, DriveSize(drive, drivesize), SnapId(latest), OnlyWhenFound)
    ensures latest.Some? ==> latest.value in w.snapshots
  {
    latest := None;
    if Free !in conf.amis || Free !in conf.itypes {
      return Err(KeyError(Free)), None;
    }
    var mappings := new MappingList([]);
    var spec := new LaunchSpec(conf.amis[Free], conf.itypes[Free], mappings);
    if itype !in conf.itypes || itype !in conf.amis {
      return Err(KeyError(itype)), None;
    }
    spec.Update(conf.itypes[itype], conf.amis[itype]);
    if SizeGiven(bootsize) {
      mappings.Append(BootMapping(bootsize.value));
    }
    if drive != "" {
      var d := new Drive(drive);
      var l := d.LatestSnapshot(w);
      if l.Err? {
        return Err(l.error), None;
      }
      latest := l.value;
      mappings.Append(DriveMapping(drivesize, SnapId(latest), OnlyWhenFound));
    }
    r := Ok(spec);
  }

  /**
   * The drive half of create: name the volume, format it when there was
   * no snapshot, mount it, install docker and move its folder to /v1. The
   * mount fails, and with it create, only when the volume was restored
   * from a snapshot without a filesystem.
   */
  method PrepareDrive(w: World, inst: Resource, drive: string, blank: bool) returns (r: Result<(), Error>)
    requires w.Valid() && AwaitsDrive(w, inst, drive)
    modifies w
    ensures w.Valid()
    ensures w.instances == old(w.instances) && w.snapshots == old(w.snapshots)
    ensures w.nextId == old(w.nextId) && w.clock == old(w.clock)
    ensures var v := old(w.volumes)[|old(w.volumes)| - 1];
      (r.Ok? <==> blank || v.formatted) &&
      w.volumes == old(w.volumes)[..|old(w.volumes)| - 1] + [NamedDrive(v, drive, blank)] &&
      DriveAttachedTo(w.volumes, drive, inst) &&
      (r.Ok? ==> w.DeviceFormatted() &&
                 w.trace == old(w.trace) + PrepareSteps(v.id, drive, blank, v.formatted, old(w.host).user)) &&
      (r.Err? ==> r.error == CommandFailed(MountCmd) && w.host == old(w.host) &&
                  w.trace == old(w.trace) + [TagsCreated(v.id, NameKey, drive), Ran(MkdirCmd), Ran(MountCmd)])
    ensures r.Ok? ==>
      w.host == old(w.host).(mounted := true, owner := old(w.host).user, graph := Some(MountPoint + "/docker"),
                             dockerRunning := true)
  {
    ghost var v := w.volumes[|w.volumes| - 1];
    ghost var t0 := w.trace;
    NameAndFormat(w, inst, drive, blank);
    ghost var t1 := w.trace;
    var d := new Drive(drive);
    r := d.Mount(w);
    if r.Err? {
      return;
    }
    ghost var t2 := w.trace;
    w.InstallDocker();
    ghost var t3 := w.trace;
    w.SetDockerFolder(MountPoint);
    PrepareTrace(t0, t1, t2, t3, w.trace, v.id, drive, blank, v.formatted, old(w.host).user);
  }

  lemma PrepareTrace(t0: seq<Action>, t1: seq<Action>, t2: seq<Action>, t3: seq<Action>, t4: seq<Action>,
                     vid: Id, drive: string, blank: bool, formatted: bool, user: string)
    requires t1 == t0 + [TagsCreated(vid, NameKey, drive)] + (if blank then FormatSteps(formatted) else [])
    requires t2 == t1 + [Ran(MkdirCmd), Ran(MountCmd), Ran(ChownCmd(user))]
    requires t3 == t2 + [DockerInstalled] && t4 == t3 + [DockerFolderSet(MountPoint)]
    ensures t4 == t0 + PrepareSteps(vid, drive, blank, formatted, user)
  {
  }

  /**
   * What a create that was not refused leaves, given the tables, id
   * counter and trace before (`ins0`, `vs0`, `ss0`, `n0`, `t0`) and after: the
   * instance launched from mappings `ms`, named `name`, the only instance so
   * named, and then either nothing more (no drive) or the drive prepared:
   * the launch's last volume named (and formatted when there was no
   * snapshot), and either mounted with docker's folder on it, or, when the
   * mount fails, the host left as the launch left it.
   */
  ghost predicate Created(r: Result<Resource, Error>, ins0: seq<Resource>, ins: seq<Resource>,
                          vs0: seq<Resource>, vs: seq<Resource>, ss0: seq<Resource>, ss: seq<Resource>,
                          n0: Id, t0: seq<Action>, t: seq<Action>, h: Host, deviceFormatted: bool,
                          ms: seq<Mapping>, latest: Option<Resource>, drive: string, name: string,
                          user: string, zone: string)
  {
    var inst := NewInstance(n0, ms, zone, name);
    var launched := t0 + [LaunchRequested(ms), TagsCreated(inst.id, NameKey, name)];
    var lv := vs0 + LaunchedVolumes(ms, n0 + 1, n0, zone, ss0);
    ins == ins0 + [inst] && Matching(ins, Some(name)) == [inst] && ss == ss0 &&
    (drive == "" ==>
       r == Ok(inst) && h == Host(inst.id, user, false, false, "", None, false) && vs == lv && t == launched) &&
    (drive != "" ==>
       (r.Ok? <==> latest.None? || RestoredFormatted(SnapId(latest), ss0)) &&
       |lv| > 0 && vs == lv[..|lv| - 1] + [NamedDrive(lv[|lv| - 1], drive, latest.None?)] &&
       DriveAttachedTo(vs, drive, inst)) &&
    (drive != "" && r.Err? ==>
       r.error == CommandFailed(MountCmd) && h == Host(inst.id, user, false, false, "", None, false) &&
       t == launched + [TagsCreated(n0 + |ms|, NameKey, drive), Ran(MkdirCmd), Ran(MountCmd)]) &&
    (drive != "" && r.Ok? ==>
       r == Ok(inst) && deviceFormatted &&
       h == Host(inst.id, user, true, false, user, Some(MountPoint + "/docker"), true) &&
       t == launched + PrepareSteps(n0 + |ms|, drive, latest.None?, false, user))
  }

  /**
   * create(name, itype, bootsize, drive, drivesize, spot). `zone` is the
   * availability zone the provider picks for the launch. A refused create
   * changes nothing. Otherwise the instance is launched with the mappings
   * the arguments call for, named `name` (the only instance so named), and
   * when a drive is named its volume ends as the only one carrying the
   * drive's name, attached to the instance, formatted only when there was
   * no snapshot, mounted at /v1 and holding docker's folder.
   */
  method Create(w: World, conf: Conf, name: string, itype: string, bootsize: Option<int>, drive: string,
                drivesize: int, spot: bool, zone: string) returns (r: Result<Resource, Error>)
    requires w.Valid()
    modifies w
    ensures w.Valid()
    ensures Refusal(old(w.instances), old(w.volumes), conf, name, itype, drive).Some? ==>
      r == Err(Refusal(old(w.instances), old(w.volumes), conf, name, itype, drive).value) &&
      w.TablesUnchanged() && w.host == old(w.host) && w.trace == old(w.trace)
    ensures Refusal(old(w.instances), old(w.volumes), conf, name, itype, drive).None? ==>
      var latest := LaunchSnapshot(old(w.snapshots), drive);
      Created(r, old(w.instances), w.instances, old(w.volumes), w.volumes, old(w.snapshots), w.snapshots,
              old(w.nextId), old(w.trace), w.trace, w.host, w.DeviceFormatted(),
              CreateMappings(bootsize, DriveSize(drive, drivesize), SnapId(latest), OnlyWhenFound),
              latest, drive, name, conf.user, zone)
  {
    ghost var ss0 := w.snapshots;
    var taken := LookupIn(w, Instances, name);
    if taken.Err? {
      return Err(taken.error);
    }
    if taken.value.Some? {
      return Err(InstanceExists(name));
    }
    var spec, latest := BuildSpec(w, conf, itype, bootsize, drive, drivesize);
    if spec.Err? {
      return Err(spec.error);
    }
    CreateMappingsShape(bootsize, DriveSize(drive, drivesize), SnapId(latest), OnlyWhenFound);
    CreateMappingsKnown(bootsize, DriveSize(drive, drivesize), latest, OnlyWhenFound, ss0);
    r := LaunchWithDrive(w, spec.value, bootsize, drive, drivesize, latest, spot, zone, name, conf.user);
  }

  /** The rest of create once the spec is built: launch, name, and prepare the drive when there is one. */
  method LaunchWithDrive(w: World, spec: LaunchSpec, bootsize: Option<int>, drive: string, drivesize: int,
                         latest: Option<Resource>, spot: bool, zone: string, name: string, user: string)
    returns (r: Result<Resource, Error>)
    requires w.Valid() && Matching(w.instances, Some(name)) == []
    requires spec.minCount.Some? && spec.maxCount.Some?
    requires spec.mappings.items == CreateMappings(bootsize, DriveSize(drive, drivesize), SnapId(latest), OnlyWhenFound)
    requires SnapshotsKnown(spec.mappings.items, w.snapshots) && DistinctDevices(spec.mappings.items)
    requires !HasNoneSnapshotId(spec.mappings.items)
    requires drive != "" ==> Matching(w.volumes, Some(drive)) == []
    modifies w, spec
    ensures w.Valid()
    ensures Created(r, old(w.instances), w.instances, old(w.volumes), w.volumes, old(w.snapshots), w.snapshots,
                    old(w.nextId), old(w.trace), w.trace, w.host, w.DeviceFormatted(),
                    CreateMappings(bootsize, DriveSize(drive, drivesize), SnapId(latest), OnlyWhenFound),
                    latest, drive, name, user, zone)
  {
    if drive == "" {
      r := LaunchAndName(w, spec, spot, zone, name, user);
    } else {
      r := LaunchDrive(w, spec, bootsize, drive, drivesize, latest, spot, zone, name, user);
    }
  }

  /** LaunchWithDrive when a drive is named. */
  method LaunchDrive(w: World, spec: LaunchSpec, bootsize: Option<int>, drive: string, drivesize: int,
                     latest: Option<Resource>, spot: bool, zone: string, name: string, user: string)
    returns (r: Result<Resource, Error>)
    requires w.Valid() && Matching(w.instances, Some(name)) == [] && drive != ""
    requires spec.minCount.Some? && spec.maxCount.Some?
    requires spec.mappings.items == CreateMappings(bootsize, Some(drivesize), SnapId(latest), OnlyWhenFound)
    requires SnapshotsKnown(spec.mappings.items, w.snapshots) && DistinctDevices(spec.mappings.items)
    requires !HasNoneSnapshotId(spec.mappings.items)
    requires Matching(w.volumes, Some(drive)) == []
    modifies w, spec
    ensures w.Valid()
    ensures Created(r, old(w.instances), w.instances, old(w.volumes), w.volumes, old(w.snapshots), w.snapshots,
                    old(w.nextId), old(w.trace), w.trace, w.host, w.DeviceFormatted(),
                    CreateMappings(bootsize, Some(drivesize), SnapId(latest), OnlyWhenFound),
                    latest, drive, name, user, zone)
  {
    ghost var ins0, vs0, ss0, n0, t0 := w.instances, w.volumes, w.snapshots, w.nextId, w.trace;
    ghost var ms := spec.mappings.items;
    var launched := LaunchAndName(w, spec, spot, zone, name, user);
    var inst := launched.value;
    ghost var boot := if SizeGiven(bootsize) then [BootMapping(bootsize.value)] else [];
    assert ms == boot + [DriveMapping(drivesize, SnapId(latest), OnlyWhenFound)];
    assert FirstAt(LaunchedDevices(ms, n0 + 1), Device) == Some(n0 + 1 + |boot|) by {
      LaunchedDriveDevice(boot, DriveMapping(drivesize, SnapId(latest), OnlyWhenFound), n0 + 1);
    }
    LaunchLeavesDriveWaiting(w.volumes, w.host, inst, name, drive, vs0, boot, drivesize, SnapId(latest), OnlyWhenFound, n0, zone, ss0);
    r := DriveLaunched(w, inst, latest, zone, name, drive, user, ms, ins0, vs0, ss0, n0, t0);
  }

  /** The part of LaunchDrive after the instance is up and named: prepare the volume it brought. */
  method DriveLaunched(w: World, inst: Resource, latest: Option<Resource>, zone: string,
                       name: string, drive: string, user: string, ghost ms: seq<Mapping>,
                       ghost ins0: seq<Resource>, ghost vs0: seq<Resource>, ghost ss0: seq<Resource>,
                       ghost n0: Id, ghost t0: seq<Action>)
    returns (r: Result<Resource, Error>)
    requires w.Valid() && drive != "" && AwaitsDrive(w, inst, drive)
    requires w.volumes == vs0 + LaunchedVolumes(ms, n0 + 1, n0, zone, ss0)
    requires w.volumes[|w.volumes| - 1].id == n0 + |ms|
    requires w.volumes[|w.volumes| - 1].formatted == RestoredFormatted(SnapId(latest), ss0)
    requires inst == NewInstance(n0, ms, zone, name)
    requires w.instances == ins0 + [inst] && Matching(w.instances, Some(name)) == [inst] && w.snapshots == ss0
    requires w.host == Host(n0, user, false, false, "", None, false)
    requires w.trace == t0 + [LaunchRequested(ms), TagsCreated(n0, NameKey, name)]
    modifies w
    ensures w.Valid()
    ensures Created(r, ins0, w.instances, vs0, w.volumes, ss0, w.snapshots, n0, t0, w.trace, w.host,
                    w.DeviceFormatted(), ms, latest, drive, name, user, zone)
  {
    ghost var t1, h1, vs1 := w.trace, w.host, w.volumes;
    r := PrepareLaunched(w, inst, drive, latest.None?, RestoredFormatted(SnapId(latest), ss0));
    CreatedWithDrive(r, ins0, w.instances, vs0, w.volumes, ss0, w.snapshots, n0, t0, t1, w.trace, h1, w.host, vs1,
                     w.DeviceFormatted(), ms, latest, drive, name, user, zone);
  }

  lemma CreatedWithDrive(r: Result<Resource, Error>, ins0: seq<Resource>, ins: seq<Resource>,
                         vs0: seq<Resource>, vs: seq<Resource>, ss0: seq<Resource>, ss: seq<Resource>,
                         n0: Id, t0: seq<Action>, t1: seq<Action>, t: seq<Action>, h1: Host, h: Host, vs1: seq<Resource>,
                         deviceFormatted: bool, ms: seq<Mapping>, latest: Option<Resource>, drive: string,
                         name: string, user: string, zone: string)
    requires drive != ""
    requires ins == ins0 + [NewInstance(n0, ms, zone, name)] && ss == ss0
    requires Matching(ins, Some(name)) == [NewInstance(n0, ms, zone, name)]
    requires t1 == t0 + [LaunchRequested(ms), TagsCreated(n0, NameKey, name)]
    requires h1 == Host(n0, user, false, false, "", None, false)
    requires (r.Ok? <==> latest.None? || RestoredFormatted(SnapId(latest), ss0))
    requires vs1 == vs0 + LaunchedVolumes(ms, n0 + 1, n0, zone, ss0) && |vs1| > 0 && vs1[|vs1| - 1].id == n0 + |ms|
    requires vs == vs1[..|vs1| - 1] + [NamedDrive(vs1[|vs1| - 1], drive, latest.None?)]
    requires DriveAttachedTo(vs, drive, NewInstance(n0, ms, zone, name))
    requires r.Err? ==>
      r.error == CommandFailed(MountCmd) && h == h1 &&
      t == t1 + [TagsCreated(vs1[|vs1| - 1].id, NameKey, drive), Ran(MkdirCmd), Ran(MountCmd)]
    requires r.Ok? ==>
      r == Ok(NewInstance(n0, ms, zone, name)) && deviceFormatted &&
      h == h1.(mounted := true, owner := h1.user, graph := Some(MountPoint + "/docker"), dockerRunning := true) &&
      t == t1 + PrepareSteps(vs1[|vs1| - 1].id, drive, latest.None?, false, h1.user)
    ensures Created(r, ins0, ins, vs0, vs, ss0, ss, n0, t0, t, h, deviceFormatted, ms, latest, drive, name, user, zone)
  {
  }

  /**
   * PrepareDrive on the volume a launch just created, restored from a
   * snapshot with a filesystem exactly when `restored`.
   */
  method PrepareLaunched(w: World, inst: Resource, drive: string, blank: bool, ghost restored: bool)
    returns (r: Result<Resource, Error>)
    requires w.Valid() && AwaitsDrive(w, inst, drive)
    requires w.volumes[|w.volumes| - 1].formatted == restored && (blank ==> !restored)
    modifies w
    ensures w.Valid()
    ensures w.instances == old(w.instances) && w.snapshots == old(w.snapshots)
    ensures (r.Ok? <==> blank || restored) && DriveAttachedTo(w.volumes, drive, inst)
    ensures var v := old(w.volumes)[|old(w.volumes)| - 1];
      w.volumes == old(w.volumes)[..|old(w.volumes)| - 1] + [NamedDrive(v, drive, blank)]
    ensures r.Err? ==>
      r.error == CommandFailed(MountCmd) && w.host == old(w.host) &&
      w.trace == old(w.trace) + [TagsCreated(old(w.volumes)[|old(w.volumes)| - 1].id, NameKey, drive), Ran(MkdirCmd), Ran(MountCmd)]
    ensures r.Ok? ==>
      r == Ok(inst) && w.DeviceFormatted() &&
      w.host == old(w.host).(mounted := true, owner := old(w.host).user, graph := Some(MountPoint + "/docker"),
                             dockerRunning := true) &&
      w.trace == old(w.trace) + PrepareSteps(old(w.volumes)[|old(w.volumes)| - 1].id, drive, blank, false, old(w.host).user)
  {
    var prepared := PrepareDrive(w, inst, drive, blank);
    if prepared.Err? {
      return Err(prepared.error);
    }
    r := Ok(inst);
  }

  // ----- terminate -----

  /**
   * What a terminate that found its instance `inst` and drive `dn` leaves,
   * given the state before: docker stopped and /v1 unmounted on the
   * addressed machine, the instance terminated and then its name cleared,
   * and the drive's one volume snapshotted when `save`, detached and
   * deleted, in that order. `released` says whether the provider had
   * already released the instance's volumes when the drive calls ran. With no volume or
   * several carrying the drive's name, the first drive call fails.
   */
  ghost predicate Terminated(r: Result<(), Error>, save: bool, released: bool, inst: Resource, dn: string,
                             ins0: seq<Resource>, ins: seq<Resource>, vs0: seq<Resource>, vs: seq<Resource>,
                             ss0: seq<Resource>, ss: seq<Resource>, n0: Id, clock0: int,
                             t0: seq<Action>, t: seq<Action>, h0: Host, h: Host)
  {
    var h1 := h0.(dockerRunning := false);
    var vs1 := AfterTermination(vs0, inst.id, released);
    var found := Matching(vs1, Some(dn));
    var ended := t0 + [DockerStopped] + UnmountSteps(h1) + [InstanceTerminated(inst.id), TagsCreated(inst.id, NameKey, "")];
    ins == Retagged(Stopped(ins0, inst.id), inst.id, NameKey, "") && h == AfterUnmount(h1) &&
    (|found| >= 2 ==> r == Err(MoreThanOne(found)) && vs == vs1 && ss == ss0 && t == ended) &&
    (found == [] ==>
       r == Err(if save then AttributeError("id") else VolumeMissing(dn)) && vs == vs1 && ss == ss0 && t == ended) &&
    (|found| == 1 ==>
       var v := found[0];
       var saved := if save then [SnapshotFor(n0, clock0, v, dn)] else [];
       r.Ok? && vs == RemoveId(vs1, v.id) && Matching(vs, Some(dn)) == [] && ss == ss0 + saved &&
       t == ended + SnapshotSteps(v, save, n0, dn) + DetachSteps(v) + [DeleteRequested(v.id)])
  }

  /**
   * For the drive as a launch leaves it, its one volume attached to the
   * instance and kept on termination: terminate deletes it whether or not
   * the provider has released it by then, and sends the detach request
   * exactly when it has not.
   */
  lemma DetachOnlyWhenUnreleased(r: Result<(), Error>, save: bool, released: bool, inst: Resource, dn: string,
                                 ins0: seq<Resource>, ins: seq<Resource>, vs0: seq<Resource>, vs: seq<Resource>,
                                 ss0: seq<Resource>, ss: seq<Resource>, n0: Id, clock0: int,
                                 t0: seq<Action>, t: seq<Action>, h0: Host, h: Host, v: Resource)
    requires Matching(vs0, Some(dn)) == [v]
    requires v.Volume? && v.attachments == [Attachment(inst.id, Device, false)]
    requires Terminated(r, save, released, inst, dn, ins0, ins, vs0, vs, ss0, ss, n0, clock0, t0, t, h0, h)
    ensures r.Ok? && Matching(vs, Some(dn)) == []
    ensures DetachRequested(v.id, inst.id) in t[|t0|..] <==> !released
  {
    TerminateReleasesDrive(vs0, inst, v, dn, released);
    var v1 := if released then v.(attachments := []) else v;
    TailHolds(t0, t, [DockerStopped], UnmountSteps(h0.(dockerRunning := false)),
              [InstanceTerminated(inst.id), TagsCreated(inst.id, NameKey, "")], SnapshotSteps(v1, save, n0, dn),
              DetachSteps(v1), DeleteRequested(v1.id), DetachRequested(v.id, inst.id));
  }

  /** An action in none of the other pieces is in what follows `t0` exactly when it is in `mid`. */
  lemma TailHolds(t0: seq<Action>, t: seq<Action>, p1: seq<Action>, p2: seq<Action>, p3: seq<Action>,
                  p4: seq<Action>, mid: seq<Action>, last: Action, x: Action)
    requires t == t0 + p1 + p2 + p3 + p4 + mid + [last]
    requires x !in p1 && x !in p2 && x !in p3 && x !in p4 && x != last
    ensures x in t[|t0|..] <==> x in mid
  {
    assert t[|t0|..] == p1 + p2 + p3 + p4 + mid + [last];
  }

  /**
   * terminate(instance, save_drive): stop docker, find the drive, unmount,
   * terminate the instance, clear its name, snapshot the drive when
   * `save`, detach and delete its volume. Each failure stops the sequence
   * where it happens, keeping what was done before it.
   */
  method Terminate(w: World, instance: InstanceArg, save: bool, released: bool) returns (r: Result<(), Error>)
    requires w.Valid() && (instance.Given? ==> instance.inst in w.instances)
    modifies w
    ensures w.Valid()
    ensures TerminateTarget(old(w.instances), old(w.volumes), old(w.snapshots), instance).Err? ==>
      r == Err(TerminateTarget(old(w.instances), old(w.volumes), old(w.snapshots), instance).error) &&
      w.TablesUnchanged() && w.host == old(w.host) && w.trace == old(w.trace)
    ensures var t := TerminateTarget(old(w.instances), old(w.volumes), old(w.snapshots), instance);
      t.Ok? && DriveOfTarget(old(w.volumes), t.value, "drive").Err? ==>
      r == Err(DriveOfTarget(old(w.volumes), t.value, "drive").error) && w.TablesUnchanged() &&
      w.host == old(w.host).(dockerRunning := false) && w.trace == old(w.trace) + [DockerStopped]
    ensures var t := TerminateTarget(old(w.instances), old(w.volumes), old(w.snapshots), instance);
      t.Ok? && DriveOfTarget(old(w.volumes), t.value, "drive").Ok? ==>
      var d := DriveOfTarget(old(w.volumes), t.value, "drive").value;
      Terminated(r, save, released, d.0, d.1, old(w.instances), w.instances, old(w.volumes), w.volumes,
                 old(w.snapshots), w.snapshots, old(w.nextId), old(w.clock), old(w.trace), w.trace, old(w.host), w.host)
  {
    var found := StopAndFind(w, instance, "drive");
    if found.Err? {
      return Err(found.error);
    }
    var (inst, dn) := found.value;
    var drive := new Drive(dn);
    UnmountTerminateRename(w, drive, inst, released);
    r := SaveDetachDelete(w, drive, save);
  }

  /** unmount, instance.terminate() and set_name(instance, ""), in that order. */
  method UnmountTerminateRename(w: World, drive: Drive, inst: Resource, released: bool)
    requires w.Valid() && inst in w.instances && inst.Instance?
    modifies w
    ensures w.Valid()
    ensures w.instances == Retagged(Stopped(old(w.instances), inst.id), inst.id, NameKey, "")
    ensures w.volumes == AfterTermination(old(w.volumes), inst.id, released)
    ensures w.snapshots == old(w.snapshots) && w.nextId == old(w.nextId) && w.clock == old(w.clock)
    ensures w.host == AfterUnmount(old(w.host))
    ensures w.trace == old(w.trace) + UnmountSteps(old(w.host)) + [InstanceTerminated(inst.id), TagsCreated(inst.id, NameKey, "")]
  {
    drive.Unmount(w);
    w.TerminateInstance(inst, released);
    SetName(w, inst, "");
  }

  /**
   * The drive half of terminate: create_snapshot when `save`, then detach
   * and delete_volume, each through the drive's unique lookup.
   */
  method SaveDetachDelete(w: World, drive: Drive, save: bool) returns (r: Result<(), Error>)
    requires w.Valid()
    modifies w
    ensures w.Valid()
    ensures w.instances == old(w.instances) && w.host == old(w.host)
    ensures |old(Matching(w.volumes, Some(drive.name)))| >= 2 ==>
      r == Err(MoreThanOne(old(Matching(w.volumes, Some(drive.name))))) && w.volumes == old(w.volumes) &&
      w.snapshots == old(w.snapshots) && w.trace == old(w.trace)
    ensures old(Matching(w.volumes, Some(drive.name))) == [] ==>
      r == Err(if save then AttributeError("id") else VolumeMissing(drive.name)) && w.volumes == old(w.volumes) &&
      w.snapshots == old(w.snapshots) && w.trace == old(w.trace)
    ensures |old(Matching(w.volumes, Some(drive.name)))| == 1 ==>
      var v := old(Matching(w.volumes, Some(drive.name)))[0];
      var saved := if save then [SnapshotFor(old(w.nextId), old(w.clock), v, drive.name)] else [];
      r.Ok? && w.volumes == RemoveId(old(w.volumes), v.id) && Matching(w.volumes, Some(drive.name)) == [] &&
      w.snapshots == old(w.snapshots) + saved &&
      w.trace == old(w.trace) + SnapshotSteps(v, save, old(w.nextId), drive.name) + DetachSteps(v) + [DeleteRequested(v.id)]
  {
    ghost var vs := w.volumes;
    ghost var n0 := w.nextId;
    if save {
      r := drive.CreateSnapshot(w);
      if r.Err? {
        return;
      }
    }
    ghost var t1 := w.trace;
    r := drive.Detach(w);
    if r.Err? {
      return;
    }
    ghost var v := Matching(vs, Some(drive.name))[0];
    assert t1 == old(w.trace) + SnapshotSteps(v, save, n0, drive.name);
    r := drive.DeleteVolume(w);
    RemoveReattached(vs, v.id);
  }

  // ----- get_tasks -----

  /** str.lstrip("/"): the string without its leading slashes. */
  function LStripSlash(s: string): (r: string)
    ensures |r| <= |s| && r == s[|s| - |r|..]
    ensures forall i :: 0 <= i < |s| - |r| ==> s[i] == '/'
    ensures r == [] || r[0] != '/'
  {
    if s != [] && s[0] == '/' then LStripSlash(s[1..]) else s
  }

  /** `target` occurs in `line` at offset `i`. */
  predicate OccursAt(line: string, target: string, i: int) {
    0 <= i <= |line| - |target| && line[i..i + |target|] == target
  }

  /** `target` occurs in `line`. */
  predicate Contains(line: string, target: string) {
    exists i :: 0 <= i <= |line| - |target| && OccursAt(line, target, i)
  }

  /** `… | grep target || true`: the lines holding `target`, in order; never a failure. */
  function Grep(lines: seq<string>, target: string): (r: seq<string>)
    ensures forall l :: l in r <==> l in lines && Contains(l, target)
  {
    if lines == [] then []
    else (if Contains(lines[0], target) then [lines[0]] else []) + Grep(lines[1..], target)
  }

  /** The container names docker inspect prints, each without its leading slashes. */
  function Stripped(names: seq<string>): (cs: seq<string>)
    ensures |cs| == |names|
    ensures forall i :: 0 <= i < |names| ==> cs[i] == LStripSlash(names[i])
  {
    if names == [] then [] else [LStripSlash(names[0])] + Stripped(names[1..])
  }

  /** The two columns of the task table. */
  datatype TaskTable = TaskTable(container: seq<string>, task: seq<string>)

  /**
   * The table get_tasks builds over containers `cs`, given `ps(c)`, the
   * lines of `ps -eo args` inside container `c`: one row per matching line,
   * container by container.
   */
  function TaskRows(cs: seq<string>, ps: string -> seq<string>, target: string): (t: TaskTable)
    ensures |t.container| == |t.task|
  {
    if cs == [] then TaskTable([], [])
    else
      var init := TaskRows(cs[..|cs| - 1], ps, target);
      var c := cs[|cs| - 1];
      var ts := Grep(ps(c), target);
      TaskTable(init.container + seq(|ts|, _ => c), init.task + ts)
  }

  /** TaskRows of one more container: that container's rows come last. */
  lemma TaskRowsSnoc(cs: seq<string>, c: string, ps: string -> seq<string>, target: string)
    ensures TaskRows(cs + [c], ps, target) ==
      TaskTable(TaskRows(cs, ps, target).container + seq(|Grep(ps(c), target)|, _ => c),
                TaskRows(cs, ps, target).task + Grep(ps(c), target))
  {
    assert (cs + [c])[..|cs|] == cs;
  }

  /** Every row of `t` pairs a container of `cs` with one of its own lines that holds the target. */
  ghost predicate RowsSound(cs: seq<string>, ps: string -> seq<string>, target: string, t: TaskTable) {
    |t.container| == |t.task| &&
    forall i :: 0 <= i < |t.task| ==> t.container[i] in cs && t.task[i] in ps(t.container[i]) && Contains(t.task[i], target)
  }

  /** Every row get_tasks reports pairs a listed container with a line of its own holding the target. */
  lemma {:induction false} TaskRowsSound(cs: seq<string>, ps: string -> seq<string>, target: string)
    ensures RowsSound(cs, ps, target, TaskRows(cs, ps, target))
  {
    if cs != [] {
      var init := cs[..|cs| - 1];
      var c := cs[|cs| - 1];
      assert cs == init + [c];
      TaskRowsSound(init, ps, target);
      TaskRowsSnoc(init, c, ps, target);
      var t := TaskRows(cs, ps, target);
      var t0 := TaskRows(init, ps, target);
      var ts := Grep(ps(c), target);
      forall i | 0 <= i < |t.task|
        ensures t.container[i] in cs && t.task[i] in ps(t.container[i]) && Contains(t.task[i], target)
      {
        if i < |t0.task| {
          assert t.container[i] == t0.container[i] && t.task[i] == t0.task[i];
          assert t0.container[i] in init;
        } else {
          assert t.container[i] == c;
          assert t.task[i] == ts[i - |t0.task|];
          assert ts[i - |t0.task|] in ts;
        }
      }
    }
  }

  /** The rows of the last container hold each of its matching lines. */
  lemma RowOfLast(init: seq<string>, c: string, ps: string -> seq<string>, target: string, l: string)
    requires l in Grep(ps(c), target)
    ensures exists i ::
      0 <= i < |TaskRows(init + [c], ps, target).task| &&
      TaskRows(init + [c], ps, target).container[i] == c && TaskRows(init + [c], ps, target).task[i] == l
  {
    TaskRowsSnoc(init, c, ps, target);
    var t := TaskRows(init + [c], ps, target);
    var n := |TaskRows(init, ps, target).task|;
    var ts := Grep(ps(c), target);
    var j :| 0 <= j < |ts| && ts[j] == l;
    assert t.container[n + j] == c && t.task[n + j] == l;
  }

  /** The rows of `init` stay first when a container is added. */
  lemma RowOfInit(init: seq<string>, c: string, ps: string -> seq<string>, target: string, i: int)
    requires 0 <= i < |TaskRows(init, ps, target).task|
    ensures i < |TaskRows(init + [c], ps, target).task|
    ensures TaskRows(init + [c], ps, target).container[i] == TaskRows(init, ps, target).container[i]
    ensures TaskRows(init + [c], ps, target).task[i] == TaskRows(init, ps, target).task[i]
  {
    TaskRowsSnoc(init, c, ps, target);
  }

  /** Every line holding the target, of every listed container, has its row. */
  lemma {:induction false} TaskRowsComplete(cs: seq<string>, ps: string -> seq<string>, target: string,
                                            c: string, l: string)
    requires c in cs && l in ps(c) && Contains(l, target)
    ensures exists i ::
      0 <= i < |TaskRows(cs, ps, target).task| &&
      TaskRows(cs, ps, target).container[i] == c && TaskRows(cs, ps, target).task[i] == l
  {
    var init := cs[..|cs| - 1];
    var last := cs[|cs| - 1];
    assert cs == init + [last];
    if c in init {
      TaskRowsComplete(init, ps, target, c, l);
      var t0 := TaskRows(init, ps, target);
      var i :| 0 <= i < |t0.task| && t0.container[i] == c && t0.task[i] == l;
      RowOfInit(init, last, ps, target, i);
    } else {
      RowOfLast(init, last, ps, target, l);
    }
  }

  /** The inner loop of get_tasks: one row per task of `container`. */
  method AppendTasks(cout: seq<string>, tout: seq<string>, container: string, tasks: seq<string>)
    returns (cout': seq<string>, tout': seq<string>)
    ensures cout' == cout + seq(|tasks|, _ => container)
    ensures tout' == tout + tasks
  {
    cout', tout' := cout, tout;
    var j := 0;
    while j < |tasks|
      invariant 0 <= j <= |tasks|
      invariant cout' == cout + seq(j, _ => container)
      invariant tout' == tout + tasks[..j]
    {
      cout' := cout' + [container];
      tout' := tout' + [tasks[j]];
      assert seq(j + 1, _ => container) == seq(j, _ => container) + [container];
      assert tasks[..j + 1] == tasks[..j] + [tasks[j]];
      j := j + 1;
    }
    assert tasks[..j] == tasks;
  }

  /** The outer loop of get_tasks: the rows of every container, in order. */
  method BuildRows(containers: seq<string>, ps: string -> seq<string>, target: string) returns (t: TaskTable)
    ensures t == TaskRows(containers, ps, target)
  {
    var cout: seq<string> := [];
    var tout: seq<string> := [];
    var k := 0;
    while k < |containers|
      invariant 0 <= k <= |containers|
      invariant TaskTable(cout, tout) == TaskRows(containers[..k], ps, target)
    {
      assert containers[..k + 1] == containers[..k] + [containers[k]];
      TaskRowsSnoc(containers[..k], containers[k], ps, target);
      cout, tout := AppendTasks(cout, tout, containers[k], Grep(ps(containers[k]), target));
      k := k + 1;
    }
    assert containers[..k] == containers;
    t := TaskTable(cout, tout);
  }

  /**
   * get_tasks(target). `names` are the names docker inspect prints for the
   * running containers and `ps(c)` the process lines of container `c`. The
   * listing fails, and the answer is None, when docker is not running or no
   * container runs (docker inspect is then given no container).
   */
  method GetTasks(w: World, names: seq<string>, ps: string -> seq<string>, target: string)
    returns (r: Option<TaskTable>)
    ensures r.None? <==> !w.host.dockerRunning || names == []
    ensures r.Some? ==> r.value == TaskRows(Stripped(names), ps, target)
  {
    if !w.host.dockerRunning || names == [] {
      return None;
    }
    var t := BuildRows(Stripped(names), ps, target);
    r := Some(t);
  }
}
