/**
 * server.py: the earlier revision of creating and terminating an instance
 * around a persistent drive (a Pdrive). Its settings come from config.py:
 * the login user, the instance type and AMI per itype key, and the
 * module-level base spec it deep-copies on every create.
 */
module Server {
  import opened Wrappers
  import opened Tags
  import opened Cloud
  import opened Directory
  import opened Lifecycle
  import opened XDrive
  import opened PDrive
  import opened Launch
  import opened XServer

  /** config.py: the user, and the instance type and AMI of each itype key. */
  const Config: Conf :=
    Conf(User, map["gpu" := "p2.xlarge", "free" := "t2.micro"], map["gpu" := "ami-873e61e1", "free" := "ami-c51e3eb6"])

  /** The itype key that also gets nvidia-docker. */
  const Gpu: string := "gpu"

  /** The last command of apps.install_nvidia_docker, the one that starts the plugin. */
  const NvidiaCmd: string := "sudo -b nohup nvidia-docker-plugin"

  /** set_docker_folder's default folder. */
  const DefaultFolder: string := "/var/lib"

  /** install_docker, then nvidia-docker for the gpu type. */
  function DockerSteps(itype: string): seq<Action> {
    [DockerInstalled] + if itype == Gpu then [Ran(NvidiaCmd)] else []
  }

  /** The remote steps for the pdrive once docker is installed: name, format when new, mount, docker on /v1. */
  function PdriveSteps(vid: Id, pdrive: string, blank: bool): seq<Action> {
    [TagsCreated(vid, NameKey, pdrive)] + (if blank then FormatSteps(false) else []) +
    [Ran(MkdirCmd), Ran(MountCmd), Ran(ChownCmd(User)), DockerFolderSet(MountPoint)]
  }

  /** nvidia-docker is started for the gpu type and for no other. */
  lemma NvidiaOnlyForGpu(itype: string)
    ensures Ran(NvidiaCmd) in DockerSteps(itype) <==> itype == Gpu
    ensures DockerSteps(itype)[0] == DockerInstalled
  {
  }

  /** The pdrive is formatted exactly when no snapshot of it was found, and always mounted. */
  lemma FormatOnlyWhenNew(vid: Id, pdrive: string, blank: bool)
    ensures Ran(MkfsCmd) in PdriveSteps(vid, pdrive, blank) <==> blank
    ensures Ran(MountCmd) in PdriveSteps(vid, pdrive, blank)
  {
    var s := PdriveSteps(vid, pdrive, blank);
    if !blank {
      assert s == [TagsCreated(vid, NameKey, pdrive), Ran(MkdirCmd), Ran(MountCmd), Ran(ChownCmd(User)),
                   DockerFolderSet(MountPoint)];
      assert ChownCmd(User) != MkfsCmd by {
        assert ChownCmd(User)[0] == 'c' && MkfsCmd[0] == 'm';
      }
    } else {
      assert s[2] == Ran(MkfsCmd);
    }
  }

  /**
   * The spec create builds: a deep copy of `base` updated to `itype`'s
   * type and AMI, with a boot mapping when a boot size is given and a
   * pdrive mapping, keyed by the latest snapshot only when there is one,
   * when a pdrive is named. `base` itself is left as it was.
   */
  method BuildSpec(w: World, base: LaunchSpec, itype: string, bootsize: Option<int>, pdrive: string, pdrivesize: int)
    returns (r: Result<LaunchSpec, Error>, latest: Option<Resource>)
    requires w.Valid()
    ensures SpecRefusal(w.volumes, Config, itype, pdrive).Some? ==>
      r == Err(SpecRefusal(w.volumes, Config, itype, pdrive).value)
    ensures SpecRefusal(w.volumes, Config, itype, pdrive).None? ==>
      r.Ok? && fresh(r.value) && fresh(r.value.mappings) &&
      r.value.imageId == Config.amis[itype] && r.value.instanceType == Config.itypes[itype] &&
      r.value.minCount == base.minCount && r.value.maxCount == base.maxCount &&
      latest == LaunchSnapshot(w.snapshots, pdrive) &&
      r.value.mappings.items ==
        base.mappings.items + CreateMappings(bootsize, DriveSize(pdrive, pdrivesize), SnapId(latest), OnlyWhenFound)
    ensures latest.Some? ==> latest.value in w.snapshots
  {
    latest := None;
    var spec := base.DeepCopy();
    if SizeGiven(bootsize) {
      spec.mappings.Append(BootMapping(bootsize.value));
    }
    if itype !in Config.itypes || itype !in Config.amis {
      return Err(KeyError(itype)), None;
    }
    spec.Update(Config.itypes[itype], Config.amis[itype]);
    if pdrive != "" {
      var d := new Drive(pdrive);
      var l := d.LatestSnapshot(w);
      if l.Err? {
        return Err(l.error), None;
      }
      latest := l.value;
      spec.mappings.Append(DriveMapping(pdrivesize, SnapId(latest), OnlyWhenFound));
    }
    r := Ok(spec);
  }

  /**
   * What a create that was not refused leaves, given the tables, id
   * counter and trace before (`ins0`, `vs0`, `ss0`, `n0`, `t0`) and after: the
   * instance launched from mappings `ms` and named `name`, the only one so
   * named, docker installed (with nvidia-docker for the gpu type), and then
   * docker's default folder (no pdrive) or the pdrive prepared: the
   * launch's last volume named (and formatted when there was no snapshot),
   * and either mounted with docker's folder on it, or, when the mount
   * fails, the host left as the launch and docker install left it.
   */
  ghost predicate Created(r: Result<Resource, Error>, ins0: seq<Resource>, ins: seq<Resource>,
                          vs0: seq<Resource>, vs: seq<Resource>, ss0: seq<Resource>, ss: seq<Resource>,
                          n0: Id, t0: seq<Action>, t: seq<Action>, h: Host, deviceFormatted: bool,
                          ms: seq<Mapping>, latest: Option<Resource>, pdrive: string, name: string,
                          itype: string, zone: string)
  {
    var inst := NewInstance(n0, ms, zone, name);
    var launched := t0 + [LaunchRequested(ms), TagsCreated(inst.id, NameKey, name)] + DockerSteps(itype);
    var lv := vs0 + LaunchedVolumes(ms, n0 + 1, n0, zone, ss0);
    ins == ins0 + [inst] && Matching(ins, Some(name)) == [inst] && ss == ss0 &&
    (pdrive == "" ==>
       r == Ok(inst) && h == Host(inst.id, User, false, false, "", Some(DefaultFolder + "/docker"), true) &&
       vs == lv && t == launched + [DockerFolderSet(DefaultFolder)]) &&
    (pdrive != "" ==>
       (r.Ok? <==> latest.None? || RestoredFormatted(SnapId(latest), ss0)) &&
       |lv| > 0 && vs == lv[..|lv| - 1] + [NamedDrive(lv[|lv| - 1], pdrive, latest.None?)] &&
       DriveAttachedTo(vs, pdrive, inst)) &&
    (pdrive != "" && r.Err? ==>
       r.error == CommandFailed(MountCmd) && h == Host(inst.id, User, false, false, "", None, false) &&
       t == launched + [TagsCreated(n0 + |ms|, NameKey, pdrive), Ran(MkdirCmd), Ran(MountCmd)]) &&
    (pdrive != "" && r.Ok? ==>
       r == Ok(inst) && deviceFormatted &&
       h == Host(inst.id, User, true, false, User, Some(MountPoint + "/docker"), true) &&
       t == launched + PdriveSteps(n0 + |ms|, pdrive, latest.None?))
  }

  /**
   * create(name, bootsize, itype, spot, pdrive, pdrivesize) with config.py's
   * `base` spec; "" stands for no pdrive. `zone` is the availability zone
   * the provider picks. A refused create changes nothing and leaves `base`
   * as it was, and so does a create that goes ahead: every create starts
   * from the same base spec.
   */
  method Create(w: World, base: LaunchSpec, name: string, bootsize: Option<int>, itype: string, spot: bool,
                pdrive: string, pdrivesize: int, zone: string) returns (r: Result<Resource, Error>)
    requires w.Valid()
    requires base.mappings.items == [] && base.minCount.Some? && base.maxCount.Some?
    modifies w
    ensures w.Valid()
    ensures base.mappings.items == [] && base.minCount == old(base.minCount) && base.maxCount == old(base.maxCount)
    ensures Refusal(old(w.instances), old(w.volumes), Config, name, itype, pdrive).Some? ==>
      r == Err(Refusal(old(w.instances), old(w.volumes), Config, name, itype, pdrive).value) &&
      w.TablesUnchanged() && w.host == old(w.host) && w.trace == old(w.trace)
    ensures Refusal(old(w.instances), old(w.volumes), Config, name, itype, pdrive).None? ==>
      var latest := LaunchSnapshot(old(w.snapshots), pdrive);
      Created(r, old(w.instances), w.instances, old(w.volumes), w.volumes, old(w.snapshots), w.snapshots,
              old(w.nextId), old(w.trace), w.trace, w.host, w.DeviceFormatted(),
              CreateMappings(bootsize, DriveSize(pdrive, pdrivesize), SnapId(latest), OnlyWhenFound),
              latest, pdrive, name, itype, zone)
  {
    var taken := LookupIn(w, Instances, name);
    if taken.Err? {
      return Err(taken.error);
    }
    if taken.value.Some? {
      return Err(InstanceExists(name));
    }
    r := CreateUnderFreeName(w, base, name, bootsize, itype, spot, pdrive, pdrivesize, zone);
  }

  /** create once the name is known to be free: build the spec, then launch or refuse. */
  method CreateUnderFreeName(w: World, base: LaunchSpec, name: string, bootsize: Option<int>, itype: string,
                             spot: bool, pdrive: string, pdrivesize: int, zone: string)
    returns (r: Result<Resource, Error>)
    requires w.Valid() && Matching(w.instances, Some(name)) == []
    requires base.mappings.items == [] && base.minCount.Some? && base.maxCount.Some?
    modifies w
    ensures w.Valid()
    ensures base.mappings.items == [] && base.minCount == old(base.minCount) && base.maxCount == old(base.maxCount)
    ensures SpecRefusal(old(w.volumes), Config, itype, pdrive).Some? ==>
      r == Err(SpecRefusal(old(w.volumes), Config, itype, pdrive).value) &&
      w.TablesUnchanged() && w.host == old(w.host) && w.trace == old(w.trace)
    ensures SpecRefusal(old(w.volumes), Config, itype, pdrive).None? ==>
      var latest := LaunchSnapshot(old(w.snapshots), pdrive);
      Created(r, old(w.instances), w.instances, old(w.volumes), w.volumes, old(w.snapshots), w.snapshots,
              old(w.nextId), old(w.trace), w.trace, w.host, w.DeviceFormatted(),
              CreateMappings(bootsize, DriveSize(pdrive, pdrivesize), SnapId(latest), OnlyWhenFound),
              latest, pdrive, name, itype, zone)
  {
    ghost var ss0 := w.snapshots;
    var spec, latest := BuildSpec(w, base, itype, bootsize, pdrive, pdrivesize);
    if spec.Err? {
      return Err(spec.error);
    }
    CreateMappingsShape(bootsize, DriveSize(pdrive, pdrivesize), SnapId(latest), OnlyWhenFound);
    CreateMappingsKnown(bootsize, DriveSize(pdrive, pdrivesize), latest, OnlyWhenFound, ss0);
    r := LaunchWithPdrive(w, spec.value, bootsize, pdrive, pdrivesize, latest, spot, zone, name, itype);
  }

  /** The rest of create once the spec is built: launch, name, install docker, and prepare the pdrive when there is one. */
  method LaunchWithPdrive(w: World, spec: LaunchSpec, bootsize: Option<int>, pdrive: string, pdrivesize: int,
                          latest: Option<Resource>, spot: bool, zone: string, name: string, itype: string)
    returns (r: Result<Resource, Error>)
    requires w.Valid() && Matching(w.instances, Some(name)) == []
    requires spec.minCount.Some? && spec.maxCount.Some?
    requires spec.mappings.items == CreateMappings(bootsize, DriveSize(pdrive, pdrivesize), SnapId(latest), OnlyWhenFound)
    requires SnapshotsKnown(spec.mappings.items, w.snapshots) && DistinctDevices(spec.mappings.items)
    requires !HasNoneSnapshotId(spec.mappings.items)
    requires pdrive != "" ==> Matching(w.volumes, Some(pdrive)) == []
    requires pdrive == "" ==> latest.None?
    modifies w, spec
    ensures w.Valid()
    ensures Created(r, old(w.instances), w.instances, old(w.volumes), w.volumes, old(w.snapshots), w.snapshots,
                    old(w.nextId), old(w.trace), w.trace, w.host, w.DeviceFormatted(),
                    CreateMappings(bootsize, DriveSize(pdrive, pdrivesize), SnapId(latest), OnlyWhenFound),
                    latest, pdrive, name, itype, zone)
  {
    if pdrive == "" {
      r := LaunchPlain(w, spec, spot, zone, name, itype);
    } else {
      r := LaunchPdrive(w, spec, bootsize, pdrive, pdrivesize, latest, spot, zone, name, itype);
    }
  }

  /** create without a pdrive: launch, name, install docker (and nvidia-docker), default docker folder. */
  method LaunchPlain(w: World, spec: LaunchSpec, spot: bool, zone: string, name: string, itype: string)
    returns (r: Result<Resource, Error>)
    requires w.Valid() && Matching(w.instances, Some(name)) == []
    requires spec.minCount.Some? && spec.maxCount.Some?
    requires SnapshotsKnown(spec.mappings.items, w.snapshots) && DistinctDevices(spec.mappings.items)
    requires !HasNoneSnapshotId(spec.mappings.items)
    modifies w, spec
    ensures w.Valid()
    ensures Created(r, old(w.instances), w.instances, old(w.volumes), w.volumes, old(w.snapshots), w.snapshots,
                    old(w.nextId), old(w.trace), w.trace, w.host, w.DeviceFormatted(),
                    old(spec.mappings.items), None, "", name, itype, zone)
  {
    var launched := LaunchAndName(w, spec, spot, zone, name, User);
    r := launched;
    w.InstallDocker();
    ghost var t1 := w.trace;
    if itype == Gpu {
      w.Run(NvidiaCmd);
    }
    assert w.trace == t1 + (if itype == Gpu then [Ran(NvidiaCmd)] else []);
    w.SetDockerFolder(DefaultFolder);
  }

  /** create with a pdrive: launch, name, install docker, then name, format when new and mount the pdrive. */
  method LaunchPdrive(w: World, spec: LaunchSpec, bootsize: Option<int>, pdrive: string, pdrivesize: int,
                      latest: Option<Resource>, spot: bool, zone: string, name: string, itype: string)
    returns (r: Result<Resource, Error>)
    requires w.Valid() && Matching(w.instances, Some(name)) == [] && pdrive != ""
    requires spec.minCount.Some? && spec.maxCount.Some?
    requires spec.mappings.items == CreateMappings(bootsize, Some(pdrivesize), SnapId(latest), OnlyWhenFound)
    requires SnapshotsKnown(spec.mappings.items, w.snapshots) && DistinctDevices(spec.mappings.items)
    requires !HasNoneSnapshotId(spec.mappings.items)
    requires Matching(w.volumes, Some(pdrive)) == []
    modifies w, spec
    ensures w.Valid()
    ensures Created(r, old(w.instances), w.instances, old(w.volumes), w.volumes, old(w.snapshots), w.snapshots,
                    old(w.nextId), old(w.trace), w.trace, w.host, w.DeviceFormatted(),
                    CreateMappings(bootsize, Some(pdrivesize), SnapId(latest), OnlyWhenFound),
                    latest, pdrive, name, itype, zone)
  {
    ghost var ins0, vs0, ss0, n0, t0 := w.instances, w.volumes, w.snapshots, w.nextId, w.trace;
    ghost var ms := spec.mappings.items;
    var launched := LaunchAndName(w, spec, spot, zone, name, User);
    var inst := launched.value;
    ghost var boot := if SizeGiven(bootsize) then [BootMapping(bootsize.value)] else [];
    assert ms == boot + [DriveMapping(pdrivesize, SnapId(latest), OnlyWhenFound)];
    assert FirstAt(LaunchedDevices(ms, n0 + 1), Device) == Some(n0 + 1 + |boot|) by {
      LaunchedDriveDevice(boot, DriveMapping(pdrivesize, SnapId(latest), OnlyWhenFound), n0 + 1);
    }
    r := PdriveAfterLaunch(w, inst, boot, pdrivesize, latest, zone, name, pdrive, itype, ms, ins0, vs0, ss0, n0, t0);
  }

  /** LaunchPdrive once the instance runs and is named: install docker, then prepare the volume the launch brought. */
  method PdriveAfterLaunch(w: World, inst: Resource, ghost boot: seq<Mapping>, pdrivesize: int,
                           latest: Option<Resource>, zone: string, name: string, pdrive: string, itype: string,
                           ghost ms: seq<Mapping>, ghost ins0: seq<Resource>, ghost vs0: seq<Resource>,
                           ghost ss0: seq<Resource>, ghost n0: Id, ghost t0: seq<Action>)
    returns (r: Result<Resource, Error>)
    requires w.Valid() && pdrive != "" && Matching(vs0, Some(pdrive)) == []
    requires ms == boot + [DriveMapping(pdrivesize, SnapId(latest), OnlyWhenFound)]
    requires FirstAt(LaunchedDevices(ms, n0 + 1), Device) == Some(n0 + 1 + |boot|)
    requires inst == NewInstance(n0, ms, zone, name)
    requires w.instances == ins0 + [inst] && Matching(w.instances, Some(name)) == [inst] && w.snapshots == ss0
    requires w.volumes == vs0 + LaunchedVolumes(ms, n0 + 1, n0, zone, ss0)
    requires w.host == Host(n0, User, false, false, "", None, false)
    requires w.trace == t0 + [LaunchRequested(ms), TagsCreated(n0, NameKey, name)]
    modifies w
    ensures w.Valid()
    ensures Created(r, ins0, w.instances, vs0, w.volumes, ss0, w.snapshots, n0, t0, w.trace, w.host,
                    w.DeviceFormatted(), ms, latest, pdrive, name, itype, zone)
  {
    InstallDockerFor(w, itype);
    LaunchLeavesDriveWaiting(w.volumes, w.host, inst, name, pdrive, vs0, boot, pdrivesize, SnapId(latest),
                             OnlyWhenFound, n0, zone, ss0);
    r := PdriveLaunched(w, inst, latest, zone, name, pdrive, itype, ms, ins0, vs0, ss0, n0, t0);
  }

  /** apps.install_docker, and apps.install_nvidia_docker for the gpu type; neither starts docker. */
  method InstallDockerFor(w: World, itype: string)
    requires w.Valid()
    modifies w
    ensures w.Valid() && w.TablesUnchanged()
    ensures w.host == old(w.host)
    ensures w.trace == old(w.trace) + DockerSteps(itype)
  {
    w.InstallDocker();
    if itype == Gpu {
      w.Run(NvidiaCmd);
    }
  }

  /** The part of LaunchPdrive after docker is installed: prepare the volume the launch brought. */
  method PdriveLaunched(w: World, inst: Resource, latest: Option<Resource>, zone: string,
                        name: string, pdrive: string, itype: string, ghost ms: seq<Mapping>,
                        ghost ins0: seq<Resource>, ghost vs0: seq<Resource>, ghost ss0: seq<Resource>,
                        ghost n0: Id, ghost t0: seq<Action>)
    returns (r: Result<Resource, Error>)
    requires w.Valid() && pdrive != "" && AwaitsDrive(w, inst, pdrive)
    requires w.volumes == vs0 + LaunchedVolumes(ms, n0 + 1, n0, zone, ss0)
    requires w.volumes[|w.volumes| - 1].id == n0 + |ms|
    requires w.volumes[|w.volumes| - 1].formatted == RestoredFormatted(SnapId(latest), ss0)
    requires inst == NewInstance(n0, ms, zone, name)
    requires w.instances == ins0 + [inst] && Matching(w.instances, Some(name)) == [inst] && w.snapshots == ss0
    requires w.host == Host(n0, User, false, false, "", None, false)
    requires w.trace == t0 + [LaunchRequested(ms), TagsCreated(n0, NameKey, name)] + DockerSteps(itype)
    modifies w
    ensures w.Valid()
    ensures Created(r, ins0, w.instances, vs0, w.volumes, ss0, w.snapshots, n0, t0, w.trace, w.host,
                    w.DeviceFormatted(), ms, latest, pdrive, name, itype, zone)
  {
    ghost var t1, h1, vs1 := w.trace, w.host, w.volumes;
    r := PreparePdrive(w, inst, pdrive, latest.None?, RestoredFormatted(SnapId(latest), ss0));
    CreatedWithPdrive(r, ins0, w.instances, vs0, w.volumes, ss0, w.snapshots, n0, t0, t1, w.trace, h1, w.host, vs1,
                      w.DeviceFormatted(), ms, latest, pdrive, name, itype, zone);
  }

  /**
   * The pdrive half of create, on the volume the launch just brought,
   * restored from a snapshot with a filesystem exactly when `restored`:
   * name it, format it when `blank`, mount it and move docker's folder to
   * /v1. Only the mount can fail, on a restored volume without a filesystem,
   * and then nothing follows it.
   */
  method PreparePdrive(w: World, inst: Resource, pdrive: string, blank: bool, ghost restored: bool)
    returns (r: Result<Resource, Error>)
    requires w.Valid() && AwaitsDrive(w, inst, pdrive)
    requires w.volumes[|w.volumes| - 1].formatted == restored && (blank ==> !restored)
    modifies w
    ensures w.Valid()
    ensures w.instances == old(w.instances) && w.snapshots == old(w.snapshots)
    ensures (r.Ok? <==> blank || restored) && DriveAttachedTo(w.volumes, pdrive, inst)
    ensures var v := old(w.volumes)[|old(w.volumes)| - 1];
      w.volumes == old(w.volumes)[..|old(w.volumes)| - 1] + [NamedDrive(v, pdrive, blank)]
    ensures r.Err? ==>
      r.error == CommandFailed(MountCmd) && w.host == old(w.host) &&
      w.trace == old(w.trace) + [TagsCreated(old(w.volumes)[|old(w.volumes)| - 1].id, NameKey, pdrive),
                                 Ran(MkdirCmd), Ran(MountCmd)]
    ensures r.Ok? ==>
      r == Ok(inst) && w.DeviceFormatted() &&
      w.host == old(w.host).(mounted := true, owner := User, graph := Some(MountPoint + "/docker"), dockerRunning := true) &&
      w.trace == old(w.trace) + PdriveSteps(old(w.volumes)[|old(w.volumes)| - 1].id, pdrive, blank)
  {
    ghost var v := w.volumes[|w.volumes| - 1];
    ghost var t1 := w.trace;
    NameAndFormat(w, inst, pdrive, blank);
    ghost var t2 := w.trace;
    var p := new Pdrive(pdrive);
    var mounted := p.Mount(w);
    if mounted.Err? {
      MountFailedTrace(t1, t2, w.trace, v.id, pdrive, blank, v.formatted);
      return Err(mounted.error);
    }
    ghost var t3 := w.trace;
    w.SetDockerFolder(MountPoint);
    r := Ok(inst);
    PdriveTrace(t1, t2, t3, w.trace, v.id, pdrive, blank, v.formatted);
  }

  /** The trace of naming the pdrive, formatting it when blank, mounting it and moving docker's folder to /v1. */
  lemma PdriveTrace(t1: seq<Action>, t2: seq<Action>, t3: seq<Action>, t4: seq<Action>, vid: Id, pdrive: string,
                    blank: bool, formatted: bool)
    requires blank ==> !formatted
    requires t2 == t1 + [TagsCreated(vid, NameKey, pdrive)] + (if blank then FormatSteps(formatted) else [])
    requires t3 == t2 + [Ran(MkdirCmd), Ran(MountCmd), Ran(ChownCmd(User))] && t4 == t3 + [DockerFolderSet(MountPoint)]
    ensures t4 == t1 + PdriveSteps(vid, pdrive, blank)
  {
  }

  lemma CreatedWithPdrive(r: Result<Resource, Error>, ins0: seq<Resource>, ins: seq<Resource>,
                          vs0: seq<Resource>, vs: seq<Resource>, ss0: seq<Resource>, ss: seq<Resource>,
                          n0: Id, t0: seq<Action>, t1: seq<Action>, t: seq<Action>, h1: Host, h: Host, vs1: seq<Resource>,
                          deviceFormatted: bool, ms: seq<Mapping>, latest: Option<Resource>, pdrive: string,
                          name: string, itype: string, zone: string)
    requires pdrive != ""
    requires ins == ins0 + [NewInstance(n0, ms, zone, name)] && ss == ss0
    requires Matching(ins, Some(name)) == [NewInstance(n0, ms, zone, name)]
    requires t1 == t0 + [LaunchRequested(ms), TagsCreated(n0, NameKey, name)] + DockerSteps(itype)
    requires h1 == Host(n0, User, false, false, "", None, false)
    requires (r.Ok? <==> latest.None? || RestoredFormatted(SnapId(latest), ss0))
    requires vs1 == vs0 + LaunchedVolumes(ms, n0 + 1, n0, zone, ss0) && |vs1| > 0 && vs1[|vs1| - 1].id == n0 + |ms|
    requires vs == vs1[..|vs1| - 1] + [NamedDrive(vs1[|vs1| - 1], pdrive, latest.None?)]
    requires DriveAttachedTo(vs, pdrive, NewInstance(n0, ms, zone, name))
    requires r.Err? ==>
      r.error == CommandFailed(MountCmd) && h == h1 &&
      t == t1 + [TagsCreated(vs1[|vs1| - 1].id, NameKey, pdrive), Ran(MkdirCmd), Ran(MountCmd)]
    requires r.Ok? ==>
      r == Ok(NewInstance(n0, ms, zone, name)) && deviceFormatted &&
      h == h1.(mounted := true, owner := User, graph := Some(MountPoint + "/docker"), dockerRunning := true) &&
      t == t1 + PdriveSteps(vs1[|vs1| - 1].id, pdrive, latest.None?)
    ensures Created(r, ins0, ins, vs0, vs, ss0, ss, n0, t0, t, h, deviceFormatted, ms, latest, pdrive, name, itype, zone)
  {
  }

  // ----- terminate -----

  /**
   * What a terminate that found its instance `inst` and pdrive `dn` leaves,
   * given the state before: docker stopped and /v1 unmounted, the
   * instance's name cleared and then the instance terminated, the pdrive's
   * one volume snapshotted when `save` and deleted. The volume is deleted
   * without a detach, so the delete fails while the volume is still
   * attached: to another instance, or to this one when the provider has not
   * yet released its volumes (`released` false). With no volume
   * or several carrying the pdrive's name, the first pdrive call fails.
   */
  ghost predicate Terminated(r: Result<(), Error>, save: bool, released: bool, inst: Resource, dn: string,
                             ins0: seq<Resource>, ins: seq<Resource>, vs0: seq<Resource>, vs: seq<Resource>,
                             ss0: seq<Resource>, ss: seq<Resource>, n0: Id, clock0: int,
                             t0: seq<Action>, t: seq<Action>, h0: Host, h: Host)
  {
    var h1 := h0.(dockerRunning := false);
    var vs1 := AfterTermination(vs0, inst.id, released);
    var found := Matching(vs1, Some(dn));
    var ended := t0 + [DockerStopped] + UnmountSteps(h1) + [TagsCreated(inst.id, NameKey, ""), InstanceTerminated(inst.id)];
    ins == Stopped(Retagged(ins0, inst.id, NameKey, ""), inst.id) && h == AfterUnmount(h1) &&
    (|found| >= 2 ==> r == Err(MoreThanOne(found)) && vs == vs1 && ss == ss0 && t == ended) &&
    (found == [] ==>
       r == Err(AttributeError(if save then "id" else "delete")) && vs == vs1 && ss == ss0 && t == ended) &&
    (|found| == 1 ==>
       var v := found[0];
       var saved := if save then [SnapshotFor(n0, clock0, v, dn)] else [];
       ss == ss0 + saved && t == ended + SnapshotSteps(v, save, n0, dn) + [DeleteRequested(v.id)] &&
       (Attached(v) ==> r == Err(ProviderError("VolumeInUse")) && vs == vs1) &&
       (!Attached(v) ==> r.Ok? && vs == RemoveId(vs1, v.id) && Matching(vs, Some(dn)) == []))
  }

  /**
   * For the pdrive as a launch leaves it, its one volume attached to the
   * instance and kept on termination: terminate deletes it, and succeeds,
   * exactly when the provider has released the instance's volumes by the
   * time of the delete; otherwise the delete is refused as VolumeInUse and
   * the volume stays, attached.
   */
  lemma DeleteNeedsRelease(r: Result<(), Error>, save: bool, released: bool, inst: Resource, dn: string,
                           ins0: seq<Resource>, ins: seq<Resource>, vs0: seq<Resource>, vs: seq<Resource>,
                           ss0: seq<Resource>, ss: seq<Resource>, n0: Id, clock0: int,
                           t0: seq<Action>, t: seq<Action>, h0: Host, h: Host, v: Resource)
    requires Matching(vs0, Some(dn)) == [v]
    requires v.Volume? && v.attachments == [Attachment(inst.id, Device, false)]
    requires Terminated(r, save, released, inst, dn, ins0, ins, vs0, vs, ss0, ss, n0, clock0, t0, t, h0, h)
    ensures r.Ok? <==> released
    ensures released ==> Matching(vs, Some(dn)) == []
    ensures !released ==> r == Err(ProviderError("VolumeInUse")) && vs == vs0
  {
    TerminateReleasesDrive(vs0, inst, v, dn, released);
  }

  /**
   * terminate(instance, save_pdrive): stop docker, find the pdrive, unmount,
   * clear the instance's name, terminate it, snapshot the pdrive when
   * `save`, delete its volume. Each failure stops the sequence where it
   * happens, keeping what was done before it.
   */
  method Terminate(w: World, instance: InstanceArg, save: bool, released: bool) returns (r: Result<(), Error>)
    requires w.Valid() && (instance.Given? ==> instance.inst in w.instances)
    modifies w
    ensures w.Valid()
    ensures TerminateTarget(old(w.instances), old(w.volumes), old(w.snapshots), instance).Err? ==>
      r == Err(TerminateTarget(old(w.instances), old(w.volumes), old(w.snapshots), instance).error) &&
      w.TablesUnchanged() && w.host == old(w.host) && w.trace == old(w.trace)
    ensures var t := TerminateTarget(old(w.instances), old(w.volumes), old(w.snapshots), instance);
      t.Ok? && DriveOfTarget(old(w.volumes), t.value, "pdrive").Err? ==>
      r == Err(DriveOfTarget(old(w.volumes), t.value, "pdrive").error) && w.TablesUnchanged() &&
      w.host == old(w.host).(dockerRunning := false) && w.trace == old(w.trace) + [DockerStopped]
    ensures var t := TerminateTarget(old(w.instances), old(w.volumes), old(w.snapshots), instance);
      t.Ok? && DriveOfTarget(old(w.volumes), t.value, "pdrive").Ok? ==>
      var d := DriveOfTarget(old(w.volumes), t.value, "pdrive").value;
      Terminated(r, save, released, d.0, d.1, old(w.instances), w.instances, old(w.volumes), w.volumes,
                 old(w.snapshots), w.snapshots, old(w.nextId), old(w.clock), old(w.trace), w.trace, old(w.host), w.host)
  {
    var found := StopAndFind(w, instance, "pdrive");
    if found.Err? {
      return Err(found.error);
    }
    var (inst, dn) := found.value;
    var drive := new Drive(dn);
    UnmountRenameTerminate(w, drive, inst, released);
    r := SaveDelete(w, drive, save);
  }

  /** unmount, set_name(instance, "") and instance.terminate(), in that order. */
  method UnmountRenameTerminate(w: World, drive: Drive, inst: Resource, released: bool)
    requires w.Valid() && inst in w.instances && inst.Instance?
    modifies w
    ensures w.Valid()
    ensures w.instances == Stopped(Retagged(old(w.instances), inst.id, NameKey, ""), inst.id)
    ensures w.volumes == AfterTermination(old(w.volumes), inst.id, released)
    ensures w.snapshots == old(w.snapshots) && w.nextId == old(w.nextId) && w.clock == old(w.clock)
    ensures w.host == AfterUnmount(old(w.host))
    ensures w.trace == old(w.trace) + UnmountSteps(old(w.host)) + [TagsCreated(inst.id, NameKey, ""), InstanceTerminated(inst.id)]
  {
    drive.Unmount(w);
    ghost var ins := w.instances;
    ghost var k :| 0 <= k < |ins| && ins[k] == inst;
    SetName(w, inst, "");
    assert w.instances[k] == Tagged(inst, NameKey, "");
    w.TerminateInstance(Tagged(inst, NameKey, ""), released);
  }

  /** The pdrive half of terminate: create_snapshot when `save`, then delete_volume. */
  method SaveDelete(w: World, drive: Drive, save: bool) returns (r: Result<(), Error>)
    requires w.Valid()
    modifies w
    ensures w.Valid()
    ensures w.instances == old(w.instances) && w.host == old(w.host)
    ensures |old(Matching(w.volumes, Some(drive.name)))| >= 2 ==>
      r == Err(MoreThanOne(old(Matching(w.volumes, Some(drive.name))))) && w.volumes == old(w.volumes) &&
      w.snapshots == old(w.snapshots) && w.trace == old(w.trace)
    ensures old(Matching(w.volumes, Some(drive.name))) == [] ==>
      r == Err(AttributeError(if save then "id" else "delete")) && w.volumes == old(w.volumes) &&
      w.snapshots == old(w.snapshots) && w.trace == old(w.trace)
    ensures |old(Matching(w.volumes, Some(drive.name)))| == 1 ==>
      var v := old(Matching(w.volumes, Some(drive.name)))[0];
      var saved := if save then [SnapshotFor(old(w.nextId), old(w.clock), v, drive.name)] else [];
      w.snapshots == old(w.snapshots) + saved &&
      w.trace == old(w.trace) + SnapshotSteps(v, save, old(w.nextId), drive.name) + [DeleteRequested(v.id)] &&
      (Attached(v) ==> r == Err(ProviderError("VolumeInUse")) && w.volumes == old(w.volumes)) &&
      (!Attached(v) ==> r.Ok? && w.volumes == RemoveId(old(w.volumes), v.id) && Matching(w.volumes, Some(drive.name)) == [])
  {
    if save {
      r := drive.CreateSnapshot(w);
      if r.Err? {
        return;
      }
    }
    r := drive.DeleteVolume(w);
  }
}
