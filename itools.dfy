/**
 * itools.py: the first revision of creating and terminating an instance
 * around a persistent drive. Its create copies the module-level base spec
 * with dict.copy(), so the mapping list it appends to is base_spec's own;
 * it names the pdrive's snapshot key even when there is no snapshot; and
 * it raises a string when the name is taken. Its terminate always saves the
 * pdrive and keeps both the instance's name and the pdrive's volume.
 */
module ITools {
  import opened Wrappers
  import opened Tags
  import opened Cloud
  import opened Directory
  import opened Lifecycle
  import opened XDrive
  import opened PDrive
  import opened Launch

  /** itools.py's instance type per itype key; the AMI stays the base spec's. */
  const Itypes: map<string, string> := map["gpu" := "p2.xlarge", "free" := "t2.micro"]

  /** The boot mapping create appends before anything can stop it. */
  function BootPart(bootsize: Option<int>): seq<Mapping> {
    if SizeGiven(bootsize) then [BootMapping(bootsize.value)] else []
  }

  /**
   * Why create stops before launching, in the order the code meets it:
   * the name check (`raise` of a string is a TypeError), a missing itype
   * key, or a pdrive whose latest snapshot cannot be asked for because a
   * volume carries its name.
   */
  function Refusal(instances: seq<Resource>, volumes: seq<Resource>, name: string, itype: string,
                   pdrive: string): Option<Error> {
    match Lookup(instances, name)
    case Err(e) => Some(e)
    case Ok(Some(_)) => Some(TypeError)
    case Ok(None) => SpecRefusal(volumes, itype, pdrive)
  }

  /** The part of Refusal met after the boot mapping is appended. */
  function SpecRefusal(volumes: seq<Resource>, itype: string, pdrive: string): Option<Error> {
    var found := Matching(volumes, Some(pdrive));
    if itype !in Itypes then Some(KeyError(itype))
    else if pdrive != "" && |found| >= 2 then Some(MoreThanOne(found))
    else if pdrive != "" && |found| == 1 then Some(VolumeExists)
    else None
  }

  /** A taken name stops create with a TypeError (or the lookup's own error), never with the intended message. */
  lemma TakenNameIsTypeError(instances: seq<Resource>, volumes: seq<Resource>, name: string, itype: string,
                             pdrive: string, i: Resource)
    requires i in instances && NameOf(i) == name
    ensures Refusal(instances, volumes, name, itype, pdrive) == Some(TypeError) ||
            Refusal(instances, volumes, name, itype, pdrive) == Some(MoreThanOne(Matching(instances, Some(name))))
    ensures Refusal(instances, volumes, name, itype, pdrive) != Some(InstanceExists(name))
  {
    assert i in Matching(instances, Some(name));
  }

  /**
   * With no snapshot of the pdrive, the mapping still carries SnapshotId
   * None, so the launch is refused with a ParamValidation error whatever
   * came before it in the list.
   */
  lemma FreshPdriveRejected(pre: seq<Mapping>, bootsize: Option<int>, size: int)
    ensures HasNoneSnapshotId(pre + CreateMappings(bootsize, Some(size), None, Always))
  {
    var dm := DriveMapping(size, None, Always);
    assert CreateMappings(bootsize, Some(size), None, Always) == BootPart(bootsize) + [dm];
    assert (pre + CreateMappings(bootsize, Some(size), None, Always))[|pre| + |BootPart(bootsize)|] == dm;
  }

  /**
   * Once one create with a boot size has appended its /dev/xvda mapping to
   * the shared list, every later create with a boot size sends two
   * /dev/xvda mappings, and the launch is refused as an invalid block
   * device mapping.
   */
  lemma RepeatedBootRejected(pre: seq<Mapping>, bootsize: Option<int>, drive: Option<int>, snap: Option<Id>,
                             key: SnapshotKey, earlier: Option<int>)
    requires SizeGiven(bootsize) && SizeGiven(earlier) && BootMapping(earlier.value) in pre
    ensures !DistinctDevices(pre + CreateMappings(bootsize, drive, snap, key))
  {
    var ms := pre + CreateMappings(bootsize, drive, snap, key);
    var i :| 0 <= i < |pre| && pre[i] == BootMapping(earlier.value);
    assert ms[|pre|] == BootMapping(bootsize.value);
    DeviceNameAt(ms);
    assert DeviceNames(ms)[i] == BootDevice == DeviceNames(ms)[|pre|];
  }

  /**
   * The spec create builds: a shallow copy of `base` whose type is
   * `itype`'s, keeping base's AMI. Its mapping list is base's own, so the
   * boot mapping, appended before the itype key is looked up, stays in
   * base even when create stops there, and the pdrive mapping, with the
   * latest snapshot's id or None, is appended to it too.
   */
  method BuildSpec(w: World, base: LaunchSpec, itype: string, bootsize: Option<int>, pdrive: string,
                   pdrivesize: int) returns (r: Result<LaunchSpec, Error>, latest: Option<Resource>)
    requires w.Valid()
    modifies base.mappings
    ensures SpecRefusal(w.volumes, itype, pdrive).Some? ==>
      r == Err(SpecRefusal(w.volumes, itype, pdrive).value) &&
      base.mappings.items == old(base.mappings.items) + BootPart(bootsize)
    ensures SpecRefusal(w.volumes, itype, pdrive).None? ==>
      r.Ok? && fresh(r.value) && r.value.mappings == base.mappings &&
      r.value.imageId == base.imageId && r.value.instanceType == Itypes[itype] &&
      r.value.minCount == base.minCount && r.value.maxCount == base.maxCount &&
      latest == (if pdrive != "" then LatestNamed(w.snapshots, pdrive) else None) &&
      base.mappings.items ==
        old(base.mappings.items) + CreateMappings(bootsize, DriveSize(pdrive, pdrivesize), SnapId(latest), Always)
    ensures latest.Some? ==> latest.value in w.snapshots
  {
    latest := None;
    var spec := base.Copy();
    if SizeGiven(bootsize) {
      spec.mappings.Append(BootMapping(bootsize.value));
    }
    if itype !in Itypes {
      return Err(KeyError(itype)), None;
    }
    spec.Update(Itypes[itype], spec.imageId);
    if pdrive != "" {
      var d := new Drive(pdrive);
      var l := d.LatestSnapshot(w);
      if l.Err? {
        return Err(l.error), None;
      }
      latest := l.value;
      spec.mappings.Append(DriveMapping(pdrivesize, SnapId(latest), Always));
    }
    r := Ok(spec);
  }

  /**
   * What a create that was not refused leaves, given the state before and
   * the mappings `ms` it sent: either the launch was refused and nothing
   * else happened, or the instance runs, named `name`, and, with a pdrive,
   * its volume is named and mounted (never formatted: a pdrive launch only
   * succeeds from a snapshot), and docker is installed last, not started.
   * When the mount fails, the volume is named and the host is left as the
   * launch left it.
   */
  ghost predicate Created(r: Result<Resource, Error>, ins0: seq<Resource>, ins: seq<Resource>,
                          vs0: seq<Resource>, vs: seq<Resource>, ss0: seq<Resource>, ss: seq<Resource>,
                          n0: Id, t0: seq<Action>, t: seq<Action>, h0: Host, h: Host,
                          ms: seq<Mapping>, latest: Option<Resource>, pdrive: string, name: string, zone: string)
  {
    var launchOk := !HasNoneSnapshotId(ms) && DistinctDevices(ms) && SnapshotsKnown(ms, ss0);
    var inst := NewInstance(n0, ms, zone, name);
    var launched := t0 + [LaunchRequested(ms), TagsCreated(inst.id, NameKey, name)];
    var lv := vs0 + LaunchedVolumes(ms, n0 + 1, n0, zone, ss0);
    ss == ss0 &&
    (!launchOk ==>
       r.Err? && ins == ins0 && vs == vs0 && h == h0 &&
       t == t0 + (if HasNoneSnapshotId(ms) then [] else [LaunchRequested(ms)]) &&
       (HasNoneSnapshotId(ms) ==> r.error == ProviderError("ParamValidation")) &&
       (!HasNoneSnapshotId(ms) && !DistinctDevices(ms) ==> r.error == ProviderError("InvalidBlockDeviceMapping"))) &&
    (launchOk ==> ins == ins0 + [inst] && Matching(ins, Some(name)) == [inst]) &&
    (launchOk && pdrive == "" ==>
       r == Ok(inst) && vs == lv &&
       h == Host(inst.id, User, false, false, "", None, false) && t == launched + [DockerInstalled]) &&
    (launchOk && pdrive != "" ==>
       latest.Some? && (r.Ok? <==> RestoredFormatted(SnapId(latest), ss0)) &&
       |lv| > 0 && vs == lv[..|lv| - 1] + [NamedDrive(lv[|lv| - 1], pdrive, false)] &&
       DriveAttachedTo(vs, pdrive, inst)) &&
    (launchOk && pdrive != "" && r.Err? ==>
       r.error == CommandFailed(MountCmd) && h == Host(inst.id, User, false, false, "", None, false) &&
       t == launched + [TagsCreated(n0 + |ms|, NameKey, pdrive), Ran(MkdirCmd), Ran(MountCmd)]) &&
    (launchOk && pdrive != "" && r.Ok? ==>
       r == Ok(inst) && h == Host(inst.id, User, true, false, User, None, false) &&
       t == launched + [TagsCreated(n0 + |ms|, NameKey, pdrive), Ran(MkdirCmd), Ran(MountCmd), Ran(ChownCmd(User)),
                        DockerInstalled])
  }

  /**
   * create(name, bootsize, itype, spot, pdrive, pdrivesize) with the
   * module's `base` spec; "" stands for no pdrive. The mappings sent are
   * whatever earlier creates left in base's list followed by this create's
   * own, and they stay in base afterwards.
   */
  method Create(w: World, base: LaunchSpec, name: string, bootsize: Option<int>, itype: string, spot: bool,
                pdrive: string, pdrivesize: int, zone: string) returns (r: Result<Resource, Error>)
    requires w.Valid() && base.minCount.Some? && base.maxCount.Some?
    modifies w, base.mappings
    ensures w.Valid()
    ensures Lookup(old(w.instances), name) != Ok(None) ==>
      r == Err(Refusal(old(w.instances), old(w.volumes), name, itype, pdrive).value) &&
      base.mappings.items == old(base.mappings.items) &&
      w.TablesUnchanged() && w.host == old(w.host) && w.trace == old(w.trace)
    ensures Lookup(old(w.instances), name) == Ok(None) && SpecRefusal(old(w.volumes), itype, pdrive).Some? ==>
      r == Err(SpecRefusal(old(w.volumes), itype, pdrive).value) &&
      base.mappings.items == old(base.mappings.items) + BootPart(bootsize) &&
      w.TablesUnchanged() && w.host == old(w.host) && w.trace == old(w.trace)
    ensures Refusal(old(w.instances), old(w.volumes), name, itype, pdrive).None? ==>
      var latest := if pdrive != "" then LatestNamed(old(w.snapshots), pdrive) else None;
      base.mappings.items ==
        old(base.mappings.items) + CreateMappings(bootsize, DriveSize(pdrive, pdrivesize), SnapId(latest), Always) &&
      Created(r, old(w.instances), w.instances, old(w.volumes), w.volumes, old(w.snapshots), w.snapshots,
              old(w.nextId), old(w.trace), w.trace, old(w.host), w.host, base.mappings.items, latest, pdrive, name, zone)
  {
    ghost var pre := base.mappings.items;
    var taken := LookupIn(w, Instances, name);
    if taken.Err? {
      return Err(taken.error);
    }
    if taken.value.Some? {
      return Err(TypeError);
    }
    var spec, latest := BuildSpec(w, base, itype, bootsize, pdrive, pdrivesize);
    if spec.Err? {
      return Err(spec.error);
    }
    r := LaunchPrepared(w, spec.value, pre, bootsize, pdrive, pdrivesize, latest, spot, zone, name);
  }

  /** The rest of create once the spec is built: launch, name, prepare the pdrive when there is one, install docker. */
  method LaunchPrepared(w: World, spec: LaunchSpec, ghost pre: seq<Mapping>, bootsize: Option<int>, pdrive: string,
                        pdrivesize: int, latest: Option<Resource>, spot: bool, zone: string, name: string)
    returns (r: Result<Resource, Error>)
    requires w.Valid() && Matching(w.instances, Some(name)) == []
    requires spec.minCount.Some? && spec.maxCount.Some?
    requires spec.mappings.items == pre + CreateMappings(bootsize, DriveSize(pdrive, pdrivesize), SnapId(latest), Always)
    requires pdrive != "" ==> Matching(w.volumes, Some(pdrive)) == []
    requires pdrive == "" ==> latest.None?
    requires latest.Some? ==> latest.value in w.snapshots
    modifies w, spec
    ensures w.Valid()
    ensures spec.mappings == old(spec.mappings) && spec.mappings.items == old(spec.mappings.items)
    ensures Created(r, old(w.instances), w.instances, old(w.volumes), w.volumes, old(w.snapshots), w.snapshots,
                    old(w.nextId), old(w.trace), w.trace, old(w.host), w.host, spec.mappings.items,
                    latest, pdrive, name, zone)
  {
    if pdrive == "" {
      r := LaunchPlain(w, spec, spot, zone, name);
    } else {
      r := LaunchPdrive(w, spec, pre, bootsize, pdrive, pdrivesize, latest, spot, zone, name);
    }
  }

  /** create without a pdrive: launch, name, install docker. */
  method LaunchPlain(w: World, spec: LaunchSpec, spot: bool, zone: string, name: string)
    returns (r: Result<Resource, Error>)
    requires w.Valid() && Matching(w.instances, Some(name)) == []
    requires spec.minCount.Some? && spec.maxCount.Some?
    modifies w, spec
    ensures w.Valid()
    ensures spec.mappings == old(spec.mappings) && spec.mappings.items == old(spec.mappings.items)
    ensures Created(r, old(w.instances), w.instances, old(w.volumes), w.volumes, old(w.snapshots), w.snapshots,
                    old(w.nextId), old(w.trace), w.trace, old(w.host), w.host, spec.mappings.items,
                    None, "", name, zone)
  {
    var launched := LaunchAndName(w, spec, spot, zone, name, User);
    if launched.Err? {
      return launched;
    }
    w.InstallDocker();
    r := launched;
  }

  /** create with a pdrive: launch and name; a launch that succeeds came from a snapshot, whose volume is then prepared. */
  method LaunchPdrive(w: World, spec: LaunchSpec, ghost pre: seq<Mapping>, bootsize: Option<int>, pdrive: string,
                      pdrivesize: int, latest: Option<Resource>, spot: bool, zone: string, name: string)
    returns (r: Result<Resource, Error>)
    requires w.Valid() && Matching(w.instances, Some(name)) == [] && pdrive != ""
    requires spec.minCount.Some? && spec.maxCount.Some?
    requires spec.mappings.items == pre + CreateMappings(bootsize, Some(pdrivesize), SnapId(latest), Always)
    requires Matching(w.volumes, Some(pdrive)) == []
    requires latest.Some? ==> latest.value in w.snapshots
    modifies w, spec
    ensures w.Valid()
    ensures spec.mappings == old(spec.mappings) && spec.mappings.items == old(spec.mappings.items)
    ensures Created(r, old(w.instances), w.instances, old(w.volumes), w.volumes, old(w.snapshots), w.snapshots,
                    old(w.nextId), old(w.trace), w.trace, old(w.host), w.host, spec.mappings.items,
                    latest, pdrive, name, zone)
  {
    ghost var ins0, vs0, ss0, n0, t0 := w.instances, w.volumes, w.snapshots, w.nextId, w.trace;
    ghost var ms := spec.mappings.items;
    var launched := LaunchAndName(w, spec, spot, zone, name, User);
    if launched.Err? {
      return launched;
    }
    r := PdriveAfterLaunch(w, launched.value, pre, bootsize, pdrive, pdrivesize, latest, zone, name,
                           ms, ins0, vs0, ss0, n0, t0);
  }

  /** LaunchPdrive once the launch succeeded: the snapshot was found, and the volume it restored is prepared. */
  method PdriveAfterLaunch(w: World, inst: Resource, ghost pre: seq<Mapping>, bootsize: Option<int>, pdrive: string,
                           pdrivesize: int, latest: Option<Resource>, zone: string, name: string,
                           ghost ms: seq<Mapping>, ghost ins0: seq<Resource>, ghost vs0: seq<Resource>,
                           ghost ss0: seq<Resource>, ghost n0: Id, ghost t0: seq<Action>)
    returns (r: Result<Resource, Error>)
    requires w.Valid() && pdrive != "" && Matching(vs0, Some(pdrive)) == []
    requires ms == pre + CreateMappings(bootsize, Some(pdrivesize), SnapId(latest), Always)
    requires !HasNoneSnapshotId(ms) && DistinctDevices(ms) && SnapshotsKnown(ms, ss0)
    requires inst == NewInstance(n0, ms, zone, name)
    requires w.instances == ins0 + [inst] && Matching(w.instances, Some(name)) == [inst] && w.snapshots == ss0
    requires w.volumes == vs0 + LaunchedVolumes(ms, n0 + 1, n0, zone, ss0) && w.nextId == n0 + 1 + |ms|
    requires w.host == Host(n0, User, false, false, "", None, false)
    requires w.trace == t0 + [LaunchRequested(ms), TagsCreated(n0, NameKey, name)]
    modifies w
    ensures w.Valid()
    ensures Created(r, ins0, w.instances, vs0, w.volumes, ss0, w.snapshots, n0, t0, w.trace, w.host, w.host,
                    ms, latest, pdrive, name, zone)
  {
    if latest.None? {
      FreshPdriveRejected(pre, bootsize, pdrivesize);
      assert false;
    }
    ghost var boot := pre + BootPart(bootsize);
    ghost var dm := DriveMapping(pdrivesize, SnapId(latest), Always);
    assert ms == boot + [dm];
    assert FirstAt(LaunchedDevices(ms, n0 + 1), Device) == Some(n0 + 1 + |boot|) by {
      LaunchedDriveDevice(boot, dm, n0 + 1);
    }
    LaunchLeavesDriveWaiting(w.volumes, w.host, inst, name, pdrive, vs0, boot, pdrivesize, SnapId(latest),
                             Always, n0, zone, ss0);
    r := PdriveLaunched(w, inst, latest, zone, name, pdrive, ms, ins0, vs0, ss0, n0, t0);
  }

  /** The part of LaunchPrepared after the instance is up and named: name and mount its pdrive, then install docker. */
  method PdriveLaunched(w: World, inst: Resource, latest: Option<Resource>, zone: string,
                        name: string, pdrive: string, ghost ms: seq<Mapping>,
                        ghost ins0: seq<Resource>, ghost vs0: seq<Resource>, ghost ss0: seq<Resource>,
                        ghost n0: Id, ghost t0: seq<Action>)
    returns (r: Result<Resource, Error>)
    requires w.Valid() && pdrive != "" && latest.Some? && AwaitsDrive(w, inst, pdrive)
    requires !HasNoneSnapshotId(ms) && DistinctDevices(ms) && SnapshotsKnown(ms, ss0)
    requires w.volumes == vs0 + LaunchedVolumes(ms, n0 + 1, n0, zone, ss0)
    requires w.volumes[|w.volumes| - 1].id == n0 + |ms|
    requires w.volumes[|w.volumes| - 1].formatted == RestoredFormatted(SnapId(latest), ss0)
    requires inst == NewInstance(n0, ms, zone, name)
    requires w.instances == ins0 + [inst] && Matching(w.instances, Some(name)) == [inst] && w.snapshots == ss0
    requires w.host == Host(n0, User, false, false, "", None, false)
    requires w.trace == t0 + [LaunchRequested(ms), TagsCreated(n0, NameKey, name)]
    modifies w
    ensures w.Valid()
    ensures Created(r, ins0, w.instances, vs0, w.volumes, ss0, w.snapshots, n0, t0, w.trace, w.host, w.host,
                    ms, latest, pdrive, name, zone)
  {
    ghost var h1, vs1 := w.host, w.volumes;
    r := PreparePdrive(w, inst, pdrive, RestoredFormatted(SnapId(latest), ss0));
    CreatedFromSnapshot(r, ins0, w.instances, vs0, w.volumes, ss0, w.snapshots, n0, t0, w.trace, h1, w.host, vs1,
                        ms, latest, pdrive, name, zone);
  }

  /**
   * The pdrive half of create on the volume its launch restored, which has
   * a filesystem exactly when `restored`: name it, mount it (no format, as
   * a snapshot was found), install docker without starting it. The mount
   * fails when there is no filesystem, and then nothing follows it.
   */
  method PreparePdrive(w: World, inst: Resource, pdrive: string, ghost restored: bool)
    returns (r: Result<Resource, Error>)
    requires w.Valid() && AwaitsDrive(w, inst, pdrive)
    requires w.volumes[|w.volumes| - 1].formatted == restored
    modifies w
    ensures w.Valid()
    ensures w.instances == old(w.instances) && w.snapshots == old(w.snapshots)
    ensures (r.Ok? <==> restored) && DriveAttachedTo(w.volumes, pdrive, inst)
    ensures var v := old(w.volumes)[|old(w.volumes)| - 1];
      w.volumes == old(w.volumes)[..|old(w.volumes)| - 1] + [NamedDrive(v, pdrive, false)]
    ensures r.Err? ==>
      r.error == CommandFailed(MountCmd) && w.host == old(w.host) &&
      w.trace == old(w.trace) + [TagsCreated(old(w.volumes)[|old(w.volumes)| - 1].id, NameKey, pdrive),
                                 Ran(MkdirCmd), Ran(MountCmd)]
    ensures r.Ok? ==>
      r == Ok(inst) && w.host == old(w.host).(mounted := true, owner := User) &&
      w.trace == old(w.trace) + [TagsCreated(old(w.volumes)[|old(w.volumes)| - 1].id, NameKey, pdrive),
                                 Ran(MkdirCmd), Ran(MountCmd), Ran(ChownCmd(User)), DockerInstalled]
  {
    ghost var v := w.volumes[|w.volumes| - 1];
    ghost var t1 := w.trace;
    NameAndFormat(w, inst, pdrive, false);
    ghost var t2 := w.trace;
    var p := new Pdrive(pdrive);
    var mounted := p.Mount(w);
    if mounted.Err? {
      MountFailedTrace(t1, t2, w.trace, v.id, pdrive, false, v.formatted);
      return Err(mounted.error);
    }
    ghost var t3 := w.trace;
    w.InstallDocker();
    r := Ok(inst);
    MountedTrace(t1, t2, t3, w.trace, v.id, pdrive);
  }

  /** The trace of naming the restored pdrive, mounting it and installing docker. */
  lemma MountedTrace(t1: seq<Action>, t2: seq<Action>, t3: seq<Action>, t4: seq<Action>, vid: Id, pdrive: string)
    requires t2 == t1 + [TagsCreated(vid, NameKey, pdrive)] + (if false then FormatSteps(false) else [])
    requires t3 == t2 + [Ran(MkdirCmd), Ran(MountCmd), Ran(ChownCmd(User))] && t4 == t3 + [DockerInstalled]
    ensures t4 == t1 + [TagsCreated(vid, NameKey, pdrive), Ran(MkdirCmd), Ran(MountCmd), Ran(ChownCmd(User)),
                        DockerInstalled]
  {
  }

  lemma CreatedFromSnapshot(r: Result<Resource, Error>, ins0: seq<Resource>, ins: seq<Resource>,
                            vs0: seq<Resource>, vs: seq<Resource>, ss0: seq<Resource>, ss: seq<Resource>,
                            n0: Id, t0: seq<Action>, t: seq<Action>, h1: Host, h: Host, vs1: seq<Resource>,
                            ms: seq<Mapping>, latest: Option<Resource>, pdrive: string, name: string, zone: string)
    requires pdrive != "" && latest.Some?
    requires !HasNoneSnapshotId(ms) && DistinctDevices(ms) && SnapshotsKnown(ms, ss0)
    requires ins == ins0 + [NewInstance(n0, ms, zone, name)] && ss == ss0
    requires Matching(ins, Some(name)) == [NewInstance(n0, ms, zone, name)]
    requires h1 == Host(n0, User, false, false, "", None, false)
    requires (r.Ok? <==> RestoredFormatted(SnapId(latest), ss0))
    requires vs1 == vs0 + LaunchedVolumes(ms, n0 + 1, n0, zone, ss0) && |vs1| > 0 && vs1[|vs1| - 1].id == n0 + |ms|
    requires vs == vs1[..|vs1| - 1] + [NamedDrive(vs1[|vs1| - 1], pdrive, false)]
    requires DriveAttachedTo(vs, pdrive, NewInstance(n0, ms, zone, name))
    requires r.Err? ==>
      r.error == CommandFailed(MountCmd) && h == h1 &&
      t == t0 + [LaunchRequested(ms), TagsCreated(n0, NameKey, name)] +
           [TagsCreated(vs1[|vs1| - 1].id, NameKey, pdrive), Ran(MkdirCmd), Ran(MountCmd)]
    requires r.Ok? ==>
      r == Ok(NewInstance(n0, ms, zone, name)) && h == h1.(mounted := true, owner := User) &&
      t == t0 + [LaunchRequested(ms), TagsCreated(n0, NameKey, name)] +
           [TagsCreated(vs1[|vs1| - 1].id, NameKey, pdrive), Ran(MkdirCmd), Ran(MountCmd), Ran(ChownCmd(User)), DockerInstalled]
    ensures Created(r, ins0, ins, vs0, vs, ss0, ss, n0, t0, t, h, h, ms, latest, pdrive, name, zone)
  {
  }

  // ----- terminate -----

  /**
   * What a terminate that found its instance `inst` and pdrive `dn` leaves,
   * given the state before: docker stopped and /v1 unmounted, the instance
   * terminated (its name kept), and a snapshot of the pdrive's one volume,
   * which stays in the volume table, released from the instance when the
   * provider has done so by then (`released`). With no
   * volume or several carrying the pdrive's name, the snapshot fails.
   */
  ghost predicate Terminated(r: Result<(), Error>, released: bool, inst: Resource, dn: string,
                             ins0: seq<Resource>, ins: seq<Resource>, vs0: seq<Resource>, vs: seq<Resource>,
                             ss0: seq<Resource>, ss: seq<Resource>, n0: Id, clock0: int,
                             t0: seq<Action>, t: seq<Action>, h0: Host, h: Host)
  {
    var h1 := h0.(dockerRunning := false);
    var vs1 := AfterTermination(vs0, inst.id, released);
    var found := Matching(vs1, Some(dn));
    var ended := t0 + [DockerStopped] + UnmountSteps(h1) + [InstanceTerminated(inst.id)];
    ins == Stopped(ins0, inst.id) && vs == vs1 && h == AfterUnmount(h1) &&
    (|found| >= 2 ==> r == Err(MoreThanOne(found)) && ss == ss0 && t == ended) &&
    (found == [] ==> r == Err(AttributeError("id")) && ss == ss0 && t == ended) &&
    (|found| == 1 ==>
       r.Ok? && ss == ss0 + [SnapshotFor(n0, clock0, found[0], dn)] &&
       t == ended + SnapshotSteps(found[0], true, n0, dn))
  }

  /**
   * terminate(instance): stop docker, find the pdrive, unmount, terminate
   * the instance and snapshot the pdrive. Each failure stops the sequence
   * where it happens, keeping what was done before it.
   */
  method Terminate(w: World, instance: InstanceArg, released: bool) returns (r: Result<(), Error>)
    requires w.Valid() && (instance.Given? ==> instance.inst in w.instances)
    modifies w
    ensures w.Valid()
    ensures TerminateTarget(old(w.instances), old(w.volumes), old(w.snapshots), instance).Err? ==>
      r == Err(TerminateTarget(old(w.instances), old(w.volumes), old(w.snapshots), instance).error) &&
      w.TablesUnchanged() && w.host == old(w.host) && w.trace == old(w.trace)
    ensures var t := TerminateTarget(old(w.instances), old(w.volumes), old(w.snapshots), instance);
      t.Ok? && DriveOfTarget(old(w.volumes), t.value, "pdrive").Err? ==>
      r == Err(DriveOfTarget(old(w.volumes), t.value, "pdrive").error) && w.TablesUnchanged() &&
      w.host == old(w.host).(dockerRunning := false) && w.trace == old(w.trace) + [DockerStopped]
    ensures var t := TerminateTarget(old(w.instances), old(w.volumes), old(w.snapshots), instance);
      t.Ok? && DriveOfTarget(old(w.volumes), t.value, "pdrive").Ok? ==>
      var d := DriveOfTarget(old(w.volumes), t.value, "pdrive").value;
      Terminated(r, released, d.0, d.1, old(w.instances), w.instances, old(w.volumes), w.volumes,
                 old(w.snapshots), w.snapshots, old(w.nextId), old(w.clock), old(w.trace), w.trace, old(w.host), w.host)
  {
    var found := StopAndFind(w, instance, "pdrive");
    if found.Err? {
      return Err(found.error);
    }
    var (inst, dn) := found.value;
    var drive := new Drive(dn);
    drive.Unmount(w);
    w.TerminateInstance(inst, released);
    r := drive.CreateSnapshot(w);
  }
}
