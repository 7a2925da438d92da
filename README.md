# xdrive: persistent drives for spot instances, modelled in Dafny

xdrive keeps a data drive alive across short-lived cloud instances. A drive
has no state of its own except its name. Between sessions it lives as
snapshots carrying that name as their `Name` tag. While it is in use, it is
the one volume carrying the name, attached to an instance at `/dev/xvdf`
and mounted at `/v1`. Docker's folder can be moved onto it.

This project models three layers of the repository:

- the tag helpers and the name-based resource lookup `get` of
  `xdrive/aws.py`;
- the drive class in two revisions: `Drive` in `xdrive/drive.py` and the
  earlier `Pdrive` in `pdrive.py`;
- the instance lifecycle in three revisions: `create`, `create_spot` and
  `terminate` of `xdrive/server.py`, `server.py` and `itools.py`. The model
  also covers `get_tasks` of `xdrive/server.py`.

## How the model is built

- **The world.** The cloud provider and the remote machine are one object,
  `Cloud.World`. It holds:
  - the instance, volume and snapshot tables, as sequences in listing order;
  - an id counter and a snapshot clock;
  - the record of the machine the remote channel addresses (`Host`:
    target, user, whether `/v1` is mounted or busy, its owner, docker's
    folder, whether docker runs);
  - `trace`, the ordered list of every provider request and remote command
    issued.

  Ordering promises ("terminate before snapshot", "unmount before detach")
  are stated on `trace`.
- **Provider and commands.** Each provider call the code makes
  (`create_instances`, `create_volume`, `create_tags`, `attach_volume`,
  `detach_from_instance`, `create_snapshot`, `delete`, `terminate`) is a
  `World` method. Each has its refusals:
  - `ParamValidation` for a `SnapshotId` of None;
  - `InvalidBlockDeviceMapping` for a device named twice;
  - `IncorrectState` for a stopped instance;
  - `VolumeInUse`.

  Remote commands (`blkid`, `mkfs`, `mount`, `umount`, `fuser -km`,
  `chown`, the docker installers) are `World` methods on `Host`.
- **Waits.** Waiters and polling loops (`wait_until_running`, the address
  and ssh loops, the volume waiters) become postconditions: the state they
  wait for holds when the call returns.
- **Exceptions.** Python exceptions are `Result` values with an `Error`
  datatype that names each one. Steps done before a raise stay done.
- **Drive classes.** `Drive` and `Pdrive` are classes with a constant
  `name`. Their methods take the world and state the whole new state.
- **Launch spec.** The launch spec dictionary is a class, `LaunchSpec`. Its
  `BlockDeviceMappings` list is a separate heap object, `MappingList`.
  `dict.copy()` therefore shares the list, as in Python, while
  `copy.deepcopy` does not.
- **Central property.** The naming invariant: a unique lookup of a name
  succeeds exactly when at most one resource of the table carries the name.
  This is `Directory.AtMostOneIffLookupUnique`, and the drive methods
  preserve it.

## Model

| member | source | states |
|---|---|---|
| `Tags.GetTags` | xdrive/aws.py:23-26 | an untagged resource (`tags` None) gives the empty dictionary |
| `Tags.TagMapKeys` | xdrive/aws.py:26 | the comprehension's dictionary has exactly the keys of the Key/Value list |
| `Tags.TagMapLast` | xdrive/aws.py:26 | for a repeated key the dictionary keeps the value of the key's last pair |
| `Tags.GetTagsOfPairs` | xdrive/aws.py:23-26 | get_tags holds exactly the keys of the pairs, each mapped to the value of its last pair |
| `Tags.GetTagOfPairs` | xdrive/aws.py:28-30 | get_tag is "" for a key no pair carries, otherwise the value of that key's last pair |
| `Tags.GetNameOfPairs` | xdrive/aws.py:36-38 | get_name is "" for an unnamed resource, otherwise the value of its last Name pair |
| `Tags.WithoutKeyMap` | xdrive/aws.py:32-34 | dropping every pair of a key removes that key from the dictionary and nothing else |
| `Tags.SetTagThenGetTags` | xdrive/aws.py:32-34 | after set_tag(k, v), get_tags is the old dictionary with k mapped to v |
| `Tags.SetNameThenGetName` | xdrive/aws.py:40-42 | after set_name(v), get_name gives v and every other tag keeps its value |
| `Directory.Matching` | xdrive/aws.py:65-66 | the filter keeps exactly the resources whose name matches (all of them when no name is given) and never grows the list |
| `Directory.GatherMembers` | xdrive/aws.py:57-66 | `reslist` holds exactly the matching resources of the searched collections |
| `Directory.GatherDefault` | xdrive/aws.py:52-53 | collections=None searches instances, then volumes, then snapshots |
| `Directory.GatherSingle` | xdrive/aws.py:54-55 | a single collection is searched as a one-element list |
| `Directory.GatherEverything` | xdrive/aws.py:65 | name=None returns every resource of the searched collections |
| `Directory.Get` | xdrive/aws.py:44-74 | no match gives None; with unique, one match gives it and two or more raise; without unique, every match in collection order |
| `Directory.SetTag` | xdrive/aws.py:32-34 | create_tags on the resource's own table retags that resource only and adds one provider request |
| `Directory.SetName` | xdrive/aws.py:40-42 | set_name is set_tag with the Name key |
| `Directory.AtMostOneIffLookupUnique` | xdrive/aws.py:68-73 | at most one entry carries a name if and only if the name's matches number at most one, so a unique lookup of it cannot raise |
| `Directory.TwoNamedVolumesBreakLookup` | xdrive/aws.py:70-73 | once two volumes carry a name, every unique lookup of it among volumes finds two or more matches and raises |
| `Directory.AtMostOneSameNames` | xdrive/aws.py:65-66 | an update that keeps every entry's name keeps the naming invariant, in both directions |
| `Directory.NameFreshEntry` | xdrive/aws.py:40-42 | naming a new entry with a name nobody carried makes it the only entry with that name |
| `Directory.RemoveSoleNamed` | xdrive/drive.py:142-148 | once the only volume with a name is deleted, no volume carries the name |
| `Lifecycle.LookupIn` | xdrive/drive.py:47 | get(name, collections=c) on one table: None, the sole match, or the more-than-one error |
| `Lifecycle.LookupAllIn` | xdrive/drive.py:155-156 | get with unique=False on one table: every match, in order |
| `Lifecycle.LatestIndex` | xdrive/drive.py:157-160 | the chosen snapshot has the greatest start time, and every earlier one has a smaller one (the stable reverse sort puts the first of the latest first) |
| `Lifecycle.LatestIndexUnique` | xdrive/drive.py:157-160 | latest, and first among the latest, determine the snapshot uniquely |
| `Lifecycle.NamedSnapshots` | xdrive/drive.py:155-156 | the snapshots found are snapshots of the table, each carrying the drive's name |
| `Lifecycle.ResolveIn` | xdrive/drive.py:41-44 | a name is looked up among instances; an unknown name fails reading `public_ip_address` of None; an object is taken as it is |
| `Lifecycle.ResolvedIsListed` | xdrive/drive.py:41-42 | a resolved instance is one of the table's instances |
| `Lifecycle.SoleMatchMoves` | xdrive/drive.py:120-131 | after an update that keeps names, the entry that was the only one named n still is |
| `XDrive.Drive.Connect` | xdrive/drive.py:15-19 | the exact new tables, host and trace: attach as ec2-user (any refusal stops there), then formatdisk, which cannot fail on the attached device and formats it only when blank, then mount, which fails iff /v1 is already mounted on the machine reached (`there` when the channel moved); on success the drive's one volume is attached, formatted and mounted at /v1 for ec2-user; the naming invariant is kept |
| `XDrive.Drive.FormatAndMount` | xdrive/drive.py:17-18 | on an attached device: formatdisk always succeeds and formats only a blank device; mount then fails iff /v1 is mounted; exact host, volume table and trace in both cases |
| `XDrive.ConnectOutcome` | xdrive/drive.py:15-85 | connect succeeds iff the instance runs, the drive's one volume is in its zone (or, with none, a snapshot carries the name), /dev/xvdf is free and /v1 is free; more than one volume, a zone mismatch and no volume nor snapshot give their errors with nothing changed; every error is one of those, the provider's attach refusal or the failed mount |
| `XDrive.Drive.Disconnect` | xdrive/drive.py:21-35 | fetch daemon.json, stop docker when its folder is under /v1, unmount, detach, snapshot iff save, delete, in that order; on success no volume carries the name and exactly one new snapshot does iff save; the machine afterwards is the unmount's, so with nothing mounted at /v1 the forced unmount stops docker wherever its folder is |
| `XDrive.Drive.Release` | xdrive/drive.py:32-35 | detach, snapshot iff save, delete: the volume is gone and the named snapshots grow by the saved one |
| `XDrive.Drive.Attach` | xdrive/drive.py:39-85 | resolve and address the instance (the machine's state is `there` when the channel moves to another one); reuse the named volume (zone checked, detached first when attached) or restore one from the latest snapshot; on success the volume is the only one with the name, attached at /dev/xvdf; a refused attach_volume is IncorrectState on a stopped instance and InvalidParameterValue when /dev/xvdf is taken |
| `XDrive.Drive.AttachTo` | xdrive/drive.py:47-76 | each outcome of the volume lookup: more than one, wrong zone, reuse, or restore |
| `XDrive.Drive.AttachRestored` | xdrive/drive.py:56-76 | with no volume, a volume from the latest snapshot is created, named and attached; no snapshot raises and changes nothing |
| `XDrive.Drive.AttachNamed` | xdrive/drive.py:68-76 | an attached volume is detached first; the attach succeeds iff the instance runs and its /dev/xvdf is free |
| `XDrive.Drive.Restore` | xdrive/drive.py:56-66 | the new volume comes from the latest snapshot with the name, in the instance's zone, and becomes the only volume with the name |
| `XDrive.Drive.RestoreFrom` | xdrive/drive.py:61-66 | create_volume from the snapshot, then set_name: one new volume, named like the drive |
| `XDrive.Drive.FormatDisk` | xdrive/drive.py:87-97 | blkid first; mkfs only on a blank device; fails iff no device is attached; afterwards the device is formatted |
| `XDrive.Drive.FormatDiskTwice` | xdrive/drive.py:87-97 | formatdisk is idempotent: the second call only runs blkid |
| `XDrive.Drive.Mount` | xdrive/drive.py:99-104 | mkdir, mount, chown to the login user; fails iff the device has no filesystem or /v1 is mounted |
| `XDrive.Drive.Unmount` | xdrive/drive.py:106-118 | umount, and fuser -km only when umount fails; with /v1 mounted fuser kills what holds it, with nothing mounted it kills the root filesystem's users, docker included; never raises; tables unchanged |
| `XDrive.BusyUnmountStaysMounted` | xdrive/drive.py:113-117 | with /v1 busy, unmount as written ends with /v1 still mounted |
| `XDrive.UnmountedFuserStopsDocker` | xdrive/drive.py:107-117 | with nothing mounted at /v1 and docker running, unmount as written runs fuser and leaves docker stopped; the corrected unmount issues umount alone and changes nothing |
| `XDrive.Drive.UnmountRetry` | xdrive/drive.py:106-118 | the corrected unmount always ends with /v1 unmounted and free, forcing only a mounted /v1, so docker keeps running unless it held the drive |
| `XDrive.Drive.Detach` | xdrive/drive.py:120-131 | no volume raises; detach is requested only for an attached volume; afterwards the volume has no attachment and is still the only one with the name |
| `XDrive.Drive.CreateSnapshot` | xdrive/drive.py:133-140 | one new snapshot of the drive's volume, named like the drive; no volume fails reading `id` of None |
| `XDrive.Drive.SnapshotVolume` | xdrive/drive.py:135-136 | create_snapshot then set_name on the found volume |
| `XDrive.Drive.DeleteVolume` | xdrive/drive.py:142-148 | the volume is removed unless it is attached (VolumeInUse); no volume fails reading `delete` of None |
| `XDrive.Drive.LatestSnapshot` | xdrive/drive.py:150-161 | raises while a volume carries the name; otherwise the newest snapshot with the name, or None iff there is none |
| `PDrive.Pdrive.Connect` | pdrive.py:19-23 | as Drive's connect: the same exact tables, host and trace, with /v1 handed to config.py's user and the machine moved to described by `there` |
| `PDrive.Pdrive.FormatAndMount` | pdrive.py:21-22 | as Drive's, with /v1 handed to config.py's user |
| `PDrive.Pdrive.Disconnect` | pdrive.py:25-37 | as Drive's disconnect, except that an unattached volume stops it with an IndexError after the unmount; the machine afterwards is the unmount's, as for Drive |
| `PDrive.Pdrive.Release` | pdrive.py:34-37 | detach, snapshot iff save, delete; an unattached volume raises IndexError and nothing is saved or deleted |
| `PDrive.Pdrive.Attach` | pdrive.py:41-86 | as Drive's attach, logged in as config.py's user; the machine moved to is described by `there` |
| `PDrive.Pdrive.Mount` | pdrive.py:100-105 | mkdir, mount, chown to config.py's user |
| `PDrive.Pdrive.Detach` | pdrive.py:121-130 | no volume raises; an unattached volume raises IndexError; otherwise a forced detach from its first attachment |
| `Launch.LaunchSpec.constructor` | config.py:24-29 | the base spec: AMI, type, security group "simon", key "key", MinCount and MaxCount 1, a mapping list |
| `Launch.LaunchSpec.Copy` | itools.py:51 | dict.copy(): a new dictionary sharing the same mapping list |
| `Launch.LaunchSpec.DeepCopy` | server.py:33 | copy.deepcopy: a new dictionary with its own list holding the same mappings |
| `Launch.LaunchSpec.Update` | server.py:43-44 | update sets InstanceType and ImageId and nothing else |
| `Launch.LaunchSpec.DeleteCounts` | xdrive/server.py:129-130 | del MinCount then MaxCount; a missing key raises KeyError and keeps any deletion before it |
| `Launch.MappingList.Append` | xdrive/server.py:60 | append adds the mapping at the end of the shared list |
| `Launch.DriveMapping` | xdrive/server.py:65-72 | the /dev/xvdf mapping: gp2, the drive's size, DeleteOnTermination False, SnapshotId set iff a snapshot was found (or always, in itools.py) |
| `Launch.CreateMappingsShape` | xdrive/server.py:55-73 | one /dev/xvda mapping iff a boot size is given, one /dev/xvdf mapping iff a drive is named, all devices distinct, and no SnapshotId of None |
| `Launch.CreateSpot` | xdrive/server.py:126-154 | MinCount and MaxCount are deleted (KeyError if missing) and the fulfilled request is a launched instance |
| `Launch.CreateInstances` | xdrive/server.py:79 | create_instances(**spec)[0]: the provider's refusals, or one running instance with one new volume per mapping |
| `Launch.LaunchEither` | xdrive/server.py:76-79 | spot request or on-demand launch, as `spot` says |
| `Launch.LaunchAndName` | xdrive/server.py:75-93 | the launch succeeds iff the mappings are valid; then the instance is named and is the only instance with the name, and the remote channel addresses it |
| `Launch.NameLaunched` | xdrive/server.py:80-92 | set_name on the new instance, then the channel points at it |
| `Launch.FirstAtFinds` | xdrive/server.py:98-102 | the loop finds nothing iff no mapping is at the device, and otherwise the first one |
| `Launch.FindDriveVolume` | xdrive/server.py:98-102 | the loop with `break` returns the volume of the first /dev/xvdf mapping |
| `Launch.VolumeById` | xdrive/server.py:100 | aws.ec2.Volume(id): the volume with that id, or none when no such volume exists |
| `Launch.NameDriveVolume` | xdrive/server.py:97-102 | only the volume of the first /dev/xvdf mapping is renamed |
| `Launch.CreateMappingsKnown` | xdrive/server.py:68-70 | the only snapshot id the mappings name is the latest snapshot's, which the provider knows |
| `Launch.LaunchLeavesDriveWaiting` | xdrive/server.py:63-79 | after the launch the drive's volume is the newest, unnamed, attached at /dev/xvdf, formatted iff its snapshot was, and no other volume has the drive's name |
| `Launch.NameAndFormat` | xdrive/server.py:96-105 | the drive's volume is named and formatted only when new; it is then the only volume with that name, attached to the instance |
| `Launch.NameWaiting` | xdrive/server.py:97-102 | naming the waiting volume changes that volume alone and keeps its slot |
| `Launch.MountFailedTrace` | xdrive/server.py:101-106 | when the mount fails, the steps taken are the naming, the mkdir and the mount and nothing else |
| `Launch.NamedDriveFacts` | xdrive/server.py:96-106 | the named volume is the only one with the name, attached to the instance, and the device is formatted iff it was new or restored formatted |
| `Launch.FormatWhen` | xdrive/server.py:104-105 | formatdisk runs only when there was no snapshot |
| `Launch.ResolveTarget` | xdrive/server.py:171-172 | a name is looked up uniquely across instances, volumes and snapshots |
| `Launch.StopAndFind` | xdrive/server.py:169-181 | a failed lookup stops before docker; then docker stops and the drive is found from the first /dev/xvdf mapping (unbound variable without one) |
| `Launch.TargetListed` | xdrive/server.py:171-172 | an instance found by the lookup is an instance of the table |
| `Cloud.World.TerminateInstance` | xdrive/server.py:185-193 | the instance stops; its volumes kept on termination stay in the table, released from it only when `released` says the provider has done so by the time the call returns |
| `Cloud.World.Address` | xdrive/drive.py:44-45 | the channel addresses the instance as the user; staying keeps the machine's state, moving takes the state of the machine moved to from `there` |
| `Cloud.World.InstallDocker` | xdrive/server.py:113 | one install step in the trace; the host record, and so whether docker runs, is unchanged |
| `Cloud.World.Fuser` | xdrive/drive.py:114 | fuser -km /v1 unmounts nothing; with /v1 mounted it kills the busy holder and docker when its graph is under /v1, leaving docker otherwise as it was; with nothing mounted it kills the root filesystem's users, docker included; it succeeds iff it found a process |
| `Launch.MatchingReleaseFrom` | xdrive/server.py:185-186 | the volumes named n after a termination are the earlier ones named n, with their attachments to that instance dropped |
| `Launch.TerminateReleasesDrive` | xdrive/server.py:185-193 | the drive's volume survives termination, still the only one with its name; unattached, with nothing left to detach, iff the provider has released it, otherwise unchanged and still attached, with the detach request due |
| `XServer.TakenNameRefused` | xdrive/server.py:42-43 | a name already carried by an instance refuses create with "already exists" (or the lookup's own error) |
| `XServer.FormatOnlyWhenFresh` | xdrive/server.py:103-106 | mkfs is issued iff the drive had no snapshot; mount always is |
| `XServer.BuildSpec` | xdrive/server.py:44-73 | a fresh spec with itype's type and AMI and exactly the boot and drive mappings; KeyError for a missing itype; the latest-snapshot errors |
| `XServer.PrepareDrive` | xdrive/server.py:95-114 | name, format when new, mount, install docker, move its folder to /v1 (which starts docker); only the mount can fail, and then the volume is named, the host unchanged and nothing follows the mount |
| `XServer.PrepareLaunched` | xdrive/server.py:95-114 | prepare on a volume the launch restored: fails iff it was restored without a filesystem; the last volume is named (formatted when new) either way |
| `XServer.PrepareTrace` | xdrive/server.py:96-114 | the commands of the drive preparation, in order |
| `XServer.Create` | xdrive/server.py:32-124 | a refused create changes nothing; otherwise one new instance, the only one with the name, the launch's volumes added, and with a drive the last of them named (formatted only when new) and the only one with the drive's name, attached, then mounted and holding docker's folder, or, when the mount fails, the host as the launch left it and the trace ending at the mount |
| `XServer.LaunchWithDrive` | xdrive/server.py:75-114 | the rest of create after the spec is built |
| `XServer.LaunchDrive` | xdrive/server.py:75-114 | the launch with a drive leaves the drive waiting, then prepares it |
| `XServer.DriveLaunched` | xdrive/server.py:95-114 | the drive preparation on the just-launched instance |
| `XServer.CreatedWithDrive` | xdrive/server.py:32-124 | the step results combine into the outcome create promises |
| `XServer.Terminate` | xdrive/server.py:169-194 | stop docker, unmount, terminate, clear the instance's name, snapshot iff save, detach, delete, each failure stopping there; the volumes are released by the termination only when `released` says the provider has let them go; on success the drive's volume is gone and its snapshot kept iff save |
| `XServer.DetachOnlyWhenUnreleased` | xdrive/server.py:185-194 | for the drive as a launch leaves it, terminate deletes it whatever the provider's timing, and requests the detach exactly when the provider has not yet released it |
| `XServer.TailHolds` | xdrive/server.py:183-194 | an action absent from the other steps of terminate's trace appears after its start iff it is among the detach steps |
| `XServer.UnmountTerminateRename` | xdrive/server.py:183-187 | unmount, terminate, then clear the name: the instance stopped and unnamed, its volumes released iff `released`, /v1 handled as unmount leaves it |
| `XServer.SaveDetachDelete` | xdrive/server.py:190-194 | snapshot iff save, then detach and delete, each through the drive's unique lookup |
| `XServer.LStripSlash` | xdrive/server.py:206 | lstrip("/") drops exactly the leading slashes |
| `XServer.Stripped` | xdrive/server.py:205-206 | one stripped name per container name, in order |
| `XServer.Grep` | xdrive/server.py:210-211 | `grep target \|\| true` keeps exactly the lines holding the target as a literal substring |
| `XServer.TaskRows` | xdrive/server.py:207-215 | the two columns of the table have the same length |
| `XServer.TaskRowsSound` | xdrive/server.py:207-215 | every row pairs a listed container with one of its own lines holding the target |
| `XServer.TaskRowsComplete` | xdrive/server.py:207-215 | every line holding the target, of every listed container, has a row |
| `XServer.AppendTasks` | xdrive/server.py:212-214 | the inner loop adds one row per task, container name repeated |
| `XServer.BuildRows` | xdrive/server.py:207-214 | the outer loop builds the table container by container |
| `XServer.GetTasks` | xdrive/server.py:196-216 | None iff the container listing fails (docker is not running or no container runs); otherwise the task table of the names with their leading slashes stripped |
| `Server.NvidiaOnlyForGpu` | server.py:82-84 | nvidia-docker is installed for the gpu type and no other, after docker |
| `Server.FormatOnlyWhenNew` | server.py:95-98 | mkfs is issued iff the pdrive had no snapshot; mount always is |
| `Server.BuildSpec` | server.py:33-56 | a deep copy of the base spec, so the base is untouched; itype's type and AMI; the boot and pdrive mappings |
| `Server.Create` | server.py:17-103 | as the later create, with docker installed (not started) before the pdrive is prepared and the default docker folder without a pdrive; the volume table and the failed-mount host and trace as the later create states them; the base spec's list stays empty |
| `Server.CreateUnderFreeName` | server.py:31-103 | with the name free: a refused spec changes nothing, otherwise the outcome create promises |
| `Server.LaunchWithPdrive` | server.py:58-101 | the rest of create after the spec is built |
| `Server.LaunchPlain` | server.py:58-85 | without a pdrive: launch, name, docker, default docker folder |
| `Server.LaunchPdrive` | server.py:58-99 | with a pdrive: launch, name, docker, then the pdrive prepared |
| `Server.PdriveAfterLaunch` | server.py:87-99 | from the launched, named instance with docker stopped: docker installed without starting it, then the pdrive prepared, giving the outcome create promises |
| `Server.InstallDockerFor` | server.py:82-84 | install_docker, and install_nvidia_docker for the gpu type; the host record is unchanged, docker not started |
| `Server.PdriveLaunched` | server.py:87-99 | the pdrive preparation on the just-launched instance |
| `Server.PreparePdrive` | server.py:87-99 | name, format when new, mount, docker folder on /v1; only the mount can fail, and then the volume is named, the host unchanged and nothing follows the mount |
| `Server.PdriveTrace` | server.py:87-99 | the naming, the format of a blank volume, the mount and the docker folder steps add up to the pdrive preparation steps |
| `Server.CreatedWithPdrive` | server.py:17-103 | the step results combine into the outcome create promises |
| `Server.Terminate` | server.py:149-176 | stop docker, unmount, clear the name, terminate, snapshot iff save, delete without a detach (VolumeInUse when still attached, which includes an instance the provider has not yet released) |
| `Server.DeleteNeedsRelease` | server.py:163-176 | for the pdrive as a launch leaves it, terminate succeeds iff the provider has released the volume by the delete; otherwise VolumeInUse and the volume stays |
| `Server.UnmountRenameTerminate` | server.py:163-170 | unmount, set_name "", terminate, in that order; the drive's volume is released iff `released` |
| `Server.SaveDelete` | server.py:173-176 | snapshot iff save, then delete_volume |
| `ITools.TakenNameIsTypeError` | itools.py:46-47 | a taken name stops create with a TypeError, never with the intended message |
| `ITools.FreshPdriveRejected` | itools.py:64-73 | a pdrive without a snapshot gets SnapshotId None, which the launch refuses |
| `ITools.RepeatedBootRejected` | itools.py:51-58 | once a boot mapping sits in the shared list, every later create with a boot size names /dev/xvda twice |
| `ITools.BuildSpec` | itools.py:51-73 | the shallow copy's appends land in the base spec's own list, even when a missing itype stops create |
| `ITools.Create` | itools.py:34-113 | refusals, then a launch with the base list's accumulated mappings; with a pdrive the launch succeeds only from a snapshot; the launch's last volume is named, then mounted, then docker installed (not started); a failed mount leaves the host as the launch left it |
| `ITools.LaunchPrepared` | itools.py:75-113 | the rest of create after the spec is built |
| `ITools.LaunchPlain` | itools.py:75-111 | without a pdrive: launch, name, install docker |
| `ITools.LaunchPdrive` | itools.py:75-111 | with a pdrive: launch and name; on success prepare the restored volume |
| `ITools.PdriveAfterLaunch` | itools.py:96-111 | a pdrive launch that succeeded came from a snapshot |
| `ITools.PdriveLaunched` | itools.py:96-111 | the pdrive preparation on the just-launched instance |
| `ITools.PreparePdrive` | itools.py:96-111 | name and mount the restored pdrive (no format), then install docker without starting it; the mount fails iff it has no filesystem, and then nothing follows it |
| `ITools.MountedTrace` | itools.py:96-111 | the naming, mount and docker install steps add up to the restored pdrive's preparation steps |
| `ITools.CreatedFromSnapshot` | itools.py:34-113 | the step results combine into the outcome create promises |
| `ITools.Terminate` | itools.py:165-185 | stop docker, unmount, terminate, always snapshot; the name and the pdrive's volume are kept, released from the instance iff `released` |

## Left out

- Logging, `pandas` (the task table is a pair of columns), `pyperclip`,
  reading `config.yaml`, the `_creds` upload, and `fab.put` of
  `.logconfig.yaml` are left out. They change nothing the model tracks.
- `apps.install_docker`, `install_nvidia_docker`, `set_docker_folder` and
  `stop_docker` are single abstract steps on the host record. Their own
  command sequences belong to `xdrive/apps.py` and `apps.py`, which are not
  part of this model. In `xdrive/server.py` create, the failure of
  `install_nvidia_docker` is swallowed; that step is left out.
- Waits and polls (waiters, `wait_until_running`, the address loop,
  `wait_ssh`, the `ls -l /dev/xvdf` loop) are postconditions. A wait that
  never ends is not modelled.
- Timing: the provider and the commands are deterministic given the world
  state. The availability zone of a launch is a parameter, and snapshot
  start times come from a counter. Concurrency with other users of the
  account is not modelled.
- The `OwnerIds=["self"]` filter of `get` is assumed to leave each table
  as it is: the tables hold only the account's own resources.
- Fabric aborts on a failed remote command outside `quiet()`. The model
  reports that abort as `CommandFailed`, so the "format failed" raise of
  formatdisk is never reached: mkfs has already aborted.
- `formatdisk`, `unmount`, `create_snapshot`, `delete_volume` and
  `latest_snapshot` of `Pdrive` (pdrive.py:88-98, 107-119, 132-139,
  141-147, 149-160) are the same statements as `Drive`'s. The model runs
  them through an `XDrive.Drive` of the same name, so the `XDrive.Drive`
  rows stand for both.
- `Pdrive.create_kaggle` (pdrive.py:162-169) is left out. It takes no
  `self`, so it cannot be called on a Pdrive, and it only runs shell
  commands of an external tool.
- Python's `None` for the drive argument is the empty string `""`. In
  `server.py` and `itools.py`, `Pdrive("")` would be a truthy object and
  would launch a drive named ""; the model treats "" as no drive there
  too.
- `create_spot` of `server.py` (105-134) and `itools.py` (115-137) differs
  from `xdrive/server.py`'s only in the spot price and the retry around
  the waiter. `Launch.CreateSpot` models all three. The spot price is not
  modelled.
- The root `aws.py` has no `get`, `get_name`, `set_name` or `client`,
  which `server.py`, `itools.py` and `pdrive.py` call. The model uses the
  `xdrive/aws.py` versions for them.
- `Cloud.World.Fuser` and `XDrive.Drive.Unmount`, with nothing mounted at
  /v1, take /v1 to exist, as every mount creates it first; on a machine
  where it was never created fuser fails and kills nothing. The ssh
  sessions fuser kills along with the root filesystem's other users are
  not modelled: later remote commands reach the machine as before.
- `XDrive.Drive.Attach`, `XDrive.Drive.Connect`, `PDrive.Pdrive.Attach`,
  `PDrive.Pdrive.Connect` and `Cloud.World.Address` keep the state of one
  machine, the one the channel addresses. When the channel moves to another
  instance, that machine's state (what is mounted, who owns `/v1`,
  docker's folder and whether docker runs) is the input `there`, not a
  state the model remembers for it.
- `Cloud.World.TerminateInstance`, and through it the three `terminate`
  revisions, take the provider's timing as the input `released`: whether
  the instance's volumes are already released when `terminate()` returns.
  The shutdown that later releases them is not modelled as a separate
  event.
- `XServer.Grep` and `XServer.GetTasks` take `grep`'s target as a literal
  string matched as a substring. `grep`'s regular-expression syntax and the
  shell's word splitting of the unquoted target are not modelled, so a
  target holding regular-expression characters or spaces is matched
  literally here.
- `Launch.CreateInstances`: volume sizes are not modelled. The provider
  refuses a mapping whose `VolumeSize` is smaller than its snapshot, or a
  `bootsize` below the image's root volume, with InvalidBlockDeviceMapping;
  the model's launch succeeds whenever the mappings name known snapshots on
  distinct devices and send no None `SnapshotId`. The root volume the image
  brings when no /dev/xvda mapping is sent is not added either: the model's
  launch creates one volume per mapping and no other.
- `Launch.CreateSpot`: the fulfilled request is the same launch, so it
  shares both omissions: no size refusal and no image root volume.
- `Launch.LaunchAndName`: "succeeds iff the mappings are valid" leaves out
  the size refusal, and the launched volumes leave out the image root
  volume.
- `XServer.Create`: its success condition and volume table come from the
  launch, so it leaves out the size refusal (a drive saved larger than
  `drivesize`, a `bootsize` below the image's root volume) and the image
  root volume.
- `Server.Create`: the same two omissions, with `pdrivesize` for the
  drive's size.
- `ITools.Create`: the same two omissions, with `pdrivesize` for the
  drive's size.
- `terminate` is given an instance that is in the table, or a name. A
  stale instance object whose entry is gone is not modelled.
- `get_tasks`: `names` (what `docker inspect` prints) and `ps` (each
  container's process lines) are parameters, because the commands run on
  the remote machine. The listing fails exactly when docker is not running
  or no container runs.
- `XDrive.Drive.Unmount`, `Server.Terminate`, `XServer.Terminate` and
  `ITools.Terminate` keep the unmount as written, because they model the
  code; the corrected unmount is `XDrive.Drive.UnmountRetry`.
- The other functions of `xdrive/aws.py` (address association, resource
  listings) and of `xdrive/server.py` outside create, create_spot,
  terminate and get_tasks are left out.

## Findings

| source | as written | input that shows it | evidently intended | confidence | as-written member | corrected member |
|---|---|---|---|---|---|---|
| itools.py:51-58 | `base_spec.copy()` is shallow, so `append` adds to the module-level `BlockDeviceMappings` list | two creates with `bootsize=20` in one session: the second sends two /dev/xvda mappings and is refused | each create starts from an empty mapping list, as `copy.deepcopy` in server.py:33 gives | high, not executed | `ITools.RepeatedBootRejected` | `Server.BuildSpec` |
| itools.py:46-47 | `raise("instance %s already exists"%name)` raises a string | create with the name of a running instance: TypeError | raise an exception that carries the message | high, not executed | `ITools.TakenNameIsTypeError` | `XServer.TakenNameRefused` |
| itools.py:64-73 | the pdrive mapping always has a `SnapshotId` key, None when there is no snapshot | create with a new pdrive name: the launch is refused (ParamValidation), so a new pdrive can never be created | set `SnapshotId` only when a snapshot was found | high, not executed | `ITools.FreshPdriveRejected` | `Launch.CreateMappingsShape` |
| xdrive/drive.py:113-117 | when umount fails, `fuser -km /v1` kills the holders and the method logs "volume dismounted", but nothing unmounts | unmount while a shell sits in /v1: /v1 stays mounted | umount again after fuser, so /v1 ends unmounted | medium, not executed | `XDrive.BusyUnmountStaysMounted` | `XDrive.Drive.UnmountRetry` |
| xdrive/drive.py:107-117 | when umount fails because nothing is mounted, `fuser -km /v1` still runs; /v1 is then a directory of the root filesystem, so every process using it is killed | disconnect after a failed mount, with docker running from /var/lib/docker: docker is killed | force only a mounted /v1, leaving the machine alone when there is nothing to unmount | medium, not executed | `XDrive.UnmountedFuserStopsDocker` | `XDrive.Drive.UnmountRetry` |
| pdrive.py:121-130 | detach reads `volume.attachments[0]` with no check | disconnect a pdrive whose volume is not attached: IndexError after the unmount; no snapshot, no delete | detach only when attached, as xdrive/drive.py:125 does | high, not executed | `PDrive.Pdrive.Detach` | `XDrive.Drive.Detach` |
