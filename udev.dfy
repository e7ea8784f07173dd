/**
 * The udev monitor: the registry of disks keyed by their partition table
 * UUID, the debounce timer that hands a settled disk to the worker, the
 * worker's queue, mounting and unmounting, and the worker step that runs the
 * attach and detach handlers. System calls are oracles (Os); the clock is an
 * integer number of milliseconds.
 */
module Udev {
  import opened Base
  import opened FsProbe
  import opened Scan
  import opened Hook
  import opened Updater

  /** Partitions are mounted below this directory, one directory per kernel name. */
  const MountRoot: string := "/run/media/disk-updater/"

  /** A disk is settled when no partition was added for longer than this (UDEV_TIMEOUT, one second). */
  const UdevTimeoutMs: int := 1000

  const EEXIST: int := 17
  const EINVAL: int := 22

  /** The properties of a udev device that the monitor reads. */
  datatype Device = Device(
    subsystem: Option<string>,
    devType: Option<string>,     // DEVTYPE
    partTableUuid: string,       // ID_PART_TABLE_UUID, the disk id
    deviceFile: string,          // e.g. /dev/sdb1
    name: string,                // the kernel name, e.g. sdb1
    fsType: Option<string>)      // ID_FS_TYPE

  /** The outcomes of the system calls the monitor makes. */
  datatype Os = Os(
    filesystems: Option<string>,                // the text of /proc/filesystems; None: unreadable
    mkdir: string -> int,                       // 0, or the errno left by g_mkdir_with_parents
    mount: (string, string, string) -> int,     // mount(2) of (device file, directory, type): 0 on success
    umount: string -> int)                      // umount2(2) with MNT_DETACH: 0, or the errno

  /** The warnings the monitor logs. */
  datatype Warning =
    | FilesystemsUnreadable
    | MkdirFailed(dir: string)
    | MountFailed(deviceFile: string)
    | UmountFailed(dir: string)
    | PartitionIgnored(deviceFile: string)

  /** The directory a partition with kernel name `name` is mounted on. */
  function MountDir(name: string): string {
    MountRoot + name
  }

  // ---------------------------------------------------------------- mounting, as a specification

  /** The directory could be created, or it already existed. */
  predicate MkdirOk(errno: int) {
    errno == 0 || errno == EEXIST
  }

  datatype MountResult = Unsupported | NoDir(dir: string) | NotMounted(dir: string) | MountedAt(dir: string)

  /**
   * What mount_partition achieves once the probe has answered `supported`:
   * nothing for an unsupported type; otherwise the directory below the mount
   * root must exist (created, or already there) and mount(2) must succeed.
   */
  function Attempt(supported: bool, os: Os, p: Device): MountResult {
    if !supported || p.fsType.None? then Unsupported
    else
      var dir := MountDir(p.name);
      if !MkdirOk(os.mkdir(dir)) then NoDir(dir)
      else if os.mount(p.deviceFile, dir, p.fsType.value) != 0 then NotMounted(dir)
      else MountedAt(dir)
  }

  /** What mount_partition achieves for one partition. */
  function TryMount(os: Os, p: Device): MountResult {
    Attempt(Supported(os.filesystems, p.fsType), os, p)
  }

  /** The warning the probe logs when /proc/filesystems cannot be read. */
  function ProbeWarnings(os: Os): seq<Warning> {
    if os.filesystems.None? then [FilesystemsUnreadable] else []
  }

  /** The warning logged for a failed mkdir or mount. */
  function ResultWarnings(r: MountResult, p: Device): seq<Warning> {
    match r
    case NoDir(dir) => [MkdirFailed(dir)]
    case NotMounted(_) => [MountFailed(p.deviceFile)]
    case _ => []
  }

  /** The mount points mount_partition prepends while going through `ps` in order. */
  function Mounted(os: Os, ps: seq<Device>): seq<string> {
    if ps == [] then []
    else
      var last := ps[|ps| - 1];
      MountedDir(os, last) + Mounted(os, ps[..|ps| - 1])
  }

  /** The warnings mount_partition logs for one partition. */
  function MountWarnings(os: Os, p: Device): seq<Warning> {
    ProbeWarnings(os) + ResultWarnings(TryMount(os, p), p)
  }

  function MountAllWarnings(os: Os, ps: seq<Device>): seq<Warning> {
    if ps == [] then [] else MountAllWarnings(os, ps[..|ps| - 1]) + MountWarnings(os, ps[|ps| - 1])
  }

  /** The warnings umount_partition logs for the mount points `mps`: every failure except EINVAL. */
  function UmountWarnings(os: Os, mps: seq<string>): seq<Warning> {
    if mps == [] then []
    else
      var last := mps[|mps| - 1];
      UmountWarnings(os, mps[..|mps| - 1])
      + if os.umount(last) != 0 && os.umount(last) != EINVAL then [UmountFailed(last)] else []
  }

  /** The mount point, if any, that mount_partition records for one partition. */
  function MountedDir(os: Os, p: Device): seq<string> {
    if TryMount(os, p).MountedAt? then [TryMount(os, p).dir] else []
  }

  /** Going through one more partition adds its mount point in front and its warnings at the end. */
  lemma MountStep(os: Os, ps: seq<Device>, i: nat)
    requires i < |ps|
    ensures Mounted(os, ps[..i + 1]) == MountedDir(os, ps[i]) + Mounted(os, ps[..i])
    ensures MountAllWarnings(os, ps[..i + 1]) == MountAllWarnings(os, ps[..i]) + MountWarnings(os, ps[i])
  {
    assert ps[..i + 1][..i] == ps[..i];
  }

  /**
   * A partition is mounted exactly when its type is supported, its directory
   * exists afterwards and mount(2) succeeds; the mount point is then its
   * directory below the mount root.
   */
  lemma TryMountIff(os: Os, p: Device)
    ensures TryMount(os, p).MountedAt? <==>
      && Supported(os.filesystems, p.fsType)
      && MkdirOk(os.mkdir(MountDir(p.name)))
      && os.mount(p.deviceFile, MountDir(p.name), p.fsType.value) == 0
    ensures TryMount(os, p).MountedAt? ==> TryMount(os, p).dir == MountRoot + p.name
  {
  }

  /** The recorded mount points are exactly the directories of the partitions that were mounted. */
  lemma {:induction false} MountedMembers(os: Os, ps: seq<Device>, dir: string)
    ensures dir in Mounted(os, ps) <==> exists j :: 0 <= j < |ps| && TryMount(os, ps[j]) == MountedAt(dir)
  {
    if ps != [] {
      var init := ps[..|ps| - 1];
      MountedMembers(os, init, dir);
      if exists j :: 0 <= j < |ps| && TryMount(os, ps[j]) == MountedAt(dir) {
        var j :| 0 <= j < |ps| && TryMount(os, ps[j]) == MountedAt(dir);
        if j < |ps| - 1 {
          assert ps[j] == init[j];
        }
      }
    }
  }

  /** One mount point per mounted partition, never more than there are partitions. */
  lemma {:induction false} MountedBound(os: Os, ps: seq<Device>)
    ensures |Mounted(os, ps)| <= |ps|
  {
    if ps != [] {
      MountedBound(os, ps[..|ps| - 1]);
    }
  }

  /** An unmount failure is reported exactly for a recorded mount point whose umount failed with an errno other than EINVAL. */
  lemma {:induction false} UmountWarningsIff(os: Os, mps: seq<string>, dir: string)
    ensures UmountFailed(dir) in UmountWarnings(os, mps) <==> dir in mps && os.umount(dir) != 0 && os.umount(dir) != EINVAL
  {
    if mps != [] {
      var init := mps[..|mps| - 1];
      UmountWarningsIff(os, init, dir);
      assert mps == init + [mps[|mps| - 1]];
    }
  }

  // ---------------------------------------------------------------- the disk record

  class Disk {
    const id: string
    const device: Device
    var attached: bool
    /** The disk's cancellation token has been cancelled. */
    var cancelled: bool
    /** The partitions, most recently added first. */
    var partitions: seq<Device>
    /** The mount points, most recently mounted first. */
    var mountPoints: seq<string>
    /** The clock reading when the settle timer was last (re)started. */
    var since: int
    /** free_disk has run: the record must not be used again. */
    var released: bool

    constructor(id: string, device: Device, now: int)
      ensures this.id == id && this.device == device
      ensures !attached && !cancelled && partitions == [] && mountPoints == [] && since == now && !released
    {
      this.id := id;
      this.device := device;
      attached := false;
      cancelled := false;
      partitions := [];
      mountPoints := [];
      since := now;
      released := false;
    }
  }

  /** A disk is settled: not yet handed to the worker, and no partition was added for more than the timeout. */
  predicate Settled(d: Disk, now: int)
    reads d
  {
    !d.attached && now - d.since > UdevTimeoutMs
  }

  /**
   * The token the attach handler sees: a disk whose token was already
   * cancelled reads cancelled at every poll; otherwise `cancel` says when a
   * removal, if any, cancels it during the handler.
   */
  function AttachToken(cancelled: bool, cancel: Cancellation): (t: Cancellation)
    ensures cancelled ==> forall p :: t.Fired(p)
    ensures !cancelled ==> t == cancel
  {
    if cancelled then Cancellation(Some(0)) else cancel
  }

  /** An item of the worker's queue: a disk, or the marker that stops the worker. */
  datatype Item = Work(disk: Disk) | Sentinel

  /** What one round of the worker did. */
  datatype Step =
    | Blocked                     // the queue is empty: the worker waits
    | Stopped                     // the stop marker was taken: the worker ends
    | Dangling                    // the popped record had already been freed
    | AttachedDisk(id: string, mountPoints: seq<string>, hook: HookOutcome)
    | DetachedDisk(id: string)

  /** How on_uevent treats an event. */
  datatype EventKind = NotBlock | DiskAdd | PartitionAdd | Remove | OtherEvent

  /**
   * The dispatch of on_uevent: events of other subsystems (or of none) are
   * dropped; "add" is handled for the types disk and partition only;
   * "remove" is handled whatever the type.
   */
  function Classify(action: string, dev: Device): EventKind {
    if dev.subsystem != Some("block") then NotBlock
    else if action == "add" then
      if dev.devType == Some("disk") then DiskAdd
      else if dev.devType == Some("partition") then PartitionAdd
      else OtherEvent
    else if action == "remove" then Remove
    else OtherEvent
  }

  /**
   * Only block devices are handled; a "remove" is handled for any device type
   * (partitions included), while an "add" is handled only for disks and
   * partitions.
   */
  lemma ClassifyFacts(action: string, dev: Device)
    ensures Classify(action, dev) != NotBlock <==> dev.subsystem == Some("block")
    ensures Classify(action, dev) == Remove <==> dev.subsystem == Some("block") && action == "remove"
    ensures Classify(action, dev) == DiskAdd <==> dev.subsystem == Some("block") && action == "add" && dev.devType == Some("disk")
    ensures Classify(action, dev) == PartitionAdd <==> dev.subsystem == Some("block") && action == "add" && dev.devType == Some("partition")
  {
  }

  // ---------------------------------------------------------------- the monitor

  class Monitor {
    /** The registry: disks by partition table UUID. */
    var disks: map<string, Disk>
    var queue: seq<Item>
    /** The clock, in milliseconds. */
    var now: int
    /** Debounce timers that will call OnDiskInitialized again. */
    var armedTimers: nat
    /** The udev event handler is connected. */
    var listening: bool
    /** The worker is running. */
    var running: bool
    /** Every umount2 call, in order. */
    var umountLog: seq<string>
    var warnings: seq<Warning>

    function Queued(): set<Disk>
      reads this
    {
      set k | 0 <= k < |queue| && queue[k].Work? :: queue[k].disk
    }

    /** The registry's record for `id`, as a frame. */
    function Entry(id: string): set<Disk>
      reads this
    {
      if id in disks then {disks[id]} else {}
    }

    /**
     * The registry invariant: each record sits under its own id and is live;
     * a record not yet handed to the worker has nothing mounted; while events
     * are received no registered disk is cancelled; a queued record that is
     * to be torn down is no longer registered.
     */
    predicate Valid()
      reads this, disks.Values, Queued()
    {
      && (forall id :: id in disks ==> disks[id].id == id && !disks[id].released)
      && (forall id :: id in disks && !disks[id].attached ==> disks[id].mountPoints == [])
      && (listening ==> forall id :: id in disks ==> !disks[id].cancelled)
      && (forall k :: 0 <= k < |queue| && queue[k].Work? && !queue[k].disk.attached ==> queue[k].disk !in disks.Values)
    }

    constructor()
      ensures Valid()
      ensures disks == map[] && queue == [] && now == 0 && armedTimers == 0
      ensures listening && running && umountLog == [] && warnings == []
    {
      disks := map[];
      queue := [];
      now := 0;
      armedTimers := 0;
      listening := true;
      running := true;
      umountLog := [];
      warnings := [];
    }

    /** Time passes. */
    method Advance(dt: nat)
      requires Valid()
      modifies this
      ensures Valid()
      ensures now == old(now) + dt
      ensures disks == old(disks) && queue == old(queue) && armedTimers == old(armedTimers)
      ensures listening == old(listening) && running == old(running)
      ensures umountLog == old(umountLog) && warnings == old(warnings)
    {
      now := now + dt;
    }

    // ------------------------------------------------------------ mounting and teardown

    /** mount_partition for the partition `p` of the disk `d`: the probe, then the mount itself. */
    method MountPartition(os: Os, d: Disk, p: Device)
      modifies this, d
      ensures d.mountPoints == MountedDir(os, p) + old(d.mountPoints)
      ensures warnings == old(warnings) + MountWarnings(os, p)
      ensures d.partitions == old(d.partitions) && d.attached == old(d.attached) && d.cancelled == old(d.cancelled)
      ensures d.since == old(d.since) && d.released == old(d.released)
      ensures disks == old(disks) && queue == old(queue) && now == old(now) && armedTimers == old(armedTimers)
      ensures listening == old(listening) && running == old(running) && umountLog == old(umountLog)
    {
      var supported := IsInFilesystemFile(os.filesystems, p.fsType);
      if os.filesystems.None? {
        warnings := warnings + [FilesystemsUnreadable];
      }
      MountProbed(os, d, p, supported);
      Append3(old(warnings), ProbeWarnings(os), ResultWarnings(TryMount(os, p), p));
    }

    /** The part of mount_partition after the probe: mkdir, then mount(2). */
    method MountProbed(os: Os, d: Disk, p: Device, supported: bool)
      modifies this, d
      ensures d.mountPoints == (if Attempt(supported, os, p).MountedAt? then [Attempt(supported, os, p).dir] else []) + old(d.mountPoints)
      ensures warnings == old(warnings) + ResultWarnings(Attempt(supported, os, p), p)
      ensures d.partitions == old(d.partitions) && d.attached == old(d.attached) && d.cancelled == old(d.cancelled)
      ensures d.since == old(d.since) && d.released == old(d.released)
      ensures disks == old(disks) && queue == old(queue) && now == old(now) && armedTimers == old(armedTimers)
      ensures listening == old(listening) && running == old(running) && umountLog == old(umountLog)
    {
      if !supported || p.fsType.None? {
        return;
      }
      var dir := MountDir(p.name);
      var errno := os.mkdir(dir);
      if errno != 0 && errno != EEXIST {
        warnings := warnings + [MkdirFailed(dir)];
        return;
      }
      if os.mount(p.deviceFile, dir, p.fsType.value) != 0 {
        warnings := warnings + [MountFailed(p.deviceFile)];
        return;
      }
      d.mountPoints := [dir] + d.mountPoints;
    }

    /** The worker's g_slist_foreach of mount_partition over the disk's partitions. */
    method MountAll(os: Os, d: Disk)
      modifies this, d
      ensures d.mountPoints == Mounted(os, d.partitions) + old(d.mountPoints)
      ensures warnings == old(warnings) + MountAllWarnings(os, d.partitions)
      ensures d.partitions == old(d.partitions) && d.attached == old(d.attached) && d.cancelled == old(d.cancelled)
      ensures d.since == old(d.since) && d.released == old(d.released)
      ensures disks == old(disks) && queue == old(queue) && now == old(now) && armedTimers == old(armedTimers)
      ensures listening == old(listening) && running == old(running) && umountLog == old(umountLog)
    {
      var ps := d.partitions;
      var i := 0;
      while i < |ps|
        invariant 0 <= i <= |ps|
        invariant d.mountPoints == Mounted(os, ps[..i]) + old(d.mountPoints)
        invariant warnings == old(warnings) + MountAllWarnings(os, ps[..i])
        invariant d.partitions == ps && d.attached == old(d.attached) && d.cancelled == old(d.cancelled)
        invariant d.since == old(d.since) && d.released == old(d.released)
        invariant disks == old(disks) && queue == old(queue) && now == old(now) && armedTimers == old(armedTimers)
        invariant listening == old(listening) && running == old(running) && umountLog == old(umountLog)
      {
        var p := ps[i];
        MountStep(os, ps, i);
        MountPartition(os, d, p);
        Append3(MountedDir(os, p), Mounted(os, ps[..i]), old(d.mountPoints));
        Append3(old(warnings), MountAllWarnings(os, ps[..i]), MountWarnings(os, p));
        i := i + 1;
      }
      assert ps[..i] == ps;
    }

    /**
     * free_disk: one umount2 call per recorded mount point, in list order,
     * with a warning for every failure other than EINVAL; then the record is
     * released.
     */
    method FreeDisk(os: Os, d: Disk)
      requires !d.released
      modifies this, d
      ensures umountLog == old(umountLog) + old(d.mountPoints)
      ensures warnings == old(warnings) + UmountWarnings(os, old(d.mountPoints))
      ensures d.released
      ensures d.partitions == old(d.partitions) && d.mountPoints == old(d.mountPoints)
      ensures d.attached == old(d.attached) && d.cancelled == old(d.cancelled) && d.since == old(d.since)
      ensures disks == old(disks) && queue == old(queue) && now == old(now) && armedTimers == old(armedTimers)
      ensures listening == old(listening) && running == old(running)
    {
      var i := 0;
      while i < |d.mountPoints|
        invariant 0 <= i <= |d.mountPoints|
        invariant umountLog == old(umountLog) + d.mountPoints[..i]
        invariant warnings == old(warnings) + UmountWarnings(os, d.mountPoints[..i])
        invariant d.partitions == old(d.partitions) && d.mountPoints == old(d.mountPoints) && !d.released
        invariant d.attached == old(d.attached) && d.cancelled == old(d.cancelled) && d.since == old(d.since)
        invariant disks == old(disks) && queue == old(queue) && now == old(now) && armedTimers == old(armedTimers)
        invariant listening == old(listening) && running == old(running)
      {
        var dir := d.mountPoints[i];
        assert d.mountPoints[..i + 1][..i] == d.mountPoints[..i];
        umountLog := umountLog + [dir];
        var errno := os.umount(dir);
        if errno != 0 && errno != EINVAL {
          warnings := warnings + [UmountFailed(dir)];
        }
        i := i + 1;
      }
      assert d.mountPoints[..i] == d.mountPoints;
      d.released := true;
    }

    // ------------------------------------------------------------ udev events

    /**
     * A disk appeared: a new record under its partition table UUID, with its
     * settle timer started and one more debounce timer armed. A record already
     * registered under that id is freed by the registry (g_hash_table_insert
     * destroys the value it replaces), which unmounts its mount points.
     */
    method AddDisk(os: Os, dev: Device)
      requires Valid() && listening
      modifies this, Entry(dev.partTableUuid)
      ensures Valid() && listening
      ensures var id := dev.partTableUuid;
        && id in disks && fresh(disks[id])
        && disks[id].id == id && disks[id].device == dev && disks[id].since == now
        && !disks[id].attached && !disks[id].cancelled && !disks[id].released
        && disks[id].partitions == [] && disks[id].mountPoints == []
        && disks.Keys == old(disks).Keys + {id} && disks - {id} == old(disks) - {id}
      ensures var id := dev.partTableUuid;
        if id in old(disks) then
          && old(disks[id]).released
          && umountLog == old(umountLog) + old(disks[id].mountPoints)
          && warnings == old(warnings) + UmountWarnings(os, old(disks[id].mountPoints))
        else umountLog == old(umountLog) && warnings == old(warnings)
      ensures armedTimers == old(armedTimers) + 1
      ensures queue == old(queue) && now == old(now) && running == old(running)
    {
      var id := dev.partTableUuid;
      var d := new Disk(id, dev, now);
      if id in disks {
        FreeDisk(os, disks[id]);
      }
      disks := disks[id := d];
      armedTimers := armedTimers + 1;
    }

    /**
     * A partition appeared: it joins its disk's record, most recent first, and
     * restarts the settle timer, provided the disk is registered and not yet
     * handed to the worker; otherwise it is ignored with a warning.
     */
    method AddPartition(dev: Device)
      requires Valid() && listening
      modifies this, Entry(dev.partTableUuid)
      ensures Valid() && listening
      ensures disks == old(disks) && queue == old(queue) && now == old(now) && armedTimers == old(armedTimers)
      ensures var id := dev.partTableUuid;
        if id in old(disks) && !old(disks[id].attached) then
          && disks[id].partitions == [dev] + old(disks[id].partitions)
          && disks[id].since == now
          && warnings == old(warnings)
        else
          && warnings == old(warnings) + [PartitionIgnored(dev.deviceFile)]
          && (id in old(disks) ==> disks[id].partitions == old(disks[id].partitions) && disks[id].since == old(disks[id].since))
      ensures var id := dev.partTableUuid;
        id in old(disks) ==>
          && disks[id].attached == old(disks[id].attached) && disks[id].cancelled == old(disks[id].cancelled)
          && disks[id].mountPoints == old(disks[id].mountPoints) && disks[id].released == old(disks[id].released)
      ensures running == old(running) && umountLog == old(umountLog)
    {
      var id := dev.partTableUuid;
      if id in disks && !disks[id].attached {
        var d := disks[id];
        d.since := now;
        d.partitions := [dev] + d.partitions;
      } else {
        warnings := warnings + [PartitionIgnored(dev.deviceFile)];
      }
    }

    /**
     * A block device went away: the record registered under its partition
     * table UUID, if any, leaves the registry, is marked for teardown, has its
     * token cancelled and is queued for the worker.
     */
    method RemoveDisk(dev: Device)
      requires Valid() && listening
      modifies this, Entry(dev.partTableUuid)
      ensures Valid() && listening
      ensures var id := dev.partTableUuid;
        if id in old(disks) then
          var d := old(disks[id]);
          && disks == old(disks) - {id}
          && queue == old(queue) + [Work(d)]
          && !d.attached && d.cancelled
          && d.partitions == old(d.partitions) && d.mountPoints == old(d.mountPoints)
          && d.since == old(d.since) && !d.released
        else disks == old(disks) && queue == old(queue)
      ensures now == old(now) && armedTimers == old(armedTimers)
      ensures running == old(running) && umountLog == old(umountLog) && warnings == old(warnings)
    {
      var id := dev.partTableUuid;
      if id in disks {
        var d := disks[id];
        disks := disks - {id};
        d.attached := false;
        d.cancelled := true;
        queue := queue + [Work(d)];
      }
    }

    /**
     * on_uevent: only block devices count. "add" of a disk or a partition and
     * "remove" of any block device are handled; the device type is not looked
     * at for "remove", so the first partition that goes away already tears
     * its disk down.
     */
    method OnUevent(os: Os, action: string, dev: Device) returns (kind: EventKind)
      requires Valid() && listening
      modifies this, Entry(dev.partTableUuid)
      ensures kind == Classify(action, dev)
      ensures Valid() && listening
      ensures now == old(now) && running == old(running)
      ensures kind == DiskAdd ==>
        var id := dev.partTableUuid;
        && id in disks && fresh(disks[id]) && disks[id].device == dev && disks[id].since == now
        && !disks[id].attached && !disks[id].cancelled && !disks[id].released
        && disks[id].partitions == [] && disks[id].mountPoints == []
        && disks.Keys == old(disks).Keys + {id} && disks - {id} == old(disks) - {id}
        && queue == old(queue) && armedTimers == old(armedTimers) + 1
        && (id in old(disks) ==>
             && old(disks[id]).released
             && umountLog == old(umountLog) + old(disks[id].mountPoints)
             && warnings == old(warnings) + UmountWarnings(os, old(disks[id].mountPoints)))
      ensures kind == PartitionAdd ==>
        var id := dev.partTableUuid;
        && disks == old(disks) && queue == old(queue) && armedTimers == old(armedTimers)
        && umountLog == old(umountLog)
        && (if id in old(disks) && !old(disks[id].attached) then
             && disks[id].partitions == [dev] + old(disks[id].partitions)
             && disks[id].since == now
             && warnings == old(warnings)
           else
             && warnings == old(warnings) + [PartitionIgnored(dev.deviceFile)]
             && (id in old(disks) ==> disks[id].partitions == old(disks[id].partitions) && disks[id].since == old(disks[id].since)))
        && (id in old(disks) ==>
             && disks[id].attached == old(disks[id].attached) && disks[id].cancelled == old(disks[id].cancelled)
             && disks[id].mountPoints == old(disks[id].mountPoints) && disks[id].released == old(disks[id].released))
      ensures kind == Remove ==>
        var id := dev.partTableUuid;
        && armedTimers == old(armedTimers) && umountLog == old(umountLog) && warnings == old(warnings)
        && if id in old(disks) then
             var d := old(disks[id]);
             && disks == old(disks) - {id}
             && queue == old(queue) + [Work(d)]
             && !d.attached && d.cancelled && !d.released && d.mountPoints == old(d.mountPoints)
           else disks == old(disks) && queue == old(queue)
      ensures kind == NotBlock || kind == OtherEvent ==> unchanged(this) && unchanged(Entry(dev.partTableUuid))
    {
      kind := Classify(action, dev);
      match kind
      case DiskAdd => AddDisk(os, dev);
      case PartitionAdd => AddPartition(dev);
      case Remove => RemoveDisk(dev);
      case _ =>
    }

    // ------------------------------------------------------------ the debounce timer

    /**
     * The key of the first disk, in the iteration order `order` of the
     * registry, that is registered and settled.
     */
    function FirstSettled(order: seq<string>, i: nat): (r: Option<string>)
      reads this, disks.Values
      decreases |order| - i
      ensures r.Some? ==> r.value in disks && Settled(disks[r.value], now)
      ensures r.Some? ==>
        exists j :: i <= j < |order| && order[j] == r.value &&
          forall j' :: i <= j' < j && order[j'] in disks ==> !Settled(disks[order[j']], now)
    {
      if i >= |order| then None
      else if order[i] in disks && Settled(disks[order[i]], now) then Some(order[i])
      else FirstSettled(order, i + 1)
    }

    /** When the iteration visits every key and finds no settled disk, there is none. */
    lemma {:induction false} FirstSettledNone(order: seq<string>, i: nat)
      requires FirstSettled(order, i).None?
      ensures forall j :: i <= j < |order| && order[j] in disks ==> !Settled(disks[order[j]], now)
      decreases |order| - i
    {
      if i < |order| {
        FirstSettledNone(order, i + 1);
      }
    }

    /** A registry whose every key is visited holds no settled disk exactly when the search finds none. */
    lemma NoSettledDisk(order: seq<string>)
      requires forall k :: k in disks ==> k in order
      ensures FirstSettled(order, 0).None? <==> forall k :: k in disks ==> !Settled(disks[k], now)
    {
      if FirstSettled(order, 0).None? {
        FirstSettledNone(order, 0);
        forall k | k in disks
          ensures !Settled(disks[k], now)
        {
          var j :| 0 <= j < |order| && order[j] == k;
        }
      }
    }

    /**
     * on_disk_initialized, run when a debounce timer fires: the first settled
     * disk met while iterating the registry in `order` is marked attached and
     * queued for the worker, and the timer is dropped; without one, the timer
     * stays armed and nothing changes.
     */
    method OnDiskInitialized(order: seq<string>) returns (again: bool)
      requires Valid() && armedTimers > 0
      requires forall k :: k in disks ==> k in order
      modifies this, disks.Values
      ensures Valid()
      ensures disks == old(disks) && now == old(now) && listening == old(listening) && running == old(running)
      ensures umountLog == old(umountLog) && warnings == old(warnings)
      ensures again <==> old(FirstSettled(order, 0)).None?
      ensures again <==> old(forall k :: k in disks ==> !Settled(disks[k], now))
      ensures again ==> queue == old(queue) && armedTimers == old(armedTimers)
      ensures !again ==>
        var k := old(FirstSettled(order, 0)).value;
        && queue == old(queue) + [Work(disks[k])]
        && armedTimers == old(armedTimers) - 1
      ensures forall k :: k in disks ==>
        && disks[k].attached == (old(disks[k].attached) || old(FirstSettled(order, 0)) == Some(k))
        && disks[k].partitions == old(disks[k].partitions) && disks[k].mountPoints == old(disks[k].mountPoints)
        && disks[k].since == old(disks[k].since) && disks[k].cancelled == old(disks[k].cancelled)
        && disks[k].released == old(disks[k].released)
    {
      NoSettledDisk(order);
      var i := 0;
      while i < |order|
        invariant 0 <= i <= |order|
        invariant FirstSettled(order, i) == FirstSettled(order, 0)
      {
        var k := order[i];
        if k in disks && !disks[k].attached && now - disks[k].since > UdevTimeoutMs {
          var d := disks[k];
          d.attached := true;
          queue := queue + [Work(d)];
          armedTimers := armedTimers - 1;
          return false;
        }
        i := i + 1;
      }
      return true;
    }

    /**
     * udev_monitor_quit: events are no longer received, the stop marker goes
     * to the front of the worker's queue, and every registered disk's token
     * is cancelled.
     */
    method Quit()
      requires Valid()
      modifies this, disks.Values
      ensures Valid() && !listening
      ensures queue == [Sentinel] + old(queue)
      ensures disks == old(disks) && now == old(now) && armedTimers == old(armedTimers) && running == old(running)
      ensures umountLog == old(umountLog) && warnings == old(warnings)
      ensures forall k :: k in disks ==>
        && disks[k].cancelled
        && disks[k].attached == old(disks[k].attached)
        && disks[k].partitions == old(disks[k].partitions) && disks[k].mountPoints == old(disks[k].mountPoints)
        && disks[k].since == old(disks[k].since) && disks[k].released == old(disks[k].released)
    {
      listening := false;
      queue := [Sentinel] + queue;
      forall d | d in disks.Values {
        d.cancelled := true;
      }
    }

    // ------------------------------------------------------------ the worker

    /** The record at the head of the queue, as a frame. */
    function Head(): set<Disk>
      reads this
    {
      if queue != [] && queue[0].Work? then {queue[0].disk} else {}
    }

    /** The worker's attach branch: mount every partition, then run the attach handler. */
    method AttachWork(os: Os, ctx: Context, w: World, cancel: Cancellation, d: Disk) returns (hook: HookOutcome)
      requires Valid() && d.attached && !d.released
      modifies this, ctx, d
      ensures Valid()
      ensures d.mountPoints == Mounted(os, d.partitions) + old(d.mountPoints)
      ensures warnings == old(warnings) + MountAllWarnings(os, d.partitions)
      ensures ctx.Attached(w, d.id, d.mountPoints, AttachToken(d.cancelled, cancel), hook)
      ensures d.partitions == old(d.partitions) && d.attached && d.cancelled == old(d.cancelled)
      ensures d.since == old(d.since) && !d.released
      ensures disks == old(disks) && queue == old(queue) && now == old(now) && armedTimers == old(armedTimers)
      ensures listening == old(listening) && running == old(running) && umountLog == old(umountLog)
    {
      MountAll(os, d);
      hook := ctx.OnAttach(w, d.id, d.mountPoints, AttachToken(d.cancelled, cancel));
    }

    /** The worker's detach branch: run the detach handler, then free the record. */
    method DetachWork(os: Os, ctx: Context, d: Disk)
      requires Valid() && !d.attached && !d.released && d !in disks.Values
      modifies this, ctx, d
      ensures Valid()
      ensures ctx.Detached(d.id)
      ensures umountLog == old(umountLog) + old(d.mountPoints)
      ensures warnings == old(warnings) + UmountWarnings(os, old(d.mountPoints))
      ensures d.released
      ensures d.partitions == old(d.partitions) && d.mountPoints == old(d.mountPoints)
      ensures d.attached == old(d.attached) && d.cancelled == old(d.cancelled) && d.since == old(d.since)
      ensures disks == old(disks) && queue == old(queue) && now == old(now) && armedTimers == old(armedTimers)
      ensures listening == old(listening) && running == old(running)
    {
      ctx.OnDetach(d.id);
      FreeDisk(os, d);
    }

    /**
     * One round of process_disk_thread_func. The worker takes the head of the
     * queue: the stop marker ends it; an attached disk has its partitions
     * mounted and the attach handler run with the mount points and the
     * disk's token; any other disk has the detach handler run and is freed.
     * A record that was freed while it was still queued is reported as
     * Dangling and left alone.
     */
    method ProcessNext(os: Os, ctx: Context, w: World, cancel: Cancellation) returns (step: Step)
      requires Valid() && running
      modifies this, ctx, Head()
      ensures Valid()
      ensures disks == old(disks) && now == old(now) && armedTimers == old(armedTimers) && listening == old(listening)
      ensures old(queue) == [] ==> step == Blocked && unchanged(this) && unchanged(ctx)
      ensures old(queue) != [] ==> queue == old(queue[1..])
      ensures old(queue) != [] && old(queue[0]).Sentinel? ==>
        step == Stopped && !running && umountLog == old(umountLog) && warnings == old(warnings) && unchanged(ctx)
      ensures old(queue) != [] && old(queue[0]).Work? ==>
        var d := old(queue[0]).disk;
        && running
        && (old(d.released) ==>
             && step == Dangling && unchanged(ctx) && unchanged(d)
             && umountLog == old(umountLog) && warnings == old(warnings))
        && (!old(d.released) && old(d.attached) ==>
             && step.AttachedDisk? && step.id == d.id && step.mountPoints == d.mountPoints
             && d.partitions == old(d.partitions) && d.cancelled == old(d.cancelled) && d.attached && !d.released
             && d.mountPoints == Mounted(os, d.partitions) + old(d.mountPoints)
             && ctx.Attached(w, d.id, d.mountPoints, AttachToken(d.cancelled, cancel), step.hook)
             && ctx.deviceCount == Inc(old(ctx.deviceCount))
             && warnings == old(warnings) + MountAllWarnings(os, d.partitions)
             && umountLog == old(umountLog))
        && (!old(d.released) && !old(d.attached) ==>
             && step == DetachedDisk(d.id) && d.released
             && d.partitions == old(d.partitions) && d.mountPoints == old(d.mountPoints) && !d.attached
             && ctx.Detached(d.id) && ctx.deviceCount == Dec(old(ctx.deviceCount))
             && umountLog == old(umountLog) + old(d.mountPoints)
             && warnings == old(warnings) + UmountWarnings(os, old(d.mountPoints)))
    {
      if queue == [] {
        return Blocked;
      }
      var item := queue[0];
      queue := queue[1..];
      match item
      case Sentinel =>
        running := false;
        step := Stopped;
      case Work(d) =>
        if d.released {
          step := Dangling;
        } else if d.attached {
          var hook := AttachWork(os, ctx, w, cancel, d);
          step := AttachedDisk(d.id, d.mountPoints, hook);
        } else {
          DetachWork(os, ctx, d);
          step := DetachedDisk(d.id);
        }
    }
  }
}
