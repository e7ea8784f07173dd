/**
 * Whole-daemon runs over a monitor and a daemon context built from scratch:
 * the debounce of a disk whose partitions keep arriving, and the teardown of
 * a disk that goes away before it settles.
 */
module Scenarios {
  import opened Base
  import opened Text
  import opened FsProbe
  import opened Scan
  import opened Hook
  import opened Updater
  import opened Udev

  /** A system whose kernel supports ext4 and whose mkdir, mount and umount all succeed. */
  const Ext4System: Os := Os(Some("\text4"), _ => 0, (_, _, _) => 0, _ => 0)

  /** Empty media, an installer that knows no bundle, and a hook that is never started. */
  const EmptyWorld: World := World(_ => InfoFailed, _ => InstallOk, _ => Entries([]), SpawnFailed, map[])

  const DiskId: string := "4f1c2a9e"

  function SdbDisk(): Device {
    Device(Some("block"), Some("disk"), DiskId, "/dev/sdb", "sdb", None)
  }

  function Sdb1Partition(): Device {
    Device(Some("block"), Some("partition"), DiskId, "/dev/sdb1", "sdb1", Some("ext4"))
  }

  /** The one-line filesystem list of Ext4System supports an ext4 partition. */
  lemma Ext4Supported()
    ensures Supported(Ext4System.filesystems, Sdb1Partition().fsType)
  {
    var lines := Lines("\text4");
    SplitOnSingle("\text4", '\n');
    assert lines == ["\text4"];
    BlockEntryMatches("ext4");
    assert LineMatches(lines[0], "ext4");
  }

  lemma TryMountSdb1()
    ensures TryMount(Ext4System, Sdb1Partition()) == MountedAt(MountDir("sdb1"))
  {
    Ext4Supported();
  }

  lemma MountDirSdb1()
    ensures MountDir("sdb1") == "/run/media/disk-updater/sdb1"
  {
  }

  /** The partition is mounted on its directory below the mount root. */
  lemma MountedSdb1()
    ensures Mounted(Ext4System, [Sdb1Partition()]) == ["/run/media/disk-updater/sdb1"]
  {
    TryMountSdb1();
    MountDirSdb1();
    assert [Sdb1Partition()][..0] == [];
  }

  /** The events of the debounce: a disk at 0 ms and its partition at 600 ms. */
  method DiskWithPartition() returns (m: Monitor, d: Disk)
    ensures fresh(m) && fresh(d) && m.Valid() && m.listening && m.running
    ensures m.disks.Keys == {DiskId} && m.disks[DiskId] == d && m.queue == [] && m.armedTimers == 1 && m.now == 600
    ensures d.partitions == [Sdb1Partition()] && d.since == 600 && d.mountPoints == []
    ensures !d.attached && !d.released && !d.cancelled && d.id == DiskId
  {
    m := new Monitor();
    var kind := m.OnUevent(Ext4System, "add", SdbDisk());
    d := m.disks[DiskId];
    m.Advance(600);
    kind := m.OnUevent(Ext4System, "add", Sdb1Partition());
  }

  /**
   * A disk appears at 0 ms and its partition at 600 ms. The timer firing at
   * 1000 ms finds nothing settled and stays armed; at 1601 ms the disk has been
   * quiet for more than a second, is promoted and the timer is dropped.
   */
  method Debounce() returns (first: bool, second: bool, m: Monitor, d: Disk)
    ensures first && !second
    ensures fresh(m) && fresh(d) && m.Valid() && m.running
    ensures m.queue == [Work(d)] && d.attached && !d.released && !d.cancelled && d.id == DiskId
    ensures d.partitions == [Sdb1Partition()] && d.mountPoints == []
  {
    m, d := DiskWithPartition();
    m.Advance(400);
    assert m.FirstSettled([DiskId], 1) == None;
    first := m.OnDiskInitialized([DiskId]);
    m.Advance(601);
    assert m.FirstSettled([DiskId], 0) == Some(DiskId);
    second := m.OnDiskInitialized([DiskId]);
  }

  /**
   * After the debounce, the worker mounts the partition below the mount root
   * and runs the attach handler, which counts one device, whatever the
   * media hold and whenever the disk is removed.
   */
  method DebouncedAttach(w: World, cancel: Cancellation) returns (step: Step, devices: Guint)
    ensures step.AttachedDisk? && step.id == DiskId && step.mountPoints == ["/run/media/disk-updater/sdb1"]
    ensures devices == 1
  {
    var first, second, m, d := Debounce();
    var ctx := new Context(Some("board-v1"), None);
    assert m.queue[0] == Work(d) && m.Head() == {d};
    step := m.ProcessNext(Ext4System, ctx, w, cancel);
    assert d.partitions == [Sdb1Partition()];
    MountedSdb1();
    devices := ctx.deviceCount;
  }

  /**
   * A disk that is removed before it settles is still handed to the worker,
   * which runs the detach handler for it: the unsigned device count, never
   * incremented for this disk, wraps around to its maximum.
   */
  method PendingRemovalWraps() returns (step: Step, devices: Guint)
    ensures step == DetachedDisk(DiskId)
    ensures devices == 0xFFFF_FFFF
  {
    var m := new Monitor();
    var ctx := new Context(Some("board-v1"), None);
    var kind := m.OnUevent(Ext4System, "add", SdbDisk());
    var d := m.disks[DiskId];
    kind := m.OnUevent(Ext4System, "remove", SdbDisk());
    assert m.queue == [Work(d)] && !d.attached && !d.released;
    step := m.ProcessNext(Ext4System, ctx, EmptyWorld, NeverCancelled);
    devices := ctx.deviceCount;
  }
}
