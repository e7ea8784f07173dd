# rauc-disk-updater, modelled in Dafny

rauc-disk-updater is a daemon that watches udev for USB disks. When a disk
appears, the daemon waits until no new partition has shown up for one second
(the debounce). It then hands the disk to a worker thread, which mounts every
partition whose filesystem type the kernel supports below
`/run/media/disk-updater/`. After mounting, the worker runs the attach handler.

The attach handler does four things:
- It counts the device.
- It walks each mount point for `.raucb` files, asks the RAUC installer for
  each file's `Info`, and keeps the files whose compatible string matches the
  system's.
- It exports each kept bundle over D-Bus under a running number.
- It optionally starts a hook script, whose exit status picks the bundle to
  install.

When the disk goes away, its cancellation token is cancelled and the worker
runs the detach handler. The detach handler lowers the device count, resets
the bundle counter once no device is left, and drops the disk's entry from the
bundles-by-disk map. After the handler returns, the worker frees the disk
record, which unmounts every recorded mount point.

The model keeps each piece in the form the C code has:
- `Udev.Monitor` is a class. It holds the disk registry (a map from the
  partition table UUID to a `Udev.Disk` record), the worker queue and an
  integer clock in milliseconds, with one method per event.
- `Updater.Context` is a class holding the daemon's counters, its
  bundles-by-disk map and the log of installer calls.
- The `/proc/filesystems` probe, `run_hook_install`'s environment loop and
  the directory walk are loop methods. Each is proved against a pure
  specification function (`FsProbe.Supported`, `Hook.HookEnv`,
  `Scan.FindBundles`), and the source's promises are proved as lemmas about
  those functions.

System calls, the installer's answers, the hook's exit and the moment a
removal cancels a running scan are oracle parameters:
- `Udev.Os` holds the mkdir, mount and umount outcomes and the text of
  `/proc/filesystems`.
- `Updater.World` holds the installer's Info and Install answers, the
  directory tree of each volume, how the hook ends, and the environment.
- `Scan.Cancellation` says at which poll the token first reads cancelled.

Counters are 32-bit `guint`s with explicit wrap-around (`Base.Inc`,
`Base.Dec`). Module `Scenarios` runs whole sequences of events against the
classes:
- the debounce of a disk whose partition arrives late;
- the attach that follows it;
- the teardown of a disk removed before it settled, where the unsigned
  device count wraps to 4294967295.

## Model

| member | source | states |
|---|---|---|
| Base.Inc | src/rauc-disk-updater.c:346 | `++` on a guint adds one, and 2^32-1 wraps to 0 |
| Base.Dec | src/rauc-disk-updater.c:386 | `--` on a guint subtracts one, and 0 wraps to 2^32-1 |
| Base.AsGint | src/rauc-disk-updater.c:146-147 | a guint printed with `%d` shows the signed 32-bit value congruent to it modulo 2^32 |
| Text.SplitOnPieces | src/udev.c:106 | no piece of a split holds the delimiter |
| Text.JoinSplitOn | src/udev.c:106 | putting the delimiter back between the pieces gives the original text |
| Text.SplitOnSingle | src/udev.c:112-114 | a text splits into exactly one piece iff it holds no delimiter, and that piece is the text itself |
| Text.TabsToSpacesSpec | src/udev.c:110 | g_strdelimit keeps the length, turns every tab into a space, leaves no tab and keeps every other character in place |
| Text.TrimStartSpec | src/udev.c:111 | g_strchug leaves a suffix that does not start with white space, and drops only white space |
| Text.TrimEndSpec | src/udev.c:111 | g_strchomp leaves a prefix that does not end with white space, and drops only white space |
| Text.StripSpec | src/udev.c:111 | g_strstrip leaves a contiguous part of the line with no white space at either end, and everything cut away is white space |
| Text.ParseDecimalOfDecimal | src/rauc-disk-updater.c:256 | reading back the decimal text of a count gives the count |
| Text.DecimalInjective | src/rauc-disk-updater.c:238-246 | different bundle numbers give different decimal texts |
| Text.FormatIntSign | src/rauc-disk-updater.c:146-147 | `%d` output starts with a minus sign exactly for negative values |
| Text.FormatIntInjective | src/rauc-disk-updater.c:146-147 | different values print differently under `%d` |
| FsProbe.IsInFilesystemFile | src/udev.c:83-124 | the line loop returns TRUE iff the file was read, the partition has a type, and some line (tabs made spaces, stripped, split at spaces) is exactly one token equal to the type; an unreadable file gives FALSE |
| FsProbe.LineMatchesIff | src/udev.c:110-114 | a line matches iff its stripped text equals the type and the type is a non-empty word without spaces |
| FsProbe.TwoWordLineNeverMatches | src/udev.c:112-114 | a line that still has a blank inside after stripping yields two or more tokens and matches no type |
| FsProbe.NodevEntryNeverMatches | src/udev.c:110-114 | the pseudo-filesystem line `nodev\tsysfs` never matches `sysfs` |
| FsProbe.BlockEntryMatches | src/udev.c:110-114 | the block-filesystem line `\text4` matches `ext4` and no other type |
| Scan.ObjectPathInjective | src/rauc-disk-updater.c:146-147 | different bundle numbers give different D-Bus object paths |
| Scan.FirstObjectPath | src/rauc-disk-updater.c:146-147 | after a counter reset the first accepted bundle is exported as `/de/helbling/DiskUpdater/bundles/1` |
| Scan.CheckBundle | src/rauc-disk-updater.c:100-157 | a path without `.raucb` is dropped without an installer call and without polling the token; otherwise the Info call polls the token once and is sent only if the token does not read cancelled; the file is accepted iff that call is sent and Info succeeds with the system's compatible string; an accepted file raises the counter by exactly one and is exported under the new number with Info's version; a rejected file leaves the counter alone |
| Scan.ScanLoop | src/rauc-disk-updater.c:178-198 | the read loop polls the token at least once, only appends Info calls for `.raucb` paths to the call log, keeps every bundle it had, and raises the counter once per bundle it adds (modulo 2^32) |
| Scan.ScanSound | src/rauc-disk-updater.c:179-196 | every bundle a scan adds is a regular file reachable without following a symbolic link, has the `.raucb` suffix, and carries the version Info reported with the system's compatible string |
| Scan.ScanComplete | src/rauc-disk-updater.c:179-196 | a scan that is never cancelled finds every reachable regular file the installer accepts |
| Scan.ScanOrder | src/rauc-disk-updater.c:186-195 | without cancellation the result lists the directory's own accepted files (last read first), then what the list held before, then each subdirectory's results in read order |
| Scan.ScanOrderFile | src/rauc-disk-updater.c:191-195 | the regular-file case of that order: the accepted file joins the front part |
| Scan.ScanOrderDir | src/rauc-disk-updater.c:186-190 | the subdirectory case of that order: the subdirectory's results go to the back |
| Scan.ScanBeforeCancel | src/rauc-disk-updater.c:179-180 | a scan whose polls all come before the token fires has exactly the result of a never-cancelled scan |
| Scan.CancelledScanIsPrefix | src/rauc-disk-updater.c:179-198 | cancellation only cuts a scan short: its installer calls are a prefix of the never-cancelled scan's calls |
| Scan.ScanMounts | src/rauc-disk-updater.c:349-355 | the mount-point loop keeps the list built so far as a prefix, only adds Info calls for `.raucb` paths, and raises the counter once per bundle added |
| Scan.ScanMountsCancelledAtOnce | src/rauc-disk-updater.c:349 | a token already cancelled at the first poll gives no bundle, no installer call and no counter change |
| Scan.ScanMountsBeforeCancel | src/rauc-disk-updater.c:349-355 | a loop whose polls all come before the token fires behaves as if never cancelled |
| Scan.CancelledMountsArePrefix | src/rauc-disk-updater.c:349-355 | a removal during the loop only cuts it short: the installer calls are a prefix of the uncancelled ones |
| Hook.BuildHookEnv | src/rauc-disk-updater.c:234-257 | the setenv loop produces exactly the hook environment HookEnv |
| Hook.PathVarInjective | src/rauc-disk-updater.c:238 | different bundle numbers give different `BUNDLE_PATH_i` names |
| Hook.VersionVarInjective | src/rauc-disk-updater.c:246 | different bundle numbers give different `BUNDLE_VERSION_i` names |
| Hook.VarsDistinct | src/rauc-disk-updater.c:238-257 | no `BUNDLE_PATH_i` name equals a `BUNDLE_VERSION_j` name or `BUNDLES` |
| Hook.VarsOfDifferentBundles | src/rauc-disk-updater.c:238-246 | the variables of two different bundles have different names |
| Hook.SetBundleVarsValues | src/rauc-disk-updater.c:234-254 | after n rounds, the variables of the i-th bundle (i from 1 to n) hold its path and version |
| Hook.SetBundleVarsFrame | src/rauc-disk-updater.c:234-254 | the rounds touch no variable outside the hook's own |
| Hook.HookEnvLookup | src/rauc-disk-updater.c:234-257 | the hook environment has `BUNDLES` = the list length and `BUNDLE_PATH_i`/`BUNDLE_VERSION_i` of the i-th bundle counting from 1; every other inherited variable is unchanged, and nothing else is added |
| Hook.Decide | src/rauc-disk-updater.c:263-285 | exit status 0 denies; status N with 1 ≤ N ≤ count installs exactly the N-th bundle; a larger status is out of bounds; a spawn failure or an aborted wait installs nothing; a script killed by a signal reads as status 1 and installs the first bundle; each as an iff |
| Hook.TwoBundleDecisions | src/rauc-disk-updater.c:275-285 | with two bundles, status 2 installs the second, 0 denies, 5 is out of bounds and a killed script installs the first |
| Hook.HookSpec | src/rauc-disk-updater.c:225-294 | the script starts iff a script is configured and the list is non-empty; only a bundle of the list can be installed; the Install call is sent iff the decision installs and the token does not read cancelled when the call is made |
| Updater.Context.CheckRaucBundle | src/rauc-disk-updater.c:100-157 | the method's result, polls, counter and call log are those of CheckBundle; nothing else changes |
| Updater.Context.FindRaucBundles | src/rauc-disk-updater.c:166-201 | the method's bundles, polls, counter and call log are those of FindBundles; nothing else changes |
| Updater.Context.RunHookInstall | src/rauc-disk-updater.c:210-298 | the outcome is HookSpec with the token read at the Install call; the call log gains one Install call exactly when that call is sent |
| Updater.Context.ScanMountPoints | src/rauc-disk-updater.c:349-355 | the loop's bundles, polls, counter and call log are those of ScanMounts |
| Updater.Context.OnAttach | src/rauc-disk-updater.c:335-365 | the device count goes up by one (wrapping); the scan's bundles are stored under the disk id, replacing an older entry; the status is idle again; the hook runs unless the token reads cancelled after the scan, and its Install call is sent only if the token still does not read cancelled at that call |
| Updater.Context.OnDetach | src/rauc-disk-updater.c:377-394 | the device count goes down by one (wrapping); the bundle counter becomes 0 exactly when the device count reaches 0; the disk's entry is removed |
| Updater.Context.OnDbusInstall | src/rauc-disk-updater.c:72-88 | one Install call is made; the reply is empty iff the installer succeeds, and otherwise carries the installer's error |
| Udev.TryMountIff | src/udev.c:149-167 | a partition is mounted iff its type is supported, its directory was created or already existed (EEXIST), and mount(2) succeeded; the mount point is `/run/media/disk-updater/<name>` |
| Udev.MountedMembers | src/udev.c:229 | the recorded mount points are exactly the directories of the partitions that were mounted |
| Udev.MountedBound | src/udev.c:229 | there are never more mount points than partitions |
| Udev.UmountWarningsIff | src/udev.c:178-186 | an unmount failure is reported exactly for a recorded mount point whose umount2 failed with an errno other than EINVAL |
| Udev.AttachToken | src/udev.c:231-234 | a disk whose token was already cancelled reads cancelled at every poll during the attach handler |
| Udev.ClassifyFacts | src/udev.c:301-338 | only block devices are handled; "add" is handled only for disks and partitions; "remove" is handled whatever the device type |
| Udev.Disk.constructor | src/udev.c:307-311 | a new record is not attached, not cancelled, with no partitions, no mount points and its timer started now |
| Udev.Monitor.constructor | src/udev.c:440-458 | a new monitor has an empty registry and an empty queue, listens to events and has its worker running |
| Udev.Monitor.MountPartition | src/udev.c:135-168 | the partition's mount point is prepended only on success; on any failure the mount points are unchanged; the warnings logged are the probe's and the failed step's |
| Udev.Monitor.MountProbed | src/udev.c:153-167 | after the probe: mkdir must succeed or give EEXIST, then mount(2) must succeed, before the directory is prepended |
| Udev.Monitor.MountAll | src/udev.c:229 | mounting the partitions in list order prepends exactly the Mounted directories |
| Udev.Monitor.FreeDisk | src/udev.c:195-205 | exactly one umount2 per recorded mount point, in list order; a warning for each failure except EINVAL; the record is then released |
| Udev.Monitor.AddDisk | src/udev.c:305-314 | a fresh record goes under the disk's id and nothing else in the registry changes; a record it replaces is freed (unmounted); one more debounce timer is armed |
| Udev.Monitor.AddPartition | src/udev.c:315-325 | the partition is prepended, and the timer restarted, iff the disk is registered and not attached; otherwise a warning and no change |
| Udev.Monitor.RemoveDisk | src/udev.c:327-338 | a registered id leaves the registry, its record is marked not attached, cancelled and queued; an unknown id changes nothing |
| Udev.Monitor.OnUevent | src/udev.c:287-339 | dispatches as Classify says; a non-block or unhandled event changes nothing; the registry invariant is kept |
| Udev.Monitor.FirstSettled | src/udev.c:266-274 | the disk the search finds is registered and settled, and no registered disk met before it in the iteration order is settled |
| Udev.Monitor.FirstSettledNone | src/udev.c:266-275 | when the search finds nothing, no visited disk is settled |
| Udev.Monitor.NoSettledDisk | src/udev.c:266-275 | when every key is visited, the search finds nothing iff no registered disk is settled |
| Udev.Monitor.OnDiskInitialized | src/udev.c:259-276 | with `order` visiting every registered key: at most one disk is promoted, namely the first settled disk in iteration order, which becomes attached and is queued once, and the call returns FALSE; the call returns TRUE iff no registered disk is settled, and then nothing changes |
| Udev.Monitor.Quit | src/udev.c:364-373 | events stop, the stop marker goes to the front of the queue and every registered disk is cancelled |
| Udev.Monitor.AttachWork | src/udev.c:228-234 | all partitions are mounted before the attach handler runs with the mount points and the disk's token |
| Udev.Monitor.DetachWork | src/udev.c:235-239 | the detach handler runs, then the record is freed with one unmount per mount point |
| Udev.Monitor.ProcessNext | src/udev.c:213-244 | the worker pops the head: the stop marker stops it; an attached disk is mounted and attached; any other disk, including one removed while still pending, is detached and freed; the registry invariant is kept |
| Scenarios.Ext4Supported | src/udev.c:83-124 | a `/proc/filesystems` text holding the line `\text4` supports an ext4 partition |
| Scenarios.MountedSdb1 | src/udev.c:153-167 | partition sdb1 is mounted on `/run/media/disk-updater/sdb1` |
| Scenarios.DiskWithPartition | src/udev.c:304-325 | a disk add followed by a partition add leaves one pending record holding the partition, with its timer restarted at the partition's arrival |
| Scenarios.Debounce | src/udev.c:259-276 | the timer finds no settled disk 1000 ms after the disk appeared (the partition came 600 ms in) and stays armed; 1601 ms in, it promotes the disk and is dropped |
| Scenarios.DebouncedAttach | src/udev.c:228-234 | the promoted disk is mounted at `/run/media/disk-updater/sdb1` and counted as one device |
| Scenarios.PendingRemovalWraps | src/udev.c:235-238 | a disk removed before it settles is still detached by the worker, and the unsigned device count wraps to 4294967295 |

## Left out

- D-Bus plumbing is not modelled:
  - exporting and unexporting the daemon and bundle objects;
  - bus-name ownership, proxy creation and `main`;
  - the Status and DeviceCount property notifications.
  - The installer's Info and Install are oracle answers in `Updater.World`, and the object path of a bundle is kept as a string.
- Threads are not modelled; the model is sequential.
  - The worker thread and the blocking pop of its queue become one step, `Udev.Monitor.ProcessNext`, which returns `Blocked` on an empty queue.
  - The GObject attach and detach signals become direct calls to the handlers.
  - `g_thread_join` in `udev_monitor_quit` is left out.
- A removal that arrives while the attach handler runs cannot be interleaved in a sequential model. The `Cancellation` argument of `ProcessNext` says at which poll such a removal makes the token read cancelled.
- The system calls are outcomes in `Udev.Os`:
  - `mount(2)`, `umount2(2)` and `g_mkdir_with_parents`;
  - reading `/proc/filesystems`;
  - the `g_file_test` stat calls, which become the `Node` kinds of an abstract directory tree.
- Text containing NUL bytes is not modelled. C string functions stop at the first NUL; the model treats the file as a whole character sequence.
- GTimer's floating-point elapsed seconds are replaced by an integer clock in milliseconds; "more than 1.0 s" becomes "more than 1000 ms".
- The iteration order of the GLib hash table is the parameter `order` of `Udev.Monitor.OnDiskInitialized`, which must visit every registered key.
- The hook subprocess is not run. How it ends is an input (`Hook.HookRun`): spawn failure, aborted wait, a normal exit with a status 0-255, or death by a signal.
  - For a script killed by a signal, the model takes the status 1 that `g_subprocess_get_exit_status` reports for a process that did not exit normally. GLib itself is not part of this model; a GLib built without its argument checks would report a different value.
  - How `g_subprocess_wait` reacts to the disk's token is part of that input: a removal during the wait is `WaitAborted`.
  - The Install called from the hook is recorded in the call log; its own success or failure is only logged by the daemon and is not modelled.
- Hook.BuildHookEnv: the bundle counter is printed with `%d` as a plain natural number. Lists of 2^31 bundles or more, where `%d` would print a negative number, are not modelled.
- Memory management is not modelled: reference counting, `g_free`, and the freeing of the uninitialised `interface_path` on the early-exit paths of check_rauc_bundle (src/rauc-disk-updater.c:108, 155). A disk record that was already freed is marked `released`.
- Use of a freed record is not modelled. A disk promoted and then removed before the worker pops it is queued twice (src/udev.c:271, 336). After the first pop has freed the record, the second pop would read freed memory. The model reports that pop as `Dangling` and changes nothing.
- A device without `ID_PART_TABLE_UUID` (a NULL hash key) is not modelled; every device carries an id string.
- `udev_monitor_finalize`, which destroys the registry and so also unmounts the disks still registered, is not modelled. Of the monitor's construction only the empty registry and queue and the running worker are modelled; creating the udev client is plumbing.
- Replacing a disk's entry in `bundles_by_disk` unexports the old bundles over D-Bus; the model only replaces the entry.
- Command-line parsing and process exit codes are not modelled.
