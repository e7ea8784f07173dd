/**
 * The daemon's own state (MainContext) and the handlers that change it:
 * the attach and detach handlers run by the disk worker, the scan they start,
 * the install hook and the Install method of an exported bundle.
 */
module Updater {
  import opened Base
  import opened Text
  import opened Scan
  import opened Hook

  /** The installer's answer to Install(path). */
  datatype InstallReply = InstallOk | InstallFailed(message: string)

  /** What on_dbus_install sends back to its D-Bus caller. */
  datatype DbusReply = EmptyReply | ErrorReply(message: string)

  /**
   * Everything outside the daemon that a handler consults: the installer's
   * answers, the directory tree found below each mount point, how the hook
   * script ends and the daemon's own environment.
   */
  datatype World = World(
    info: string -> Info,
    install: string -> InstallReply,
    volume: string -> Listing,
    hook: HookRun,
    environ: Env)

  const StatusIdle: string := "idle"
  const StatusScanning: string := "scanning"

  /** The scan on_attach performs for a disk with the given mount points, from the given counter and call log. */
  function AttachScan(compatible: Option<string>, w: World, cancel: Cancellation, mountPoints: seq<string>, count: Guint, rpc: seq<Rpc>): Found {
    ScanMounts(ScanCtx(compatible, w.info, cancel), w.volume, mountPoints, 0, [], ScanState(0, count, rpc))
  }

  class Context {
    /** The system's compatible string, read once at start-up. */
    const compatible: Option<string>
    /** The hook script given with --script, if any. */
    const script: Option<string>
    var deviceCount: Guint
    var bundleDbusCount: Guint
    var bundlesByDisk: map<string, seq<Bundle>>
    /** The Status property of the daemon's D-Bus object. */
    var status: string
    /** Every call made to the installer, in order. */
    var rpcLog: seq<Rpc>

    /**
     * The effect of on_attach: the device is counted, the scan's bundles are
     * recorded under the disk id, the status is back to idle, and the hook
     * runs unless the token reads cancelled after the scan; the token is
     * polled once more by the hook's Install call.
     */
    twostate predicate Attached(w: World, id: string, mountPoints: seq<string>, cancel: Cancellation, hook: HookOutcome)
      reads this
    {
      var found := AttachScan(compatible, w, cancel, mountPoints, old(bundleDbusCount), old(rpcLog));
      && deviceCount == Inc(old(deviceCount))
      && status == StatusIdle
      && bundlesByDisk == old(bundlesByDisk)[id := found.bundles]
      && bundleDbusCount == found.st.count
      && hook == (if cancel.Fired(found.st.polls) then NotStarted
                  else HookSpec(script, w.environ, w.hook, found.bundles, cancel.Fired(found.st.polls + 1)))
      && rpcLog == found.st.rpc + InstallCalls(hook)
    }

    /** The effect of on_detach. */
    twostate predicate Detached(id: string)
      reads this
    {
      && deviceCount == Dec(old(deviceCount))
      && bundleDbusCount == (if deviceCount == 0 then 0 else old(bundleDbusCount))
      && bundlesByDisk == old(bundlesByDisk) - {id}
      && status == old(status) && rpcLog == old(rpcLog)
    }

    constructor(compatible: Option<string>, script: Option<string>)
      ensures this.compatible == compatible && this.script == script
      ensures deviceCount == 0 && bundleDbusCount == 0 && bundlesByDisk == map[]
      ensures status == StatusIdle && rpcLog == []
    {
      this.compatible := compatible;
      this.script := script;
      deviceCount := 0;
      bundleDbusCount := 0;
      bundlesByDisk := map[];
      status := StatusIdle;
      rpcLog := [];
    }

    /**
     * check_rauc_bundle, against its specification CheckBundle; `polls` counts
     * the polls of the disk's token made before.
     */
    method CheckRaucBundle(info: string -> Info, cancel: Cancellation, path: string, polls: nat)
      returns (bundle: Option<Bundle>, polled: nat)
      modifies this
      ensures (bundle, ScanState(polled, bundleDbusCount, rpcLog))
        == CheckBundle(ScanCtx(compatible, info, cancel), path, ScanState(polls, old(bundleDbusCount), old(rpcLog)))
      ensures deviceCount == old(deviceCount) && bundlesByDisk == old(bundlesByDisk) && status == old(status)
    {
      bundle := None;
      polled := polls;
      if !HasSuffix(path, BundleSuffix) {
        return;
      }
      // the Info call carries the token: a cancelled token fails it before anything is sent
      var cancelled := cancel.Fired(polled);
      polled := polled + 1;
      if cancelled {
        return;
      }
      rpcLog := rpcLog + [InfoCall(path)];
      var reply := info(path);
      if reply.InfoFailed? {
        return;
      }
      if compatible != Some(reply.compatible) {
        return;
      }
      bundleDbusCount := Inc(bundleDbusCount);
      bundle := Some(Bundle(path, reply.version, ObjectPath(bundleDbusCount)));
    }

    /**
     * find_rauc_bundles on the directory `path`, whose listing is `l`; `polls`
     * counts the polls of the disk's token made before.
     */
    method FindRaucBundles(info: string -> Info, cancel: Cancellation, path: string, l: Listing, polls: nat)
      returns (bundles: seq<Bundle>, polled: nat)
      modifies this
      ensures Found(bundles, ScanState(polled, bundleDbusCount, rpcLog))
        == FindBundles(ScanCtx(compatible, info, cancel), path, l, ScanState(polls, old(bundleDbusCount), old(rpcLog)))
      ensures deviceCount == old(deviceCount) && bundlesByDisk == old(bundlesByDisk) && status == old(status)
      decreases l
    {
      ghost var ctx := ScanCtx(compatible, info, cancel);
      bundles := [];
      polled := polls;
      var i := 0;
      while true
        invariant ScanLoop(ctx, path, l, i, bundles, ScanState(polled, bundleDbusCount, rpcLog))
          == FindBundles(ctx, path, l, ScanState(polls, old(bundleDbusCount), old(rpcLog)))
        invariant deviceCount == old(deviceCount) && bundlesByDisk == old(bundlesByDisk) && status == old(status)
        decreases EntryCount(l) - i
      {
        var cancelled := cancel.Fired(polled);
        polled := polled + 1;
        if cancelled || l.Unreadable? || i >= |l.entries| {
          return;
        }
        var file := path + "/" + l.entries[i].name;
        match l.entries[i] {
          case Symlink(_) =>
          case Special(_) =>
          case Dir(_, sub) =>
            var found, p := FindRaucBundles(info, cancel, file, sub, polled);
            bundles := bundles + found;
            polled := p;
          case File(_) =>
            var bundle, p := CheckRaucBundle(info, cancel, file, polled);
            polled := p;
            if bundle.Some? {
              bundles := [bundle.value] + bundles;
            }
        }
        i := i + 1;
      }
    }

    /**
     * run_hook_install: the environment is built by a loop, the exit status
     * decides; the Install call carries the disk's token, and `poll` is that
     * poll's number.
     */
    method RunHookInstall(w: World, bundles: seq<Bundle>, cancel: Cancellation, poll: nat) returns (hook: HookOutcome)
      modifies this
      ensures hook == HookSpec(script, w.environ, w.hook, bundles, cancel.Fired(poll))
      ensures rpcLog == old(rpcLog) + InstallCalls(hook)
      ensures deviceCount == old(deviceCount) && bundleDbusCount == old(bundleDbusCount)
      ensures bundlesByDisk == old(bundlesByDisk) && status == old(status)
    {
      if script.None? || bundles == [] {
        return NotStarted;
      }
      var env := BuildHookEnv(w.environ, bundles);
      var decision := Decide(bundles, w.hook);
      var sent := false;
      if decision.Install? {
        // a cancelled token fails the Install call before anything is sent
        var cancelled := cancel.Fired(poll);
        if !cancelled {
          rpcLog := rpcLog + [InstallCall(decision.bundle.path)];
          sent := true;
        }
      }
      hook := Started(env, decision, sent);
    }

    /** The mount-point loop of on_attach: scan each mount point in turn while the token does not read cancelled. */
    method ScanMountPoints(w: World, cancel: Cancellation, mountPoints: seq<string>) returns (bundles: seq<Bundle>, polls: nat)
      modifies this
      ensures Found(bundles, ScanState(polls, bundleDbusCount, rpcLog))
        == AttachScan(compatible, w, cancel, mountPoints, old(bundleDbusCount), old(rpcLog))
      ensures deviceCount == old(deviceCount) && bundlesByDisk == old(bundlesByDisk) && status == old(status)
    {
      ghost var ctx := ScanCtx(compatible, w.info, cancel);
      bundles := [];
      polls := 0;
      var i := 0;
      while i < |mountPoints|
        invariant i <= |mountPoints|
        invariant ScanMounts(ctx, w.volume, mountPoints, i, bundles, ScanState(polls, bundleDbusCount, rpcLog))
          == AttachScan(compatible, w, cancel, mountPoints, old(bundleDbusCount), old(rpcLog))
        invariant deviceCount == old(deviceCount) && bundlesByDisk == old(bundlesByDisk) && status == old(status)
        decreases |mountPoints| - i
      {
        var cancelled := cancel.Fired(polls);
        if cancelled {
          polls := polls + 1;
          return;
        }
        ScanMountsStep(ctx, w.volume, mountPoints, i, bundles, ScanState(polls, bundleDbusCount, rpcLog));
        polls := polls + 1;
        var found, p := FindRaucBundles(w.info, cancel, mountPoints[i], w.volume(mountPoints[i]), polls);
        bundles := bundles + found;
        polls := p;
        i := i + 1;
      }
    }

    /**
     * on_attach for the disk `id` with the given mount points: count the
     * device, scan every mount point while the token does not read
     * cancelled, record the bundles under the disk id (replacing an older
     * entry), and run the hook unless the token reads cancelled by then.
     */
    method OnAttach(w: World, id: string, mountPoints: seq<string>, cancel: Cancellation) returns (hook: HookOutcome)
      modifies this
      ensures Attached(w, id, mountPoints, cancel, hook)
    {
      deviceCount := Inc(deviceCount);
      status := StatusScanning;
      var bundles, polls := ScanMountPoints(w, cancel, mountPoints);
      bundlesByDisk := bundlesByDisk[id := bundles];
      status := StatusIdle;
      if !cancel.Fired(polls) {
        hook := RunHookInstall(w, bundles, cancel, polls + 1);
      } else {
        hook := NotStarted;
      }
    }

    /**
     * on_detach: the device count goes down (an unsigned decrement), the
     * bundle counter is reset exactly when no device is left, and the disk's
     * bundles are dropped.
     */
    method OnDetach(id: string)
      modifies this
      ensures Detached(id)
    {
      deviceCount := Dec(deviceCount);
      if deviceCount == 0 {
        bundleDbusCount := 0;
      }
      bundlesByDisk := bundlesByDisk - {id};
    }

    /** on_dbus_install: forward Install to the installer; an error is passed back, success gives an empty reply. */
    method OnDbusInstall(w: World, bundle: Bundle) returns (reply: DbusReply)
      modifies this
      ensures reply == EmptyReply <==> w.install(bundle.path) == InstallOk
      ensures reply.ErrorReply? ==> w.install(bundle.path) == InstallFailed(reply.message)
      ensures rpcLog == old(rpcLog) + [InstallCall(bundle.path)]
      ensures deviceCount == old(deviceCount) && bundleDbusCount == old(bundleDbusCount)
      ensures bundlesByDisk == old(bundlesByDisk) && status == old(status)
    {
      rpcLog := rpcLog + [InstallCall(bundle.path)];
      match w.install(bundle.path) {
        case InstallOk => reply := EmptyReply;
        case InstallFailed(message) => reply := ErrorReply(message);
      }
    }
  }
}
