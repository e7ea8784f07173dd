/**
 * Bundle discovery on a mounted volume: the filter applied to each regular
 * file (check_rauc_bundle) and the recursive directory walk that collects the
 * accepted bundles (find_rauc_bundles), as functions over an abstract
 * directory tree. The installer's Info answer is an oracle, and so is the
 * moment at which the disk's cancellation token starts to read "cancelled".
 */
module Scan {
  import opened Base
  import opened Text

  /** Only files with this suffix are offered to the installer. */
  const BundleSuffix: string := ".raucb"

  /** Accepted bundles are exported over D-Bus below this object path. */
  const BundleObjectPrefix: string := "/de/helbling/DiskUpdater/bundles/"

  /** A directory entry, classified as lstat would classify it. */
  datatype Node =
    | Symlink(name: string)
    | Dir(name: string, listing: Listing)
    | File(name: string)
    | Special(name: string)   // neither link, directory nor regular file

  /** What g_dir_open gives for a directory: nothing, or its entries in read order. */
  datatype Listing = Unreadable | Entries(entries: seq<Node>)

  /** The installer's answer to Info(path). */
  datatype Info = InfoOk(compatible: string, version: string) | InfoFailed

  /** A call made to the installer, in the order the daemon issues them. */
  datatype Rpc = InfoCall(path: string) | InstallCall(path: string)

  /** An accepted bundle as exported over D-Bus: its file, its version and its object path. */
  datatype Bundle = Bundle(path: string, version: string, objectPath: string)

  /**
   * The disk's cancellation token as the worker sees it: polls are numbered
   * from 0, and once the token reads cancelled it stays cancelled. `firesAt`
   * is the first poll that reads cancelled (None: no poll does).
   */
  datatype Cancellation = Cancellation(firesAt: Option<nat>) {
    predicate Fired(poll: nat) {
      firesAt.Some? && firesAt.value <= poll
    }
  }

  const NeverCancelled: Cancellation := Cancellation(None)

  /**
   * What a scan consults: the system's compatible string (None when the
   * installer did not provide one), the installer's Info, the token.
   */
  datatype ScanCtx = ScanCtx(compatible: Option<string>, info: string -> Info, cancel: Cancellation)

  /** What a scan changes: polls made so far, bundle_dbus_count, the installer calls made. */
  datatype ScanState = ScanState(polls: nat, count: Guint, rpc: seq<Rpc>)

  datatype Found = Found(bundles: seq<Bundle>, st: ScanState)

  /** The D-Bus object path of the n-th exported bundle; the counter is printed with `%d`. */
  function ObjectPath(n: Guint): string {
    BundleObjectPrefix + FormatInt(AsGint(n))
  }

  /** Different bundle numbers give different object paths. */
  lemma ObjectPathInjective(m: Guint, n: Guint)
    ensures ObjectPath(m) == ObjectPath(n) ==> m == n
  {
    if ObjectPath(m) == ObjectPath(n) {
      var k := |BundleObjectPrefix|;
      assert FormatInt(AsGint(m)) == ObjectPath(m)[k..];
      assert FormatInt(AsGint(n)) == ObjectPath(n)[k..];
      FormatIntInjective(AsGint(m), AsGint(n));
    }
  }

  /** After the counter is reset, the first accepted bundle is exported as .../bundles/1. */
  lemma FirstObjectPath()
    ensures ObjectPath(Inc(0)) == "/de/helbling/DiskUpdater/bundles/1"
  {
    assert FormatInt(AsGint(1)) == "1";
  }

  /** `c + k` on a guint. */
  function AddWrap(c: Guint, k: nat): Guint {
    (c + k) % GuintModulus
  }

  /** A file is accepted when it has the bundle suffix and Info reports the system's compatible string. */
  predicate Accepted(ctx: ScanCtx, path: string) {
    && HasSuffix(path, BundleSuffix)
    && ctx.info(path).InfoOk?
    && ctx.compatible == Some(ctx.info(path).compatible)
  }

  // ---------------------------------------------------------------- check_rauc_bundle

  /**
   * check_rauc_bundle: a file without the bundle suffix is dropped without
   * asking the installer. Otherwise Info is called with the disk's token,
   * which is one more poll: a token that already reads cancelled fails the
   * call before anything is sent. The file is accepted when Info succeeds
   * with the system's compatible string; an accepted file takes the next
   * bundle number and is exported under that number.
   */
  function CheckBundle(ctx: ScanCtx, path: string, st: ScanState): (r: (Option<Bundle>, ScanState))
    ensures r.1.polls == st.polls + if HasSuffix(path, BundleSuffix) then 1 else 0
    ensures r.0.Some? <==> Accepted(ctx, path) && !ctx.cancel.Fired(st.polls)
    ensures r.1.rpc == st.rpc + if HasSuffix(path, BundleSuffix) && !ctx.cancel.Fired(st.polls) then [InfoCall(path)] else []
    ensures r.0.None? ==> r.1.count == st.count
    ensures r.0.Some? ==>
      && r.1.count == Inc(st.count)
      && r.0.value.path == path
      && r.0.value.objectPath == ObjectPath(Inc(st.count))
      && ctx.compatible.Some?
      && ctx.info(path) == InfoOk(ctx.compatible.value, r.0.value.version)
  {
    if !HasSuffix(path, BundleSuffix) then (None, st)
    else if ctx.cancel.Fired(st.polls) then (None, st.(polls := st.polls + 1))
    else
      var st1 := st.(polls := st.polls + 1, rpc := st.rpc + [InfoCall(path)]);
      match ctx.info(path)
      case InfoFailed => (None, st1)
      case InfoOk(compatible, version) =>
        if ctx.compatible != Some(compatible) then (None, st1)
        else
          var n := Inc(st.count);
          (Some(Bundle(path, version, ObjectPath(n))), st1.(count := n))
  }

  // ---------------------------------------------------------------- find_rauc_bundles

  function EntryCount(l: Listing): nat {
    if l.Entries? then |l.entries| else 0
  }

  /**
   * The read loop of find_rauc_bundles from entry `i` on, with `acc` the list
   * built so far. Each round first polls the token, then stops if it reads
   * cancelled, if the directory could not be opened or if no entry is left.
   * Symbolic links and special files are skipped, a subdirectory's bundles
   * are appended, an accepted regular file is prepended.
   */
  function ScanLoop(ctx: ScanCtx, path: string, l: Listing, i: nat, acc: seq<Bundle>, st: ScanState): (r: Found)
    ensures r.st.polls > st.polls
    ensures st.rpc <= r.st.rpc
    ensures forall k :: |st.rpc| <= k < |r.st.rpc| ==> r.st.rpc[k].InfoCall? && HasSuffix(r.st.rpc[k].path, BundleSuffix)
    ensures |r.bundles| >= |acc| && r.st.count == AddWrap(st.count, |r.bundles| - |acc|)
    ensures forall b :: b in acc ==> b in r.bundles
    decreases l, EntryCount(l) - i
  {
    var st1 := st.(polls := st.polls + 1);
    if ctx.cancel.Fired(st.polls) || l.Unreadable? || i >= |l.entries| then Found(acc, st1)
    else
      var entry := l.entries[i];
      var file := path + "/" + entry.name;
      match entry
      case Symlink(_) => ScanLoop(ctx, path, l, i + 1, acc, st1)
      case Special(_) => ScanLoop(ctx, path, l, i + 1, acc, st1)
      case File(_) =>
        var (b, st2) := CheckBundle(ctx, file, st1);
        var acc2 := if b.Some? then [b.value] + acc else acc;
        var r := ScanLoop(ctx, path, l, i + 1, acc2, st2);
        if b.Some? then AddWrapStep(st1.count, |r.bundles| - |acc2|); r else r
      case Dir(_, sub) =>
        var s := ScanLoop(ctx, file, sub, 0, [], st1);
        var r := ScanLoop(ctx, path, l, i + 1, acc + s.bundles, s.st);
        AddWrapTwice(st1.count, |s.bundles|, |r.bundles| - |acc| - |s.bundles|);
        r
  }

  /** find_rauc_bundles on the directory `path` whose listing is `l`. */
  function FindBundles(ctx: ScanCtx, path: string, l: Listing, st: ScanState): Found {
    ScanLoop(ctx, path, l, 0, [], st)
  }

  lemma AddWrapStep(c: Guint, k: nat)
    ensures AddWrap(Inc(c), k) == AddWrap(c, k + 1)
  {
  }

  lemma AddWrapTwice(c: Guint, j: nat, k: nat)
    ensures AddWrap(AddWrap(c, j), k) == AddWrap(c, j + k)
  {
  }

  // ---------------------------------------------------------------- the mount-point loop of on_attach

  /**
   * The loop of on_attach over the mount points from `i` on: while a mount
   * point is left and the token does not read cancelled, its bundles are
   * appended to the list.
   */
  function ScanMounts(ctx: ScanCtx, volume: string -> Listing, mps: seq<string>, i: nat, acc: seq<Bundle>, st: ScanState): (r: Found)
    ensures r.st.polls >= st.polls
    ensures st.rpc <= r.st.rpc
    ensures forall k :: |st.rpc| <= k < |r.st.rpc| ==> r.st.rpc[k].InfoCall? && HasSuffix(r.st.rpc[k].path, BundleSuffix)
    ensures |r.bundles| >= |acc| && r.bundles[..|acc|] == acc
    ensures r.st.count == AddWrap(st.count, |r.bundles| - |acc|)
    decreases |mps| - i
  {
    if i >= |mps| then Found(acc, st)
    else if ctx.cancel.Fired(st.polls) then Found(acc, st.(polls := st.polls + 1))
    else
      var s := FindBundles(ctx, mps[i], volume(mps[i]), st.(polls := st.polls + 1));
      var r := ScanMounts(ctx, volume, mps, i + 1, acc + s.bundles, s.st);
      assert r.bundles[..|acc|] == (acc + s.bundles)[..|acc|];
      AddWrapTwice(st.count, |s.bundles|, |r.bundles| - |acc| - |s.bundles|);
      r
  }

  /** A disk whose token reads cancelled at the first poll yields no bundle and no installer call. */
  lemma ScanMountsCancelledAtOnce(ctx: ScanCtx, volume: string -> Listing, mps: seq<string>, st: ScanState)
    requires ctx.cancel.Fired(st.polls)
    ensures var r := ScanMounts(ctx, volume, mps, 0, [], st);
      r.bundles == [] && r.st.rpc == st.rpc && r.st.count == st.count && ctx.cancel.Fired(r.st.polls)
  {
  }

  /** A mount-point loop whose polls all come before the token fires behaves as if it were never cancelled. */
  lemma {:induction false} ScanMountsBeforeCancel(ctx: ScanCtx, volume: string -> Listing, mps: seq<string>, i: nat, acc: seq<Bundle>, st: ScanState)
    requires ctx.cancel.firesAt.Some?
    requires ScanMounts(ctx, volume, mps, i, acc, st).st.polls <= ctx.cancel.firesAt.value
    ensures ScanMounts(ctx, volume, mps, i, acc, st) == ScanMounts(ctx.(cancel := NeverCancelled), volume, mps, i, acc, st)
    decreases |mps| - i
  {
    if i < |mps| {
      var st1 := st.(polls := st.polls + 1);
      var s := FindBundles(ctx, mps[i], volume(mps[i]), st1);
      ScanBeforeCancel(ctx, mps[i], volume(mps[i]), 0, [], st1);
      ScanMountsBeforeCancel(ctx, volume, mps, i + 1, acc + s.bundles, s.st);
    }
  }

  /**
   * Removing the disk only cuts the scan short: the installer calls made
   * while the token fires part-way are a prefix of those of the same scan
   * when it is never cancelled.
   */
  lemma {:induction false} CancelledMountsArePrefix(ctx: ScanCtx, volume: string -> Listing, mps: seq<string>, i: nat, acc: seq<Bundle>, st: ScanState)
    ensures ScanMounts(ctx, volume, mps, i, acc, st).st.rpc <= ScanMounts(ctx.(cancel := NeverCancelled), volume, mps, i, acc, st).st.rpc
    decreases |mps| - i
  {
    var never := ctx.(cancel := NeverCancelled);
    if ctx.cancel.firesAt.None? {
      assert never == ctx;
    } else if i < |mps| && !ctx.cancel.Fired(st.polls) {
      var st1 := st.(polls := st.polls + 1);
      var s := FindBundles(ctx, mps[i], volume(mps[i]), st1);
      var q := FindBundles(never, mps[i], volume(mps[i]), st1);
      ScanMountsStep(ctx, volume, mps, i, acc, st);
      ScanMountsStep(never, volume, mps, i, acc, st);
      if s.st.polls <= ctx.cancel.firesAt.value {
        ScanBeforeCancel(ctx, mps[i], volume(mps[i]), 0, [], st1);
        CancelledMountsArePrefix(ctx, volume, mps, i + 1, acc + s.bundles, s.st);
      } else {
        CancelledScanIsPrefix(ctx, mps[i], volume(mps[i]), 0, [], st1);
        var rest := ScanMounts(never, volume, mps, i + 1, acc + q.bundles, q.st);
        assert ScanMounts(ctx, volume, mps, i + 1, acc + s.bundles, s.st).st.rpc == s.st.rpc;
        assert s.st.rpc <= q.st.rpc <= rest.st.rpc;
      }
    }
  }

  /** One uncancelled round of the mount-point loop. */
  lemma ScanMountsStep(ctx: ScanCtx, volume: string -> Listing, mps: seq<string>, i: nat, acc: seq<Bundle>, st: ScanState)
    requires i < |mps| && !ctx.cancel.Fired(st.polls)
    ensures var s := FindBundles(ctx, mps[i], volume(mps[i]), st.(polls := st.polls + 1));
      ScanMounts(ctx, volume, mps, i, acc, st) == ScanMounts(ctx, volume, mps, i + 1, acc + s.bundles, s.st)
  {
  }

  // ---------------------------------------------------------------- what a scan finds

  /** The regular files reachable from entry `i` on, descending into subdirectories but never through a symbolic link. */
  function Files(path: string, l: Listing, i: nat): set<string>
    decreases l, EntryCount(l) - i
  {
    if l.Unreadable? || i >= |l.entries| then {}
    else
      var file := path + "/" + l.entries[i].name;
      var here := match l.entries[i]
        case File(_) => {file}
        case Dir(_, sub) => Files(file, sub, 0)
        case _ => {};
      here + Files(path, l, i + 1)
  }

  /** `b` is what the installer reported for its file: the suffix matches and Info gave the system's compatible string and `b`'s version. */
  predicate Reported(ctx: ScanCtx, b: Bundle) {
    && HasSuffix(b.path, BundleSuffix)
    && ctx.compatible.Some?
    && ctx.info(b.path) == InfoOk(ctx.compatible.value, b.version)
  }

  /** Every bundle a scan adds is a reachable regular file that the installer accepted, with the version it reported. */
  lemma {:induction false} ScanSound(ctx: ScanCtx, path: string, l: Listing, i: nat, acc: seq<Bundle>, st: ScanState)
    ensures forall b :: b in ScanLoop(ctx, path, l, i, acc, st).bundles ==>
      b in acc || (b.path in Files(path, l, i) && Reported(ctx, b))
    decreases l, EntryCount(l) - i
  {
    var st1 := st.(polls := st.polls + 1);
    if !(ctx.cancel.Fired(st.polls) || l.Unreadable? || i >= |l.entries|) {
      var file := path + "/" + l.entries[i].name;
      match l.entries[i]
      case Symlink(_) => ScanSound(ctx, path, l, i + 1, acc, st1);
      case Special(_) => ScanSound(ctx, path, l, i + 1, acc, st1);
      case File(_) =>
        var (b, st2) := CheckBundle(ctx, file, st1);
        var acc2 := if b.Some? then [b.value] + acc else acc;
        ScanSound(ctx, path, l, i + 1, acc2, st2);
      case Dir(_, sub) =>
        var s := ScanLoop(ctx, file, sub, 0, [], st1);
        ScanSound(ctx, file, sub, 0, [], st1);
        ScanSound(ctx, path, l, i + 1, acc + s.bundles, s.st);
    }
  }

  /** A scan that is never cancelled finds every reachable regular file the installer accepts. */
  lemma {:induction false} ScanComplete(ctx: ScanCtx, path: string, l: Listing, i: nat, acc: seq<Bundle>, st: ScanState)
    requires ctx.cancel.firesAt.None?
    ensures forall f :: f in Files(path, l, i) && Accepted(ctx, f) ==>
      exists b :: b in ScanLoop(ctx, path, l, i, acc, st).bundles && b.path == f
    decreases l, EntryCount(l) - i
  {
    var st1 := st.(polls := st.polls + 1);
    if !(l.Unreadable? || i >= |l.entries|) {
      var file := path + "/" + l.entries[i].name;
      match l.entries[i]
      case Symlink(_) => ScanComplete(ctx, path, l, i + 1, acc, st1);
      case Special(_) => ScanComplete(ctx, path, l, i + 1, acc, st1);
      case File(_) =>
        var (b, st2) := CheckBundle(ctx, file, st1);
        var acc2 := if b.Some? then [b.value] + acc else acc;
        ScanComplete(ctx, path, l, i + 1, acc2, st2);
        if Accepted(ctx, file) {
          assert b.value in acc2;
        }
      case Dir(_, sub) =>
        var s := ScanLoop(ctx, file, sub, 0, [], st1);
        var r := ScanLoop(ctx, path, l, i + 1, acc + s.bundles, s.st);
        ScanComplete(ctx, file, sub, 0, [], st1);
        ScanComplete(ctx, path, l, i + 1, acc + s.bundles, s.st);
        forall f | f in Files(file, sub, 0) && Accepted(ctx, f)
          ensures exists b :: b in r.bundles && b.path == f
        {
          var b :| b in s.bundles && b.path == f;
          assert b in acc + s.bundles;
        }
    }
  }

  // ---------------------------------------------------------------- the order of the result

  function PathsOf(bs: seq<Bundle>): (r: seq<string>)
    ensures |r| == |bs|
  {
    if bs == [] then [] else [bs[0].path] + PathsOf(bs[1..])
  }

  lemma {:induction false} PathsOfAppend(a: seq<Bundle>, b: seq<Bundle>)
    ensures PathsOf(a + b) == PathsOf(a) + PathsOf(b)
  {
    if a != [] {
      assert (a + b)[0] == a[0];
      assert (a + b)[1..] == a[1..] + b;
      PathsOfAppend(a[1..], b);
      calc {
        PathsOf(a + b);
        [a[0].path] + PathsOf(a[1..] + b);
        [a[0].path] + (PathsOf(a[1..]) + PathsOf(b));
        ([a[0].path] + PathsOf(a[1..])) + PathsOf(b);
      }
    } else {
      assert a + b == b;
    }
  }

  /**
   * The order find_rauc_bundles produces, as a reference independent of the
   * loop: `direct` are the accepted regular files of the directory itself, the
   * last one read first; `nested` are the results of the subdirectories, in the
   * order they were read.
   */
  datatype Order = Order(direct: seq<string>, nested: seq<string>)

  function ExpectedOrder(ctx: ScanCtx, path: string, l: Listing, i: nat): Order
    decreases l, EntryCount(l) - i
  {
    if l.Unreadable? || i >= |l.entries| then Order([], [])
    else
      var file := path + "/" + l.entries[i].name;
      var rest := ExpectedOrder(ctx, path, l, i + 1);
      match l.entries[i]
      case File(_) => Order(rest.direct + if Accepted(ctx, file) then [file] else [], rest.nested)
      case Dir(_, sub) =>
        var s := ExpectedOrder(ctx, file, sub, 0);
        Order(rest.direct, s.direct + s.nested + rest.nested)
      case _ => rest
  }

  /**
   * Without cancellation, the scan puts the directory's own bundles first
   * (most recently read first), then what it had before, then the bundles of
   * each subdirectory in read order.
   */
  lemma {:induction false} ScanOrder(ctx: ScanCtx, path: string, l: Listing, i: nat, acc: seq<Bundle>, st: ScanState)
    requires ctx.cancel.firesAt.None?
    ensures var o := ExpectedOrder(ctx, path, l, i);
      PathsOf(ScanLoop(ctx, path, l, i, acc, st).bundles) == o.direct + PathsOf(acc) + o.nested
    decreases l, EntryCount(l) - i, 1
  {
    var st1 := st.(polls := st.polls + 1);
    if !(l.Unreadable? || i >= |l.entries|) {
      var file := path + "/" + l.entries[i].name;
      match l.entries[i]
      case Symlink(_) =>
        ScanLoopSkip(ctx, path, l, i, acc, st);
        ScanOrder(ctx, path, l, i + 1, acc, st1);
      case Special(_) =>
        ScanLoopSkip(ctx, path, l, i, acc, st);
        ScanOrder(ctx, path, l, i + 1, acc, st1);
      case File(_) => ScanOrderFile(ctx, path, l, i, acc, st);
      case Dir(_, sub) => ScanOrderDir(ctx, path, l, i, acc, st);
    }
  }

  /** The regular-file step of ScanOrder. */
  lemma {:induction false} ScanOrderFile(ctx: ScanCtx, path: string, l: Listing, i: nat, acc: seq<Bundle>, st: ScanState)
    requires ctx.cancel.firesAt.None?
    requires l.Entries? && i < |l.entries| && l.entries[i].File?
    ensures var o := ExpectedOrder(ctx, path, l, i);
      PathsOf(ScanLoop(ctx, path, l, i, acc, st).bundles) == o.direct + PathsOf(acc) + o.nested
    decreases l, EntryCount(l) - i, 0
  {
    var st1 := st.(polls := st.polls + 1);
    var file := path + "/" + l.entries[i].name;
    var c := CheckBundle(ctx, file, st1);
    var acc2 := if c.0.Some? then [c.0.value] + acc else acc;
    var rest := ExpectedOrder(ctx, path, l, i + 1);
    var pa := PathsOf(acc);
    ScanLoopFile(ctx, path, l, i, acc, st);
    ExpectedOrderFileStep(ctx, path, l, i);
    ScanOrder(ctx, path, l, i + 1, acc2, c.1);
    var r := ScanLoop(ctx, path, l, i + 1, acc2, c.1).bundles;
    if c.0.Some? {
      PrependedPath(rest.direct, rest.nested, acc, c.0.value, r);
      assert ExpectedOrder(ctx, path, l, i).direct == rest.direct + [file];
    } else {
      assert ExpectedOrder(ctx, path, l, i).direct == rest.direct + [] == rest.direct;
    }
  }

  /** Prepending a bundle to what the loop had puts its path at the end of the directory's own part. */
  lemma PrependedPath(direct: seq<string>, nested: seq<string>, acc: seq<Bundle>, b: Bundle, result: seq<Bundle>)
    requires PathsOf(result) == direct + PathsOf([b] + acc) + nested
    ensures PathsOf(result) == direct + [b.path] + PathsOf(acc) + nested
  {
    PathsOfAppend([b], acc);
    assert PathsOf([b]) == [b.path];
    Append3(direct, [b.path], PathsOf(acc));
  }

  lemma ExpectedOrderFileStep(ctx: ScanCtx, path: string, l: Listing, i: nat)
    requires l.Entries? && i < |l.entries| && l.entries[i].File?
    ensures var file := path + "/" + l.entries[i].name;
      var rest := ExpectedOrder(ctx, path, l, i + 1);
      ExpectedOrder(ctx, path, l, i) == Order(rest.direct + if Accepted(ctx, file) then [file] else [], rest.nested)
  {
  }

  /** The subdirectory step of ScanOrder. */
  lemma {:induction false} ScanOrderDir(ctx: ScanCtx, path: string, l: Listing, i: nat, acc: seq<Bundle>, st: ScanState)
    requires ctx.cancel.firesAt.None?
    requires l.Entries? && i < |l.entries| && l.entries[i].Dir?
    ensures var o := ExpectedOrder(ctx, path, l, i);
      PathsOf(ScanLoop(ctx, path, l, i, acc, st).bundles) == o.direct + PathsOf(acc) + o.nested
    decreases l, EntryCount(l) - i, 0
  {
    var st1 := st.(polls := st.polls + 1);
    var file := path + "/" + l.entries[i].name;
    var sub := l.entries[i].listing;
    var s := ScanLoop(ctx, file, sub, 0, [], st1);
    var so := ExpectedOrder(ctx, file, sub, 0);
    var rest := ExpectedOrder(ctx, path, l, i + 1);
    var r := ScanLoop(ctx, path, l, i + 1, acc + s.bundles, s.st);
    ScanLoopDirStep(ctx, path, l, i, acc, st);
    ExpectedOrderDirStep(ctx, path, l, i);
    ScanOrder(ctx, file, sub, 0, [], st1);
    var ps := PathsOf(s.bundles);
    assert ps == so.direct + so.nested;
    ScanOrder(ctx, path, l, i + 1, acc + s.bundles, s.st);
    PathsOfAppend(acc, s.bundles);
    var pa := PathsOf(acc);
    assert PathsOf(r.bundles) == rest.direct + (pa + ps) + rest.nested;
    Append3(rest.direct, pa, ps);
    Append3(rest.direct + pa, ps, rest.nested);
  }

  /** One uncancelled round of the read loop on a symbolic link or a special file: the entry is skipped. */
  lemma ScanLoopSkip(ctx: ScanCtx, path: string, l: Listing, i: nat, acc: seq<Bundle>, st: ScanState)
    requires !ctx.cancel.Fired(st.polls)
    requires l.Entries? && i < |l.entries| && (l.entries[i].Symlink? || l.entries[i].Special?)
    ensures ScanLoop(ctx, path, l, i, acc, st) == ScanLoop(ctx, path, l, i + 1, acc, st.(polls := st.polls + 1))
  {
  }

  /** One uncancelled round of the read loop on a regular file: an accepted file is prepended. */
  lemma ScanLoopFile(ctx: ScanCtx, path: string, l: Listing, i: nat, acc: seq<Bundle>, st: ScanState)
    requires !ctx.cancel.Fired(st.polls)
    requires l.Entries? && i < |l.entries| && l.entries[i].File?
    ensures var c := CheckBundle(ctx, path + "/" + l.entries[i].name, st.(polls := st.polls + 1));
      ScanLoop(ctx, path, l, i, acc, st) == ScanLoop(ctx, path, l, i + 1, if c.0.Some? then [c.0.value] + acc else acc, c.1)
  {
  }

  /** One uncancelled round of the read loop on a subdirectory entry. */
  lemma ScanLoopDirStep(ctx: ScanCtx, path: string, l: Listing, i: nat, acc: seq<Bundle>, st: ScanState)
    requires !ctx.cancel.Fired(st.polls)
    requires l.Entries? && i < |l.entries| && l.entries[i].Dir?
    ensures var s := ScanLoop(ctx, path + "/" + l.entries[i].name, l.entries[i].listing, 0, [], st.(polls := st.polls + 1));
      ScanLoop(ctx, path, l, i, acc, st) == ScanLoop(ctx, path, l, i + 1, acc + s.bundles, s.st)
  {
  }

  lemma ExpectedOrderDirStep(ctx: ScanCtx, path: string, l: Listing, i: nat)
    requires l.Entries? && i < |l.entries| && l.entries[i].Dir?
    ensures var so := ExpectedOrder(ctx, path + "/" + l.entries[i].name, l.entries[i].listing, 0);
      var rest := ExpectedOrder(ctx, path, l, i + 1);
      ExpectedOrder(ctx, path, l, i) == Order(rest.direct, so.direct + so.nested + rest.nested)
  {
  }

  // ---------------------------------------------------------------- cancellation

  /** A scan whose polls all come before the token fires behaves as if it were never cancelled. */
  lemma {:induction false} ScanBeforeCancel(ctx: ScanCtx, path: string, l: Listing, i: nat, acc: seq<Bundle>, st: ScanState)
    requires ctx.cancel.firesAt.Some?
    requires ScanLoop(ctx, path, l, i, acc, st).st.polls <= ctx.cancel.firesAt.value
    ensures ScanLoop(ctx, path, l, i, acc, st) == ScanLoop(ctx.(cancel := NeverCancelled), path, l, i, acc, st)
    decreases l, EntryCount(l) - i, 1
  {
    var never := ctx.(cancel := NeverCancelled);
    var st1 := st.(polls := st.polls + 1);
    if !(l.Unreadable? || i >= |l.entries|) {
      var file := path + "/" + l.entries[i].name;
      assert !ctx.cancel.Fired(st.polls);
      match l.entries[i]
      case Symlink(_) =>
        ScanLoopSkip(ctx, path, l, i, acc, st);
        ScanLoopSkip(never, path, l, i, acc, st);
        ScanBeforeCancel(ctx, path, l, i + 1, acc, st1);
      case Special(_) =>
        ScanLoopSkip(ctx, path, l, i, acc, st);
        ScanLoopSkip(never, path, l, i, acc, st);
        ScanBeforeCancel(ctx, path, l, i + 1, acc, st1);
      case File(_) => FileBeforeCancel(ctx, path, l, i, acc, st);
      case Dir(_, sub) => DirBeforeCancel(ctx, path, l, i, acc, st);
    }
  }

  /** The regular-file step of ScanBeforeCancel. */
  lemma {:induction false} FileBeforeCancel(ctx: ScanCtx, path: string, l: Listing, i: nat, acc: seq<Bundle>, st: ScanState)
    requires ctx.cancel.firesAt.Some? && !ctx.cancel.Fired(st.polls)
    requires l.Entries? && i < |l.entries| && l.entries[i].File?
    requires ScanLoop(ctx, path, l, i, acc, st).st.polls <= ctx.cancel.firesAt.value
    ensures ScanLoop(ctx, path, l, i, acc, st) == ScanLoop(ctx.(cancel := NeverCancelled), path, l, i, acc, st)
    decreases l, EntryCount(l) - i, 0
  {
    var never := ctx.(cancel := NeverCancelled);
    var st1 := st.(polls := st.polls + 1);
    var file := path + "/" + l.entries[i].name;
    var c := CheckBundle(ctx, file, st1);
    assert CheckBundle(never, file, st1) == c;
    ScanLoopFile(ctx, path, l, i, acc, st);
    ScanLoopFile(never, path, l, i, acc, st);
    ScanBeforeCancel(ctx, path, l, i + 1, if c.0.Some? then [c.0.value] + acc else acc, c.1);
  }

  /** The subdirectory step of ScanBeforeCancel. */
  lemma {:induction false} DirBeforeCancel(ctx: ScanCtx, path: string, l: Listing, i: nat, acc: seq<Bundle>, st: ScanState)
    requires ctx.cancel.firesAt.Some? && !ctx.cancel.Fired(st.polls)
    requires l.Entries? && i < |l.entries| && l.entries[i].Dir?
    requires ScanLoop(ctx, path, l, i, acc, st).st.polls <= ctx.cancel.firesAt.value
    ensures ScanLoop(ctx, path, l, i, acc, st) == ScanLoop(ctx.(cancel := NeverCancelled), path, l, i, acc, st)
    decreases l, EntryCount(l) - i, 0
  {
    var never := ctx.(cancel := NeverCancelled);
    var st1 := st.(polls := st.polls + 1);
    var file := path + "/" + l.entries[i].name;
    var sub := l.entries[i].listing;
    var s := ScanLoop(ctx, file, sub, 0, [], st1);
    ScanLoopDirStep(ctx, path, l, i, acc, st);
    ScanLoopDirStep(never, path, l, i, acc, st);
    ScanBeforeCancel(ctx, file, sub, 0, [], st1);
    ScanBeforeCancel(ctx, path, l, i + 1, acc + s.bundles, s.st);
  }

  /**
   * Cancellation only cuts a scan short: the installer calls of a cancelled
   * scan are a prefix of those the same scan makes when it is never cancelled.
   */
  lemma {:induction false} CancelledScanIsPrefix(ctx: ScanCtx, path: string, l: Listing, i: nat, acc: seq<Bundle>, st: ScanState)
    ensures ScanLoop(ctx, path, l, i, acc, st).st.rpc <= ScanLoop(ctx.(cancel := NeverCancelled), path, l, i, acc, st).st.rpc
    decreases l, EntryCount(l) - i, 1
  {
    var st1 := st.(polls := st.polls + 1);
    if ctx.cancel.firesAt.None? {
      assert ctx.(cancel := NeverCancelled) == ctx;
    } else if !(ctx.cancel.Fired(st.polls) || l.Unreadable? || i >= |l.entries|) {
      var file := path + "/" + l.entries[i].name;
      var never := ctx.(cancel := NeverCancelled);
      match l.entries[i]
      case Symlink(_) =>
        ScanLoopSkip(ctx, path, l, i, acc, st);
        ScanLoopSkip(never, path, l, i, acc, st);
        CancelledScanIsPrefix(ctx, path, l, i + 1, acc, st1);
      case Special(_) =>
        ScanLoopSkip(ctx, path, l, i, acc, st);
        ScanLoopSkip(never, path, l, i, acc, st);
        CancelledScanIsPrefix(ctx, path, l, i + 1, acc, st1);
      case File(_) => CancelledFileIsPrefix(ctx, path, l, i, acc, st);
      case Dir(_, sub) => CancelledDirIsPrefix(ctx, path, l, i, acc, st);
    }
  }

  /** The regular-file step of CancelledScanIsPrefix. */
  lemma {:induction false} CancelledFileIsPrefix(ctx: ScanCtx, path: string, l: Listing, i: nat, acc: seq<Bundle>, st: ScanState)
    requires ctx.cancel.firesAt.Some? && !ctx.cancel.Fired(st.polls)
    requires l.Entries? && i < |l.entries| && l.entries[i].File?
    ensures ScanLoop(ctx, path, l, i, acc, st).st.rpc <= ScanLoop(ctx.(cancel := NeverCancelled), path, l, i, acc, st).st.rpc
    decreases l, EntryCount(l) - i, 0
  {
    var never := ctx.(cancel := NeverCancelled);
    var st1 := st.(polls := st.polls + 1);
    var file := path + "/" + l.entries[i].name;
    var c := CheckBundle(ctx, file, st1);
    ScanLoopFile(ctx, path, l, i, acc, st);
    ScanLoopFile(never, path, l, i, acc, st);
    if !ctx.cancel.Fired(st1.polls) {
      assert CheckBundle(never, file, st1) == c;
      CancelledScanIsPrefix(ctx, path, l, i + 1, if c.0.Some? then [c.0.value] + acc else acc, c.1);
    } else {
      // the Info call is refused, and the next round stops the scan
      assert ctx.cancel.Fired(c.1.polls) && c.1.rpc == st.rpc;
      assert ScanLoop(ctx, path, l, i + 1, acc, c.1).st.rpc == st.rpc;
    }
  }

  /** The subdirectory step of CancelledScanIsPrefix. */
  lemma {:induction false} CancelledDirIsPrefix(ctx: ScanCtx, path: string, l: Listing, i: nat, acc: seq<Bundle>, st: ScanState)
    requires ctx.cancel.firesAt.Some? && !ctx.cancel.Fired(st.polls)
    requires l.Entries? && i < |l.entries| && l.entries[i].Dir?
    ensures ScanLoop(ctx, path, l, i, acc, st).st.rpc <= ScanLoop(ctx.(cancel := NeverCancelled), path, l, i, acc, st).st.rpc
    decreases l, EntryCount(l) - i, 0
  {
    var never := ctx.(cancel := NeverCancelled);
    var st1 := st.(polls := st.polls + 1);
    var file := path + "/" + l.entries[i].name;
    var sub := l.entries[i].listing;
    var s := ScanLoop(ctx, file, sub, 0, [], st1);
    var q := ScanLoop(never, file, sub, 0, [], st1);
    ScanLoopDirStep(ctx, path, l, i, acc, st);
    ScanLoopDirStep(never, path, l, i, acc, st);
    if s.st.polls <= ctx.cancel.firesAt.value {
      ScanBeforeCancel(ctx, file, sub, 0, [], st1);
      CancelledScanIsPrefix(ctx, path, l, i + 1, acc + s.bundles, s.st);
    } else {
      CancelledScanIsPrefix(ctx, file, sub, 0, [], st1);
      assert ScanLoop(ctx, path, l, i + 1, acc + s.bundles, s.st).st.rpc == s.st.rpc;
    }
  }
}
