/**
 From the persister's files to the restart: the directories that runs and crashes leave are
 readable, whatever step of a write or a removal was the last, and over whole lives of the node.
 */
module PersisterFiles {
  import opened Prelude
  import opened Persister
  import opened PersisterLaws

  // ---------- The directories a run leaves ----------

  datatype Store = Store(monitors: map<Name<Channel>, Bytes>, updates: map<Name<Key>, Bytes>)

  ghost predicate Holds(codec: Codec, st: Store, d: Disk) { Represents(codec, st.monitors, st.updates, d) }

  /** A snapshot written in full or cut short, and the removal of the update directory cut short. */
  function WriteSnapshot(
    codec: Codec, st: Store, c: Channel, m: Monitor, steps: nat, survivors: set<Name<Key>>): Store
  {
    var data := codec.encodeMonitor(m);
    Store(Written(st.monitors, c, data, steps), FilesLeft(st.updates, Completes(data, steps), survivors))
  }

  function WriteUpdate(codec: Codec, st: Store, c: Channel, u: Update, steps: nat): Store {
    st.(updates := Written(st.updates, Key(c, u.id), codec.encodeUpdate(u), steps))
  }

  function Enough(data: Bytes): nat { |data| + 3 }

  /** How far a failed write got: just past its rename, or not that far. */
  function FailedAt(data: Bytes, steps: nat, renamed: bool): nat {
    if renamed then |data| + 2 else if steps <= |data| + 1 then steps else |data| + 1
  }

  /** The files after a run. */
  function FilesAfter(codec: Codec, b: Boot, start: Store, ops: seq<Op>): Store
    requires Legal(b, ops)
  {
    if ops == [] then start
    else
      var st, w := FilesAfter(codec, b, start, ops[..|ops| - 1]), After(b, ops[..|ops| - 1]);
      match ops[|ops| - 1]
      case New(c, m) => WriteSnapshot(codec, st, c, m, Enough(codec.encodeMonitor(m)), {})
      case FailedNew(c, m, steps, renamed) =>
        WriteSnapshot(codec, st, c, m, FailedAt(codec.encodeMonitor(m), steps, renamed), {})
      case Change(c, u) => WriteUpdate(codec, st, c, u, Enough(codec.encodeUpdate(u)))
      case Block(c, block) =>
        var m := SeeBlock(w.memory[c], block);
        WriteSnapshot(codec, st, c, m, Enough(codec.encodeMonitor(m)), {})
  }

  lemma SnapshotHolds(
    codec: Codec, st: Store, d: Disk, c: Channel, m: Monitor, steps: nat, survivors: set<Name<Key>>)
    requires Holds(codec, st, d)
    ensures Holds(codec, WriteSnapshot(codec, st, c, m, steps, survivors),
                  SnapshotCut(codec, d, c, m, steps, survivors))
  {
    WrittenStores(codec.encodeMonitor, st.monitors, d.monitors, c, m, steps);
    LeftStores(codec.encodeUpdate, st.updates, d.updates, Completes(codec.encodeMonitor(m), steps), survivors);
  }

  lemma UpdateHolds(codec: Codec, st: Store, d: Disk, c: Channel, u: Update, steps: nat)
    requires Holds(codec, st, d)
    ensures Holds(codec, WriteUpdate(codec, st, c, u, steps),
                  if Renames(codec.encodeUpdate(u), steps) then LogUpdate(d, c, u) else d)
  {
    WrittenStores(codec.encodeUpdate, st.updates, d.updates, Key(c, u.id), u, steps);
  }

  /** At every moment the files stand for the disk of the model. */
  lemma {:induction false} FilesFollow(codec: Codec, b: Boot, start: Store, ops: seq<Op>)
    requires Legal(b, ops) && Holds(codec, start, b.world.disk)
    ensures Holds(codec, FilesAfter(codec, b, start, ops), After(b, ops).disk)
  {
    if ops != [] {
      var front, op := ops[..|ops| - 1], ops[|ops| - 1];
      var st, w := FilesAfter(codec, b, start, front), After(b, front);
      FilesFollow(codec, b, start, front);
      assert UpdatesLeft(w.disk.updates, true, {}) == map[];
      match op
      case New(c, m) => SnapshotHolds(codec, st, w.disk, c, m, Enough(codec.encodeMonitor(m)), {});
      case FailedNew(c, m, steps, renamed) =>
        SnapshotHolds(codec, st, w.disk, c, m, FailedAt(codec.encodeMonitor(m), steps, renamed), {});
      case Change(c, u) => UpdateHolds(codec, st, w.disk, c, u, Enough(codec.encodeUpdate(u)));
      case Block(c, block) =>
        var m := SeeBlock(w.memory[c], block);
        SnapshotHolds(codec, st, w.disk, c, m, Enough(codec.encodeMonitor(m)), {});
    }
  }

  /** Every file once, in some order. */
  ghost predicate Enumerates<K>(names: seq<Name<K>>, files: map<Name<K>, Bytes>) {
    if names == [] then files == map[]
    else names[|names| - 1] in files && Enumerates(names[..|names| - 1], files - {names[|names| - 1]})
  }

  /** What a reader sees of a directory listed in that order. */
  ghost function DirOf<K, T>(
    decode: Bytes -> Option<T>, names: seq<Name<K>>, files: map<Name<K>, Bytes>): seq<Entry<K, T>>
    requires Enumerates(names, files)
  {
    if names == [] then []
    else
      var n := names[|names| - 1];
      DirOf(decode, names[..|names| - 1], files - {n})
      + [if n.temporary then Temporary else File(n.key, decode(files[n]))]
  }

  lemma StoresLess<K(!new), T>(encode: T -> Bytes, files: map<Name<K>, Bytes>, m: map<K, T>, n: Name<K>)
    requires Stores(encode, files, m) && n in files
    ensures n.temporary ==> Stores(encode, files - {n}, m)
    ensures !n.temporary ==> n.key in m && files[n] == encode(m[n.key]) && Stores(encode, files - {n}, m - {n.key})
  {
    if !n.temporary { assert n == Name(n.key, false); }
    forall k ensures Name(k, false) in files - {n} <==> (if n.temporary then k in m else k in m - {n.key}) {
      assert k in m <==> Name(k, false) in files;
    }
  }

  /** A directory in which every final file is a complete write is readable. */
  lemma {:induction false} DirReadable<K(!new), T(!new)>(
    encode: T -> Bytes, decode: Bytes -> Option<T>, names: seq<Name<K>>, files: map<Name<K>, Bytes>, m: map<K, T>)
    requires (forall v: T :: decode(encode(v)) == Some(v)) && Stores(encode, files, m) && Enumerates(names, files)
    ensures AllReadable(DirOf(decode, names, files))
  {
    if names != [] {
      var n := names[|names| - 1];
      StoresLess(encode, files, m, n);
      DirReadable(encode, decode, names[..|names| - 1], files - {n}, if n.temporary then m else m - {n.key});
    }
  }

  lemma FoundNext(dir: seq<Entry<Key, Update>>, e: Entry<Key, Update>, c: Channel)
    ensures Found(dir + [e], c) ==
      if e.File? && e.key.channel == c && e.content.Some? then Found(dir, c) + [e.content.value] else Found(dir, c)
  {
    assert (dir + [e])[..|dir|] == dir;
    assert Found(dir, c) + [] == Found(dir, c);
  }

  lemma SnapshotsNext(dir: seq<Entry<Channel, Monitor>>, e: Entry<Channel, Monitor>)
    ensures Snapshots(dir + [e]) ==
      if e.File? && e.content.Some? then Snapshots(dir) + [(e.key, e.content.value)] else Snapshots(dir)
  {
    assert (dir + [e])[..|dir|] == dir;
    assert Snapshots(dir) + [] == Snapshots(dir);
  }

  /** A directory of stored updates lists exactly each channel's log. */
  lemma {:induction false} UpdatesListed(
    codec: Codec, names: seq<Name<Key>>, files: map<Name<Key>, Bytes>, updates: map<Key, Update>, c: Channel)
    requires codec.ReadsBack() && Enumerates(names, files)
    requires Stores(codec.encodeUpdate, files, updates) && Keyed(updates)
    ensures Listing(Found(DirOf(codec.decodeUpdate, names, files), c), LogOf(updates, c))
  {
    if names == [] {
      forall k ensures k !in updates { assert k in updates <==> Name(k, false) in files; }
      assert updates == map[];
    } else {
      var n, front := names[|names| - 1], names[..|names| - 1];
      StoresLess(codec.encodeUpdate, files, updates, n);
      UpdatesListed(codec, front, files - {n}, if n.temporary then updates else updates - {n.key}, c);
      LogOfRemoved(updates, n.key, c);
      var before := DirOf(codec.decodeUpdate, front, files - {n});
      FoundNext(before, if n.temporary then Temporary else File(n.key, codec.decodeUpdate(files[n])), c);
      if !n.temporary && n.key.channel == c { ListedNext(Found(before, c), updates, n.key); }
    }
  }

  lemma ListedNext(us: seq<Update>, updates: map<Key, Update>, k: Key)
    requires k in updates && updates[k].id == k.id && Listing(us, LogOf(updates, k.channel) - {k.id})
    ensures Listing(us + [updates[k]], LogOf(updates, k.channel))
  {
    assert (us + [updates[k]])[..|us|] == us;
    assert k.id in LogOf(updates, k.channel) && LogOf(updates, k.channel)[k.id] == updates[k];
  }

  lemma SnapshotListed(snapshots: seq<(Channel, Monitor)>, monitors: map<Channel, Monitor>, c: Channel)
    requires c in monitors && ListsMonitors(snapshots, monitors - {c})
    ensures ListsMonitors(snapshots + [(c, monitors[c])], monitors)
  {
    assert (snapshots + [(c, monitors[c])])[..|snapshots|] == snapshots;
  }

  /** A directory of stored snapshots lists exactly the snapshots. */
  lemma {:induction false} MonitorsListed(
    codec: Codec, names: seq<Name<Channel>>, files: map<Name<Channel>, Bytes>, monitors: map<Channel, Monitor>)
    requires codec.ReadsBack() && Stores(codec.encodeMonitor, files, monitors) && Enumerates(names, files)
    ensures ListsMonitors(Snapshots(DirOf(codec.decodeMonitor, names, files)), monitors)
  {
    if names == [] {
      forall k ensures k !in monitors { assert k in monitors <==> Name(k, false) in files; }
      assert monitors == map[];
    } else {
      var n, front := names[|names| - 1], names[..|names| - 1];
      StoresLess(codec.encodeMonitor, files, monitors, n);
      MonitorsListed(codec, front, files - {n}, if n.temporary then monitors else monitors - {n.key});
      var before := DirOf(codec.decodeMonitor, front, files - {n});
      SnapshotsNext(before, if n.temporary then Temporary else File(n.key, codec.decodeMonitor(files[n])));
      if !n.temporary { SnapshotListed(Snapshots(before), monitors, n.key); }
    }
  }

  /** The orders in which the two directories happen to be listed. */
  datatype Order = Order(monitors: seq<Name<Channel>>, updates: seq<Name<Key>>)

  ghost predicate Lists(order: Order, st: Store) {
    Enumerates(order.monitors, st.monitors) && Enumerates(order.updates, st.updates)
  }

  ghost function MonitorDir(codec: Codec, st: Store, order: Order): seq<Entry<Channel, Monitor>>
    requires Lists(order, st)
  {
    DirOf(codec.decodeMonitor, order.monitors, st.monitors)
  }

  ghost function UpdateDir(codec: Codec, st: Store, order: Order): seq<Entry<Key, Update>>
    requires Lists(order, st)
  {
    DirOf(codec.decodeUpdate, order.updates, st.updates)
  }

  ghost function RestartFrom(refuses: Refusal, codec: Codec, st: Store, order: Order): NodeRestart
    requires Lists(order, st)
  {
    RestartNode(refuses, MonitorDir(codec, st, order), UpdateDir(codec, st, order))
  }

  /** Files that stand for a disk are readable and list it. */
  lemma FilesAreReadable(codec: Codec, st: Store, order: Order, d: Disk)
    requires codec.ReadsBack() && Holds(codec, st, d) && Lists(order, st)
    ensures AllReadable(MonitorDir(codec, st, order)) && AllReadable(UpdateDir(codec, st, order))
    ensures ListsDisk(MonitorDir(codec, st, order), UpdateDir(codec, st, order), d)
  {
    MonitorsListed(codec, order.monitors, st.monitors, d.monitors);
    DirReadable(codec.encodeMonitor, codec.decodeMonitor, order.monitors, st.monitors, d.monitors);
    DirReadable(codec.encodeUpdate, codec.decodeUpdate, order.updates, st.updates, d.updates);
    forall c ensures Listing(Found(UpdateDir(codec, st, order), c), LogOf(d.updates, c)) {
      UpdatesListed(codec, order.updates, st.updates, d.updates, c);
    }
  }

  /** The restart of the node from files that stand for the disk after a run. */
  lemma FilesRestartIff(refuses: Refusal, codec: Codec, st: Store, order: Order, b: Boot, ops: seq<Op>)
    requires codec.ReadsBack() && Booted(b) && Legal(b, ops) && Holds(codec, st, After(b, ops).disk) && Lists(order, st)
    ensures RestartFrom(refuses, codec, st, order) == Started(After(b, ops).memory) <==> Recoverable(refuses, b, ops)
  {
    FilesAreReadable(codec, st, order, After(b, ops).disk);
    RestartRebuildsIff(refuses, b, ops, MonitorDir(codec, st, order), UpdateDir(codec, st, order));
  }

  /** After any run, from the files the run leaves, in any directory order. */
  lemma RunRestartsIff(refuses: Refusal, codec: Codec, b: Boot, start: Store, order: Order, ops: seq<Op>)
    requires codec.ReadsBack() && Booted(b) && Holds(codec, start, b.world.disk)
    requires Legal(b, ops) && Lists(order, FilesAfter(codec, b, start, ops))
    ensures RestartFrom(refuses, codec, FilesAfter(codec, b, start, ops), order) == Started(After(b, ops).memory) <==>
      Recoverable(refuses, b, ops)
  {
    FilesFollow(codec, b, start, ops);
    FilesRestartIff(refuses, codec, FilesAfter(codec, b, start, ops), order, b, ops);
  }

  // ---------- Crashes ----------

  /**
   A crash after any step of writing an update: the restart finds the run without the update, or
   with it if the write got past its rename, and rebuilds the monitors of that run exactly as ever.
   */
  lemma CrashWhileLogging(
    refuses: Refusal, codec: Codec, b: Boot, start: Store, order: Order, ops: seq<Op>,
    c: Channel, u: Update, steps: nat)
    requires codec.ReadsBack() && Booted(b) && Holds(codec, start, b.world.disk)
    requires Legal(b, ops) && Possible(After(b, ops), Change(c, u))
    requires Lists(order, WriteUpdate(codec, FilesAfter(codec, b, start, ops), c, u, steps))
    ensures var all := if Renames(codec.encodeUpdate(u), steps) then ops + [Change(c, u)] else ops;
      var st := WriteUpdate(codec, FilesAfter(codec, b, start, ops), c, u, steps);
      && Legal(b, all)
      && (RestartFrom(refuses, codec, st, order) == Started(After(b, all).memory) <==> Recoverable(refuses, b, all))
  {
    var st := FilesAfter(codec, b, start, ops);
    FilesFollow(codec, b, start, ops);
    UpdateHolds(codec, st, After(b, ops).disk, c, u, steps);
    OneMore(b, ops, Change(c, u));
    var all := if Renames(codec.encodeUpdate(u), steps) then ops + [Change(c, u)] else ops;
    FilesRestartIff(refuses, codec, WriteUpdate(codec, st, c, u, steps), order, b, all);
  }

  /** An operation that writes a snapshot. */
  predicate Snaps(w: World, op: Op) { Possible(w, op) && (op.New? || op.Block?) }

  /** The monitor it writes. */
  function Snapped(w: World, op: Op): Monitor
    requires Snaps(w, op)
  {
    if op.New? then op.monitor else SeeBlock(w.memory[op.channel], op.block)
  }

  function CutStore(codec: Codec, w: World, st: Store, op: Op, steps: nat, survivors: set<Name<Key>>): Store
    requires Snaps(w, op)
  {
    WriteSnapshot(codec, st, op.channel, Snapped(w, op), steps, survivors)
  }

  function CutDisk(codec: Codec, w: World, op: Op, steps: nat, survivors: set<Name<Key>>): Disk
    requires Snaps(w, op)
  {
    SnapshotCut(codec, w.disk, op.channel, Snapped(w, op), steps, survivors)
  }

  predicate CutRenames(codec: Codec, w: World, op: Op, steps: nat)
    requires Snaps(w, op)
  {
    Renames(codec.encodeMonitor(Snapped(w, op)), steps)
  }

  /** A crash before a snapshot's rename: the restart finds the run without the operation. */
  lemma CrashWhileSnapshotting(
    refuses: Refusal, codec: Codec, b: Boot, start: Store, order: Order, ops: seq<Op>, op: Op, steps: nat)
    requires codec.ReadsBack() && Booted(b) && Holds(codec, start, b.world.disk)
    requires Legal(b, ops) && Snaps(After(b, ops), op) && !CutRenames(codec, After(b, ops), op, steps)
    requires Lists(order, CutStore(codec, After(b, ops), FilesAfter(codec, b, start, ops), op, steps, {}))
    ensures var st := CutStore(codec, After(b, ops), FilesAfter(codec, b, start, ops), op, steps, {});
      RestartFrom(refuses, codec, st, order) == Started(After(b, ops).memory) <==> Recoverable(refuses, b, ops)
  {
    var st, w := FilesAfter(codec, b, start, ops), After(b, ops);
    FilesFollow(codec, b, start, ops);
    SnapshotHolds(codec, st, w.disk, op.channel, Snapped(w, op), steps, {});
    FilesRestartIff(refuses, codec, CutStore(codec, w, st, op, steps, {}), order, b, ops);
  }

  lemma FewerLeft(updates: map<Key, Update>, written: bool, survivors: set<Name<Key>>, c: Channel)
    ensures var left := LogOf(UpdatesLeft(updates, written, survivors), c);
      left == LogOf(updates, c) || |left| < |LogOf(updates, c)|
  {
    var left, log := LogOf(UpdatesLeft(updates, written, survivors), c), LogOf(updates, c);
    assert forall id :: id in left ==> id in log && left[id] == log[id];
    assert left.Keys == log.Keys ==> left == log;
    if left.Keys != log.Keys { SmallerSet(left.Keys, log.Keys); }
  }

  lemma SmallerSet(a: set<nat>, b: set<nat>)
    requires a < b
    ensures |a| < |b|
  {
    assert b == a + (b - a);
  }

  /** What a channel needs when the removal of the update directory was cut short. */
  ghost predicate Unharmed(refuses: Refusal, b: Boot, ops: seq<Op>, left: map<Key, Update>, c: Channel, k: Channel)
    requires Legal(b, ops)
  {
    if k == c then LogOf(left, c) == map[]
    else LogOf(left, k) == LogOf(After(b, ops).disk.updates, k) && Rebuildable(refuses, b, ops, k)
  }

  lemma UnharmedRebuilds(
    refuses: Refusal, codec: Codec, b: Boot, ops: seq<Op>, op: Op, steps: nat, survivors: set<Name<Key>>, k: Channel,
    found: seq<Update>)
    requires Booted(b) && Legal(b, ops) && Snaps(After(b, ops), op) && CutRenames(codec, After(b, ops), op, steps)
    requires Listing(found, LogOf(CutDisk(codec, After(b, ops), op, steps, survivors).updates, k))
    requires k in Do(After(b, ops), op).memory
    ensures var d := CutDisk(codec, After(b, ops), op, steps, survivors);
      k in d.monitors &&
      (Replay(refuses, d.monitors[k], SortById(found)) == Running(Do(After(b, ops), op).memory[k]) <==>
       Unharmed(refuses, b, ops, d.updates, op.channel, k))
  {
    var w, d := After(b, ops), CutDisk(codec, After(b, ops), op, steps, survivors);
    AlwaysConsistent(b, ops, k);
    FewerLeft(w.disk.updates, Completes(codec.encodeMonitor(Snapped(w, op)), steps), survivors, k);
    if k == op.channel {
      SortListed(found, LogOf(d.updates, k));
      ListingCount(SortById(found), LogOf(d.updates, k));
      ReplayLength(refuses, Snapped(w, op), SortById(found));
    } else {
      var pending, log := Pending(b, ops, k), LogOf(w.disk.updates, k);
      if Intact(b, ops, k) { ListingCount(pending, log); }
      if LogOf(d.updates, k) == log {
        ChannelRebuildsIff(refuses, w.disk.monitors[k], pending, log, found, Intact(b, ops, k));
      } else {
        ChannelRebuildsIff(refuses, w.disk.monitors[k], pending, LogOf(d.updates, k), found, false);
      }
    }
  }

  /** No orphan but the channel itself, whose snapshot was just replaced, and no channel harmed. */
  ghost predicate RecoverableCut(refuses: Refusal, b: Boot, ops: seq<Op>, op: Op, left: map<Key, Update>)
    requires Legal(b, ops) && Snaps(After(b, ops), op)
  {
    && (forall k :: k != op.channel ==> !Orphan(ops, k))
    && forall k :: k in Do(After(b, ops), op).memory ==> Unharmed(refuses, b, ops, left, op.channel, k)
  }

  lemma CutKeys(codec: Codec, b: Boot, ops: seq<Op>, op: Op, steps: nat, survivors: set<Name<Key>>)
    requires Booted(b) && Legal(b, ops) && Snaps(After(b, ops), op) && CutRenames(codec, After(b, ops), op, steps)
    ensures Do(After(b, ops), op).memory.Keys == CutDisk(codec, After(b, ops), op, steps, survivors).monitors.Keys <==>
      forall k :: k != op.channel ==> !Orphan(ops, k)
  {
    var w, d := After(b, ops), CutDisk(codec, After(b, ops), op, steps, survivors);
    var memory, monitors := Do(w, op).memory.Keys, d.monitors.Keys;
    if k :| k != op.channel && Orphan(ops, k) {
      OrphansOnDisk(b, ops, k);
      assert k in monitors && k !in memory;
    } else {
      forall k ensures k in memory <==> k in monitors { OrphansOnDisk(b, ops, k); }
      assert memory == monitors;
    }
  }

  lemma CutRebuiltIsRecoverable(
    refuses: Refusal, codec: Codec, b: Boot, ops: seq<Op>, op: Op, steps: nat, survivors: set<Name<Key>>,
    updates: seq<Entry<Key, Update>>)
    requires Booted(b) && Legal(b, ops) && Snaps(After(b, ops), op) && CutRenames(codec, After(b, ops), op, steps)
    requires var d := CutDisk(codec, After(b, ops), op, steps, survivors);
      ListsLogs(updates, d) && AllRebuilt(refuses, d.monitors, Do(After(b, ops), op).memory, updates)
    ensures RecoverableCut(refuses, b, ops, op, CutDisk(codec, After(b, ops), op, steps, survivors).updates)
  {
    var d := CutDisk(codec, After(b, ops), op, steps, survivors);
    CutKeys(codec, b, ops, op, steps, survivors);
    forall k | k in Do(After(b, ops), op).memory ensures Unharmed(refuses, b, ops, d.updates, op.channel, k) {
      UnharmedRebuilds(refuses, codec, b, ops, op, steps, survivors, k, Found(updates, k));
    }
  }

  lemma RecoverableCutIsRebuilt(
    refuses: Refusal, codec: Codec, b: Boot, ops: seq<Op>, op: Op, steps: nat, survivors: set<Name<Key>>,
    updates: seq<Entry<Key, Update>>)
    requires Booted(b) && Legal(b, ops) && Snaps(After(b, ops), op) && CutRenames(codec, After(b, ops), op, steps)
    requires var d := CutDisk(codec, After(b, ops), op, steps, survivors);
      ListsLogs(updates, d) && RecoverableCut(refuses, b, ops, op, d.updates)
    ensures var d := CutDisk(codec, After(b, ops), op, steps, survivors);
      AllRebuilt(refuses, d.monitors, Do(After(b, ops), op).memory, updates)
  {
    var memory, d := Do(After(b, ops), op).memory, CutDisk(codec, After(b, ops), op, steps, survivors);
    CutKeys(codec, b, ops, op, steps, survivors);
    forall k | k in d.monitors
      ensures k in memory && Rebuilt(refuses, d.monitors[k], updates, k) == Running(memory[k])
    {
      assert k in memory.Keys;
      UnharmedRebuilds(refuses, codec, b, ops, op, steps, survivors, k, Found(updates, k));
    }
  }

  lemma CutRestartIff(
    refuses: Refusal, codec: Codec, b: Boot, ops: seq<Op>, op: Op, steps: nat, survivors: set<Name<Key>>,
    monitors: seq<Entry<Channel, Monitor>>, updates: seq<Entry<Key, Update>>)
    requires Booted(b) && Legal(b, ops) && Snaps(After(b, ops), op) && CutRenames(codec, After(b, ops), op, steps)
    requires ListsDisk(monitors, updates, CutDisk(codec, After(b, ops), op, steps, survivors))
    ensures RestartAll(refuses, Snapshots(monitors), updates) == Started(Do(After(b, ops), op).memory) <==>
      RecoverableCut(refuses, b, ops, op, CutDisk(codec, After(b, ops), op, steps, survivors).updates)
  {
    var memory, d := Do(After(b, ops), op).memory, CutDisk(codec, After(b, ops), op, steps, survivors);
    RestartAllIff(refuses, Snapshots(monitors), updates, d.monitors, memory);
    if RecoverableCut(refuses, b, ops, op, d.updates) {
      RecoverableCutIsRebuilt(refuses, codec, b, ops, op, steps, survivors, updates);
    } else if AllRebuilt(refuses, d.monitors, memory, updates) {
      CutRebuiltIsRecoverable(refuses, codec, b, ops, op, steps, survivors, updates);
    }
  }

  /**
   A crash between a snapshot's rename and the end of the directory's removal, with some files
   left: the restart rebuilds the monitors in memory if and only if none of the channel's own
   files is left and all of every other channel's are, and those channels are otherwise rebuilt.
   */
  lemma CrashWhileClearing(
    refuses: Refusal, codec: Codec, b: Boot, start: Store, order: Order, ops: seq<Op>, op: Op, steps: nat,
    survivors: set<Name<Key>>)
    requires codec.ReadsBack() && Booted(b) && Holds(codec, start, b.world.disk)
    requires Legal(b, ops) && Snaps(After(b, ops), op) && CutRenames(codec, After(b, ops), op, steps)
    requires Lists(order, CutStore(codec, After(b, ops), FilesAfter(codec, b, start, ops), op, steps, survivors))
    ensures var st := CutStore(codec, After(b, ops), FilesAfter(codec, b, start, ops), op, steps, survivors);
      RestartFrom(refuses, codec, st, order) == Started(Do(After(b, ops), op).memory) <==>
      RecoverableCut(refuses, b, ops, op, CutDisk(codec, After(b, ops), op, steps, survivors).updates)
  {
    var st, w := FilesAfter(codec, b, start, ops), After(b, ops);
    var after := CutStore(codec, w, st, op, steps, survivors);
    FilesFollow(codec, b, start, ops);
    SnapshotHolds(codec, st, w.disk, op.channel, Snapped(w, op), steps, survivors);
    FilesAreReadable(codec, after, order, CutDisk(codec, w, op, steps, survivors));
    CutRestartIff(refuses, codec, b, ops, op, steps, survivors,
                  MonitorDir(codec, after, order), UpdateDir(codec, after, order));
  }

  // ---------- Whole lives ----------

  /** How a session ends: between operations, or by a crash inside one. */
  datatype Ending =
    | Stop
    | Logging(channel: Channel, update: Update, steps: nat)
    | Snapshotting(op: Op, steps: nat, survivors: set<Name<Key>>)

  predicate CanEnd(w: World, e: Ending) {
    match e
    case Stop => true
    case Logging(c, u, _) => Possible(w, Change(c, u))
    case Snapshotting(op, _, _) => Snaps(w, op)
  }

  function StoreAtEnd(codec: Codec, w: World, st: Store, e: Ending): Store
    requires CanEnd(w, e)
  {
    match e
    case Stop => st
    case Logging(c, u, steps) => WriteUpdate(codec, st, c, u, steps)
    case Snapshotting(op, steps, survivors) => CutStore(codec, w, st, op, steps, survivors)
  }

  function DiskAtEnd(codec: Codec, w: World, e: Ending): Disk
    requires CanEnd(w, e)
  {
    match e
    case Stop => w.disk
    case Logging(c, u, steps) => if Renames(codec.encodeUpdate(u), steps) then LogUpdate(w.disk, c, u) else w.disk
    case Snapshotting(op, steps, survivors) => CutDisk(codec, w, op, steps, survivors)
  }

  /** One session of the node, and the order in which the next restart happens to list the directories. */
  datatype Session = Session(ops: seq<Op>, ending: Ending, order: Order)

  /** A node that has just started, and the files it started from. */
  datatype Alive = Alive(boot: Boot, store: Store)

  ghost function Live(refuses: Refusal, codec: Codec, a: Alive, s: Session): Option<Alive> {
    if !Legal(a.boot, s.ops) || !CanEnd(After(a.boot, s.ops), s.ending) then None
    else
      var w := After(a.boot, s.ops);
      var st := StoreAtEnd(codec, w, FilesAfter(codec, a.boot, a.store, s.ops), s.ending);
      if !Lists(s.order, st) then None
      else match RestartFrom(refuses, codec, st, s.order)
        case Started(memory) =>
          var dir := UpdateDir(codec, st, s.order);
          Some(Alive(Boot(World(memory, DiskAtEnd(codec, w, s.ending)), (c: Channel) => SortById(Found(dir, c))), st))
        case _ => None
  }

  /** A life of the node: sessions, each of which the next restart survives. */
  ghost function Lives(refuses: Refusal, codec: Codec, start: Store, sessions: seq<Session>): Option<Alive> {
    if sessions == [] then Some(Alive(EMPTY, start))
    else match Lives(refuses, codec, start, sessions[..|sessions| - 1])
      case None => None
      case Some(a) => Live(refuses, codec, a, sessions[|sessions| - 1])
  }

  lemma EndHolds(codec: Codec, w: World, st: Store, e: Ending)
    requires Holds(codec, st, w.disk) && CanEnd(w, e)
    ensures Holds(codec, StoreAtEnd(codec, w, st, e), DiskAtEnd(codec, w, e))
  {
    match e
    case Stop =>
    case Logging(c, u, steps) => UpdateHolds(codec, st, w.disk, c, u, steps);
    case Snapshotting(op, steps, survivors) =>
      SnapshotHolds(codec, st, w.disk, op.channel, Snapped(w, op), steps, survivors);
  }

  lemma UnknownHasNoLogAtEnd(codec: Codec, b: Boot, ops: seq<Op>, e: Ending, c: Channel)
    requires Booted(b) && Legal(b, ops) && CanEnd(After(b, ops), e)
    requires c !in DiskAtEnd(codec, After(b, ops), e).monitors
    ensures LogOf(DiskAtEnd(codec, After(b, ops), e).updates, c) == map[]
  {
    var w := After(b, ops);
    AlwaysConsistent(b, ops, c);
    UnknownHasNoLog(b, ops, c);
    match e
    case Stop =>
    case Logging(k, u, _) =>
      AlwaysConsistent(b, ops, k);
      LogOfAdded(w.disk.updates, Key(k, u.id), u, c);
    case Snapshotting(op, steps, survivors) =>
      FewerLeft(w.disk.updates, Completes(codec.encodeMonitor(Snapped(w, op)), steps), survivors, c);
  }

  lemma {:induction false} RunningAccepts(refuses: Refusal, m: Monitor, us: seq<Update>)
    requires Replay(refuses, m, us).Running?
    ensures AcceptsAll(m, us) && Replay(refuses, m, us).monitor == ApplyAll(m, us)
  {
    if us != [] { RunningAccepts(refuses, m, us[..|us| - 1]); }
  }

  /** What a restart starts with is its snapshots, with their whole logs applied. */
  lemma StartedIsBooted(
    refuses: Refusal, d: Disk, memory: map<Channel, Monitor>,
    monitors: seq<Entry<Channel, Monitor>>, updates: seq<Entry<Key, Update>>)
    requires ListsDisk(monitors, updates, d) && RestartNode(refuses, monitors, updates) == Started(memory)
    requires forall c :: c !in d.monitors ==> LogOf(d.updates, c) == map[]
    ensures Booted(Boot(World(memory, d), (c: Channel) => SortById(Found(updates, c))))
  {
    RestartAllIff(refuses, Snapshots(monitors), updates, d.monitors, memory);
    var b := Boot(World(memory, d), (c: Channel) => SortById(Found(updates, c)));
    forall c ensures Consistent(b.world, c, b.pending(c), true) {
      SortListed(Found(updates, c), LogOf(d.updates, c));
      ListingCount(SortById(Found(updates, c)), LogOf(d.updates, c));
      if c in d.monitors {
        assert Rebuilt(refuses, d.monitors[c], updates, c) == Running(memory[c]);
        RunningAccepts(refuses, d.monitors[c], SortById(Found(updates, c)));
      }
    }
    forall c | c in d.monitors ensures c in memory { assert c in memory.Keys; }
  }

  lemma LiveBooted(refuses: Refusal, codec: Codec, a: Alive, s: Session)
    requires codec.ReadsBack() && Booted(a.boot) && Holds(codec, a.store, a.boot.world.disk)
    requires Live(refuses, codec, a, s).Some?
    ensures var r := Live(refuses, codec, a, s).value; Booted(r.boot) && Holds(codec, r.store, r.boot.world.disk)
  {
    var w, files := After(a.boot, s.ops), FilesAfter(codec, a.boot, a.store, s.ops);
    var st, d := StoreAtEnd(codec, w, files, s.ending), DiskAtEnd(codec, w, s.ending);
    FilesFollow(codec, a.boot, a.store, s.ops);
    EndHolds(codec, w, files, s.ending);
    FilesAreReadable(codec, st, s.order, d);
    forall c | c !in d.monitors ensures LogOf(d.updates, c) == map[] {
      UnknownHasNoLogAtEnd(codec, a.boot, s.ops, s.ending, c);
    }
    StartedIsBooted(refuses, d, Live(refuses, codec, a, s).value.boot.world.memory,
                    MonitorDir(codec, st, s.order), UpdateDir(codec, st, s.order));
  }

  /** What a directory may hold before the first session: leftovers of interrupted writes. */
  ghost predicate OnlyTemporary(st: Store) {
    (forall n :: n in st.monitors ==> n.temporary) && (forall n :: n in st.updates ==> n.temporary)
  }

  /** However many crashes and restarts a node has been through, its files stand for what it knows. */
  lemma {:induction false} LifeBooted(refuses: Refusal, codec: Codec, start: Store, sessions: seq<Session>)
    requires codec.ReadsBack() && OnlyTemporary(start) && Lives(refuses, codec, start, sessions).Some?
    ensures var a := Lives(refuses, codec, start, sessions).value;
      Booted(a.boot) && Holds(codec, a.store, a.boot.world.disk)
  {
    if sessions == [] {
      EmptyIsBooted();
    } else {
      LifeBooted(refuses, codec, start, sessions[..|sessions| - 1]);
      var a := Lives(refuses, codec, start, sessions[..|sessions| - 1]).value;
      LiveBooted(refuses, codec, a, sessions[|sessions| - 1]);
    }
  }

  /**
   Over whole lives: after any number of sessions, each ended by a stop or by a crash at any step
   of a write or of a removal, and any further run, the next restart rebuilds exactly the monitors
   in memory under the same condition on that last run alone.
   */
  lemma LifeRestartsIff(
    refuses: Refusal, codec: Codec, start: Store, sessions: seq<Session>, ops: seq<Op>, order: Order)
    requires codec.ReadsBack() && OnlyTemporary(start) && Lives(refuses, codec, start, sessions).Some?
    requires var a := Lives(refuses, codec, start, sessions).value;
      Legal(a.boot, ops) && Lists(order, FilesAfter(codec, a.boot, a.store, ops))
    ensures var a := Lives(refuses, codec, start, sessions).value;
      RestartFrom(refuses, codec, FilesAfter(codec, a.boot, a.store, ops), order) == Started(After(a.boot, ops).memory)
      <==> Recoverable(refuses, a.boot, ops)
  {
    var a := Lives(refuses, codec, start, sessions).value;
    LifeBooted(refuses, codec, start, sessions);
    RunRestartsIff(refuses, codec, a.boot, a.store, order, ops);
  }
}
