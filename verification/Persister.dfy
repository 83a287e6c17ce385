/**
 The snapshot-plus-log persister and the restart code, down to the files. Each channel has a file
 with a snapshot of its monitor and one file per later update; writing any snapshot clears the
 whole update directory. A restart reads both directories, sorts each channel's logged updates by
 id, and applies them.
 A channel is named by its funding transaction; a monitor is the history of what changed it.
 */
module Persister {
  import opened Prelude
  import opened Integers

  type Channel = nat

  datatype Update = Update(id: nat, body: nat)

  datatype Change = Updated(update: Update) | BlockSeen(block: nat)

  datatype Monitor = Monitor(latest: nat, history: seq<Change>)

  /** The id of updates made after a force-close. */
  const CLOSED: nat := U64 - 1

  // ---------- Monitors ----------

  /** The id check of `update_monitor`; failing it is a panic. */
  predicate Accepts(m: Monitor, u: Update) { u.id < U64 && (u.id == CLOSED || u.id == m.latest + 1) }

  function Apply(m: Monitor, u: Update): Monitor { Monitor(u.id, m.history + [Updated(u)]) }

  function SeeBlock(m: Monitor, block: nat): Monitor { m.(history := m.history + [BlockSeen(block)]) }

  function ApplyAll(m: Monitor, us: seq<Update>): Monitor {
    if us == [] then m else Apply(ApplyAll(m, us[..|us| - 1]), us[|us| - 1])
  }

  predicate AcceptsAll(m: Monitor, us: seq<Update>) {
    us == [] || (AcceptsAll(m, us[..|us| - 1]) && Accepts(ApplyAll(m, us[..|us| - 1]), us[|us| - 1]))
  }

  // ---------- What the disk stands for ----------

  /** What an update file is named after. */
  datatype Key = Key(channel: Channel, id: nat)

  /** Snapshots by channel, and logged updates by channel and id. */
  datatype Disk = Disk(monitors: map<Channel, Monitor>, updates: map<Key, Update>)

  /** A channel's logged updates, by id. */
  function LogOf(updates: map<Key, Update>, c: Channel): map<nat, Update> {
    map k | k in updates && k.channel == c :: k.id := updates[k]
  }

  /** A snapshot is renamed into place, and then the update directory is removed. */
  function RenameSnapshot(d: Disk, c: Channel, m: Monitor): Disk { d.(monitors := d.monitors[c := m]) }

  function Snapshot(d: Disk, c: Channel, m: Monitor): Disk { RenameSnapshot(d, c, m).(updates := map[]) }

  /** An update file is renamed into place; a file of the same name is replaced. */
  function LogUpdate(d: Disk, c: Channel, u: Update): Disk { d.(updates := d.updates[Key(c, u.id) := u]) }

  // ---------- Files ----------

  /** A file's name: what it is for, and whether it ends in ".tmp". */
  datatype Name<K> = Name(key: K, temporary: bool)

  type Bytes = seq<nat>

  /** Serialisation is foreign code that reads back what it wrote. */
  datatype Codec = Codec(
    encodeUpdate: Update -> Bytes, decodeUpdate: Bytes -> Option<Update>,
    encodeMonitor: Monitor -> Bytes, decodeMonitor: Bytes -> Option<Monitor>)
  {
    ghost predicate ReadsBack() {
      && (forall u :: decodeUpdate(encodeUpdate(u)) == Some(u))
      && (forall m :: decodeMonitor(encodeMonitor(m)) == Some(m))
    }
  }

  /**
   A directory after the first `steps` steps of `write_to_file`: the temporary file is created,
   then written byte by byte, then synced and renamed over the file of the final name; last, the
   directory is opened and synced.
   */
  function Written<K(==)>(files: map<Name<K>, Bytes>, key: K, data: Bytes, steps: nat): map<Name<K>, Bytes> {
    if steps == 0 then files
    else if steps <= |data| + 1 then files[Name(key, true) := data[..steps - 1]]
    else (files - {Name(key, true)})[Name(key, false) := data]
  }

  /** The write got past its rename. */
  predicate Renames(data: Bytes, steps: nat) { steps >= |data| + 2 }

  /** The write also opened and synced the directory, which can still fail, and so succeeded. */
  predicate Completes(data: Bytes, steps: nat) { steps >= |data| + 3 }

  /** A directory of which the removal got as far as leaving only `survivors`. */
  function Surviving<K(==)>(files: map<Name<K>, Bytes>, survivors: set<Name<K>>): map<Name<K>, Bytes> {
    map n | n in files && n in survivors :: files[n]
  }

  class Directory<K(==)> {
    var files: map<Name<K>, Bytes>

    constructor ()
      ensures files == map[]
    {
      files := map[];
    }

    /** `write_to_file`, in which an error or a crash may come after any number of steps. */
    method WriteToFile(key: K, data: Bytes, steps: nat) returns (ok: bool)
      modifies this
      ensures files == Written(old(files), key, data, steps)
      ensures ok <==> Completes(data, steps)
    {
      if steps == 0 { return false; }
      var temporary := Name(key, true);
      files := files[temporary := []];
      var i := 0;
      while i < |data|
        invariant 0 <= i <= |data| && i < steps
        invariant files == old(files)[temporary := data[..i]]
      {
        if steps == i + 1 { return false; }
        files := files[temporary := files[temporary] + [data[i]]];
        assert data[..i] + [data[i]] == data[..i + 1];
        i := i + 1;
      }
      assert data[..|data|] == data;
      if steps == |data| + 1 { return false; }
      var written := files[temporary];
      files := (files - {temporary})[Name(key, false) := written];
      ok := steps > |data| + 2;
    }

    /** `remove_dir_all` and `create_dir`; the removal may stop while files are left. */
    method Clear(survivors: set<Name<K>>) returns (ok: bool)
      modifies this
      ensures files == Surviving(old(files), survivors)
      ensures ok <==> files == map[]
    {
      var todo := files.Keys;
      while todo != {}
        invariant todo <= old(files).Keys
        invariant files == map n | n in old(files) && (n in todo || n in survivors) :: old(files)[n]
      {
        var n :| n in todo;
        todo := todo - {n};
        if n !in survivors { files := files - {n}; }
      }
      ok := files == map[];
    }
  }

  /** Final files are exactly the entries of a map, written in full; temporary files may hold anything. */
  ghost predicate Stores<K(!new), T>(encode: T -> Bytes, files: map<Name<K>, Bytes>, m: map<K, T>) {
    && (forall k :: k in m <==> Name(k, false) in files)
    && (forall k :: k in m ==> files[Name(k, false)] == encode(m[k]))
  }

  ghost predicate Keyed(updates: map<Key, Update>) { forall k :: k in updates ==> updates[k].id == k.id }

  /** The two directories stand for the disk. */
  ghost predicate Represents(
    codec: Codec, monitors: map<Name<Channel>, Bytes>, updates: map<Name<Key>, Bytes>, d: Disk)
  {
    && Stores(codec.encodeMonitor, monitors, d.monitors)
    && Stores(codec.encodeUpdate, updates, d.updates) && Keyed(d.updates)
  }

  /** The update files left when a snapshot's write did or did not succeed, and the removal left `survivors`. */
  function FilesLeft(updates: map<Name<Key>, Bytes>, written: bool, survivors: set<Name<Key>>): map<Name<Key>, Bytes> {
    if written then Surviving(updates, survivors) else updates
  }

  /** The updates they stand for. */
  function UpdatesLeft(updates: map<Key, Update>, written: bool, survivors: set<Name<Key>>): map<Key, Update> {
    if written then map k | k in updates && Name(k, false) in survivors :: updates[k] else updates
  }

  /** A write cut short before its rename changes nothing that counts; after it, the entry is stored. */
  lemma WrittenStores<K(!new), T>(
    encode: T -> Bytes, files: map<Name<K>, Bytes>, m: map<K, T>, k: K, v: T, steps: nat)
    requires Stores(encode, files, m)
    ensures Stores(encode, Written(files, k, encode(v), steps), if Renames(encode(v), steps) then m[k := v] else m)
  {
    var after := Written(files, k, encode(v), steps);
    forall j ensures Name(j, false) in after <==> j in (if Renames(encode(v), steps) then m[k := v] else m) {
      assert j != k ==> (Name(j, false) in after <==> Name(j, false) in files);
    }
  }

  lemma LeftStores(
    encode: Update -> Bytes, files: map<Name<Key>, Bytes>, m: map<Key, Update>, written: bool,
    survivors: set<Name<Key>>)
    requires Stores(encode, files, m)
    ensures Stores(encode, FilesLeft(files, written, survivors), UpdatesLeft(m, written, survivors))
  {
  }

  /** The disk after a snapshot operation that got `steps` far, and whose removal of the log left `survivors`. */
  function SnapshotCut(codec: Codec, d: Disk, c: Channel, m: Monitor, steps: nat, survivors: set<Name<Key>>): Disk {
    var data := codec.encodeMonitor(m);
    if Renames(data, steps) then Disk(d.monitors[c := m], UpdatesLeft(d.updates, Completes(data, steps), survivors))
    else d
  }

  datatype Outcome = Done | PermanentFailure | Panicked

  class YourPersister {
    const codec: Codec
    const monitors: Directory<Channel>
    const updates: Directory<Key>

    constructor (codec: Codec)
      ensures this.codec == codec && monitors.files == map[] && updates.files == map[]
      ensures fresh(monitors) && fresh(updates)
    {
      this.codec := codec;
      monitors := new Directory<Channel>();
      updates := new Directory<Key>();
    }

    /** The files stand for `d`. */
    ghost predicate Holds(d: Disk)
      reads monitors, updates
    {
      Represents(codec, monitors.files, updates.files, d)
    }

    /** A snapshot is written and, if that succeeds, the update directory removed. */
    method WriteSnapshot(c: Channel, m: Monitor, steps: nat, survivors: set<Name<Key>>, ghost d: Disk)
      returns (written: bool, cleared: bool)
      requires Holds(d)
      modifies monitors, updates
      ensures var data := codec.encodeMonitor(m);
        && monitors.files == Written(old(monitors.files), c, data, steps)
        && updates.files == FilesLeft(old(updates.files), Completes(data, steps), survivors)
        && (written <==> Completes(data, steps)) && (cleared <==> written && updates.files == map[])
      ensures Holds(SnapshotCut(codec, d, c, m, steps, survivors))
    {
      cleared := false;
      WrittenStores(codec.encodeMonitor, monitors.files, d.monitors, c, m, steps);
      LeftStores(codec.encodeUpdate, updates.files, d.updates, Completes(codec.encodeMonitor(m), steps), survivors);
      written := monitors.WriteToFile(c, codec.encodeMonitor(m), steps);
      if written { cleared := updates.Clear(survivors); }
    }

    /**
     `persist_new_channel`. A failed write is reported, even if the snapshot is already in place;
     a failed removal is a panic.
     */
    method PersistNewChannel(c: Channel, m: Monitor, steps: nat, survivors: set<Name<Key>>, ghost d: Disk)
      returns (r: Outcome)
      requires Holds(d)
      modifies monitors, updates
      ensures Holds(SnapshotCut(codec, d, c, m, steps, survivors))
      ensures r.PermanentFailure? <==> !Completes(codec.encodeMonitor(m), steps)
      ensures r.Done? <==> Completes(codec.encodeMonitor(m), steps) && updates.files == map[]
      ensures r.PermanentFailure? ==> updates.files == old(updates.files)
    {
      var written, cleared := WriteSnapshot(c, m, steps, survivors, d);
      r := if !written then PermanentFailure else if cleared then Done else Panicked;
    }

    /** `update_persisted_channel`: every failure is a panic. */
    method UpdatePersistedChannel(
      c: Channel, update: Option<Update>, data: Monitor, steps: nat, survivors: set<Name<Key>>, ghost d: Disk)
      returns (r: Outcome)
      requires Holds(d)
      modifies monitors, updates
      ensures r.Done? || r.Panicked?
      ensures update.Some? ==>
        var bytes := codec.encodeUpdate(update.value);
        && monitors.files == old(monitors.files)
        && updates.files == Written(old(updates.files), Key(c, update.value.id), bytes, steps)
        && (r.Done? <==> Completes(bytes, steps))
        && Holds(if Renames(bytes, steps) then LogUpdate(d, c, update.value) else d)
      ensures update.None? ==>
        && (r.Done? <==> Completes(codec.encodeMonitor(data), steps) && updates.files == map[])
        && Holds(SnapshotCut(codec, d, c, data, steps, survivors))
    {
      if update.Some? {
        var u := update.value;
        WrittenStores(codec.encodeUpdate, updates.files, d.updates, Key(c, u.id), u, steps);
        var ok := updates.WriteToFile(Key(c, u.id), codec.encodeUpdate(u), steps);
        r := if ok then Done else Panicked;
      } else {
        var written, cleared := WriteSnapshot(c, data, steps, survivors, d);
        r := if cleared then Done else Panicked;
      }
    }
  }

  // ---------- Reading a directory ----------

  /** A directory entry: a temporary file, a bad name, or a file that may fail to deserialize. */
  datatype Entry<K, T> = Temporary | BadName | File(key: K, content: Option<T>)

  predicate Readable<K, T>(e: Entry<K, T>) { e.Temporary? || (e.File? && e.content.Some?) }

  ghost predicate AllReadable<K, T>(dir: seq<Entry<K, T>>) { forall i :: 0 <= i < |dir| ==> Readable(dir[i]) }

  /** The updates found for a channel, in directory order. */
  function Found(dir: seq<Entry<Key, Update>>, c: Channel): seq<Update> {
    if dir == [] then []
    else
      var e := dir[|dir| - 1];
      Found(dir[..|dir| - 1], c) + if e.File? && e.key.channel == c && e.content.Some? then [e.content.value] else []
  }

  /** `read_channelmonitor_updates`: one bad entry fails the whole read, temporary files are skipped. */
  method ReadChannelMonitorUpdates(dir: seq<Entry<Key, Update>>) returns (r: Option<map<Channel, seq<Update>>>)
    ensures r.Some? <==> AllReadable(dir)
    ensures r.Some? ==> forall c: Channel :: (if c in r.value then r.value[c] else []) == Found(dir, c)
  {
    var found: map<Channel, seq<Update>> := map[];
    for i := 0 to |dir|
      invariant forall k :: 0 <= k < i ==> Readable(dir[k])
      invariant forall c: Channel :: (if c in found then found[c] else []) == Found(dir[..i], c)
    {
      var e := dir[i];
      assert dir[..i + 1][..i] == dir[..i];
      match e {
        case Temporary =>
        case BadName => return None;
        case File(key, content) =>
          if content.None? { return None; }
          found := found[key.channel := (if key.channel in found then found[key.channel] else []) + [content.value]];
      }
    }
    assert dir[..|dir|] == dir;
    r := Some(found);
  }

  /** The snapshots found, in directory order. */
  function Snapshots(dir: seq<Entry<Channel, Monitor>>): seq<(Channel, Monitor)> {
    if dir == [] then []
    else
      var e := dir[|dir| - 1];
      Snapshots(dir[..|dir| - 1]) + if e.File? && e.content.Some? then [(e.key, e.content.value)] else []
  }

  /** `read_channelmonitors`, with the same treatment of bad and temporary entries. */
  method ReadChannelMonitors(dir: seq<Entry<Channel, Monitor>>) returns (r: Option<seq<(Channel, Monitor)>>)
    ensures r.Some? <==> AllReadable(dir)
    ensures r.Some? ==> r.value == Snapshots(dir)
  {
    var found := [];
    for i := 0 to |dir|
      invariant forall k :: 0 <= k < i ==> Readable(dir[k])
      invariant found == Snapshots(dir[..i])
    {
      var e := dir[i];
      assert dir[..i + 1][..i] == dir[..i];
      match e {
        case Temporary =>
        case BadName => return None;
        case File(c, content) =>
          if content.None? { return None; }
          found := found + [(c, content.value)];
      }
    }
    assert dir[..|dir|] == dir;
    r := Some(found);
  }

  // ---------- Restarting ----------

  function Insert(u: Update, us: seq<Update>): seq<Update> {
    if us == [] then [u]
    else if us[|us| - 1].id <= u.id then us + [u]
    else Insert(u, us[..|us| - 1]) + [us[|us| - 1]]
  }

  /** The library's stable sort by update id. */
  function SortById(us: seq<Update>): seq<Update> {
    if us == [] then [] else Insert(us[|us| - 1], SortById(us[..|us| - 1]))
  }

  /** Whether a monitor reports an error on an update; that ends the restart. */
  type Refusal = (Monitor, Update) -> bool

  datatype Restart = Running(monitor: Monitor) | OutOfOrder | Aborted

  /** Applying updates in order. */
  function Replay(refuses: Refusal, m: Monitor, us: seq<Update>): Restart {
    if us == [] then Running(m)
    else match Replay(refuses, m, us[..|us| - 1])
      case OutOfOrder => OutOfOrder
      case Aborted => Aborted
      case Running(n) =>
        var u := us[|us| - 1];
        if !Accepts(n, u) then OutOfOrder else if refuses(n, u) then Aborted else Running(Apply(n, u))
  }

  /** The recovery loop for one monitor. */
  method Recover(refuses: Refusal, snapshot: Monitor, updates: seq<Update>) returns (r: Restart)
    ensures r == Replay(refuses, snapshot, SortById(updates))
  {
    var sorted, m := SortById(updates), snapshot;
    for i := 0 to |sorted|
      invariant Replay(refuses, snapshot, sorted[..i]) == Running(m)
    {
      var u := sorted[i];
      assert sorted[..i + 1][..i] == sorted[..i];
      if !Accepts(m, u) {
        ReplayStops(refuses, snapshot, sorted, i + 1);
        return OutOfOrder;
      }
      if refuses(m, u) {
        ReplayStops(refuses, snapshot, sorted, i + 1);
        return Aborted;
      }
      m := Apply(m, u);
    }
    assert sorted[..|sorted|] == sorted;
    r := Running(m);
  }

  lemma {:induction false} ReplayStops(refuses: Refusal, m: Monitor, us: seq<Update>, k: nat)
    requires k <= |us| && !Replay(refuses, m, us[..k]).Running?
    ensures Replay(refuses, m, us) == Replay(refuses, m, us[..k])
    decreases |us|
  {
    if k == |us| {
      assert us[..k] == us;
    } else {
      assert us[..|us| - 1][..k] == us[..k];
      ReplayStops(refuses, m, us[..|us| - 1], k);
    }
  }

  /** What becomes of the whole node: an unreadable directory, a channel that ends it, or all monitors. */
  datatype NodeRestart = Unreadable | Stopped(why: Restart) | Started(monitors: map<Channel, Monitor>)

  /** The recovery loop over all monitors, which ends with the first that fails. */
  function RestartAll(refuses: Refusal, snapshots: seq<(Channel, Monitor)>, dir: seq<Entry<Key, Update>>): NodeRestart
  {
    if snapshots == [] then Started(map[])
    else
      var rest, last := RestartAll(refuses, snapshots[..|snapshots| - 1], dir), snapshots[|snapshots| - 1];
      if !rest.Started? then rest
      else match Replay(refuses, last.1, SortById(Found(dir, last.0)))
        case Running(m) => Started(rest.monitors[last.0 := m])
        case why => Stopped(why)
  }

  ghost function RestartNode(
    refuses: Refusal, monitors: seq<Entry<Channel, Monitor>>, updates: seq<Entry<Key, Update>>): NodeRestart
  {
    if !AllReadable(monitors) || !AllReadable(updates) then Unreadable
    else RestartAll(refuses, Snapshots(monitors), updates)
  }

  /** The part of `start_ldk` that rebuilds the monitors. */
  method StartNode(refuses: Refusal, monitors: seq<Entry<Channel, Monitor>>, updates: seq<Entry<Key, Update>>)
    returns (r: NodeRestart)
    ensures r == RestartNode(refuses, monitors, updates)
  {
    var snapshots := ReadChannelMonitors(monitors);
    if snapshots.None? { return Unreadable; }
    var logged := ReadChannelMonitorUpdates(updates);
    if logged.None? { return Unreadable; }
    r := RebuildAll(refuses, snapshots.value, logged.value, updates);
  }

  /** The loop over all monitors. */
  method RebuildAll(
    refuses: Refusal, snapshots: seq<(Channel, Monitor)>, logged: map<Channel, seq<Update>>,
    ghost dir: seq<Entry<Key, Update>>)
    returns (r: NodeRestart)
    requires forall c: Channel :: (if c in logged then logged[c] else []) == Found(dir, c)
    ensures r == RestartAll(refuses, snapshots, dir)
  {
    var rebuilt: map<Channel, Monitor> := map[];
    for i := 0 to |snapshots|
      invariant RestartAll(refuses, snapshots[..i], dir) == Started(rebuilt)
    {
      var (c, m) := snapshots[i];
      var one := Recover(refuses, m, if c in logged then logged[c] else []);
      RestartNext(refuses, snapshots, dir, i);
      if !one.Running? {
        RestartStops(refuses, snapshots, dir, i + 1);
        return Stopped(one);
      }
      rebuilt := rebuilt[c := one.monitor];
    }
    assert snapshots[..|snapshots|] == snapshots;
    r := Started(rebuilt);
  }

  lemma RestartNext(refuses: Refusal, snapshots: seq<(Channel, Monitor)>, dir: seq<Entry<Key, Update>>, i: nat)
    requires i < |snapshots| && RestartAll(refuses, snapshots[..i], dir).Started?
    ensures var (c, m) := snapshots[i]; var one := Replay(refuses, m, SortById(Found(dir, c)));
      RestartAll(refuses, snapshots[..i + 1], dir) ==
      if one.Running? then Started(RestartAll(refuses, snapshots[..i], dir).monitors[c := one.monitor])
      else Stopped(one)
  {
    assert snapshots[..i + 1][..i] == snapshots[..i];
  }

  lemma {:induction false} RestartStops(
    refuses: Refusal, snapshots: seq<(Channel, Monitor)>, dir: seq<Entry<Key, Update>>, k: nat)
    requires k <= |snapshots| && !RestartAll(refuses, snapshots[..k], dir).Started?
    ensures RestartAll(refuses, snapshots, dir) == RestartAll(refuses, snapshots[..k], dir)
    decreases |snapshots|
  {
    if k == |snapshots| {
      assert snapshots[..k] == snapshots;
    } else {
      assert snapshots[..|snapshots| - 1][..k] == snapshots[..k];
      RestartStops(refuses, snapshots[..|snapshots| - 1], dir, k);
    }
  }
}
