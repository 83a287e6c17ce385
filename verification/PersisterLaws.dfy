/** What a restart of the node rebuilds: exactly the monitors in memory, or exactly when not. */
module PersisterLaws {
  import opened Prelude
  import opened Persister

  // ---------- Listing a log in any order, and sorting it ----------

  /** Every logged update once, in some order. */
  ghost predicate Listing(us: seq<Update>, log: map<nat, Update>) {
    if us == [] then log == map[]
    else
      var u := us[|us| - 1];
      u.id in log && log[u.id] == u && Listing(us[..|us| - 1], log - {u.id})
  }

  lemma {:induction false} ListingCount(us: seq<Update>, log: map<nat, Update>)
    requires Listing(us, log)
    ensures |us| == |log|
  {
    if us != [] {
      var u := us[|us| - 1];
      ListingCount(us[..|us| - 1], log - {u.id});
      assert log == (log - {u.id})[u.id := u];
    }
  }

  lemma {:induction false} ListedIsLogged(us: seq<Update>, log: map<nat, Update>, i: nat)
    requires Listing(us, log) && i < |us|
    ensures us[i].id in log && log[us[i].id] == us[i]
  {
    if i < |us| - 1 { ListedIsLogged(us[..|us| - 1], log - {us[|us| - 1].id}, i); }
  }

  lemma {:induction false} LoggedIsListed(us: seq<Update>, log: map<nat, Update>, k: nat) returns (i: nat)
    requires Listing(us, log) && k in log
    ensures i < |us| && us[i] == log[k] && us[i].id == k
  {
    if us[|us| - 1].id == k { i := |us| - 1; }
    else { i := LoggedIsListed(us[..|us| - 1], log - {us[|us| - 1].id}, k); }
  }

  ghost predicate AllBelow(us: seq<Update>, k: nat) { forall i :: 0 <= i < |us| ==> us[i].id < k }

  /** Strictly increasing ids. */
  ghost predicate Increasing(us: seq<Update>) {
    us == [] || (Increasing(us[..|us| - 1]) && AllBelow(us[..|us| - 1], us[|us| - 1].id))
  }

  lemma {:induction false} InsertBelow(u: Update, us: seq<Update>, k: nat)
    requires u.id < k && AllBelow(us, k)
    ensures AllBelow(Insert(u, us), k)
  {
    if us != [] && us[|us| - 1].id > u.id { InsertBelow(u, us[..|us| - 1], k); }
  }

  lemma {:induction false} InsertListed(u: Update, us: seq<Update>, log: map<nat, Update>)
    requires Listing(us, log) && u.id !in log
    ensures Listing(Insert(u, us), log[u.id := u])
  {
    var all := log[u.id := u];
    if us == [] || us[|us| - 1].id <= u.id {
      assert all - {u.id} == log;
      assert (us + [u])[..|us|] == us;
    } else {
      var v := us[|us| - 1];
      InsertListed(u, us[..|us| - 1], log - {v.id});
      var front := Insert(u, us[..|us| - 1]);
      assert all - {v.id} == (log - {v.id})[u.id := u];
      assert (front + [v])[..|front|] == front;
    }
  }

  lemma {:induction false} InsertIncreasing(u: Update, us: seq<Update>, log: map<nat, Update>)
    requires Listing(us, log) && u.id !in log && Increasing(us)
    ensures Increasing(Insert(u, us))
  {
    if us != [] {
      var v, front := us[|us| - 1], us[..|us| - 1];
      if v.id <= u.id {
        assert (us + [u])[..|us|] == us;
      } else {
        InsertIncreasing(u, front, log - {v.id});
        InsertBelow(u, front, v.id);
        assert (Insert(u, front) + [v])[..|Insert(u, front)|] == Insert(u, front);
      }
    }
  }

  lemma {:induction false} SortListed(us: seq<Update>, log: map<nat, Update>)
    requires Listing(us, log)
    ensures Listing(SortById(us), log) && Increasing(SortById(us))
  {
    if us != [] {
      var u, front := us[|us| - 1], us[..|us| - 1];
      SortListed(front, log - {u.id});
      InsertListed(u, SortById(front), log - {u.id});
      InsertIncreasing(u, SortById(front), log - {u.id});
      assert (log - {u.id})[u.id := u] == log;
    }
  }

  lemma LastIsLargest(a: seq<Update>, b: seq<Update>, log: map<nat, Update>)
    requires a != [] && b != [] && Listing(a, log) && Listing(b, log) && Increasing(b)
    ensures a[|a| - 1].id <= b[|b| - 1].id
  {
    var i := LoggedIsListed(b, log, a[|a| - 1].id);
    if i < |b| - 1 { assert b[..|b| - 1][i] == b[i]; }
  }

  /** A log has one increasing listing. */
  lemma {:induction false} IncreasingListingUnique(a: seq<Update>, b: seq<Update>, log: map<nat, Update>)
    requires Listing(a, log) && Listing(b, log) && Increasing(a) && Increasing(b)
    ensures a == b
  {
    ListingCount(a, log);
    ListingCount(b, log);
    if a != [] {
      LastIsLargest(a, b, log);
      LastIsLargest(b, a, log);
      IncreasingListingUnique(a[..|a| - 1], b[..|b| - 1], log - {a[|a| - 1].id});
      assert a == a[..|a| - 1] + [a[|a| - 1]] && b == b[..|b| - 1] + [b[|b| - 1]];
    }
  }

  // ---------- Logs by channel ----------

  lemma LogOfAdded(updates: map<Key, Update>, k: Key, u: Update, c: Channel)
    requires u.id == k.id
    ensures LogOf(updates[k := u], c) == if k.channel == c then LogOf(updates, c)[k.id := u] else LogOf(updates, c)
  {
    var all, log := updates[k := u], LogOf(updates, c);
    forall id: nat ensures id in LogOf(all, c) <==> Key(c, id) in all {
      assert Key(c, id) in all ==> Key(c, id).id in LogOf(all, c);
    }
    forall id: nat ensures id in log <==> Key(c, id) in updates {
      assert Key(c, id) in updates ==> Key(c, id).id in log;
    }
  }

  lemma LogOfRemoved(updates: map<Key, Update>, k: Key, c: Channel)
    ensures LogOf(updates - {k}, c) == if k.channel == c then LogOf(updates, c) - {k.id} else LogOf(updates, c)
  {
    var less, log := updates - {k}, LogOf(updates, c);
    forall id: nat ensures id in LogOf(less, c) <==> Key(c, id) in less {
      assert Key(c, id) in less ==> Key(c, id).id in LogOf(less, c);
    }
    forall id: nat ensures id in log <==> Key(c, id) in updates {
      assert Key(c, id) in updates ==> Key(c, id).id in log;
    }
  }

  // ---------- Runs of the node ----------

  /**
   A new channel is watched, or its first write fails, after its rename or before; a channel's
   monitor is updated; a block reaches it. Each is persisted before the next.
   */
  datatype Op =
    | New(channel: Channel, monitor: Monitor)
    | FailedNew(channel: Channel, monitor: Monitor, steps: nat, renamed: bool)
    | Change(channel: Channel, update: Update)
    | Block(channel: Channel, block: nat)

  datatype World = World(memory: map<Channel, Monitor>, disk: Disk)

  /** Where a run starts: an empty disk, or what a restart made of one, with the updates it replayed. */
  datatype Boot = Boot(world: World, pending: Channel -> seq<Update>)

  const EMPTY := Boot(World(map[], Disk(map[], map[])), _ => [])

  predicate Possible(w: World, op: Op) {
    match op
    case New(c, _) => c !in w.memory
    case FailedNew(c, _, _, _) => c !in w.memory
    case Change(c, u) => c in w.memory && Accepts(w.memory[c], u)
    case Block(c, _) => c in w.memory
  }

  function Do(w: World, op: Op): World
    requires Possible(w, op)
  {
    match op
    case New(c, m) => World(w.memory[c := m], Snapshot(w.disk, c, m))
    case FailedNew(c, m, _, renamed) => if renamed then w.(disk := RenameSnapshot(w.disk, c, m)) else w
    case Change(c, u) => World(w.memory[c := Apply(w.memory[c], u)], LogUpdate(w.disk, c, u))
    case Block(c, b) =>
      var m := SeeBlock(w.memory[c], b);
      World(w.memory[c := m], Snapshot(w.disk, c, m))
  }

  predicate Legal(b: Boot, ops: seq<Op>)
    decreases |ops|, 0
  {
    ops == [] || (Legal(b, ops[..|ops| - 1]) && Possible(After(b, ops[..|ops| - 1]), ops[|ops| - 1]))
  }

  function After(b: Boot, ops: seq<Op>): World
    requires Legal(b, ops)
    decreases |ops|, 1
  {
    if ops == [] then b.world else Do(After(b, ops[..|ops| - 1]), ops[|ops| - 1])
  }

  /** A channel's updates since its last snapshot. */
  function Pending(b: Boot, ops: seq<Op>, c: Channel): seq<Update> {
    if ops == [] then b.pending(c)
    else
      var front, op := Pending(b, ops[..|ops| - 1], c), ops[|ops| - 1];
      if op.FailedNew? || op.channel != c then front else if op.Change? then front + [op.update] else []
  }

  /**
   No snapshot of another channel was written while this channel had updates in the log, and no
   two updates in the log had the same id.
   */
  predicate Intact(b: Boot, ops: seq<Op>, c: Channel) {
    if ops == [] then true
    else
      var front, op := ops[..|ops| - 1], ops[|ops| - 1];
      var pending := Pending(b, front, c);
      if op.FailedNew? then Intact(b, front, c)
      else if op.channel == c && !op.Change? then true
      else if op.channel == c then Intact(b, front, c) && (pending != [] ==> pending[|pending| - 1].id != op.update.id)
      else Intact(b, front, c) && (op.Change? || pending == [])
  }

  /** A failed first write left a snapshot of a channel that was not watched, and it was not watched later. */
  predicate Orphan(ops: seq<Op>, c: Channel) {
    if ops == [] then false
    else
      var op := ops[|ops| - 1];
      if op.channel == c && op.New? then false
      else if op.channel == c && op.FailedNew? && op.renamed then true
      else Orphan(ops[..|ops| - 1], c)
  }

  /** The log holds all pending updates, in full and in order, or fewer than there are. */
  ghost predicate Logs(log: map<nat, Update>, pending: seq<Update>, intact: bool) {
    if intact then Listing(pending, log) && Increasing(pending) else |log| < |pending|
  }

  /** The snapshot and the pending updates give the monitor in memory. */
  ghost predicate Consistent(w: World, c: Channel, pending: seq<Update>, intact: bool) {
    && (c !in w.memory ==> pending == [])
    && (c in w.memory ==> c in w.disk.monitors && AcceptsAll(w.disk.monitors[c], pending)
                          && w.memory[c] == ApplyAll(w.disk.monitors[c], pending))
    && Logs(LogOf(w.disk.updates, c), pending, intact)
  }

  /** A world a restart may leave: every snapshot is in memory, with its whole log applied. */
  ghost predicate Booted(b: Boot) {
    && (forall c :: Consistent(b.world, c, b.pending(c), true))
    && (forall c :: c in b.world.disk.monitors ==> c in b.world.memory)
  }

  lemma AcceptedIdsGrow(m: Monitor, us: seq<Update>, u: Update)
    requires AcceptsAll(m, us) && Increasing(us) && Accepts(ApplyAll(m, us), u)
    requires us != [] ==> us[|us| - 1].id != u.id
    ensures AllBelow(us, u.id)
  {
    if us != [] {
      var last := us[|us| - 1];
      assert last.id < u.id;
      assert forall i :: 0 <= i < |us| - 1 ==> us[..|us| - 1][i] == us[i];
    }
  }

  lemma LogGrows(us: seq<Update>, log: map<nat, Update>, u: Update)
    requires Listing(us, log) && AllBelow(us, u.id)
    ensures Listing(us + [u], log[u.id := u])
  {
    if u.id in log { var i := LoggedIsListed(us, log, u.id); }
    assert log[u.id := u] - {u.id} == log;
    assert (us + [u])[..|us|] == us;
  }

  lemma OneMoreAccepted(m: Monitor, us: seq<Update>, u: Update)
    requires AcceptsAll(m, us) && Accepts(ApplyAll(m, us), u)
    ensures AcceptsAll(m, us + [u]) && ApplyAll(m, us + [u]) == Apply(ApplyAll(m, us), u)
  {
    assert (us + [u])[..|us|] == us;
  }

  lemma LogCount(log: map<nat, Update>, u: Update)
    ensures |log| <= |log[u.id := u]| <= |log| + 1
    ensures u.id in log ==> |log[u.id := u]| == |log|
  {
    if u.id in log {
      assert log[u.id := u].Keys == log.Keys;
      assert |log.Keys| == |log| && |log[u.id := u].Keys| == |log[u.id := u]|;
    }
  }

  lemma LogsGrow(m: Monitor, log: map<nat, Update>, u: Update, pending: seq<Update>, intact: bool)
    requires AcceptsAll(m, pending) && Accepts(ApplyAll(m, pending), u) && Logs(log, pending, intact)
    ensures Logs(log[u.id := u], pending + [u], intact && (pending != [] ==> pending[|pending| - 1].id != u.id))
  {
    LogCount(log, u);
    if intact {
      ListingCount(pending, log);
      if pending != [] && pending[|pending| - 1].id == u.id {
        assert u.id in log;
      } else {
        AcceptedIdsGrow(m, pending, u);
        LogGrows(pending, log, u);
        assert (pending + [u])[..|pending|] == pending;
      }
    }
  }

  lemma ChangeConsistent(w: World, c: Channel, u: Update, pending: seq<Update>, intact: bool)
    requires Possible(w, Change(c, u)) && Consistent(w, c, pending, intact)
    ensures Consistent(Do(w, Change(c, u)), c, pending + [u],
                       intact && (pending != [] ==> pending[|pending| - 1].id != u.id))
  {
    OneMoreAccepted(w.disk.monitors[c], pending, u);
    LogOfAdded(w.disk.updates, Key(c, u.id), u, c);
    LogsGrow(w.disk.monitors[c], LogOf(w.disk.updates, c), u, pending, intact);
  }

  /** What every operation keeps, for every channel. */
  lemma {:induction false} AlwaysConsistent(b: Boot, ops: seq<Op>, c: Channel)
    requires Booted(b) && Legal(b, ops)
    ensures Consistent(After(b, ops), c, Pending(b, ops, c), Intact(b, ops, c))
  {
    if ops != [] {
      var front, op := ops[..|ops| - 1], ops[|ops| - 1];
      AlwaysConsistent(b, front, c);
      if op.Change? {
        if op.channel == c {
          ChangeConsistent(After(b, front), c, op.update, Pending(b, front, c), Intact(b, front, c));
        } else {
          LogOfAdded(After(b, front).disk.updates, Key(op.channel, op.update.id), op.update, c);
        }
      }
    }
  }

  /** The snapshots on disk are those of the channels in memory, and the orphans. */
  lemma {:induction false} OrphansOnDisk(b: Boot, ops: seq<Op>, c: Channel)
    requires Booted(b) && Legal(b, ops)
    ensures c in After(b, ops).disk.monitors <==> c in After(b, ops).memory || Orphan(ops, c)
    ensures Orphan(ops, c) ==> c !in After(b, ops).memory
  {
    if ops != [] {
      OrphansOnDisk(b, ops[..|ops| - 1], c);
    } else {
      assert Consistent(b.world, c, b.pending(c), true);
    }
  }

  /** A channel that is neither in memory nor on disk has nothing in the log. */
  lemma UnknownHasNoLog(b: Boot, ops: seq<Op>, c: Channel)
    requires Booted(b) && Legal(b, ops) && c !in After(b, ops).memory
    ensures LogOf(After(b, ops).disk.updates, c) == map[]
  {
    AlwaysConsistent(b, ops, c);
  }

  // ---------- Restarting one channel ----------

  /** No update is refused when applied in turn. */
  predicate NoneRefused(refuses: Refusal, m: Monitor, us: seq<Update>) {
    us == [] || (NoneRefused(refuses, m, us[..|us| - 1]) && !refuses(ApplyAll(m, us[..|us| - 1]), us[|us| - 1]))
  }

  lemma {:induction false} ReplayAccepted(refuses: Refusal, m: Monitor, us: seq<Update>)
    requires AcceptsAll(m, us)
    ensures Replay(refuses, m, us) == if NoneRefused(refuses, m, us) then Running(ApplyAll(m, us)) else Aborted
  {
    if us != [] { ReplayAccepted(refuses, m, us[..|us| - 1]); }
  }

  lemma {:induction false} ReplayLength(refuses: Refusal, m: Monitor, us: seq<Update>)
    ensures Replay(refuses, m, us).Running? ==> |Replay(refuses, m, us).monitor.history| == |m.history| + |us|
    ensures |ApplyAll(m, us).history| == |m.history| + |us|
  {
    if us != [] { ReplayLength(refuses, m, us[..|us| - 1]); }
  }

  /**
   After updates that left monitor `n`, the next one ends the restart with a panic exactly if it is
   neither the next in number nor one made after a force-close; whatever follows it does not matter.
   */
  lemma ReplayNext(refuses: Refusal, m: Monitor, us: seq<Update>, n: Monitor, u: Update, more: seq<Update>)
    requires Replay(refuses, m, us) == Running(n) && u.id <= 0xFFFF_FFFF_FFFF_FFFF
    ensures var next := u.id == n.latest + 1 || u.id == 0xFFFF_FFFF_FFFF_FFFF;
      && (!next ==> Replay(refuses, m, us + [u] + more) == OutOfOrder)
      && (next && refuses(n, u) ==> Replay(refuses, m, us + [u] + more) == Aborted)
      && (next && !refuses(n, u) ==>
          Replay(refuses, m, us + [u]) == Running(Monitor(u.id, n.history + [Updated(u)])))
  {
    var all := us + [u] + more;
    assert all[..|us| + 1] == us + [u] && (us + [u])[..|us|] == us;
    if !Replay(refuses, m, us + [u]).Running? { ReplayStops(refuses, m, all, |us| + 1); }
  }

  /** One entry with a bad name or bad content, in either directory, ends the restart of the whole node. */
  lemma BadEntryStopsNode(
    refuses: Refusal, monitors: seq<Entry<Channel, Monitor>>, updates: seq<Entry<Key, Update>>, i: nat)
    requires || (i < |monitors| && (monitors[i].BadName? || (monitors[i].File? && monitors[i].content.None?)))
             || (i < |updates| && (updates[i].BadName? || (updates[i].File? && updates[i].content.None?)))
    ensures RestartNode(refuses, monitors, updates) == Unreadable
  {
  }

  /** One channel is rebuilt exactly when its log is complete and none of the updates is refused. */
  lemma ChannelRebuildsIff(
    refuses: Refusal, m: Monitor, pending: seq<Update>, log: map<nat, Update>, found: seq<Update>, intact: bool)
    requires AcceptsAll(m, pending) && Listing(found, log) && Logs(log, pending, intact)
    ensures Replay(refuses, m, SortById(found)) == Running(ApplyAll(m, pending)) <==>
      intact && NoneRefused(refuses, m, pending)
  {
    SortListed(found, log);
    if intact {
      IncreasingListingUnique(SortById(found), pending, log);
      ReplayAccepted(refuses, m, pending);
    } else {
      ListingCount(SortById(found), log);
      ReplayLength(refuses, m, SortById(found));
      ReplayLength(refuses, m, pending);
    }
  }

  /** What a channel must have met to be rebuilt. */
  predicate Rebuildable(refuses: Refusal, b: Boot, ops: seq<Op>, c: Channel)
    requires Legal(b, ops)
  {
    && Intact(b, ops, c) && c in After(b, ops).disk.monitors
    && NoneRefused(refuses, After(b, ops).disk.monitors[c], Pending(b, ops, c))
  }

  // ---------- Restarting the node ----------

  /** Every snapshot once, in some order. */
  ghost predicate ListsMonitors(snapshots: seq<(Channel, Monitor)>, monitors: map<Channel, Monitor>) {
    if snapshots == [] then monitors == map[]
    else
      var (c, m) := snapshots[|snapshots| - 1];
      c in monitors && monitors[c] == m && ListsMonitors(snapshots[..|snapshots| - 1], monitors - {c})
  }

  function Rebuilt(refuses: Refusal, m: Monitor, dir: seq<Entry<Key, Update>>, c: Channel): Restart {
    Replay(refuses, m, SortById(Found(dir, c)))
  }

  lemma {:induction false} RestartKeys(
    refuses: Refusal, snapshots: seq<(Channel, Monitor)>, dir: seq<Entry<Key, Update>>, monitors: map<Channel, Monitor>)
    requires ListsMonitors(snapshots, monitors) && RestartAll(refuses, snapshots, dir).Started?
    ensures RestartAll(refuses, snapshots, dir).monitors.Keys == monitors.Keys
  {
    if snapshots != [] {
      var (c, _) := snapshots[|snapshots| - 1];
      RestartKeys(refuses, snapshots[..|snapshots| - 1], dir, monitors - {c});
      assert (monitors - {c}).Keys + {c} == monitors.Keys;
    }
  }

  /** Whatever the node starts with was rebuilt, channel by channel. */
  lemma {:induction false} StartedIsRebuilt(
    refuses: Refusal, snapshots: seq<(Channel, Monitor)>, dir: seq<Entry<Key, Update>>,
    monitors: map<Channel, Monitor>, c: Channel)
    requires ListsMonitors(snapshots, monitors) && RestartAll(refuses, snapshots, dir).Started? && c in monitors
    ensures var memory := RestartAll(refuses, snapshots, dir).monitors;
      c in memory && Rebuilt(refuses, monitors[c], dir, c) == Running(memory[c])
  {
    var (k, m) := snapshots[|snapshots| - 1];
    if c != k { StartedIsRebuilt(refuses, snapshots[..|snapshots| - 1], dir, monitors - {k}, c); }
  }

  /** If every channel is rebuilt, the node starts with all of them. */
  lemma {:induction false} RebuiltStarts(
    refuses: Refusal, snapshots: seq<(Channel, Monitor)>, dir: seq<Entry<Key, Update>>,
    monitors: map<Channel, Monitor>, memory: map<Channel, Monitor>)
    requires ListsMonitors(snapshots, monitors) && AllRebuilt(refuses, monitors, memory, dir)
    ensures RestartAll(refuses, snapshots, dir) == Started(memory)
  {
    if snapshots == [] {
      assert memory == map[];
    } else {
      var (k, m) := snapshots[|snapshots| - 1];
      AllRebuiltBut(refuses, monitors, memory, dir, k);
      RebuiltStarts(refuses, snapshots[..|snapshots| - 1], dir, monitors - {k}, memory - {k});
      assert (memory - {k})[k := memory[k]] == memory;
    }
  }

  ghost predicate AllRebuilt(
    refuses: Refusal, monitors: map<Channel, Monitor>, memory: map<Channel, Monitor>, dir: seq<Entry<Key, Update>>)
  {
    && memory.Keys == monitors.Keys
    && forall c :: c in monitors ==> c in memory && Rebuilt(refuses, monitors[c], dir, c) == Running(memory[c])
  }

  lemma AllRebuiltBut(
    refuses: Refusal, monitors: map<Channel, Monitor>, memory: map<Channel, Monitor>, dir: seq<Entry<Key, Update>>,
    k: Channel)
    requires AllRebuilt(refuses, monitors, memory, dir) && k in monitors
    ensures AllRebuilt(refuses, monitors - {k}, memory - {k}, dir)
    ensures k in memory && Rebuilt(refuses, monitors[k], dir, k) == Running(memory[k])
  {
    assert (memory - {k}).Keys == (monitors - {k}).Keys;
  }

  /** The node starts with given monitors exactly when they are the ones on disk and each of them is rebuilt. */
  lemma RestartAllIff(
    refuses: Refusal, snapshots: seq<(Channel, Monitor)>, dir: seq<Entry<Key, Update>>,
    monitors: map<Channel, Monitor>, memory: map<Channel, Monitor>)
    requires ListsMonitors(snapshots, monitors)
    ensures RestartAll(refuses, snapshots, dir) == Started(memory) <==> AllRebuilt(refuses, monitors, memory, dir)
  {
    if RestartAll(refuses, snapshots, dir) == Started(memory) {
      RestartKeys(refuses, snapshots, dir, monitors);
      forall c | c in monitors ensures c in memory && Rebuilt(refuses, monitors[c], dir, c) == Running(memory[c]) {
        StartedIsRebuilt(refuses, snapshots, dir, monitors, c);
      }
    }
    if AllRebuilt(refuses, monitors, memory, dir) { RebuiltStarts(refuses, snapshots, dir, monitors, memory); }
  }

  ghost predicate ListsLogs(updates: seq<Entry<Key, Update>>, d: Disk) {
    forall c :: Listing(Found(updates, c), LogOf(d.updates, c))
  }

  /** Two directories list what a disk stands for. */
  ghost predicate ListsDisk(monitors: seq<Entry<Channel, Monitor>>, updates: seq<Entry<Key, Update>>, d: Disk) {
    ListsMonitors(Snapshots(monitors), d.monitors) && ListsLogs(updates, d)
  }

  /** No failed first write left its snapshot behind, and every channel can be rebuilt. */
  ghost predicate Recoverable(refuses: Refusal, b: Boot, ops: seq<Op>)
    requires Legal(b, ops)
  {
    (forall c :: !Orphan(ops, c)) && forall c :: c in After(b, ops).memory ==> Rebuildable(refuses, b, ops, c)
  }

  lemma SameKeysIff(b: Boot, ops: seq<Op>)
    requires Booted(b) && Legal(b, ops)
    ensures After(b, ops).memory.Keys == After(b, ops).disk.monitors.Keys <==> forall c :: !Orphan(ops, c)
  {
    var memory, monitors := After(b, ops).memory.Keys, After(b, ops).disk.monitors.Keys;
    if c :| Orphan(ops, c) {
      OrphansOnDisk(b, ops, c);
      assert c in monitors && c !in memory;
    } else {
      forall c ensures c in memory <==> c in monitors { OrphansOnDisk(b, ops, c); }
      assert memory == monitors;
    }
  }

  lemma RebuiltIff(refuses: Refusal, b: Boot, ops: seq<Op>, updates: seq<Entry<Key, Update>>, c: Channel)
    requires Booted(b) && Legal(b, ops) && c in After(b, ops).memory
    requires Listing(Found(updates, c), LogOf(After(b, ops).disk.updates, c))
    ensures var w := After(b, ops);
      && c in w.disk.monitors
      && (Rebuilt(refuses, w.disk.monitors[c], updates, c) == Running(w.memory[c]) <==> Rebuildable(refuses, b, ops, c))
  {
    var w := After(b, ops);
    AlwaysConsistent(b, ops, c);
    ChannelRebuildsIff(refuses, w.disk.monitors[c], Pending(b, ops, c), LogOf(w.disk.updates, c), Found(updates, c),
                       Intact(b, ops, c));
  }

  lemma RebuiltIsRecoverable(refuses: Refusal, b: Boot, ops: seq<Op>, updates: seq<Entry<Key, Update>>)
    requires Booted(b) && Legal(b, ops) && ListsLogs(updates, After(b, ops).disk)
    requires AllRebuilt(refuses, After(b, ops).disk.monitors, After(b, ops).memory, updates)
    ensures Recoverable(refuses, b, ops)
  {
    SameKeysIff(b, ops);
    forall c | c in After(b, ops).memory ensures Rebuildable(refuses, b, ops, c) {
      RebuiltIff(refuses, b, ops, updates, c);
    }
  }

  lemma RecoverableIsRebuilt(refuses: Refusal, b: Boot, ops: seq<Op>, updates: seq<Entry<Key, Update>>)
    requires Booted(b) && Legal(b, ops) && ListsLogs(updates, After(b, ops).disk) && Recoverable(refuses, b, ops)
    ensures AllRebuilt(refuses, After(b, ops).disk.monitors, After(b, ops).memory, updates)
  {
    var memory, monitors := After(b, ops).memory, After(b, ops).disk.monitors;
    SameKeysIff(b, ops);
    forall c | c in monitors ensures c in memory && Rebuilt(refuses, monitors[c], updates, c) == Running(memory[c]) {
      assert c in memory.Keys;
      RebuiltIff(refuses, b, ops, updates, c);
    }
  }

  /**
   After any run, a restart of the node rebuilds exactly the monitors in memory, whatever order
   the directories are listed in, if and only if both directories are readable, no failed first
   write left its snapshot behind and, for every channel, its log is intact and its monitor
   refused none of the logged updates.
   */
  lemma RestartRebuildsIff(
    refuses: Refusal, b: Boot, ops: seq<Op>, monitors: seq<Entry<Channel, Monitor>>, updates: seq<Entry<Key, Update>>)
    requires Booted(b) && Legal(b, ops) && ListsDisk(monitors, updates, After(b, ops).disk)
    ensures RestartNode(refuses, monitors, updates) == Started(After(b, ops).memory) <==>
      AllReadable(monitors) && AllReadable(updates) && Recoverable(refuses, b, ops)
  {
    RestartAllIff(refuses, Snapshots(monitors), updates, After(b, ops).disk.monitors, After(b, ops).memory);
    if Recoverable(refuses, b, ops) {
      RecoverableIsRebuilt(refuses, b, ops, updates);
    } else if AllRebuilt(refuses, After(b, ops).disk.monitors, After(b, ops).memory, updates) {
      RebuiltIsRecoverable(refuses, b, ops, updates);
    }
  }

  /** A node with one channel, whose updates all carry ordinary, increasing ids, never loses any. */
  lemma {:induction false} OneChannelIsIntact(b: Boot, ops: seq<Op>, c: Channel)
    requires Booted(b) && Legal(b, ops)
    requires forall i :: 0 <= i < |ops| ==> ops[i].channel == c && (ops[i].Change? ==> ops[i].update.id != CLOSED)
    ensures Intact(b, ops, c)
  {
    if ops != [] {
      OneChannelIsIntact(b, ops[..|ops| - 1], c);
      AlwaysConsistent(b, ops[..|ops| - 1], c);
    }
  }

  // ---------- What loses updates ----------

  lemma OneMore(b: Boot, ops: seq<Op>, op: Op)
    requires Legal(b, ops) && Possible(After(b, ops), op)
    ensures Legal(b, ops + [op]) && After(b, ops + [op]) == Do(After(b, ops), op)
  {
    assert (ops + [op])[..|ops|] == ops;
  }

  lemma {:induction false} NothingFound(
    snapshots: seq<(Channel, Monitor)>, refuses: Refusal, monitors: map<Channel, Monitor>)
    requires ListsMonitors(snapshots, monitors)
    ensures RestartAll(refuses, snapshots, []) == Started(monitors)
  {
    if snapshots != [] {
      var (c, m) := snapshots[|snapshots| - 1];
      NothingFound(snapshots[..|snapshots| - 1], refuses, monitors - {c});
      assert monitors == (monitors - {c})[c := m];
    }
  }

  /**
   Watching a new channel drops the logged updates of every other one: the recovery loop then
   starts the node with an older monitor.
   */
  lemma NewChannelDropsOthers(
    refuses: Refusal, b: Boot, ops: seq<Op>, c: Channel, other: Channel, m: Monitor,
    monitors: seq<Entry<Channel, Monitor>>)
    requires Booted(b) && Legal(b, ops)
    requires c in After(b, ops).memory && other !in After(b, ops).memory && Pending(b, ops, c) != []
    requires AllReadable(monitors) && ListsDisk(monitors, [], Do(After(b, ops), New(other, m)).disk)
    ensures var w := Do(After(b, ops), New(other, m));
      && RestartNode(refuses, monitors, []) == Started(w.disk.monitors)
      && c in w.disk.monitors && |w.disk.monitors[c].history| + |Pending(b, ops, c)| == |w.memory[c].history|
  {
    AlwaysConsistent(b, ops, c);
    ReplayLength(refuses, After(b, ops).disk.monitors[c], Pending(b, ops, c));
    NothingFound(Snapshots(monitors), refuses, Do(After(b, ops), New(other, m)).disk.monitors);
  }

  lemma EmptyIsBooted()
    ensures Booted(EMPTY)
  {
    forall c ensures Consistent(EMPTY.world, c, EMPTY.pending(c), true) { assert LogOf(map[], c) == map[]; }
  }

  /** Two updates after a force-close share a file name: the first is lost, and no restart rebuilds the monitor. */
  lemma ClosedUpdatesCollide(
    refuses: Refusal, c: Channel, m: Monitor, first: nat, second: nat,
    monitors: seq<Entry<Channel, Monitor>>, updates: seq<Entry<Key, Update>>)
    ensures var ops := [New(c, m), Change(c, Update(CLOSED, first)), Change(c, Update(CLOSED, second))];
      && Legal(EMPTY, ops) && LogOf(After(EMPTY, ops).disk.updates, c) == map[CLOSED := Update(CLOSED, second)]
      && (ListsDisk(monitors, updates, After(EMPTY, ops).disk) ==>
          RestartNode(refuses, monitors, updates) != Started(After(EMPTY, ops).memory))
  {
    var x, y := Update(CLOSED, first), Update(CLOSED, second);
    var none: seq<Op> := [];
    assert none + [New(c, m)] == [New(c, m)];
    OneMore(EMPTY, none, New(c, m));
    OneMore(EMPTY, [New(c, m)], Change(c, x));
    assert [New(c, m)] + [Change(c, x)] == [New(c, m), Change(c, x)];
    OneMore(EMPTY, [New(c, m), Change(c, x)], Change(c, y));
    var two := [New(c, m), Change(c, x)];
    var ops := two + [Change(c, y)];
    assert ops == [New(c, m), Change(c, x), Change(c, y)] && ops[..2] == two && two[..1] == [New(c, m)];
    LogOfAdded(map[], Key(c, CLOSED), x, c);
    LogOfAdded(After(EMPTY, two).disk.updates, Key(c, CLOSED), y, c);
    assert Pending(EMPTY, two, c) == [x];
    assert !Intact(EMPTY, ops, c) && c in After(EMPTY, ops).memory && !Rebuildable(refuses, EMPTY, ops, c);
    EmptyIsBooted();
    if ListsDisk(monitors, updates, After(EMPTY, ops).disk) {
      RestartRebuildsIff(refuses, EMPTY, ops, monitors, updates);
    }
  }

  /** A snapshot without a log is restarted as it is. */
  lemma NoLogRebuilds(refuses: Refusal, updates: seq<Entry<Key, Update>>, c: Channel, m: Monitor)
    requires Listing(Found(updates, c), map[])
    ensures Rebuilt(refuses, m, updates, c) == Running(m)
  {
    ListingCount(Found(updates, c), map[]);
    assert Found(updates, c) == [];
  }

  lemma OneMoreRebuilt(
    refuses: Refusal, monitors: map<Channel, Monitor>, memory: map<Channel, Monitor>, updates: seq<Entry<Key, Update>>,
    c: Channel, m: Monitor)
    requires AllRebuilt(refuses, monitors, memory, updates) && Rebuilt(refuses, m, updates, c) == Running(m)
    ensures AllRebuilt(refuses, monitors[c := m], memory[c := m], updates)
  {
    assert memory[c := m].Keys == memory.Keys + {c} && monitors[c := m].Keys == monitors.Keys + {c};
  }

  /** A failed first write past its rename: the restart brings up a channel the node never watched. */
  lemma FailedWriteComesBack(
    refuses: Refusal, b: Boot, ops: seq<Op>, c: Channel, m: Monitor, steps: nat,
    monitors: seq<Entry<Channel, Monitor>>, updates: seq<Entry<Key, Update>>)
    requires Booted(b) && Legal(b, ops) && c !in After(b, ops).memory && Recoverable(refuses, b, ops)
    requires AllReadable(monitors) && AllReadable(updates)
    requires ListsDisk(monitors, updates, Do(After(b, ops), FailedNew(c, m, steps, true)).disk)
    ensures RestartNode(refuses, monitors, updates) == Started(After(b, ops).memory[c := m])
  {
    var w := After(b, ops);
    assert ListsLogs(updates, w.disk);
    RecoverableIsRebuilt(refuses, b, ops, updates);
    UnknownHasNoLog(b, ops, c);
    NoLogRebuilds(refuses, updates, c, m);
    OneMoreRebuilt(refuses, w.disk.monitors, w.memory, updates, c, m);
    RebuiltStarts(refuses, Snapshots(monitors), updates, w.disk.monitors[c := m], w.memory[c := m]);
  }
}
