/**
 Rapid gossip sync: a compact byte stream of channel announcements and channel updates, decoded
 step by step into the network graph. Channel ids are running sums of deltas, and an update is the
 difference from the stream's defaults or from what the graph already stores.
 */
module RapidGossip {
  import opened Prelude
  import opened Integers

  datatype Error =
    | ShortRead | UnknownVersion | InvalidValue
    | SelfChannel | StaleOrFuture | NoChannel | NoDirection | HtlcMaximumTooLarge | OlderUpdate | SameTimestamp

  datatype Result<+T> = Ok(value: T) | Err(error: Error) {
    predicate IsFailure() { Err? }

    function PropagateFailure<U>(): Result<U>
      requires IsFailure()
    {
      Err(error)
    }

    function Extract(): T
      requires !IsFailure()
    {
      value
    }
  }

  /** Bytes, as numbers. */
  type Stream = seq<nat>

  type Key = seq<nat>

  /**
   Foreign judgements: which 33-byte strings are public keys, and whether the clock accepts the
   k-th update's timestamp.
   */
  datatype Env = Env(isPubKey: Key -> bool, clockAccepts: nat -> bool)

  // ---------- Reading ----------

  function Take(s: Stream, n: nat): Result<(seq<nat>, Stream)> {
    if |s| < n then Err(ShortRead) else Ok((s[..n], s[n..]))
  }

  function ReadInt(s: Stream, n: nat): Result<(nat, Stream)> {
    var t :- Take(s, n);
    Ok((Value(t.0, 256), t.1))
  }

  /** `BigSize`: only the shortest form is accepted. */
  function ReadBigSize(s: Stream): Result<(nat, Stream)> {
    var t :- ReadInt(s, 1);
    if t.0 == 0xFF then
      var x :- ReadInt(t.1, 8);
      if x.0 < 0x1_0000_0000 then Err(InvalidValue) else Ok(x)
    else if t.0 == 0xFE then
      var x :- ReadInt(t.1, 4);
      if x.0 < 0x1_0000 then Err(InvalidValue) else Ok(x)
    else if t.0 == 0xFD then
      var x :- ReadInt(t.1, 2);
      if x.0 < 0xFD then Err(InvalidValue) else Ok(x)
    else Ok(t)
  }

  function ReadKey(env: Env, s: Stream): Result<(Key, Stream)> {
    var t :- Take(s, 33);
    if env.isPubKey(t.0) then Ok(t) else Err(InvalidValue)
  }

  function ReadFeatures(s: Stream): Result<(seq<nat>, Stream)> {
    var t :- ReadInt(s, 2);
    Take(t.1, t.0)
  }

  // ---------- The graph ----------

  datatype Info = Info(enabled: bool, lastUpdate: nat, fields: Fields)

  datatype Fields = Fields(cltv: nat, htlcMinimum: nat, htlcMaximum: Option<nat>, feeBase: nat, feeProportional: nat)

  datatype Channel = Channel(nodeOne: Key, nodeTwo: Key, features: seq<nat>, received: nat, capacity: Option<nat>,
                             oneToTwo: Option<Info>, twoToOne: Option<Info>)

  type Graph = map<nat, Channel>

  const MAX_VALUE_MSAT: nat := 2_100_000_000_000_000_000

  datatype Update = Update(scid: nat, timestamp: nat, flags: nat, fields: Fields)

  predicate Backward(flags: nat) { flags % 2 == 1 }

  function Direction(c: Channel, backward: bool): Option<Info> { if backward then c.twoToOne else c.oneToTwo }

  function WithDirection(c: Channel, backward: bool, i: Info): Channel {
    if backward then c.(twoToOne := Some(i)) else c.(oneToTwo := Some(i))
  }

  function Stored(g: Graph, scid: nat, backward: bool): Option<Info> {
    if scid in g then Direction(g[scid], backward) else None
  }

  /** `add_channel_from_partial_announcement`: a channel that is already known is left alone. */
  function AddChannel(g: Graph, scid: nat, timestamp: nat, features: seq<nat>, one: Key, two: Key): Result<Graph> {
    if one == two then Err(SelfChannel)
    else if scid in g then Ok(g)
    else Ok(g[scid := Channel(one, two, features, timestamp, None, None, None)])
  }

  predicate HtlcMaximumFits(c: Channel, maximum: nat) {
    maximum <= MAX_VALUE_MSAT
    && (c.capacity.Some? ==> c.capacity.value <= MAX_VALUE_MSAT / 1000 && maximum <= c.capacity.value * 1000)
  }

  function InfoOf(u: Update): Info { Info(u.flags / 2 % 2 == 0, u.timestamp, u.fields) }

  /** `update_channel_unsigned`. */
  function UpdateChannel(g: Graph, u: Update, clockAccepts: bool): Result<Graph> {
    if !clockAccepts then Err(StaleOrFuture)
    else if u.scid !in g then Err(NoChannel)
    else if u.fields.htlcMaximum.Some? && !HtlcMaximumFits(g[u.scid], u.fields.htlcMaximum.value) then
      Err(HtlcMaximumTooLarge)
    else
      match Direction(g[u.scid], Backward(u.flags))
      case Some(i) =>
        if i.lastUpdate > u.timestamp then Err(OlderUpdate)
        else if i.lastUpdate == u.timestamp then Err(SameTimestamp)
        else Ok(g[u.scid := WithDirection(g[u.scid], Backward(u.flags), InfoOf(u))])
      case None => Ok(g[u.scid := WithDirection(g[u.scid], Backward(u.flags), InfoOf(u))])
  }

  // ---------- One announcement, one update ----------

  /** Where the decoder is within a section: items done, the last channel id, the graph and the bytes to come. */
  datatype Cursor = Cursor(done: nat, previous: nat, graph: Graph, rest: Stream)

  datatype Next<+A> = Next(cursor: Cursor, item: A)

  function NextScid(previous: nat, delta: nat): Result<nat> {
    if previous + delta < U64 then Ok(previous + delta) else Err(InvalidValue)
  }

  datatype Announcement = Announcement(delta: nat, scid: nat, first: nat, second: nat, features: seq<nat>)

  function Announce(ids: seq<Key>, timestamp: nat, c: Cursor): Result<Next<Announcement>> {
    var features :- ReadFeatures(c.rest);
    var delta :- ReadBigSize(features.1);
    var scid :- NextScid(c.previous, delta.0);
    var first :- ReadBigSize(delta.1);
    var second :- ReadBigSize(first.1);
    if first.0 >= |ids| || second.0 >= |ids| then Err(InvalidValue)
    else
      var h :- AddChannel(c.graph, scid, timestamp, features.0, ids[first.0], ids[second.0]);
      Ok(Next(Cursor(c.done + 1, scid, h, second.1), Announcement(delta.0, scid, first.0, second.0, features.0)))
  }

  /** What all updates of a stream share. */
  datatype Context = Context(timestamp: nat, defaults: Fields)

  function MaximumOf(x: nat): Option<nat> { if x == U64 - 1 then None else Some(x) }

  predicate Bit(flags: nat, weight: nat)
    requires weight > 0
  {
    flags / weight % 2 == 1
  }

  /** Reads the integer if its mask bit is set and keeps the given value otherwise. */
  function ReadMasked(s: Stream, present: bool, width: nat, base: nat): Result<(nat, Stream)> {
    if present then ReadInt(s, width) else Ok((base, s))
  }

  function ReadFields(s: Stream, flags: nat, base: Fields): Result<(Fields, Stream)> {
    var cltv :- ReadMasked(s, Bit(flags, 64), 2, base.cltv);
    var htlcMinimum :- ReadMasked(cltv.1, Bit(flags, 32), 8, base.htlcMinimum);
    var feeBase :- ReadMasked(htlcMinimum.1, Bit(flags, 16), 4, base.feeBase);
    var feeProportional :- ReadMasked(feeBase.1, Bit(flags, 8), 4, base.feeProportional);
    var maximum :- ReadMasked(feeProportional.1, Bit(flags, 4), 8, 0);
    Ok((Fields(cltv.0, htlcMinimum.0, if Bit(flags, 4) then MaximumOf(maximum.0) else base.htlcMaximum,
               feeBase.0, feeProportional.0),
        maximum.1))
  }

  /** The values an update's mask is relative to. */
  function BaseOf(c: Context, g: Graph, scid: nat, flags: nat): Result<Fields> {
    if !Bit(flags, 128) then Ok(c.defaults)
    else if scid !in g then Err(NoChannel)
    else match Direction(g[scid], Backward(flags))
      case None => Err(NoDirection)
      case Some(i) => Ok(i.fields)
  }

  /** An update as read: its id delta, its raw flag byte, and what it came to. */
  datatype Item = Item(delta: nat, flags: nat, update: Update)

  function ApplyUpdate(env: Env, x: Context, c: Cursor): Result<Next<Item>> {
    var delta :- ReadBigSize(c.rest);
    var scid :- NextScid(c.previous, delta.0);
    var flags :- ReadInt(delta.1, 1);
    var base :- BaseOf(x, c.graph, scid, flags.0);
    var fields :- ReadFields(flags.1, flags.0, base);
    var u := Update(scid, x.timestamp, flags.0 % 4, fields.0);
    var h :- UpdateChannel(c.graph, u, env.clockAccepts(c.done));
    Ok(Next(Cursor(c.done + 1, scid, h, fields.1), Item(delta.0, flags.0, u)))
  }

  // ---------- Whole sections ----------

  /** The graph after a section, which keeps what was applied before a failure, and what is left to read. */
  datatype Section = Section(graph: Graph, rest: Result<Stream>)

  type Step<!A> = Cursor -> Result<Next<A>>

  function Announcing(ids: seq<Key>, timestamp: nat): Step<Announcement> { c => Announce(ids, timestamp, c) }

  function Updating(env: Env, x: Context): Step<Item> { c => ApplyUpdate(env, x, c) }

  /** `n` steps, or up to the first failure. */
  function Loop<A>(step: Step<A>, n: nat, c: Cursor): Section {
    if n == 0 then Section(c.graph, Ok(c.rest))
    else match step(c)
      case Err(e) => Section(c.graph, Err(e))
      case Ok(x) => Loop(step, n - 1, x.cursor)
  }

  function ReadKeys(env: Env, n: nat, s: Stream): Result<(seq<Key>, Stream)> {
    if n == 0 then Ok(([], s))
    else
      var key :- ReadKey(env, s);
      var more :- ReadKeys(env, n - 1, key.1);
      Ok(([key.0] + more.0, more.1))
  }

  const PREFIX: seq<nat> := [76, 68, 75, 1]

  datatype Preamble = Preamble(latestSeen: nat, ids: seq<Key>, announcements: nat, rest: Stream)

  function ReadPreamble(env: Env, s: Stream): Result<Preamble> {
    var prefix :- Take(s, 4);
    if prefix.0 != PREFIX then Err(UnknownVersion)
    else
      var chain :- Take(prefix.1, 32);
      var latest :- ReadInt(chain.1, 4);
      var count :- ReadInt(latest.1, 4);
      var ids :- ReadKeys(env, count.0, count.1);
      var announcements :- ReadInt(ids.1, 4);
      Ok(Preamble(latest.0, ids.0, announcements.0, announcements.1))
  }

  /** Timestamps are backdated by a week, not below zero. */
  function Backdated(t: nat): nat { if t < 604_800 then 0 else t - 604_800 }

  function ReadDefaults(s: Stream): Result<(Fields, Stream)> {
    var cltv :- ReadInt(s, 2);
    var htlcMinimum :- ReadInt(cltv.1, 8);
    var feeBase :- ReadInt(htlcMinimum.1, 4);
    var feeProportional :- ReadInt(feeBase.1, 4);
    var maximum :- ReadInt(feeProportional.1, 8);
    Ok((Fields(cltv.0, htlcMinimum.0, MaximumOf(maximum.0), feeBase.0, feeProportional.0), maximum.1))
  }

  datatype Sync = Sync(graph: Graph, lastSync: Option<nat>, complete: bool)

  /** Everything after the announcements. */
  function SyncUpdates(env: Env, latest: nat, y: Sync, s: Stream): (Sync, Result<nat>) {
    match ReadInt(s, 4)
    case Err(e) => (y, Err(e))
    case Ok(count) =>
      if count.0 == 0 then (y, Ok(latest))
      else match ReadDefaults(count.1)
        case Err(e) => (y, Err(e))
        case Ok(defaults) =>
          var r := Loop(Updating(env, Context(Backdated(latest), defaults.0)), count.0,
            Cursor(0, 0, y.graph, defaults.1));
          if r.rest.Err? then (y.(graph := r.graph), Err(r.rest.error))
          else (Sync(r.graph, Some(latest), true), Ok(latest))
  }

  /** `update_network_graph`. */
  function SyncFrom(env: Env, y: Sync, s: Stream): (Sync, Result<nat>) {
    match ReadPreamble(env, s)
    case Err(e) => (y, Err(e))
    case Ok(p) =>
      var a := Loop(Announcing(p.ids, Backdated(p.latestSeen)), p.announcements, Cursor(0, 0, y.graph, p.rest));
      if a.rest.Err? then (y.(graph := a.graph), Err(a.rest.error))
      else SyncUpdates(env, p.latestSeen, y.(graph := a.graph), a.rest.value)
  }

  // ---------- The object that runs it ----------

  class RapidGossipSync {
    var channels: Graph
    var lastSync: Option<nat>
    var complete: bool

    ghost function View(): Sync
      reads this
    {
      Sync(channels, lastSync, complete)
    }

    constructor (g: Graph)
      ensures View() == Sync(g, None, false)
    {
      channels, lastSync, complete := g, None, false;
    }

    /** `update_network_graph_from_byte_stream`, whose three loops are the methods below. */
    method UpdateNetworkGraph(env: Env, data: Stream) returns (r: Result<nat>)
      modifies this
      ensures (View(), r) == SyncFrom(env, old(View()), data)
    {
      var p :- ReadHeader(env, data);
      var rest :- RunSection(Announcing(p.ids, Backdated(p.latestSeen)), p.announcements, p.rest);
      r := ReadUpdates(env, p.latestSeen, rest);
    }

    /** One section: both loops over items have this shape, each step updating the graph in place. */
    method RunSection<A>(step: Step<A>, n: nat, data: Stream) returns (r: Result<Stream>)
      modifies this`channels
      ensures Section(channels, r) == Loop(step, n, Cursor(0, 0, old(channels), data))
    {
      var c := Cursor(0, 0, channels, data);
      for k := 0 to n
        invariant Loop(step, n, Cursor(0, 0, old(channels), data)) == Loop(step, n - k, c)
        invariant c.graph == channels
      {
        var next :- step(c);
        c := next.cursor;
        channels := c.graph;
      }
      r := Ok(c.rest);
    }

    method ReadUpdates(env: Env, latest: nat, data: Stream) returns (r: Result<nat>)
      modifies this
      ensures (View(), r) == SyncUpdates(env, latest, old(View()), data)
    {
      var count :- ReadInt(data, 4);
      if count.0 == 0 { return Ok(latest); }
      var defaults :- ReadDefaults(count.1);
      var _ :- RunSection(Updating(env, Context(Backdated(latest), defaults.0)), count.0, defaults.1);
      lastSync, complete := Some(latest), true;
      r := Ok(latest);
    }

    /** The prefix, chain hash, timestamp and node ids. */
    static method ReadHeader(env: Env, data: Stream) returns (r: Result<Preamble>)
      ensures r == ReadPreamble(env, data)
    {
      var prefix :- Take(data, 4);
      if prefix.0 != PREFIX { return Err(UnknownVersion); }
      var chain :- Take(prefix.1, 32);
      var latest :- ReadInt(chain.1, 4);
      var count :- ReadInt(latest.1, 4);
      var ids: seq<Key>, rest := [], count.1;
      ghost var all := ReadKeys(env, count.0, rest);
      assert all.Ok? ==> [] + all.value.0 == all.value.0;
      for k := 0 to count.0
        invariant all == Prepended(ids, ReadKeys(env, count.0 - k, rest))
      {
        var key :- ReadKey(env, rest);
        PrependedNext(ids, key.0, ReadKeys(env, count.0 - k - 1, key.1));
        ids, rest := ids + [key.0], key.1;
      }
      assert ids + [] == ids;
      var announcements :- ReadInt(rest, 4);
      r := Ok(Preamble(latest.0, ids, announcements.0, announcements.1));
    }
  }

  function Prepended(ids: seq<Key>, r: Result<(seq<Key>, Stream)>): Result<(seq<Key>, Stream)> {
    if r.Err? then r else Ok((ids + r.value.0, r.value.1))
  }

  lemma PrependedNext(ids: seq<Key>, key: Key, r: Result<(seq<Key>, Stream)>)
    ensures Prepended(ids, Prepended([key], r)) == Prepended(ids + [key], r)
  {
    if r.Ok? { assert ids + ([key] + r.value.0) == ids + [key] + r.value.0; }
  }
}
