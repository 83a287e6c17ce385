/**
 Replaying the difference between two chains to listeners and to the header cache, and the
 client that does so on every poll of a block source that may fail part way.
 */
module ChainSync {
  import opened Prelude
  import opened ChainPoll
  import opened HeaderTree

  // ---------- Listeners ----------

  datatype Event = Connected(header: BlockHeader, height: nat) | Disconnected(header: BlockHeader, height: nat)

  /** The chain listeners, as the record of the notifications each was sent. */
  class Listeners {
    var logs: seq<seq<Event>>

    constructor (n: nat)
      ensures logs == seq(n, i => [])
    {
      logs := seq(n, i => []);
    }

    method FilteredBlockConnected(i: nat, header: BlockHeader, height: nat)
      requires i < |logs|
      modifies this
      ensures logs == old(logs)[i := old(logs)[i] + [Connected(header, height)]]
    {
      logs := logs[i := logs[i] + [Connected(header, height)]];
    }

    method BlockDisconnected(i: nat, header: BlockHeader, height: nat)
      requires i < |logs|
      modifies this
      ensures logs == old(logs)[i := old(logs)[i] + [Disconnected(header, height)]]
    {
      logs := logs[i := logs[i] + [Disconnected(header, height)]];
    }
  }

  /** Where a listener stands: the hash and height of its chain's tip. */
  datatype Position = Position(hash: BlockHash, height: int)

  function At(v: ValidatedHeader): Position { Position(v.blockHash, v.Height()) }

  /** One notification; None when it does not fit where the listener stands. */
  function Move(net: Network, p: Position, e: Event): Option<Position> {
    match e
    case Connected(h, n) => if h.prevHash == p.hash && n == p.height + 1 then Some(Position(net.hash(h), n)) else None
    case Disconnected(h, n) =>
      if net.hash(h) == p.hash && n == p.height then Some(Position(h.prevHash, n - 1)) else None
  }

  /** Where a log of notifications takes a listener; None when some notification did not fit. */
  function Replay(net: Network, p: Position, log: seq<Event>): Option<Position> {
    if log == [] then Some(p)
    else match Replay(net, p, log[..|log| - 1])
      case None => None
      case Some(q) => Move(net, q, log[|log| - 1])
  }

  lemma {:induction false} ReplayConcat(net: Network, p: Position, a: seq<Event>, b: seq<Event>)
    ensures Replay(net, p, a + b) == match Replay(net, p, a) case None => None case Some(q) => Replay(net, q, b)
    decreases |b|
  {
    if b == [] {
      assert a + b == a;
    } else {
      ReplayConcat(net, p, a, b[..|b| - 1]);
      assert (a + b)[..|a + b| - 1] == a + b[..|b| - 1];
    }
  }

  function DisconnectEvents(path: seq<ValidatedHeader>): seq<Event> {
    seq(|path|, i requires 0 <= i < |path| => Disconnected(path[i].data.header, path[i].Height()))
  }

  /** The `n` oldest blocks of a descending path, connected in ascending order. */
  function ConnectEvents(path: seq<ValidatedHeader>, n: nat): (es: seq<Event>)
    requires n <= |path|
    ensures |es| == n
    ensures forall i :: 0 <= i < n ==>
      es[i] == Connected(path[|path| - 1 - i].data.header, path[|path| - 1 - i].Height())
  {
    seq(n, i requires 0 <= i < n => Connected(path[|path| - 1 - i].data.header, path[|path| - 1 - i].Height()))
  }

  /** The tip reached after disconnecting to the fork point and connecting `n` blocks. */
  function TipAfter(d: ChainDifference, n: nat): ValidatedHeader
    requires n <= |d.connected|
  {
    if n == 0 then d.ancestor else d.connected[|d.connected| - n]
  }

  lemma {:induction false} ReplayDisconnects(
    net: Network, t: Tree, v: ValidatedHeader, path: seq<ValidatedHeader>, a: ValidatedHeader)
    requires TreeOk(net, t) && Known(t, v) && Descends(t, v, path, a)
    ensures Replay(net, At(v), DisconnectEvents(path)) == Some(At(a))
    decreases |path|
  {
    if path != [] {
      var i := |path| - 1;
      DescendsFacts(net, t, v, path, a);
      DescendsLink(net, t, v, path, a, i);
      assert RecordOk(net, t, path[i].blockHash);
      MemberIsAncestor(t, v, path, a, i);
      ReplayDisconnects(net, t, v, path[..i], path[i]);
      assert DisconnectEvents(path)[..i] == DisconnectEvents(path[..i]);
    }
  }

  lemma {:induction false} ReplayConnects(net: Network, t: Tree, v: ValidatedHeader, d: ChainDifference, n: nat)
    requires TreeOk(net, t) && Known(t, v) && Descends(t, v, d.connected, d.ancestor) && n <= |d.connected|
    ensures Replay(net, At(d.ancestor), ConnectEvents(d.connected, n)) == Some(At(TipAfter(d, n)))
    decreases n
  {
    if n > 0 {
      var i := |d.connected| - n;
      var b := d.connected[i];
      assert b.Prev() == TipAfter(d, n - 1).blockHash && b.Height() == TipAfter(d, n - 1).Height() + 1
        && net.hash(b.data.header) == b.blockHash by {
        DescendsFacts(net, t, v, d.connected, d.ancestor);
        DescendsLink(net, t, v, d.connected, d.ancestor, i);
        assert RecordOk(net, t, b.blockHash);
      }
      ReplayConnects(net, t, v, d, n - 1);
      assert ConnectEvents(d.connected, n)[..n - 1] == ConnectEvents(d.connected, n - 1);
    }
  }

  /** The whole replay of a difference, cut off after `n` connected blocks. */
  function ReplayEvents(d: ChainDifference, n: nat): seq<Event>
    requires n <= |d.connected|
  {
    DisconnectEvents(d.disconnected) + ConnectEvents(d.connected, n)
  }

  /** Replaying a difference fits at every step and takes a listener on `prev` to the right tip. */
  lemma ReplayDifference(net: Network, t: Tree, cur: ValidatedHeader, prev: ValidatedHeader, d: ChainDifference, n: nat)
    requires TreeOk(net, t) && Known(t, cur) && Known(t, prev) && IsDifference(t, cur, prev, d) && n <= |d.connected|
    ensures Replay(net, At(prev), ReplayEvents(d, n)) == Some(At(TipAfter(d, n)))
    ensures n == |d.connected| ==> TipAfter(d, n) == cur
    ensures Known(t, TipAfter(d, n))
    ensures TipAfter(d, n) == prev <==> ReplayEvents(d, n) == []
  {
    ReplayDisconnects(net, t, prev, d.disconnected, d.ancestor);
    ReplayConnects(net, t, cur, d, n);
    ReplayConcat(net, At(prev), DisconnectEvents(d.disconnected), ConnectEvents(d.connected, n));
    DescendsFacts(net, t, cur, d.connected, d.ancestor);
    DescendsFacts(net, t, prev, d.disconnected, d.ancestor);
    if ReplayEvents(d, n) == [] {
      assert |DisconnectEvents(d.disconnected)| == 0 && |ConnectEvents(d.connected, n)| == 0;
    } else if n > 0 {
      assert TipAfter(d, n) in d.connected;
      if d.disconnected != [] {
        assert prev in d.disconnected;
        DifferenceDisjoint(net, t, cur, prev, d, prev);
      }
    }
  }

  // ---------- The header cache ----------

  class HeaderCache {
    var headers: Headers

    constructor (initial: Headers)
      ensures headers == initial
    {
      headers := initial;
    }
  }

  /** The hashes a cache holds after a log of notifications, starting from `keys`. */
  function CachedHashes(net: Network, keys: set<BlockHash>, log: seq<Event>): set<BlockHash> {
    if log == [] then keys
    else
      var before := CachedHashes(net, keys, log[..|log| - 1]);
      match log[|log| - 1]
      case Connected(h, _) => before + {net.hash(h)}
      case Disconnected(h, _) => before - {net.hash(h)}
  }

  lemma {:induction false} CachedHashesConcat(net: Network, keys: set<BlockHash>, a: seq<Event>, b: seq<Event>)
    ensures CachedHashes(net, keys, a + b) == CachedHashes(net, CachedHashes(net, keys, a), b)
    decreases |b|
  {
    if b == [] {
      assert a + b == a;
    } else {
      CachedHashesConcat(net, keys, a, b[..|b| - 1]);
      assert (a + b)[..|a + b| - 1] == a + b[..|b| - 1];
    }
  }

  // ---------- Where notifications go ----------

  /**
   The three shapes a notifier's listener takes: one plain listener; the wrapper that only forwards
   disconnections; and the set of all listeners, which only forwards connections, and to each
   listener only those above its own height. The operations a wrapper declares unreachable are
   excluded by the preconditions below.
   */
  datatype Sink = Plain(i: nat) | Dynamic(i: nat) | AtHeights(starts: seq<int>) {
    predicate Fits(logs: seq<seq<Event>>) {
      match this
      case Plain(i) => i < |logs|
      case Dynamic(i) => i < |logs|
      case AtHeights(starts) => |starts| == |logs|
    }
  }

  /** The events above a height. */
  function Above(start: int, es: seq<Event>): seq<Event> {
    if es == [] then [] else Above(start, es[..|es| - 1]) + (if es[|es| - 1].height > start then [es[|es| - 1]] else [])
  }

  lemma {:induction false} AboveConcat(start: int, a: seq<Event>, b: seq<Event>)
    ensures Above(start, a + b) == Above(start, a) + Above(start, b)
    decreases |b|
  {
    if b == [] {
      assert a + b == a;
    } else {
      AboveConcat(start, a, b[..|b| - 1]);
      assert (a + b)[..|a + b| - 1] == a + b[..|b| - 1];
    }
  }

  /** The logs after events have been sent to a sink. */
  ghost function Deliver(sink: Sink, logs: seq<seq<Event>>, es: seq<Event>): (r: seq<seq<Event>>)
    requires sink.Fits(logs)
    ensures sink.Fits(r) && |r| == |logs|
  {
    match sink
    case Plain(i) => logs[i := logs[i] + es]
    case Dynamic(i) => logs[i := logs[i] + es]
    case AtHeights(starts) => seq(|logs|, j requires 0 <= j < |logs| => logs[j] + Above(starts[j], es))
  }

  lemma DeliverNothing(sink: Sink, logs: seq<seq<Event>>)
    requires sink.Fits(logs)
    ensures Deliver(sink, logs, []) == logs
  {
    forall j | 0 <= j < |logs| ensures Deliver(sink, logs, [])[j] == logs[j] {
      assert logs[j] + [] == logs[j];
    }
  }

  lemma DeliverTwice(sink: Sink, logs: seq<seq<Event>>, a: seq<Event>, b: seq<Event>)
    requires sink.Fits(logs)
    ensures Deliver(sink, Deliver(sink, logs, a), b) == Deliver(sink, logs, a + b)
  {
    match sink
    case Plain(i) => assert logs[i] + a + b == logs[i] + (a + b);
    case Dynamic(i) => assert logs[i] + a + b == logs[i] + (a + b);
    case AtHeights(starts) =>
      forall j | 0 <= j < |logs|
        ensures Deliver(sink, Deliver(sink, logs, a), b)[j] == Deliver(sink, logs, a + b)[j]
      {
        AboveConcat(starts[j], a, b);
      }
  }

  method NotifyConnected(ls: Listeners, sink: Sink, header: BlockHeader, height: nat)
    requires !sink.Dynamic? && sink.Fits(ls.logs)
    modifies ls
    ensures ls.logs == Deliver(sink, old(ls.logs), [Connected(header, height)])
  {
    ghost var es := [Connected(header, height)];
    match sink
    case Plain(i) => ls.FilteredBlockConnected(i, header, height);
    case AtHeights(starts) =>
      assert es[..0] == [];
      for i := 0 to |starts|
        invariant |ls.logs| == |starts|
        invariant forall j :: 0 <= j < i ==> ls.logs[j] == old(ls.logs)[j] + Above(starts[j], es)
        invariant forall j :: i <= j < |starts| ==> ls.logs[j] == old(ls.logs)[j]
      {
        if height > starts[i] {
          ls.FilteredBlockConnected(i, header, height);
        }
      }
  }

  /** `ChainNotifier::disconnect_blocks`; a read-only cache keeps its entries and reports none. */
  method DisconnectBlocks(
    net: Network, cache: HeaderCache, readOnly: bool, ls: Listeners, sink: Sink, blocks: seq<ValidatedHeader>,
    ghost t: Tree)
    requires !sink.AtHeights? && sink.Fits(ls.logs)
    requires TreeOk(net, t) && CacheOk(t, cache.headers)
    requires forall b :: b in blocks ==> Known(t, b)
    modifies cache, ls
    ensures ls.logs == Deliver(sink, old(ls.logs), DisconnectEvents(blocks))
    ensures readOnly ==> cache.headers == old(cache.headers)
    ensures CacheOk(t, cache.headers)
    ensures !readOnly ==> cache.headers.Keys == CachedHashes(net, old(cache.headers).Keys, DisconnectEvents(blocks))
  {
    ghost var logs, keys := ls.logs, cache.headers.Keys;
    assert DisconnectEvents(blocks[..0]) == [];
    DeliverNothing(sink, logs);
    for i := 0 to |blocks|
      invariant ls.logs == Deliver(sink, logs, DisconnectEvents(blocks[..i]))
      invariant readOnly ==> cache.headers == old(cache.headers)
      invariant CacheOk(t, cache.headers)
      invariant !readOnly ==> cache.headers.Keys == CachedHashes(net, keys, DisconnectEvents(blocks[..i]))
    {
      var header := blocks[i];
      assert Known(t, header) && RecordOk(net, t, header.blockHash);
      if !readOnly {
        if header.blockHash in cache.headers {
          assert cache.headers[header.blockHash] == header;
        }
        cache.headers := cache.headers - {header.blockHash};
      }
      ls.BlockDisconnected(sink.i, header.data.header, header.Height());
      ghost var es, e := DisconnectEvents(blocks[..i]), Disconnected(header.data.header, header.Height());
      assert DisconnectEvents(blocks[..i + 1]) == es + [e];
      DeliverTwice(sink, logs, es, [e]);
      CachedHashesConcat(net, keys, es, [e]);
    }
    assert blocks[..|blocks|] == blocks;
  }

  datatype ConnectResult = Done | Stopped(error: Error, tip: ValidatedHeader)

  method ConnectBlock(
    net: Network, cache: HeaderCache, ls: Listeners, sink: Sink, block: Block, header: ValidatedHeader, ghost t: Tree)
    requires !sink.Dynamic? && sink.Fits(ls.logs)
    requires TreeOk(net, t) && CacheOk(t, cache.headers) && Known(t, header)
    requires net.hash(block.header) == header.blockHash
    modifies cache, ls
    ensures ls.logs == Deliver(sink, old(ls.logs), [Connected(header.data.header, header.Height())])
    ensures CacheOk(t, cache.headers)
    ensures cache.headers.Keys ==
      CachedHashes(net, old(cache.headers).Keys, [Connected(header.data.header, header.Height())])
  {
    assert RecordOk(net, t, header.blockHash);
    assert block.header == header.data.header;
    cache.headers := cache.headers[header.blockHash := header];
    NotifyConnected(ls, sink, block.header, header.Height());
    assert [Connected(header.data.header, header.Height())][..0] == [];
  }

  /** The source answers every request for a known block. */
  ghost predicate ServesBlocks(net: Network, t: Tree, src: BlockSource) {
    forall k, v :: Known(t, v) ==> PollBlock(net, src, k, v).Ok?
  }

  /** `ChainNotifier::connect_blocks`; `n` is the number of blocks connected before it returned. */
  method ConnectBlocks(
    net: Network, src: BlockSource, k: nat, cache: HeaderCache, ls: Listeners, sink: Sink, ancestor: ValidatedHeader,
    blocks: seq<ValidatedHeader>, ghost t: Tree)
    returns (r: ConnectResult, next: nat, ghost n: nat)
    requires !sink.Dynamic? && sink.Fits(ls.logs)
    requires TreeOk(net, t) && CacheOk(t, cache.headers)
    requires forall b :: b in blocks ==> Known(t, b)
    modifies cache, ls
    ensures n <= |blocks| && (r.Done? <==> n == |blocks|)
    ensures ServesBlocks(net, t, src) ==> r.Done?
    ensures r.Stopped? ==> r.tip == if n == 0 then ancestor else blocks[|blocks| - n]
    ensures ls.logs == Deliver(sink, old(ls.logs), ConnectEvents(blocks, n))
    ensures CacheOk(t, cache.headers)
    ensures cache.headers.Keys == CachedHashes(net, old(cache.headers).Keys, ConnectEvents(blocks, n))
  {
    var newTip, i := ancestor, |blocks|;
    next, n := k, 0;
    ghost var logs, keys := ls.logs, cache.headers.Keys;
    DeliverNothing(sink, logs);
    while i > 0
      invariant 0 <= i <= |blocks| && n == |blocks| - i
      invariant newTip == if i == |blocks| then ancestor else blocks[i]
      invariant ls.logs == Deliver(sink, logs, ConnectEvents(blocks, n))
      invariant CacheOk(t, cache.headers)
      invariant cache.headers.Keys == CachedHashes(net, keys, ConnectEvents(blocks, n))
    {
      i := i - 1;
      var header := blocks[i];
      var fetched := PollBlock(net, src, next, header);
      next := next + 1;
      if fetched.Err? {
        assert Known(t, header);
        return Stopped(fetched.error, newTip), next, n;
      }
      ConnectBlock(net, cache, ls, sink, fetched.value, header, t);
      newTip := header;
      ghost var es, e := ConnectEvents(blocks, n), Connected(header.data.header, header.Height());
      assert ConnectEvents(blocks, n + 1) == es + [e] by { ConnectNext(blocks, n); }
      DeliverTwice(sink, logs, es, [e]);
      CachedHashesConcat(net, keys, es, [e]);
      n := n + 1;
    }
    r := Done;
  }

  lemma ConnectNext(path: seq<ValidatedHeader>, n: nat)
    requires n < |path|
    ensures var v := path[|path| - 1 - n];
      ConnectEvents(path, n + 1) == ConnectEvents(path, n) + [Connected(v.data.header, v.Height())]
  {
  }

  /** The two halves of `synchronize_listener` that follow the walk. */
  method ReplayToListener(
    net: Network, src: BlockSource, k: nat, cache: HeaderCache, ls: Listeners, i: nat, d: ChainDifference,
    ghost t: Tree)
    returns (r: ConnectResult, next: nat, ghost n: nat)
    requires i < |ls.logs|
    requires TreeOk(net, t) && CacheOk(t, cache.headers)
    requires forall b :: b in d.connected || b in d.disconnected ==> Known(t, b)
    modifies cache, ls
    ensures n <= |d.connected| && (r.Done? <==> n == |d.connected|)
    ensures ServesBlocks(net, t, src) ==> r.Done?
    ensures r.Stopped? ==> r.tip == TipAfter(d, n)
    ensures ls.logs == old(ls.logs)[i := old(ls.logs)[i] + ReplayEvents(d, n)]
    ensures CacheOk(t, cache.headers)
    ensures cache.headers.Keys == CachedHashes(net, old(cache.headers).Keys, ReplayEvents(d, n))
  {
    DisconnectBlocks(net, cache, false, ls, Plain(i), d.disconnected, t);
    r, next, n := ConnectBlocks(net, src, k, cache, ls, Plain(i), d.ancestor, d.connected, t);
    DeliverTwice(Plain(i), old(ls.logs), DisconnectEvents(d.disconnected), ConnectEvents(d.connected, n));
    CachedHashesConcat(net, old(cache.headers).Keys, DisconnectEvents(d.disconnected), ConnectEvents(d.connected, n));
  }

  // ---------- The polling client ----------

  datatype SyncResult = Synced | Failed(error: Error, tip: Option<ValidatedHeader>)

  class SpvClient {
    const net: Network
    const src: BlockSource
    const cache: HeaderCache
    const ls: Listeners
    const me: nat
    var chainTip: ValidatedHeader
    var clock: nat

    /** A client for listener `me`. */
    constructor (net: Network, src: BlockSource, cache: HeaderCache, ls: Listeners, me: nat, chainTip: ValidatedHeader)
      ensures this.net == net && this.src == src && this.cache == cache && this.ls == ls && this.me == me
        && this.chainTip == chainTip
    {
      this.net, this.src, this.cache, this.ls, this.me := net, src, cache, ls, me;
      this.chainTip, this.clock := chainTip, 0;
    }

    /** The assumptions about the world, and the cache agreeing with it. */
    ghost predicate World(t: Tree)
      reads this, cache, ls
    {
      me < |ls.logs| && TreeOk(net, t) && Honest(net, t, src) && CacheOk(t, cache.headers) && Known(t, chainTip)
    }

    /**
     The listener, started at `start`, was only ever sent notifications that fit where it stood,
     and now stands on `chainTip`; the cache holds its initial hashes `keys`, plus the connected
     blocks, minus the disconnected ones.
     */
    ghost predicate InSync(t: Tree, start: Position, keys: set<BlockHash>)
      reads this, cache, ls
    {
      && World(t)
      && Replay(net, start, ls.logs[me]) == Some(At(chainTip))
      && cache.headers.Keys == CachedHashes(net, keys, ls.logs[me])
    }

    /** The source answers everything that a walk from `best` to the chain tip and the replay ask for. */
    ghost predicate Answering(t: Tree, best: ValidatedHeader)
      reads this
    {
      && Responsive(net, t, src) && ServesBlocks(net, t, src)
      && exists x :: IsAncestor(t, x, best) && IsAncestor(t, x, chainTip)
    }

    /** The next two answers of the source are `tip`'s hash, as the best block, and its genuine, heavier header. */
    ghost predicate Offers(tip: ValidatedHeader)
      reads this
    {
      && src.best(clock) == Ok(tip.blockHash) && src.header(clock + 1, tip.blockHash) == Ok(tip.data)
      && Genuine(net, tip) && tip.Chainwork() > chainTip.Chainwork() && tip.blockHash != chainTip.blockHash
    }

    /** `ChainNotifier::synchronize_listener`. */
    method SynchronizeListener(newHeader: ValidatedHeader, oldHeader: ValidatedHeader, ghost t: Tree)
      returns (r: SyncResult, ghost d: ChainDifference, ghost n: nat)
      requires World(t) && Known(t, newHeader) && Known(t, oldHeader)
      modifies this`clock, cache, ls
      ensures old(oldHeader == chainTip && Answering(t, newHeader)) ==> r.Synced?
      ensures r.Failed? && r.tip.None? ==> ls.logs == old(ls.logs) && cache.headers == old(cache.headers)
      ensures !(r.Failed? && r.tip.None?) ==>
        && IsDifference(t, newHeader, oldHeader, d)
        && n <= |d.connected| && (r.Synced? <==> n == |d.connected|)
        && (r.Failed? ==> r.tip == Some(TipAfter(d, n)))
        && ls.logs == old(ls.logs)[me := old(ls.logs)[me] + ReplayEvents(d, n)]
        && CacheOk(t, cache.headers)
        && cache.headers.Keys == CachedHashes(net, old(cache.headers).Keys, ReplayEvents(d, n))
    {
      d, n := ChainDifference(newHeader, [], []), 0;
      if oldHeader == chainTip && Answering(t, newHeader) {
        DifferenceExistsIff(net, t, cache.headers, src, clock, newHeader, oldHeader);
      }
      var difference, next := FindDifference(net, cache.headers, src, clock, newHeader, oldHeader, t);
      clock := next;
      if difference.Err? { return Failed(difference.error, None), d, n; }
      d := difference.value;
      DescendsFacts(net, t, newHeader, d.connected, d.ancestor);
      DescendsFacts(net, t, oldHeader, d.disconnected, d.ancestor);
      var replayed;
      replayed, next, n := ReplayToListener(net, src, clock, cache, ls, me, difference.value, t);
      clock := next;
      r := if replayed.Done? then Synced else Failed(replayed.error, Some(replayed.tip));
    }

    /** `SpvClient::update_chain_tip`. */
    method UpdateChainTip(best: ValidatedHeader, ghost t: Tree, ghost start: Position, ghost keys: set<BlockHash>)
      returns (moved: bool, ghost synced: bool)
      requires InSync(t, start, keys) && Known(t, best) && best.blockHash != chainTip.blockHash
      modifies this, cache, ls
      ensures InSync(t, start, keys)
      ensures moved <==> ls.logs != old(ls.logs)
      ensures !moved ==> chainTip == old(chainTip) && cache.headers == old(cache.headers)
      ensures moved ==> exists d, n: nat ::
        && IsDifference(t, best, old(chainTip), d) && n <= |d.connected| && (synced <==> n == |d.connected|)
        && chainTip == TipAfter(d, n) && ls.logs == old(ls.logs)[me := old(ls.logs)[me] + ReplayEvents(d, n)]
      ensures synced ==> moved && chainTip == best
      ensures old(Answering(t, best)) ==> synced
    {
      var r; ghost var d; ghost var n;
      r, d, n := SynchronizeListener(best, chainTip, t);
      synced := r.Synced?;
      if !(r.Failed? && r.tip.None?) {
        ghost var log := old(ls.logs)[me];
        ReplayDifference(net, t, best, old(chainTip), d, n);
        ReplayConcat(net, start, log, ReplayEvents(d, n));
        CachedHashesConcat(net, keys, log, ReplayEvents(d, n));
        assert ls.logs[me] == log + ReplayEvents(d, n) && |ls.logs[me]| == |log| + |ReplayEvents(d, n)|;
        if ReplayEvents(d, n) == [] { assert log + [] == log; SameKeysSameCache(t, old(cache.headers), cache.headers); }
      }
      match r
      case Synced =>
        chainTip := best;
        moved := true;
      case Failed(_, tip) =>
        if tip.Some? && tip.value.blockHash != chainTip.blockHash {
          chainTip := tip.value;
          moved := true;
        } else {
          moved := false;
        }
    }

    /** `SpvClient::poll_best_tip`. */
    method PollBestTip(ghost t: Tree, ghost start: Position, ghost keys: set<BlockHash>)
      returns (r: Result<(ChainTip, bool)>, ghost synced: bool)
      requires InSync(t, start, keys)
      modifies this, cache, ls
      ensures InSync(t, start, keys)
      ensures (r.Ok? && r.value.1) <==> ls.logs != old(ls.logs)
      ensures !(r.Ok? && r.value.1) ==> chainTip == old(chainTip) && cache.headers == old(cache.headers)
      ensures r.Ok? && r.value.1 ==> r.value.0.Better? && exists d, n: nat ::
        && IsDifference(t, r.value.0.tip, old(chainTip), d) && n <= |d.connected| && (synced <==> n == |d.connected|)
        && chainTip == TipAfter(d, n) && ls.logs == old(ls.logs)[me := old(ls.logs)[me] + ReplayEvents(d, n)]
      ensures synced ==> r.Ok? && r.value.0.Better? && chainTip == r.value.0.tip
      ensures r.Ok? && r.value.0.Better? && old(Answering(t, r.value.0.tip)) ==> synced
      ensures forall tip :: old(Offers(tip)) && old(Answering(t, tip)) ==>
        r == Ok((Better(tip), true)) && chainTip == tip
    {
      assert RecordOk(net, t, chainTip.blockHash);
      var polled := PollChainTip(net, src, clock, chainTip);
      var asked := clock;
      clock := clock + 2;
      synced := false;
      if polled.Err? { return Err(polled.error), synced; }
      var moved := false;
      if polled.value.Better? {
        var tip := polled.value.tip;
        assert tip.blockHash != chainTip.blockHash && tip.Chainwork() > chainTip.Chainwork();
        assert ValidateHeader(net, src.header(asked + 1, tip.blockHash).value, tip.blockHash).Ok?;
        moved, synced := UpdateChainTip(tip, t, start, keys);
      } else if polled.value.Worse? {
        assert polled.value.tip.blockHash != chainTip.blockHash && polled.value.tip.Chainwork() <= chainTip.Chainwork();
      }
      r := Ok((polled.value, moved));
    }

    /** Any number of polls, whatever the source does in each. */
    method PollRepeatedly(polls: nat, ghost t: Tree, ghost start: Position, ghost keys: set<BlockHash>)
      requires InSync(t, start, keys)
      modifies this, cache, ls
      ensures InSync(t, start, keys)
      ensures old(ls.logs)[me] <= ls.logs[me]
    {
      for i := 0 to polls
        invariant InSync(t, start, keys)
        invariant old(ls.logs)[me] <= ls.logs[me]
      {
        var polled; ghost var synced;
        polled, synced := PollBestTip(t, start, keys);
      }
    }
  }

  lemma SameKeysSameCache(t: Tree, a: Headers, b: Headers)
    requires CacheOk(t, a) && CacheOk(t, b) && a.Keys == b.Keys
    ensures a == b
  {
    forall h | h in a ensures h in b && a[h] == b[h] { assert h in b.Keys; }
  }
}
