/**
 The one-time synchronisation at startup: many listeners, each paired with the hash its own chain
 ended at, are brought to the source's best tip. Stale blocks are disconnected listener by
 listener; new blocks are fetched once and replayed to all listeners together, each listener
 ignoring the heights it already has.
 */
module InitSync {
  import opened Prelude
  import opened ChainPoll
  import opened HeaderTree
  import opened ChainSync

  ghost predicate World(net: Network, src: BlockSource, t: Tree, cache: Headers) {
    TreeOk(net, t) && Honest(net, t, src) && CacheOk(t, cache)
  }

  /** `validate_best_block_header`: requests 0 and 1. */
  function BestHeader(net: Network, src: BlockSource): (r: Result<ValidatedHeader>)
    ensures r.Ok? ==> src.best(0) == Ok(r.value.blockHash) && src.header(1, r.value.blockHash) == Ok(r.value.data)
    ensures r.Ok? ==> Genuine(net, r.value)
    ensures r.Ok? <==>
      && src.best(0).Ok? && src.header(1, src.best(0).value).Ok?
      && ValidateHeader(net, src.header(1, src.best(0).value).value, src.best(0).value).Ok?
  {
    match src.best(0)
    case Err(e) => Err(e)
    case Ok(h) =>
      match src.header(1, h)
      case Err(e) => Err(e)
      case Ok(d) => ValidateHeader(net, d, h)
  }

  /** The source answers every request for the header of a known block. */
  ghost predicate ServesHeaders(net: Network, t: Tree, src: BlockSource) {
    forall k, h :: t(h).Some? ==> src.header(k, h).Ok? && ValidateHeader(net, src.header(k, h).value, h).Ok?
  }

  /** The source answers everything, and every listener's block shares an ancestor with the best one. */
  ghost predicate Answering(net: Network, t: Tree, src: BlockSource, hashes: seq<BlockHash>) {
    && src.best(0).Ok? && t(src.best(0).value).Some?
    && Responsive(net, t, src) && ServesBlocks(net, t, src) && ServesHeaders(net, t, src)
    && forall i :: 0 <= i < |hashes| ==>
      t(hashes[i]).Some? && Related(t, t(src.best(0).value).value, t(hashes[i]).value)
  }

  ghost predicate Related(t: Tree, v: ValidatedHeader, w: ValidatedHeader) {
    exists x :: IsAncestor(t, x, v) && IsAncestor(t, x, w)
  }

  /** `olds[i]` is the record of the block listener `i` was left on. */
  ghost predicate Paired(t: Tree, hashes: seq<BlockHash>, olds: seq<ValidatedHeader>) {
    |olds| == |hashes| && forall i :: 0 <= i < |hashes| ==> Known(t, olds[i]) && olds[i].blockHash == hashes[i]
  }

  method FetchOldHeaders(net: Network, src: BlockSource, k: nat, cache: Headers, hashes: seq<BlockHash>, ghost t: Tree)
    returns (r: Result<seq<ValidatedHeader>>, next: nat)
    requires World(net, src, t, cache)
    ensures r.Ok? ==> Paired(t, hashes, r.value)
    ensures ServesHeaders(net, t, src) && (forall i :: 0 <= i < |hashes| ==> t(hashes[i]).Some?) ==> r.Ok?
  {
    var olds := [];
    next := k;
    for i := 0 to |hashes|
      invariant |olds| == i
      invariant forall j :: 0 <= j < i ==> Known(t, olds[j]) && olds[j].blockHash == hashes[j]
    {
      var h := hashes[i];
      if h in cache {
        assert RecordOk(net, t, h);
        olds := olds + [cache[h]];
      } else {
        var d := src.header(next, h);
        if d.Err? { return Err(d.error), next + 1; }
        var v := ValidateHeader(net, d.value, h);
        if v.Err? { return Err(v.error), next + 1; }
        olds, next := olds + [v.value], next + 1;
      }
    }
    r := Ok(olds);
  }

  /** The differences found for the first `|ds|` listeners. */
  ghost predicate Differences(t: Tree, best: ValidatedHeader, olds: seq<ValidatedHeader>, ds: seq<ChainDifference>) {
    |ds| <= |olds| && forall i :: 0 <= i < |ds| ==> IsDifference(t, best, olds[i], ds[i])
  }

  /** The longest list of blocks to connect, with the fork point it starts from. */
  datatype Longest = Longest(ancestor: Option<ValidatedHeader>, blocks: seq<ValidatedHeader>)

  ghost predicate LongestOf(m: Longest, ds: seq<ChainDifference>) {
    && (forall i :: 0 <= i < |ds| ==> |ds[i].connected| <= |m.blocks|)
    && (m.ancestor.None? ==> m.blocks == [])
    && (m.ancestor.Some? ==>
       exists i :: 0 <= i < |ds| && ds[i].ancestor == m.ancestor.value && ds[i].connected == m.blocks)
  }

  function Longer(m: Longest, d: ChainDifference): Longest {
    if |d.connected| > |m.blocks| then Longest(Some(d.ancestor), d.connected) else m
  }

  lemma LongerIsLongest(m: Longest, ds: seq<ChainDifference>, d: ChainDifference)
    requires LongestOf(m, ds)
    ensures LongestOf(Longer(m, d), ds + [d])
  {
    var all := ds + [d];
    assert all[|ds|] == d && forall i :: 0 <= i < |ds| ==> all[i] == ds[i];
    if |d.connected| <= |m.blocks| && m.ancestor.Some? {
      var i :| 0 <= i < |ds| && ds[i].ancestor == m.ancestor.value && ds[i].connected == m.blocks;
      assert all[i].ancestor == m.ancestor.value && all[i].connected == m.blocks;
    }
  }

  /** One listener's difference; its stale blocks are disconnected, the cache is left alone. */
  method DisconnectOne(net: Network, src: BlockSource, k: nat, cache: HeaderCache, best: ValidatedHeader,
                       ls: Listeners, i: nat, prev: ValidatedHeader, ghost t: Tree)
    returns (r: Result<ChainDifference>, next: nat)
    requires World(net, src, t, cache.headers) && Known(t, best) && Known(t, prev) && i < |ls.logs|
    modifies cache, ls
    ensures cache.headers == old(cache.headers)
    ensures r.Ok? ==>
      && IsDifference(t, best, prev, r.value)
      && ls.logs == old(ls.logs)[i := old(ls.logs)[i] + DisconnectEvents(r.value.disconnected)]
    ensures r.Err? ==> ls.logs == old(ls.logs)
    ensures Responsive(net, t, src) && Related(t, best, prev) ==> r.Ok?
  {
    if Responsive(net, t, src) { DifferenceExistsIff(net, t, cache.headers, src, k, best, prev); }
    r, next := FindDifference(net, cache.headers, src, k, best, prev, t);
    if r.Ok? {
      DescendsFacts(net, t, prev, r.value.disconnected, r.value.ancestor);
      DisconnectBlocks(net, cache, true, ls, Dynamic(i), r.value.disconnected, t);
    }
  }

  ghost predicate AllShareAncestors(t: Tree, best: ValidatedHeader, olds: seq<ValidatedHeader>) {
    forall i :: 0 <= i < |olds| ==> Related(t, best, olds[i])
  }

  lemma AnsweringShares(
    net: Network, t: Tree, src: BlockSource, hashes: seq<BlockHash>, best: ValidatedHeader, olds: seq<ValidatedHeader>)
    requires Answering(net, t, src, hashes) && Paired(t, hashes, olds)
    requires Known(t, best) && src.best(0) == Ok(best.blockHash)
    ensures AllShareAncestors(t, best, olds)
  {
    forall i | 0 <= i < |olds| ensures Related(t, best, olds[i]) { assert t(hashes[i]) == Some(olds[i]); }
  }

  /** The first `|ds|` listeners were sent their disconnections, the others nothing. */
  ghost predicate StaleSent(before: seq<seq<Event>>, after: seq<seq<Event>>, ds: seq<ChainDifference>) {
    |ds| <= |before| == |after| && forall i :: 0 <= i < |before| ==>
      after[i] == if i < |ds| then before[i] + DisconnectEvents(ds[i].disconnected) else before[i]
  }

  lemma StaleSentNext(before: seq<seq<Event>>, mid: seq<seq<Event>>, ds: seq<ChainDifference>, d: ChainDifference)
    requires StaleSent(before, mid, ds) && |ds| < |before|
    ensures StaleSent(before, mid[|ds| := mid[|ds|] + DisconnectEvents(d.disconnected)], ds + [d])
  {
  }

  lemma DifferencesNext(
    t: Tree, best: ValidatedHeader, olds: seq<ValidatedHeader>, ds: seq<ChainDifference>, d: ChainDifference)
    requires Differences(t, best, olds, ds) && |ds| < |olds| && IsDifference(t, best, olds[|ds|], d)
    ensures Differences(t, best, olds, ds + [d])
  {
  }

  /** Finds each listener's difference and disconnects its stale blocks. */
  method DisconnectAll(net: Network, src: BlockSource, k: nat, cache: HeaderCache, best: ValidatedHeader,
                       ls: Listeners, olds: seq<ValidatedHeader>, ghost t: Tree)
    returns (error: Option<Error>, next: nat, starts: seq<int>, longest: Longest, ghost ds: seq<ChainDifference>)
    requires World(net, src, t, cache.headers) && Known(t, best) && |ls.logs| == |olds|
    requires forall i :: 0 <= i < |olds| ==> Known(t, olds[i])
    modifies cache, ls
    ensures cache.headers == old(cache.headers)
    ensures Differences(t, best, olds, ds) && (error.None? ==> |ds| == |olds|)
    ensures |ls.logs| == |olds| && forall i :: 0 <= i < |olds| ==>
      ls.logs[i] == if i < |ds| then old(ls.logs)[i] + DisconnectEvents(ds[i].disconnected) else old(ls.logs)[i]
    ensures |starts| == |ds| && forall i :: 0 <= i < |ds| ==> starts[i] == ds[i].ancestor.Height()
    ensures LongestOf(longest, ds)
    ensures Responsive(net, t, src) && AllShareAncestors(t, best, olds) ==> error.None?
  {
    next, starts, longest, ds := k, [], Longest(None, []), [];
    for i := 0 to |olds|
      invariant cache.headers == old(cache.headers)
      invariant |ds| == i && Differences(t, best, olds, ds)
      invariant StaleSent(old(ls.logs), ls.logs, ds)
      invariant |starts| == i && forall j :: 0 <= j < i ==> starts[j] == ds[j].ancestor.Height()
      invariant LongestOf(longest, ds)
    {
      assert AllShareAncestors(t, best, olds) ==> Related(t, best, olds[i]);
      ghost var mid := ls.logs;
      var r, n := DisconnectOne(net, src, next, cache, best, ls, i, olds[i], t);
      next := n;
      if r.Err? { return Some(r.error), next, starts, longest, ds; }
      starts := starts + [r.value.ancestor.Height()];
      LongerIsLongest(longest, ds, r.value);
      StaleSentNext(old(ls.logs), mid, ds, r.value);
      DifferencesNext(t, best, olds, ds, r.value);
      longest := Longer(longest, r.value);
      ds := ds + [r.value];
    }
    error := None;
  }

  /** How many blocks a listener missing `own` blocks has been sent once `n` of `all` were replayed. */
  function Share(all: nat, own: nat, n: nat): nat
    requires own <= all && n <= all
  {
    if n <= all - own then 0 else n - (all - own)
  }

  lemma {:induction false} AllAbove(h: int, path: seq<ValidatedHeader>, n: nat)
    requires n <= |path| && forall i :: 0 <= i < |path| ==> path[i].Height() > h
    ensures Above(h, ConnectEvents(path, n)) == ConnectEvents(path, n)
    decreases n
  {
    if n > 0 {
      AllAbove(h, path, n - 1);
      assert ConnectEvents(path, n)[..n - 1] == ConnectEvents(path, n - 1);
    }
  }

  lemma {:induction false} NoneAbove(h: int, path: seq<ValidatedHeader>, n: nat)
    requires n <= |path| && forall i :: 0 <= i < |path| ==> path[i].Height() <= h
    ensures Above(h, ConnectEvents(path, n)) == []
    decreases n
  {
    if n > 0 {
      NoneAbove(h, path, n - 1);
      assert ConnectEvents(path, n)[..n - 1] == ConnectEvents(path, n - 1);
    }
  }

  lemma SplitEvents(own: seq<ValidatedHeader>, rest: seq<ValidatedHeader>, n: nat)
    requires n <= |own| + |rest|
    ensures ConnectEvents(own + rest, n)
         == ConnectEvents(rest, if n <= |rest| then n else |rest|) + ConnectEvents(own, Share(|own| + |rest|, |own|, n))
  {
  }

  lemma AboveSplit(h: int, own: seq<ValidatedHeader>, rest: seq<ValidatedHeader>, n: nat)
    requires n <= |own| + |rest|
    requires forall i :: 0 <= i < |own| ==> own[i].Height() > h
    requires forall i :: 0 <= i < |rest| ==> rest[i].Height() <= h
    ensures Above(h, ConnectEvents(own + rest, n)) == ConnectEvents(own, Share(|own| + |rest|, |own|, n))
  {
    var m, k := if n <= |rest| then n else |rest|, Share(|own| + |rest|, |own|, n);
    SplitEvents(own, rest, n);
    AboveConcat(h, ConnectEvents(rest, m), ConnectEvents(own, k));
    NoneAbove(h, rest, m);
    AllAbove(h, own, k);
  }

  /** The replay of the longest list, seen above one listener's fork point, is that listener's own replay. */
  lemma SharedReplay(net: Network, t: Tree, best: ValidatedHeader, all: seq<ValidatedHeader>, bottom: ValidatedHeader,
                     own: seq<ValidatedHeader>, a: ValidatedHeader, n: nat)
    requires TreeOk(net, t) && Known(t, best)
    requires Descends(t, best, all, bottom) && Descends(t, best, own, a) && |own| <= |all| && n <= |all|
    ensures Above(a.Height(), ConnectEvents(all, n)) == ConnectEvents(own, Share(|all|, |own|, n))
  {
    SharedHeights(net, t, best, all, bottom, own, a);
    AboveSplit(a.Height(), own, all[|own|..], n);
  }

  /** A listener's own list is the upper part of the longest one; the rest lies at or below its fork point. */
  lemma SharedHeights(net: Network, t: Tree, best: ValidatedHeader, all: seq<ValidatedHeader>, bottom: ValidatedHeader,
                      own: seq<ValidatedHeader>, a: ValidatedHeader)
    requires TreeOk(net, t) && Known(t, best)
    requires Descends(t, best, all, bottom) && Descends(t, best, own, a) && |own| <= |all|
    ensures all == own + all[|own|..]
    ensures forall i :: 0 <= i < |own| ==> own[i].Height() > a.Height()
    ensures forall i :: 0 <= i < |all[|own|..]| ==> all[|own|..][i].Height() <= a.Height()
  {
    DescendsPrefix(t, best, own, a, all, bottom);
    DescendsFacts(net, t, best, own, a);
    DescendsFacts(net, t, a, all[|own|..], bottom);
  }

  /** Listener logs `before` grew by the replay of `d`, cut off after `m` connected blocks. */
  ghost predicate Sent(before: seq<Event>, after: seq<Event>, d: ChainDifference, m: nat) {
    m <= |d.connected| && after == before + ReplayEvents(d, m)
  }

  ghost predicate SentSome(before: seq<Event>, after: seq<Event>, d: ChainDifference) {
    exists m: nat :: Sent(before, after, d, m)
  }

  /** What replaying `n` blocks of the longest list to everyone means for one listener. */
  lemma OwnShare(net: Network, t: Tree, best: ValidatedHeader, all: seq<ValidatedHeader>, bottom: ValidatedHeader,
                 d: ChainDifference, n: nat, before: seq<Event>, after: seq<Event>)
    requires TreeOk(net, t) && Known(t, best)
    requires Descends(t, best, all, bottom) && Descends(t, best, d.connected, d.ancestor) && |d.connected| <= |all|
      && n <= |all|
    requires after == before + DisconnectEvents(d.disconnected) + Above(d.ancestor.Height(), ConnectEvents(all, n))
    ensures Sent(before, after, d, Share(|all|, |d.connected|, n))
  {
    SharedReplay(net, t, best, all, bottom, d.connected, d.ancestor, n);
  }

  lemma AllShares(
    net: Network, t: Tree, best: ValidatedHeader, all: seq<ValidatedHeader>, bottom: ValidatedHeader,
    ds: seq<ChainDifference>, starts: seq<int>, n: nat, logs: seq<seq<Event>>, before: seq<seq<Event>>,
    after: seq<seq<Event>>)
    returns (sent: seq<nat>)
    requires TreeOk(net, t) && Known(t, best) && Descends(t, best, all, bottom) && n <= |all|
    requires |ds| == |starts| == |logs| == |before|
      && after == Deliver(AtHeights(starts), before, ConnectEvents(all, n))
    requires forall i :: 0 <= i < |ds| ==>
      Descends(t, best, ds[i].connected, ds[i].ancestor) && |ds[i].connected| <= |all|
    requires forall i :: 0 <= i < |ds| ==> starts[i] == ds[i].ancestor.Height()
    requires forall i :: 0 <= i < |ds| ==> before[i] == logs[i] + DisconnectEvents(ds[i].disconnected)
    ensures |sent| == |ds| && forall i :: 0 <= i < |ds| ==> Sent(logs[i], after[i], ds[i], sent[i])
    ensures n == |all| ==> forall i :: 0 <= i < |ds| ==> sent[i] == |ds[i].connected|
  {
    sent := seq(|ds|, i requires 0 <= i < |ds| => Share(|all|, |ds[i].connected|, n));
    forall i | 0 <= i < |ds| ensures Sent(logs[i], after[i], ds[i], sent[i]) {
      OwnShare(net, t, best, all, bottom, ds[i], n, logs[i], after[i]);
    }
  }

  /** Replays the longest list to all listeners at once; `sent[i]` blocks reached listener `i`. */
  method ConnectAll(
    net: Network, src: BlockSource, k: nat, cache: HeaderCache, best: ValidatedHeader, ls: Listeners,
    starts: seq<int>, longest: Longest,
    ghost olds: seq<ValidatedHeader>, ghost ds: seq<ChainDifference>, ghost logs: seq<seq<Event>>, ghost t: Tree)
    returns (error: Option<Error>, ghost sent: seq<nat>)
    requires World(net, src, t, cache.headers) && Known(t, best)
    requires |ds| == |olds| == |logs| == |starts| == |ls.logs| && Differences(t, best, olds, ds)
      && LongestOf(longest, ds)
    requires forall i :: 0 <= i < |ds| ==> starts[i] == ds[i].ancestor.Height()
    requires forall i :: 0 <= i < |ds| ==> ls.logs[i] == logs[i] + DisconnectEvents(ds[i].disconnected)
    modifies cache, ls
    ensures |sent| == |ds| == |ls.logs| && forall i :: 0 <= i < |ds| ==> Sent(logs[i], ls.logs[i], ds[i], sent[i])
    ensures error.None? ==> forall i :: 0 <= i < |ds| ==> sent[i] == |ds[i].connected|
    ensures CacheOk(t, cache.headers) && old(cache.headers).Keys <= cache.headers.Keys
    ensures ServesBlocks(net, t, src) ==> error.None?
  {
    if longest.ancestor.None? {
      sent := seq(|ds|, i => 0);
      forall i | 0 <= i < |ds| ensures Sent(logs[i], ls.logs[i], ds[i], 0) { SentNoBlocks(logs[i], ds[i]); }
      return None, sent;
    }
    ghost var w :| 0 <= w < |ds| && ds[w].ancestor == longest.ancestor.value && ds[w].connected == longest.blocks;
    DescendsFacts(net, t, best, longest.blocks, longest.ancestor.value);
    ghost var before, keys := ls.logs, cache.headers.Keys;
    var r; ghost var n; var next;
    r, next, n := ConnectBlocks(net, src, k, cache, ls, AtHeights(starts), longest.ancestor.value, longest.blocks, t);
    ConnectKeepsHashes(net, keys, longest.blocks, n);
    sent := AllShares(net, t, best, longest.blocks, longest.ancestor.value, ds, starts, n, logs, before, ls.logs);
    error := if r.Done? then None else Some(r.error);
  }

  lemma SentNoBlocks(before: seq<Event>, d: ChainDifference)
    ensures Sent(before, before + DisconnectEvents(d.disconnected), d, 0)
  {
    assert ReplayEvents(d, 0) == DisconnectEvents(d.disconnected);
  }

  lemma {:induction false} ConnectKeepsHashes(net: Network, keys: set<BlockHash>, path: seq<ValidatedHeader>, n: nat)
    requires n <= |path|
    ensures keys <= CachedHashes(net, keys, ConnectEvents(path, n))
    decreases n
  {
    if n > 0 {
      ConnectKeepsHashes(net, keys, path, n - 1);
      assert ConnectEvents(path, n)[..n - 1] == ConnectEvents(path, n - 1);
    }
  }

  /**
   `synchronize_listeners`. On success every listener has been sent exactly the replay of its own
   difference, as a separate synchronisation would have sent it. On failure the listeners reached
   so far have been sent a prefix of that replay, all towards one best header, and the others nothing.
   */
  method SynchronizeListeners(
    net: Network, src: BlockSource, cache: HeaderCache, hashes: seq<BlockHash>, ls: Listeners, ghost t: Tree)
    returns (r: Result<ValidatedHeader>, ghost olds: seq<ValidatedHeader>, ghost ds: seq<ChainDifference>)
    requires World(net, src, t, cache.headers) && |ls.logs| == |hashes|
    modifies cache, ls
    ensures CacheOk(t, cache.headers) && old(cache.headers).Keys <= cache.headers.Keys
    ensures |ls.logs| == |hashes|
    ensures r.Ok? ==> src.best(0) == Ok(r.value.blockHash)
    ensures Answering(net, t, src, hashes) ==> r.Ok?
    ensures r.Ok? ==>
      && Known(t, r.value) && Paired(t, hashes, olds) && |ds| == |hashes| && Differences(t, r.value, olds, ds)
      && forall i :: 0 <= i < |hashes| ==>
        && Sent(old(ls.logs)[i], ls.logs[i], ds[i], |ds[i].connected|)
        && Replay(net, At(olds[i]), ReplayEvents(ds[i], |ds[i].connected|)) == Some(At(r.value))
    ensures r.Err? ==> (forall i :: |ds| <= i < |hashes| ==> ls.logs[i] == old(ls.logs)[i])
    ensures r.Err? && ds != [] ==>
      && Paired(t, hashes, olds) && |ds| <= |hashes|
      && (exists best :: Known(t, best) && Differences(t, best, olds, ds))
      && forall i :: 0 <= i < |ds| ==> SentSome(old(ls.logs)[i], ls.logs[i], ds[i])
  {
    olds, ds := [], [];
    var best := BestHeader(net, src);
    if best.Err? { return Err(best.error), olds, ds; }
    var fetched, k := FetchOldHeaders(net, src, 2, cache.headers, hashes, t);
    if fetched.Err? { return Err(fetched.error), olds, ds; }
    olds := fetched.value;
    if Answering(net, t, src, hashes) { AnsweringShares(net, t, src, hashes, best.value, olds); }
    var error, starts, longest;
    error, k, starts, longest, ds := DisconnectAll(net, src, k, cache, best.value, ls, fetched.value, t);
    assert Differences(t, best.value, olds, ds);
    if error.Some? {
      forall i | 0 <= i < |ds| ensures SentSome(old(ls.logs)[i], ls.logs[i], ds[i]) {
        SentNoBlocks(old(ls.logs)[i], ds[i]);
      }
      return Err(error.value), olds, ds;
    }
    ghost var sent;
    error, sent := ConnectAll(net, src, k, cache, best.value, ls, starts, longest, olds, ds, old(ls.logs), t);
    if error.Some? { return Err(error.value), olds, ds; }
    forall i | 0 <= i < |hashes|
      ensures Replay(net, At(olds[i]), ReplayEvents(ds[i], |ds[i].connected|)) == Some(At(best.value))
    {
      ReplayDifference(net, t, best.value, olds[i], ds[i], |ds[i].connected|);
    }
    r := Ok(best.value);
  }
}
