/**
 The tree of all block headers, walked back from two tips to their fork point.

 A cache hit is not checked against the child it was looked up for, so everything that goes
 through a cache rests on one explicit assumption: there is a tree, that is, a hash determines
 its header record (no other header hashes to it) and a child's height is its parent's plus one,
 and both the cache and the headers the source delivers agree with it. The source may still refuse
 any request.
 */
module HeaderTree {
  import opened Prelude
  import opened ChainPoll

  type Tree = BlockHash -> Option<ValidatedHeader>
  type Headers = map<BlockHash, ValidatedHeader>

  ghost predicate RecordOk(net: Network, t: Tree, h: BlockHash) {
    t(h).Some? ==>
      var v := t(h).value;
      && v.blockHash == h
      && Genuine(net, v)
      && (forall other :: net.hash(other) == h ==> other == v.data.header)
      && (Parent(t, v).Some? ==> Parent(t, v).value.Height() + 1 == v.Height())
  }

  ghost predicate TreeOk(net: Network, t: Tree) { forall h :: RecordOk(net, t, h) }

  ghost function Parent(t: Tree, v: ValidatedHeader): Option<ValidatedHeader> { t(v.Prev()) }

  ghost predicate Known(t: Tree, v: ValidatedHeader) { t(v.blockHash) == Some(v) }

  ghost predicate CacheOk(t: Tree, cache: Headers) {
    forall h :: h in cache ==> t(h) == Some(cache[h])
  }

  /** Every header the source delivers and the poller accepts is the tree's record for that hash. */
  ghost predicate Honest(net: Network, t: Tree, src: BlockSource) {
    forall k, h :: src.header(k, h).Ok? && ValidateHeader(net, src.header(k, h).value, h).Ok? ==>
      t(h) == Some(ValidateHeader(net, src.header(k, h).value, h).value)
  }

  lemma ParentFacts(net: Network, t: Tree, v: ValidatedHeader)
    requires TreeOk(net, t) && Known(t, v) && Parent(t, v).Some?
    ensures Known(t, Parent(t, v).value)
    ensures Parent(t, v).value.Height() + 1 == v.Height()
    ensures Parent(t, v).value.blockHash == v.Prev()
  {
    assert RecordOk(net, t, v.blockHash) && RecordOk(net, t, v.Prev());
  }

  // ---------- Descending paths and ancestors ----------

  /** `path` lists the blocks from `v` down to, and excluding, `a`. */
  ghost predicate Descends(t: Tree, v: ValidatedHeader, path: seq<ValidatedHeader>, a: ValidatedHeader)
    decreases |path|
  {
    if path == [] then v == a
    else path[0] == v && Parent(t, v).Some? && Descends(t, Parent(t, v).value, path[1..], a)
  }

  ghost predicate IsAncestor(t: Tree, a: ValidatedHeader, v: ValidatedHeader) {
    exists path :: Descends(t, v, path, a)
  }

  lemma {:induction false} DescendsFacts(
    net: Network, t: Tree, v: ValidatedHeader, path: seq<ValidatedHeader>, a: ValidatedHeader)
    requires TreeOk(net, t) && Known(t, v) && Descends(t, v, path, a)
    ensures Known(t, a) && a.Height() + |path| == v.Height()
    ensures forall i :: 0 <= i < |path| ==> Known(t, path[i]) && path[i].Height() == v.Height() - i
    decreases |path|
  {
    if path != [] {
      ParentFacts(net, t, v);
      DescendsFacts(net, t, Parent(t, v).value, path[1..], a);
      forall i | 0 < i < |path| ensures Known(t, path[i]) && path[i].Height() == v.Height() - i {
        assert path[i] == path[1..][i - 1];
      }
    }
  }

  /** Each block of a path names the one below it. */
  lemma {:induction false} DescendsLink(
    net: Network, t: Tree, v: ValidatedHeader, path: seq<ValidatedHeader>, a: ValidatedHeader, i: nat)
    requires TreeOk(net, t) && Known(t, v) && Descends(t, v, path, a) && i < |path|
    ensures path[i].Prev() == (if i + 1 < |path| then path[i + 1] else a).blockHash
    decreases i
  {
    ParentFacts(net, t, v);
    if i > 0 { DescendsLink(net, t, Parent(t, v).value, path[1..], a, i - 1); }
  }

  /** Walking back is deterministic: the longer of two walks from one block extends the shorter. */
  lemma {:induction false} DescendsPrefix(t: Tree, v: ValidatedHeader, p: seq<ValidatedHeader>, a: ValidatedHeader,
                                          q: seq<ValidatedHeader>, b: ValidatedHeader)
    requires Descends(t, v, p, a) && Descends(t, v, q, b) && |p| <= |q|
    ensures p == q[..|p|] && (|p| == |q| ==> a == b)
    ensures Descends(t, a, q[|p|..], b)
    decreases |p|
  {
    if p != [] {
      DescendsPrefix(t, Parent(t, v).value, p[1..], a, q[1..], b);
      assert p == [p[0]] + p[1..] && q[..|p|] == [q[0]] + q[1..][..|p| - 1];
      assert q[|p|..] == q[1..][|p| - 1..];
    } else {
      assert q[0..] == q;
    }
  }

  lemma {:induction false} DescendsConcat(t: Tree, v: ValidatedHeader, p: seq<ValidatedHeader>, m: ValidatedHeader,
                                          q: seq<ValidatedHeader>, a: ValidatedHeader)
    requires Descends(t, v, p, m) && Descends(t, m, q, a)
    ensures Descends(t, v, p + q, a)
    decreases |p|
  {
    if p == [] {
      assert p + q == q;
    } else {
      DescendsConcat(t, Parent(t, v).value, p[1..], m, q, a);
      assert (p + q)[1..] == p[1..] + q;
    }
  }

  lemma AncestorOfParent(t: Tree, a: ValidatedHeader, v: ValidatedHeader)
    requires IsAncestor(t, a, v) && a != v
    ensures Parent(t, v).Some? && IsAncestor(t, a, Parent(t, v).value)
  {
    var path :| Descends(t, v, path, a);
    assert Descends(t, Parent(t, v).value, path[1..], a);
  }

  lemma AncestorIsLower(net: Network, t: Tree, a: ValidatedHeader, v: ValidatedHeader)
    requires TreeOk(net, t) && Known(t, v) && IsAncestor(t, a, v)
    ensures Known(t, a) && a.Height() <= v.Height() && (a.Height() == v.Height() ==> a == v)
  {
    var path :| Descends(t, v, path, a);
    DescendsFacts(net, t, v, path, a);
  }

  // ---------- The difference between two chains ----------

  datatype ChainDifference = ChainDifference(
    ancestor: ValidatedHeader,
    disconnected: seq<ValidatedHeader>,
    connected: seq<ValidatedHeader>)

  /** `d` leads from `prev` down to the highest common ancestor and up to `cur`. */
  ghost predicate IsDifference(t: Tree, cur: ValidatedHeader, prev: ValidatedHeader, d: ChainDifference) {
    && Descends(t, cur, d.connected, d.ancestor)
    && Descends(t, prev, d.disconnected, d.ancestor)
    && forall x :: IsAncestor(t, x, cur) && IsAncestor(t, x, prev) ==> IsAncestor(t, x, d.ancestor)
  }

  /** There is at most one difference between two tips. */
  lemma DifferenceUnique(
    net: Network, t: Tree, cur: ValidatedHeader, prev: ValidatedHeader, d: ChainDifference, e: ChainDifference)
    requires TreeOk(net, t) && Known(t, cur) && Known(t, prev)
    requires IsDifference(t, cur, prev, d) && IsDifference(t, cur, prev, e)
    ensures d == e
  {
    assert IsAncestor(t, d.ancestor, cur) && IsAncestor(t, d.ancestor, prev);
    assert IsAncestor(t, e.ancestor, cur) && IsAncestor(t, e.ancestor, prev);
    AncestorIsLower(net, t, d.ancestor, cur);
    AncestorIsLower(net, t, e.ancestor, cur);
    AncestorIsLower(net, t, d.ancestor, e.ancestor);
    AncestorIsLower(net, t, e.ancestor, d.ancestor);
    DescendsFacts(net, t, cur, d.connected, d.ancestor);
    DescendsFacts(net, t, cur, e.connected, e.ancestor);
    DescendsFacts(net, t, prev, d.disconnected, d.ancestor);
    DescendsFacts(net, t, prev, e.disconnected, e.ancestor);
    DescendsPrefix(t, cur, d.connected, d.ancestor, e.connected, e.ancestor);
    DescendsPrefix(t, prev, d.disconnected, d.ancestor, e.disconnected, e.ancestor);
  }

  /** No block is both disconnected and connected. */
  lemma DifferenceDisjoint(
    net: Network, t: Tree, cur: ValidatedHeader, prev: ValidatedHeader, d: ChainDifference, x: ValidatedHeader)
    requires TreeOk(net, t) && Known(t, cur) && Known(t, prev)
    requires IsDifference(t, cur, prev, d)
    ensures !(x in d.connected && x in d.disconnected)
  {
    if x in d.connected && x in d.disconnected {
      var i :| 0 <= i < |d.connected| && d.connected[i] == x;
      var j :| 0 <= j < |d.disconnected| && d.disconnected[j] == x;
      DescendsFacts(net, t, cur, d.connected, d.ancestor);
      MemberIsAncestor(t, cur, d.connected, d.ancestor, i);
      MemberIsAncestor(t, prev, d.disconnected, d.ancestor, j);
      AncestorIsLower(net, t, x, d.ancestor);
      assert false;
    }
  }

  lemma {:induction false} MemberIsAncestor(
    t: Tree, v: ValidatedHeader, path: seq<ValidatedHeader>, a: ValidatedHeader, i: nat)
    requires Descends(t, v, path, a) && i < |path|
    ensures Descends(t, v, path[..i], path[i]) && IsAncestor(t, path[i], v)
    decreases i
  {
    if i > 0 {
      MemberIsAncestor(t, Parent(t, v).value, path[1..], a, i - 1);
      assert path[..i][1..] == path[1..][..i - 1] && path[1..][i - 1] == path[i];
    }
    assert Descends(t, v, path[..i], path[i]);
  }

  // ---------- find_difference ----------

  /** A header looked up for `v`, and the number of the next request. */
  function LookUpPrevious(
    net: Network, cache: Headers, src: BlockSource, k: nat, v: ValidatedHeader): (Result<ValidatedHeader>, nat)
  {
    if v.Prev() in cache then (Ok(cache[v.Prev()]), k)
    else (PollPrevious(net, src, k, v), if v.Height() == 0 then k else k + 1)
  }

  lemma LookUpIsParent(net: Network, t: Tree, cache: Headers, src: BlockSource, k: nat, v: ValidatedHeader)
    requires TreeOk(net, t) && Known(t, v) && CacheOk(t, cache) && Honest(net, t, src)
    requires LookUpPrevious(net, cache, src, k, v).0.Ok?
    ensures Parent(t, v) == Some(LookUpPrevious(net, cache, src, k, v).0.value)
    ensures Known(t, Parent(t, v).value) && Parent(t, v).value.Height() + 1 == v.Height()
  {
    if v.Prev() !in cache { assert ValidateHeader(net, src.header(k, v.Prev()).value, v.Prev()).Ok?; }
    ParentFacts(net, t, v);
  }

  function Extend(
    dis: seq<ValidatedHeader>, con: seq<ValidatedHeader>, r: Result<ChainDifference>): Result<ChainDifference>
  {
    match r
    case Err(e) => Err(e)
    case Ok(d) => Ok(ChainDifference(d.ancestor, dis + d.disconnected, con + d.connected))
  }

  /** The ambient assumption for a walk from `cur` and `prev`. */
  ghost predicate Walkable(
    net: Network, t: Tree, cache: Headers, src: BlockSource, cur: ValidatedHeader, prev: ValidatedHeader)
  {
    TreeOk(net, t) && Honest(net, t, src) && CacheOk(t, cache) && Known(t, cur) && Known(t, prev)
  }

  /** What the walk computes, request by request. */
  ghost function Difference(
    net: Network, t: Tree, cache: Headers, src: BlockSource, k: nat, cur: ValidatedHeader, prev: ValidatedHeader)
    : Result<ChainDifference>
    requires Walkable(net, t, cache, src, cur, prev)
    decreases cur.Height() + prev.Height()
  {
    if cur.blockHash == prev.blockHash then Ok(ChainDifference(cur, [], []))
    else if cur.Height() < prev.Height() then
      var (p, k1) := LookUpPrevious(net, cache, src, k, prev);
      if p.Err? then Err(p.error) else
      LookUpIsParent(net, t, cache, src, k, prev);
      Extend([prev], [], Difference(net, t, cache, src, k1, cur, p.value))
    else if cur.Height() > prev.Height() then
      var (c, k1) := LookUpPrevious(net, cache, src, k, cur);
      if c.Err? then Err(c.error) else
      LookUpIsParent(net, t, cache, src, k, cur);
      Extend([], [cur], Difference(net, t, cache, src, k1, c.value, prev))
    else
      var (p, k1) := LookUpPrevious(net, cache, src, k, prev);
      if p.Err? then Err(p.error) else
      var (c, k2) := LookUpPrevious(net, cache, src, k1, cur);
      if c.Err? then Err(c.error) else
      LookUpIsParent(net, t, cache, src, k, prev);
      LookUpIsParent(net, t, cache, src, k1, cur);
      Extend([prev], [cur], Difference(net, t, cache, src, k2, c.value, p.value))
  }

  /** Going one step down from `prev` loses no common ancestor when `prev` is at least as high as `cur`. */
  lemma StepDown(net: Network, t: Tree, x: ValidatedHeader, cur: ValidatedHeader, prev: ValidatedHeader)
    requires TreeOk(net, t) && Known(t, cur) && Known(t, prev)
    requires cur.blockHash != prev.blockHash && cur.Height() <= prev.Height()
    requires IsAncestor(t, x, cur) && IsAncestor(t, x, prev)
    ensures Parent(t, prev).Some? && IsAncestor(t, x, Parent(t, prev).value)
  {
    AncestorIsLower(net, t, x, cur);
    assert x != prev;
    AncestorOfParent(t, x, prev);
  }

  /** A successful walk returns the highest common ancestor and exactly the two paths down to it. */
  lemma {:induction false} DifferenceCorrect(
    net: Network, t: Tree, cache: Headers, src: BlockSource, k: nat, cur: ValidatedHeader, prev: ValidatedHeader)
    requires Walkable(net, t, cache, src, cur, prev)
    requires Difference(net, t, cache, src, k, cur, prev).Ok?
    ensures IsDifference(t, cur, prev, Difference(net, t, cache, src, k, cur, prev).value)
    decreases cur.Height() + prev.Height()
  {
    if cur.blockHash == prev.blockHash {
      assert cur == prev;
    } else {
      var down, up := cur.Height() <= prev.Height(), cur.Height() >= prev.Height();
      var (p, k1) := if down then LookUpPrevious(net, cache, src, k, prev) else (Ok(prev), k);
      var (c, k2) := if up then LookUpPrevious(net, cache, src, k1, cur) else (Ok(cur), k1);
      if down { LookUpIsParent(net, t, cache, src, k, prev); }
      if up { LookUpIsParent(net, t, cache, src, k1, cur); }
      DifferenceCorrect(net, t, cache, src, k2, c.value, p.value);
      var d := Difference(net, t, cache, src, k2, c.value, p.value).value;
      var e := Difference(net, t, cache, src, k, cur, prev).value;
      assert e.disconnected[if down then 1 else 0..] == d.disconnected;
      assert e.connected[if up then 1 else 0..] == d.connected;
      forall x | IsAncestor(t, x, cur) && IsAncestor(t, x, prev) ensures IsAncestor(t, x, d.ancestor) {
        if down { StepDown(net, t, x, cur, prev); }
        if up { StepDown(net, t, x, prev, cur); }
      }
    }
  }

  /** The source answers every request for the parent of a known block. */
  ghost predicate Responsive(net: Network, t: Tree, src: BlockSource) {
    forall k, v :: Known(t, v) && Parent(t, v).Some? ==> PollPrevious(net, src, k, v) == Ok(Parent(t, v).value)
  }

  /** Against a source that answers, the walk succeeds exactly when the two tips share an ancestor. */
  lemma {:induction false} DifferenceExistsIff(
    net: Network, t: Tree, cache: Headers, src: BlockSource, k: nat, cur: ValidatedHeader, prev: ValidatedHeader)
    requires Walkable(net, t, cache, src, cur, prev) && Responsive(net, t, src)
    ensures Difference(net, t, cache, src, k, cur, prev).Ok? <==>
      exists x :: IsAncestor(t, x, cur) && IsAncestor(t, x, prev)
    decreases cur.Height() + prev.Height()
  {
    if Difference(net, t, cache, src, k, cur, prev).Ok? {
      DifferenceCorrect(net, t, cache, src, k, cur, prev);
      var a := Difference(net, t, cache, src, k, cur, prev).value.ancestor;
      assert IsAncestor(t, a, cur) && IsAncestor(t, a, prev);
    }
    if x :| IsAncestor(t, x, cur) && IsAncestor(t, x, prev) && cur.blockHash != prev.blockHash {
      var down, up := cur.Height() <= prev.Height(), cur.Height() >= prev.Height();
      if down { StepDown(net, t, x, cur, prev); }
      if up { StepDown(net, t, x, prev, cur); }
      var (p, k1) := if down then LookUpPrevious(net, cache, src, k, prev) else (Ok(prev), k);
      var (c, k2) := if up then LookUpPrevious(net, cache, src, k1, cur) else (Ok(cur), k1);
      if down { LookUpIsParent(net, t, cache, src, k, prev); }
      if up { LookUpIsParent(net, t, cache, src, k1, cur); }
      DifferenceExistsIff(net, t, cache, src, k2, c.value, p.value);
    }
  }

  /** Whatever agreeing caches, sources and failures two walks see, if both succeed they agree. */
  lemma CacheNeverChangesTheAnswer(
    net: Network, t: Tree, cache1: Headers, cache2: Headers, src1: BlockSource, src2: BlockSource, k1: nat, k2: nat,
    cur: ValidatedHeader, prev: ValidatedHeader)
    requires Walkable(net, t, cache1, src1, cur, prev) && Walkable(net, t, cache2, src2, cur, prev)
    requires Difference(net, t, cache1, src1, k1, cur, prev).Ok? && Difference(net, t, cache2, src2, k2, cur, prev).Ok?
    ensures Difference(net, t, cache1, src1, k1, cur, prev) == Difference(net, t, cache2, src2, k2, cur, prev)
  {
    DifferenceCorrect(net, t, cache1, src1, k1, cur, prev);
    DifferenceCorrect(net, t, cache2, src2, k2, cur, prev);
    DifferenceUnique(net, t, cur, prev,
      Difference(net, t, cache1, src1, k1, cur, prev).value, Difference(net, t, cache2, src2, k2, cur, prev).value);
  }

  ghost predicate Steady(src: BlockSource) {
    forall k, h :: src.header(k, h) == src.header(0, h)
  }

  lemma SteadyLookUp(net: Network, t: Tree, cache: Headers, src: BlockSource, k1: nat, k2: nat, v: ValidatedHeader)
    requires TreeOk(net, t) && Known(t, v) && CacheOk(t, cache) && Honest(net, t, src) && Steady(src)
    requires PollPrevious(net, src, k1, v).Ok?
    ensures LookUpPrevious(net, cache, src, k2, v).0 == PollPrevious(net, src, k1, v)
  {
    assert LookUpPrevious(net, map[], src, k1, v).0 == PollPrevious(net, src, k1, v);
    LookUpIsParent(net, t, map[], src, k1, v);
    assert src.header(k1, v.Prev()) == src.header(0, v.Prev()) == src.header(k2, v.Prev());
  }

  /** With a source that answers the same question the same way, a cache never turns success into failure. */
  lemma {:induction false} CacheKeepsSuccess(
    net: Network, t: Tree, cache: Headers, src: BlockSource, k1: nat, k2: nat, cur: ValidatedHeader,
    prev: ValidatedHeader)
    requires Walkable(net, t, cache, src, cur, prev) && Steady(src)
    requires Difference(net, t, map[], src, k1, cur, prev).Ok?
    ensures Difference(net, t, cache, src, k2, cur, prev) == Difference(net, t, map[], src, k1, cur, prev)
    decreases cur.Height() + prev.Height()
  {
    if cur.blockHash != prev.blockHash {
      var down, up := cur.Height() <= prev.Height(), cur.Height() >= prev.Height();
      var (p, j1) := if down then LookUpPrevious(net, map[], src, k1, prev) else (Ok(prev), k1);
      var (c, j2) := if up then LookUpPrevious(net, map[], src, j1, cur) else (Ok(cur), j1);
      var m1 := if down then LookUpPrevious(net, cache, src, k2, prev).1 else k2;
      var m2 := if up then LookUpPrevious(net, cache, src, m1, cur).1 else m1;
      if down { SteadyLookUp(net, t, cache, src, k1, k2, prev); LookUpIsParent(net, t, map[], src, k1, prev); }
      if up { SteadyLookUp(net, t, cache, src, j1, m1, cur); LookUpIsParent(net, t, map[], src, j1, cur); }
      CacheKeepsSuccess(net, t, cache, src, j2, m2, c.value, p.value);
    }
  }

  ghost predicate ParentsCached(cache: Headers, path: seq<ValidatedHeader>) {
    forall i :: 0 <= i < |path| ==> path[i].Prev() in cache
  }

  lemma HigherTipHasPath(
    net: Network, t: Tree, cur: ValidatedHeader, prev: ValidatedHeader, a: ValidatedHeader,
    p: seq<ValidatedHeader>, q: seq<ValidatedHeader>)
    requires TreeOk(net, t) && Known(t, cur) && Known(t, prev)
    requires Descends(t, cur, p, a) && Descends(t, prev, q, a)
    requires cur.blockHash != prev.blockHash && cur.Height() <= prev.Height()
    ensures q != []
  {
    DescendsFacts(net, t, cur, p, a);
    DescendsFacts(net, t, prev, q, a);
  }

  /** A walk whose way down to a common ancestor is cached succeeds whatever the source answers, or does not. */
  lemma {:induction false} CachedWalkNeedsNoSource(
    net: Network, t: Tree, cache: Headers, src: BlockSource, k: nat, cur: ValidatedHeader, prev: ValidatedHeader,
    a: ValidatedHeader, p: seq<ValidatedHeader>, q: seq<ValidatedHeader>)
    requires Walkable(net, t, cache, src, cur, prev)
    requires Descends(t, cur, p, a) && Descends(t, prev, q, a) && ParentsCached(cache, p) && ParentsCached(cache, q)
    ensures Difference(net, t, cache, src, k, cur, prev).Ok?
    decreases cur.Height() + prev.Height()
  {
    if cur.blockHash != prev.blockHash {
      var down, up := cur.Height() <= prev.Height(), cur.Height() >= prev.Height();
      if down { HigherTipHasPath(net, t, cur, prev, a, p, q); assert q[0] == prev; }
      if up { HigherTipHasPath(net, t, prev, cur, a, q, p); assert p[0] == cur; }
      if down { LookUpIsParent(net, t, cache, src, k, prev); }
      if up { LookUpIsParent(net, t, cache, src, k, cur); }
      CachedWalkNeedsNoSource(net, t, cache, src, k,
        if up then cache[cur.Prev()] else cur, if down then cache[prev.Prev()] else prev,
        a, if up then p[1..] else p, if down then q[1..] else q);
    }
  }

  /** `ChainNotifier::find_difference`, as the loop that pushes onto two lists. */
  method FindDifference(
    net: Network, cache: Headers, src: BlockSource, k: nat, cur: ValidatedHeader, prev: ValidatedHeader,
    ghost t: Tree)
    returns (r: Result<ChainDifference>, next: nat)
    requires Walkable(net, t, cache, src, cur, prev)
    ensures r == Difference(net, t, cache, src, k, cur, prev)
    ensures r.Ok? ==> IsDifference(t, cur, prev, r.value)
  {
    var disconnected, connected := [], [];
    var current, previous := cur, prev;
    next := k;
    ExtendNone(Difference(net, t, cache, src, k, cur, prev));
    while current.blockHash != previous.blockHash
      invariant Walkable(net, t, cache, src, current, previous)
      invariant Difference(net, t, cache, src, k, cur, prev)
             == Extend(disconnected, connected, Difference(net, t, cache, src, next, current, previous))
      decreases current.Height() + previous.Height()
    {
      var currentHeight, previousHeight := current.Height(), previous.Height();
      ghost var d0, c0, cur0, prev0, next0 := disconnected, connected, current, previous, next;
      if currentHeight <= previousHeight {
        disconnected := disconnected + [previous];
        var (p, n) := LookUpPrevious(net, cache, src, next, previous);
        if p.Err? { return Err(p.error), n; }
        LookUpIsParent(net, t, cache, src, next, previous);
        previous, next := p.value, n;
      }
      if currentHeight >= previousHeight {
        connected := connected + [current];
        var (c, n) := LookUpPrevious(net, cache, src, next, current);
        if c.Err? { return Err(c.error), n; }
        LookUpIsParent(net, t, cache, src, next, current);
        current, next := c.value, n;
      }
      ExtendTwice(d0, c0, if currentHeight <= previousHeight then [prev0] else [],
        if currentHeight >= previousHeight then [cur0] else [],
        Difference(net, t, cache, src, next, current, previous));
    }
    r := Ok(ChainDifference(current, disconnected, connected));
    assert disconnected + [] == disconnected && connected + [] == connected;
    DifferenceCorrect(net, t, cache, src, k, cur, prev);
  }

  lemma ExtendNone(r: Result<ChainDifference>)
    ensures Extend([], [], r) == r
  {
    if r.Ok? {
      assert [] + r.value.disconnected == r.value.disconnected && [] + r.value.connected == r.value.connected;
    }
  }

  lemma ExtendTwice(
    d0: seq<ValidatedHeader>, c0: seq<ValidatedHeader>, d1: seq<ValidatedHeader>, c1: seq<ValidatedHeader>,
    r: Result<ChainDifference>)
    ensures Extend(d0, c0, Extend(d1, c1, r)) == Extend(d0 + d1, c0 + c1, r)
    ensures d0 + [] == d0 && c0 + [] == c0
  {
    if r.Ok? {
      assert d0 + (d1 + r.value.disconnected) == d0 + d1 + r.value.disconnected;
      assert c0 + (c1 + r.value.connected) == c0 + c1 + r.value.connected;
    }
  }
}
