/**
 Block headers, their validation, and the poller that adapts a single block source.

 Hashing, proof of work and the work implied by the difficulty bits belong to the bitcoin
 library; they are function-valued fields of `Network`, so every result below holds for all of
 them. A block source is an arbitrary stream of answers indexed by request number: it may fail,
 lie, or change its mind on any request.
 */
module ChainPoll {
  import opened Prelude

  type BlockHash = nat

  datatype BlockHeader = BlockHeader(prevHash: BlockHash, bits: nat, nonce: nat)

  // What a block source claims about a header: height and chainwork are not part of the hash.
  datatype BlockHeaderData = BlockHeaderData(header: BlockHeader, height: nat, chainwork: nat)

  datatype Block = Block(header: BlockHeader, merkleOk: bool, witnessOk: bool)

  datatype ErrorKind = Persistent | Transient

  datatype Error =
    | SourceError(kind: ErrorKind)
    | InvalidPow
    | InvalidBlockHash
    | InvalidMerkleRoot
    | InvalidWitnessCommitment
    | InvalidPreviousHash
    | InvalidHeight
    | InvalidChainwork
    | InvalidDifficultyTransition
    | InvalidDifficulty
    | GenesisReached

  datatype Result<+T> = Ok(value: T) | Err(error: Error)

  datatype Network = Network(
    hash: BlockHeader -> BlockHash,
    powOk: BlockHeader -> bool,
    work: nat -> nat,
    mainnet: bool)

  datatype BlockSource = BlockSource(
    header: (nat, BlockHash) -> Result<BlockHeaderData>,
    block: (nat, BlockHash) -> Result<Block>,
    best: nat -> Result<BlockHash>)

  datatype ValidatedHeader = ValidatedHeader(blockHash: BlockHash, data: BlockHeaderData) {
    function Prev(): BlockHash { data.header.prevHash }
    function Height(): nat { data.height }
    function Chainwork(): nat { data.chainwork }
  }

  // Uint256 arithmetic wraps.
  const U256: nat := 0x1_0000000000000000_0000000000000000_0000000000000000_0000000000000000

  /** True for headers that can only have come out of `ValidateHeader`. */
  predicate Genuine(net: Network, v: ValidatedHeader) {
    net.hash(v.data.header) == v.blockHash && net.powOk(v.data.header)
  }

  function ValidateHeader(net: Network, d: BlockHeaderData, h: BlockHash): (r: Result<ValidatedHeader>)
    ensures r.Ok? <==> net.powOk(d.header) && net.hash(d.header) == h
    ensures r.Ok? ==> r.value == ValidatedHeader(h, d) && Genuine(net, r.value)
  {
    if !net.powOk(d.header) then Err(InvalidPow)
    else if net.hash(d.header) != h then Err(InvalidBlockHash)
    else Ok(ValidatedHeader(h, d))
  }

  function ValidateBlock(net: Network, b: Block, h: BlockHash): (r: Result<Block>)
    ensures r.Ok? <==> net.powOk(b.header) && net.hash(b.header) == h && b.merkleOk && b.witnessOk
    ensures r.Ok? ==> r.value == b
  {
    if !net.powOk(b.header) then Err(InvalidPow)
    else if net.hash(b.header) != h then Err(InvalidBlockHash)
    else if !b.merkleOk then Err(InvalidMerkleRoot)
    else if !b.witnessOk then Err(InvalidWitnessCommitment)
    else Ok(b)
  }

  function Work(net: Network, v: ValidatedHeader): nat { net.work(v.data.header.bits) }

  /**
   What a header must meet to follow another: the hash links, the height is the next one, the
   chainwork adds up, and on mainnet the work changes only every 2016 blocks, by at most a factor
   of four.
   */
  predicate Follows(net: Network, v: ValidatedHeader, prev: ValidatedHeader) {
    && v.data.header.prevHash == prev.blockHash
    && v.data.height == prev.data.height + 1
    && v.data.chainwork == (prev.data.chainwork + Work(net, v)) % U256
    && (net.mainnet ==>
        if v.data.height % 2016 == 0 then Work(net, prev) / 4 <= Work(net, v) <= Work(net, prev) * 4 % U256
        else v.data.header.bits == prev.data.header.bits)
  }

  function CheckBuildsOn(net: Network, v: ValidatedHeader, prev: ValidatedHeader): (r: Result<()>)
    ensures r.Ok? <==> Follows(net, v, prev)
  {
    var work, prevWork := Work(net, v), Work(net, prev);
    if v.Prev() != prev.blockHash then Err(InvalidPreviousHash)
    else if v.Height() != prev.Height() + 1 then Err(InvalidHeight)
    else if v.Chainwork() != (prev.Chainwork() + work) % U256 then Err(InvalidChainwork)
    else if net.mainnet && v.Height() % 2016 == 0 then
      if work > prevWork * 4 % U256 || work < prevWork / 4 then Err(InvalidDifficultyTransition) else Ok(())
    else if net.mainnet && v.data.header.bits != prev.data.header.bits then Err(InvalidDifficulty)
    else Ok(())
  }

  /** `ChainPoller::look_up_previous_header`: request number `k` asks for `v`'s parent. */
  function PollPrevious(net: Network, src: BlockSource, k: nat, v: ValidatedHeader): (r: Result<ValidatedHeader>)
    ensures r.Ok? ==> Genuine(net, r.value) && r.value.blockHash == v.Prev() && r.value.Height() + 1 == v.Height()
    ensures r.Ok? ==> src.header(k, v.Prev()) == Ok(r.value.data) && Follows(net, v, r.value)
    ensures r.Ok? <==>
      && v.Height() > 0 && src.header(k, v.Prev()).Ok?
      && var p := ValidatedHeader(v.Prev(), src.header(k, v.Prev()).value); Genuine(net, p) && Follows(net, v, p)
  {
    if v.Height() == 0 then Err(GenesisReached)
    else
      match src.header(k, v.Prev())
      case Err(e) => Err(e)
      case Ok(d) =>
        match ValidateHeader(net, d, v.Prev())
        case Err(e) => Err(e)
        case Ok(p) =>
          match CheckBuildsOn(net, v, p)
          case Err(e) => Err(e)
          case Ok(_) => Ok(p)
  }

  /** `ChainPoller::fetch_block`. */
  function PollBlock(net: Network, src: BlockSource, k: nat, v: ValidatedHeader): (r: Result<Block>)
    ensures r.Ok? ==> net.hash(r.value.header) == v.blockHash && src.block(k, v.blockHash) == r
    ensures r.Ok? <==>
      src.block(k, v.blockHash).Ok? && ValidateBlock(net, src.block(k, v.blockHash).value, v.blockHash).Ok?
  {
    match src.block(k, v.blockHash)
    case Err(e) => Err(e)
    case Ok(b) => ValidateBlock(net, b, v.blockHash)
  }

  datatype ChainTip = Common | Better(tip: ValidatedHeader) | Worse(tip: ValidatedHeader)

  /** `ChainPoller::poll_chain_tip`: the best-block request is number `k`, the header request `k + 1`. */
  function PollChainTip(net: Network, src: BlockSource, k: nat, known: ValidatedHeader): (r: Result<ChainTip>)
    ensures r.Ok? ==> (r.value.Common? <==> src.best(k) == Ok(net.hash(known.data.header)))
    ensures r.Ok? && !r.value.Common? ==>
      && Genuine(net, r.value.tip) && src.best(k) == Ok(r.value.tip.blockHash)
      && src.header(k + 1, r.value.tip.blockHash) == Ok(r.value.tip.data)
    ensures r.Ok? <==>
      && src.best(k).Ok?
      && (src.best(k).value != net.hash(known.data.header) ==>
          && src.header(k + 1, src.best(k).value).Ok?
          && ValidateHeader(net, src.header(k + 1, src.best(k).value).value, src.best(k).value).Ok?)
    ensures r.Ok? && !r.value.Common? && Genuine(net, known) ==> r.value.tip.blockHash != known.blockHash
    ensures r.Ok? && r.value.Better? ==> r.value.tip.Chainwork() > known.Chainwork()
    ensures r.Ok? && r.value.Worse? ==> r.value.tip.Chainwork() <= known.Chainwork()
  {
    match src.best(k)
    case Err(e) => Err(e)
    case Ok(h) =>
      if h == net.hash(known.data.header) then Ok(Common)
      else
        match src.header(k + 1, h)
        case Err(e) => Err(e)
        case Ok(d) =>
          match ValidateHeader(net, d, h)
          case Err(e) => Err(e)
          case Ok(tip) => if tip.Chainwork() > known.Chainwork() then Ok(Better(tip)) else Ok(Worse(tip))
  }

  // ---------- Paths fetched through the poller ----------

  /** `path` was walked back from `path[0]` by successive poller requests, the first numbered `k`. */
  ghost predicate Fetched(net: Network, src: BlockSource, k: nat, path: seq<ValidatedHeader>)
    decreases |path|
  {
    |path| > 0 &&
    (|path| > 1 ==> PollPrevious(net, src, k, path[0]) == Ok(path[1]) && Fetched(net, src, k + 1, path[1..]))
  }

  /** Work of all blocks on the path except its oldest. */
  ghost function WorkSum(net: Network, path: seq<ValidatedHeader>): nat {
    if |path| <= 1 then 0 else Work(net, path[0]) + WorkSum(net, path[1..])
  }

  /** Retarget heights among all blocks on the path except its oldest. */
  ghost function Retargets(path: seq<ValidatedHeader>): nat {
    if |path| <= 1 then 0 else (if path[0].Height() % 2016 == 0 then 1 else 0) + Retargets(path[1..])
  }

  ghost function Pow4(n: nat): (r: nat)
    ensures r >= 1
  {
    if n == 0 then 1 else 4 * Pow4(n - 1)
  }

  /** Along a fetched path heights fall by one, hashes link, and chainwork accounts for every block. */
  lemma {:induction false} FetchedPathAccounts(net: Network, src: BlockSource, k: nat, path: seq<ValidatedHeader>)
    requires Fetched(net, src, k, path)
    ensures path[|path| - 1].Height() + |path| - 1 == path[0].Height()
    ensures forall i :: 0 <= i < |path| - 1 ==> path[i].Prev() == path[i + 1].blockHash
    ensures |path| > 1 ==> path[0].Chainwork() == (path[|path| - 1].Chainwork() + WorkSum(net, path)) % U256
    decreases |path|
  {
    if |path| > 1 {
      var rest := path[1..];
      assert path[0].Chainwork() == (path[1].Chainwork() + Work(net, path[0])) % U256;
      if |rest| > 1 {
        assert path[1].Chainwork() == (rest[1].Chainwork() + Work(net, path[1])) % U256;
        FetchedPathAccounts(net, src, k + 1, rest);
        WrappedSum(rest[|rest| - 1].Chainwork() + WorkSum(net, rest), Work(net, path[0]));
      }
      forall i | 0 <= i < |path| - 1 ensures path[i].Prev() == path[i + 1].blockHash {
        if i > 0 { assert path[i] == rest[i - 1] && path[i + 1] == rest[i]; }
      }
    }
  }

  lemma WrappedSum(a: nat, b: nat)
    ensures (a % U256 + b) % U256 == (a + b) % U256
  {
    var q := a / U256;
    assert a == q * U256 + a % U256;
    var x := a % U256 + b;
    assert a + b == q * U256 + x;
    assert (q * U256 + x) % U256 == x % U256;
  }

  /**
   On mainnet a path that crosses `n` retarget heights changes the per-block work by at most a
   factor `4^n` either way. This survives the overflow of the two-bit shift: a wrapped bound is
   only tighter.
   */
  lemma {:induction false} FetchedPathDifficulty(net: Network, src: BlockSource, k: nat, path: seq<ValidatedHeader>)
    requires Fetched(net, src, k, path)
    requires net.mainnet
    ensures Work(net, path[|path| - 1]) / Pow4(Retargets(path)) <= Work(net, path[0])
    ensures Work(net, path[0]) <= Work(net, path[|path| - 1]) * Pow4(Retargets(path))
    decreases |path|
  {
    if |path| > 1 {
      var rest := path[1..];
      FetchedPathDifficulty(net, src, k + 1, rest);
      if path[0].Height() % 2016 == 0 {
        WrappedIsLess(Work(net, path[1]) * 4);
        RetargetStep(Work(net, path[0]), Work(net, path[1]), Work(net, path[|path| - 1]), Pow4(Retargets(rest)));
      }
    }
  }

  lemma WrappedIsLess(a: nat)
    ensures a % U256 <= a
  {
  }

  lemma RetargetStep(w0: nat, w1: nat, w: nat, p: nat)
    requires p >= 1
    requires w1 / 4 <= w0 <= w1 * 4 && w / p <= w1 <= w * p
    ensures w / (4 * p) <= w0 <= w * (4 * p)
  {
    QuarterOf(w, p);
    assert w * (4 * p) == w * p * 4;
  }

  lemma QuarterOf(a: nat, p: nat)
    requires p >= 1
    ensures a / (4 * p) == a / p / 4
  {
    var q := a / p / 4;
    var r, s := a % p, a / p % 4;
    assert a == p * (a / p) + r;
    assert a / p == 4 * q + s;
    assert a == p * (4 * q + s) + r == 4 * p * q + p * s + r;
    assert p * s <= p * 3;
    assert 0 <= p * s + r < 4 * p;
    DivUnique(a, 4 * p, q, p * s + r);
  }
}
