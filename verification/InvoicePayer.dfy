/**
 The payment retry machine: a cache of attempt counts by payment hash, mutually recursive sending
 and retrying, and the event handler. The payer, the router and the clock are arbitrary: their
 answers are functions of the number of questions asked so far.
 */
module InvoicePayer {
  type Hash = nat

  datatype SendAnswer =
    | Accepted
    | ParameterError
    | PathParameterError
    | AllFailedRetrySafe
    | PartialFailure(retry: bool)

  datatype World = World(expired: nat -> bool, route: nat -> bool, send: nat -> SendAnswer)

  datatype PaymentError =
    | AmountMissing
    | AmountUnexpected
    | PaymentPending
    | Expired
    | Routing
    | Sending(cause: SendAnswer)

  datatype Outcome = Paid | Failed(error: PaymentError)

  datatype Event =
    | PaymentPathFailed(hash: Hash, hasId: bool, rejectedByDest: bool, hasRetry: bool)
    | PaymentFailed(hash: Hash)
    | PaymentSent(hash: Hash)
    | OtherEvent

  /** What an observer sees: cache entries come and go, payments go out, events reach the user. */
  datatype Action =
    | Enter(hash: Hash, byPay: bool)
    | Send(hash: Hash)
    | Answered(hash: Hash, answer: SendAnswer)
    | Leave(hash: Hash)
    | Abandon(hash: Hash)
    | Forward(event: Event)

  datatype State = State(cache: map<Hash, nat>, log: seq<Action>, asked: nat)

  // ---------- The calls, as functions of the state ----------

  /** `Retry::is_retryable_now` for `Retry::Attempts(n)`. */
  predicate Retryable(n: nat, count: nat) { n >= count }

  function Does(s: State, a: Action): State { s.(log := s.log + [a]) }

  function Asks(s: State): State { s.(asked := s.asked + 1) }

  /** A payment goes out, and the payer reports how it went. */
  function Attempted(w: World, s: State, h: Hash): State {
    Does(Does(Asks(s), Send(h)), Answered(h, w.send(s.asked)))
  }

  function Removed(s: State, h: Hash): State {
    if h in s.cache then Does(s.(cache := s.cache - {h}), Leave(h)) else s
  }

  function Counted(s: State, h: Hash): State {
    if h in s.cache then s.(cache := s.cache[h := s.cache[h] + 1])
    else Does(s.(cache := s.cache[h := 1]), Enter(h, false))
  }

  function Count(s: State, h: Hash): nat { if h in s.cache then s.cache[h] else 0 }

  /** How often the recursion can still go round. */
  function Left(n: nat, count: nat): nat { if count <= n then n + 1 - count else 0 }

  function Pay(n: nat, w: World, s: State, h: Hash): (State, Outcome)
    requires h in s.cache
    decreases Left(n, s.cache[h]), 1
  {
    var s1 := Asks(s);
    if w.expired(s.asked) then (s1, Failed(Expired))
    else
      var s2 := Asks(s1);
      if !w.route(s1.asked) then (s2, Failed(Routing))
      else
        var s3 := Attempted(w, s2, h);
        match w.send(s2.asked)
        case Accepted => (s3, Paid)
        case AllFailedRetrySafe =>
          var s4 := Counted(s3, h);
          if Retryable(n, s4.cache[h]) then Pay(n, w, s4, h) else (s4, Failed(Sending(AllFailedRetrySafe)))
        case PartialFailure(retry) => (if retry then RetryPay(n, w, s3, h).0 else s3, Paid)
        case e => (s3, Failed(Sending(e)))
  }

  function RetryPay(n: nat, w: World, s: State, h: Hash): (State, bool)
    decreases Left(n, Count(s, h)), 0
  {
    var s0 := Counted(s, h);
    if !Retryable(n, s0.cache[h]) then (s0, false)
    else
      var s1 := Asks(s0);
      if w.expired(s0.asked) then (s1, false)
      else
        var s2 := Asks(s1);
        if !w.route(s1.asked) then (s2, false)
        else
          var s3 := Attempted(w, s2, h);
          match w.send(s2.asked)
          case Accepted => (s3, true)
          case AllFailedRetrySafe => RetryPay(n, w, s3, h)
          case PartialFailure(retry) => (if retry then RetryPay(n, w, s3, h).0 else s3, true)
          case _ => (s3, false)
  }

  /** `pay_invoice_using_amount` and `pay_pubkey`: they differ only in how the route is described and sent. */
  function PayNew(n: nat, w: World, s: State, h: Hash): (State, Outcome) {
    if h in s.cache then (s, Failed(PaymentPending))
    else
      var r := Pay(n, w, Does(s.(cache := s.cache[h := 0]), Enter(h, true)), h);
      if r.1.Paid? then r else (Removed(r.0, h), r.1)
  }

  function Handle(n: nat, w: World, s: State, e: Event): State {
    match e
    case PaymentPathFailed(h, hasId, rejected, hasRetry) =>
      if !hasId then Does(s, Forward(e))
      else if rejected || !hasRetry then Does(Does(s, Abandon(h)), Forward(e))
      else
        var r := RetryPay(n, w, s, h);
        if r.1 then r.0 else Does(Does(r.0, Abandon(h)), Forward(e))
    case PaymentFailed(h) => Does(Removed(s, h), Forward(e))
    case PaymentSent(h) => Does(Removed(s, h), Forward(e))
    case OtherEvent => Does(s, Forward(e))
  }

  // ---------- The payer object ----------

  class Payer {
    const maxRetries: nat
    const world: World
    var cache: map<Hash, nat>
    ghost var log: seq<Action>
    var asked: nat

    ghost function View(): State
      reads this
    {
      State(cache, log, asked)
    }

    constructor (n: nat, w: World)
      ensures maxRetries == n && world == w && View() == State(map[], [], 0)
    {
      maxRetries, world, cache, log, asked := n, w, map[], [], 0;
    }

    method PayInternal(h: Hash) returns (r: Outcome)
      requires h in cache
      modifies this
      decreases Left(maxRetries, cache[h]), 1
      ensures (View(), r) == Pay(maxRetries, world, old(View()), h)
    {
      asked := asked + 1;
      if world.expired(asked - 1) { return Failed(Expired); }
      asked := asked + 1;
      if !world.route(asked - 1) { return Failed(Routing); }
      asked, log := asked + 1, log + [Send(h)];
      log := log + [Answered(h, world.send(asked - 1))];
      assert View() == Sent(world, old(View()), h);
      match world.send(asked - 1) {
        case Accepted => r := Paid;
        case AllFailedRetrySafe =>
          cache := cache[h := cache[h] + 1];
          if maxRetries >= cache[h] { r := PayInternal(h); } else { r := Failed(Sending(AllFailedRetrySafe)); }
        case PartialFailure(retry) =>
          if retry { var _ := RetryPayment(h); }
          r := Paid;
        case e => r := Failed(Sending(e));
      }
    }

    method RetryPayment(h: Hash) returns (ok: bool)
      modifies this
      decreases Left(maxRetries, if h in cache then cache[h] else 0), 0
      ensures (View(), ok) == RetryPay(maxRetries, world, old(View()), h)
    {
      if h in cache {
        cache := cache[h := cache[h] + 1];
      } else {
        cache, log := cache[h := 1], log + [Enter(h, false)];
      }
      ghost var s0 := Counted(old(View()), h);
      assert View() == s0;
      if !(maxRetries >= cache[h]) { return false; }
      asked := asked + 1;
      if world.expired(asked - 1) { return false; }
      asked := asked + 1;
      if !world.route(asked - 1) { return false; }
      asked, log := asked + 1, log + [Send(h)];
      log := log + [Answered(h, world.send(asked - 1))];
      assert View() == Sent(world, s0, h);
      match world.send(asked - 1) {
        case Accepted => ok := true;
        case AllFailedRetrySafe => ok := RetryPayment(h);
        case PartialFailure(retry) =>
          if retry { var _ := RetryPayment(h); }
          ok := true;
        case _ => ok := false;
      }
    }

    method PayInvoiceUsingAmount(h: Hash) returns (r: Outcome)
      modifies this
      ensures (View(), r) == PayNew(maxRetries, world, old(View()), h)
    {
      if h in cache { return Failed(PaymentPending); }
      cache, log := cache[h := 0], log + [Enter(h, true)];
      r := PayInternal(h);
      if r.Failed? { RemoveCachedPayment(h); }
    }

    /** `pay_invoice`. */
    method PayInvoice(h: Hash, hasAmount: bool) returns (r: Outcome)
      modifies this
      ensures View() == Execute(maxRetries, world, old(View()), Command.PayInvoice(h, hasAmount))
      ensures !hasAmount ==> r == Failed(AmountMissing)
    {
      if !hasAmount { return Failed(AmountMissing); }
      r := PayInvoiceUsingAmount(h);
    }

    /** `pay_zero_value_invoice`. */
    method PayZeroValueInvoice(h: Hash, hasAmount: bool) returns (r: Outcome)
      modifies this
      ensures View() == Execute(maxRetries, world, old(View()), Command.PayZeroValueInvoice(h, hasAmount))
      ensures hasAmount ==> r == Failed(AmountUnexpected)
    {
      if hasAmount { return Failed(AmountUnexpected); }
      r := PayInvoiceUsingAmount(h);
    }

    method RemoveCachedPayment(h: Hash)
      modifies this
      ensures View() == Removed(old(View()), h)
    {
      if h in cache { log := log + [Leave(h)]; }
      cache := cache - {h};
    }

    method HandleEvent(e: Event)
      modifies this
      ensures View() == Handle(maxRetries, world, old(View()), e)
    {
      match e {
        case PaymentPathFailed(h, hasId, rejected, hasRetry) =>
          if hasId {
            if rejected || !hasRetry {
              log := log + [Abandon(h)];
            } else {
              var ok := RetryPayment(h);
              if ok { return; }
              log := log + [Abandon(h)];
            }
          }
        case PaymentFailed(h) => RemoveCachedPayment(h);
        case PaymentSent(h) => RemoveCachedPayment(h);
        case OtherEvent =>
      }
      log := log + [Forward(e)];
    }
  }

  // ---------- A monitor for one payment hash ----------

  /** Where a hash stands after a log: not cached, cached with so many sends, or in breach of the limit. */
  datatype Episode = Out | In(byPay: bool, sends: nat) | Broken

  function Limit(n: nat, byPay: bool): nat { if byPay then n + 1 else n }

  function Watch(n: nat, e: Episode, a: Action, h: Hash): Episode {
    match a
    case Enter(k, byPay) => if k != h then e else if e.Out? then In(byPay, 0) else Broken
    case Send(k) =>
      if k != h then e
      else if e.In? && e.sends < Limit(n, e.byPay) then e.(sends := e.sends + 1)
      else Broken
    case Leave(k) => if k != h then e else if e.In? then Out else Broken
    case Answered(_, _) => e
    case Abandon(_) => e
    case Forward(_) => e
  }

  function Watched(n: nat, log: seq<Action>, h: Hash): Episode {
    if log == [] then Out else Watch(n, Watched(n, log[..|log| - 1], h), log[|log| - 1], h)
  }

  lemma WatchedNext(n: nat, log: seq<Action>, a: Action, h: Hash)
    ensures Watched(n, log + [a], h) == Watch(n, Watched(n, log, h), a, h)
  {
    assert (log + [a])[..|log|] == log;
  }

  /** The counter that the limit rests on: an entry has been sent at most as often as its count allows. */
  ghost predicate Good(n: nat, s: State, h: Hash) {
    match Watched(n, s.log, h)
    case Out => h !in s.cache
    case In(byPay, sends) =>
      h in s.cache && sends <= (if s.cache[h] <= n then s.cache[h] else n) + (if byPay then 1 else 0)
    case Broken => false
  }

  /** An entry that may be sent once more before it is counted up. */
  ghost predicate Room(n: nat, s: State, h: Hash) {
    var e := Watched(n, s.log, h);
    e.In? && h in s.cache && s.cache[h] <= n && e.sends + 1 <= s.cache[h] + (if e.byPay then 1 else 0)
  }

  function Sent(w: World, s: State, h: Hash): State { Attempted(w, Asks(Asks(s)), h) }

  lemma OtherHash(n: nat, s: State, a: Action, h: Hash)
    requires Watch(n, Watched(n, s.log, h), a, h) == Watched(n, s.log, h)
    ensures Good(n, Does(s, a), h) == Good(n, s, h)
  {
    WatchedNext(n, s.log, a, h);
  }

  lemma RemovedGood(n: nat, s: State, k: Hash, h: Hash)
    requires Good(n, s, h)
    ensures Good(n, Removed(s, k), h)
  {
    WatchedNext(n, s.log, Leave(k), h);
  }

  /** Counting an entry up makes room for one more send, unless the retries are used up. */
  lemma CountedGood(n: nat, s: State, k: Hash, h: Hash)
    requires Good(n, s, h)
    ensures Good(n, Counted(s, k), h)
    ensures k == h && Retryable(n, Counted(s, k).cache[h]) ==> Room(n, Counted(s, k), h)
  {
    WatchedNext(n, s.log, Enter(k, false), h);
  }

  lemma SentGood(n: nat, w: World, s: State, k: Hash, h: Hash)
    requires Good(n, s, h) && (k == h ==> Room(n, s, h))
    ensures Good(n, Sent(w, s, k), h)
  {
    WatchedNext(n, s.log, Send(k), h);
    WatchedNext(n, s.log + [Send(k)], Answered(k, w.send(s.asked + 2)), h);
  }

  lemma AskedGood(n: nat, s: State, asked: nat, h: Hash)
    requires Good(n, s, h)
    ensures Good(n, s.(asked := asked), h)
  {
  }

  /** The cases of a retry, once counted. */
  lemma RetryPayCases(n: nat, w: World, s: State, k: Hash)
    ensures var s0, r := Counted(s, k), RetryPay(n, w, s, k).0;
      if !Retryable(n, s0.cache[k]) || w.expired(s0.asked) || !w.route(s0.asked + 1) then
        exists asked :: r == s0.(asked := asked)
      else if w.send(s0.asked + 2) in {AllFailedRetrySafe, PartialFailure(true)} then
        r == RetryPay(n, w, Sent(w, s0, k), k).0
      else r == Sent(w, s0, k)
  {
    var s0, r := Counted(s, k), RetryPay(n, w, s, k).0;
    if !Retryable(n, s0.cache[k]) || w.expired(s0.asked) || !w.route(s0.asked + 1) {
      assert r == s0.(asked := r.asked);
    }
  }

  lemma {:induction false} RetryPayGood(n: nat, w: World, s: State, k: Hash, h: Hash)
    requires Good(n, s, h)
    ensures Good(n, RetryPay(n, w, s, k).0, h)
    decreases Left(n, Count(s, k))
  {
    var s0, r := Counted(s, k), RetryPay(n, w, s, k).0;
    CountedGood(n, s, k, h);
    RetryPayCases(n, w, s, k);
    if !Retryable(n, s0.cache[k]) || w.expired(s0.asked) || !w.route(s0.asked + 1) {
      var asked :| r == s0.(asked := asked);
      AskedGood(n, s0, asked, h);
    } else {
      SentGood(n, w, s0, k, h);
      if w.send(s0.asked + 2) in {AllFailedRetrySafe, PartialFailure(true)} {
        RetryPayGood(n, w, Sent(w, s0, k), k, h);
      }
    }
  }

  /** The cases of a first payment. */
  lemma PayCases(n: nat, w: World, s: State, k: Hash)
    requires k in s.cache
    ensures var r, answer := Pay(n, w, s, k).0, w.send(s.asked + 2);
      if w.expired(s.asked) || !w.route(s.asked + 1) then exists asked :: r == s.(asked := asked)
      else if answer == AllFailedRetrySafe then
        r == if Retryable(n, s.cache[k] + 1) then Pay(n, w, Counted(Sent(w, s, k), k), k).0
             else Counted(Sent(w, s, k), k)
      else if answer == PartialFailure(true) then r == RetryPay(n, w, Sent(w, s, k), k).0
      else r == Sent(w, s, k)
  {
    var r := Pay(n, w, s, k).0;
    if w.expired(s.asked) || !w.route(s.asked + 1) { assert r == s.(asked := r.asked); }
  }

  lemma {:induction false} PayGood(n: nat, w: World, s: State, k: Hash, h: Hash)
    requires k in s.cache && Good(n, s, h) && (k == h ==> Room(n, s, h))
    ensures Good(n, Pay(n, w, s, k).0, h)
    decreases Left(n, s.cache[k])
  {
    var r := Pay(n, w, s, k).0;
    PayCases(n, w, s, k);
    if w.expired(s.asked) || !w.route(s.asked + 1) {
      var asked :| r == s.(asked := asked);
      AskedGood(n, s, asked, h);
    } else {
      var s3, answer := Sent(w, s, k), w.send(s.asked + 2);
      SentGood(n, w, s, k, h);
      if answer == AllFailedRetrySafe {
        CountedGood(n, s3, k, h);
        if Retryable(n, s.cache[k] + 1) { PayGood(n, w, Counted(s3, k), k, h); }
      } else if answer == PartialFailure(true) {
        RetryPayGood(n, w, s3, k, h);
      }
    }
  }

  lemma PayNewGood(n: nat, w: World, s: State, k: Hash, h: Hash)
    requires Good(n, s, h)
    ensures Good(n, PayNew(n, w, s, k).0, h)
  {
    if k !in s.cache {
      var s1 := Does(s.(cache := s.cache[k := 0]), Enter(k, true));
      WatchedNext(n, s.log, Enter(k, true), h);
      PayGood(n, w, s1, k, h);
      RemovedGood(n, Pay(n, w, s1, k).0, k, h);
    }
  }

  lemma HandleGood(n: nat, w: World, s: State, e: Event, h: Hash)
    requires Good(n, s, h)
    ensures Good(n, Handle(n, w, s, e), h)
  {
    match e
    case PaymentPathFailed(k, hasId, rejected, hasRetry) =>
      RetryPayGood(n, w, s, k, h);
      var r := RetryPay(n, w, s, k).0;
      OtherHash(n, s, Abandon(k), h);
      OtherHash(n, s, Forward(e), h);
      OtherHash(n, Does(s, Abandon(k)), Forward(e), h);
      OtherHash(n, r, Abandon(k), h);
      OtherHash(n, Does(r, Abandon(k)), Forward(e), h);
    case PaymentFailed(k) => RemovedGood(n, s, k, h); OtherHash(n, Removed(s, k), Forward(e), h);
    case PaymentSent(k) => RemovedGood(n, s, k, h); OtherHash(n, Removed(s, k), Forward(e), h);
    case OtherEvent => OtherHash(n, s, Forward(e), h);
  }

  // ---------- Whole runs ----------

  datatype Command =
    | PayInvoice(hash: Hash, hasAmount: bool)
    | PayZeroValueInvoice(hash: Hash, hasAmount: bool)
    | PayPubkey(hash: Hash)
    | HandleEvent(event: Event)
    | RemoveCachedPayment(hash: Hash)

  function Execute(n: nat, w: World, s: State, c: Command): State {
    match c
    case PayInvoice(h, hasAmount) => if hasAmount then PayNew(n, w, s, h).0 else s
    case PayZeroValueInvoice(h, hasAmount) => if hasAmount then s else PayNew(n, w, s, h).0
    case PayPubkey(h) => PayNew(n, w, s, h).0
    case HandleEvent(e) => Handle(n, w, s, e)
    case RemoveCachedPayment(h) => Removed(s, h)
  }

  function ExecuteAll(n: nat, w: World, cs: seq<Command>): State {
    if cs == [] then State(map[], [], 0) else Execute(n, w, ExecuteAll(n, w, cs[..|cs| - 1]), cs[|cs| - 1])
  }

  lemma {:induction false} EveryRunGood(n: nat, w: World, cs: seq<Command>, h: Hash)
    ensures Good(n, ExecuteAll(n, w, cs), h)
  {
    if cs != [] {
      var s, c := ExecuteAll(n, w, cs[..|cs| - 1]), cs[|cs| - 1];
      EveryRunGood(n, w, cs[..|cs| - 1], h);
      match c
      case PayInvoice(k, _) => PayNewGood(n, w, s, k, h);
      case PayZeroValueInvoice(k, _) => PayNewGood(n, w, s, k, h);
      case PayPubkey(k) => PayNewGood(n, w, s, k, h);
      case HandleEvent(e) => HandleGood(n, w, s, e, h);
      case RemoveCachedPayment(k) => RemovedGood(n, s, k, h);
    }
  }

  /** How often a hash is sent in a stretch of the log. */
  function Sends(log: seq<Action>, h: Hash): nat { |set i | 0 <= i < |log| && log[i] == Send(h)| }

  lemma SendsNext(log: seq<Action>, a: Action, h: Hash)
    ensures Sends(log + [a], h) == Sends(log, h) + if a == Send(h) then 1 else 0
  {
    var before := set i | 0 <= i < |log| && log[i] == Send(h);
    var after := set i | 0 <= i < |log + [a]| && (log + [a])[i] == Send(h);
    assert after == if a == Send(h) then before + {|log|} else before;
  }

  lemma {:induction false} PrefixNotBroken(n: nat, log: seq<Action>, j: nat, h: Hash)
    requires j <= |log| && !Watched(n, log, h).Broken?
    ensures !Watched(n, log[..j], h).Broken?
    decreases |log|
  {
    if j == |log| {
      assert log[..j] == log;
    } else {
      PrefixNotBroken(n, log[..|log| - 1], j, h);
      assert log[..|log| - 1][..j] == log[..j];
    }
  }

  lemma {:induction false} StretchCounts(n: nat, log: seq<Action>, i: nat, h: Hash)
    requires i < |log| && log[i].Enter? && log[i].hash == h
    requires forall j :: i <= j < |log| ==> log[j] != Leave(h)
    requires !Watched(n, log, h).Broken?
    ensures Watched(n, log, h) == In(log[i].byPay, Sends(log[i + 1..], h))
    ensures Sends(log[i + 1..], h) <= Limit(n, log[i].byPay)
    decreases |log|
  {
    var front, last := log[..|log| - 1], log[|log| - 1];
    assert log == front + [last];
    WatchedNext(n, front, last, h);
    if i == |log| - 1 {
      assert log[i + 1..] == [];
    } else {
      StretchCounts(n, front, i, h);
      assert log[i + 1..] == front[i + 1..] + [last];
      SendsNext(front[i + 1..], last, h);
    }
  }

  /**
   Whatever the payer, router, clock and events do: from the moment a hash enters the cache until
   it leaves, it is sent at most `n + 1` times, or `n` times when a failure event created the entry.
   */
  lemma RetryLimit(n: nat, w: World, cs: seq<Command>, h: Hash, i: nat, j: nat)
    requires var log := ExecuteAll(n, w, cs).log;
      i < j <= |log| && log[i].Enter? && log[i].hash == h && forall k :: i <= k < j ==> log[k] != Leave(h)
    ensures var log := ExecuteAll(n, w, cs).log;
      Sends(log[i + 1..j], h) <= Limit(n, log[i].byPay)
  {
    var log := ExecuteAll(n, w, cs).log;
    EveryRunGood(n, w, cs, h);
    PrefixNotBroken(n, log, j, h);
    StretchCounts(n, log[..j], i, h);
    assert log[..j][i + 1..] == log[i + 1..j];
  }

  lemma {:induction false} InsideAnEntry(n: nat, log: seq<Action>, h: Hash) returns (i: nat)
    requires Watched(n, log, h).In?
    ensures i < |log| && log[i].Enter? && log[i].hash == h
    ensures forall k :: i <= k < |log| ==> log[k] != Leave(h)
  {
    var front, last := log[..|log| - 1], log[|log| - 1];
    if last.Enter? && last.hash == h {
      i := |log| - 1;
    } else {
      i := InsideAnEntry(n, front, h);
    }
  }

  /** Nothing is ever sent for a hash that is not in the cache at that moment. */
  lemma SendsOnlyWhileCached(n: nat, w: World, cs: seq<Command>, h: Hash, j: nat) returns (i: nat)
    requires j < |ExecuteAll(n, w, cs).log| && ExecuteAll(n, w, cs).log[j] == Send(h)
    ensures var log := ExecuteAll(n, w, cs).log;
      i < j && log[i].Enter? && log[i].hash == h && forall k :: i <= k < j ==> log[k] != Leave(h)
  {
    var log := ExecuteAll(n, w, cs).log;
    EveryRunGood(n, w, cs, h);
    PrefixNotBroken(n, log, j + 1, h);
    assert log[..j + 1] == log[..j] + [Send(h)];
    WatchedNext(n, log[..j], Send(h), h);
    i := InsideAnEntry(n, log[..j], h);
  }

  // ---------- What one call leaves behind ----------

  /** Only the paid hash's entry can change, and it is kept. */
  lemma {:induction false} RetryPayFrame(n: nat, w: World, s: State, h: Hash)
    ensures var r := RetryPay(n, w, s, h).0; h in r.cache && r.cache - {h} == s.cache - {h} && s.log <= r.log
    decreases Left(n, Count(s, h))
  {
    var s0 := Counted(s, h);
    RetryPayCases(n, w, s, h);
    if Retryable(n, s0.cache[h]) && !w.expired(s0.asked) && w.route(s0.asked + 1)
       && w.send(s0.asked + 2) in {AllFailedRetrySafe, PartialFailure(true)}
    {
      RetryPayFrame(n, w, Sent(w, s0, h), h);
    }
  }

  lemma {:induction false} PayFrame(n: nat, w: World, s: State, h: Hash)
    requires h in s.cache
    ensures var r := Pay(n, w, s, h); h in r.0.cache && r.0.cache - {h} == s.cache - {h}
    decreases Left(n, s.cache[h])
  {
    if !w.expired(s.asked) && w.route(s.asked + 1) {
      var s3 := Sent(w, s, h);
      match w.send(s.asked + 2)
      case AllFailedRetrySafe => if Retryable(n, s.cache[h] + 1) { PayFrame(n, w, Counted(s3, h), h); }
      case PartialFailure(retry) => if retry { RetryPayFrame(n, w, s3, h); }
      case _ =>
    }
  }

  /**
   A failed pay call leaves the cache exactly as it found it; a successful one adds its own entry
   and nothing else.
   */
  lemma PayNewFrame(n: nat, w: World, s: State, h: Hash)
    ensures var r := PayNew(n, w, s, h);
      if r.1.Failed? then r.0.cache == s.cache
      else h !in s.cache && h in r.0.cache && r.0.cache - {h} == s.cache
  {
    if h !in s.cache {
      var s1 := Does(s.(cache := s.cache[h := 0]), Enter(h, true));
      PayFrame(n, w, s1, h);
      assert s1.cache - {h} == s.cache;
    }
  }

  /** A settled payment leaves the cache; a failed path touches at most its own entry, and only to retry it. */
  lemma HandleFrame(n: nat, w: World, s: State, e: Event)
    ensures var cache := Handle(n, w, s, e).cache;
      match e
      case PaymentFailed(h) => cache == s.cache - {h}
      case PaymentSent(h) => cache == s.cache - {h}
      case PaymentPathFailed(h, hasId, rejected, hasRetry) =>
        cache - {h} == s.cache - {h} && (if hasId && !rejected && hasRetry then h in cache else cache == s.cache)
      case OtherEvent => cache == s.cache
  {
    if e.PaymentPathFailed? { RetryPayFrame(n, w, s, e.hash); }
  }

  /** A retry does nothing but enter its hash into the cache and send it. */
  lemma {:induction false} RetryPayActs(n: nat, w: World, s: State, h: Hash, i: nat)
    requires |s.log| <= i < |RetryPay(n, w, s, h).0.log|
    ensures RetryPay(n, w, s, h).0.log[i] in {Enter(h, false), Send(h)} || RetryPay(n, w, s, h).0.log[i].Answered?
    decreases Left(n, Count(s, h))
  {
    var s0 := Counted(s, h);
    RetryPayCases(n, w, s, h);
    if Retryable(n, s0.cache[h]) && !w.expired(s0.asked) && w.route(s0.asked + 1)
       && w.send(s0.asked + 2) in {AllFailedRetrySafe, PartialFailure(true)}
    {
      RetryPayFrame(n, w, Sent(w, s0, h), h);
      if i >= |Sent(w, s0, h).log| { RetryPayActs(n, w, Sent(w, s0, h), h, i); }
    }
  }

  /** What an event added to the log. */
  function NewActions(n: nat, w: World, s: State, e: Event): seq<Action> {
    if |s.log| <= |Handle(n, w, s, e).log| then Handle(n, w, s, e).log[|s.log|..] else []
  }

  /**
   The payer is told to give a payment up exactly when a failure of one of its paths, known by its
   id, reaches the user.
   */
  lemma AbandonedIffForwarded(n: nat, w: World, s: State, e: Event, h: Hash)
    ensures Abandon(h) in NewActions(n, w, s, e) <==>
      e.PaymentPathFailed? && e.hasId && e.hash == h && Forward(e) in NewActions(n, w, s, e)
  {
    var t := Handle(n, w, s, e);
    if e.PaymentPathFailed? && e.hasId && !e.rejectedByDest && e.hasRetry {
      var r := RetryPay(n, w, s, e.hash);
      RetryPayFrame(n, w, s, e.hash);
      var added := r.0.log[|s.log|..];
      forall i | 0 <= i < |added| ensures added[i] in {Enter(e.hash, false), Send(e.hash)} || added[i].Answered? {
        RetryPayActs(n, w, s, e.hash, |s.log| + i);
      }
      assert NewActions(n, w, s, e) == if r.1 then added else added + [Abandon(e.hash), Forward(e)];
    } else if e.PaymentPathFailed? {
      assert NewActions(n, w, s, e) == if e.hasId then [Abandon(e.hash), Forward(e)] else [Forward(e)];
    } else {
      assert forall i :: |s.log| <= i < |t.log| ==> !t.log[i].Abandon?;
    }
  }

  // ---------- Success means that money is in flight ----------

  predicate InFlight(a: Action) { a.Answered? && (a.answer.Accepted? || a.answer.PartialFailure?) }

  /** Whether some attempt since the first `from` actions left money in flight. */
  ghost predicate SomeInFlight(log: seq<Action>, from: nat) {
    exists i :: from <= i < |log| && InFlight(log[i])
  }

  lemma {:induction false} RetryPayOkIff(n: nat, w: World, s: State, h: Hash)
    ensures RetryPay(n, w, s, h).1 <==> SomeInFlight(RetryPay(n, w, s, h).0.log, |s.log|)
    decreases Left(n, Count(s, h))
  {
    var s0, r := Counted(s, h), RetryPay(n, w, s, h);
    RetryPayCases(n, w, s, h);
    if Retryable(n, s0.cache[h]) && !w.expired(s0.asked) && w.route(s0.asked + 1) {
      var s3, answer := Sent(w, s0, h), w.send(s0.asked + 2);
      assert s3.log[|s0.log| + 1] == Answered(h, answer);
      RetryPayFrame(n, w, s3, h);
      if answer == AllFailedRetrySafe {
        RetryPayOkIff(n, w, s3, h);
        if i :| |s.log| <= i < |r.0.log| && InFlight(r.0.log[i]) { assert i >= |s3.log|; }
      } else if answer.Accepted? || answer.PartialFailure? {
        assert InFlight(r.0.log[|s0.log| + 1]);
      }
    }
  }

  lemma {:induction false} PayPaidIff(n: nat, w: World, s: State, h: Hash)
    requires h in s.cache
    ensures Pay(n, w, s, h).1.Paid? <==> SomeInFlight(Pay(n, w, s, h).0.log, |s.log|)
    ensures s.log <= Pay(n, w, s, h).0.log
    decreases Left(n, s.cache[h])
  {
    var r := Pay(n, w, s, h);
    PayCases(n, w, s, h);
    if !w.expired(s.asked) && w.route(s.asked + 1) {
      var s3, answer := Sent(w, s, h), w.send(s.asked + 2);
      assert s3.log[|s.log| + 1] == Answered(h, answer);
      if answer == AllFailedRetrySafe {
        if Retryable(n, s.cache[h] + 1) {
          PayPaidIff(n, w, Counted(s3, h), h);
          if i :| |s.log| <= i < |r.0.log| && InFlight(r.0.log[i]) { assert i >= |s3.log|; }
        }
      } else if answer.Accepted? || answer.PartialFailure? {
        RetryPayFrame(n, w, s3, h);
        assert InFlight(r.0.log[|s.log| + 1]);
      }
    }
  }

  /** A pay call reports success exactly when one of its attempts left money in flight. */
  lemma PaidIffInFlight(n: nat, w: World, s: State, h: Hash)
    ensures PayNew(n, w, s, h).1.Paid? <==> SomeInFlight(PayNew(n, w, s, h).0.log, |s.log|)
  {
    if h !in s.cache {
      var s1 := Does(s.(cache := s.cache[h := 0]), Enter(h, true));
      PayPaidIff(n, w, s1, h);
      var r, t := Pay(n, w, s1, h).0, PayNew(n, w, s, h).0;
      assert forall i :: |s.log| <= i < |t.log| && InFlight(t.log[i]) ==>
        |s1.log| <= i < |r.log| && r.log[i] == t.log[i];
      assert forall i :: |s1.log| <= i < |r.log| ==> t.log[i] == r.log[i];
    }
  }

  /** An event is withheld from the user exactly when handling it left money in flight. */
  lemma WithheldIffInFlight(n: nat, w: World, s: State, e: Event)
    ensures var t := Handle(n, w, s, e).log; !(t != [] && t[|t| - 1] == Forward(e)) <==> SomeInFlight(t, |s.log|)
  {
    var t := Handle(n, w, s, e).log;
    if e.PaymentPathFailed? && e.hasId && !e.rejectedByDest && e.hasRetry {
      var r := RetryPay(n, w, s, e.hash);
      RetryPayOkIff(n, w, s, e.hash);
      RetryPayFrame(n, w, s, e.hash);
      if r.1 {
        RetryPayActs(n, w, s, e.hash, |t| - 1);
      } else {
        assert forall i :: |s.log| <= i < |r.0.log| ==> t[i] == r.0.log[i];
      }
    }
  }

  // ---------- The limit is reached ----------

  ghost predicate AlwaysFails(w: World) {
    forall i :: !w.expired(i) && w.route(i) && w.send(i) == AllFailedRetrySafe
  }

  lemma {:induction false} PaySendsAll(n: nat, w: World, s: State, h: Hash)
    requires AlwaysFails(w) && h in s.cache && s.cache[h] <= n
    ensures var r := Pay(n, w, s, h); r.1 == Failed(Sending(AllFailedRetrySafe)) && h in r.0.cache
    ensures Sends(Pay(n, w, s, h).0.log, h) == Sends(s.log, h) + n + 1 - s.cache[h]
    decreases Left(n, s.cache[h])
  {
    var s3 := Sent(w, s, h);
    SendsNext(s.log, Send(h), h);
    SendsNext(s.log + [Send(h)], Answered(h, w.send(s.asked + 2)), h);
    assert w.send(s.asked + 2) == AllFailedRetrySafe && w.route(s.asked + 1) && !w.expired(s.asked);
    if s.cache[h] < n { PaySendsAll(n, w, Counted(s3, h), h); }
  }

  /** With a payer that always reports a safe total failure, a pay call sends exactly `n + 1` times and gives up. */
  lemma LimitIsReached(n: nat, w: World, h: Hash)
    requires AlwaysFails(w)
    ensures var s := ExecuteAll(n, w, [PayPubkey(h)]); Sends(s.log, h) == n + 1 && h !in s.cache
  {
    var s0 := State(map[], [], 0);
    var s1 := Does(s0.(cache := s0.cache[h := 0]), Enter(h, true));
    SendsNext([], Enter(h, true), h);
    assert [] + [Enter(h, true)] == s1.log;
    PaySendsAll(n, w, s1, h);
    SendsNext(Pay(n, w, s1, h).0.log, Leave(h), h);
    assert [PayPubkey(h)][..0] == [];
    assert ExecuteAll(n, w, [PayPubkey(h)]) == PayNew(n, w, s0, h).0;
  }

  // ---------- How often a call sends ----------

  /** Sends of a retry that asks its next question as number `asked`, for an entry counted `count` times so far. */
  function Retries(n: nat, w: World, asked: nat, count: nat): nat
    decreases Left(n, count)
  {
    if count + 1 > n || w.expired(asked) || !w.route(asked + 1) then 0
    else if w.send(asked + 2) in {AllFailedRetrySafe, PartialFailure(true)} then 1 + Retries(n, w, asked + 3, count + 1)
    else 1
  }

  /** Sends of a first payment: like a retry, but the first attempt is free. */
  function Attempts(n: nat, w: World, asked: nat, count: nat): nat
    decreases Left(n, count)
  {
    if w.expired(asked) || !w.route(asked + 1) then 0
    else match w.send(asked + 2)
      case AllFailedRetrySafe => 1 + if count + 1 <= n then Attempts(n, w, asked + 3, count + 1) else 0
      case PartialFailure(true) => 1 + Retries(n, w, asked + 3, count)
      case _ => 1
  }

  lemma SentCounts(w: World, s: State, h: Hash)
    ensures Sends(Sent(w, s, h).log, h) == Sends(s.log, h) + 1
  {
    SendsNext(s.log, Send(h), h);
    SendsNext(s.log + [Send(h)], Answered(h, w.send(s.asked + 2)), h);
  }

  lemma CountedSends(s: State, h: Hash)
    ensures Sends(Counted(s, h).log, h) == Sends(s.log, h) && Counted(s, h).cache[h] == Count(s, h) + 1
    ensures Counted(s, h).asked == s.asked
  {
    SendsNext(s.log, Enter(h, false), h);
  }

  lemma {:induction false} RetryPaySends(n: nat, w: World, s: State, h: Hash)
    ensures Sends(RetryPay(n, w, s, h).0.log, h) == Sends(s.log, h) + Retries(n, w, s.asked, Count(s, h))
    decreases Left(n, Count(s, h))
  {
    var s0 := Counted(s, h);
    RetryPayCases(n, w, s, h);
    CountedSends(s, h);
    if Retryable(n, s0.cache[h]) && !w.expired(s0.asked) && w.route(s0.asked + 1) {
      SentCounts(w, s0, h);
      if w.send(s0.asked + 2) in {AllFailedRetrySafe, PartialFailure(true)} { RetryPaySends(n, w, Sent(w, s0, h), h); }
    }
  }

  lemma SentAgain(w: World, s: State, h: Hash)
    requires h in s.cache
    ensures var t := Counted(Sent(w, s, h), h);
      && h in t.cache && t.cache[h] == s.cache[h] + 1 && t.asked == s.asked + 3
      && Sends(t.log, h) == Sends(s.log, h) + 1
  {
    SentCounts(w, s, h);
  }

  lemma {:induction false} PaySends(n: nat, w: World, s: State, h: Hash)
    requires h in s.cache
    ensures Sends(Pay(n, w, s, h).0.log, h) == Sends(s.log, h) + Attempts(n, w, s.asked, s.cache[h])
    decreases Left(n, s.cache[h])
  {
    var answer := w.send(s.asked + 2);
    PayCases(n, w, s, h);
    if w.expired(s.asked) || !w.route(s.asked + 1) {
      assert Attempts(n, w, s.asked, s.cache[h]) == 0;
    } else if answer == AllFailedRetrySafe {
      SentAgain(w, s, h);
      if Retryable(n, s.cache[h] + 1) { PaySends(n, w, Counted(Sent(w, s, h), h), h); }
    } else if answer == PartialFailure(true) {
      SentCounts(w, s, h);
      RetryPaySends(n, w, Sent(w, s, h), h);
    } else {
      SentCounts(w, s, h);
    }
  }

  /** A pay call for a hash that is not pending makes exactly its attempts; for one that is, none. */
  lemma PayNewSends(n: nat, w: World, s: State, h: Hash)
    ensures Sends(PayNew(n, w, s, h).0.log, h) ==
      Sends(s.log, h) + if h in s.cache then 0 else Attempts(n, w, s.asked, 0)
  {
    if h !in s.cache {
      var s1 := Does(s.(cache := s.cache[h := 0]), Enter(h, true));
      SendsNext(s.log, Enter(h, true), h);
      PaySends(n, w, s1, h);
      SendsNext(Pay(n, w, s1, h).0.log, Leave(h), h);
    }
  }

  /** What a pay call reports, by what it met first. */
  lemma PayNewOutcome(n: nat, w: World, s: State, h: Hash)
    ensures var r, answer := PayNew(n, w, s, h).1, w.send(s.asked + 2);
      if h in s.cache then r == Failed(PaymentPending)
      else if w.expired(s.asked) then r == Failed(Expired)
      else if !w.route(s.asked + 1) then r == Failed(Routing)
      else if answer in {ParameterError, PathParameterError} then r == Failed(Sending(answer))
      else answer != AllFailedRetrySafe ==> r == Paid
  {
  }

  predicate AsksForRetry(e: Event) { e.PaymentPathFailed? && e.hasId && !e.rejectedByDest && e.hasRetry }

  /** A failed path is sent again exactly as often as retries are left and routes and time allow; nothing else sends. */
  lemma EventSends(n: nat, w: World, s: State, e: Event, h: Hash)
    ensures Sends(Handle(n, w, s, e).log, h) ==
      Sends(s.log, h) + if AsksForRetry(e) && e.hash == h then Retries(n, w, s.asked, Count(s, h)) else 0
  {
    var t := if AsksForRetry(e) then RetryPay(n, w, s, e.hash).0 else s;
    if AsksForRetry(e) {
      if e.hash == h { RetryPaySends(n, w, s, h); } else { OtherHashUnsent(n, w, s, e.hash, h); }
    }
    if !e.OtherEvent? {
      SendsNext(s.log, Leave(e.hash), h);
      SendsNext(Removed(s, e.hash).log, Forward(e), h);
      SendsNext(t.log, Abandon(e.hash), h);
      SendsNext(t.log + [Abandon(e.hash)], Forward(e), h);
    }
    SendsNext(s.log, Forward(e), h);
  }

  lemma {:induction false} OtherHashUnsent(n: nat, w: World, s: State, k: Hash, h: Hash)
    requires k != h
    ensures Sends(RetryPay(n, w, s, k).0.log, h) == Sends(s.log, h)
    decreases Left(n, Count(s, k))
  {
    var s0 := Counted(s, k);
    RetryPayCases(n, w, s, k);
    SendsNext(s.log, Enter(k, false), h);
    if Retryable(n, s0.cache[k]) && !w.expired(s0.asked) && w.route(s0.asked + 1) {
      SendsNext(s0.log, Send(k), h);
      SendsNext(s0.log + [Send(k)], Answered(k, w.send(s0.asked + 2)), h);
      if w.send(s0.asked + 2) in {AllFailedRetrySafe, PartialFailure(true)} {
        OtherHashUnsent(n, w, Sent(w, s0, k), k, h);
      }
    }
  }

  /**
   A failed path is sent again exactly when it asks for a retry, one is left, the payment has not
   expired and a route is found; and if the payer accepts it, the user does not hear of the event.
   */
  lemma RetriedIff(n: nat, w: World, s: State, e: Event)
    requires e.PaymentPathFailed?
    ensures Sends(Handle(n, w, s, e).log, e.hash) > Sends(s.log, e.hash) <==>
      AsksForRetry(e) && Count(s, e.hash) + 1 <= n && !w.expired(s.asked) && w.route(s.asked + 1)
    ensures var t, retried := Handle(n, w, s, e).log, Sends(Handle(n, w, s, e).log, e.hash) > Sends(s.log, e.hash);
      retried && w.send(s.asked + 2) == Accepted ==> Forward(e) !in t[|s.log|..] && Abandon(e.hash) !in t[|s.log|..]
  {
    EventSends(n, w, s, e, e.hash);
    var s0 := Counted(s, e.hash);
    RetryPayCases(n, w, s, e.hash);
    if AsksForRetry(e) && Count(s, e.hash) + 1 <= n && !w.expired(s.asked) && w.route(s.asked + 1)
       && w.send(s.asked + 2) == Accepted
    {
      assert Handle(n, w, s, e) == Sent(w, s0, e.hash);
      assert s0.log == s.log || s0.log == s.log + [Enter(e.hash, false)];
    }
  }

  /** An event for a payment that keeps failing safely uses up every retry that is left. */
  lemma {:induction false} EventUsesAllRetries(n: nat, w: World, asked: nat, count: nat)
    requires AlwaysFails(w)
    ensures Retries(n, w, asked, count) == if count <= n then n - count else 0
    decreases Left(n, count)
  {
    assert !w.expired(asked) && w.route(asked + 1) && w.send(asked + 2) == AllFailedRetrySafe;
    if count + 1 <= n { EventUsesAllRetries(n, w, asked + 3, count + 1); }
  }
}
