/** What a gossip stream means for the graph, independently of the order in which it is processed. */
module RapidGossipLaws {
  import opened Prelude
  import opened Integers
  import opened RapidGossip

  // ---------- The items of a section ----------

  /** The items a section went through, up to the first failure. */
  function Trace<A>(step: Step<A>, n: nat, c: Cursor): seq<A> {
    if n == 0 then []
    else match step(c)
      case Err(_) => []
      case Ok(x) => [x.item] + Trace(step, n - 1, x.cursor)
  }

  /** A section succeeds exactly when it went through all of its items. */
  lemma {:induction false} SectionCounted<A>(step: Step<A>, n: nat, c: Cursor)
    ensures Loop(step, n, c).rest.Ok? <==> |Trace(step, n, c)| == n
    ensures |Trace(step, n, c)| <= n
  {
    if n > 0 && step(c).Ok? { SectionCounted(step, n - 1, step(c).value.cursor); }
  }

  /** The sum of the first `n` deltas. */
  function Sum(ds: seq<nat>, n: nat): nat
    requires n <= |ds|
  {
    if n == 0 then 0 else ds[0] + Sum(ds[1..], n - 1)
  }

  lemma SumCons(d: nat, ds: seq<nat>, n: nat)
    requires n <= |ds|
    ensures Sum([d] + ds, n + 1) == d + Sum(ds, n)
  {
    assert ([d] + ds)[1..] == ds;
  }

  function Mapped<A>(xs: seq<A>, f: A -> nat): (ds: seq<nat>)
    ensures |ds| == |xs|
  {
    seq(|xs|, i requires 0 <= i < |xs| => f(xs[i]))
  }

  /** A step moves the running channel id forward by its item's delta, without wrapping. */
  ghost predicate Adds<A(!new)>(step: Step<A>, delta: A -> nat, scid: A -> nat) {
    forall c: Cursor :: step(c).Ok? ==>
      var x := step(c).value; x.cursor.previous == scid(x.item) == c.previous + delta(x.item) < U64
  }

  lemma {:induction false} IdsAreRunningSums<A(!new)>(
    step: Step<A>, delta: A -> nat, scid: A -> nat, n: nat, c: Cursor, i: nat)
    requires Adds(step, delta, scid) && i < |Trace(step, n, c)|
    ensures scid(Trace(step, n, c)[i]) == c.previous + Sum(Mapped(Trace(step, n, c), delta), i + 1) < U64
    decreases n
  {
    var x := step(c).value;
    var more := Trace(step, n - 1, x.cursor);
    assert Mapped([x.item] + more, delta) == [delta(x.item)] + Mapped(more, delta);
    SumCons(delta(x.item), Mapped(more, delta), i);
    if i > 0 { IdsAreRunningSums(step, delta, scid, n - 1, x.cursor, i - 1); }
  }

  lemma {:induction false} ItemsAll<A(!new)>(step: Step<A>, p: A -> bool, n: nat, c: Cursor, i: nat)
    requires (forall c: Cursor :: step(c).Ok? ==> p(step(c).value.item)) && i < |Trace(step, n, c)|
    ensures p(Trace(step, n, c)[i])
    decreases n
  {
    if i > 0 { ItemsAll(step, p, n - 1, step(c).value.cursor, i - 1); }
  }

  // ---------- The announcements ----------

  function Announcements(ids: seq<Key>, timestamp: nat, n: nat, c: Cursor): seq<Announcement> {
    Trace(Announcing(ids, timestamp), n, c)
  }

  predicate Indexes(x: Announcement, ids: seq<Key>) {
    x.first < |ids| && x.second < |ids| && ids[x.first] != ids[x.second]
  }

  lemma AnnounceDecodes(ids: seq<Key>, timestamp: nat, c: Cursor)
    requires Announce(ids, timestamp, c).Ok?
    ensures var a := Announce(ids, timestamp, c).value;
      a.cursor.previous == a.item.scid == c.previous + a.item.delta < U64 && Indexes(a.item, ids)
  {
  }

  /** Each announced id is the sum of all deltas up to its own, without wrapping, and both node indices are in range. */
  lemma AnnouncementsDecoded(ids: seq<Key>, timestamp: nat, n: nat, c: Cursor, i: nat)
    requires i < |Announcements(ids, timestamp, n, c)|
    ensures var xs := Announcements(ids, timestamp, n, c);
      xs[i].scid == c.previous + Sum(Mapped(xs, (x: Announcement) => x.delta), i + 1) < U64 && Indexes(xs[i], ids)
  {
    var step, p := Announcing(ids, timestamp), (x: Announcement) => Indexes(x, ids);
    forall c: Cursor | step(c).Ok?
      ensures var a := step(c).value; a.cursor.previous == a.item.scid == c.previous + a.item.delta < U64 && p(a.item)
    {
      AnnounceDecodes(ids, timestamp, c);
    }
    IdsAreRunningSums(step, (x: Announcement) => x.delta, (x: Announcement) => x.scid, n, c, i);
    ItemsAll(step, p, n, c, i);
  }

  /** The first announcement of a channel, as it enters the graph. */
  function FirstAnnounced(xs: seq<Announcement>, ids: seq<Key>, timestamp: nat, scid: nat): Option<Channel> {
    if xs == [] then None
    else if xs[0].scid == scid && xs[0].first < |ids| && xs[0].second < |ids| then
      Some(Channel(ids[xs[0].first], ids[xs[0].second], xs[0].features, timestamp, None, None, None))
    else FirstAnnounced(xs[1..], ids, timestamp, scid)
  }

  function Lookup(g: Graph, scid: nat): Option<Channel> { if scid in g then Some(g[scid]) else None }

  /** Steps that leave known channels alone and add the announced one. */
  predicate AddsChannel(ids: seq<Key>, timestamp: nat, g: Graph, a: Next<Announcement>, scid: nat) {
    Indexes(a.item, ids) && Lookup(a.cursor.graph, scid) ==
    if scid in g then Some(g[scid])
    else if a.item.scid == scid then FirstAnnounced([a.item], ids, timestamp, scid)
    else None
  }

  lemma AnnounceApplies(ids: seq<Key>, timestamp: nat, c: Cursor, scid: nat)
    requires Announce(ids, timestamp, c).Ok?
    ensures AddsChannel(ids, timestamp, c.graph, Announce(ids, timestamp, c).value, scid)
  {
    AnnounceDecodes(ids, timestamp, c);
  }

  lemma {:induction false} StepsAddChannels(
    step: Step<Announcement>, ids: seq<Key>, timestamp: nat, n: nat, c: Cursor, scid: nat)
    requires forall c: Cursor :: step(c).Ok? ==> AddsChannel(ids, timestamp, c.graph, step(c).value, scid)
    ensures Lookup(Loop(step, n, c).graph, scid) ==
      if scid in c.graph then Some(c.graph[scid]) else FirstAnnounced(Trace(step, n, c), ids, timestamp, scid)
    decreases n
  {
    if n > 0 && step(c).Ok? {
      var a := step(c).value;
      var more := Trace(step, n - 1, a.cursor);
      assert AddsChannel(ids, timestamp, c.graph, a, scid);
      StepsAddChannels(step, ids, timestamp, n - 1, a.cursor, scid);
      assert ([a.item] + more)[1..] == more;
    }
  }

  /** Known channels stay as they were; a new one is what its first announcement says. */
  lemma AnnouncementsApplied(ids: seq<Key>, timestamp: nat, n: nat, c: Cursor, scid: nat)
    ensures Lookup(Loop(Announcing(ids, timestamp), n, c).graph, scid) ==
      if scid in c.graph then Some(c.graph[scid])
      else FirstAnnounced(Announcements(ids, timestamp, n, c), ids, timestamp, scid)
  {
    var step := Announcing(ids, timestamp);
    forall c: Cursor | step(c).Ok? ensures AddsChannel(ids, timestamp, c.graph, step(c).value, scid) {
      AnnounceApplies(ids, timestamp, c, scid);
    }
    StepsAddChannels(step, ids, timestamp, n, c, scid);
  }

  lemma {:induction false} FirstAnnouncedIsBlank(xs: seq<Announcement>, ids: seq<Key>, timestamp: nat, scid: nat)
    ensures var c := FirstAnnounced(xs, ids, timestamp, scid);
      c.Some? ==> c.value.oneToTwo.None? && c.value.twoToOne.None?
  {
    if xs != [] { FirstAnnouncedIsBlank(xs[1..], ids, timestamp, scid); }
  }

  lemma AnnouncementsStoreNothing(ids: seq<Key>, timestamp: nat, n: nat, c: Cursor, scid: nat, backward: bool)
    ensures Stored(Loop(Announcing(ids, timestamp), n, c).graph, scid, backward) == Stored(c.graph, scid, backward)
  {
    AnnouncementsApplied(ids, timestamp, n, c, scid);
    FirstAnnouncedIsBlank(Announcements(ids, timestamp, n, c), ids, timestamp, scid);
  }

  // ---------- The updates ----------

  function Items(env: Env, x: Context, n: nat, c: Cursor): seq<Item> { Trace(Updating(env, x), n, c) }

  lemma UpdateDecodes(env: Env, x: Context, c: Cursor)
    requires ApplyUpdate(env, x, c).Ok?
    ensures var a := ApplyUpdate(env, x, c).value;
      a.cursor.previous == a.item.update.scid == c.previous + a.item.delta < U64
  {
  }

  /** Each updated id is the sum of all deltas up to its own, without wrapping. */
  lemma UpdatesDecoded(env: Env, x: Context, n: nat, c: Cursor, i: nat)
    requires i < |Items(env, x, n, c)|
    ensures var xs := Items(env, x, n, c);
      xs[i].update.scid == c.previous + Sum(Mapped(xs, (y: Item) => y.delta), i + 1) < U64
  {
    var step := Updating(env, x);
    forall c: Cursor | step(c).Ok?
      ensures var a := step(c).value; a.cursor.previous == a.item.update.scid == c.previous + a.item.delta < U64
    {
      UpdateDecodes(env, x, c);
    }
    IdsAreRunningSums(step, (y: Item) => y.delta, (y: Item) => y.update.scid, n, c, i);
  }

  predicate Hits(x: Item, scid: nat, backward: bool) { x.update.scid == scid && Backward(x.flags) == backward }

  /** The items for one direction of one channel, in order. */
  function HitsOf(xs: seq<Item>, scid: nat, backward: bool): seq<Item> {
    if xs == [] then []
    else if Hits(xs[0], scid, backward) then [xs[0]] + HitsOf(xs[1..], scid, backward)
    else HitsOf(xs[1..], scid, backward)
  }

  lemma {:induction false} HitIsListed(xs: seq<Item>, i: nat, scid: nat, backward: bool)
    requires i < |xs| && Hits(xs[i], scid, backward)
    ensures HitsOf(xs, scid, backward) != []
  {
    if i > 0 { HitIsListed(xs[1..], i - 1, scid, backward); }
  }

  predicate OlderThan(i: Option<Info>, t: nat) { i.Some? ==> i.value.lastUpdate < t }

  lemma ChannelUpdated(g: Graph, u: Update, clock: bool, scid: nat, backward: bool)
    requires UpdateChannel(g, u, clock).Ok?
    ensures var hit := u.scid == scid && Backward(u.flags) == backward;
      && Stored(UpdateChannel(g, u, clock).value, scid, backward) ==
         (if hit then Some(InfoOf(u)) else Stored(g, scid, backward))
      && (hit ==> OlderThan(Stored(g, scid, backward), u.timestamp))
  {
  }

  /** The fields whose mask bit is clear are the base's. */
  predicate DiffersOnlyWhereMasked(base: Fields, flags: nat, f: Fields) {
    && (!Bit(flags, 64) ==> f.cltv == base.cltv)
    && (!Bit(flags, 32) ==> f.htlcMinimum == base.htlcMinimum)
    && (!Bit(flags, 16) ==> f.feeBase == base.feeBase)
    && (!Bit(flags, 8) ==> f.feeProportional == base.feeProportional)
    && (!Bit(flags, 4) ==> f.htlcMaximum == base.htlcMaximum)
  }

  /** The stream's defaults for a full update, the stored values of its direction for an incremental one. */
  function BaseIn(x: Context, g: Graph, scid: nat, flags: nat): Option<Fields> {
    if !Bit(flags, 128) then Some(x.defaults)
    else match Stored(g, scid, Backward(flags))
      case None => None
      case Some(i) => Some(i.fields)
  }

  predicate RelativeTo(x: Context, g: Graph, i: Item) {
    && i.update.timestamp == x.timestamp && i.update.flags == i.flags % 4
    && BaseIn(x, g, i.update.scid, i.flags).Some?
    && DiffersOnlyWhereMasked(BaseIn(x, g, i.update.scid, i.flags).value, i.flags, i.update.fields)
  }

  lemma FieldsAreMasked(s: Stream, flags: nat, base: Fields)
    requires ReadFields(s, flags, base).Ok?
    ensures DiffersOnlyWhereMasked(base, flags, ReadFields(s, flags, base).value.0)
  {
  }

  lemma BaseIsStored(x: Context, g: Graph, scid: nat, flags: nat)
    requires BaseOf(x, g, scid, flags).Ok?
    ensures BaseIn(x, g, scid, flags) == Some(BaseOf(x, g, scid, flags).value)
  {
  }

  /** The pieces an accepted update was put together from. */
  lemma UpdateParts(env: Env, x: Context, c: Cursor) returns (rest: Stream, base: Fields)
    requires ApplyUpdate(env, x, c).Ok?
    ensures var a := ApplyUpdate(env, x, c).value; var u := a.item.update;
      && u.timestamp == x.timestamp && u.flags == a.item.flags % 4
      && BaseOf(x, c.graph, u.scid, a.item.flags) == Ok(base)
      && ReadFields(rest, a.item.flags, base).Ok? && ReadFields(rest, a.item.flags, base).value.0 == u.fields
      && UpdateChannel(c.graph, u, env.clockAccepts(c.done)) == Ok(a.cursor.graph)
  {
    var delta := ReadBigSize(c.rest).value;
    var flags := ReadInt(delta.1, 1).value;
    rest, base := flags.1, BaseOf(x, c.graph, c.previous + delta.0, flags.0).value;
  }

  lemma UpdateIsRelative(env: Env, x: Context, c: Cursor)
    requires ApplyUpdate(env, x, c).Ok?
    ensures RelativeTo(x, c.graph, ApplyUpdate(env, x, c).value.item)
  {
    var i := ApplyUpdate(env, x, c).value.item;
    var rest, base := UpdateParts(env, x, c);
    FieldsAreMasked(rest, i.flags, base);
    BaseIsStored(x, c.graph, i.update.scid, i.flags);
  }

  /** What one accepted update does to one direction of one channel. */
  predicate StoresItem(x: Context, g: Graph, a: Next<Item>, scid: nat, backward: bool) {
    if Hits(a.item, scid, backward) then
      OlderThan(Stored(g, scid, backward), x.timestamp)
        && Stored(a.cursor.graph, scid, backward) == Some(InfoOf(a.item.update))
    else Stored(a.cursor.graph, scid, backward) == Stored(g, scid, backward)
  }

  lemma ItemStored(x: Context, g: Graph, a: Next<Item>, clock: bool, scid: nat, backward: bool)
    requires a.item.update.timestamp == x.timestamp && a.item.update.flags == a.item.flags % 4
    requires UpdateChannel(g, a.item.update, clock) == Ok(a.cursor.graph)
    ensures StoresItem(x, g, a, scid, backward)
  {
    ChannelUpdated(g, a.item.update, clock, scid, backward);
  }

  lemma UpdateStores(env: Env, x: Context, c: Cursor, scid: nat, backward: bool)
    requires ApplyUpdate(env, x, c).Ok?
    ensures StoresItem(x, c.graph, ApplyUpdate(env, x, c).value, scid, backward)
  {
    var rest, base := UpdateParts(env, x, c);
    ItemStored(x, c.graph, ApplyUpdate(env, x, c).value, env.clockAccepts(c.done), scid, backward);
  }

  /** Steps that apply updates relative to the graph they find. */
  ghost predicate Faithful(step: Step<Item>, x: Context) {
    && (forall c: Cursor :: step(c).Ok? ==> RelativeTo(x, c.graph, step(c).value.item))
    && (forall c: Cursor, scid: nat, backward: bool :: step(c).Ok? ==>
       StoresItem(x, c.graph, step(c).value, scid, backward))
  }

  lemma UpdatingIsFaithful(env: Env, x: Context)
    ensures Faithful(Updating(env, x), x)
  {
    var step := Updating(env, x);
    forall c: Cursor | step(c).Ok? ensures RelativeTo(x, c.graph, step(c).value.item) { UpdateIsRelative(env, x, c); }
    forall c: Cursor, scid: nat, backward: bool | step(c).Ok?
      ensures StoresItem(x, c.graph, step(c).value, scid, backward)
    {
      UpdateStores(env, x, c, scid, backward);
    }
  }

  /**
   Every direction of every channel is updated at most once, because all updates of a stream carry
   the same timestamp; it then holds that update, and everything else is untouched.
   */
  lemma {:induction false} UpdatesApplied(step: Step<Item>, x: Context, n: nat, c: Cursor, scid: nat, backward: bool)
    requires Faithful(step, x)
    ensures var r, hits := Loop(step, n, c).graph, HitsOf(Trace(step, n, c), scid, backward);
      && |hits| <= 1
      && Stored(r, scid, backward) ==
         (if hits == [] then Stored(c.graph, scid, backward) else Some(InfoOf(hits[0].update)))
      && (hits != [] ==> OlderThan(Stored(c.graph, scid, backward), x.timestamp))
    decreases n
  {
    if n > 0 && step(c).Ok? {
      var a := step(c).value;
      var more := Trace(step, n - 1, a.cursor);
      assert RelativeTo(x, c.graph, a.item) && StoresItem(x, c.graph, a, scid, backward);
      UpdatesApplied(step, x, n - 1, a.cursor, scid, backward);
      assert ([a.item] + more)[1..] == more;
    }
  }

  lemma LaterItemMissesFirst(step: Step<Item>, x: Context, n: nat, c: Cursor, i: nat)
    requires Faithful(step, x) && step(c).Ok? && i < |Trace(step, n, step(c).value.cursor)|
    ensures var a := step(c).value; var y := Trace(step, n, a.cursor)[i];
      !Hits(a.item, y.update.scid, Backward(y.flags))
  {
    var a := step(c).value;
    var more := Trace(step, n, a.cursor);
    var scid, backward := more[i].update.scid, Backward(more[i].flags);
    assert RelativeTo(x, c.graph, a.item) && StoresItem(x, c.graph, a, scid, backward);
    UpdatesApplied(step, x, n, a.cursor, scid, backward);
    HitIsListed(more, i, scid, backward);
  }

  /**
   Every update of the stream is relative to the graph as it was before the first one: an
   incremental update never builds on another update of its own stream.
   */
  lemma {:induction false} UpdatesAreRelative(step: Step<Item>, x: Context, n: nat, c: Cursor, i: nat)
    requires Faithful(step, x) && i < |Trace(step, n, c)|
    ensures RelativeTo(x, c.graph, Trace(step, n, c)[i])
    decreases n
  {
    var a := step(c).value;
    if i > 0 {
      var y := Trace(step, n - 1, a.cursor)[i - 1];
      UpdatesAreRelative(step, x, n - 1, a.cursor, i - 1);
      LaterItemMissesFirst(step, x, n - 1, c, i - 1);
      assert StoresItem(x, c.graph, a, y.update.scid, Backward(y.flags));
    }
  }

  // ---------- The whole stream ----------

  /** What a stream's updates start from, when everything before them decodes. */
  datatype Plan = Plan(count: nat, context: Context, start: Cursor)

  function PlanOf(env: Env, g: Graph, s: Stream): Option<Plan> {
    match ReadPreamble(env, s)
    case Err(_) => None
    case Ok(p) =>
      var a := Loop(Announcing(p.ids, Backdated(p.latestSeen)), p.announcements, Cursor(0, 0, g, p.rest));
      if a.rest.Err? then None
      else match ReadInt(a.rest.value, 4)
        case Err(_) => None
        case Ok(count) =>
          match ReadDefaults(count.1)
          case Err(_) => None
          case Ok(d) => Some(Plan(count.0, Context(Backdated(p.latestSeen), d.0), Cursor(0, 0, a.graph, d.1)))
  }

  /** The updates of a whole stream that were applied. */
  function StreamItems(env: Env, g: Graph, s: Stream): seq<Item> {
    match PlanOf(env, g, s)
    case None => []
    case Some(p) => Items(env, p.context, p.count, p.start)
  }

  /** The number of updates a stream announces, when everything before it decodes. */
  function Announces(env: Env, g: Graph, s: Stream): Option<nat> {
    match ReadPreamble(env, s)
    case Err(_) => None
    case Ok(p) =>
      var a := Loop(Announcing(p.ids, Backdated(p.latestSeen)), p.announcements, Cursor(0, 0, g, p.rest));
      if a.rest.Err? || ReadInt(a.rest.value, 4).Err? then None else Some(ReadInt(a.rest.value, 4).value.0)
  }

  /**
   A sync marks itself complete exactly by applying every announced update, at least one. A stream
   that announces none succeeds, with its own timestamp, and marks nothing; nor does one that fails.
   */
  lemma MarkedCompleteIff(env: Env, y: Sync, s: Stream)
    ensures var r, xs, n := SyncFrom(env, y, s), StreamItems(env, y.graph, s), Announces(env, y.graph, s);
      && (r.1.Ok? <==> n.Some? && |xs| == n.value)
      && (r.1.Ok? ==> ReadPreamble(env, s).Ok? && r.1.value == ReadPreamble(env, s).value.latestSeen)
      && (if r.1.Ok? && n != Some(0) then r.0.complete && r.0.lastSync == Some(r.1.value)
          else r.0.complete == y.complete && r.0.lastSync == y.lastSync)
  {
    var plan := PlanOf(env, y.graph, s);
    if plan.Some? { SectionCounted(Updating(env, plan.value.context), plan.value.count, plan.value.start); }
  }

  /** A stream with no nodes, no announcements and no updates. */
  ghost function EmptyStream(chain: seq<nat>, latest: nat): Stream
    requires |chain| == 32 && latest < Power(256, 4)
  {
    PREFIX + (chain + (Fixed(latest, 256, 4) + ([0, 0, 0, 0] + ([0, 0, 0, 0] + [0, 0, 0, 0]))))
  }

  lemma TakeFirst(a: seq<nat>, rest: Stream)
    ensures Take(a + rest, |a|) == Ok((a, rest))
  {
    assert (a + rest)[..|a|] == a && (a + rest)[|a|..] == rest;
  }

  lemma ReadZero(rest: Stream)
    ensures ReadInt([0, 0, 0, 0] + rest, 4) == Ok((0, rest))
  {
    TakeFirst([0, 0, 0, 0], rest);
    LeadingZeros(4, [], 256);
    assert ZeroDigits(4) + [] == [0, 0, 0, 0];
  }

  /** Such a stream succeeds and leaves everything, the mark included, as it was. */
  lemma EmptyStreamMarksNothing(env: Env, y: Sync, chain: seq<nat>, latest: nat)
    requires |chain| == 32 && latest < Power(256, 4)
    ensures SyncFrom(env, y, EmptyStream(chain, latest)) == (y, Ok(latest))
  {
    var zero := [0, 0, 0, 0];
    var s4 := zero;
    var s3 := zero + s4;
    var s2 := zero + s3;
    var s1 := Fixed(latest, 256, 4) + s2;
    TakeFirst(PREFIX, chain + s1);
    TakeFirst(chain, s1);
    TakeFirst(Fixed(latest, 256, 4), s2);
    ReadZero(s3);
    ReadZero(s4);
    assert s4 == zero + [];
    ReadZero([]);
  }

  /** The graph a stream leaves is the one its announcements leave, or its updates after them. */
  lemma StreamGraph(env: Env, y: Sync, s: Stream, p: Preamble)
    requires ReadPreamble(env, s) == Ok(p)
    ensures var plan, r := PlanOf(env, y.graph, s), SyncFrom(env, y, s).0.graph;
      var a := Loop(Announcing(p.ids, Backdated(p.latestSeen)), p.announcements, Cursor(0, 0, y.graph, p.rest)).graph;
      if plan.None? then r == a
      else
        && plan.value.start.graph == a
        && r == Loop(Updating(env, plan.value.context), plan.value.count, plan.value.start).graph
  {
  }

  /**
   After any stream, whether it failed or not, each direction of each channel holds the one update
   applied to it, or else exactly what the graph stored before the stream.
   */
  lemma StreamMeaning(env: Env, y: Sync, s: Stream, scid: nat, backward: bool)
    ensures var r, hits := SyncFrom(env, y, s).0.graph, HitsOf(StreamItems(env, y.graph, s), scid, backward);
      && |hits| <= 1
      && Stored(r, scid, backward) ==
         if hits == [] then Stored(y.graph, scid, backward) else Some(InfoOf(hits[0].update))
  {
    if ReadPreamble(env, s).Ok? {
      var p := ReadPreamble(env, s).value;
      StreamGraph(env, y, s, p);
      AnnouncementsStoreNothing(p.ids, Backdated(p.latestSeen), p.announcements, Cursor(0, 0, y.graph, p.rest), scid,
        backward);
      var plan := PlanOf(env, y.graph, s);
      if plan.Some? {
        UpdatingIsFaithful(env, plan.value.context);
        UpdatesApplied(Updating(env, plan.value.context), plan.value.context, plan.value.count, plan.value.start,
          scid, backward);
      }
    }
  }

  /**
   Each applied update differs from the defaults, or from what was stored before the stream, only
   where its mask says so.
   */
  lemma StreamItemsRelative(env: Env, g: Graph, s: Stream, i: nat)
    requires i < |StreamItems(env, g, s)|
    ensures RelativeTo(PlanOf(env, g, s).value.context, g, StreamItems(env, g, s)[i])
  {
    var p, plan := ReadPreamble(env, s).value, PlanOf(env, g, s).value;
    var y := StreamItems(env, g, s)[i];
    UpdatingIsFaithful(env, plan.context);
    UpdatesAreRelative(Updating(env, plan.context), plan.context, plan.count, plan.start, i);
    AnnouncementsStoreNothing(p.ids, Backdated(p.latestSeen), p.announcements, Cursor(0, 0, g, p.rest), y.update.scid,
      Backward(y.flags));
    assert BaseIn(plan.context, plan.start.graph, y.update.scid, y.flags) ==
      BaseIn(plan.context, g, y.update.scid, y.flags);
  }
}
