/**
 Whole gossip streams, written out byte by byte in the format's own numbers, and what the decoder
 makes of them, stated without bytes.
 */
module GossipStream {
  import opened Prelude
  import opened Integers
  import opened RapidGossip
  import opened RapidGossipLaws
  import opened GossipFormat

  // ---------- What a stream says ----------

  datatype AnnounceItem = AnnounceItem(features: seq<nat>, delta: nat, first: nat, second: nat)

  datatype UpdateItem = UpdateItem(delta: nat, flags: nat, fields: Fields)

  datatype Message = Message(
    chain: seq<nat>, latest: nat, ids: seq<Key>, announcements: seq<AnnounceItem>, defaults: Fields,
    updates: seq<UpdateItem>)

  ghost predicate AnnounceFits(a: AnnounceItem) {
    Fits(|a.features|, 2) && a.delta < U64 && a.first < U64 && a.second < U64
  }

  ghost predicate UpdateFits(u: UpdateItem) { u.delta < U64 && Fits(u.flags, 1) && FieldsFit(u.fields) }

  ghost predicate KeyFits(env: Env, k: Key) { |k| == 33 && env.isPubKey(k) }

  ghost predicate MessageFits(env: Env, m: Message) {
    && |m.chain| == 32 && Fits(m.latest, 4) && FieldsFit(m.defaults)
    && Fits(|m.ids|, 4) && Fits(|m.announcements|, 4) && Fits(|m.updates|, 4)
    && (forall i :: 0 <= i < |m.ids| ==> KeyFits(env, m.ids[i]))
    && (forall i :: 0 <= i < |m.announcements| ==> AnnounceFits(m.announcements[i]))
    && (forall i :: 0 <= i < |m.updates| ==> UpdateFits(m.updates[i]))
  }

  // ---------- Writing it ----------

  ghost function WriteAnnouncement(a: AnnounceItem): Stream
    requires AnnounceFits(a)
  {
    Fixed(|a.features|, 256, 2) +
    (a.features + (WriteBigSize(a.delta) + (WriteBigSize(a.first) + WriteBigSize(a.second))))
  }

  ghost function WriteAnnouncements(xs: seq<AnnounceItem>): seq<Stream>
    requires forall i :: 0 <= i < |xs| ==> AnnounceFits(xs[i])
  {
    seq(|xs|, i requires 0 <= i < |xs| => WriteAnnouncement(xs[i]))
  }

  ghost function WriteUpdate(u: UpdateItem): Stream
    requires UpdateFits(u)
  {
    WriteItem(u.delta, u.flags, u.fields)
  }

  ghost function WriteUpdates(xs: seq<UpdateItem>): seq<Stream>
    requires forall i :: 0 <= i < |xs| ==> UpdateFits(xs[i])
  {
    seq(|xs|, i requires 0 <= i < |xs| => WriteUpdate(xs[i]))
  }

  /** One after the other. */
  function Flat(ws: seq<Stream>): Stream { if ws == [] then [] else ws[0] + Flat(ws[1..]) }

  /** Expiry delta, least amount, base fee, proportional fee, greatest amount. */
  ghost function WriteDefaults(f: Fields): Stream
    requires FieldsFit(f)
  {
    Fixed(f.cltv, 256, 2) + (Fixed(f.htlcMinimum, 256, 8) + (Fixed(f.feeBase, 256, 4) +
    (Fixed(f.feeProportional, 256, 4) + Fixed(Maximum(f), 256, 8))))
  }

  /** The defaults are there only if there are updates. */
  ghost function WriteUpdateSection(env: Env, m: Message): Stream
    requires MessageFits(env, m)
  {
    Fixed(|m.updates|, 256, 4) +
    if m.updates == [] then [] else WriteDefaults(m.defaults) + Flat(WriteUpdates(m.updates))
  }

  /** "LDK" and a version, the chain, the time, the nodes, the announcements and the updates. */
  ghost function WriteStream(env: Env, m: Message): Stream
    requires MessageFits(env, m)
  {
    [76, 68, 75, 1] + (m.chain + (Fixed(m.latest, 256, 4) + (Fixed(|m.ids|, 256, 4) + (Flat(m.ids) +
    (Fixed(|m.announcements|, 256, 4) + (Flat(WriteAnnouncements(m.announcements)) + WriteUpdateSection(env, m)))))))
  }

  // ---------- What it means ----------

  /** The graph, and the channel id that the next delta adds to. */
  datatype Track = Track(previous: nat, graph: Graph)

  /** A section's graph, and the error that ended it early, if any. */
  datatype Ended = Ended(graph: Graph, error: Option<Error>)

  /** What one item does, given its number in the section. */
  type Deed<!B> = (nat, Track, B) -> Result<Track>

  /** Items `k`, `k + 1`, ..., up to the first failure. */
  function All<B>(deed: Deed<B>, k: nat, t: Track, xs: seq<B>): Ended
    decreases |xs|
  {
    if xs == [] then Ended(t.graph, None)
    else match deed(k, t, xs[0])
      case Err(e) => Ended(t.graph, Some(e))
      case Ok(u) => All(deed, k + 1, u, xs[1..])
  }

  function AddOne(ids: seq<Key>, timestamp: nat, t: Track, a: AnnounceItem): Result<Track> {
    var scid := t.previous + a.delta;
    if scid >= 0x1_0000_0000_0000_0000 || a.first >= |ids| || a.second >= |ids| then Err(InvalidValue)
    else
      var g :- AddChannel(t.graph, scid, timestamp, a.features, ids[a.first], ids[a.second]);
      Ok(Track(scid, g))
  }

  function Adding(ids: seq<Key>, timestamp: nat): Deed<AnnounceItem> {
    (_: nat, t: Track, a: AnnounceItem) => AddOne(ids, timestamp, t, a)
  }

  function UpdateOne(env: Env, x: Context, k: nat, t: Track, u: UpdateItem): Result<Track> {
    var scid := t.previous + u.delta;
    if scid >= 0x1_0000_0000_0000_0000 then Err(InvalidValue)
    else
      var base :- BaseOf(x, t.graph, scid, u.flags);
      var g :- UpdateChannel(t.graph, Update(scid, x.timestamp, u.flags % 4, Overlay(u.flags, u.fields, base)),
                             env.clockAccepts(k));
      Ok(Track(scid, g))
  }

  function Changing(env: Env, x: Context): Deed<UpdateItem> {
    (k: nat, t: Track, u: UpdateItem) => UpdateOne(env, x, k, t, u)
  }

  /** A week earlier, but not before 1970. */
  function AWeekEarlier(t: nat): nat { if t < 7 * 24 * 3600 then 0 else t - 7 * 24 * 3600 }

  function Meaning(env: Env, y: Sync, m: Message): (Sync, Result<nat>) {
    var timestamp := AWeekEarlier(m.latest);
    var a := All(Adding(m.ids, timestamp), 0, Track(0, y.graph), m.announcements);
    if a.error.Some? then (y.(graph := a.graph), Err(a.error.value))
    else if m.updates == [] then (y.(graph := a.graph), Ok(m.latest))
    else
      var u := All(Changing(env, Context(timestamp, m.defaults)), 0, Track(0, a.graph), m.updates);
      if u.error.Some? then (y.(graph := u.graph), Err(u.error.value))
      else (Sync(u.graph, Some(m.latest), true), Ok(m.latest))
  }

  // ---------- Reading it back ----------

  function SectionOf(e: Ended, rest: Stream): Section {
    Section(e.graph, if e.error.None? then Ok(rest) else Err(e.error.value))
  }

  lemma FeaturesRead(a: AnnounceItem, rest: Stream)
    requires Fits(|a.features|, 2)
    ensures ReadFeatures(Fixed(|a.features|, 256, 2) + (a.features + rest)) == Ok((a.features, rest))
  {
    ReadWritten(|a.features|, 2, a.features + rest);
    TakeFirst(a.features, rest);
  }

  lemma AnnounceInOrder(
    ids: seq<Key>, timestamp: nat, c: Cursor, a: AnnounceItem, s1: Stream, s2: Stream, s3: Stream, rest: Stream)
    requires ReadFeatures(c.rest) == Ok((a.features, s1)) && ReadBigSize(s1) == Ok((a.delta, s2))
    requires ReadBigSize(s2) == Ok((a.first, s3)) && ReadBigSize(s3) == Ok((a.second, rest))
    ensures Announce(ids, timestamp, c) ==
      match AddOne(ids, timestamp, Track(c.previous, c.graph), a)
      case Err(e) => Err(e)
      case Ok(t) => Ok(Next(Cursor(c.done + 1, t.previous, t.graph, rest),
                            Announcement(a.delta, t.previous, a.first, a.second, a.features)))
  {
  }

  lemma AnnouncementReads(a: AnnounceItem, s: Stream, rest: Stream) returns (s1: Stream, s2: Stream, s3: Stream)
    requires AnnounceFits(a) && s == WriteAnnouncement(a) + rest
    ensures ReadFeatures(s) == Ok((a.features, s1)) && ReadBigSize(s1) == Ok((a.delta, s2))
    ensures ReadBigSize(s2) == Ok((a.first, s3)) && ReadBigSize(s3) == Ok((a.second, rest))
  {
    s3 := WriteBigSize(a.second) + rest;
    s2 := WriteBigSize(a.first) + s3;
    s1 := WriteBigSize(a.delta) + s2;
    FieldsRegroup(Fixed(|a.features|, 256, 2), a.features, WriteBigSize(a.delta), WriteBigSize(a.first),
                  WriteBigSize(a.second), rest);
    FeaturesRead(a, s1);
    BigSizeReads(a.delta, s2);
    BigSizeReads(a.first, s3);
    BigSizeReads(a.second, rest);
  }

  /** Over these bytes, a step of the decoder does what the item says. */
  ghost predicate StepDoes<A(!new), B>(step: Step<A>, deed: Deed<B>, x: B, w: Stream) {
    forall c: Cursor, rest: Stream :: c.rest == w + rest ==> Matches(step(c), deed, c, x, rest)
  }

  ghost predicate Matches<A, B>(r: Result<Next<A>>, deed: Deed<B>, c: Cursor, x: B, rest: Stream) {
    match deed(c.done, Track(c.previous, c.graph), x)
    case Err(e) => r == Err(e)
    case Ok(t) => r.Ok? && r.value.cursor == Cursor(c.done + 1, t.previous, t.graph, rest)
  }

  lemma {:induction false} SectionReads<A(!new), B>(
    step: Step<A>, deed: Deed<B>, xs: seq<B>, ws: seq<Stream>, c: Cursor, rest: Stream)
    requires |ws| == |xs| && (forall i :: 0 <= i < |xs| ==> StepDoes(step, deed, xs[i], ws[i]))
    requires c.rest == Flat(ws) + rest
    ensures Loop(step, |xs|, c) == SectionOf(All(deed, c.done, Track(c.previous, c.graph), xs), rest)
    decreases |xs|
  {
    if xs == [] {
      assert c.rest == rest;
    } else {
      Assoc(ws[0], Flat(ws[1..]), rest);
      assert StepDoes(step, deed, xs[0], ws[0]);
      assert Matches(step(c), deed, c, xs[0], Flat(ws[1..]) + rest);
      if step(c).Ok? { SectionReads(step, deed, xs[1..], ws[1..], step(c).value.cursor, rest); }
    }
  }

  lemma AnnouncementDoes(ids: seq<Key>, timestamp: nat, a: AnnounceItem)
    requires AnnounceFits(a)
    ensures StepDoes(Announcing(ids, timestamp), Adding(ids, timestamp), a, WriteAnnouncement(a))
  {
    forall c: Cursor, rest: Stream | c.rest == WriteAnnouncement(a) + rest
      ensures Matches(Announcing(ids, timestamp)(c), Adding(ids, timestamp), c, a, rest)
    {
      var s1, s2, s3 := AnnouncementReads(a, c.rest, rest);
      AnnounceInOrder(ids, timestamp, c, a, s1, s2, s3, rest);
    }
  }

  lemma UpdateFailsEarly(env: Env, x: Context, c: Cursor, u: UpdateItem, s1: Stream, s2: Stream)
    requires ReadBigSize(c.rest) == Ok((u.delta, s1)) && ReadInt(s1, 1) == Ok((u.flags, s2))
    requires c.previous + u.delta >= U64 || BaseOf(x, c.graph, c.previous + u.delta, u.flags).Err?
    ensures ApplyUpdate(env, x, c) ==
      if c.previous + u.delta >= U64 then Err(InvalidValue)
      else Err(BaseOf(x, c.graph, c.previous + u.delta, u.flags).error)
  {
  }

  lemma ChangeMatches(
    env: Env, x: Context, c: Cursor, u: UpdateItem, base: Fields, h: Result<Graph>, i: Item,
    r: Result<Next<Item>>, rest: Stream)
    requires c.previous + u.delta < U64 && BaseOf(x, c.graph, c.previous + u.delta, u.flags) == Ok(base)
    requires i == Item(u.delta, u.flags, Update(c.previous + u.delta, x.timestamp, u.flags % 4,
                                                Overlay(u.flags, u.fields, base)))
    requires h == UpdateChannel(c.graph, i.update, env.clockAccepts(c.done))
    requires r == if h.Err? then Err(h.error) else Ok(Next(Cursor(c.done + 1, i.update.scid, h.value, rest), i))
    ensures Matches(r, Changing(env, x), c, u, rest)
  {
    var t := Track(c.previous, c.graph);
    assert Changing(env, x)(c.done, t, u) == UpdateOne(env, x, c.done, t, u);
  }

  lemma UpdateInOrder(
    env: Env, x: Context, c: Cursor, u: UpdateItem, base: Fields, s1: Stream, s2: Stream, rest: Stream)
    requires ReadBigSize(c.rest) == Ok((u.delta, s1)) && ReadInt(s1, 1) == Ok((u.flags, s2))
    requires ReadFields(s2, u.flags, base) == Ok((Overlay(u.flags, u.fields, base), rest))
    requires c.previous + u.delta < U64 && BaseOf(x, c.graph, c.previous + u.delta, u.flags) == Ok(base)
    ensures Matches(ApplyUpdate(env, x, c), Changing(env, x), c, u, rest)
  {
    var i := Item(u.delta, u.flags, Update(c.previous + u.delta, x.timestamp, u.flags % 4,
                                           Overlay(u.flags, u.fields, base)));
    ItemInOrder(env, x, c, u.delta, u.flags, Overlay(u.flags, u.fields, base), base, s1, s2, rest);
    ChangeMatches(env, x, c, u, base, UpdateChannel(c.graph, i.update, env.clockAccepts(c.done)), i,
                  ApplyUpdate(env, x, c), rest);
  }

  lemma UpdateMatches(env: Env, x: Context, c: Cursor, u: UpdateItem, base: Fields, rest: Stream)
    requires UpdateFits(u) && c.rest == WriteUpdate(u) + rest
    requires c.previous + u.delta < U64 && BaseOf(x, c.graph, c.previous + u.delta, u.flags) == Ok(base)
    ensures Matches(ApplyUpdate(env, x, c), Changing(env, x), c, u, rest)
  {
    var s1, s2 := ItemReads(c.rest, u.delta, u.flags, u.fields, base, rest);
    UpdateInOrder(env, x, c, u, base, s1, s2, rest);
  }

  lemma FailureMatches(env: Env, x: Context, c: Cursor, u: UpdateItem, r: Result<Next<Item>>, rest: Stream)
    requires c.previous + u.delta >= U64 || BaseOf(x, c.graph, c.previous + u.delta, u.flags).Err?
    requires r ==
      if c.previous + u.delta >= U64 then Err(InvalidValue)
      else Err(BaseOf(x, c.graph, c.previous + u.delta, u.flags).error)
    ensures Matches(r, Changing(env, x), c, u, rest)
  {
    var t := Track(c.previous, c.graph);
    assert Changing(env, x)(c.done, t, u) == UpdateOne(env, x, c.done, t, u);
  }

  lemma UpdateFailsInOrder(env: Env, x: Context, c: Cursor, u: UpdateItem, s1: Stream, s2: Stream, rest: Stream)
    requires ReadBigSize(c.rest) == Ok((u.delta, s1)) && ReadInt(s1, 1) == Ok((u.flags, s2))
    requires c.previous + u.delta >= U64 || BaseOf(x, c.graph, c.previous + u.delta, u.flags).Err?
    ensures Matches(ApplyUpdate(env, x, c), Changing(env, x), c, u, rest)
  {
    UpdateFailsEarly(env, x, c, u, s1, s2);
    FailureMatches(env, x, c, u, ApplyUpdate(env, x, c), rest);
  }

  lemma UpdateMatchesFailing(env: Env, x: Context, c: Cursor, u: UpdateItem, rest: Stream)
    requires UpdateFits(u) && c.rest == WriteUpdate(u) + rest
    requires c.previous + u.delta >= U64 || BaseOf(x, c.graph, c.previous + u.delta, u.flags).Err?
    ensures Matches(ApplyUpdate(env, x, c), Changing(env, x), c, u, rest)
  {
    var s1, s2 := ItemReads(c.rest, u.delta, u.flags, u.fields, x.defaults, rest);
    UpdateFailsInOrder(env, x, c, u, s1, s2, rest);
  }

  lemma UpdateStep(env: Env, x: Context, c: Cursor, u: UpdateItem, rest: Stream)
    requires UpdateFits(u) && c.rest == WriteUpdate(u) + rest
    ensures Matches(ApplyUpdate(env, x, c), Changing(env, x), c, u, rest)
  {
    if c.previous + u.delta >= U64 {
      UpdateMatchesFailing(env, x, c, u, rest);
    } else {
      match BaseOf(x, c.graph, c.previous + u.delta, u.flags)
      case Err(_) => UpdateMatchesFailing(env, x, c, u, rest);
      case Ok(base) => UpdateMatches(env, x, c, u, base, rest);
    }
  }

  lemma UpdateDoes(env: Env, x: Context, u: UpdateItem)
    requires UpdateFits(u)
    ensures StepDoes(Updating(env, x), Changing(env, x), u, WriteUpdate(u))
  {
    var step, deed, w := Updating(env, x), Changing(env, x), WriteUpdate(u);
    forall c: Cursor, rest: Stream | c.rest == w + rest ensures Matches(step(c), deed, c, u, rest) {
      UpdateStep(env, x, c, u, rest);
    }
  }

  lemma AnnouncementsRead(ids: seq<Key>, timestamp: nat, xs: seq<AnnounceItem>, g: Graph, rest: Stream)
    requires forall i :: 0 <= i < |xs| ==> AnnounceFits(xs[i])
    ensures Loop(Announcing(ids, timestamp), |xs|, Cursor(0, 0, g, Flat(WriteAnnouncements(xs)) + rest)) ==
      SectionOf(All(Adding(ids, timestamp), 0, Track(0, g), xs), rest)
  {
    var ws := WriteAnnouncements(xs);
    forall i | 0 <= i < |xs| ensures StepDoes(Announcing(ids, timestamp), Adding(ids, timestamp), xs[i], ws[i]) {
      AnnouncementDoes(ids, timestamp, xs[i]);
    }
    SectionReads(Announcing(ids, timestamp), Adding(ids, timestamp), xs, ws, Cursor(0, 0, g, Flat(ws) + rest), rest);
  }

  lemma UpdatesRead(env: Env, x: Context, xs: seq<UpdateItem>, g: Graph)
    requires forall i :: 0 <= i < |xs| ==> UpdateFits(xs[i])
    ensures Loop(Updating(env, x), |xs|, Cursor(0, 0, g, Flat(WriteUpdates(xs)))) ==
      SectionOf(All(Changing(env, x), 0, Track(0, g), xs), [])
  {
    var ws := WriteUpdates(xs);
    forall i | 0 <= i < |xs| ensures StepDoes(Updating(env, x), Changing(env, x), xs[i], ws[i]) {
      UpdateDoes(env, x, xs[i]);
    }
    assert Flat(ws) + [] == Flat(ws);
    SectionReads(Updating(env, x), Changing(env, x), xs, ws, Cursor(0, 0, g, Flat(ws)), []);
  }

  lemma {:induction false} KeysRead(env: Env, ids: seq<Key>, rest: Stream)
    requires forall i :: 0 <= i < |ids| ==> KeyFits(env, ids[i])
    ensures ReadKeys(env, |ids|, Flat(ids) + rest) == Ok((ids, rest))
    decreases |ids|
  {
    if ids == [] {
      assert Flat(ids) + rest == rest;
    } else {
      var more := Flat(ids[1..]) + rest;
      Assoc(ids[0], Flat(ids[1..]), rest);
      assert KeyFits(env, ids[0]);
      TakeFirst(ids[0], more);
      KeysRead(env, ids[1..], rest);
      assert [ids[0]] + ids[1..] == ids;
    }
  }

  lemma DefaultsInOrder(
    f: Fields, maximum: nat, s0: Stream, s1: Stream, s2: Stream, s3: Stream, s4: Stream, rest: Stream)
    requires ReadInt(s0, 2) == Ok((f.cltv, s1)) && ReadInt(s1, 8) == Ok((f.htlcMinimum, s2))
    requires ReadInt(s2, 4) == Ok((f.feeBase, s3)) && ReadInt(s3, 4) == Ok((f.feeProportional, s4))
    requires ReadInt(s4, 8) == Ok((maximum, rest)) && f.htlcMaximum == MaximumOf(maximum)
    ensures ReadDefaults(s0) == Ok((f, rest))
  {
  }

  /** The five defaults, each where the format puts it. */
  lemma DefaultsRoundTrip(f: Fields, rest: Stream)
    requires FieldsFit(f)
    ensures ReadDefaults(WriteDefaults(f) + rest) == Ok((f, rest))
  {
    var s4 := Fixed(Maximum(f), 256, 8) + rest;
    var s3 := Fixed(f.feeProportional, 256, 4) + s4;
    var s2 := Fixed(f.feeBase, 256, 4) + s3;
    var s1 := Fixed(f.htlcMinimum, 256, 8) + s2;
    FieldsRegroup(Fixed(f.cltv, 256, 2), Fixed(f.htlcMinimum, 256, 8), Fixed(f.feeBase, 256, 4),
                  Fixed(f.feeProportional, 256, 4), Fixed(Maximum(f), 256, 8), rest);
    ReadWritten(f.cltv, 2, s1);
    ReadWritten(f.htlcMinimum, 8, s2);
    ReadWritten(f.feeBase, 4, s3);
    ReadWritten(f.feeProportional, 4, s4);
    ReadWritten(Maximum(f), 8, rest);
    DefaultsInOrder(f, Maximum(f), Fixed(f.cltv, 256, 2) + s1, s1, s2, s3, s4, rest);
  }

  lemma PreambleInOrder(
    env: Env, m: Message, s0: Stream, s1: Stream, s2: Stream, s3: Stream, s4: Stream, s5: Stream, rest: Stream)
    requires Take(s0, 4) == Ok(([76, 68, 75, 1], s1)) && Take(s1, 32) == Ok((m.chain, s2))
    requires ReadInt(s2, 4) == Ok((m.latest, s3)) && ReadInt(s3, 4) == Ok((|m.ids|, s4))
    requires ReadKeys(env, |m.ids|, s4) == Ok((m.ids, s5)) && ReadInt(s5, 4) == Ok((|m.announcements|, rest))
    ensures ReadPreamble(env, s0) == Ok(Preamble(m.latest, m.ids, |m.announcements|, rest))
  {
  }

  lemma PreambleReads(env: Env, m: Message)
    requires MessageFits(env, m)
    ensures ReadPreamble(env, WriteStream(env, m)) ==
      Ok(Preamble(m.latest, m.ids, |m.announcements|,
                  Flat(WriteAnnouncements(m.announcements)) + WriteUpdateSection(env, m)))
  {
    var rest := Flat(WriteAnnouncements(m.announcements)) + WriteUpdateSection(env, m);
    var s5 := Fixed(|m.announcements|, 256, 4) + rest;
    var s4 := Flat(m.ids) + s5;
    var s3 := Fixed(|m.ids|, 256, 4) + s4;
    var s2 := Fixed(m.latest, 256, 4) + s3;
    var s1 := m.chain + s2;
    TakeFirst([76, 68, 75, 1], s1);
    TakeFirst(m.chain, s2);
    ReadWritten(m.latest, 4, s3);
    ReadWritten(|m.ids|, 4, s4);
    KeysRead(env, m.ids, s5);
    ReadWritten(|m.announcements|, 4, rest);
    PreambleInOrder(env, m, [76, 68, 75, 1] + s1, s1, s2, s3, s4, s5, rest);
  }

  lemma UpdateSectionReads(env: Env, y: Sync, m: Message)
    requires MessageFits(env, m)
    ensures SyncUpdates(env, m.latest, y, WriteUpdateSection(env, m)) ==
      if m.updates == [] then (y, Ok(m.latest))
      else
        var u := All(Changing(env, Context(AWeekEarlier(m.latest), m.defaults)), 0, Track(0, y.graph), m.updates);
        if u.error.Some? then (y.(graph := u.graph), Err(u.error.value))
        else (Sync(u.graph, Some(m.latest), true), Ok(m.latest))
  {
    if m.updates == [] {
      ReadWritten(0, 4, []);
    } else {
      var items := Flat(WriteUpdates(m.updates));
      var x := Context(AWeekEarlier(m.latest), m.defaults);
      ReadWritten(|m.updates|, 4, WriteDefaults(m.defaults) + items);
      DefaultsRoundTrip(m.defaults, items);
      assert AWeekEarlier(m.latest) == Backdated(m.latest);
      UpdatesRead(env, x, m.updates, y.graph);
    }
  }

  /**
   Whatever a stream in the format says, decoding it means exactly that for the graph, the marks
   and the result, whether it succeeds or fails part way.
   */
  lemma StreamRoundTrip(env: Env, y: Sync, m: Message)
    requires MessageFits(env, m)
    ensures SyncFrom(env, y, WriteStream(env, m)) == Meaning(env, y, m)
  {
    var rest := WriteUpdateSection(env, m);
    PreambleReads(env, m);
    assert AWeekEarlier(m.latest) == Backdated(m.latest);
    AnnouncementsRead(m.ids, AWeekEarlier(m.latest), m.announcements, y.graph, rest);
    var a := All(Adding(m.ids, AWeekEarlier(m.latest)), 0, Track(0, y.graph), m.announcements);
    if a.error.None? { UpdateSectionReads(env, y.(graph := a.graph), m); }
  }

  /** A stream of any other kind or version is refused and changes nothing. */
  lemma OtherPrefixIsRefused(env: Env, y: Sync, s: Stream)
    requires |s| < 4 || s[..4] != [76, 68, 75, 1]
    ensures SyncFrom(env, y, s) == (y, Err(if |s| < 4 then ShortRead else UnknownVersion))
  {
  }

  ghost predicate KeyAt(env: Env, s: Stream, i: nat) { 33 * i + 33 <= |s| && env.isPubKey(s[33 * i..33 * i + 33]) }

  /** The node ids are read exactly if the bytes suffice and every 33 of them are a public key. */
  lemma {:induction false} KeysReadIff(env: Env, n: nat, s: Stream)
    ensures ReadKeys(env, n, s).Ok? <==>
      33 * n <= |s| && forall i :: 0 <= i < n ==> KeyAt(env, s, i)
  {
    if n > 0 && |s| >= 33 {
      var more := s[33..];
      KeysReadIff(env, n - 1, more);
      KeysShift(env, n, s, more);
    }
  }

  lemma KeysShift(env: Env, n: nat, s: Stream, more: Stream)
    requires n > 0 && |s| >= 33 && more == s[33..]
    ensures (forall i :: 0 <= i < n ==> KeyAt(env, s, i)) <==>
      KeyAt(env, s, 0) && forall i :: 0 <= i < n - 1 ==> KeyAt(env, more, i)
  {
    forall i: nat ensures KeyAt(env, more, i) <==> KeyAt(env, s, i + 1) {
      if 33 * i + 33 <= |more| { assert more[33 * i..33 * i + 33] == s[33 * (i + 1)..33 * (i + 1) + 33]; }
    }
    forall i | 0 < i < n ensures KeyAt(env, more, i - 1) <==> KeyAt(env, s, i) {}
  }

  // ---------- What one item does, in numbers ----------

  /** The bits of an update's flag byte, from the highest. */
  lemma FlagByte(a: nat, b: nat, c: nat, d: nat, e: nat, f: nat, g: nat, h: nat)
    requires a < 2 && b < 2 && c < 2 && d < 2 && e < 2 && f < 2 && g < 2 && h < 2
    ensures var flags := 128 * a + 64 * b + 32 * c + 16 * d + 8 * e + 4 * f + 2 * g + h;
      && (Bit(flags, 128) <==> a == 1) && (Bit(flags, 64) <==> b == 1) && (Bit(flags, 32) <==> c == 1)
      && (Bit(flags, 16) <==> d == 1) && (Bit(flags, 8) <==> e == 1) && (Bit(flags, 4) <==> f == 1)
      && flags % 4 == 2 * g + h
  {
    var flags := 128 * a + 64 * b + 32 * c + 16 * d + 8 * e + 4 * f + 2 * g + h;
    assert flags / 64 == 2 * a + b;
    assert flags / 32 == 2 * (2 * a + b) + c;
    assert flags / 16 == 2 * (4 * a + 2 * b + c) + d;
    assert flags / 8 == 2 * (8 * a + 4 * b + 2 * c + d) + e;
    assert flags / 4 == 2 * (16 * a + 8 * b + 4 * c + 2 * d + e) + f;
  }

  /** An announcement is taken exactly if its id does not wrap and it names two different known nodes. */
  lemma AnnouncementTakenIff(ids: seq<Key>, timestamp: nat, t: Track, a: AnnounceItem)
    ensures AddOne(ids, timestamp, t, a).Ok? <==>
      && t.previous + a.delta <= 0xFFFF_FFFF_FFFF_FFFF
      && a.first < |ids| && a.second < |ids| && ids[a.first] != ids[a.second]
  {
  }

  /** 21 million bitcoin, in thousandths of a satoshi. */
  const ALL_MONEY: nat := 21_000_000 * 100_000_000 * 1000

  /** The greatest amount is no more than there is, nor than the channel can carry. */
  predicate AmountPossible(c: Channel, maximum: nat) {
    maximum <= ALL_MONEY &&
    (c.capacity.Some? ==> c.capacity.value * 1000 <= ALL_MONEY && maximum <= c.capacity.value * 1000)
  }

  /** The direction an update is about: from the second node if its flags are odd. */
  function Towards(c: Channel, flags: nat): Option<Info> { if flags % 2 == 1 then c.twoToOne else c.oneToTwo }

  /** The graph takes an update of a known channel that the clock allows, with a possible amount, if it is newer. */
  predicate Takes(g: Graph, u: Update, clock: bool) {
    && clock && u.scid in g
    && (u.fields.htlcMaximum.Some? ==> AmountPossible(g[u.scid], u.fields.htlcMaximum.value))
    && (Towards(g[u.scid], u.flags).Some? ==> Towards(g[u.scid], u.flags).value.lastUpdate < u.timestamp)
  }

  lemma TakenIff(g: Graph, u: Update, clock: bool)
    ensures UpdateChannel(g, u, clock).Ok? <==> Takes(g, u, clock)
  {
  }

  /** What an update is laid over: its stored direction if it is incremental, the defaults otherwise. */
  function Under(x: Context, g: Graph, scid: nat, flags: nat): Option<Fields> {
    if flags / 128 % 2 == 0 then Some(x.defaults)
    else if scid !in g || Towards(g[scid], flags).None? then None
    else Some(Towards(g[scid], flags).value.fields)
  }

  lemma BaseIsUnder(x: Context, g: Graph, scid: nat, flags: nat)
    ensures BaseOf(x, g, scid, flags).Ok? <==> Under(x, g, scid, flags).Some?
    ensures BaseOf(x, g, scid, flags).Ok? ==> Under(x, g, scid, flags) == Some(BaseOf(x, g, scid, flags).value)
  {
  }

  /** The update that an item stands for. */
  function Meant(x: Context, scid: nat, u: UpdateItem, under: Fields): Update {
    Update(scid, x.timestamp, u.flags % 4, Overlay(u.flags, u.fields, under))
  }

  /** An item is taken exactly if its id does not wrap, it is laid over something, and the graph takes the result. */
  lemma UpdateTakenIff(env: Env, x: Context, k: nat, t: Track, u: UpdateItem)
    ensures UpdateOne(env, x, k, t, u).Ok? <==>
      var scid := t.previous + u.delta;
      var under := Under(x, t.graph, scid, u.flags);
      && scid <= 0xFFFF_FFFF_FFFF_FFFF && under.Some?
      && Takes(t.graph, Meant(x, scid, u, under.value), env.clockAccepts(k))
  {
    var scid := t.previous + u.delta;
    BaseIsUnder(x, t.graph, scid, u.flags);
    var base := BaseOf(x, t.graph, scid, u.flags);
    if base.Ok? { TakenIff(t.graph, Meant(x, scid, u, base.value), env.clockAccepts(k)); }
  }

  /** The graph with one direction of one channel replaced: the second node's if the flags are odd. */
  function Replaced(g: Graph, scid: nat, flags: nat, now: Info): Graph
    requires scid in g
  {
    g[scid := if flags % 2 == 1 then g[scid].(twoToOne := Some(now)) else g[scid].(oneToTwo := Some(now))]
  }

  lemma ChannelChanges(g: Graph, u: Update, clock: bool)
    requires UpdateChannel(g, u, clock).Ok?
    ensures u.scid in g
    ensures UpdateChannel(g, u, clock).value == g[u.scid := WithDirection(g[u.scid], Backward(u.flags), InfoOf(u))]
  {
  }

  lemma FlagsSay(u: Update, flags: nat)
    requires u.flags == flags % 4
    ensures Backward(u.flags) <==> flags % 2 == 1
    ensures InfoOf(u) == Info(flags % 4 < 2, u.timestamp, u.fields)
  {
    ParityOf(flags / 4, u.flags);
    assert u.flags == 0 || u.flags == 1 || u.flags == 2 || u.flags == 3;
  }

  lemma ParityOf(q: nat, r: nat)
    ensures (4 * q + r) % 2 == r % 2
  {
  }

  lemma ChannelSays(g: Graph, u: Update, clock: bool, flags: nat)
    requires UpdateChannel(g, u, clock).Ok? && u.flags == flags % 4
    ensures u.scid in g
    ensures UpdateChannel(g, u, clock).value == Replaced(g, u.scid, flags, Info(flags % 4 < 2, u.timestamp, u.fields))
  {
    ChannelChanges(g, u, clock);
    FlagsSay(u, flags);
  }

  lemma UpdateOneParts(env: Env, x: Context, k: nat, t: Track, u: UpdateItem) returns (v: Update, h: Result<Graph>)
    requires UpdateOne(env, x, k, t, u).Ok?
    ensures Under(x, t.graph, t.previous + u.delta, u.flags).Some?
    ensures v == Meant(x, t.previous + u.delta, u, Under(x, t.graph, t.previous + u.delta, u.flags).value)
    ensures h == UpdateChannel(t.graph, v, env.clockAccepts(k)) && h.Ok?
    ensures UpdateOne(env, x, k, t, u).value == Track(v.scid, h.value)
  {
    var scid := t.previous + u.delta;
    BaseIsUnder(x, t.graph, scid, u.flags);
    v := Meant(x, scid, u, BaseOf(x, t.graph, scid, u.flags).value);
    h := UpdateChannel(t.graph, v, env.clockAccepts(k));
  }

  /**
   A taken update leaves every other channel, the other direction and the channel's own data alone.
   Its direction is enabled unless the second flag bit is set, carries the stream's timestamp, and
   has the item's fields laid over the defaults or over what was there.
   */
  lemma UpdateSays(env: Env, x: Context, k: nat, t: Track, u: UpdateItem)
    requires UpdateOne(env, x, k, t, u).Ok?
    ensures var scid := t.previous + u.delta;
      var under := Under(x, t.graph, scid, u.flags);
      && scid in t.graph && under.Some?
      && var now := Info(u.flags % 4 < 2, x.timestamp, Overlay(u.flags, u.fields, under.value));
      UpdateOne(env, x, k, t, u).value == Track(scid, Replaced(t.graph, scid, u.flags, now))
  {
    var v, h := UpdateOneParts(env, x, k, t, u);
    ChannelSays(t.graph, v, env.clockAccepts(k), u.flags);
  }
}
