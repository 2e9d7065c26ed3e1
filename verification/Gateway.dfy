/**
 The gateway's message store (packages/gateway/src/store.ts) and its post handler
 (packages/gateway/src/gateway.ts), with the event id of packages/protocol/src/event.ts.

 The id hash is injective, so a verified id is the preimage itself. Authentication, signature and body
 checks are booleans; the handler is atomic from the first reading of the clock on.
 */
module Gateway {

  import opened Basics
  import Policy

  const EVENT_SKEW: int := 5 * 60_000
  const RATE_WINDOW: int := 60_000
  const DUPLICATE_THRESHOLD: int := 3

  type Id = string
  type Device = string
  type Text = string

  datatype Channel = Updates | Public

  function RateLimit(ch: Channel): nat {
    if ch.Updates? then 30 else 5
  }

  predicate Retains(ch: Channel) {
    ch.Updates?
  }

  predicate OwnerOnly(ch: Channel) {
    ch.Updates?
  }

  datatype Payload = Payload(channel: Channel, body: Text)

  datatype Preimage = Preimage(
    supported: bool, identity: Id, device: Device, createdAt: int, sequence: int, parents: seq<nat>, payload: Payload)

  datatype EventId = IdOf(preimage: Preimage) | Junk(bytes: nat)

  datatype Event = Event(id: EventId, fields: Preimage)

  datatype Row = Row(
    seqNo: nat, channel: Channel, eventId: EventId, identity: Id, device: Device, createdAt: int, receivedAt: int,
    sequence: int, body: Text)

  // ---- The store ----

  datatype Tables = Tables(rows: seq<Row>, sequences: map<(Id, Device), int>, nextSeqNo: nat)

  function LastSequence(t: Tables, k: (Id, Device)): int {
    if k in t.sequences then t.sequences[k] else 0
  }

  predicate HasEvent(rows: seq<Row>, id: EventId) {
    exists i :: 0 <= i < |rows| && rows[i].eventId == id
  }

  datatype Inserted = Inserted(tables: Tables, row: Row) | Duplicate | Stale

  function Insert(t: Tables, row: Row): Inserted {
    var k := (row.identity, row.device);
    if HasEvent(t.rows, row.eventId) then Duplicate
    else if row.sequence <= LastSequence(t, k) then Stale
    else
      var stored := row.(seqNo := t.nextSeqNo);
      Inserted(Tables(t.rows + [stored], t.sequences[k := row.sequence], t.nextSeqNo + 1), stored)
  }

  function Without(rows: seq<Row>, ch: Channel): seq<Row>
    decreases |rows|
  {
    if rows == [] then []
    else Without(rows[..|rows| - 1], ch) + if rows[|rows| - 1].channel == ch then [] else [rows[|rows| - 1]]
  }

  /** The sequence numbers of purged messages stay. */
  function Purge(t: Tables, ch: Channel): Tables {
    t.(rows := Without(t.rows, ch))
  }

  function Latest(rows: seq<Row>, ch: Channel): Option<int>
    decreases |rows|
  {
    if rows == [] then None
    else
      var before := Latest(rows[..|rows| - 1], ch);
      var last := rows[|rows| - 1];
      if last.channel != ch then before
      else if before.Some? && before.value > last.receivedAt then before
      else Some(last.receivedAt)
  }

  function Expire(t: Tables, ch: Channel, now: int, retention: int): Tables {
    var last := Latest(t.rows, ch);
    if !Retains(ch) && last.Some? && now - last.value >= retention then Purge(t, ch) else t
  }

  class Store {
    var messages: seq<Row>
    var deviceSequences: map<(Id, Device), int>
    var nextSeqNo: nat

    ghost function View(): Tables
      reads this
    {
      Tables(messages, deviceSequences, nextSeqNo)
    }

    constructor ()
      ensures View() == Tables([], map[], 1)
    {
      messages, deviceSequences, nextSeqNo := [], map[], 1;
    }

    method Holds(id: EventId) returns (found: bool)
      ensures found == HasEvent(messages, id)
    {
      found := false;
      for i := 0 to |messages|
        invariant found <==> exists j :: 0 <= j < i && messages[j].eventId == id
      {
        if messages[i].eventId == id {
          found := true;
        }
      }
    }

    method LastMessageAt(ch: Channel) returns (last: Option<int>)
      ensures last == Latest(messages, ch)
      ensures last.None? <==> forall i :: 0 <= i < |messages| ==> messages[i].channel != ch
      ensures last.Some? ==>
                && (exists i :: 0 <= i < |messages| && messages[i].channel == ch && messages[i].receivedAt == last.value)
                && (forall i :: 0 <= i < |messages| && messages[i].channel == ch ==> messages[i].receivedAt <= last.value)
    {
      last := None;
      for i := 0 to |messages|
        invariant last == Latest(messages[..i], ch)
        invariant last.None? <==> forall j :: 0 <= j < i ==> messages[j].channel != ch
        invariant last.Some? ==>
                    && (exists j :: 0 <= j < i && messages[j].channel == ch && messages[j].receivedAt == last.value)
                    && (forall j :: 0 <= j < i && messages[j].channel == ch ==> messages[j].receivedAt <= last.value)
      {
        assert messages[..i + 1][..i] == messages[..i];
        if messages[i].channel == ch && (last.None? || last.value <= messages[i].receivedAt) {
          last := Some(messages[i].receivedAt);
        }
      }
      assert messages[..|messages|] == messages;
    }

    /** One transaction: the row and the device's sequence change together, or neither does. */
    method InsertMessage(row: Row) returns (result: Inserted)
      modifies this
      ensures result == Insert(old(View()), row)
      ensures View() == if result.Inserted? then result.tables else old(View())
    {
      var found := Holds(row.eventId);
      if found {
        return Duplicate;
      }
      var k := (row.identity, row.device);
      if row.sequence <= (if k in deviceSequences then deviceSequences[k] else 0) {
        return Stale;
      }
      var stored := row.(seqNo := nextSeqNo);
      messages := messages + [stored];
      deviceSequences := deviceSequences[k := row.sequence];
      nextSeqNo := nextSeqNo + 1;
      return Inserted(Tables(messages, deviceSequences, nextSeqNo), stored);
    }

    method PurgeChannel(ch: Channel)
      modifies this`messages
      ensures View() == Purge(old(View()), ch)
    {
      var kept: seq<Row> := [];
      for i := 0 to |messages|
        invariant kept == Without(messages[..i], ch)
        invariant messages == old(messages)
      {
        assert messages[..i + 1][..i] == messages[..i];
        if messages[i].channel != ch {
          kept := kept + [messages[i]];
        }
      }
      assert messages[..|messages|] == messages;
      messages := kept;
    }

    method ExpireChannel(ch: Channel, now: int, retention: int)
      modifies this`messages
      ensures View() == Expire(old(View()), ch, now, retention)
    {
      if Retains(ch) {
        return;
      }
      var last := LastMessageAt(ch);
      if last.Some? && now - last.value >= retention {
        PurgeChannel(ch);
      }
    }
  }

  // ---- Posting ----

  /** The store survives restarts; the limiters do not. */
  datatype State = State(tables: Tables, hits: map<Channel, Policy.Hits>, texts: map<Channel, Policy.Texts>)

  function HitsFor(hits: map<Channel, Policy.Hits>, ch: Channel): Policy.Hits {
    if ch in hits then hits[ch] else map[]
  }

  function TextsFor(texts: map<Channel, Policy.Texts>, ch: Channel): Policy.Texts {
    if ch in texts then texts[ch] else map[]
  }

  datatype Refusal = Invalid | Forbidden | Unauthenticated | DuplicateEvent | StaleSequence | RateLimited | Repeated

  datatype Posted = Accepted(state: State, row: Row) | Refused(state: State, why: Refusal)

  datatype Session = Session(identity: Id, device: Device)

  /** One post, in the order its checks are made. `signed` is the signature check against the session's certificate,
      `clean` the body policy, `owner` whether the session is the owner's. */
  datatype Request = Request(session: Session, event: Event, channel: Channel, signed: bool, clean: bool, owner: bool)

  function Check(t: Tables, r: Request, now: int): Option<Refusal> {
    var e := r.event.fields;
    if !e.supported then Some(Invalid)
    else if e.identity != r.session.identity || e.device != r.session.device then Some(Forbidden)
    else if r.event.id != IdOf(e) || !r.signed then Some(Unauthenticated)
    else if e.createdAt - now > EVENT_SKEW || now - e.createdAt > EVENT_SKEW then Some(Invalid)
    else if e.payload.channel != r.channel || !r.clean then Some(Invalid)
    else if OwnerOnly(r.channel) && !r.owner then Some(Forbidden)
    else if HasEvent(t.rows, r.event.id) then Some(DuplicateEvent)
    else if e.sequence <= LastSequence(t, (e.identity, e.device)) then Some(StaleSequence)
    else None
  }

  function RowOf(r: Request, now: int): Row {
    var e := r.event.fields;
    Row(0, r.channel, r.event.id, e.identity, e.device, e.createdAt, now, e.sequence, e.payload.body)
  }

  function Post(g: State, r: Request, now: int, retention: int): Posted {
    var problem := Check(g.tables, r, now);
    if problem.Some? then Refused(g, problem.value)
    else
      var who := r.session.identity;
      var t := Expire(g.tables, r.channel, now, retention);
      var rate := Policy.Allow(HitsFor(g.hits, r.channel), RateLimit(r.channel), RATE_WINDOW, who, now);
      var g1 := State(t, g.hits[r.channel := rate.hits], g.texts);
      if !rate.ok then Refused(g1, RateLimited)
      else
        var guard := Policy.AllowText(TextsFor(g.texts, r.channel), DUPLICATE_THRESHOLD, RATE_WINDOW, who, r.event.fields.payload.body, now);
        var g2 := g1.(texts := g.texts[r.channel := guard.texts]);
        if !guard.ok then Refused(g2, Repeated)
        else
          match Insert(t, RowOf(r, now))
          case Inserted(tables, row) => Accepted(g2.(tables := tables), row)
          case Duplicate => Refused(g2, DuplicateEvent)
          case Stale => Refused(g2, StaleSequence)
  }

  // ---- The life of a gateway ----

  datatype Step =
    | DoPost(request: Request, now: int)
    | DoRead(channel: Channel, now: int)
    | DoRestart(now: int)

  /** `accepted` is every event ever accepted; `log` and `said` are everything the limiter and the guard allowed since
      the last restart; `since` is where in `accepted` that restart was, and `restarts` when all of them were. */
  datatype World = World(
    state: State, accepted: seq<Row>, events: seq<Event>, log: map<Channel, Policy.Hits>, said: map<Channel, Policy.Bodies>,
    since: nat, restarts: seq<int>)

  function Start(): World {
    World(State(Tables([], map[], 1), map[], map[]), [], [], map[], map[], 0, [])
  }

  function SaidFor(said: map<Channel, Policy.Bodies>, ch: Channel): Policy.Bodies {
    if ch in said then said[ch] else map[]
  }

  function PostingOf(r: Request, now: int): Policy.Posting {
    Policy.Posting(r.session.identity, r.event.fields.payload.body, now)
  }

  /** What the guard was asked and allowed, if it was asked at all. */
  function SaidAfter(w: World, r: Request, now: int): map<Channel, Policy.Bodies> {
    if Check(w.state.tables, r, now).Some? || !Policy.Allow(HitsFor(w.state.hits, r.channel), RateLimit(r.channel), RATE_WINDOW, r.session.identity, now).ok
    then w.said
    else w.said[r.channel := Policy.AllowTextForever(SaidFor(w.said, r.channel), DUPLICATE_THRESHOLD, RATE_WINDOW, PostingOf(r, now)).log]
  }

  function Next(w: World, step: Step, retention: int): World {
    match step
    case DoPost(r, now) =>
      var p := Post(w.state, r, now, retention);
      var log :=
        if Check(w.state.tables, r, now).Some? then w.log
        else w.log[r.channel := Policy.AllowForever(HitsFor(w.log, r.channel), RateLimit(r.channel), RATE_WINDOW, r.session.identity, now).hits];
      var w1 := w.(state := p.state, log := log, said := SaidAfter(w, r, now));
      if p.Accepted? then w1.(accepted := w.accepted + [p.row], events := w.events + [r.event]) else w1
    case DoRead(ch, now) => w.(state := w.state.(tables := Expire(w.state.tables, ch, now, retention)))
    case DoRestart(now) =>
      w.(state := State(w.state.tables, map[], map[]), log := map[], said := map[], since := |w.accepted|, restarts := w.restarts + [now])
  }

  function Run(w: World, steps: seq<Step>, retention: int): World
    decreases |steps|
  {
    if steps == [] then w else Run(Next(w, steps[0], retention), steps[1..], retention)
  }

  // ---- No event twice ----

  ghost predicate AcceptedOk(w: World, i: nat)
    requires i < |w.accepted| == |w.events|
  {
    var row, e := w.accepted[i], w.events[i];
    && e.id == IdOf(e.fields) && row.eventId == e.id
    && row.identity == e.fields.identity && row.device == e.fields.device && row.sequence == e.fields.sequence
    && 1 <= row.sequence <= LastSequence(w.state.tables, (row.identity, row.device))
    && row.seqNo < w.state.tables.nextSeqNo
  }

  ghost predicate Increases(w: World, i: nat, j: nat)
    requires i < j < |w.accepted| == |w.events|
  {
    && w.events[i].id != w.events[j].id
    && w.accepted[i].seqNo < w.accepted[j].seqNo
    && ((w.accepted[i].identity, w.accepted[i].device) == (w.accepted[j].identity, w.accepted[j].device) ==>
          w.accepted[i].sequence < w.accepted[j].sequence)
  }

  ghost predicate LifeOk(w: World) {
    && |w.accepted| == |w.events|
    && (forall k :: k in w.state.tables.sequences ==> w.state.tables.sequences[k] >= 0)
    && (forall i: nat :: i < |w.accepted| ==> AcceptedOk(w, i))
    && (forall i: nat, j: nat :: i < j < |w.accepted| ==> Increases(w, i, j))
  }

  lemma PostFacts(g: State, r: Request, now: int, retention: int)
    ensures var p := Post(g, r, now, retention);
            && (p.Refused? ==> p.state.tables.sequences == g.tables.sequences && p.state.tables.nextSeqNo == g.tables.nextSeqNo)
            && (p.Accepted? ==>
                  var e := r.event.fields;
                  && r.event.id == IdOf(e) && p.row == RowOf(r, now).(seqNo := g.tables.nextSeqNo)
                  && e.sequence > LastSequence(g.tables, (e.identity, e.device))
                  && p.state.tables.sequences == g.tables.sequences[(e.identity, e.device) := e.sequence]
                  && p.state.tables.nextSeqNo == g.tables.nextSeqNo + 1)
  {
  }

  lemma LifeStays(w: World, w': World)
    requires LifeOk(w) && w'.accepted == w.accepted && w'.events == w.events
    requires w'.state.tables.sequences == w.state.tables.sequences && w'.state.tables.nextSeqNo == w.state.tables.nextSeqNo
    ensures LifeOk(w')
  {
    forall i: nat | i < |w.accepted| ensures AcceptedOk(w', i) {
      assert AcceptedOk(w, i);
    }
    forall i: nat, j: nat | i < j < |w.accepted| ensures Increases(w', i, j) {
      assert Increases(w, i, j);
    }
  }

  /** One more accepted event, with a sequence beyond the last of its device. */
  lemma LifeGrows(w: World, w': World, row: Row, event: Event)
    requires LifeOk(w) && w'.accepted == w.accepted + [row] && w'.events == w.events + [event]
    requires event.id == IdOf(event.fields) && row.eventId == event.id && row.seqNo == w.state.tables.nextSeqNo
    requires row.identity == event.fields.identity && row.device == event.fields.device && row.sequence == event.fields.sequence
    requires row.sequence > LastSequence(w.state.tables, (row.identity, row.device))
    requires w'.state.tables.sequences == w.state.tables.sequences[(row.identity, row.device) := row.sequence]
    requires w'.state.tables.nextSeqNo == w.state.tables.nextSeqNo + 1
    ensures LifeOk(w')
  {
    forall i: nat | i < |w'.accepted| ensures AcceptedOk(w', i) {
      if i < |w.accepted| {
        assert AcceptedOk(w, i);
      }
    }
    forall i: nat, j: nat | i < j < |w'.accepted| ensures Increases(w', i, j) {
      assert AcceptedOk(w, i);
      if j < |w.accepted| {
        assert Increases(w, i, j);
      }
    }
  }

  lemma NextKeepsLife(w: World, step: Step, retention: int)
    requires LifeOk(w)
    ensures LifeOk(Next(w, step, retention))
  {
    var w' := Next(w, step, retention);
    if step.DoPost? {
      PostFacts(w.state, step.request, step.now, retention);
      var p := Post(w.state, step.request, step.now, retention);
      if p.Accepted? {
        LifeGrows(w, w', p.row, step.request.event);
        return;
      }
    }
    LifeStays(w, w');
  }

  lemma {:induction false} RunKeepsLife(w: World, steps: seq<Step>, retention: int)
    requires LifeOk(w)
    ensures LifeOk(Run(w, steps, retention))
    decreases |steps|
  {
    if steps != [] {
      NextKeepsLife(w, steps[0], retention);
      RunKeepsLife(Next(w, steps[0], retention), steps[1..], retention);
    }
  }

  /** In the whole life of a gateway, through purges and restarts, no event is accepted twice; each device's
      accepted sequences strictly increase, and so do the row numbers. */
  lemma NeverAcceptedTwice(steps: seq<Step>, retention: int, i: nat, j: nat)
    requires i < j < |Run(Start(), steps, retention).accepted|
    ensures var w := Run(Start(), steps, retention);
            && |w.events| == |w.accepted|
            && w.events[i].id != w.events[j].id && w.events[i].fields != w.events[j].fields
            && w.accepted[i].seqNo < w.accepted[j].seqNo
            && ((w.accepted[i].identity, w.accepted[i].device) == (w.accepted[j].identity, w.accepted[j].device) ==>
                  w.accepted[i].sequence < w.accepted[j].sequence)
  {
    RunKeepsLife(Start(), steps, retention);
    var w := Run(Start(), steps, retention);
    assert Increases(w, i, j) && AcceptedOk(w, i) && AcceptedOk(w, j);
  }

  // ---- The rate of accepted posts ----

  /** When posts of `who` to `ch` were accepted. */
  function Times(rows: seq<Row>, ch: Channel, who: Id): seq<int>
    decreases |rows|
  {
    if rows == [] then []
    else
      var before := Times(rows[..|rows| - 1], ch, who);
      var last := rows[|rows| - 1];
      if last.channel == ch && last.identity == who then before + [last.receivedAt] else before
  }

  lemma TimesPush(rows: seq<Row>, row: Row, ch: Channel, who: Id)
    ensures Times(rows + [row], ch, who) ==
            if row.channel == ch && row.identity == who then Times(rows, ch, who) + [row.receivedAt] else Times(rows, ch, who)
  {
    assert (rows + [row])[..|rows|] == rows;
  }

  /** The limiter covers what was allowed, and what was accepted is part of that. */
  ghost predicate RateAt(w: World, clock: int, ch: Channel) {
    && (forall who :: Policy.SameAt(HitsFor(w.state.hits, ch), HitsFor(w.log, ch), clock, RATE_WINDOW, who))
    && Policy.Limited(HitsFor(w.log, ch), RateLimit(ch), RATE_WINDOW)
  }

  ghost predicate PartOf(w: World, ch: Channel, who: Id, end: int)
    requires w.since <= |w.accepted|
  {
    Policy.CountIn(Times(w.accepted[w.since..], ch, who), end, RATE_WINDOW) <= Policy.CountIn(Policy.HitsOf(HitsFor(w.log, ch), who), end, RATE_WINDOW)
  }

  ghost predicate RateOk(w: World, clock: int) {
    && w.since <= |w.accepted|
    && (forall ch :: RateAt(w, clock, ch))
    && (forall ch, who, end :: PartOf(w, ch, who, end))
  }

  function ClockOf(step: Step, clock: int): int {
    if step.DoRead? then clock else step.now
  }

  /** Posts are handled, and restarts happen, at nondecreasing times. */
  ghost predicate Clocked(steps: seq<Step>, clock: int)
    decreases |steps|
  {
    steps == [] || (clock <= ClockOf(steps[0], clock) && Clocked(steps[1..], ClockOf(steps[0], clock)))
  }

  lemma RateLater(w: World, clock: int, later: int, ch: Channel)
    requires RateAt(w, clock, ch) && clock <= later
    ensures RateAt(w, later, ch)
  {
    forall who ensures Policy.SameAt(HitsFor(w.state.hits, ch), HitsFor(w.log, ch), later, RATE_WINDOW, who) {
      assert Policy.SameAt(HitsFor(w.state.hits, ch), HitsFor(w.log, ch), clock, RATE_WINDOW, who);
      Policy.SameLater(HitsFor(w.state.hits, ch), HitsFor(w.log, ch), clock, later, RATE_WINDOW, who);
    }
  }

  /** What a post does to the limiter and to the log. */
  lemma PostRate(w: World, r: Request, now: int, retention: int)
    ensures var w' := Next(w, DoPost(r, now), retention);
            var p := Post(w.state, r, now, retention);
            && w'.since == w.since
            && w'.accepted == (if p.Accepted? then w.accepted + [p.row] else w.accepted)
            && (p.Accepted? ==> p.row.channel == r.channel && p.row.identity == r.session.identity && p.row.receivedAt == now)
            && (p.Accepted? ==> Policy.Allow(HitsFor(w.state.hits, r.channel), RateLimit(r.channel), RATE_WINDOW, r.session.identity, now).ok)
            && (if Check(w.state.tables, r, now).Some? then w'.state.hits == w.state.hits && w'.log == w.log && p.Refused?
                else
                  && w'.state.hits == w.state.hits[r.channel := Policy.Allow(HitsFor(w.state.hits, r.channel), RateLimit(r.channel), RATE_WINDOW, r.session.identity, now).hits]
                  && w'.log == w.log[r.channel := Policy.AllowForever(HitsFor(w.log, r.channel), RateLimit(r.channel), RATE_WINDOW, r.session.identity, now).hits])
  {
  }

  lemma PostKeepsRateAt(w: World, r: Request, now: int, retention: int, ch: Channel)
    requires RateAt(w, now, ch)
    ensures RateAt(Next(w, DoPost(r, now), retention), now, ch)
  {
    PostRate(w, r, now, retention);
    var w' := Next(w, DoPost(r, now), retention);
    if Check(w.state.tables, r, now).Some? || ch != r.channel {
      assert HitsFor(w'.state.hits, ch) == HitsFor(w.state.hits, ch) && HitsFor(w'.log, ch) == HitsFor(w.log, ch);
      forall who ensures Policy.SameAt(HitsFor(w'.state.hits, ch), HitsFor(w'.log, ch), now, RATE_WINDOW, who) {
        assert Policy.SameAt(HitsFor(w.state.hits, ch), HitsFor(w.log, ch), now, RATE_WINDOW, who);
      }
    } else {
      var hits, log, limit, id := HitsFor(w.state.hits, ch), HitsFor(w.log, ch), RateLimit(ch), r.session.identity;
      Policy.AllowKeepsLimited(log, limit, RATE_WINDOW, id, now);
      forall who ensures Policy.SameAt(Policy.Allow(hits, limit, RATE_WINDOW, id, now).hits, Policy.AllowForever(log, limit, RATE_WINDOW, id, now).hits, now, RATE_WINDOW, who) {
        assert Policy.SameAt(hits, log, now, RATE_WINDOW, id) && Policy.SameAt(hits, log, now, RATE_WINDOW, who);
        Policy.AllowAgrees(hits, log, limit, RATE_WINDOW, id, now, who);
      }
    }
  }

  /** An allowed post adds one hit; an accepted post was allowed. */
  lemma PostKeepsPart(w: World, r: Request, now: int, retention: int, ch: Channel, who: Id, end: int)
    requires w.since <= |w.accepted| && PartOf(w, ch, who, end) && RateAt(w, now, r.channel)
    ensures PartOf(Next(w, DoPost(r, now), retention), ch, who, end)
  {
    PostRate(w, r, now, retention);
    var w' := Next(w, DoPost(r, now), retention);
    var p := Post(w.state, r, now, retention);
    LogGrows(w, r, now, retention, ch, who, end);
    if p.Accepted? {
      assert w'.accepted[w.since..] == w.accepted[w.since..] + [p.row];
      TimesPush(w.accepted[w.since..], p.row, ch, who);
      Policy.CountPush(Times(w.accepted[w.since..], ch, who), now, end, RATE_WINDOW);
    }
  }

  /** What a post adds to the window's count of the log: one for an accepted post in the window, never less than nothing. */
  lemma LogGrows(w: World, r: Request, now: int, retention: int, ch: Channel, who: Id, end: int)
    requires RateAt(w, now, r.channel)
    ensures var before := Policy.CountIn(Policy.HitsOf(HitsFor(w.log, ch), who), end, RATE_WINDOW);
            var after := Policy.CountIn(Policy.HitsOf(HitsFor(Next(w, DoPost(r, now), retention).log, ch), who), end, RATE_WINDOW);
            var accepted := Post(w.state, r, now, retention).Accepted? && ch == r.channel && who == r.session.identity;
            after >= before + if accepted && end - RATE_WINDOW < now <= end then 1 else 0
  {
    PostRate(w, r, now, retention);
    var id := r.session.identity;
    assert Policy.SameAt(HitsFor(w.state.hits, r.channel), HitsFor(w.log, r.channel), now, RATE_WINDOW, id);
    HitCounted(w.state.hits, w.log, Next(w, DoPost(r, now), retention).log, r.channel, id, now, ch, who, end,
               Check(w.state.tables, r, now).None?, Post(w.state, r, now, retention).Accepted?);
  }

  lemma HitCounted(hits: map<Channel, Policy.Hits>, log: map<Channel, Policy.Hits>, log': map<Channel, Policy.Hits>,
                   to: Channel, id: Id, now: int, ch: Channel, who: Id, end: int, tried: bool, accepted: bool)
    requires Policy.SameAt(HitsFor(hits, to), HitsFor(log, to), now, RATE_WINDOW, id)
    requires log' == if tried then log[to := Policy.AllowForever(HitsFor(log, to), RateLimit(to), RATE_WINDOW, id, now).hits] else log
    requires accepted ==> tried && Policy.Allow(HitsFor(hits, to), RateLimit(to), RATE_WINDOW, id, now).ok
    ensures Policy.CountIn(Policy.HitsOf(HitsFor(log', ch), who), end, RATE_WINDOW) >=
            Policy.CountIn(Policy.HitsOf(HitsFor(log, ch), who), end, RATE_WINDOW) +
            (if accepted && ch == to && who == id && end - RATE_WINDOW < now <= end then 1 else 0)
  {
    if tried && ch == to {
      assert accepted ==> Policy.AllowForever(HitsFor(log, to), RateLimit(to), RATE_WINDOW, id, now).ok by {
        Policy.AllowAgrees(HitsFor(hits, to), HitsFor(log, to), RateLimit(to), RATE_WINDOW, id, now, id);
      }
      Policy.ForeverCount(HitsFor(log, to), RateLimit(to), RATE_WINDOW, id, now, who, end);
    }
  }

  lemma NextKeepsRate(w: World, step: Step, retention: int, clock: int)
    requires RateOk(w, clock) && clock <= ClockOf(step, clock)
    ensures RateOk(Next(w, step, retention), ClockOf(step, clock))
  {
    var w' := Next(w, step, retention);
    if step.DoPost? {
      forall ch ensures RateAt(w, step.now, ch) {
        assert RateAt(w, clock, ch);
        RateLater(w, clock, step.now, ch);
      }
      forall ch ensures RateAt(w', step.now, ch) {
        PostKeepsRateAt(w, step.request, step.now, retention, ch);
      }
      PostRate(w, step.request, step.now, retention);
      forall ch, who, end ensures PartOf(w', ch, who, end) {
        assert PartOf(w, ch, who, end);
        PostKeepsPart(w, step.request, step.now, retention, ch, who, end);
      }
    } else {
      forall ch ensures RateAt(w', ClockOf(step, clock), ch) {
        assert RateAt(w, clock, ch);
      }
      forall ch, who, end ensures PartOf(w', ch, who, end) {
        assert PartOf(w, ch, who, end);
      }
    }
  }

  ghost function ClockAfter(steps: seq<Step>, clock: int): int
    decreases |steps|
  {
    if steps == [] then clock else ClockAfter(steps[1..], ClockOf(steps[0], clock))
  }

  lemma {:induction false} RunKeepsRate(w: World, steps: seq<Step>, retention: int, clock: int)
    requires RateOk(w, clock) && Clocked(steps, clock)
    ensures RateOk(Run(w, steps, retention), ClockAfter(steps, clock))
    decreases |steps|
  {
    if steps != [] {
      NextKeepsRate(w, steps[0], retention, clock);
      RunKeepsRate(Next(w, steps[0], retention), steps[1..], retention, ClockOf(steps[0], clock));
    }
  }

  /** Since the last restart, no minute, wherever it ends, holds more accepted posts of one identity to a channel than
      the channel's limit. */
  lemma PostsStayWithinRate(steps: seq<Step>, retention: int, clock: int, ch: Channel, who: Id, end: int)
    requires Clocked(steps, clock)
    ensures var w := Run(Start(), steps, retention);
            w.since <= |w.accepted| && Policy.CountIn(Times(w.accepted[w.since..], ch, who), end, RATE_WINDOW) <= RateLimit(ch)
  {
    assert RateOk(Start(), clock);
    RunKeepsRate(Start(), steps, retention, clock);
    var w := Run(Start(), steps, retention);
    assert RateAt(w, ClockAfter(steps, clock), ch) && PartOf(w, ch, who, end);
    assert Policy.CountIn(Policy.HitsOf(HitsFor(w.log, ch), who), end, RATE_WINDOW) <= RateLimit(ch);
  }
}
