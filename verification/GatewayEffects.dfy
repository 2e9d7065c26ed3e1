/**
 Exactly which posts the gateway accepts, in every run, and which stored messages it lets go
 (packages/gateway/src/gateway.ts). The conditions are about the request and what happened before: the events
 accepted so far, and what limiter and guard allowed in the last minute.
 */
module GatewayEffects {
  import opened Basics
  import Policy
  import opened Gateway
  import opened GatewayLimits

  // ---- Stored messages and sequences are those of accepted events ----

  predicate From(row: Row, k: (Id, Device)) {
    (row.identity, row.device) == k
  }

  ghost predicate LastIsAccepted(w: World, k: (Id, Device)) {
    k in w.state.tables.sequences ==> exists i: nat :: i < |w.accepted| && From(w.accepted[i], k) && w.accepted[i].sequence == w.state.tables.sequences[k]
  }

  ghost predicate Known(w: World) {
    && LifeOk(w)
    && (forall row :: row in w.state.tables.rows ==> row in w.accepted)
    && (forall k :: LastIsAccepted(w, k))
  }

  lemma {:induction false} WithoutIn(rows: seq<Row>, ch: Channel, row: Row)
    ensures row in Without(rows, ch) <==> row in rows && row.channel != ch
    decreases |rows|
  {
    if rows != [] {
      var l := |rows| - 1;
      WithoutIn(rows[..l], ch, row);
      assert rows == rows[..l] + [rows[l]];
    }
  }

  lemma ExpireIn(t: Tables, ch: Channel, now: int, retention: int)
    ensures var t' := Expire(t, ch, now, retention);
            t'.sequences == t.sequences && t'.nextSeqNo == t.nextSeqNo && forall row :: row in t'.rows ==> row in t.rows
  {
    forall row | row in Without(t.rows, ch) ensures row in t.rows {
      WithoutIn(t.rows, ch, row);
    }
  }

  /** What a post leaves in the store. */
  lemma PostRows(g: State, r: Request, now: int, retention: int)
    ensures var p := Post(g, r, now, retention); var left := Expire(g.tables, r.channel, now, retention).rows;
            if p.Accepted? then p.state.tables.rows == left + [p.row] else p.state.tables.rows == left || p.state.tables.rows == g.tables.rows
  {
  }

  lemma PostKeepsKnown(w: World, r: Request, now: int, retention: int)
    requires Known(w)
    ensures Known(Next(w, DoPost(r, now), retention))
  {
    var w', p := Next(w, DoPost(r, now), retention), Post(w.state, r, now, retention);
    NextKeepsLife(w, DoPost(r, now), retention);
    PostFacts(w.state, r, now, retention);
    PostRows(w.state, r, now, retention);
    ExpireIn(w.state.tables, r.channel, now, retention);
    KnownGrows(w, w', if p.Accepted? then Some(p.row) else None);
  }

  lemma KnownGrows(w: World, w': World, row: Option<Row>)
    requires Known(w) && LifeOk(w')
    requires w'.accepted == w.accepted + (if row.Some? then [row.value] else [])
    requires forall x :: x in w'.state.tables.rows ==> x in w.state.tables.rows || row == Some(x)
    requires w'.state.tables.sequences == if row.Some? then w.state.tables.sequences[(row.value.identity, row.value.device) := row.value.sequence]
                                          else w.state.tables.sequences
    ensures Known(w')
  {
    forall k ensures LastIsAccepted(w', k) {
      if k in w'.state.tables.sequences {
        if row.Some? && From(row.value, k) {
          assert From(w'.accepted[|w.accepted|], k);
        } else {
          assert LastIsAccepted(w, k);
          var i: nat :| i < |w.accepted| && From(w.accepted[i], k) && w.accepted[i].sequence == w.state.tables.sequences[k];
          assert From(w'.accepted[i], k);
        }
      }
    }
  }

  lemma {:induction false} RunKeepsKnown(w: World, steps: seq<Step>, retention: int)
    requires Known(w)
    ensures Known(Run(w, steps, retention))
    decreases |steps|
  {
    if steps != [] {
      var w' := Next(w, steps[0], retention);
      match steps[0] {
        case DoPost(r, now) => PostKeepsKnown(w, r, now, retention);
        case DoRead(ch, now) =>
          NextKeepsLife(w, steps[0], retention);
          ExpireIn(w.state.tables, ch, now, retention);
          KnownGrows(w, w', None);
        case DoRestart(_) =>
          NextKeepsLife(w, steps[0], retention);
          KnownGrows(w, w', None);
      }
      RunKeepsKnown(w', steps[1..], retention);
    }
  }

  // ---- What a request must satisfy by itself ----

  /** The author is the session's, the event is supported, signed and identified by its own fields, its time is within
      five minutes, its payload is clean and for this channel, and the owner's channel is the owner's. */
  predicate Proper(r: Request, now: int) {
    var e := r.event.fields;
    && e.identity == r.session.identity && e.device == r.session.device
    && e.supported && r.event.id == IdOf(e) && r.signed
    && now - 5 * 60_000 <= e.createdAt <= now + 5 * 60_000
    && e.payload.channel == r.channel && r.clean
    && (r.channel.Updates? ==> r.owner)
  }

  /** Its sequence is positive and above that of every event of the device accepted before. An event that is still stored
      was accepted, so this excludes repeats. */
  predicate InSequence(w: World, r: Request) {
    var e := r.event.fields;
    e.sequence >= 1 && forall i :: 0 <= i < |w.accepted| && From(w.accepted[i], (e.identity, e.device)) ==> w.accepted[i].sequence < e.sequence
  }

  lemma SequenceIff(w: World, e: Preimage)
    requires Known(w)
    ensures e.sequence > LastSequence(w.state.tables, (e.identity, e.device)) <==>
            e.sequence >= 1 && forall i :: 0 <= i < |w.accepted| && From(w.accepted[i], (e.identity, e.device)) ==> w.accepted[i].sequence < e.sequence
  {
    var k := (e.identity, e.device);
    assert LastIsAccepted(w, k);
    forall i: nat | i < |w.accepted| && From(w.accepted[i], k) ensures 1 <= w.accepted[i].sequence <= LastSequence(w.state.tables, k) {
      assert AcceptedOk(w, i);
    }
  }

  /** A stored id was accepted under a sequence that is used up. */
  lemma HeldIsUsed(w: World, e: Preimage)
    requires Known(w) && HasEvent(w.state.tables.rows, IdOf(e))
    ensures e.sequence <= LastSequence(w.state.tables, (e.identity, e.device))
  {
    var j :| 0 <= j < |w.state.tables.rows| && w.state.tables.rows[j].eventId == IdOf(e);
    var row := w.state.tables.rows[j];
    assert row in w.state.tables.rows;
    var i: nat :| i < |w.accepted| && w.accepted[i] == row;
    assert AcceptedOk(w, i);
  }

  lemma CheckIff(w: World, r: Request, now: int)
    requires Known(w)
    ensures Check(w.state.tables, r, now).None? <==> Proper(r, now) && InSequence(w, r)
  {
    var e := r.event.fields;
    SequenceIff(w, e);
    if HasEvent(w.state.tables.rows, IdOf(e)) {
      HeldIsUsed(w, e);
    }
  }

  // ---- What was allowed before ----

  /** When limiter and guard allowed posts of an identity to a channel since the last restart. */
  function AllowedTimes(w: World, ch: Channel, who: Id): seq<int> {
    Policy.HitsOf(HitsFor(w.log, ch), who)
  }

  function SaidTimes(w: World, ch: Channel, who: Id, body: Text): seq<int> {
    Policy.BodiesOf(SaidFor(w.said, ch), (who, body))
  }

  ghost predicate AllPast(ts: seq<int>, clock: int) {
    forall i :: 0 <= i < |ts| ==> ts[i] <= clock
  }

  ghost predicate Past(w: World, clock: int) {
    && (forall ch, who :: AllPast(AllowedTimes(w, ch, who), clock))
    && (forall ch, who, body :: AllPast(SaidTimes(w, ch, who, body), clock))
  }

  lemma {:induction false} RecentIsMinute(ts: seq<int>, now: int)
    requires AllPast(ts, now)
    ensures |Policy.Recent(ts, now, RATE_WINDOW)| == Policy.CountIn(ts, now, RATE_WINDOW)
    decreases |ts|
  {
    if ts != [] {
      RecentIsMinute(ts[..|ts| - 1], now);
    }
  }

  /** Fewer posts to the channel than its limit were allowed in the minute up to now. */
  ghost predicate RateLeaves(w: World, r: Request, now: int) {
    Policy.CountIn(AllowedTimes(w, r.channel, r.session.identity), now, 60_000) < if r.channel.Updates? then 30 else 5
  }

  /** Fewer than two with the same body. */
  ghost predicate NotRepeated(w: World, r: Request, now: int) {
    Policy.CountIn(SaidTimes(w, r.channel, r.session.identity, r.event.fields.payload.body), now, 60_000) < 2
  }

  ghost predicate Acceptable(w: World, r: Request, now: int) {
    Proper(r, now) && InSequence(w, r) && RateLeaves(w, r, now) && NotRepeated(w, r, now)
  }

  /** All that is known of a reachable gateway at a time its clock has reached. */
  ghost predicate Sound(w: World, clock: int) {
    Known(w) && RateOk(w, clock) && GuardOk(w, clock) && Past(w, clock)
  }

  lemma RateIff(w: World, r: Request, now: int)
    requires RateAt(w, now, r.channel) && AllPast(AllowedTimes(w, r.channel, r.session.identity), now)
    ensures Policy.Allow(HitsFor(w.state.hits, r.channel), RateLimit(r.channel), RATE_WINDOW, r.session.identity, now).ok <==> RateLeaves(w, r, now)
    ensures Policy.AllowForever(HitsFor(w.log, r.channel), RateLimit(r.channel), RATE_WINDOW, r.session.identity, now).ok <==> RateLeaves(w, r, now)
  {
    var who := r.session.identity;
    assert Policy.SameAt(HitsFor(w.state.hits, r.channel), HitsFor(w.log, r.channel), now, RATE_WINDOW, who);
    RecentIsMinute(AllowedTimes(w, r.channel, who), now);
  }

  lemma RepeatIff(w: World, r: Request, now: int)
    requires GuardAt(w, now, r.channel) && AllPast(SaidTimes(w, r.channel, r.session.identity, r.event.fields.payload.body), now)
    ensures Policy.AllowText(TextsFor(w.state.texts, r.channel), DUPLICATE_THRESHOLD, RATE_WINDOW, r.session.identity, r.event.fields.payload.body, now).ok
            <==> NotRepeated(w, r, now)
    ensures Policy.AllowTextForever(SaidFor(w.said, r.channel), DUPLICATE_THRESHOLD, RATE_WINDOW, PostingOf(r, now)).ok <==> NotRepeated(w, r, now)
  {
    var k := (r.session.identity, r.event.fields.payload.body);
    var texts, said := TextsFor(w.state.texts, r.channel), SaidFor(w.said, r.channel);
    assert Policy.SameText(texts, said, now, RATE_WINDOW, k);
    Policy.AllowTextAgrees(texts, said, DUPLICATE_THRESHOLD, RATE_WINDOW, PostingOf(r, now), k);
    RecentIsMinute(SaidTimes(w, r.channel, k.0, k.1), now);
  }

  lemma PostAccepts(g: State, r: Request, now: int, retention: int)
    ensures Post(g, r, now, retention).Accepted? <==>
            && Check(g.tables, r, now).None?
            && Policy.Allow(HitsFor(g.hits, r.channel), RateLimit(r.channel), RATE_WINDOW, r.session.identity, now).ok
            && Policy.AllowText(TextsFor(g.texts, r.channel), DUPLICATE_THRESHOLD, RATE_WINDOW, r.session.identity, r.event.fields.payload.body, now).ok
  {
    ExpireIn(g.tables, r.channel, now, retention);
    var left := Expire(g.tables, r.channel, now, retention).rows;
    if HasEvent(left, r.event.id) {
      var i :| 0 <= i < |left| && left[i].eventId == r.event.id;
      assert left[i] in left;
      var j :| 0 <= j < |g.tables.rows| && g.tables.rows[j] == left[i];
    }
  }

  /** The facts about this request that its conditions rest on, at the time it is handled. */
  lemma AtNow(w: World, clock: int, r: Request, now: int)
    requires Sound(w, clock) && clock <= now
    ensures RateAt(w, now, r.channel) && GuardAt(w, now, r.channel)
    ensures AllPast(AllowedTimes(w, r.channel, r.session.identity), now)
    ensures AllPast(SaidTimes(w, r.channel, r.session.identity, r.event.fields.payload.body), now)
  {
    assert RateAt(w, clock, r.channel) && GuardAt(w, clock, r.channel);
    RateLater(w, clock, now, r.channel);
    GuardLater(w, clock, now, r.channel);
    assert AllPast(AllowedTimes(w, r.channel, r.session.identity), clock);
    assert AllPast(SaidTimes(w, r.channel, r.session.identity, r.event.fields.payload.body), clock);
  }

  lemma PostIff(w: World, clock: int, r: Request, now: int, retention: int)
    requires Sound(w, clock) && clock <= now
    ensures Post(w.state, r, now, retention).Accepted? <==> Acceptable(w, r, now)
  {
    AtNow(w, clock, r, now);
    CheckIff(w, r, now);
    RateIff(w, r, now);
    RepeatIff(w, r, now);
    PostAccepts(w.state, r, now, retention);
  }

  // ---- How the history moves ----

  ghost predicate CountsForRate(w: World, r: Request, now: int) {
    Proper(r, now) && InSequence(w, r) && RateLeaves(w, r, now)
  }

  lemma ForeverMoves(log: Policy.Hits, limit: int, key: Id, now: int, who: Id)
    ensures var a := Policy.AllowForever(log, limit, RATE_WINDOW, key, now);
            Policy.HitsOf(a.hits, who) == Policy.HitsOf(log, who) + if a.ok && who == key then [now] else []
  {
    assert Policy.HitsOf(log, who) + [] == Policy.HitsOf(log, who);
  }

  lemma LogMoves(w: World, clock: int, r: Request, now: int, retention: int, ch: Channel, who: Id)
    requires Sound(w, clock) && clock <= now
    ensures AllowedTimes(Next(w, DoPost(r, now), retention), ch, who) ==
            AllowedTimes(w, ch, who) + if ch == r.channel && who == r.session.identity && CountsForRate(w, r, now) then [now] else []
  {
    AtNow(w, clock, r, now);
    CheckIff(w, r, now);
    RateIff(w, r, now);
    ForeverMoves(HitsFor(w.log, r.channel), RateLimit(r.channel), r.session.identity, now, who);
    LogAfter(w, r, now, retention, ch, who);
  }

  lemma LogAfter(w: World, r: Request, now: int, retention: int, ch: Channel, who: Id)
    ensures AllowedTimes(Next(w, DoPost(r, now), retention), ch, who) ==
            if Check(w.state.tables, r, now).Some? || ch != r.channel then AllowedTimes(w, ch, who) + []
            else Policy.HitsOf(Policy.AllowForever(HitsFor(w.log, ch), RateLimit(ch), RATE_WINDOW, r.session.identity, now).hits, who)
  {
    PostRate(w, r, now, retention);
  }

  lemma SaidMoves(w: World, clock: int, r: Request, now: int, retention: int, ch: Channel, who: Id, body: Text)
    requires Sound(w, clock) && clock <= now
    ensures SaidTimes(Next(w, DoPost(r, now), retention), ch, who, body) ==
            SaidTimes(w, ch, who, body) +
            if ch == r.channel && who == r.session.identity && body == r.event.fields.payload.body && Acceptable(w, r, now) then [now] else []
  {
    AtNow(w, clock, r, now);
    CheckIff(w, r, now);
    RateIff(w, r, now);
    RepeatIff(w, r, now);
    PostGuard(w, r, now, retention);
    assert SaidTimes(w, ch, who, body) + [] == SaidTimes(w, ch, who, body);
  }

  lemma PostKeepsPast(w: World, clock: int, r: Request, now: int, retention: int)
    requires Sound(w, clock) && clock <= now
    ensures Past(Next(w, DoPost(r, now), retention), now)
  {
    var w' := Next(w, DoPost(r, now), retention);
    forall ch, who ensures AllPast(AllowedTimes(w', ch, who), now) {
      assert AllPast(AllowedTimes(w, ch, who), clock);
      LogMoves(w, clock, r, now, retention, ch, who);
    }
    forall ch, who, body ensures AllPast(SaidTimes(w', ch, who, body), now) {
      assert AllPast(SaidTimes(w, ch, who, body), clock);
      SaidMoves(w, clock, r, now, retention, ch, who, body);
    }
  }

  lemma NextKeepsSound(w: World, step: Step, retention: int, clock: int)
    requires Sound(w, clock) && clock <= ClockOf(step, clock)
    ensures Sound(Next(w, step, retention), ClockOf(step, clock))
  {
    var w' := Next(w, step, retention);
    assert Run(w, [step], retention) == w' by {
      assert [step][1..] == [];
    }
    RunKeepsKnown(w, [step], retention);
    NextKeepsRate(w, step, retention, clock);
    NextKeepsGuard(w, step, retention, clock);
    match step {
      case DoPost(r, now) => PostKeepsPast(w, clock, r, now, retention);
      case DoRead(_, _) =>
        forall ch, who ensures AllPast(AllowedTimes(w', ch, who), clock) {
          assert AllPast(AllowedTimes(w, ch, who), clock);
        }
        forall ch, who, body ensures AllPast(SaidTimes(w', ch, who, body), clock) {
          assert AllPast(SaidTimes(w, ch, who, body), clock);
        }
      case DoRestart(_) =>
    }
  }

  lemma {:induction false} RunKeepsSound(w: World, steps: seq<Step>, retention: int, clock: int)
    requires Sound(w, clock) && Clocked(steps, clock)
    ensures Sound(Run(w, steps, retention), ClockAfter(steps, clock))
    decreases |steps|
  {
    if steps != [] {
      NextKeepsSound(w, steps[0], retention, clock);
      RunKeepsSound(Next(w, steps[0], retention), steps[1..], retention, ClockOf(steps[0], clock));
    }
  }

  lemma Reached(steps: seq<Step>, retention: int, clock: int)
    requires Clocked(steps, clock)
    ensures Sound(Run(Start(), steps, retention), ClockAfter(steps, clock))
  {
    StartGuard(clock);
    assert RateOk(Start(), clock);
    RunKeepsSound(Start(), steps, retention, clock);
  }

  // ---- Main results ----

  /** In every run, a post is accepted if and only if it is proper, its sequence is above all that its device had
      accepted, fewer posts of the identity than the channel's limit and fewer than two with the same body were allowed in
      the minute before. It is then stored under its own fields, and otherwise nothing is. */
  lemma AcceptsIff(steps: seq<Step>, retention: int, clock: int, r: Request, now: int)
    requires Clocked(steps, clock) && ClockAfter(steps, clock) <= now
    ensures var w := Run(Start(), steps, retention); var w' := Next(w, DoPost(r, now), retention);
            if Acceptable(w, r, now) then
              && |w'.accepted| == |w.accepted| + 1 && w'.accepted[..|w.accepted|] == w.accepted && w'.events == w.events + [r.event]
              && var row, e := w'.accepted[|w.accepted|], r.event.fields;
              && row in w'.state.tables.rows && row.channel == r.channel && row.eventId == r.event.id && row.identity == e.identity
              && row.device == e.device && row.createdAt == e.createdAt && row.receivedAt == now && row.sequence == e.sequence && row.body == e.payload.body
            else w'.accepted == w.accepted && w'.events == w.events
  {
    Reached(steps, retention, clock);
    var w := Run(Start(), steps, retention);
    PostIff(w, ClockAfter(steps, clock), r, now, retention);
    PostFacts(w.state, r, now, retention);
    PostRows(w.state, r, now, retention);
  }

  /** What counts against the next post: the limiter counts every proper post in sequence that it had room for, the guard
      only those that were accepted. */
  lemma AllowedMoves(steps: seq<Step>, retention: int, clock: int, r: Request, now: int, ch: Channel, who: Id, body: Text)
    requires Clocked(steps, clock) && ClockAfter(steps, clock) <= now
    ensures var w := Run(Start(), steps, retention); var w' := Next(w, DoPost(r, now), retention);
            && AllowedTimes(w', ch, who) ==
               AllowedTimes(w, ch, who) + (if ch == r.channel && who == r.session.identity && CountsForRate(w, r, now) then [now] else [])
            && SaidTimes(w', ch, who, body) ==
               SaidTimes(w, ch, who, body) +
               (if ch == r.channel && who == r.session.identity && body == r.event.fields.payload.body && Acceptable(w, r, now) then [now] else [])
  {
    Reached(steps, retention, clock);
    LogMoves(Run(Start(), steps, retention), ClockAfter(steps, clock), r, now, retention, ch, who);
    SaidMoves(Run(Start(), steps, retention), ClockAfter(steps, clock), r, now, retention, ch, who, body);
  }

  lemma {:induction false} ClockedSnoc(steps: seq<Step>, step: Step, clock: int)
    requires Clocked(steps + [step], clock)
    ensures Clocked(steps, clock) && ClockAfter(steps, clock) <= ClockOf(step, ClockAfter(steps, clock))
    decreases |steps|
  {
    if steps == [] {
      assert ([] + [step])[0] == step;
    } else {
      assert (steps + [step])[0] == steps[0] && (steps + [step])[1..] == steps[1..] + [step];
      ClockedSnoc(steps[1..], step, ClockOf(steps[0], clock));
    }
  }

  /** Step `k` posted the event and met all that is asked. */
  ghost predicate AcceptedBy(steps: seq<Step>, retention: int, k: nat, event: Event) {
    && k < |steps| && steps[k].DoPost? && event == steps[k].request.event
    && Acceptable(Run(Start(), steps[..k], retention), steps[k].request, steps[k].now)
  }

  /** Every event ever accepted, through purges and restarts, was posted by a step that met all of it at the time. */
  lemma {:induction false} EveryAcceptedEarned(steps: seq<Step>, retention: int, clock: int, i: nat)
    requires Clocked(steps, clock) && i < |Run(Start(), steps, retention).events|
    ensures exists k: nat :: AcceptedBy(steps, retention, k, Run(Start(), steps, retention).events[i])
    decreases |steps|
  {
    if steps != [] {
      var l: nat := |steps| - 1;
      var before, last := steps[..l], steps[l];
      assert before + [last] == steps;
      ClockedSnoc(before, last, clock);
      RunSnoc(Start(), before, last, retention);
      var w := Run(Start(), before, retention);
      if i < |w.events| {
        EveryAcceptedEarned(before, retention, clock, i);
        EventsStay(w, last, retention, i);
        StillAccepted(before, last, retention, w.events[i]);
      } else {
        NewlyAccepted(before, last, retention, clock);
        assert Run(Start(), steps, retention).events[i] == last.request.event;
      }
    }
  }

  lemma StillAccepted(before: seq<Step>, last: Step, retention: int, event: Event)
    requires exists k: nat :: AcceptedBy(before, retention, k, event)
    ensures exists k: nat :: AcceptedBy(before + [last], retention, k, event)
  {
    var k: nat :| AcceptedBy(before, retention, k, event);
    assert (before + [last])[..k] == before[..k] && (before + [last])[k] == before[k];
    assert AcceptedBy(before + [last], retention, k, event);
  }

  lemma OneMore(w: World, step: Step, retention: int)
    requires Next(w, step, retention).events != w.events
    ensures step.DoPost? && Next(w, step, retention).events == w.events + [step.request.event]
  {
  }

  lemma NewlyAccepted(before: seq<Step>, last: Step, retention: int, clock: int)
    requires Clocked(before, clock) && ClockAfter(before, clock) <= ClockOf(last, ClockAfter(before, clock))
    requires var w := Run(Start(), before, retention); Next(w, last, retention).events != w.events
    ensures last.DoPost? && AcceptedBy(before + [last], retention, |before|, last.request.event)
    ensures var w := Run(Start(), before, retention); Next(w, last, retention).events == w.events + [last.request.event]
  {
    var w := Run(Start(), before, retention);
    OneMore(w, last, retention);
    assert Acceptable(w, last.request, last.now) by {
      AcceptsIff(before, retention, clock, last.request, last.now);
    }
    LastAccepts(before, last, retention);
  }

  lemma LastAccepts(before: seq<Step>, last: Step, retention: int)
    requires last.DoPost? && Acceptable(Run(Start(), before, retention), last.request, last.now)
    ensures AcceptedBy(before + [last], retention, |before|, last.request.event)
  {
    assert (before + [last])[..|before|] == before;
  }

  lemma EventsStay(w: World, step: Step, retention: int, i: nat)
    requires i < |w.events|
    ensures i < |Next(w, step, retention).events| && Next(w, step, retention).events[i] == w.events[i]
  {
  }

  // ---- Expiry ----

  lemma {:induction false} LatestIs(rows: seq<Row>, ch: Channel)
    ensures var l := Latest(rows, ch);
            && (l.None? <==> forall row :: row in rows ==> row.channel != ch)
            && (l.Some? ==> (forall row :: row in rows && row.channel == ch ==> row.receivedAt <= l.value)
                            && exists row :: row in rows && row.channel == ch && row.receivedAt == l.value)
    decreases |rows|
  {
    if rows != [] {
      var last := rows[|rows| - 1];
      LatestIs(rows[..|rows| - 1], ch);
      assert rows == rows[..|rows| - 1] + [last];
      assert last in rows;
    }
  }

  /** A message goes exactly when its channel is the public one and no message of that channel was received within the
      retention time. */
  lemma ExpiresIff(t: Tables, ch: Channel, now: int, retention: int, row: Row)
    ensures row in Expire(t, ch, now, retention).rows <==>
            row in t.rows && !(row.channel == ch && ch.Public? && forall x :: x in t.rows && x.channel == ch ==> now - x.receivedAt >= retention)
  {
    LatestIs(t.rows, ch);
    WithoutIn(t.rows, ch, row);
  }
}
