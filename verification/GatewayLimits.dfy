/**
 What the gateway's limiters promise of accepted posts: repeated bodies since a restart, the rate across restarts,
 and why a restart counts. The limiters are in memory only (packages/gateway/src/gateway.ts).
 */
module GatewayLimits {
  import opened Basics
  import Policy
  import opened Gateway

  // ---- Repeated bodies ----

  /** When `body` of `who` was accepted in `ch`. */
  function BodyTimes(rows: seq<Row>, ch: Channel, who: Id, body: Text): seq<int>
    decreases |rows|
  {
    if rows == [] then []
    else
      var before := BodyTimes(rows[..|rows| - 1], ch, who, body);
      var last := rows[|rows| - 1];
      if last.channel == ch && last.identity == who && last.body == body then before + [last.receivedAt] else before
  }

  lemma BodyTimesPush(rows: seq<Row>, row: Row, ch: Channel, who: Id, body: Text)
    ensures BodyTimes(rows + [row], ch, who, body) ==
            if row.channel == ch && row.identity == who && row.body == body then BodyTimes(rows, ch, who, body) + [row.receivedAt]
            else BodyTimes(rows, ch, who, body)
  {
    assert (rows + [row])[..|rows|] == rows;
  }

  ghost predicate GuardAt(w: World, clock: int, ch: Channel) {
    && Policy.SameTexts(TextsFor(w.state.texts, ch), SaidFor(w.said, ch), clock, RATE_WINDOW)
    && Policy.FewEqual(SaidFor(w.said, ch), DUPLICATE_THRESHOLD, RATE_WINDOW)
  }

  ghost predicate SaidPart(w: World, ch: Channel, who: Id, body: Text, end: int)
    requires w.since <= |w.accepted|
  {
    Policy.CountIn(BodyTimes(w.accepted[w.since..], ch, who, body), end, RATE_WINDOW) <=
    Policy.CountIn(Policy.BodiesOf(SaidFor(w.said, ch), (who, body)), end, RATE_WINDOW)
  }

  ghost predicate GuardOk(w: World, clock: int) {
    && w.since <= |w.accepted|
    && (forall ch :: GuardAt(w, clock, ch))
    && (forall ch, who, body, end :: SaidPart(w, ch, who, body, end))
  }

  /** Whether the guard was asked. */
  predicate Asked(w: World, r: Request, now: int) {
    && Check(w.state.tables, r, now).None?
    && Policy.Allow(HitsFor(w.state.hits, r.channel), RateLimit(r.channel), RATE_WINDOW, r.session.identity, now).ok
  }

  /** What a post does to the guard's table, and what an accepted row holds. */
  lemma PostTexts(g: State, r: Request, now: int, retention: int)
    ensures var p := Post(g, r, now, retention);
            var asked := Check(g.tables, r, now).None? && Policy.Allow(HitsFor(g.hits, r.channel), RateLimit(r.channel), RATE_WINDOW, r.session.identity, now).ok;
            var guard := Policy.AllowText(TextsFor(g.texts, r.channel), DUPLICATE_THRESHOLD, RATE_WINDOW, r.session.identity, r.event.fields.payload.body, now);
            && p.state.texts == (if asked then g.texts[r.channel := guard.texts] else g.texts)
            && (p.Accepted? ==> asked && guard.ok)
            && (p.Accepted? ==> p.row.channel == r.channel && p.row.identity == r.session.identity && p.row.body == r.event.fields.payload.body && p.row.receivedAt == now)
  {
  }

  /** What a post does to the guard and to what it allowed. */
  lemma PostGuard(w: World, r: Request, now: int, retention: int)
    ensures var w' := Next(w, DoPost(r, now), retention); var p := Post(w.state, r, now, retention);
            var guard := Policy.AllowText(TextsFor(w.state.texts, r.channel), DUPLICATE_THRESHOLD, RATE_WINDOW, r.session.identity, r.event.fields.payload.body, now);
            && w'.since == w.since && w'.said == SaidAfter(w, r, now)
            && w'.accepted == (if p.Accepted? then w.accepted + [p.row] else w.accepted)
            && (p.Accepted? ==> Asked(w, r, now) && guard.ok)
            && (p.Accepted? ==> p.row.channel == r.channel && p.row.identity == r.session.identity && p.row.body == r.event.fields.payload.body && p.row.receivedAt == now)
            && w'.state.texts == (if Asked(w, r, now) then w.state.texts[r.channel := guard.texts] else w.state.texts)
  {
    PostTexts(w.state, r, now, retention);
  }

  lemma GuardLater(w: World, clock: int, later: int, ch: Channel)
    requires GuardAt(w, clock, ch) && clock <= later
    ensures GuardAt(w, later, ch)
  {
    var texts, said := TextsFor(w.state.texts, ch), SaidFor(w.said, ch);
    forall k ensures Policy.SameText(texts, said, later, RATE_WINDOW, k) {
      assert Policy.SameText(texts, said, clock, RATE_WINDOW, k);
      Policy.SameTextLater(texts, said, clock, later, RATE_WINDOW, k);
    }
  }

  lemma GuardNext(texts: map<Channel, Policy.Texts>, said: map<Channel, Policy.Bodies>, to: Channel, p: Policy.Posting)
    requires Policy.SameTexts(TextsFor(texts, to), SaidFor(said, to), p.now, RATE_WINDOW) && Policy.FewEqual(SaidFor(said, to), DUPLICATE_THRESHOLD, RATE_WINDOW)
    ensures var a := Policy.AllowText(TextsFor(texts, to), DUPLICATE_THRESHOLD, RATE_WINDOW, p.key, p.body, p.now);
            var b := Policy.AllowTextForever(SaidFor(said, to), DUPLICATE_THRESHOLD, RATE_WINDOW, p);
            && a.ok == b.ok && Policy.SameTexts(a.texts, b.log, p.now, RATE_WINDOW) && Policy.FewEqual(b.log, DUPLICATE_THRESHOLD, RATE_WINDOW)
  {
    var a := Policy.AllowText(TextsFor(texts, to), DUPLICATE_THRESHOLD, RATE_WINDOW, p.key, p.body, p.now);
    var b := Policy.AllowTextForever(SaidFor(said, to), DUPLICATE_THRESHOLD, RATE_WINDOW, p);
    Policy.SameTextsNext(TextsFor(texts, to), SaidFor(said, to), DUPLICATE_THRESHOLD, RATE_WINDOW, p, p.now, a, b);
    Policy.AllowTextFew(SaidFor(said, to), DUPLICATE_THRESHOLD, RATE_WINDOW, p);
  }

  lemma PostKeepsGuardAt(w: World, r: Request, now: int, retention: int, ch: Channel)
    requires GuardAt(w, now, ch)
    ensures GuardAt(Next(w, DoPost(r, now), retention), now, ch)
  {
    PostGuard(w, r, now, retention);
    if Asked(w, r, now) && ch == r.channel {
      GuardNext(w.state.texts, w.said, ch, PostingOf(r, now));
    }
  }

  lemma PostKeepsSaid(w: World, r: Request, now: int, retention: int, ch: Channel, who: Id, body: Text, end: int)
    requires w.since <= |w.accepted| && SaidPart(w, ch, who, body, end) && GuardAt(w, now, r.channel)
    ensures SaidPart(Next(w, DoPost(r, now), retention), ch, who, body, end)
  {
    PostGuard(w, r, now, retention);
    var w', p := Next(w, DoPost(r, now), retention), Post(w.state, r, now, retention);
    SaidGrows(w, r, now, ch, who, body, end, p.Accepted?);
    if p.Accepted? {
      assert w'.accepted[w.since..] == w.accepted[w.since..] + [p.row];
      BodyTimesPush(w.accepted[w.since..], p.row, ch, who, body);
      Policy.CountPush(BodyTimes(w.accepted[w.since..], ch, who, body), now, end, RATE_WINDOW);
    }
  }

  lemma SaidGrows(w: World, r: Request, now: int, ch: Channel, who: Id, body: Text, end: int, accepted: bool)
    requires GuardAt(w, now, r.channel)
    requires accepted ==> Asked(w, r, now) && Policy.AllowText(TextsFor(w.state.texts, r.channel), DUPLICATE_THRESHOLD, RATE_WINDOW, r.session.identity, r.event.fields.payload.body, now).ok
    ensures Policy.CountIn(Policy.BodiesOf(SaidFor(SaidAfter(w, r, now), ch), (who, body)), end, RATE_WINDOW) >=
            Policy.CountIn(Policy.BodiesOf(SaidFor(w.said, ch), (who, body)), end, RATE_WINDOW) +
            (if accepted && ch == r.channel && who == r.session.identity && body == r.event.fields.payload.body && end - RATE_WINDOW < now <= end then 1 else 0)
  {
    if Asked(w, r, now) && ch == r.channel {
      GuardNext(w.state.texts, w.said, ch, PostingOf(r, now));
      Policy.TextForeverCount(SaidFor(w.said, ch), DUPLICATE_THRESHOLD, RATE_WINDOW, PostingOf(r, now), (who, body), end);
    }
  }

  lemma EmptyGuard(clock: int)
    ensures Policy.SameTexts(map[], map[], clock, RATE_WINDOW) && Policy.FewEqual(map[], DUPLICATE_THRESHOLD, RATE_WINDOW)
  {
    Policy.NothingPosted(clock, RATE_WINDOW);
  }

  lemma NextKeepsGuard(w: World, step: Step, retention: int, clock: int)
    requires GuardOk(w, clock) && clock <= ClockOf(step, clock)
    ensures GuardOk(Next(w, step, retention), ClockOf(step, clock))
  {
    var w' := Next(w, step, retention);
    match step {
      case DoPost(r, now) =>
        forall ch ensures GuardAt(w, now, ch) {
          assert GuardAt(w, clock, ch);
          GuardLater(w, clock, now, ch);
        }
        forall ch ensures GuardAt(w', now, ch) {
          PostKeepsGuardAt(w, r, now, retention, ch);
        }
        PostGuard(w, r, now, retention);
        forall ch, who, body, end ensures SaidPart(w', ch, who, body, end) {
          assert SaidPart(w, ch, who, body, end);
          PostKeepsSaid(w, r, now, retention, ch, who, body, end);
        }
      case DoRead(ch, now) =>
        forall c ensures GuardAt(w', clock, c) {
          assert GuardAt(w, clock, c);
        }
        forall c, who, body, end ensures SaidPart(w', c, who, body, end) {
          assert SaidPart(w, c, who, body, end);
        }
      case DoRestart(now) =>
        EmptyGuard(now);
        assert w'.accepted[w'.since..] == [];
        forall c ensures GuardAt(w', now, c) {
        }
    }
  }

  lemma {:induction false} RunKeepsGuard(w: World, steps: seq<Step>, retention: int, clock: int)
    requires GuardOk(w, clock) && Clocked(steps, clock)
    ensures GuardOk(Run(w, steps, retention), ClockAfter(steps, clock))
    decreases |steps|
  {
    if steps != [] {
      NextKeepsGuard(w, steps[0], retention, clock);
      RunKeepsGuard(Next(w, steps[0], retention), steps[1..], retention, ClockOf(steps[0], clock));
    }
  }

  lemma StartGuard(clock: int)
    ensures GuardOk(Start(), clock)
  {
    EmptyGuard(clock);
    forall ch ensures GuardAt(Start(), clock, ch) {
    }
  }

  /** Since the last restart, no minute, wherever it ends, holds more than two accepted posts of one identity with the
      same body in a channel. */
  lemma RepeatsStayFew(steps: seq<Step>, retention: int, clock: int, ch: Channel, who: Id, body: Text, end: int)
    requires Clocked(steps, clock)
    ensures var w := Run(Start(), steps, retention);
            w.since <= |w.accepted| && Policy.CountIn(BodyTimes(w.accepted[w.since..], ch, who, body), end, RATE_WINDOW) <= 2
  {
    StartGuard(clock);
    RunKeepsGuard(Start(), steps, retention, clock);
    var w := Run(Start(), steps, retention);
    assert GuardAt(w, ClockAfter(steps, clock), ch) && SaidPart(w, ch, who, body, end);
    assert Policy.CountIn(Policy.BodiesOf(SaidFor(w.said, ch), (who, body)), end, RATE_WINDOW) <= DUPLICATE_THRESHOLD - 1;
  }

  // ---- The rate across restarts ----

  /** How many restarts fall in the minute that ends at `end`. */
  function RestartsIn(w: World, end: int): nat {
    Policy.CountIn(w.restarts, end, RATE_WINDOW)
  }

  function Accepted(w: World, ch: Channel, who: Id, end: int): nat {
    Policy.CountIn(Times(w.accepted, ch, who), end, RATE_WINDOW)
  }

  function AcceptedBefore(w: World, ch: Channel, who: Id, end: int): nat
    requires w.since <= |w.accepted|
  {
    Policy.CountIn(Times(w.accepted[..w.since], ch, who), end, RATE_WINDOW)
  }

  /** The limit once, and once more for every restart in the minute; at times that are not past, what came before the last
      restart is covered by the restarts alone. */
  ghost predicate AcrossAt(w: World, clock: int, ch: Channel, who: Id, end: int)
    requires w.since <= |w.accepted|
  {
    && Accepted(w, ch, who, end) <= RateLimit(ch) * (1 + RestartsIn(w, end))
    && (clock <= end ==> AcceptedBefore(w, ch, who, end) <= RateLimit(ch) * RestartsIn(w, end))
  }

  ghost predicate AcrossOk(w: World, clock: int) {
    && w.since <= |w.accepted|
    && (forall i :: 0 <= i < |w.accepted| ==> w.accepted[i].receivedAt <= clock)
    && (forall ch, who, end :: AcrossAt(w, clock, ch, who, end))
  }

  lemma {:induction false} TimesConcat(a: seq<Row>, b: seq<Row>, ch: Channel, who: Id)
    ensures Times(a + b, ch, who) == Times(a, ch, who) + Times(b, ch, who)
    decreases |b|
  {
    if b == [] {
      assert a + b == a;
    } else {
      var init, last := b[..|b| - 1], b[|b| - 1];
      TimesConcat(a, init, ch, who);
      assert a + b == (a + init) + [last] && b == init + [last];
      TimesPush(a + init, last, ch, who);
      TimesPush(init, last, ch, who);
    }
  }

  lemma {:induction false} CountConcat(a: seq<int>, b: seq<int>, end: int, w: int)
    ensures Policy.CountIn(a + b, end, w) == Policy.CountIn(a, end, w) + Policy.CountIn(b, end, w)
    decreases |b|
  {
    if b == [] {
      assert a + b == a;
    } else {
      var init, last := b[..|b| - 1], b[|b| - 1];
      CountConcat(a, init, end, w);
      assert a + b == (a + init) + [last] && b == init + [last];
      Policy.CountPush(a + init, last, end, w);
      Policy.CountPush(init, last, end, w);
    }
  }

  /** What was accepted is what was accepted before the last restart and since. */
  lemma AcceptedSplits(w: World, ch: Channel, who: Id, end: int)
    requires w.since <= |w.accepted|
    ensures Accepted(w, ch, who, end) ==
            AcceptedBefore(w, ch, who, end) + Policy.CountIn(Times(w.accepted[w.since..], ch, who), end, RATE_WINDOW)
  {
    var a, b := w.accepted[..w.since], w.accepted[w.since..];
    assert a + b == w.accepted;
    TimesConcat(a, b, ch, who);
    CountConcat(Times(a, ch, who), Times(b, ch, who), end, RATE_WINDOW);
  }

  lemma {:induction false} NoneLeft(rows: seq<Row>, ch: Channel, who: Id, end: int, clock: int)
    requires (forall i :: 0 <= i < |rows| ==> rows[i].receivedAt <= clock) && clock <= end - RATE_WINDOW
    ensures Policy.CountIn(Times(rows, ch, who), end, RATE_WINDOW) == 0
    decreases |rows|
  {
    if rows != [] {
      var init, last := rows[..|rows| - 1], rows[|rows| - 1];
      assert rows == init + [last];
      NoneLeft(init, ch, who, end, clock);
      TimesPush(init, last, ch, who);
      Policy.CountPush(Times(init, ch, who), last.receivedAt, end, RATE_WINDOW);
    }
  }

  lemma OneMore(ch: Channel, n: nat)
    ensures RateLimit(ch) * (n + 1) == RateLimit(ch) * n + RateLimit(ch) && RateLimit(ch) * n >= 0
  {
  }

  lemma SinceLimited(w: World, clock: int, ch: Channel, who: Id, end: int)
    requires RateOk(w, clock)
    ensures Policy.CountIn(Times(w.accepted[w.since..], ch, who), end, RATE_WINDOW) <= RateLimit(ch)
  {
    assert RateAt(w, clock, ch) && PartOf(w, ch, who, end);
    assert Policy.CountIn(Policy.HitsOf(HitsFor(w.log, ch), who), end, RATE_WINDOW) <= RateLimit(ch);
  }

  lemma PostAcross(w: World, w': World, now: int, row: Option<Row>, clock: int, ch: Channel, who: Id, end: int)
    requires AcrossOk(w, clock) && RateOk(w', now) && clock <= now
    requires w'.since == w.since && w'.restarts == w.restarts && w'.accepted == (if row.Some? then w.accepted + [row.value] else w.accepted)
    requires row.Some? ==> row.value.receivedAt == now
    ensures AcrossAt(w', now, ch, who, end)
  {
    assert AcrossAt(w, clock, ch, who, end);
    assert w'.accepted[..w'.since] == w.accepted[..w.since];
    if now <= end {
      AcceptedSplits(w', ch, who, end);
      SinceLimited(w', now, ch, who, end);
      OneMore(ch, RestartsIn(w, end));
    } else if row.Some? {
      TimesPush(w.accepted, row.value, ch, who);
      Policy.CountPush(Times(w.accepted, ch, who), now, end, RATE_WINDOW);
    }
  }

  lemma RestartAcross(w: World, w': World, now: int, clock: int, ch: Channel, who: Id, end: int)
    requires AcrossOk(w, clock) && clock <= now
    requires w'.accepted == w.accepted && w'.since == |w.accepted| && w'.restarts == w.restarts + [now]
    ensures AcrossAt(w', now, ch, who, end)
  {
    assert AcrossAt(w, clock, ch, who, end);
    assert w'.accepted[..w'.since] == w.accepted;
    Policy.CountPush(w.restarts, now, end, RATE_WINDOW);
    OneMore(ch, RestartsIn(w, end));
    OneMore(ch, RestartsIn(w, end) + 1);
    if now <= end - RATE_WINDOW {
      NoneLeft(w.accepted, ch, who, end, clock);
    }
  }

  lemma NextKeepsAcross(w: World, step: Step, retention: int, clock: int)
    requires AcrossOk(w, clock) && RateOk(w, clock) && clock <= ClockOf(step, clock)
    ensures AcrossOk(Next(w, step, retention), ClockOf(step, clock))
  {
    var w' := Next(w, step, retention);
    match step {
      case DoPost(r, now) =>
        NextKeepsRate(w, step, retention, clock);
        PostRate(w, r, now, retention);
        var p := Post(w.state, r, now, retention);
        forall ch, who, end ensures AcrossAt(w', now, ch, who, end) {
          PostAcross(w, w', now, if p.Accepted? then Some(p.row) else None, clock, ch, who, end);
        }
      case DoRead(ch, now) =>
        forall c, who, end ensures AcrossAt(w', clock, c, who, end) {
          assert AcrossAt(w, clock, c, who, end);
        }
      case DoRestart(now) =>
        forall ch, who, end ensures AcrossAt(w', now, ch, who, end) {
          RestartAcross(w, w', now, clock, ch, who, end);
        }
    }
  }

  lemma {:induction false} RunKeepsAcross(w: World, steps: seq<Step>, retention: int, clock: int)
    requires AcrossOk(w, clock) && RateOk(w, clock) && Clocked(steps, clock)
    ensures AcrossOk(Run(w, steps, retention), ClockAfter(steps, clock))
    decreases |steps|
  {
    if steps != [] {
      NextKeepsRate(w, steps[0], retention, clock);
      NextKeepsAcross(w, steps[0], retention, clock);
      RunKeepsAcross(Next(w, steps[0], retention), steps[1..], retention, ClockOf(steps[0], clock));
    }
  }

  /** Over the whole life of a gateway: no minute holds more accepted posts of one identity to a channel than the limit,
      times one plus the restarts in that minute. */
  lemma RateAcrossRestarts(steps: seq<Step>, retention: int, clock: int, ch: Channel, who: Id, end: int)
    requires Clocked(steps, clock)
    ensures var w := Run(Start(), steps, retention);
            Policy.CountIn(Times(w.accepted, ch, who), end, RATE_WINDOW) <= RateLimit(ch) * (1 + Policy.CountIn(w.restarts, end, RATE_WINDOW))
  {
    assert RateOk(Start(), clock);
    forall c, i, e ensures AcrossAt(Start(), clock, c, i, e) {
      OneMore(c, 0);
    }
    RunKeepsAcross(Start(), steps, retention, clock);
    var w := Run(Start(), steps, retention);
    assert AcrossAt(w, ClockAfter(steps, clock), ch, who, end);
  }

  // ---- Why a restart counts ----

  /** The n-th of a run of posts at time 0. */
  function BurstPost(n: nat): Request {
    var fields := Preimage(true, "a", "d", 0, n, [], Payload(Public, "hello"));
    Request(Session("a", "d"), Event(IdOf(fields), fields), Public, true, true, false)
  }

  /** `n` posts, each followed by a restart. */
  function Burst(n: nat): seq<Step> {
    if n == 0 then [] else Burst(n - 1) + [DoPost(BurstPost(n), 0)] + [DoRestart(0)]
  }

  lemma {:induction false} RunSnoc(w: World, steps: seq<Step>, step: Step, retention: int)
    ensures Run(w, steps + [step], retention) == Next(Run(w, steps, retention), step, retention)
    decreases |steps|
  {
    if steps == [] {
      assert [] + [step] == [step] && [step][1..] == [];
    } else {
      assert (steps + [step])[1..] == steps[1..] + [step] && (steps + [step])[0] == steps[0];
      RunSnoc(Next(w, steps[0], retention), steps[1..], step, retention);
    }
  }

  /** After `n` posts and restarts: all accepted, at time 0, and a table that knows sequence `n`. */
  ghost predicate BurstOk(w: World, n: nat) {
    && w.state.hits == map[] && w.state.texts == map[]
    && LastSequence(w.state.tables, ("a", "d")) == n
    && (forall i :: 0 <= i < |w.state.tables.rows| ==>
          var row := w.state.tables.rows[i]; row.receivedAt == 0 && row.eventId.IdOf? && row.eventId.preimage.sequence <= n)
    && |w.accepted| == n
    && (forall i :: 0 <= i < n ==> w.accepted[i].channel == Public && w.accepted[i].identity == "a" && w.accepted[i].receivedAt == 0)
  }

  lemma {:induction false} LatestIsZero(rows: seq<Row>, ch: Channel)
    requires forall i :: 0 <= i < |rows| ==> rows[i].receivedAt == 0
    ensures Latest(rows, ch).Some? ==> Latest(rows, ch).value == 0
    decreases |rows|
  {
    if rows != [] {
      LatestIsZero(rows[..|rows| - 1], ch);
    }
  }

  lemma EmptyLimiters(who: Id, body: Text)
    ensures Policy.Allow(map[], RateLimit(Public), RATE_WINDOW, who, 0).ok
    ensures Policy.AllowText(map[], DUPLICATE_THRESHOLD, RATE_WINDOW, who, body, 0).ok
  {
    assert Policy.Recent([], 0, RATE_WINDOW) == [] && Policy.RecentEntries([], 0, RATE_WINDOW) == [];
  }

  lemma BurstAccepts(w: World, n: nat, retention: int)
    requires BurstOk(w, n) && retention > 0
    ensures BurstOk(Next(Next(w, DoPost(BurstPost(n + 1), 0), retention), DoRestart(0), retention), n + 1)
  {
    var r := BurstPost(n + 1);
    LatestIsZero(w.state.tables.rows, Public);
    EmptyLimiters("a", "hello");
    assert Check(w.state.tables, r, 0).None?;
    assert Expire(w.state.tables, Public, 0, retention) == w.state.tables;
    assert Insert(w.state.tables, RowOf(r, 0)).Inserted?;
  }

  lemma {:induction false} BurstRuns(n: nat, retention: int)
    requires retention > 0
    ensures BurstOk(Run(Start(), Burst(n), retention), n)
  {
    if n > 0 {
      BurstRuns(n - 1, retention);
      var before := Burst(n - 1);
      RunSnoc(Start(), before, DoPost(BurstPost(n), 0), retention);
      RunSnoc(Start(), before + [DoPost(BurstPost(n), 0)], DoRestart(0), retention);
      BurstAccepts(Run(Start(), before, retention), n - 1, retention);
    }
  }

  lemma {:induction false} AllAtZero(rows: seq<Row>)
    requires forall i :: 0 <= i < |rows| ==> rows[i].channel == Public && rows[i].identity == "a" && rows[i].receivedAt == 0
    ensures Policy.CountIn(Times(rows, Public, "a"), 0, RATE_WINDOW) == |rows|
    decreases |rows|
  {
    if rows != [] {
      var init, last := rows[..|rows| - 1], rows[|rows| - 1];
      assert rows == init + [last];
      AllAtZero(init);
      TimesPush(init, last, Public, "a");
      Policy.CountPush(Times(init, Public, "a"), last.receivedAt, 0, RATE_WINDOW);
    }
  }

  /** With restarts between them, any number of posts of one identity is accepted in a single minute, so the limit
      holds only since a restart. */
  lemma RestartsLiftTheLimit(n: nat, retention: int)
    requires retention > 0
    ensures Policy.CountIn(Times(Run(Start(), Burst(n), retention).accepted, Public, "a"), 0, RATE_WINDOW) == n
  {
    BurstRuns(n, retention);
    AllAtZero(Run(Start(), Burst(n), retention).accepted);
  }
}
