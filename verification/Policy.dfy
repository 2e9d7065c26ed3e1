/**
 The limiters of packages/gateway/src/policy.ts: a sliding window per key that forgets old hits and,
 past 50,000 keys, whole keys; and a guard against repeated bodies. Both are proved to answer as a
 limiter that keeps every allowed hit forever would, as long as the clock does not go back.
 */
module Policy {
  import opened Basics

  type Key = string
  type Text = string

  const PRUNE_ABOVE: nat := 50_000

  // ---- Recent hits ----

  /** One hit, if a window of length `w` ending at `now` still covers it. */
  function Live(at: int, now: int, w: int): seq<int> {
    if now - at < w then [at] else []
  }

  /** The hits a window of length `w` ending at `now` still covers. */
  function Recent(ts: seq<int>, now: int, w: int): seq<int>
    decreases |ts|
  {
    if ts == [] then []
    else Recent(ts[..|ts| - 1], now, w) + Live(ts[|ts| - 1], now, w)
  }

  lemma RecentPush(ts: seq<int>, at: int, now: int, w: int)
    ensures Recent(ts + [at], now, w) == Recent(ts, now, w) + Live(at, now, w)
  {
    assert (ts + [at])[..|ts|] == ts;
  }

  /** What has left the window at `now` is not back in it at `later`. */
  ghost predicate Gone(ts: seq<int>, now: int, later: int, w: int) {
    forall i :: 0 <= i < |ts| && now - ts[i] >= w ==> later - ts[i] >= w
  }

  /** Filtering early loses nothing a window needs in which nothing has come back. */
  lemma {:induction false} RecentLater(ts: seq<int>, now: int, later: int, w: int)
    requires Gone(ts, now, later, w)
    ensures Recent(Recent(ts, now, w), later, w) == Recent(ts, later, w)
    decreases |ts|
  {
    if ts != [] {
      var init, at := ts[..|ts| - 1], ts[|ts| - 1];
      assert forall i :: 0 <= i < |init| ==> init[i] == ts[i];
      RecentLater(init, now, later, w);
      if now - at < w {
        RecentPush(Recent(init, now, w), at, later, w);
      } else {
        assert Recent(ts, now, w) == Recent(init, now, w);
      }
    }
  }

  lemma {:induction false} AllOld(ts: seq<int>, now: int, w: int)
    ensures Recent(ts, now, w) == [] <==> forall i :: 0 <= i < |ts| ==> now - ts[i] >= w
    decreases |ts|
  {
    if ts != [] {
      var init := ts[..|ts| - 1];
      AllOld(init, now, w);
      var last := ts[|ts| - 1];
      assert Recent(ts, now, w) == [] <==> Recent(init, now, w) == [] && now - last >= w;
      if forall i :: 0 <= i < |init| ==> now - init[i] >= w {
        assert now - last >= w <==> forall i :: 0 <= i < |ts| ==> now - ts[i] >= w;
      } else {
        var i :| 0 <= i < |init| && now - init[i] < w;
        assert ts[i] == init[i];
      }
    }
  }

  // ---- The sliding window ----

  type Hits = map<Key, seq<int>>

  function HitsOf(hits: Hits, key: Key): seq<int> {
    if key in hits then hits[key] else []
  }

  /** Keys with nothing recent are dropped. */
  function Pruned(hits: Hits, now: int, w: int): Hits {
    map k | k in hits && Recent(hits[k], now, w) != [] :: hits[k]
  }

  function Tidied(hits: Hits, now: int, w: int): Hits {
    if |hits| > PRUNE_ABOVE then Pruned(hits, now, w) else hits
  }

  datatype Answer = Answer(hits: Hits, ok: bool)

  function Allow(hits: Hits, limit: int, w: int, key: Key, now: int): Answer {
    var recent := Recent(HitsOf(hits, key), now, w);
    if |recent| >= limit then Answer(hits[key := recent], false)
    else
      Answer(Tidied(hits[key := recent + [now]], now, w), true)
  }

  class SlidingWindow {
    const limit: int
    const windowMs: int
    var hits: Hits

    constructor (limit: int, windowMs: int)
      ensures this.limit == limit && this.windowMs == windowMs && hits == map[]
    {
      this.limit, this.windowMs, hits := limit, windowMs, map[];
    }

    method AllowHit(key: Key, now: int) returns (ok: bool)
      modifies this
      ensures Answer(hits, ok) == Allow(old(hits), limit, windowMs, key, now)
    {
      var recent := KeepRecent(if key in hits then hits[key] else [], now, windowMs);
      if |recent| >= limit {
        hits := hits[key := recent];
        return false;
      }
      hits := hits[key := recent + [now]];
      if |hits| > PRUNE_ABOVE {
        Prune(now);
      }
      return true;
    }

    method Prune(now: int)
      modifies this
      ensures hits == Pruned(old(hits), now, windowMs)
    {
      var todo := hits.Keys;
      while todo != {}
        invariant todo <= old(hits).Keys
        invariant forall k :: k in hits <==> k in old(hits) && (k in todo || Recent(old(hits)[k], now, windowMs) != [])
        invariant forall k :: k in hits ==> hits[k] == old(hits)[k]
        decreases todo
      {
        var k :| k in todo;
        AllOld(hits[k], now, windowMs);
        if forall i :: 0 <= i < |hits[k]| ==> now - hits[k][i] >= windowMs {
          hits := hits - {k};
        }
        todo := todo - {k};
      }
    }
  }

  method KeepRecent(ts: seq<int>, now: int, w: int) returns (recent: seq<int>)
    ensures recent == Recent(ts, now, w)
  {
    recent := [];
    for i := 0 to |ts|
      invariant recent == Recent(ts[..i], now, w)
    {
      assert ts[..i + 1] == ts[..i] + [ts[i]];
      RecentPush(ts[..i], ts[i], now, w);
      if now - ts[i] < w {
        recent := recent + [ts[i]];
      }
    }
    assert ts[..|ts|] == ts;
  }

  // ---- The limiter that forgets nothing ----

  /** Every hit ever allowed, by key; one more is allowed while fewer than `limit` are recent. */
  function AllowForever(log: Hits, limit: int, w: int, key: Key, now: int): Answer {
    if |Recent(HitsOf(log, key), now, w)| < limit then Answer(log[key := HitsOf(log, key) + [now]], true)
    else Answer(log, false)
  }

  datatype Call = Call(key: Key, now: int)

  ghost predicate Ordered(calls: seq<Call>) {
    forall i, j :: 0 <= i < j < |calls| ==> calls[i].now <= calls[j].now
  }

  // ---- Runs ----

  /** Call `m` takes the window from one table to the next. */
  ghost predicate WindowStep(limit: int, w: int, calls: seq<Call>, hs: seq<Hits>, oks: seq<bool>, m: nat) {
    m < |calls| && m + 1 < |hs| && m < |oks| && Answer(hs[m + 1], oks[m]) == Allow(hs[m], limit, w, calls[m].key, calls[m].now)
  }

  ghost predicate ForeverStep(limit: int, w: int, calls: seq<Call>, ls: seq<Hits>, oks: seq<bool>, m: nat) {
    m < |calls| && m + 1 < |ls| && m < |oks| && Answer(ls[m + 1], oks[m]) == AllowForever(ls[m], limit, w, calls[m].key, calls[m].now)
  }

  /** A run of the window: its tables, and its answers. */
  ghost predicate WindowRun(limit: int, w: int, calls: seq<Call>, hs: seq<Hits>, oks: seq<bool>) {
    |hs| == |calls| + 1 && |oks| == |calls| && hs[0] == map[] && forall m: nat :: m < |calls| ==> WindowStep(limit, w, calls, hs, oks, m)
  }

  /** The same calls put to the limiter that forgets nothing. */
  ghost predicate ForeverRun(limit: int, w: int, calls: seq<Call>, ls: seq<Hits>, oks: seq<bool>) {
    |ls| == |calls| + 1 && |oks| == |calls| && ls[0] == map[] && forall m: nat :: m < |calls| ==> ForeverStep(limit, w, calls, ls, oks, m)
  }

  /** Running the object over a list of calls. */
  method RunWindow(limit: int, w: int, calls: seq<Call>) returns (ghost hs: seq<Hits>, oks: seq<bool>)
    ensures WindowRun(limit, w, calls, hs, oks)
  {
    var window := new SlidingWindow(limit, w);
    hs, oks := [map[]], [];
    while |oks| < |calls|
      invariant |oks| <= |calls| && |hs| == |oks| + 1 && hs[0] == map[] && hs[|oks|] == window.hits
      invariant window.limit == limit && window.windowMs == w
      invariant forall m: nat :: m < |oks| ==> WindowStep(limit, w, calls, hs, oks, m)
    {
      ghost var hs0, oks0 := hs, oks;
      var call := calls[|oks|];
      var ok := window.AllowHit(call.key, call.now);
      hs, oks := hs + [window.hits], oks + [ok];
      forall m: nat | m < |oks| ensures WindowStep(limit, w, calls, hs, oks, m) {
        if m < |oks0| {
          assert WindowStep(limit, w, calls, hs0, oks0, m);
        }
      }
    }
  }

  lemma {:induction false} ForeverRuns(limit: int, w: int, calls: seq<Call>, n: nat) returns (ls: seq<Hits>, oks: seq<bool>)
    requires n <= |calls|
    ensures |ls| == n + 1 && |oks| == n && ls[0] == map[] && forall m: nat :: m < n ==> ForeverStep(limit, w, calls, ls, oks, m)
    decreases n
  {
    ls, oks := [map[]], [];
    if n > 0 {
      var ls0, oks0 := ForeverRuns(limit, w, calls, n - 1);
      var a := AllowForever(ls0[n - 1], limit, w, calls[n - 1].key, calls[n - 1].now);
      ls, oks := ls0 + [a.hits], oks0 + [a.ok];
      forall m: nat | m < n ensures ForeverStep(limit, w, calls, ls, oks, m) {
        if m < n - 1 {
          assert ForeverStep(limit, w, calls, ls0, oks0, m);
        }
      }
    }
  }

  lemma {:induction false} WindowRuns(limit: int, w: int, calls: seq<Call>, n: nat) returns (hs: seq<Hits>, oks: seq<bool>)
    requires n <= |calls|
    ensures |hs| == n + 1 && |oks| == n && hs[0] == map[] && forall m: nat :: m < n ==> WindowStep(limit, w, calls, hs, oks, m)
    decreases n
  {
    hs, oks := [map[]], [];
    if n > 0 {
      var hs0, oks0 := WindowRuns(limit, w, calls, n - 1);
      var a := Allow(hs0[n - 1], limit, w, calls[n - 1].key, calls[n - 1].now);
      hs, oks := hs0 + [a.hits], oks0 + [a.ok];
      forall m: nat | m < n ensures WindowStep(limit, w, calls, hs, oks, m) {
        if m < n - 1 {
          assert WindowStep(limit, w, calls, hs0, oks0, m);
        }
      }
    }
  }

  /** At `clock` the two tables cover the same hits. */
  ghost predicate SameAt(hits: Hits, log: Hits, clock: int, w: int, key: Key) {
    Recent(HitsOf(hits, key), clock, w) == Recent(HitsOf(log, key), clock, w)
  }

  lemma SameLater(hits: Hits, log: Hits, clock: int, later: int, w: int, key: Key)
    requires SameAt(hits, log, clock, w, key) && clock <= later
    ensures SameAt(hits, log, later, w, key)
  {
    RecentLater(HitsOf(hits, key), clock, later, w);
    RecentLater(HitsOf(log, key), clock, later, w);
  }

  lemma {:induction false} RecentIn(ts: seq<int>, now: int, w: int)
    ensures forall x :: x in Recent(ts, now, w) ==> x in ts
    decreases |ts|
  {
    if ts != [] {
      RecentIn(ts[..|ts| - 1], now, w);
    }
  }

  /** Tidying at `now` is not missed at a time when nothing has come back. */
  lemma TidiedSame(hits: Hits, now: int, t: int, w: int, key: Key)
    requires Gone(HitsOf(hits, key), now, t, w)
    ensures Recent(HitsOf(Tidied(hits, now, w), key), t, w) == Recent(HitsOf(hits, key), t, w)
  {
    AllOld(HitsOf(hits, key), now, w);
    AllOld(HitsOf(hits, key), t, w);
  }

  /** Adding the new hit to the filtered list covers what adding it to the full list covers. */
  lemma PushAgrees(hits: Hits, log: Hits, w: int, key: Key, now: int, k: Key, t: int)
    requires SameAt(hits, log, t, w, key) && SameAt(hits, log, t, w, k) && Gone(HitsOf(hits, key), now, t, w)
    ensures SameAt(hits[key := Recent(HitsOf(hits, key), now, w) + [now]], log[key := HitsOf(log, key) + [now]], t, w, k)
  {
    var recent := Recent(HitsOf(hits, key), now, w);
    RecentLater(HitsOf(hits, key), now, t, w);
    RecentPush(recent, now, t, w);
    RecentPush(HitsOf(log, key), now, t, w);
  }

  /** One call: the same answer, and at any time `t` at which nothing has come back the same coverage of every key. */
  lemma AllowAgreesAt(hits: Hits, log: Hits, limit: int, w: int, key: Key, now: int, k: Key, t: int)
    requires SameAt(hits, log, now, w, key) && SameAt(hits, log, t, w, key) && SameAt(hits, log, t, w, k)
    requires Gone(HitsOf(hits, key), now, t, w) && Gone(HitsOf(hits, k), now, t, w) && Gone([now], now, t, w)
    ensures Allow(hits, limit, w, key, now).ok == AllowForever(log, limit, w, key, now).ok
    ensures SameAt(Allow(hits, limit, w, key, now).hits, AllowForever(log, limit, w, key, now).hits, t, w, k)
  {
    var recent := Recent(HitsOf(hits, key), now, w);
    if |recent| < limit {
      PushAgrees(hits, log, w, key, now, k, t);
      GonePush(HitsOf(hits, key), now, t, w);
      TidiedSame(hits[key := recent + [now]], now, t, w, k);
    } else {
      RecentLater(HitsOf(hits, key), now, t, w);
    }
  }

  lemma GonePush(ts: seq<int>, now: int, t: int, w: int)
    requires Gone(ts, now, t, w) && Gone([now], now, t, w)
    ensures Gone(Recent(ts, now, w) + [now], now, t, w)
  {
    var more := Recent(ts, now, w) + [now];
    RecentIn(ts, now, w);
    forall i | 0 <= i < |more| && now - more[i] >= w ensures t - more[i] >= w {
      if i < |more| - 1 {
        assert more[i] in Recent(ts, now, w);
        var j :| 0 <= j < |ts| && ts[j] == more[i];
      } else {
        assert [now][0] == more[i];
      }
    }
  }

  lemma AllowAgrees(hits: Hits, log: Hits, limit: int, w: int, key: Key, now: int, k: Key)
    requires SameAt(hits, log, now, w, key) && SameAt(hits, log, now, w, k)
    ensures Allow(hits, limit, w, key, now).ok == AllowForever(log, limit, w, key, now).ok
    ensures SameAt(Allow(hits, limit, w, key, now).hits, AllowForever(log, limit, w, key, now).hits, now, w, k)
  {
    AllowAgreesAt(hits, log, limit, w, key, now, k, now);
  }

  // ---- When the two answer alike ----

  /** A hit that has left the window never comes back into it. */
  ghost predicate NeverReturns(calls: seq<Call>, w: int) {
    forall i, j, k :: 0 <= i <= j < k < |calls| && calls[j].now - calls[i].now >= w ==> calls[k].now - calls[i].now >= w
  }

  /** A clock that does not go back is enough. */
  lemma OrderedNeverReturns(calls: seq<Call>, w: int)
    requires Ordered(calls)
    ensures NeverReturns(calls, w)
  {
  }

  /** A hit in the table was an earlier call. */
  ghost predicate Earlier(calls: seq<Call>, m: nat, at: int) {
    exists i :: 0 <= i < m && i < |calls| && calls[i].now == at
  }

  ghost predicate Known(hits: Hits, calls: seq<Call>, m: nat) {
    forall k, at :: at in HitsOf(hits, k) ==> Earlier(calls, m, at)
  }

  lemma KnownGone(hits: Hits, calls: seq<Call>, w: int, k: Key, m: nat, n: nat)
    requires Known(hits, calls, m) && m < n < |calls| && NeverReturns(calls, w)
    ensures Gone(HitsOf(hits, k), calls[m].now, calls[n].now, w) && Gone([calls[m].now], calls[m].now, calls[n].now, w)
  {
    var ts := HitsOf(hits, k);
    forall x | 0 <= x < |ts| && calls[m].now - ts[x] >= w ensures calls[n].now - ts[x] >= w {
      assert ts[x] in ts;
      assert Earlier(calls, m, ts[x]);
      var i :| 0 <= i < m && i < |calls| && calls[i].now == ts[x];
    }
  }

  lemma KnownNext(hits: Hits, calls: seq<Call>, limit: int, w: int, m: nat)
    requires m < |calls| && Known(hits, calls, m)
    ensures Known(Allow(hits, limit, w, calls[m].key, calls[m].now).hits, calls, m + 1)
  {
    var key, now := calls[m].key, calls[m].now;
    var after := Allow(hits, limit, w, key, now).hits;
    RecentIn(HitsOf(hits, key), now, w);
    forall k, at | at in HitsOf(after, k) ensures Earlier(calls, m + 1, at) {
      if at in HitsOf(hits, k) {
        assert Earlier(calls, m, at);
        var i :| 0 <= i < m && i < |calls| && calls[i].now == at;
      } else {
        assert at == now && calls[m].now == at;
      }
    }
  }

  /** Before call `m`, the two tables cover the same hits at the time of every call still to come. */
  ghost predicate SameAhead(hits: Hits, log: Hits, w: int, calls: seq<Call>, m: nat, n: nat, k: Key) {
    m <= n < |calls| ==> SameAt(hits, log, calls[n].now, w, k)
  }

  lemma SameAheadNext(hits: Hits, log: Hits, limit: int, w: int, calls: seq<Call>, m: nat, n: nat, k: Key)
    requires m < n < |calls| && NeverReturns(calls, w) && Known(hits, calls, m)
    requires SameAhead(hits, log, w, calls, m, m, calls[m].key) && SameAhead(hits, log, w, calls, m, n, calls[m].key) && SameAhead(hits, log, w, calls, m, n, k)
    ensures SameAhead(Allow(hits, limit, w, calls[m].key, calls[m].now).hits, AllowForever(log, limit, w, calls[m].key, calls[m].now).hits, w, calls, m + 1, n, k)
  {
    KnownGone(hits, calls, w, calls[m].key, m, n);
    KnownGone(hits, calls, w, k, m, n);
    AllowAgreesAt(hits, log, limit, w, calls[m].key, calls[m].now, k, calls[n].now);
  }

  /** The tables before call `m` agree on all that is still to be asked. */
  ghost predicate Agreeing(hits: Hits, log: Hits, w: int, calls: seq<Call>, m: nat) {
    Known(hits, calls, m) && forall n: nat, k: Key :: SameAhead(hits, log, w, calls, m, n, k)
  }

  lemma AgreeingNext(hits: Hits, log: Hits, limit: int, w: int, calls: seq<Call>, m: nat, a: Answer, b: Answer)
    requires m < |calls| && NeverReturns(calls, w) && Agreeing(hits, log, w, calls, m)
    requires a == Allow(hits, limit, w, calls[m].key, calls[m].now) && b == AllowForever(log, limit, w, calls[m].key, calls[m].now)
    ensures a.ok == b.ok && Agreeing(a.hits, b.hits, w, calls, m + 1)
  {
    assert SameAhead(hits, log, w, calls, m, m, calls[m].key);
    AllowAgrees(hits, log, limit, w, calls[m].key, calls[m].now, calls[m].key);
    KnownNext(hits, calls, limit, w, m);
    var next := m + 1;
    forall n: nat, k: Key ensures SameAhead(a.hits, b.hits, w, calls, next, n, k) {
      if next <= n < |calls| {
        assert SameAhead(hits, log, w, calls, m, n, calls[m].key) && SameAhead(hits, log, w, calls, m, n, k);
        SameAheadNext(hits, log, limit, w, calls, m, n, k);
      }
    }
  }

  lemma {:induction false} TablesAgree(limit: int, w: int, calls: seq<Call>, hs: seq<Hits>, oks: seq<bool>, ls: seq<Hits>, full: seq<bool>, m: nat)
    requires NeverReturns(calls, w) && WindowRun(limit, w, calls, hs, oks) && ForeverRun(limit, w, calls, ls, full) && m <= |calls|
    ensures Agreeing(hs[m], ls[m], w, calls, m)
    decreases m
  {
    if m > 0 {
      TablesAgree(limit, w, calls, hs, oks, ls, full, m - 1);
      assert WindowStep(limit, w, calls, hs, oks, m - 1) && ForeverStep(limit, w, calls, ls, full, m - 1);
      AgreeingNext(hs[m - 1], ls[m - 1], limit, w, calls, m - 1, Answer(hs[m], oks[m - 1]), Answer(ls[m], full[m - 1]));
    }
  }

  /** Despite filtering and pruning, the window answers every run of calls in which no hit comes back as if it kept
      every hit. */
  lemma WindowRefines(limit: int, w: int, calls: seq<Call>, hs: seq<Hits>, oks: seq<bool>, ls: seq<Hits>, full: seq<bool>)
    requires NeverReturns(calls, w) && WindowRun(limit, w, calls, hs, oks) && ForeverRun(limit, w, calls, ls, full)
    ensures oks == full
  {
    forall m: nat | m < |calls| ensures oks[m] == full[m] {
      TablesAgree(limit, w, calls, hs, oks, ls, full, m);
      assert WindowStep(limit, w, calls, hs, oks, m) && ForeverStep(limit, w, calls, ls, full, m);
      AgreeingNext(hs[m], ls[m], limit, w, calls, m, Answer(hs[m + 1], oks[m]), Answer(ls[m + 1], full[m]));
    }
  }

  // ---- And only then ----

  lemma RecentOfFew(a: int, b: int, now: int, w: int)
    ensures Recent([], now, w) == [] && Recent([a], now, w) == Live(a, now, w)
    ensures Recent([a, b], now, w) == Live(a, now, w) + Live(b, now, w)
  {
    RecentPush([], a, now, w);
    assert [] + [a] == [a];
    RecentPush([a], b, now, w);
    assert [a] + [b] == [a, b];
  }

  lemma TwoKeys(hits: Hits, a: Key, b: Key)
    requires hits.Keys <= {a, b}
    ensures |hits| <= 2
  {
    SubsetSize(hits.Keys, {a, b});
  }

  lemma ProbeStep(hits: Hits, w: int, key: Key, now: int, a: Key, b: Key)
    requires hits.Keys <= {a, b} && key in {a, b}
    ensures var after := Allow(hits, 2, w, key, now).hits;
            && after.Keys <= {a, b}
            && HitsOf(after, a) ==
               if key != a then HitsOf(hits, a)
               else Recent(HitsOf(hits, a), now, w) + if |Recent(HitsOf(hits, a), now, w)| < 2 then [now] else []
  {
    var recent := Recent(HitsOf(hits, key), now, w);
    TwoKeys(hits[key := recent + [now]], a, b);
    assert recent + [] == recent;
  }

  /** Three calls are made under one key, all others under another. */
  ghost predicate Probes(calls: seq<Call>, i: nat, j: nat, k: nat, a: Key, b: Key) {
    i < j < k < |calls| && a != b && forall x :: 0 <= x < |calls| ==> calls[x].key == if x == i || x == j || x == k then a else b
  }

  /** What the filtered list of the probed key holds before call `m`, and what the full list holds. */
  function Held(m: nat, i: nat, j: nat, ti: int, tj: int): seq<int> {
    if m <= i then [] else if m <= j then [ti] else [tj]
  }

  function Logged(m: nat, i: nat, j: nat, ti: int, tj: int): seq<int> {
    if m <= i then [] else if m <= j then [ti] else [ti, tj]
  }

  /** Call `m` is one of the first two probes. */
  predicate ProbeCall(now: int, m: nat, i: nat, j: nat, ti: int, tj: int, w: int) {
    i < j && tj - ti >= w && ((m == i && now == ti) || (m == j && now == tj))
  }

  lemma HeldNext(ts: seq<int>, limit: int, now: int, m: nat, i: nat, j: nat, ti: int, tj: int, w: int)
    requires limit >= 1 && ProbeCall(now, m, i, j, ti, tj, w) && ts == Held(m, i, j, ti, tj)
    ensures |Recent(ts, now, w)| < limit && Recent(ts, now, w) + [now] == Held(m + 1, i, j, ti, tj)
  {
    RecentOfFew(ti, ti, now, w);
  }

  lemma LoggedNext(ts: seq<int>, limit: int, now: int, m: nat, i: nat, j: nat, ti: int, tj: int, w: int)
    requires limit >= 1 && ProbeCall(now, m, i, j, ti, tj, w) && ts == Logged(m, i, j, ti, tj)
    ensures |Recent(ts, now, w)| < limit && ts + [now] == Logged(m + 1, i, j, ti, tj)
  {
    RecentOfFew(ti, ti, now, w);
  }

  lemma {:induction false} ProbeHits(calls: seq<Call>, w: int, hs: seq<Hits>, oks: seq<bool>, i: nat, j: nat, k: nat, a: Key, b: Key, m: nat)
    requires Probes(calls, i, j, k, a, b) && calls[j].now - calls[i].now >= w && m <= k && WindowRun(2, w, calls, hs, oks)
    ensures hs[m].Keys <= {a, b} && HitsOf(hs[m], a) == Held(m, i, j, calls[i].now, calls[j].now)
    decreases m
  {
    if m > 0 {
      var l := m - 1;
      ProbeHits(calls, w, hs, oks, i, j, k, a, b, l);
      assert WindowStep(2, w, calls, hs, oks, l);
      ProbeStep(hs[l], w, calls[l].key, calls[l].now, a, b);
      if calls[l].key == a {
        HeldNext(HitsOf(hs[l], a), 2, calls[l].now, l, i, j, calls[i].now, calls[j].now, w);
      }
    }
  }

  lemma ProbeLogStep(log: Hits, w: int, key: Key, now: int, a: Key)
    ensures HitsOf(AllowForever(log, 2, w, key, now).hits, a) ==
            if key == a && |Recent(HitsOf(log, a), now, w)| < 2 then HitsOf(log, a) + [now] else HitsOf(log, a)
  {
  }

  /** And what the full list holds. */
  lemma {:induction false} ProbeLog(calls: seq<Call>, w: int, ls: seq<Hits>, full: seq<bool>, i: nat, j: nat, k: nat, a: Key, b: Key, m: nat)
    requires Probes(calls, i, j, k, a, b) && calls[j].now - calls[i].now >= w && m <= k && ForeverRun(2, w, calls, ls, full)
    ensures HitsOf(ls[m], a) == Logged(m, i, j, calls[i].now, calls[j].now)
    decreases m
  {
    if m > 0 {
      var l := m - 1;
      ProbeLog(calls, w, ls, full, i, j, k, a, b, l);
      assert ForeverStep(2, w, calls, ls, full, l);
      ProbeLogStep(ls[l], w, calls[l].key, calls[l].now, a);
      if calls[l].key == a {
        LoggedNext(HitsOf(ls[l], a), 2, calls[l].now, l, i, j, calls[i].now, calls[j].now, w);
      }
    }
  }

  lemma ProbeAnswers(hits: Hits, log: Hits, w: int, a: Key, ti: int, tj: int, tk: int)
    requires w > 0 && tj - ti >= w && tk - ti < w && HitsOf(hits, a) == [tj] && HitsOf(log, a) == [ti, tj]
    ensures Allow(hits, 2, w, a, tk).ok && !AllowForever(log, 2, w, a, tk).ok
  {
    RecentOfFew(tj, tj, tk, w);
    RecentOfFew(ti, tj, tk, w);
  }

  /** Where a hit comes back, these calls and a limit of two show it: the window allows what it should refuse. */
  lemma ReturnShows(calls: seq<Call>, w: int, hs: seq<Hits>, oks: seq<bool>, ls: seq<Hits>, full: seq<bool>, i: nat, j: nat, k: nat, a: Key, b: Key)
    requires w > 0 && Probes(calls, i, j, k, a, b) && calls[j].now - calls[i].now >= w && calls[k].now - calls[i].now < w
    requires WindowRun(2, w, calls, hs, oks) && ForeverRun(2, w, calls, ls, full)
    ensures oks[k] && !full[k]
  {
    ProbeHits(calls, w, hs, oks, i, j, k, a, b, k);
    ProbeLog(calls, w, ls, full, i, j, k, a, b, k);
    assert WindowStep(2, w, calls, hs, oks, k) && ForeverStep(2, w, calls, ls, full, k);
    ProbeAnswers(hs[k], ls[k], w, a, calls[i].now, calls[j].now, calls[k].now);
  }

  function CallsAt(times: seq<int>, keys: seq<Key>): (calls: seq<Call>)
    requires |keys| == |times|
    ensures |calls| == |times| && forall i :: 0 <= i < |times| ==> calls[i] == Call(keys[i], times[i])
  {
    seq(|times|, i requires 0 <= i < |times| => Call(keys[i], times[i]))
  }

  ghost predicate SameAnswers(times: seq<int>, w: int, keys: seq<Key>, limit: int) {
    |keys| == |times| ==>
      forall hs, oks, ls, full :: WindowRun(limit, w, CallsAt(times, keys), hs, oks) && ForeverRun(limit, w, CallsAt(times, keys), ls, full) ==> oks == full
  }

  /** Whatever keys are asked for at these times and whatever the limit, forgetting changes no answer. */
  ghost predicate Faithful(times: seq<int>, w: int) {
    forall keys, limit :: SameAnswers(times, w, keys, limit)
  }

  ghost predicate TimesNeverReturn(times: seq<int>, w: int) {
    forall i, j, k :: 0 <= i <= j < k < |times| && times[j] - times[i] >= w ==> times[k] - times[i] >= w
  }

  function ProbeKeys(length: nat, i: nat, j: nat, k: nat, a: Key, b: Key): (keys: seq<Key>)
    ensures |keys| == length && forall x :: 0 <= x < length ==> keys[x] == if x == i || x == j || x == k then a else b
  {
    seq(length, x => if x == i || x == j || x == k then a else b)
  }

  lemma ReturnRefutes(times: seq<int>, w: int, i: nat, j: nat, k: nat)
    requires w > 0 && i < j < k < |times| && times[j] - times[i] >= w && times[k] - times[i] < w
    ensures !Faithful(times, w)
  {
    var a, b := "a", "b";
    assert a[0] != b[0];
    var keys := ProbeKeys(|times|, i, j, k, a, b);
    var calls := CallsAt(times, keys);
    var hs, oks := WindowRuns(2, w, calls, |calls|);
    var ls, full := ForeverRuns(2, w, calls, |calls|);
    ReturnShows(calls, w, hs, oks, ls, full, i, j, k, a, b);
    assert oks[k] != full[k] && WindowRun(2, w, CallsAt(times, keys), hs, oks) && ForeverRun(2, w, CallsAt(times, keys), ls, full);
    assert !SameAnswers(times, w, keys, 2);
  }

  /** Exactly when the window may forget: if and only if no hit that has left it ever comes back. */
  lemma WindowRefinesIff(times: seq<int>, w: int)
    requires w > 0
    ensures Faithful(times, w) <==> TimesNeverReturn(times, w)
  {
    if TimesNeverReturn(times, w) {
      forall keys, limit ensures SameAnswers(times, w, keys, limit) {
        if |keys| == |times| {
          forall hs, oks, ls, full | WindowRun(limit, w, CallsAt(times, keys), hs, oks) && ForeverRun(limit, w, CallsAt(times, keys), ls, full)
            ensures oks == full
          {
            WindowRefines(limit, w, CallsAt(times, keys), hs, oks, ls, full);
          }
        }
      }
    } else {
      var i: nat, j: nat, k: nat :| i <= j < k < |times| && times[j] - times[i] >= w && times[k] - times[i] < w;
      ReturnRefutes(times, w, i, j, k);
    }
  }

  /** The clock must not go back: here the hit at 0 was forgotten at 20, and at 5 it would have counted. */
  lemma ClockMustNotGoBack(key: Key, hs: seq<Hits>, oks: seq<bool>, ls: seq<Hits>, full: seq<bool>)
    requires var calls := [Call(key, 0), Call(key, 20), Call(key, 5)];
             WindowRun(2, 10, calls, hs, oks) && ForeverRun(2, 10, calls, ls, full)
    ensures oks[2] && !full[2]
  {
    var other := key + "x";
    assert |other| != |key|;
    ReturnShows([Call(key, 0), Call(key, 20), Call(key, 5)], 10, hs, oks, ls, full, 0, 1, 2, key, other);
  }

  // ---- No window holds more than the limit ----

  /** How many hits fall in the window of length `w` that ends at `end`. */
  function CountIn(ts: seq<int>, end: int, w: int): nat
    decreases |ts|
  {
    if ts == [] then 0
    else CountIn(ts[..|ts| - 1], end, w) + if end - w < ts[|ts| - 1] <= end then 1 else 0
  }

  lemma CountPush(ts: seq<int>, at: int, end: int, w: int)
    ensures CountIn(ts + [at], end, w) == CountIn(ts, end, w) + if end - w < at <= end then 1 else 0
  {
    assert (ts + [at])[..|ts|] == ts;
  }

  /** Hits in a window that ends no earlier than `now` are recent at `now`. */
  lemma {:induction false} CountRecent(ts: seq<int>, now: int, end: int, w: int)
    requires now <= end
    ensures CountIn(ts, end, w) <= |Recent(ts, now, w)|
    decreases |ts|
  {
    if ts != [] {
      CountRecent(ts[..|ts| - 1], now, end, w);
    }
  }

  /** No key has more than the limit in any window, however the calls are timed. */
  ghost predicate Limited(log: Hits, limit: int, w: int) {
    forall k, end :: CountIn(HitsOf(log, k), end, w) <= if limit < 0 then 0 else limit
  }

  lemma AllowKeepsLimited(log: Hits, limit: int, w: int, key: Key, now: int)
    requires Limited(log, limit, w)
    ensures Limited(AllowForever(log, limit, w, key, now).hits, limit, w)
  {
    var a := AllowForever(log, limit, w, key, now);
    forall k, end ensures CountIn(HitsOf(a.hits, k), end, w) <= if limit < 0 then 0 else limit {
      assert CountIn(HitsOf(log, k), end, w) <= if limit < 0 then 0 else limit;
      if a.ok && k == key {
        CountPush(HitsOf(log, key), now, end, w);
        if now <= end {
          CountRecent(HitsOf(log, key), now, end, w);
        }
      }
    }
  }

  /** An allowed hit is counted in the windows that hold it; nothing else changes. */
  lemma ForeverCount(log: Hits, limit: int, w: int, key: Key, now: int, k: Key, end: int)
    ensures var a := AllowForever(log, limit, w, key, now);
            CountIn(HitsOf(a.hits, k), end, w) == CountIn(HitsOf(log, k), end, w) + if a.ok && k == key && end - w < now <= end then 1 else 0
  {
    if k == key {
      CountPush(HitsOf(log, key), now, end, w);
    }
  }

  lemma {:induction false} LogLimited(limit: int, w: int, calls: seq<Call>, ls: seq<Hits>, full: seq<bool>, m: nat)
    requires ForeverRun(limit, w, calls, ls, full) && m <= |calls|
    ensures Limited(ls[m], limit, w)
    decreases m
  {
    if m > 0 {
      LogLimited(limit, w, calls, ls, full, m - 1);
      assert ForeverStep(limit, w, calls, ls, full, m - 1);
      AllowKeepsLimited(ls[m - 1], limit, w, calls[m - 1].key, calls[m - 1].now);
    }
  }

  /** When `key` was told yes, among the first `m` calls. */
  function Granted(calls: seq<Call>, oks: seq<bool>, key: Key, m: nat): seq<int>
    requires m <= |calls| == |oks|
  {
    if m == 0 then []
    else if oks[m - 1] && calls[m - 1].key == key then Granted(calls, oks, key, m - 1) + [calls[m - 1].now]
    else Granted(calls, oks, key, m - 1)
  }

  lemma LoggedStep(log: Hits, limit: int, w: int, call: Call, key: Key)
    ensures var a := AllowForever(log, limit, w, call.key, call.now);
            HitsOf(a.hits, key) == if a.ok && call.key == key then HitsOf(log, key) + [call.now] else HitsOf(log, key)
  {
  }

  lemma {:induction false} GrantedIsLogged(limit: int, w: int, calls: seq<Call>, ls: seq<Hits>, full: seq<bool>, key: Key, m: nat)
    requires ForeverRun(limit, w, calls, ls, full) && m <= |calls|
    ensures Granted(calls, full, key, m) == HitsOf(ls[m], key)
    decreases m
  {
    if m > 0 {
      GrantedIsLogged(limit, w, calls, ls, full, key, m - 1);
      assert ForeverStep(limit, w, calls, ls, full, m - 1);
      LoggedStep(ls[m - 1], limit, w, calls[m - 1], key);
    }
  }

  /** If no hit comes back, and so with any clock that does not go back, no window of length `w`, wherever it ends,
      holds more granted hits of a key than the limit. */
  lemma NeverMoreThanLimit(limit: nat, w: int, calls: seq<Call>, hs: seq<Hits>, oks: seq<bool>, key: Key, end: int)
    requires NeverReturns(calls, w) && WindowRun(limit, w, calls, hs, oks)
    ensures CountIn(Granted(calls, oks, key, |calls|), end, w) <= limit
  {
    var ls, full := ForeverRuns(limit, w, calls, |calls|);
    WindowRefines(limit, w, calls, hs, oks, ls, full);
    LogLimited(limit, w, calls, ls, full, |calls|);
    GrantedIsLogged(limit, w, calls, ls, full, key, |calls|);
    assert CountIn(HitsOf(ls[|calls|], key), end, w) <= limit;
  }

  // ---- The duplicate guard ----

  datatype Entry = Entry(at: int, body: Text)

  type Texts = map<Key, seq<Entry>>

  function EntriesOf(texts: Texts, key: Key): seq<Entry> {
    if key in texts then texts[key] else []
  }

  function LiveEntry(e: Entry, now: int, w: int): seq<Entry> {
    if now - e.at < w then [e] else []
  }

  function TimeOf(e: Entry, body: Text): seq<int> {
    if e.body == body then [e.at] else []
  }

  function RecentEntries(es: seq<Entry>, now: int, w: int): seq<Entry>
    decreases |es|
  {
    if es == [] then []
    else RecentEntries(es[..|es| - 1], now, w) + LiveEntry(es[|es| - 1], now, w)
  }

  /** When `body` was posted. */
  function Times(es: seq<Entry>, body: Text): seq<int>
    decreases |es|
  {
    if es == [] then []
    else Times(es[..|es| - 1], body) + TimeOf(es[|es| - 1], body)
  }

  datatype Verdict = Verdict(texts: Texts, ok: bool)

  function AllowText(texts: Texts, threshold: int, w: int, key: Key, body: Text, now: int): Verdict {
    var recent := RecentEntries(EntriesOf(texts, key), now, w);
    if |Times(recent, body)| + 1 >= threshold then Verdict(texts[key := recent], false)
    else Verdict(texts[key := recent + [Entry(now, body)]], true)
  }

  class DuplicateGuard {
    const threshold: int
    const windowMs: int
    var texts: Texts

    constructor (threshold: int, windowMs: int)
      ensures this.threshold == threshold && this.windowMs == windowMs && texts == map[]
    {
      this.threshold, this.windowMs, texts := threshold, windowMs, map[];
    }

    method AllowBody(key: Key, body: Text, now: int) returns (ok: bool)
      modifies this
      ensures Verdict(texts, ok) == AllowText(old(texts), threshold, windowMs, key, body, now)
    {
      var before := if key in texts then texts[key] else [];
      var recent: seq<Entry>, duplicates := [], 0;
      for i := 0 to |before|
        invariant texts == old(texts)
        invariant recent == RecentEntries(before[..i], now, windowMs)
        invariant duplicates == |Times(recent, body)|
      {
        assert before[..i + 1][..i] == before[..i];
        if now - before[i].at < windowMs {
          assert (recent + [before[i]])[..|recent|] == recent;
          recent := recent + [before[i]];
          duplicates := duplicates + if before[i].body == body then 1 else 0;
        }
      }
      assert before[..|before|] == before;
      if duplicates + 1 >= threshold {
        texts := texts[key := recent];
        return false;
      }
      texts := texts[key := recent + [Entry(now, body)]];
      return true;
    }
  }

  lemma TimesPush(es: seq<Entry>, e: Entry, body: Text)
    ensures Times(es + [e], body) == Times(es, body) + TimeOf(e, body)
  {
    assert (es + [e])[..|es|] == es;
  }

  lemma {:induction false} TimesRecent(es: seq<Entry>, now: int, w: int, body: Text)
    ensures Times(RecentEntries(es, now, w), body) == Recent(Times(es, body), now, w)
    decreases |es|
  {
    if es != [] {
      var init, e := es[..|es| - 1], es[|es| - 1];
      TimesRecent(init, now, w, body);
      TimesRecentPush(RecentEntries(init, now, w), Times(init, body), e, now, w, body);
    }
  }

  lemma TimesRecentPush(recent: seq<Entry>, times: seq<int>, e: Entry, now: int, w: int, body: Text)
    requires Times(recent, body) == Recent(times, now, w)
    ensures Times(recent + LiveEntry(e, now, w), body) == Recent(times + TimeOf(e, body), now, w)
  {
    TimesPush(recent, e, body);
    RecentPush(times, e.at, now, w);
    assert recent + [] == recent && times + [] == times;
  }

  datatype Posting = Posting(key: Key, body: Text, now: int)

  /** The log of a limiter keyed by poster and body. */
  type Bodies = map<(Key, Text), seq<int>>

  function BodiesOf(log: Bodies, k: (Key, Text)): seq<int> {
    if k in log then log[k] else []
  }

  datatype Kept = Kept(log: Bodies, ok: bool)

  /** At most `threshold - 1` equal bodies are recent. */
  function AllowTextForever(log: Bodies, threshold: int, w: int, p: Posting): Kept {
    var k := (p.key, p.body);
    if |Recent(BodiesOf(log, k), p.now, w)| < threshold - 1 then Kept(log[k := BodiesOf(log, k) + [p.now]], true)
    else Kept(log, false)
  }

  ghost predicate GuardStep(threshold: int, w: int, ps: seq<Posting>, ts: seq<Texts>, oks: seq<bool>, m: nat) {
    m < |ps| && m + 1 < |ts| && m < |oks| && Verdict(ts[m + 1], oks[m]) == AllowText(ts[m], threshold, w, ps[m].key, ps[m].body, ps[m].now)
  }

  ghost predicate KeptStep(threshold: int, w: int, ps: seq<Posting>, ls: seq<Bodies>, oks: seq<bool>, m: nat) {
    m < |ps| && m + 1 < |ls| && m < |oks| && Kept(ls[m + 1], oks[m]) == AllowTextForever(ls[m], threshold, w, ps[m])
  }

  /** A run of the guard, and one of the limiter that forgets nothing. */
  ghost predicate GuardRun(threshold: int, w: int, ps: seq<Posting>, ts: seq<Texts>, oks: seq<bool>) {
    |ts| == |ps| + 1 && |oks| == |ps| && ts[0] == map[] && forall m: nat :: m < |ps| ==> GuardStep(threshold, w, ps, ts, oks, m)
  }

  ghost predicate KeptRun(threshold: int, w: int, ps: seq<Posting>, ls: seq<Bodies>, oks: seq<bool>) {
    |ls| == |ps| + 1 && |oks| == |ps| && ls[0] == map[] && forall m: nat :: m < |ps| ==> KeptStep(threshold, w, ps, ls, oks, m)
  }

  lemma {:induction false} KeptRuns(threshold: int, w: int, ps: seq<Posting>, n: nat) returns (ls: seq<Bodies>, oks: seq<bool>)
    requires n <= |ps|
    ensures |ls| == n + 1 && |oks| == n && ls[0] == map[] && forall m: nat :: m < n ==> KeptStep(threshold, w, ps, ls, oks, m)
    decreases n
  {
    ls, oks := [map[]], [];
    if n > 0 {
      var ls0, oks0 := KeptRuns(threshold, w, ps, n - 1);
      var a := AllowTextForever(ls0[n - 1], threshold, w, ps[n - 1]);
      ls, oks := ls0 + [a.log], oks0 + [a.ok];
      forall m: nat | m < n ensures KeptStep(threshold, w, ps, ls, oks, m) {
        if m < n - 1 {
          assert KeptStep(threshold, w, ps, ls0, oks0, m);
        }
      }
    }
  }

  ghost predicate SameText(texts: Texts, log: Bodies, clock: int, w: int, k: (Key, Text)) {
    Recent(Times(EntriesOf(texts, k.0), k.1), clock, w) == Recent(BodiesOf(log, k), clock, w)
  }

  /** The times of one body in the list filtered at `now`, before and after the new entry, at a time `t` when nothing
      has come back. */
  lemma TextPush(es: seq<Entry>, now: int, t: int, w: int, posted: Text, body: Text)
    requires Gone(Times(es, body), now, t, w)
    ensures var recent := RecentEntries(es, now, w);
            && Recent(Times(recent, body), t, w) == Recent(Times(es, body), t, w)
            && Recent(Times(recent + [Entry(now, posted)], body), t, w) ==
               Recent(Times(es, body), t, w) + if posted == body then Live(now, t, w) else []
  {
    var recent := RecentEntries(es, now, w);
    TimesRecent(es, now, w, body);
    RecentLater(Times(es, body), now, t, w);
    TimesPush(recent, Entry(now, posted), body);
    if posted == body {
      RecentPush(Times(recent, body), now, t, w);
    } else {
      assert Times(recent, body) + [] == Times(recent, body);
    }
  }

  lemma AllowTextAgreesAt(texts: Texts, log: Bodies, threshold: int, w: int, p: Posting, k: (Key, Text), t: int)
    requires SameText(texts, log, p.now, w, (p.key, p.body)) && SameText(texts, log, t, w, k)
    requires Gone(Times(EntriesOf(texts, k.0), k.1), p.now, t, w)
    ensures AllowText(texts, threshold, w, p.key, p.body, p.now).ok == AllowTextForever(log, threshold, w, p).ok
    ensures SameText(AllowText(texts, threshold, w, p.key, p.body, p.now).texts, AllowTextForever(log, threshold, w, p).log, t, w, k)
  {
    var es := EntriesOf(texts, p.key);
    TimesRecent(es, p.now, w, p.body);
    if k.0 == p.key {
      TextPush(es, p.now, t, w, p.body, k.1);
      RecentPush(BodiesOf(log, k), p.now, t, w);
      SamePoster(texts, log, threshold, w, p, k.1, t);
    }
  }

  /** The other half of it: what the two tables cover of the poster's own bodies afterwards. */
  lemma SamePoster(texts: Texts, log: Bodies, threshold: int, w: int, p: Posting, body: Text, t: int)
    requires SameText(texts, log, t, w, (p.key, body))
    requires var es := EntriesOf(texts, p.key); var recent := RecentEntries(es, p.now, w); var k := (p.key, body);
             && Recent(Times(recent, body), t, w) == Recent(Times(es, body), t, w)
             && Recent(Times(recent + [Entry(p.now, p.body)], body), t, w) ==
                Recent(Times(es, body), t, w) + (if p.body == body then Live(p.now, t, w) else [])
             && Recent(BodiesOf(log, k) + [p.now], t, w) == Recent(BodiesOf(log, k), t, w) + Live(p.now, t, w)
    requires AllowText(texts, threshold, w, p.key, p.body, p.now).ok == AllowTextForever(log, threshold, w, p).ok
    ensures SameText(AllowText(texts, threshold, w, p.key, p.body, p.now).texts, AllowTextForever(log, threshold, w, p).log, t, w, (p.key, body))
  {
  }

  lemma AllowTextAgrees(texts: Texts, log: Bodies, threshold: int, w: int, p: Posting, k: (Key, Text))
    requires SameText(texts, log, p.now, w, (p.key, p.body)) && SameText(texts, log, p.now, w, k)
    ensures AllowText(texts, threshold, w, p.key, p.body, p.now).ok == AllowTextForever(log, threshold, w, p).ok
    ensures SameText(AllowText(texts, threshold, w, p.key, p.body, p.now).texts, AllowTextForever(log, threshold, w, p).log, p.now, w, k)
  {
    AllowTextAgreesAt(texts, log, threshold, w, p, k, p.now);
  }

  lemma SameTextLater(texts: Texts, log: Bodies, clock: int, later: int, w: int, k: (Key, Text))
    requires SameText(texts, log, clock, w, k) && clock <= later
    ensures SameText(texts, log, later, w, k)
  {
    RecentLater(Times(EntriesOf(texts, k.0), k.1), clock, later, w);
    RecentLater(BodiesOf(log, k), clock, later, w);
  }

  /** At `clock` the guard's table and the full log cover the same postings. */
  ghost predicate SameTexts(texts: Texts, log: Bodies, clock: int, w: int) {
    forall k :: SameText(texts, log, clock, w, k)
  }

  lemma SameTextsNext(texts: Texts, log: Bodies, threshold: int, w: int, p: Posting, later: int, a: Verdict, b: Kept)
    requires SameTexts(texts, log, p.now, w) && p.now <= later
    requires a == AllowText(texts, threshold, w, p.key, p.body, p.now) && b == AllowTextForever(log, threshold, w, p)
    ensures a.ok == b.ok && SameTexts(a.texts, b.log, later, w)
  {
    assert SameText(texts, log, p.now, w, (p.key, p.body));
    AllowTextAgrees(texts, log, threshold, w, p, (p.key, p.body));
    forall k: (Key, Text) ensures SameText(a.texts, b.log, later, w, k) {
      assert SameText(texts, log, p.now, w, k);
      AllowTextAgrees(texts, log, threshold, w, p, k);
      SameTextLater(a.texts, b.log, p.now, later, w, k);
    }
  }

  lemma NothingPosted(clock: int, w: int)
    ensures SameTexts(map[], map[], clock, w)
  {
  }

  // ---- When the guard answers alike, and only then ----

  /** A posting that has left the window never comes back into it. */
  ghost predicate PostsNeverReturn(ps: seq<Posting>, w: int) {
    forall i, j, k :: 0 <= i < j < k < |ps| && ps[j].now - ps[i].now >= w ==> ps[k].now - ps[i].now >= w
  }

  ghost predicate PostedBefore(ps: seq<Posting>, m: nat, at: int) {
    exists i :: 0 <= i < m && i < |ps| && ps[i].now == at
  }

  ghost predicate TextKnown(texts: Texts, ps: seq<Posting>, m: nat, k: (Key, Text)) {
    forall at :: at in Times(EntriesOf(texts, k.0), k.1) ==> PostedBefore(ps, m, at)
  }

  lemma TextGone(texts: Texts, ps: seq<Posting>, w: int, k: (Key, Text), m: nat, n: nat)
    requires TextKnown(texts, ps, m, k) && m < n < |ps| && PostsNeverReturn(ps, w)
    ensures Gone(Times(EntriesOf(texts, k.0), k.1), ps[m].now, ps[n].now, w)
  {
    var ts := Times(EntriesOf(texts, k.0), k.1);
    forall x | 0 <= x < |ts| && ps[m].now - ts[x] >= w ensures ps[n].now - ts[x] >= w {
      assert ts[x] in ts;
      assert PostedBefore(ps, m, ts[x]);
      var i :| 0 <= i < m && i < |ps| && ps[i].now == ts[x];
    }
  }

  /** A posting adds no time but its own. */
  lemma NothingNew(texts: Texts, threshold: int, w: int, p: Posting, k: (Key, Text))
    ensures forall at :: at in Times(EntriesOf(AllowText(texts, threshold, w, p.key, p.body, p.now).texts, k.0), k.1) ==>
              at == p.now || at in Times(EntriesOf(texts, k.0), k.1)
  {
    var es := EntriesOf(texts, k.0);
    TimesRecent(es, p.now, w, k.1);
    RecentIn(Times(es, k.1), p.now, w);
    TimesPush(RecentEntries(es, p.now, w), Entry(p.now, p.body), k.1);
  }

  lemma TextKnownNext(texts: Texts, ps: seq<Posting>, threshold: int, w: int, m: nat, k: (Key, Text))
    requires m < |ps| && TextKnown(texts, ps, m, k)
    ensures TextKnown(AllowText(texts, threshold, w, ps[m].key, ps[m].body, ps[m].now).texts, ps, m + 1, k)
  {
    var p := ps[m];
    var after := AllowText(texts, threshold, w, p.key, p.body, p.now).texts;
    var es := EntriesOf(texts, k.0);
    NothingNew(texts, threshold, w, p, k);
    forall at | at in Times(EntriesOf(after, k.0), k.1) ensures PostedBefore(ps, m + 1, at) {
      if at in Times(es, k.1) {
        assert PostedBefore(ps, m, at);
        var i :| 0 <= i < m && i < |ps| && ps[i].now == at;
      } else {
        assert ps[m].now == at;
      }
    }
  }

  /** Before posting `m`, the two tables cover the same postings at the time of every posting still to come. */
  ghost predicate TextAhead(texts: Texts, log: Bodies, w: int, ps: seq<Posting>, m: nat, n: nat, k: (Key, Text)) {
    m <= n < |ps| ==> SameText(texts, log, ps[n].now, w, k)
  }

  ghost predicate TextsAgree(texts: Texts, log: Bodies, w: int, ps: seq<Posting>, m: nat) {
    && (forall k :: TextKnown(texts, ps, m, k))
    && (forall n: nat, k :: TextAhead(texts, log, w, ps, m, n, k))
  }

  lemma TextAheadNext(texts: Texts, log: Bodies, threshold: int, w: int, ps: seq<Posting>, m: nat, n: nat, k: (Key, Text))
    requires m < n < |ps| && PostsNeverReturn(ps, w) && TextKnown(texts, ps, m, k)
    requires SameText(texts, log, ps[m].now, w, (ps[m].key, ps[m].body)) && SameText(texts, log, ps[n].now, w, k)
    ensures SameText(AllowText(texts, threshold, w, ps[m].key, ps[m].body, ps[m].now).texts, AllowTextForever(log, threshold, w, ps[m]).log, ps[n].now, w, k)
  {
    TextGone(texts, ps, w, k, m, n);
    AllowTextAgreesAt(texts, log, threshold, w, ps[m], k, ps[n].now);
  }

  lemma TextsAgreeNext(texts: Texts, log: Bodies, threshold: int, w: int, ps: seq<Posting>, m: nat, a: Verdict, b: Kept)
    requires m < |ps| && PostsNeverReturn(ps, w) && TextsAgree(texts, log, w, ps, m)
    requires a == AllowText(texts, threshold, w, ps[m].key, ps[m].body, ps[m].now) && b == AllowTextForever(log, threshold, w, ps[m])
    ensures a.ok == b.ok && TextsAgree(a.texts, b.log, w, ps, m + 1)
  {
    var here := (ps[m].key, ps[m].body);
    assert TextAhead(texts, log, w, ps, m, m, here);
    AllowTextAgrees(texts, log, threshold, w, ps[m], here);
    var next := m + 1;
    forall k ensures TextKnown(a.texts, ps, next, k) {
      assert TextKnown(texts, ps, m, k);
      TextKnownNext(texts, ps, threshold, w, m, k);
    }
    forall n: nat, k: (Key, Text) ensures TextAhead(a.texts, b.log, w, ps, next, n, k) {
      if next <= n < |ps| {
        assert TextAhead(texts, log, w, ps, m, n, k) && TextKnown(texts, ps, m, k);
        TextAheadNext(texts, log, threshold, w, ps, m, n, k);
      }
    }
  }

  lemma TextsAgreeAtStart(w: int, ps: seq<Posting>)
    ensures TextsAgree(map[], map[], w, ps, 0)
  {
    forall n: nat, k: (Key, Text) ensures TextAhead(map[], map[], w, ps, 0, n, k) {
    }
  }

  lemma {:induction false} GuardTablesAgree(threshold: int, w: int, ps: seq<Posting>, ts: seq<Texts>, oks: seq<bool>, ls: seq<Bodies>, full: seq<bool>, m: nat)
    requires PostsNeverReturn(ps, w) && m <= |ps| && GuardRun(threshold, w, ps, ts, oks) && KeptRun(threshold, w, ps, ls, full)
    ensures TextsAgree(ts[m], ls[m], w, ps, m)
    decreases m
  {
    if m == 0 {
      TextsAgreeAtStart(w, ps);
    } else {
      var l := m - 1;
      GuardTablesAgree(threshold, w, ps, ts, oks, ls, full, l);
      assert GuardStep(threshold, w, ps, ts, oks, l) && KeptStep(threshold, w, ps, ls, full, l);
      TextsAgreeNext(ts[l], ls[l], threshold, w, ps, l, Verdict(ts[m], oks[l]), Kept(ls[m], full[l]));
    }
  }

  /** The guard, one filtered list per poster, answers as a limiter of `threshold - 1` per poster and body that
      forgets nothing, in every run in which no posting comes back. */
  lemma GuardRefines(threshold: int, w: int, ps: seq<Posting>, ts: seq<Texts>, oks: seq<bool>, ls: seq<Bodies>, full: seq<bool>)
    requires PostsNeverReturn(ps, w) && GuardRun(threshold, w, ps, ts, oks) && KeptRun(threshold, w, ps, ls, full)
    ensures oks == full
  {
    forall m: nat | m < |ps| ensures oks[m] == full[m] {
      GuardTablesAgree(threshold, w, ps, ts, oks, ls, full, m);
      assert GuardStep(threshold, w, ps, ts, oks, m) && KeptStep(threshold, w, ps, ls, full, m);
      TextsAgreeNext(ts[m], ls[m], threshold, w, ps, m, Verdict(ts[m + 1], oks[m]), Kept(ls[m + 1], full[m]));
    }
  }

  lemma FewEntries(at: int, now: int, w: int, body: Text)
    ensures RecentEntries([], now, w) == [] && RecentEntries([Entry(at, body)], now, w) == LiveEntry(Entry(at, body), now, w)
    ensures Times([], body) == [] && Times([Entry(at, body)], body) == [at]
  {
    assert [Entry(at, body)][..0] == [];
  }

  lemma {:induction false} GuardRuns(threshold: int, w: int, ps: seq<Posting>, n: nat) returns (ts: seq<Texts>, oks: seq<bool>)
    requires n <= |ps|
    ensures |ts| == n + 1 && |oks| == n && ts[0] == map[] && forall m: nat :: m < n ==> GuardStep(threshold, w, ps, ts, oks, m)
    decreases n
  {
    ts, oks := [map[]], [];
    if n > 0 {
      var ts0, oks0 := GuardRuns(threshold, w, ps, n - 1);
      var a := AllowText(ts0[n - 1], threshold, w, ps[n - 1].key, ps[n - 1].body, ps[n - 1].now);
      ts, oks := ts0 + [a.texts], oks0 + [a.ok];
      forall m: nat | m < n ensures GuardStep(threshold, w, ps, ts, oks, m) {
        if m < n - 1 {
          assert GuardStep(threshold, w, ps, ts0, oks0, m);
        }
      }
    }
  }

  /** One body throughout: three postings by one poster, all others by another. */
  ghost predicate PostProbes(ps: seq<Posting>, i: nat, j: nat, k: nat, a: Key, b: Key, body: Text) {
    && i < j < k < |ps| && a != b
    && (forall x :: 0 <= x < |ps| ==> ps[x].body == body && ps[x].key == if x == i || x == j || x == k then a else b)
  }

  function HeldEntries(m: nat, i: nat, j: nat, ti: int, tj: int, body: Text): seq<Entry> {
    if m <= i then [] else if m <= j then [Entry(ti, body)] else [Entry(tj, body)]
  }

  lemma ProbeTextsStep(texts: Texts, threshold: int, p: Posting, m: nat, i: nat, j: nat, ti: int, tj: int, w: int)
    requires threshold >= 2 && ProbeCall(p.now, m, i, j, ti, tj, w) && EntriesOf(texts, p.key) == HeldEntries(m, i, j, ti, tj, p.body)
    ensures EntriesOf(AllowText(texts, threshold, w, p.key, p.body, p.now).texts, p.key) == HeldEntries(m + 1, i, j, ti, tj, p.body)
  {
    FewEntries(ti, p.now, w, p.body);
  }

  lemma {:induction false} ProbeTexts(threshold: int, ps: seq<Posting>, w: int, ts: seq<Texts>, oks: seq<bool>, i: nat, j: nat, k: nat, a: Key, b: Key, body: Text, m: nat)
    requires threshold >= 2 && PostProbes(ps, i, j, k, a, b, body) && ps[j].now - ps[i].now >= w && m <= k && GuardRun(threshold, w, ps, ts, oks)
    ensures EntriesOf(ts[m], a) == HeldEntries(m, i, j, ps[i].now, ps[j].now, body)
    decreases m
  {
    if m > 0 {
      var l := m - 1;
      ProbeTexts(threshold, ps, w, ts, oks, i, j, k, a, b, body, l);
      assert GuardStep(threshold, w, ps, ts, oks, l);
      if ps[l].key == a {
        ProbeTextsStep(ts[l], threshold, ps[l], l, i, j, ps[i].now, ps[j].now, w);
      }
    }
  }

  lemma ProbeBodiesStep(log: Bodies, threshold: int, w: int, p: Posting, k: (Key, Text))
    ensures BodiesOf(AllowTextForever(log, threshold, w, p).log, k) ==
            if (p.key, p.body) == k && |Recent(BodiesOf(log, k), p.now, w)| < threshold - 1 then BodiesOf(log, k) + [p.now] else BodiesOf(log, k)
  {
  }

  lemma {:induction false} ProbeBodies(threshold: int, ps: seq<Posting>, w: int, ls: seq<Bodies>, full: seq<bool>, i: nat, j: nat, k: nat, a: Key, b: Key, body: Text, m: nat)
    requires threshold >= 2 && PostProbes(ps, i, j, k, a, b, body) && ps[j].now - ps[i].now >= w && m <= k && KeptRun(threshold, w, ps, ls, full)
    ensures BodiesOf(ls[m], (a, body)) == Logged(m, i, j, ps[i].now, ps[j].now)
    decreases m
  {
    if m > 0 {
      var l := m - 1;
      ProbeBodies(threshold, ps, w, ls, full, i, j, k, a, b, body, l);
      assert KeptStep(threshold, w, ps, ls, full, l);
      ProbeBodiesStep(ls[l], threshold, w, ps[l], (a, body));
      if ps[l].key == a {
        LoggedNext(BodiesOf(ls[l], (a, body)), threshold - 1, ps[l].now, l, i, j, ps[i].now, ps[j].now, w);
      }
    }
  }

  lemma ProbeVerdicts(threshold: int, texts: Texts, log: Bodies, w: int, p: Posting, ti: int, tj: int)
    requires threshold == (if p.now - tj < w then 3 else 2) && tj - ti >= w && p.now - ti < w
    requires EntriesOf(texts, p.key) == [Entry(tj, p.body)] && BodiesOf(log, (p.key, p.body)) == [ti, tj]
    ensures AllowText(texts, threshold, w, p.key, p.body, p.now).ok && !AllowTextForever(log, threshold, w, p).ok
  {
    FewEntries(tj, p.now, w, p.body);
    RecentOfFew(ti, tj, p.now, w);
  }

  /** Where a posting comes back, these postings show it: the guard allows what it should refuse. */
  lemma PostReturnShows(threshold: int, ps: seq<Posting>, w: int, ts: seq<Texts>, oks: seq<bool>, ls: seq<Bodies>, full: seq<bool>,
                        i: nat, j: nat, k: nat, a: Key, b: Key, body: Text)
    requires PostProbes(ps, i, j, k, a, b, body) && ps[j].now - ps[i].now >= w && ps[k].now - ps[i].now < w
    requires threshold == if ps[k].now - ps[j].now < w then 3 else 2
    requires GuardRun(threshold, w, ps, ts, oks) && KeptRun(threshold, w, ps, ls, full)
    ensures oks[k] && !full[k]
  {
    ProbeTexts(threshold, ps, w, ts, oks, i, j, k, a, b, body, k);
    ProbeBodies(threshold, ps, w, ls, full, i, j, k, a, b, body, k);
    assert GuardStep(threshold, w, ps, ts, oks, k) && KeptStep(threshold, w, ps, ls, full, k);
    ProbeVerdicts(threshold, ts[k], ls[k], w, ps[k], ps[i].now, ps[j].now);
  }

  ghost predicate SameVerdicts(ps: seq<Posting>, w: int, threshold: int) {
    forall ts, oks, ls, full :: GuardRun(threshold, w, ps, ts, oks) && KeptRun(threshold, w, ps, ls, full) ==> oks == full
  }

  ghost predicate At(ps: seq<Posting>, times: seq<int>) {
    |ps| == |times| && forall x :: 0 <= x < |ps| ==> ps[x].now == times[x]
  }

  /** Whoever posts whatever at these times, and whatever the threshold, forgetting changes no answer. */
  ghost predicate GuardFaithful(times: seq<int>, w: int) {
    forall ps, threshold :: At(ps, times) ==> SameVerdicts(ps, w, threshold)
  }

  lemma PostReturnRefutes(times: seq<int>, w: int, i: nat, j: nat, k: nat)
    requires i < j < k < |times| && times[j] - times[i] >= w && times[k] - times[i] < w
    ensures !GuardFaithful(times, w)
  {
    var a, b := "a", "b";
    assert a[0] != b[0];
    var keys := ProbeKeys(|times|, i, j, k, a, b);
    var ps := seq(|times|, x requires 0 <= x < |times| => Posting(keys[x], "", times[x]));
    var threshold := if times[k] - times[j] < w then 3 else 2;
    var ts, oks := GuardRuns(threshold, w, ps, |ps|);
    var ls, full := KeptRuns(threshold, w, ps, |ps|);
    PostReturnShows(threshold, ps, w, ts, oks, ls, full, i, j, k, a, b, "");
    assert oks[k] != full[k] && GuardRun(threshold, w, ps, ts, oks) && KeptRun(threshold, w, ps, ls, full);
    assert At(ps, times) && !SameVerdicts(ps, w, threshold);
  }

  /** Exactly when the guard may forget: if and only if no posting that has left the window ever comes back. */
  lemma GuardRefinesIff(times: seq<int>, w: int)
    ensures GuardFaithful(times, w) <==>
            forall i, j, k :: 0 <= i < j < k < |times| && times[j] - times[i] >= w ==> times[k] - times[i] >= w
  {
    if i: nat, j: nat, k: nat :| i < j < k < |times| && times[j] - times[i] >= w && times[k] - times[i] < w {
      PostReturnRefutes(times, w, i, j, k);
    } else {
      forall ps, threshold | At(ps, times) ensures SameVerdicts(ps, w, threshold) {
        assert PostsNeverReturn(ps, w);
        forall ts, oks, ls, full | GuardRun(threshold, w, ps, ts, oks) && KeptRun(threshold, w, ps, ls, full) ensures oks == full {
          GuardRefines(threshold, w, ps, ts, oks, ls, full);
        }
      }
    }
  }

  ghost predicate FewEqual(log: Bodies, threshold: int, w: int) {
    forall k, end :: CountIn(BodiesOf(log, k), end, w) <= if threshold < 1 then 0 else threshold - 1
  }

  lemma AllowTextFew(log: Bodies, threshold: int, w: int, p: Posting)
    requires FewEqual(log, threshold, w)
    ensures FewEqual(AllowTextForever(log, threshold, w, p).log, threshold, w)
  {
    var a := AllowTextForever(log, threshold, w, p);
    var key := (p.key, p.body);
    forall k, end ensures CountIn(BodiesOf(a.log, k), end, w) <= if threshold < 1 then 0 else threshold - 1 {
      assert CountIn(BodiesOf(log, k), end, w) <= if threshold < 1 then 0 else threshold - 1;
      if a.ok && k == key {
        CountPush(BodiesOf(log, key), p.now, end, w);
        if p.now <= end {
          CountRecent(BodiesOf(log, key), p.now, end, w);
        }
      }
    }
  }

  /** An allowed posting is counted in the windows that hold it; nothing else changes. */
  lemma TextForeverCount(log: Bodies, threshold: int, w: int, p: Posting, k: (Key, Text), end: int)
    ensures var a := AllowTextForever(log, threshold, w, p);
            CountIn(BodiesOf(a.log, k), end, w) ==
            CountIn(BodiesOf(log, k), end, w) + if a.ok && k == (p.key, p.body) && end - w < p.now <= end then 1 else 0
  {
    if k == (p.key, p.body) {
      CountPush(BodiesOf(log, k), p.now, end, w);
    }
  }

  lemma {:induction false} BodiesFew(threshold: int, w: int, ps: seq<Posting>, ls: seq<Bodies>, full: seq<bool>, m: nat)
    requires KeptRun(threshold, w, ps, ls, full) && m <= |ps|
    ensures FewEqual(ls[m], threshold, w)
    decreases m
  {
    if m > 0 {
      BodiesFew(threshold, w, ps, ls, full, m - 1);
      assert KeptStep(threshold, w, ps, ls, full, m - 1);
      AllowTextFew(ls[m - 1], threshold, w, ps[m - 1]);
    }
  }

  /** When `key` was allowed to post `body`, among the first `m` postings. */
  function Posted(ps: seq<Posting>, oks: seq<bool>, key: Key, body: Text, m: nat): seq<int>
    requires m <= |ps| == |oks|
  {
    if m == 0 then []
    else if oks[m - 1] && ps[m - 1].key == key && ps[m - 1].body == body then Posted(ps, oks, key, body, m - 1) + [ps[m - 1].now]
    else Posted(ps, oks, key, body, m - 1)
  }

  lemma {:induction false} PostedIsLogged(threshold: int, w: int, ps: seq<Posting>, ls: seq<Bodies>, full: seq<bool>, key: Key, body: Text, m: nat)
    requires KeptRun(threshold, w, ps, ls, full) && m <= |ps|
    ensures Posted(ps, full, key, body, m) == BodiesOf(ls[m], (key, body))
    decreases m
  {
    if m > 0 {
      PostedIsLogged(threshold, w, ps, ls, full, key, body, m - 1);
      assert KeptStep(threshold, w, ps, ls, full, m - 1);
      KeptLogged(ls[m - 1], threshold, w, ps[m - 1], (key, body));
    }
  }

  lemma KeptLogged(log: Bodies, threshold: int, w: int, p: Posting, k: (Key, Text))
    ensures var a := AllowTextForever(log, threshold, w, p);
            BodiesOf(a.log, k) == if a.ok && k == (p.key, p.body) then BodiesOf(log, k) + [p.now] else BodiesOf(log, k)
  {
  }

  /** If no posting comes back, at most `threshold - 1` equal bodies of one poster are allowed in any window. */
  lemma FewEqualBodies(threshold: int, w: int, ps: seq<Posting>, ts: seq<Texts>, oks: seq<bool>, key: Key, body: Text, end: int)
    requires PostsNeverReturn(ps, w) && threshold >= 1 && GuardRun(threshold, w, ps, ts, oks)
    ensures CountIn(Posted(ps, oks, key, body, |ps|), end, w) <= threshold - 1
  {
    var ls, full := KeptRuns(threshold, w, ps, |ps|);
    GuardRefines(threshold, w, ps, ts, oks, ls, full);
    BodiesFew(threshold, w, ps, ls, full, |ps|);
    PostedIsLogged(threshold, w, ps, ls, full, key, body, |ps|);
    assert CountIn(BodiesOf(ls[|ps|], (key, body)), end, w) <= threshold - 1;
  }
}
