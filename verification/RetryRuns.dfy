/**
 The retry loop inside the network: at every reachable device the outbox holds what the device itself sent, so a
 pass of packages/client/src/queue-manager.ts over it is a run of transmissions, and all that holds of every run
 holds of the loop.
 */
module RetryRuns {
  import opened Basics
  import opened Symbolic
  import opened PersistentClient
  import opened ClientEffects
  import opened DmPipeline
  import opened Network
  import opened DmTheorems
  import QueueManager

  // ---- Every row belongs to a message ----

  /** What is known of a pending row: the one conversation its message was sent in, and its envelope. */
  ghost predicate OwnedBy(d: Directory, n: Net, i: Identity, id: MsgId, q: Pair) {
    && Openable(n, q) && SentFrom(n, q, id, i)
    && (PendingRow(RowsAt(d, n, i), Queue(id)) ==>
          RowsAt(d, n, i)[Queue(id)].item.envelope == Some(ThreadAt(n, q).sent[id].envelope))
  }

  lemma OwnerKnows(d: Directory, n: Net, i: Identity, id: MsgId, q: Pair)
    requires Honest(d) && NetOk(d, n) && SentFrom(n, q, id, i)
    ensures OwnedBy(d, n, i, id, q)
  {
    assert ThreadOk(n, q) && PairOk(d, n, q);
    assert IdOk(ConfigOf(d, q), PipeOf(d, n, q), id);
  }

  lemma OwnerOf(d: Directory, n: Net, i: Identity, id: MsgId) returns (q: Pair)
    requires Honest(d) && NetOk(d, n) && Queue(id) in RowsAt(d, n, i)
    ensures OwnedBy(d, n, i, id, q)
  {
    assert Owned(d, n, i, id);
    q :| SentFrom(n, q, id, i);
    OwnerKnows(d, n, i, id, q);
  }

  /** In every run, an outbox row of any device belongs to a message of exactly one conversation, sent by that
      device, and an inbox row to exactly one, sent to it. */
  lemma RowsHaveOwners(d: Directory, moves: seq<Move>, i: Identity, id: MsgId)
    requires Honest(d)
    ensures var n := After(d, moves); var rows := RowsAt(d, n, i);
            && (Queue(id) in rows ==> exists q :: SentFrom(n, q, id, i) && forall r :: id in ThreadAt(n, r).sent ==> r == q)
            && (Inbox(id) in rows ==> exists q :: SentTo(n, q, id, i) && forall r :: id in ThreadAt(n, r).sent ==> r == q)
  {
    AfterOk(d, moves);
    var n := After(d, moves);
    assert Owned(d, n, i, id);
    forall q, r | id in ThreadAt(n, q).sent && id in ThreadAt(n, r).sent ensures r == q {
      assert ApartOk(n, q, r);
    }
  }

  /** In every run, every pending row of every device still holds its envelope: a retry pass may run anywhere. */
  lemma PendingHoldsEnvelope(d: Directory, moves: seq<Move>, i: Identity)
    requires Honest(d)
    ensures QueueManager.HoldsEnvelopes(RowsAt(d, After(d, moves), i))
  {
    AfterOk(d, moves);
    var n := After(d, moves);
    forall k | PendingRow(RowsAt(d, n, i), k) ensures RowsAt(d, n, i)[k].item.envelope.Some? {
      var q := OwnerOf(d, n, i, k.id);
    }
  }

  /** An item that was tried is due again on the timer exactly after the wait, which doubles from thirty seconds up to half
      an hour; when its peer comes online it is due at once. */
  lemma DueAfterWait(h: Host, rows: Rows, id: MsgId, now: int, later: int, peer: Identity)
    requires MarkAttempt(h, rows, id, now).Some?
    ensures var after := MarkAttempt(h, rows, id, now).value; var item := rows[Queue(id)].item;
            var wait := if 30_000 * Doubled(item.attempts) <= 30 * 60_000 then 30_000 * Doubled(item.attempts) else 30 * 60_000;
            && (QueueManager.Due(after, Queue(id), None, later) <==> later >= now + wait)
            && (QueueManager.Due(after, Queue(id), Some(peer), later) <==> peer == item.recipient)
  {
    AttemptCountsIff(h, rows, id, now);
    BackoffDoubles(rows[Queue(id)].item.attempts);
  }

  // ---- A pass is a run ----

  /** One transmission by device `i`: its rows become `after`, the envelope is on the wire of `q`, and that is all. */
  ghost predicate SentAgain(d: Directory, n: Net, n': Net, i: Identity, q: Pair, env: Envelope, after: Rows) {
    && RowsAt(d, n', i) == after
    && (forall j :: j != i ==> RowsAt(d, n', j) == RowsAt(d, n, j))
    && ThreadAt(n', q) == ThreadAt(n, q).(wire := ThreadAt(n, q).wire + {env})
    && (forall r :: r != q ==> ThreadAt(n', r) == ThreadAt(n, r))
    && n'.used == n.used && n'.drawn == n.drawn
  }

  ghost function Counting(h: Host, rows: Rows, id: MsgId, now: int, counted: bool): Rows {
    if counted && MarkAttempt(h, rows, id, now).Some? then MarkAttempt(h, rows, id, now).value else rows
  }

  /** The step of the conversation: the stored envelope is on its wire, and the row counted if that was asked and fits. */
  lemma TransmitForm(d: Directory, n: Net, i: Identity, q: Pair, id: MsgId, now: int, counted: bool)
    requires OwnedBy(d, n, i, id, q) && PendingRow(RowsAt(d, n, i), Queue(id))
    ensures var p := PipeOf(d, n, q); var o := ThreadAt(n, q).sent[id];
            TransmitStep(ConfigOf(d, q), p, o.role, id, now, counted) ==
            WithRows(p, o.role, Counting(d.hosts(i), RowsAt(d, n, i), id, now, counted)).(wire := p.wire + {o.envelope})
  {
  }

  lemma SendAgain(d: Directory, n: Net, i: Identity, id: MsgId, now: int, counted: bool) returns (m: Move)
    requires Honest(d) && NetOk(d, n) && PendingRow(RowsAt(d, n, i), Queue(id))
    ensures OwnedBy(d, n, i, id, m.pair) && m.step == Transmit(ThreadAt(n, m.pair).sent[id].role, id, now, counted)
    ensures SentAgain(d, n, NetNext(d, n, m.pair, m.step), i, m.pair, ThreadAt(n, m.pair).sent[id].envelope,
                      Counting(d.hosts(i), RowsAt(d, n, i), id, now, counted))
  {
    var q := OwnerOf(d, n, i, id);
    var o := ThreadAt(n, q).sent[id];
    m := Move(q, Transmit(o.role, id, now, counted));
    assert ThreadOk(n, q);
    HonestSound(d, q);
    TransmitForm(d, n, i, q, id, now, counted);
    var p' := TransmitStep(ConfigOf(d, q), PipeOf(d, n, q), o.role, id, now, counted);
    NetNextForm(d, n, q, m.step, p');
    SentAgainForm(d, n, NetNext(d, n, q, m.step), i, q, p', o, Counting(d.hosts(i), RowsAt(d, n, i), id, now, counted));
  }

  lemma SentAgainForm(d: Directory, n: Net, n': Net, i: Identity, q: Pair, p': Pipe, o: Outgoing, after: Rows)
    requires q.0 != q.1 && i == End(q, o.role) && ThreadAt(n, q).sent.Keys <= n.used
    requires p' == WithRows(PipeOf(d, n, q), o.role, after).(wire := ThreadAt(n, q).wire + {o.envelope})
    requires n' == Net(n.rows[q.0 := p'.rowsA][q.1 := p'.rowsB], n.threads[q := ThreadOf(p')], n.used + p'.sent.Keys, n.drawn)
    ensures SentAgain(d, n, n', i, q, o.envelope, after)
  {
    assert n'.used == n.used && n'.rows == n.rows[q.0 := p'.rowsA][q.1 := p'.rowsB];
    RowsForm(d, n, n', q, p');
  }

  lemma RowsForm(d: Directory, n: Net, n': Net, q: Pair, p': Pipe)
    requires q.0 != q.1 && n'.rows == n.rows[q.0 := p'.rowsA][q.1 := p'.rowsB]
    ensures RowsAt(d, n', q.0) == p'.rowsA && RowsAt(d, n', q.1) == p'.rowsB
    ensures forall j :: j != q.0 && j != q.1 ==> RowsAt(d, n', j) == RowsAt(d, n, j)
  {
  }

  lemma NetNextForm(d: Directory, n: Net, q: Pair, step: DmPipeline.Step, p': Pipe)
    requires Honest(d) && Openable(n, q) && step.Transmit? && Sound(ConfigOf(d, q)) && p' == Next(ConfigOf(d, q), PipeOf(d, n, q), step)
    ensures NetNext(d, n, q, step) ==
            Net(n.rows[q.0 := p'.rowsA][q.1 := p'.rowsB], n.threads[q := ThreadOf(p')], n.used + p'.sent.Keys, n.drawn)
  {
    assert n.drawn + {} == n.drawn;
  }

  /** `n'` is `n` after device `i` sent `out` again by the moves `pass`, as far as conversation `q` is concerned: the
      envelopes of those moves are on its wire, and that is all. */
  ghost predicate ResentIn(n: Net, n': Net, pass: seq<Move>, out: seq<Envelope>, q: Pair)
    requires |pass| == |out|
  {
    && ThreadAt(n', q) == ThreadAt(n, q).(wire := ThreadAt(n', q).wire)
    && (forall env :: env in ThreadAt(n', q).wire <==>
          env in ThreadAt(n, q).wire || exists k :: 0 <= k < |pass| && pass[k].pair == q && out[k] == env)
  }

  ghost predicate Resent(d: Directory, n: Net, n': Net, i: Identity, pass: seq<Move>, out: seq<Envelope>)
    requires |pass| == |out|
  {
    && (forall q :: ResentIn(n, n', pass, out, q))
    && (forall j :: j != i ==> RowsAt(d, n', j) == RowsAt(d, n, j))
    && n'.used == n.used && n'.drawn == n.drawn
  }

  /** The moves are attempts of `order` by device `i`, all counted except the last if the pass stopped there. */
  predicate Attempts(pass: seq<Move>, i: Identity, order: seq<Name>, now: int, ok: bool) {
    && |pass| == |order|
    && (forall k :: 0 <= k < |pass| ==>
          && pass[k].step.Transmit? && order[k] == Queue(pass[k].step.id) && End(pass[k].pair, pass[k].step.role) == i
          && pass[k].step.now == now && pass[k].step.counted == (ok || k + 1 < |order|))
  }

  lemma ResentNothing(d: Directory, n: Net, i: Identity)
    ensures Resent(d, n, n, i, [], [])
  {
    forall q ensures ResentIn(n, n, [], [], q) {
    }
  }

  lemma ResentMore(d: Directory, n: Net, n1: Net, n2: Net, i: Identity, pass: seq<Move>, out: seq<Envelope>, m: Move, env: Envelope, after: Rows)
    requires |pass| == |out| && Resent(d, n, n1, i, pass, out) && SentAgain(d, n1, n2, i, m.pair, env, after)
    ensures Resent(d, n, n2, i, pass + [m], out + [env])
  {
    forall q ensures ResentIn(n, n2, pass + [m], out + [env], q) {
      assert ResentIn(n, n1, pass, out, q);
      ResentHere(n, n1, n2, pass, out, m, env, q);
    }
  }

  lemma ResentHere(n: Net, n1: Net, n2: Net, pass: seq<Move>, out: seq<Envelope>, m: Move, env: Envelope, q: Pair)
    requires |pass| == |out| && ResentIn(n, n1, pass, out, q)
    requires ThreadAt(n2, q) == if q == m.pair then ThreadAt(n1, q).(wire := ThreadAt(n1, q).wire + {env}) else ThreadAt(n1, q)
    ensures ResentIn(n, n2, pass + [m], out + [env], q)
  {
    var pass2, out2 := pass + [m], out + [env];
    assert forall k :: 0 <= k < |pass| ==> pass2[k] == pass[k] && out2[k] == out[k];
    assert pass2[|pass|] == m && out2[|pass|] == env;
  }

  lemma {:induction false} StaysPending(h: Host, rows: Rows, tried: seq<Name>, now: int, after: Rows, n: Name)
    requires QueueManager.CountAll(h, rows, tried, now) == Some(after) && PendingRow(rows, n)
    ensures PendingRow(after, n)
    decreases |tried|
  {
    if tried != [] {
      var before := QueueManager.CountAll(h, rows, tried[..|tried| - 1], now).value;
      StaysPending(h, rows, tried[..|tried| - 1], now, before, n);
    }
  }

  /** One more attempt after a run of attempts, with the envelope that was stored when the pass began. */
  lemma AttemptMore(d: Directory, n: Net, i: Identity, pass: seq<Move>, out: seq<Envelope>, order: seq<Name>, name: Name, env: Envelope,
                    now: int, counted: bool) returns (m: Move)
    requires Honest(d) && NetOk(d, n) && |pass| == |out| && Attempts(pass, i, order, now, true)
    requires Resent(d, n, Network.Run(d, n, pass), i, pass, out)
    requires PendingRow(RowsAt(d, n, i), name) && PendingRow(RowsAt(d, Network.Run(d, n, pass), i), name)
    requires RowsAt(d, n, i)[name].item.envelope == Some(env)
    ensures Attempts(pass + [m], i, order + [name], now, counted)
    ensures Resent(d, n, Network.Run(d, n, pass + [m]), i, pass + [m], out + [env])
    ensures var rows := RowsAt(d, Network.Run(d, n, pass), i);
            RowsAt(d, Network.Run(d, n, pass + [m]), i) == Counting(d.hosts(i), rows, name.id, now, counted)
  {
    var n1 := Network.Run(d, n, pass);
    Network.RunKeeps(d, n, pass);
    m := SendAgain(d, n1, i, name.id, now, counted);
    assert ResentIn(n, n1, pass, out, m.pair);
    OwnerKnows(d, n, i, name.id, m.pair);
    RunSnoc(d, n, pass, m);
    ResentMore(d, n, n1, NetNext(d, n1, m.pair, m.step), i, pass, out, m, env,
               Counting(d.hosts(i), RowsAt(d, n1, i), name.id, now, counted));
  }

  lemma {:induction false} CountedRun(d: Directory, n: Net, i: Identity, order: seq<Name>, out: seq<Envelope>, now: int, after: Rows)
    returns (pass: seq<Move>)
    requires Honest(d) && NetOk(d, n) && QueueManager.Carries(RowsAt(d, n, i), out, order)
    requires QueueManager.CountAll(d.hosts(i), RowsAt(d, n, i), order, now) == Some(after)
    ensures Attempts(pass, i, order, now, true) && Resent(d, n, Network.Run(d, n, pass), i, pass, out)
    ensures RowsAt(d, Network.Run(d, n, pass), i) == after
    decreases |order|
  {
    if order == [] {
      pass := [];
      ResentNothing(d, n, i);
    } else {
      var k := |order| - 1;
      var before := QueueManager.CountAll(d.hosts(i), RowsAt(d, n, i), order[..k], now).value;
      pass := CountedRun(d, n, i, order[..k], out[..k], now, before);
      var m := AttemptMore(d, n, i, pass, out[..k], order[..k], order[k], out[k], now, true);
      pass := pass + [m];
      assert order[..k] + [order[k]] == order && out[..k] + [out[k]] == out;
    }
  }

  /** A pass of the retry loop over the outbox of any device, in any reachable network, is a run of transmissions
      of that device: it leaves the rows the pass leaves, every envelope that went out is on the wire of the
      conversation it belongs to, and nothing else changes anywhere. What is proved of every run therefore
      holds after the pass. */
  lemma PassIsRun(d: Directory, moves: seq<Move>, i: Identity, after: Rows, order: seq<Name>, out: seq<Envelope>, now: int, ok: bool)
    returns (pass: seq<Move>)
    requires Honest(d) && QueueManager.PassOf(d.hosts(i), RowsAt(d, After(d, moves), i), after, order, out, now, ok)
    ensures Attempts(pass, i, order, now, ok) && Resent(d, After(d, moves), After(d, moves + pass), i, pass, out)
    ensures RowsAt(d, After(d, moves + pass), i) == after
  {
    AfterOk(d, moves);
    var n := After(d, moves);
    if ok {
      pass := CountedRun(d, n, i, order, out, now, after);
    } else {
      var k := |order| - 1;
      pass := CountedRun(d, n, i, order[..k], out[..k], now, after);
      StaysPending(d.hosts(i), RowsAt(d, n, i), order[..k], now, after, order[k]);
      var m := AttemptMore(d, n, i, pass, out[..k], order[..k], order[k], out[k], now, false);
      pass := pass + [m];
      assert order[..k] + [order[k]] == order && out[..k] + [out[k]] == out;
    }
    RunJoin(d, Begin(), moves, pass);
  }

  lemma {:induction false} RunJoin(d: Directory, n: Net, moves: seq<Move>, more: seq<Move>)
    requires Honest(d)
    ensures Network.Run(d, n, moves + more) == Network.Run(d, Network.Run(d, n, moves), more)
    decreases |moves|
  {
    if moves == [] {
      assert moves + more == more;
    } else {
      assert moves + more == [moves[0]] + (moves[1..] + more);
      RunCons(d, n, moves[0], moves[1..] + more);
      RunJoin(d, NetNext(d, n, moves[0].pair, moves[0].step), moves[1..], more);
    }
  }
}
