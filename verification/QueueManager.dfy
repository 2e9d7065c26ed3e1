/**
 The retry loop of packages/client/src/queue-manager.ts over the durable outbox. `reachable` is the set of
 peers for which the relay takes a message; a pass runs on the timer (items whose time has come) or when a
 peer comes online (all of that peer's items).
 */
module QueueManager {
  import opened Basics
  import opened Symbolic
  import opened PersistentClient

  /** Whether a pass picks up a queue row. */
  predicate Due(rows: Rows, n: Name, peer: Option<Identity>, now: int) {
    PendingRow(rows, n) && (if peer.Some? then rows[n].item.recipient == peer.value else rows[n].item.nextAttemptAt <= now)
  }

  function DueNames(rows: Rows, peer: Option<Identity>, now: int): set<Name> {
    set n | n in rows && Due(rows, n, peer, now)
  }

  /** The due rows of peers that can be reached. */
  function Goal(rows: Rows, peer: Option<Identity>, reachable: set<Identity>, now: int): set<Name> {
    set n | n in rows && Due(rows, n, peer, now) && rows[n].item.recipient in reachable
  }

  /** A pending row after one attempt: later and counted, with its envelope and state as they were. */
  function Tried(v: Value, now: int): Value
    requires v.ItemV?
  {
    ItemV(v.item.(attempts := v.item.attempts + 1, nextAttemptAt := now + Backoff(v.item.attempts)))
  }

  ghost predicate HoldsEnvelopes(rows: Rows) {
    forall n :: PendingRow(rows, n) ==> rows[n].item.envelope.Some?
  }

  /** The rows after one attempt of each of `tried`. */
  ghost predicate AfterAttempts(before: Rows, after: Rows, tried: seq<Name>, now: int) {
    && after.Keys == before.Keys
    && (forall n :: n in before && n !in tried ==> after[n] == before[n])
    && (forall n :: n in before && n in tried && before[n].ItemV? ==> after[n] == Tried(before[n], now))
  }

  /** What went out is, one for one, the stored envelopes of the pending rows `order`. */
  ghost predicate Carries(rows: Rows, out: seq<Envelope>, order: seq<Name>) {
    && |out| == |order|
    && (forall i :: 0 <= i < |order| ==> PendingRow(rows, order[i]) && rows[order[i]].item.envelope == Some(out[i]))
  }

  /** What a pass may leave: everything sent was counted, except the last if it stopped there. */
  function Counted(order: seq<Name>, ok: bool): seq<Name> {
    if ok || order == [] then order else order[..|order| - 1]
  }

  /** The rows after counting one attempt of each, in order; none if some write is refused. */
  ghost function CountAll(h: Host, rows: Rows, tried: seq<Name>, now: int): Option<Rows>
    decreases |tried|
  {
    if tried == [] then Some(rows)
    else
      var before, n := CountAll(h, rows, tried[..|tried| - 1], now), tried[|tried| - 1];
      if before.None? || !n.Queue? then None else MarkAttempt(h, before.value, n.id, now)
  }

  /** One pass: `order` went out as stored and was counted one by one. A pass that stops early stops right after
      a send whose counting was refused. */
  ghost predicate PassOf(h: Host, before: Rows, after: Rows, order: seq<Name>, out: seq<Envelope>, now: int, ok: bool) {
    && Carries(before, out, order)
    && CountAll(h, before, Counted(order, ok), now) == Some(after)
    && (!ok ==> order != [] && MarkAttempt(h, after, order[|order| - 1].id, now).None?)
  }

  class QueueManager {
    const state: PersistentDmState
    var wire: seq<Envelope>

    constructor (state: PersistentDmState)
      ensures this.state == state && wire == []
    {
      this.state := state;
      wire := [];
    }

    /** The row is read again before it is written; a row that no longer fits throws. */
    method MarkAttemptOf(n: Name, now: int) returns (ok: bool)
      requires state.Valid() && PendingRow(state.store.rows, n)
      modifies state.store`rows
      ensures state.Valid() && MarkAttempt(state.TheHost(), old(state.store.rows), n.id, now) == if ok then Some(state.store.rows) else None
      ensures state.store.rows == if ok then old(state.store.rows)[n := Tried(old(state.store.rows)[n], now)] else old(state.store.rows)
    {
      var item := state.store.rows[n].item;
      ok := state.store.PutRow(n, ItemV(item.(attempts := item.attempts + 1, nextAttemptAt := now + Backoff(item.attempts))));
    }

    /** The stored envelope goes out first and is counted after. */
    method Attempt(n: Name, now: int) returns (ok: bool)
      requires state.Valid() && PendingRow(state.store.rows, n) && state.store.rows[n].item.envelope.Some?
      modifies this`wire, state.store`rows
      ensures state.Valid() && wire == old(wire) + [old(state.store.rows)[n].item.envelope.value]
      ensures MarkAttempt(state.TheHost(), old(state.store.rows), n.id, now) == if ok then Some(state.store.rows) else None
      ensures state.store.rows == if ok then old(state.store.rows)[n := Tried(old(state.store.rows)[n], now)] else old(state.store.rows)
    {
      wire := wire + [state.store.rows[n].item.envelope.value];
      ok := MarkAttemptOf(n, now);
    }

    /** One pass: every due item of a reachable peer goes out once, as stored, and is then counted. Nothing is
        dropped, nothing is marked delivered and no other row changes. A pass that stops early stops right after a
        send it could not count. */
    method ProcessQueue(online: bool, peer: Option<Identity>, reachable: set<Identity>, now: int)
      returns (ok: bool, ghost order: seq<Name>)
      requires state.Valid() && HoldsEnvelopes(state.store.rows)
      modifies this`wire, state.store`rows
      ensures state.Valid() && HoldsEnvelopes(state.store.rows)
      ensures Distinct(order) && (forall n :: n in order ==> n in Goal(old(state.store.rows), peer, reachable, now))
      ensures exists out :: wire == old(wire) + out && PassOf(state.TheHost(), old(state.store.rows), state.store.rows, order, out, now, ok)
      ensures AfterAttempts(old(state.store.rows), state.store.rows, Counted(order, ok), now)
      ensures ok && online ==> forall n :: n in Goal(old(state.store.rows), peer, reachable, now) ==> n in order
      ensures !online ==> ok && order == []
    {
      if !online {
        assert wire == wire + [] && PassOf(state.TheHost(), state.store.rows, state.store.rows, [], [], now, true);
        return true, [];
      }
      GoalDue(state.store.rows, peer, reachable, now);
      ghost var out;
      ok, order, out := Pass(DueNames(state.store.rows, peer, now), reachable, now, Goal(state.store.rows, peer, reachable, now));
      AttemptsHold(old(state.store.rows), state.store.rows, Counted(order, ok), now);
    }

    method Pass(due: set<Name>, reachable: set<Identity>, now: int, ghost goal: set<Name>)
      returns (ok: bool, ghost order: seq<Name>, ghost out: seq<Envelope>)
      requires state.Valid() && HoldsEnvelopes(state.store.rows) && goal <= due
      requires forall n :: n in due ==> PendingRow(state.store.rows, n) && (n in goal <==> state.store.rows[n].item.recipient in reachable)
      modifies this`wire, state.store`rows
      ensures state.Valid() && Distinct(order) && (forall n :: n in order ==> n in goal)
      ensures wire == old(wire) + out && PassOf(state.TheHost(), old(state.store.rows), state.store.rows, order, out, now, ok)
      ensures AfterAttempts(old(state.store.rows), state.store.rows, Counted(order, ok), now)
      ensures ok ==> forall n :: n in goal ==> n in order
    {
      ghost var before := state.store.rows;
      order, out := [], [];
      var todo := due;
      while todo != {}
        invariant state.Valid() && todo <= due && Distinct(order)
        invariant forall n :: n in order ==> n in goal && n !in todo
        invariant forall n :: n in goal ==> n in order || n in todo
        invariant wire == old(wire) + out && Carries(before, out, order)
        invariant CountAll(state.TheHost(), before, order, now) == Some(state.store.rows)
        invariant AfterAttempts(before, state.store.rows, order, now)
        decreases todo
      {
        var n :| n in todo;
        assert n in goal <==> before[n].item.recipient in reachable;
        assert n !in order && state.store.rows[n] == before[n];
        if state.store.rows[n].item.recipient in reachable {
          ghost var rows := state.store.rows;
          var counted := Attempt(n, now);
          out := out + [before[n].item.envelope.value];
          CountMore(state.TheHost(), before, rows, order, n, now);
          if !counted {
            order := order + [n];
            return false, order, out;
          }
          AttemptsMore(before, rows, state.store.rows, order, n, now);
          order := order + [n];
        }
        todo := todo - {n};
      }
      return true, order, out;
    }
  }

  lemma GoalDue(rows: Rows, peer: Option<Identity>, reachable: set<Identity>, now: int)
    ensures Goal(rows, peer, reachable, now) <= DueNames(rows, peer, now)
    ensures forall n :: n in DueNames(rows, peer, now) ==>
              PendingRow(rows, n) && (n in Goal(rows, peer, reachable, now) <==> rows[n].item.recipient in reachable)
  {
  }

  lemma CountMore(h: Host, before: Rows, rows: Rows, tried: seq<Name>, n: Name, now: int)
    requires CountAll(h, before, tried, now) == Some(rows) && n.Queue?
    ensures CountAll(h, before, tried + [n], now) == MarkAttempt(h, rows, n.id, now)
  {
    assert (tried + [n])[..|tried|] == tried;
  }

  lemma AttemptsMore(before: Rows, rows: Rows, after: Rows, tried: seq<Name>, n: Name, now: int)
    requires AfterAttempts(before, rows, tried, now) && n !in tried && PendingRow(before, n)
    requires rows[n] == before[n] && after == rows[n := Tried(rows[n], now)]
    ensures AfterAttempts(before, after, tried + [n], now)
  {
  }

  lemma AttemptsHold(before: Rows, after: Rows, tried: seq<Name>, now: int)
    requires AfterAttempts(before, after, tried, now) && HoldsEnvelopes(before) && forall n :: n in tried ==> PendingRow(before, n)
    ensures HoldsEnvelopes(after)
  {
    forall k | PendingRow(after, k) ensures after[k].item.envelope.Some? {
      assert PendingRow(before, k);
    }
  }
}
