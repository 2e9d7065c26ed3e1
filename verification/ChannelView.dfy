/**
 The bounded message view of terminal/src/app.rs: messages sorted by time, at most 1000 of them, with
 the set of ids it holds.
 */
module ChannelView {

  const MAX_MESSAGES: nat := 1000

  datatype Message = Message(id: string, at: int, body: string)

  /** How many leading messages are not later than `at`; where `partition_point` finds the boundary. */
  function Place(ms: seq<Message>, at: int): (p: nat)
    ensures p <= |ms|
    ensures forall i :: 0 <= i < p ==> ms[i].at <= at
    ensures p < |ms| ==> ms[p].at > at
  {
    if ms == [] || ms[0].at > at then 0 else 1 + Place(ms[1..], at)
  }

  function Put(ms: seq<Message>, m: Message): seq<Message> {
    var p := Place(ms, m.at);
    ms[..p] + [m] + ms[p..]
  }

  datatype View = View(messages: seq<Message>, seen: set<string>)

  function Insert(v: View, m: Message): View {
    if m.id in v.seen then v
    else
      var ms := Put(v.messages, m);
      if |ms| > MAX_MESSAGES then View(ms[1..], v.seen + {m.id} - {ms[0].id})
      else View(ms, v.seen + {m.id})
  }

  function InsertAll(v: View, ms: seq<Message>): View
    decreases |ms|
  {
    if ms == [] then v else Insert(InsertAll(v, ms[..|ms| - 1]), ms[|ms| - 1])
  }

  class Channel {
    var messages: seq<Message>
    var seen: set<string>

    ghost function Contents(): View
      reads this
    {
      View(messages, seen)
    }

    constructor ()
      ensures Contents() == View([], {})
    {
      messages, seen := [], {};
    }

    /** False only for an id already held. */
    method InsertMessage(m: Message) returns (inserted: bool)
      modifies this
      ensures Contents() == Insert(old(Contents()), m)
      ensures inserted == (m.id !in old(seen))
    {
      if m.id in seen {
        return false;
      }
      seen := seen + {m.id};
      var p := Place(messages, m.at);
      messages := messages[..p] + [m] + messages[p..];
      if |messages| > MAX_MESSAGES {
        var removed := messages[0];
        messages := messages[1..];
        seen := seen - {removed.id};
      }
      return true;
    }
  }

  // ---- Every run ----

  ghost predicate Sorted(ms: seq<Message>) {
    forall i, j :: 0 <= i < j < |ms| ==> ms[i].at <= ms[j].at
  }

  ghost predicate DistinctIds(ms: seq<Message>) {
    forall i, j :: 0 <= i < j < |ms| ==> ms[i].id != ms[j].id
  }

  function Ids(ms: seq<Message>): set<string> {
    set i | 0 <= i < |ms| :: ms[i].id
  }

  ghost predicate Exact(v: View) {
    Sorted(v.messages) && DistinctIds(v.messages) && v.seen == Ids(v.messages) && |v.messages| <= MAX_MESSAGES
  }

  lemma PutSorted(ms: seq<Message>, m: Message)
    requires Sorted(ms)
    ensures Sorted(Put(ms, m))
  {
    var p, r := Place(ms, m.at), Put(ms, m);
    forall i, j | 0 <= i < j < |r| ensures r[i].at <= r[j].at {
      if i < p <= j - 1 {
        assert ms[i].at <= m.at;
      }
      assert p < |ms| ==> m.at < ms[p].at;
      assert j > p ==> r[j] == ms[j - 1] && ms[p].at <= ms[j - 1].at;
    }
  }

  /** Where a message of the result comes from. */
  lemma PutAt(ms: seq<Message>, m: Message, k: nat)
    requires k <= |ms|
    ensures var p := Place(ms, m.at);
            Put(ms, m)[k] == if k < p then ms[k] else if k == p then m else ms[k - 1]
  {
  }

  lemma PutDistinct(ms: seq<Message>, m: Message)
    requires DistinctIds(ms) && m.id !in Ids(ms)
    ensures DistinctIds(Put(ms, m))
  {
    var r := Put(ms, m);
    forall i | 0 <= i < |ms| ensures ms[i].id != m.id {
      assert ms[i].id in Ids(ms);
    }
    forall i: nat, j: nat | i < j < |r| ensures r[i].id != r[j].id {
      PutAt(ms, m, i);
      PutAt(ms, m, j);
    }
  }

  lemma PutIds(ms: seq<Message>, m: Message)
    ensures Ids(Put(ms, m)) == Ids(ms) + {m.id}
  {
    var p, r := Place(ms, m.at), Put(ms, m);
    forall id | id in Ids(r) ensures id in Ids(ms) + {m.id} {
      var k: nat :| k < |r| && r[k].id == id;
      PutAt(ms, m, k);
    }
    forall id | id in Ids(ms) ensures id in Ids(r) {
      var i: nat :| i < |ms| && ms[i].id == id;
      PutAt(ms, m, if i < p then i else i + 1);
    }
    PutAt(ms, m, p);
  }

  lemma FirstOut(ms: seq<Message>)
    requires Sorted(ms) && DistinctIds(ms) && ms != []
    ensures Sorted(ms[1..]) && DistinctIds(ms[1..]) && Ids(ms[1..]) == Ids(ms) - {ms[0].id}
  {
    var r := ms[1..];
    forall i | 0 <= i < |r| ensures r[i].id in Ids(ms) && r[i].id != ms[0].id {
      assert r[i] == ms[i + 1];
    }
    forall i | 1 <= i < |ms| ensures ms[i].id in Ids(r) {
      assert r[i - 1] == ms[i];
    }
  }

  lemma InsertKeeps(v: View, m: Message)
    requires Exact(v)
    ensures Exact(Insert(v, m))
  {
    if m.id !in v.seen {
      PutSorted(v.messages, m);
      PutIds(v.messages, m);
      PutDistinct(v.messages, m);
      FirstOut(Put(v.messages, m));
    }
  }

  /** In every run, whatever is inserted, the seen set is exactly the ids held; the view is sorted, holds no
      id twice and is never over its bound. */
  lemma {:induction false} SeenIsHeld(ms: seq<Message>)
    ensures Exact(InsertAll(View([], {}), ms))
    decreases |ms|
  {
    if ms != [] {
      SeenIsHeld(ms[..|ms| - 1]);
      InsertKeeps(InsertAll(View([], {}), ms[..|ms| - 1]), ms[|ms| - 1]);
    }
  }

  // ---- The stable sort ----

  function StableSort(ms: seq<Message>): seq<Message>
    decreases |ms|
  {
    if ms == [] then [] else Put(StableSort(ms[..|ms| - 1]), ms[|ms| - 1])
  }

  /** The messages of one time, in order. */
  function At(ms: seq<Message>, t: int): seq<Message>
    decreases |ms|
  {
    if ms == [] then [] else if ms[0].at == t then [ms[0]] + At(ms[1..], t) else At(ms[1..], t)
  }

  lemma {:induction false} AtConcat(a: seq<Message>, b: seq<Message>, t: int)
    ensures At(a + b, t) == At(a, t) + At(b, t)
    decreases |a|
  {
    if a == [] {
      assert a + b == b;
    } else {
      assert (a + b)[1..] == a[1..] + b && (a + b)[0] == a[0];
      AtConcat(a[1..], b, t);
      assert [a[0]] + (At(a[1..], t) + At(b, t)) == ([a[0]] + At(a[1..], t)) + At(b, t);
    }
  }

  lemma {:induction false} AtLater(ms: seq<Message>, t: int)
    requires forall i :: 0 <= i < |ms| ==> ms[i].at != t
    ensures At(ms, t) == []
    decreases |ms|
  {
    if ms != [] {
      AtLater(ms[1..], t);
    }
  }

  lemma AtInsert(before: seq<Message>, m: Message, after: seq<Message>, t: int)
    requires m.at == t ==> forall i :: 0 <= i < |after| ==> after[i].at != t
    ensures At(before + [m] + after, t) == At(before + after, t) + At([m], t)
  {
    AtConcat(before + [m], after, t);
    AtConcat(before, [m], t);
    AtConcat(before, after, t);
    if t == m.at {
      AtLater(after, t);
      assert At(before, t) + [] == At(before, t);
    } else {
      AtLater([m], t);
      assert At(before, t) + [] == At(before, t);
    }
  }

  lemma PutStable(ms: seq<Message>, m: Message, t: int)
    requires Sorted(ms)
    ensures At(Put(ms, m), t) == At(ms, t) + At([m], t)
  {
    var p := Place(ms, m.at);
    var before, after := ms[..p], ms[p..];
    forall i | 0 <= i < |after| ensures after[i].at > m.at {
      assert after[i] == ms[p + i] && ms[p].at > m.at;
    }
    AtInsert(before, m, after, t);
    assert before + after == ms;
  }

  /** It sorts, and keeps the order of messages with the same time. */
  lemma {:induction false} StableSortSorts(ms: seq<Message>, t: int)
    ensures Sorted(StableSort(ms)) && |StableSort(ms)| == |ms| && At(StableSort(ms), t) == At(ms, t)
    decreases |ms|
  {
    if ms != [] {
      var init, last := ms[..|ms| - 1], ms[|ms| - 1];
      StableSortSorts(init, t);
      PutSorted(StableSort(init), last);
      PutStable(StableSort(init), last, t);
      assert ms == init + [last];
      AtConcat(init, [last], t);
    }
  }

  /** Only one sequence does both: the sort is fixed by its contract. */
  lemma {:induction false} StableSortUnique(a: seq<Message>, b: seq<Message>)
    requires Sorted(a) && Sorted(b) && forall t :: At(a, t) == At(b, t)
    ensures a == b
    decreases |a|
  {
    if a == [] {
      if b != [] {
        assert At(b, b[0].at) != [];
      }
    } else {
      HeadAgrees(a, b);
      forall t ensures At(a[1..], t) == At(b[1..], t) {
        assert At(a, t) == At(b, t);
        AtTail(a, t);
        AtTail(b, t);
      }
      StableSortUnique(a[1..], b[1..]);
    }
  }

  lemma AtTail(ms: seq<Message>, t: int)
    requires ms != []
    ensures ms[0].at == t ==> At(ms, t) != []
    ensures At(ms[1..], t) == if ms[0].at == t then At(ms, t)[1..] else At(ms, t)
  {
  }

  lemma HeadAgrees(a: seq<Message>, b: seq<Message>)
    requires Sorted(a) && Sorted(b) && a != [] && forall t :: At(a, t) == At(b, t)
    ensures b != [] && a[0] == b[0]
  {
    assert At(a, a[0].at) == At(b, a[0].at) && At(a, a[0].at)[0] == a[0];
    AtBound(b, a[0].at);
    assert At(a, b[0].at) == At(b, b[0].at) && At(b, b[0].at)[0] == b[0];
    AtBound(a, b[0].at);
  }

  /** A time that occurs in a sorted sequence is no earlier than its first. */
  lemma AtBound(ms: seq<Message>, t: int)
    requires Sorted(ms) && At(ms, t) != []
    ensures ms != [] && ms[0].at <= t
  {
    if forall i :: 0 <= i < |ms| ==> ms[i].at != t {
      AtLater(ms, t);
    }
  }

  // ---- Bounded view is sort then truncate ----

  function Latest(ms: seq<Message>): seq<Message> {
    if |ms| > MAX_MESSAGES then ms[|ms| - MAX_MESSAGES..] else ms
  }

  lemma {:induction false} PlaceUnique(ms: seq<Message>, at: int, p: nat)
    requires p <= |ms| && (forall i :: 0 <= i < p ==> ms[i].at <= at) && (p < |ms| ==> ms[p].at > at)
    ensures Place(ms, at) == p
    decreases |ms|
  {
    if p > 0 {
      PlaceUnique(ms[1..], at, p - 1);
    }
  }

  lemma PlaceInTail(ms: seq<Message>, k: nat, at: int)
    requires Sorted(ms) && k < |ms|
    ensures Place(ms[k..], at) == if Place(ms, at) >= k then Place(ms, at) - k else 0
  {
    var p := Place(ms, at);
    PlaceUnique(ms[k..], at, if p >= k then p - k else 0);
  }

  /** Inserting into the latest 1000 and dropping the oldest gives the latest 1000 of inserting into all. */
  lemma LatestPut(ms: seq<Message>, m: Message)
    requires Sorted(ms)
    ensures Latest(Put(ms, m)) == Latest(Put(Latest(ms), m))
  {
    if |ms| > MAX_MESSAGES {
      var k := |ms| - MAX_MESSAGES;
      PlaceInTail(ms, k, m.at);
      PutTail(ms, m, k);
      LatestOf(ms, k);
      LatestOf(Put(ms, m), k + 1);
      LatestOf(Put(ms[k..], m), 1);
    }
  }

  lemma LatestOf(ms: seq<Message>, n: nat)
    requires |ms| == MAX_MESSAGES + n
    ensures Latest(ms) == ms[n..]
  {
  }

  lemma PutTailAt(ms: seq<Message>, m: Message, k: nat, j: nat)
    requires k < |ms| && 1 <= j <= |ms| - k
    requires Place(ms[k..], m.at) == if Place(ms, m.at) >= k then Place(ms, m.at) - k else 0
    ensures Put(ms, m)[k + j] == Put(ms[k..], m)[j]
  {
    PutAt(ms, m, k + j);
    PutAt(ms[k..], m, j);
  }

  lemma PutTail(ms: seq<Message>, m: Message, k: nat)
    requires k < |ms| && Place(ms[k..], m.at) == if Place(ms, m.at) >= k then Place(ms, m.at) - k else 0
    ensures Put(ms, m)[k + 1..] == Put(ms[k..], m)[1..]
  {
    var tail := Put(ms[k..], m);
    var r := Put(ms, m);
    assert |r| == |ms| + 1 && |tail| == |ms| - k + 1;
    forall j: nat | 1 <= j < |tail| ensures r[k + j] == tail[j] {
      PutTailAt(ms, m, k, j);
    }
    SameTails(r, tail, k);
  }

  lemma SameTails(r: seq<Message>, tail: seq<Message>, k: nat)
    requires |r| == k + |tail| && |tail| >= 1 && forall j :: 1 <= j < |tail| ==> r[k + j] == tail[j]
    ensures r[k + 1..] == tail[1..]
  {
    var a, b := r[k + 1..], tail[1..];
    forall i | 0 <= i < |b| ensures a[i] == b[i] {
      assert b[i] == tail[i + 1] && a[i] == r[k + (i + 1)];
    }
  }

  lemma InsertIsLatest(v: View, m: Message)
    requires |v.messages| <= MAX_MESSAGES && m.id !in v.seen
    ensures Insert(v, m).messages == Latest(Put(v.messages, m))
  {
  }

  lemma InsertedIds(ms: seq<Message>)
    ensures InsertAll(View([], {}), ms).seen <= Ids(ms)
    decreases |ms|
  {
    if ms != [] {
      var init, last := ms[..|ms| - 1], ms[|ms| - 1];
      InsertedIds(init);
      assert ms[|ms| - 1].id in Ids(ms);
      forall id | id in Ids(init) ensures id in Ids(ms) {
        var i :| 0 <= i < |init| && init[i].id == id;
        assert ms[i].id == id;
      }
    }
  }

  /** After inserting any sequence of messages with distinct ids, the view is the last 1000 of the stable
      sort of them all by time. */
  lemma {:induction false} ViewIsSortedTail(ms: seq<Message>)
    requires DistinctIds(ms)
    ensures InsertAll(View([], {}), ms).messages == Latest(StableSort(ms))
    decreases |ms|
  {
    if ms != [] {
      var init, last := ms[..|ms| - 1], ms[|ms| - 1];
      ViewIsSortedTail(init);
      InsertedIds(init);
      assert last.id !in Ids(init);
      StableSortSorts(init, 0);
      LatestPut(StableSort(init), last);
      InsertIsLatest(InsertAll(View([], {}), init), last);
    }
  }
}
