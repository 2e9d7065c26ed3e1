/**
 Attachment transfer of packages/client/src/attachments.ts: a blob is sent in chunks and put together
 again from chunks that may arrive in any order, more than once, and between those of other transfers.

 The identifier hash is injective: a content hash is the blob it was derived from, and an attachment id
 is the content hash it was derived from.
 */
module Attachments {
  import opened Basics

  type Bytes = seq<Byte>

  datatype Hash = HashOf(blob: Bytes)

  datatype AttachmentId = IdOf(hash: Hash) | OtherId(bytes: Bytes)

  datatype Chunk = Chunk(id: AttachmentId, index: int, total: int, data: Bytes)

  // ---- Sending ----

  /** `Math.ceil` of a quotient. */
  function Total(length: nat, size: nat): nat
    requires size > 0
  {
    (length + size - 1) / size
  }

  lemma TotalBounds(length: nat, size: nat)
    requires size > 0
    ensures Total(length, size) * size >= length
    ensures length > 0 ==> Total(length, size) > 0 && (Total(length, size) - 1) * size < length
  {
    var n, r := (length + size - 1) / size, (length + size - 1) % size;
    assert length + size - 1 == size * n + r;
    assert (n - 1) * size == n * size - size;
    assert length > 0 ==> size * n > 0;
  }

  function Upto(blob: Bytes, size: nat, i: nat): nat {
    if i * size <= |blob| then i * size else |blob|
  }

  lemma UptoGrows(blob: Bytes, size: nat, i: nat)
    ensures Upto(blob, size, i) <= Upto(blob, size, i + 1)
  {
    assert (i + 1) * size == i * size + size;
  }

  /** The i-th chunk of a blob. */
  function Piece(blob: Bytes, size: nat, i: nat): Bytes {
    UptoGrows(blob, size, i);
    blob[Upto(blob, size, i)..Upto(blob, size, i + 1)]
  }

  function ChunkOf(blob: Bytes, size: nat, i: nat): Chunk
    requires size > 0
  {
    Chunk(IdOf(HashOf(blob)), i, Total(|blob|, size), Piece(blob, size, i))
  }

  /** Chunks are sent in order until the direct session closes, here after `open` of them. */
  method TransferBlob(blob: Bytes, size: nat, open: nat) returns (sent: seq<Chunk>, ok: bool)
    requires size > 0
    ensures ok == (Total(|blob|, size) <= open)
    ensures |sent| == if ok then Total(|blob|, size) else open
    ensures forall i :: 0 <= i < |sent| ==> sent[i] == ChunkOf(blob, size, i)
  {
    sent := [];
    var total := (|blob| + size - 1) / size;
    var i := 0;
    while i < total
      invariant 0 <= i <= total && |sent| == i <= open
      invariant forall k :: 0 <= k < i ==> sent[k] == ChunkOf(blob, size, k)
    {
      var offset := i * size;
      var end := if offset + size < |blob| then offset + size else |blob|;
      TotalBounds(|blob|, size);
      StartsInside(blob, size, i, total);
      assert (i + 1) * size == offset + size;
      var chunk := blob[offset..end];
      if |sent| == open {
        return sent, false;
      }
      sent := sent + [Chunk(IdOf(HashOf(blob)), i, total, chunk)];
      i := i + 1;
    }
    return sent, true;
  }

  lemma StartsInside(blob: Bytes, size: nat, i: nat, total: nat)
    requires i < total && (total - 1) * size < |blob|
    ensures i * size < |blob|
  {
    assert i * size <= (total - 1) * size;
  }

  // ---- Receiving ----

  datatype Transfer = Transfer(chunks: map<int, Bytes>, total: int, contentHash: Hash)

  type Transfers = map<AttachmentId, Transfer>

  datatype Error = Invalid | OfferMismatch | MetadataChanged | Conflict | Integrity

  datatype Outcome = Returned(blob: Option<Bytes>) | Threw(error: Error)

  datatype Received = Received(transfers: Transfers, outcome: Outcome)

  /** Chunks in order of their index. */
  function Assembled(chunks: map<int, Bytes>, n: nat): Bytes
    requires forall i :: 0 <= i < n ==> i in chunks
  {
    if n == 0 then [] else Assembled(chunks, n - 1) + chunks[n - 1]
  }

  /** All indices are there; true of a transfer with as many chunks as its total. */
  predicate Full(chunks: map<int, Bytes>, total: int) {
    |chunks| == total && forall i :: 0 <= i < total ==> i in chunks
  }

  function Receive(ts: Transfers, c: Chunk, contentHash: Hash): Received {
    if c.index < 0 || c.total <= 0 || c.index >= c.total then Received(ts, Threw(Invalid))
    else if c.id != IdOf(contentHash) then Received(ts, Threw(OfferMismatch))
    else
      var t := if c.id in ts then ts[c.id] else Transfer(map[], c.total, contentHash);
      if t.total != c.total || t.contentHash != contentHash then Received(ts, Threw(MetadataChanged))
      else if c.index in t.chunks && t.chunks[c.index] != c.data then Received(ts, Threw(Conflict))
      else
        Stored(ts, c.id, t.(chunks := t.chunks[c.index := c.data]))
  }

  /** An unfinished transfer is kept; a finished one is removed, joined and checked against its hash. */
  function Stored(ts: Transfers, id: AttachmentId, t: Transfer): Received {
    if !Full(t.chunks, t.total) then Received(ts[id := t], Returned(None))
    else
      var blob := Assembled(t.chunks, t.total);
      Received(ts - {id}, if HashOf(blob) == t.contentHash then Returned(Some(blob)) else Threw(Integrity))
  }

  /** What every receiver keeps: its transfers are for the hash their id names, unfinished, and within range. */
  ghost predicate TransferOk(id: AttachmentId, t: Transfer) {
    && id == IdOf(t.contentHash) && t.total > 0 && |t.chunks| < t.total
    && (forall i :: i in t.chunks ==> 0 <= i < t.total)
  }

  ghost predicate TransfersOk(ts: Transfers) {
    forall id :: id in ts ==> TransferOk(id, ts[id])
  }

  class AttachmentReceiver {
    var transfers: Transfers

    constructor ()
      ensures transfers == map[] && TransfersOk(transfers)
    {
      transfers := map[];
    }

    /** As many chunks as the total means every index has arrived; they are then joined in order. */
    method ReceiveChunk(c: Chunk, contentHash: Hash) returns (outcome: Outcome)
      requires TransfersOk(transfers)
      modifies this
      ensures Received(transfers, outcome) == Receive(old(transfers), c, contentHash)
      ensures TransfersOk(transfers)
    {
      ReceiveKeeps(transfers, c, contentHash);
      if c.index < 0 || c.total <= 0 || c.index >= c.total {
        return Threw(Invalid);
      }
      if c.id != IdOf(contentHash) {
        return Threw(OfferMismatch);
      }
      var t := if c.id in transfers then transfers[c.id] else Transfer(map[], c.total, contentHash);
      if t.total != c.total || t.contentHash != contentHash {
        return Threw(MetadataChanged);
      }
      if c.index in t.chunks && t.chunks[c.index] != c.data {
        return Threw(Conflict);
      }
      assert forall i :: i in t.chunks ==> 0 <= i < t.total by {
        assert c.id in transfers ==> TransferOk(c.id, transfers[c.id]);
      }
      outcome := StoreChunk(c.id, t.(chunks := t.chunks[c.index := c.data]));
    }

    method StoreChunk(id: AttachmentId, t: Transfer) returns (outcome: Outcome)
      requires t.total > 0 && forall i :: i in t.chunks ==> 0 <= i < t.total
      modifies this
      ensures Received(transfers, outcome) == Stored(old(transfers), id, t)
    {
      FullIffCount(t.chunks, t.total);
      if |t.chunks| != t.total {
        transfers := transfers[id := t];
        return Returned(None);
      }
      var blob: Bytes := [];
      for i := 0 to t.total
        invariant blob == Assembled(t.chunks, i)
        invariant transfers == old(transfers)
      {
        blob := blob + t.chunks[i];
      }
      transfers := transfers - {id};
      return if HashOf(blob) == t.contentHash then Returned(Some(blob)) else Threw(Integrity);
    }
  }

  function Below(n: nat): (s: set<int>)
    ensures |s| == n && forall i :: i in s <==> 0 <= i < n
  {
    if n == 0 then {} else Below(n - 1) + {n - 1}
  }

  /** Counting the chunks is enough: indices are in range and distinct. */
  lemma FullIffCount(chunks: map<int, Bytes>, total: int)
    requires total >= 0 && forall i :: i in chunks ==> 0 <= i < total
    ensures Full(chunks, total) <==> |chunks| == total
  {
    SubsetSize(chunks.Keys, Below(total));
  }

  lemma ReceiveKeeps(ts: Transfers, c: Chunk, contentHash: Hash)
    requires TransfersOk(ts)
    ensures TransfersOk(Receive(ts, c, contentHash).transfers)
  {
    var r := Receive(ts, c, contentHash);
    assert c.id in ts ==> TransferOk(c.id, ts[c.id]);
    if r.outcome == Returned(None) {
      var t := if c.id in ts then ts[c.id] else Transfer(map[], c.total, contentHash);
      var chunks := t.chunks[c.index := c.data];
      FullIffCount(chunks, c.total);
      SubsetSize(chunks.Keys, Below(c.total));
    }
  }

  // ---- Whatever arrives ----

  datatype Delivery = Delivery(chunk: Chunk, contentHash: Hash)

  function ReceiveAll(ts: Transfers, ds: seq<Delivery>): Transfers
    decreases |ds|
  {
    if ds == [] then ts
    else Receive(ReceiveAll(ts, ds[..|ds| - 1]), ds[|ds| - 1].chunk, ds[|ds| - 1].contentHash).transfers
  }

  lemma {:induction false} ReceiveAllKeeps(ds: seq<Delivery>)
    ensures TransfersOk(ReceiveAll(map[], ds))
    decreases |ds|
  {
    if ds != [] {
      ReceiveAllKeeps(ds[..|ds| - 1]);
      ReceiveKeeps(ReceiveAll(map[], ds[..|ds| - 1]), ds[|ds| - 1].chunk, ds[|ds| - 1].contentHash);
    }
  }

  // ---- A genuine transfer among others ----

  /** Every delivery for this blob's id is one of its chunks; deliveries for other ids are unconstrained. */
  ghost predicate Genuine(blob: Bytes, size: nat, d: Delivery)
    requires size > 0
  {
    d.chunk.id == IdOf(HashOf(blob)) ==>
      && 0 <= d.chunk.index < Total(|blob|, size)
      && d.chunk == ChunkOf(blob, size, d.chunk.index)
      && d.contentHash == HashOf(blob)
  }

  /** The indices that have arrived in the current round; a round ends when the last missing one arrives. */
  function Arrived(blob: Bytes, size: nat, ds: seq<Delivery>): set<int>
    requires size > 0
    decreases |ds|
  {
    if ds == [] then {}
    else
      var before := Arrived(blob, size, ds[..|ds| - 1]);
      var c := ds[|ds| - 1].chunk;
      if c.id != IdOf(HashOf(blob)) then before
      else if before + {c.index} == Below(Total(|blob|, size)) then {}
      else before + {c.index}
  }

  /** The receiver holds exactly the pieces that have arrived. */
  ghost predicate Tracks(blob: Bytes, size: nat, ts: Transfers, arrived: set<int>)
    requires size > 0
  {
    var id := IdOf(HashOf(blob));
    && (id in ts <==> arrived != {})
    && (forall i :: i in arrived ==> 0 <= i < Total(|blob|, size))
    && (id in ts ==>
          && ts[id].total == Total(|blob|, size) && ts[id].contentHash == HashOf(blob)
          && ts[id].chunks.Keys == arrived
          && forall i :: i in arrived ==> ts[id].chunks[i] == Piece(blob, size, i))
  }

  lemma SliceJoin(blob: Bytes, a: nat, b: nat)
    requires a <= b <= |blob|
    ensures blob[..a] + blob[a..b] == blob[..b]
  {
  }

  lemma {:induction false} PiecesJoin(blob: Bytes, size: nat, chunks: map<int, Bytes>, n: nat)
    requires forall i :: 0 <= i < n ==> i in chunks && chunks[i] == Piece(blob, size, i)
    ensures Assembled(chunks, n) == blob[..Upto(blob, size, n)]
    decreases n
  {
    if n > 0 {
      var a, b := Upto(blob, size, n - 1), Upto(blob, size, n);
      PiecesJoin(blob, size, chunks, n - 1);
      UptoGrows(blob, size, n - 1);
      assert chunks[n - 1] == blob[a..b];
      SliceJoin(blob, a, b);
    }
  }

  /** All pieces, joined, are the blob. */
  lemma AllPiecesJoin(blob: Bytes, size: nat, chunks: map<int, Bytes>)
    requires size > 0 && Full(chunks, Total(|blob|, size))
    requires forall i :: 0 <= i < Total(|blob|, size) ==> chunks[i] == Piece(blob, size, i)
    ensures Assembled(chunks, Total(|blob|, size)) == blob
  {
    PiecesJoin(blob, size, chunks, Total(|blob|, size));
    TotalBounds(|blob|, size);
  }

  lemma FullWhenAllArrived(chunks: map<int, Bytes>, now: set<int>, total: nat)
    requires chunks.Keys == now && now <= Below(total)
    ensures Full(chunks, total) <==> now == Below(total)
  {
    FullIffCount(chunks, total);
    SubsetSize(now, Below(total));
  }

  /** One genuine chunk: nothing until the last missing index, then exactly the blob. */
  lemma ReceiveGenuine(blob: Bytes, size: nat, ts: Transfers, arrived: set<int>, d: Delivery)
    requires size > 0 && Tracks(blob, size, ts, arrived) && Genuine(blob, size, d) && d.chunk.id == IdOf(HashOf(blob))
    ensures var r := Receive(ts, d.chunk, d.contentHash);
            var now := arrived + {d.chunk.index};
            if now == Below(Total(|blob|, size)) then
              r.outcome == Returned(Some(blob)) && Tracks(blob, size, r.transfers, {})
            else
              r.outcome == Returned(None) && Tracks(blob, size, r.transfers, now)
  {
    var id, total, i := IdOf(HashOf(blob)), Total(|blob|, size), d.chunk.index;
    var t := if id in ts then ts[id] else Transfer(map[], total, HashOf(blob));
    TrackedTransfer(blob, size, ts, arrived, t);
    ReceiveStores(ts, d.chunk, d.contentHash, t);
    MorePieces(blob, size, t, arrived, i, d.chunk.data);
    StoredGenuine(blob, size, ts, arrived + {i}, t.(chunks := t.chunks[i := d.chunk.data]));
  }

  lemma TrackedTransfer(blob: Bytes, size: nat, ts: Transfers, arrived: set<int>, t: Transfer)
    requires size > 0 && Tracks(blob, size, ts, arrived)
    requires t == if IdOf(HashOf(blob)) in ts then ts[IdOf(HashOf(blob))] else Transfer(map[], Total(|blob|, size), HashOf(blob))
    ensures t.total == Total(|blob|, size) && t.contentHash == HashOf(blob) && Pieces(blob, size, t.chunks, arrived, t.total)
  {
  }

  /** Exactly the pieces of these indices. */
  ghost predicate Pieces(blob: Bytes, size: nat, chunks: map<int, Bytes>, arrived: set<int>, total: nat) {
    && chunks.Keys == arrived
    && (forall i :: i in arrived ==> 0 <= i < total && chunks[i] == Piece(blob, size, i))
  }

  lemma MorePieces(blob: Bytes, size: nat, t: Transfer, arrived: set<int>, i: nat, data: Bytes)
    requires t.total >= 0 && Pieces(blob, size, t.chunks, arrived, t.total) && i < t.total && data == Piece(blob, size, i)
    ensures Pieces(blob, size, t.chunks[i := data], arrived + {i}, t.total)
    ensures i in t.chunks ==> t.chunks[i] == data
  {
  }

  lemma ReceiveStores(ts: Transfers, c: Chunk, contentHash: Hash, t: Transfer)
    requires t == if c.id in ts then ts[c.id] else Transfer(map[], c.total, contentHash)
    requires 0 <= c.index < c.total && c.id == IdOf(contentHash) && t.total == c.total && t.contentHash == contentHash
    requires c.index in t.chunks ==> t.chunks[c.index] == c.data
    ensures Receive(ts, c, contentHash) == Stored(ts, c.id, t.(chunks := t.chunks[c.index := c.data]))
  {
  }

  lemma StoredGenuine(blob: Bytes, size: nat, ts: Transfers, now: set<int>, t: Transfer)
    requires size > 0 && t.total == Total(|blob|, size) && t.contentHash == HashOf(blob)
    requires t.chunks.Keys == now && now != {} && now <= Below(t.total)
    requires forall i :: i in now ==> t.chunks[i] == Piece(blob, size, i)
    ensures var r := Stored(ts, IdOf(HashOf(blob)), t);
            if now == Below(t.total) then
              r.outcome == Returned(Some(blob)) && Tracks(blob, size, r.transfers, {})
            else
              r.outcome == Returned(None) && Tracks(blob, size, r.transfers, now)
  {
    FullWhenAllArrived(t.chunks, now, t.total);
    if now == Below(t.total) {
      AllPiecesJoin(blob, size, t.chunks);
    }
  }

  lemma {:induction false} RunTracks(blob: Bytes, size: nat, ds: seq<Delivery>)
    requires size > 0 && forall i :: 0 <= i < |ds| ==> Genuine(blob, size, ds[i])
    ensures Tracks(blob, size, ReceiveAll(map[], ds), Arrived(blob, size, ds))
    decreases |ds|
  {
    if ds != [] {
      var init, d := ds[..|ds| - 1], ds[|ds| - 1];
      RunTracks(blob, size, init);
      var ts := ReceiveAll(map[], init);
      if d.chunk.id == IdOf(HashOf(blob)) {
        ReceiveGenuine(blob, size, ts, Arrived(blob, size, init), d);
      } else {
        OthersUntouched(ts, d, IdOf(HashOf(blob)));
      }
    }
  }

  lemma OthersUntouched(ts: Transfers, d: Delivery, id: AttachmentId)
    requires d.chunk.id != id
    ensures var r := Receive(ts, d.chunk, d.contentHash).transfers;
            (id in r <==> id in ts) && (id in ts ==> r[id] == ts[id])
  {
  }

  /** The attachment round trip: after any deliveries, in any order, repeated, and interleaved with anything for
      other ids, the next chunk of a blob returns nothing unless it is the last index missing, and then exactly
      the blob; it never throws. */
  lemma AttachmentRoundTrip(blob: Bytes, size: nat, ds: seq<Delivery>, d: Delivery)
    requires size > 0 && d.chunk.id == IdOf(HashOf(blob)) && Genuine(blob, size, d)
    requires forall i :: 0 <= i < |ds| ==> Genuine(blob, size, ds[i])
    ensures Receive(ReceiveAll(map[], ds), d.chunk, d.contentHash).outcome ==
            Returned(if Arrived(blob, size, ds) + {d.chunk.index} == Below(Total(|blob|, size)) then Some(blob) else None)
  {
    RunTracks(blob, size, ds);
    ReceiveGenuine(blob, size, ReceiveAll(map[], ds), Arrived(blob, size, ds), d);
  }

  // ---- Whoever sends ----

  /** Whatever anybody sends, in whatever order, a blob is handed out only under the id that its own hash names. */
  lemma OnlyTheNamedBlob(ds: seq<Delivery>, d: Delivery, blob: Bytes)
    requires Receive(ReceiveAll(map[], ds), d.chunk, d.contentHash).outcome == Returned(Some(blob))
    ensures d.chunk.id == IdOf(HashOf(blob)) && d.contentHash == HashOf(blob)
  {
  }

  /** A chunk that fits what is known of its transfer: an index below a positive total, the id that its hash names, and the
      total and data seen before, if any were. */
  predicate FitsIn(ts: Transfers, d: Delivery) {
    var c := d.chunk;
    && 0 <= c.index < c.total && c.id == IdOf(d.contentHash)
    && (c.id in ts ==> ts[c.id].total == c.total && (c.index in ts[c.id].chunks ==> ts[c.id].chunks[c.index] == c.data))
  }

  /** Exactly the chunks that do not fit are refused and leave every transfer as it was. One that fits is kept until it is
      the last; the transfer is then over, with the blob if the pieces have the hash and an error if not. */
  lemma ReceivesIff(ds: seq<Delivery>, d: Delivery)
    ensures var ts := ReceiveAll(map[], ds); var r := Receive(ts, d.chunk, d.contentHash); var id := d.chunk.id;
            var held := (if id in ts then ts[id].chunks else map[])[d.chunk.index := d.chunk.data];
            if !FitsIn(ts, d) then r.transfers == ts && r.outcome.Threw? && r.outcome.error != Integrity
            else if |held| < d.chunk.total then r.outcome == Returned(None) && r.transfers == ts[id := Transfer(held, d.chunk.total, d.contentHash)]
            else r.transfers == ts - {id} && (r.outcome == Threw(Integrity) || (r.outcome.Returned? && r.outcome.blob.Some?))
  {
    ReceiveAllKeeps(ds);
    var ts, id := ReceiveAll(map[], ds), d.chunk.id;
    assert id in ts ==> TransferOk(id, ts[id]);
    if FitsIn(ts, d) {
      var held := (if id in ts then ts[id].chunks else map[])[d.chunk.index := d.chunk.data];
      FullIffCount(held, d.chunk.total);
      SubsetSize(held.Keys, Below(d.chunk.total));
      ReceiveStores(ts, d.chunk, d.contentHash, if id in ts then ts[id] else Transfer(map[], d.chunk.total, d.contentHash));
    }
  }
}
