/**
 The capped line reader of terminal/src/link.rs: lines are read from a buffered stream whose buffer is
 refilled in chunks of any size, and a line longer than the cap is skipped and reported.

 `cuts` stands for whatever the underlying reads return; every property holds for all of them.
 */
module LineReader {
  import opened Basics

  const NL: Byte := 10

  datatype Kind = Line | TooLong | Eof

  /** Where the first newline is, or the length if there is none. */
  function FirstNewline(s: seq<Byte>): (i: nat)
    ensures i <= |s| && NL !in s[..i] && (i < |s| ==> s[i] == NL)
  {
    if s == [] || s[0] == NL then 0
    else
      var i := 1 + FirstNewline(s[1..]);
      assert s[..i] == [s[0]] + s[1..][..i - 1];
      i
  }

  datatype Read = Read(kind: Kind, buf: seq<Byte>, rest: seq<Byte>)

  /** What one read of the whole remaining stream gives. */
  function ReadOne(s: seq<Byte>, cap: nat): Read {
    var i := FirstNewline(s);
    var rest := if i < |s| then s[i + 1..] else [];
    if i > cap then Read(TooLong, [], rest)
    else if i == |s| == 0 then Read(Eof, [], rest)
    else Read(Line, s[..i], rest)
  }

  // ---- The reader ----

  /** A buffered stream: what the buffer holds, what has not been read yet, and the sizes the next reads return. */
  class Reader {
    var buffer: seq<Byte>
    var unread: seq<Byte>
    var cuts: seq<nat>

    constructor (stream: seq<Byte>, cuts: seq<nat>)
      ensures Rest() == stream
    {
      buffer, unread, this.cuts := [], stream, cuts;
    }

    ghost function Rest(): seq<Byte>
      reads this
    {
      buffer + unread
    }

    /** The buffer, refilled if it was empty; empty only at the end of the stream. */
    method FillBuf() returns (available: seq<Byte>)
      modifies this
      ensures available == buffer && Rest() == old(Rest())
      ensures available == [] ==> Rest() == []
    {
      if buffer == [] && unread != [] {
        var n := if cuts != [] && 1 <= cuts[0] <= |unread| then cuts[0] else |unread|;
        cuts := if cuts != [] then cuts[1..] else [];
        buffer, unread := unread[..n], unread[n..];
      }
      available := buffer;
    }

    method Consume(n: nat)
      requires n <= |buffer|
      modifies this
      ensures Rest() == old(Rest())[n..]
    {
      buffer := buffer[n..];
    }
  }

  /** The length of the line seen so far, and whether it passed the cap, decide what the buffer holds. */
  ghost predicate Holding(line: seq<Byte>, cap: nat, overflow: bool, buf: seq<Byte>) {
    overflow == (|line| > cap) && buf == if overflow then [] else line
  }

  /** A line that starts with newline-free bytes `line` ends where the rest of it does. */
  lemma {:induction false} FirstNewlineAfter(line: seq<Byte>, s: seq<Byte>)
    requires NL !in line
    ensures FirstNewline(line + s) == |line| + FirstNewline(s)
    decreases |line|
  {
    if line == [] {
      assert line + s == s;
    } else {
      assert (line + s)[1..] == line[1..] + s && (line + s)[0] == line[0];
      FirstNewlineAfter(line[1..], s);
    }
  }

  /** What a read gives when the stream ends after `line`. */
  lemma StreamEnds(line: seq<Byte>, cap: nat)
    requires NL !in line
    ensures ReadOne(line, cap) ==
            Read(if |line| > cap then TooLong else if line == [] then Eof else Line, if |line| > cap then [] else line, [])
  {
    FirstNewlineAfter(line, []);
    assert line + [] == line && line[..|line|] == line;
  }

  /** A chunk of the line is kept while the line fits, and the buffer is emptied once it does not. */
  method Extend(buf: seq<Byte>, overflow: bool, chunk: seq<Byte>, cap: nat, ghost line: seq<Byte>)
    returns (buf': seq<Byte>, overflow': bool)
    requires Holding(line, cap, overflow, buf)
    ensures Holding(line + chunk, cap, overflow', buf')
  {
    if overflow {
      return buf, true;
    }
    if |buf| + |chunk| > cap {
      return [], true;
    }
    return buf + chunk, false;
  }

  /** What one read gives when the line that `line` begins ends `i` bytes into what is left. */
  lemma LineEnds(s: seq<Byte>, line: seq<Byte>, rest: seq<Byte>, i: nat, cap: nat, overflow: bool, buf: seq<Byte>)
    requires s == line + rest && NL !in line && i == FirstNewline(rest) < |rest| && Holding(line + rest[..i], cap, overflow, buf)
    ensures ReadOne(s, cap) == Read(if overflow then TooLong else Line, buf, rest[i + 1..])
  {
    FirstNewlineAfter(line, rest);
    var j := |line| + i;
    SplitAt(s, line, rest, i, line + rest[..i], rest[i + 1..]);
    ReadOneFound(s, j, cap, line + rest[..i], rest[i + 1..], overflow, buf);
  }

  lemma SplitAt(s: seq<Byte>, line: seq<Byte>, rest: seq<Byte>, i: nat, seg: seq<Byte>, tail: seq<Byte>)
    requires s == line + rest && i < |rest| && seg == line + rest[..i] && tail == rest[i + 1..]
    ensures seg == s[..|line| + i] && tail == s[|line| + i + 1..]
  {
  }

  lemma ReadOneFound(s: seq<Byte>, i: nat, cap: nat, seg: seq<Byte>, rest: seq<Byte>, overflow: bool, buf: seq<Byte>)
    requires i == FirstNewline(s) < |s| && seg == s[..i] && rest == s[i + 1..] && Holding(seg, cap, overflow, buf)
    ensures ReadOne(s, cap) == Read(if overflow then TooLong else Line, buf, rest)
  {
  }

  /** However the stream is cut, one call reads exactly one line of it. */
  method ReadCappedLine(reader: Reader, cap: nat) returns (kind: Kind, buf: seq<Byte>)
    modifies reader
    ensures Read(kind, buf, reader.Rest()) == ReadOne(old(reader.Rest()), cap)
  {
    buf := [];
    var overflow, sawAny := false, false;
    ghost var line: seq<Byte> := [];
    while true
      invariant old(reader.Rest()) == line + reader.Rest()
      invariant NL !in line && Holding(line, cap, overflow, buf) && sawAny == (line != [])
      decreases |reader.Rest()|
    {
      var available := reader.FillBuf();
      if available == [] {
        assert line + reader.Rest() == line;
        StreamEnds(line, cap);
        kind := if sawAny && !overflow && buf != [] then Line else if overflow then TooLong else Eof;
        return;
      }
      ghost var rest := reader.Rest();
      var i := FirstNewline(available);
      var found := i < |available|;
      var chunk := available[..i];
      CutNewline(available, reader.unread);
      sawAny := true;
      buf, overflow := Extend(buf, overflow, chunk, cap, line);
      reader.Consume(if found then i + 1 else i);
      if found {
        LineEnds(old(reader.Rest()), line, rest, i, cap, overflow, buf);
        kind := if overflow then TooLong else Line;
        return;
      }
      LineGrows(line, chunk, reader.Rest());
      line := line + chunk;
    }
  }

  lemma LineGrows(line: seq<Byte>, chunk: seq<Byte>, rest: seq<Byte>)
    requires NL !in line && NL !in chunk
    ensures NL !in line + chunk && line + (chunk + rest) == (line + chunk) + rest
  {
  }

  /** The first newline of the buffer is the first of the stream; without one all of the buffer is line. */
  lemma CutNewline(available: seq<Byte>, unread: seq<Byte>)
    ensures var i := FirstNewline(available); var rest := available + unread;
            && rest[..i] == available[..i] && available[..i] + rest[i..] == rest
            && (i < |available| ==> FirstNewline(rest) == i)
  {
    var i := FirstNewline(available);
    CutAt(available, unread, i);
    if i < |available| {
      NewlineStays(available, i, unread);
    }
  }

  lemma CutAt(available: seq<Byte>, unread: seq<Byte>, i: nat)
    requires i <= |available|
    ensures var rest := available + unread; rest[..i] == available[..i] && available[..i] + rest[i..] == rest
  {
  }

  lemma NewlineStays(available: seq<Byte>, i: nat, unread: seq<Byte>)
    requires i < |available| && NL !in available[..i] && available[i] == NL
    ensures FirstNewline(available + unread) == i
  {
    var tail := available[i..] + unread;
    assert available + unread == available[..i] + tail;
    assert tail[0] == NL;
    FirstNewlineAfter(available[..i], tail);
  }

  // ---- The whole stream ----

  datatype Item = Whole(bytes: seq<Byte>) | Skipped

  function ItemOf(r: Read): Item {
    if r.kind.TooLong? then Skipped else Whole(r.buf)
  }

  /** What reading until the end of the stream gives. */
  function Items(s: seq<Byte>, cap: nat): seq<Item>
    decreases |s|
  {
    var r := ReadOne(s, cap);
    if s == [] then [] else [ItemOf(r)] + Items(r.rest, cap)
  }

  lemma ItemsAppend(items: seq<Item>, s: seq<Byte>, cap: nat)
    requires s != []
    ensures items + Items(s, cap) == (items + [ItemOf(ReadOne(s, cap))]) + Items(ReadOne(s, cap).rest, cap)
  {
  }

  method ReadAll(stream: seq<Byte>, cuts: seq<nat>, cap: nat) returns (items: seq<Item>)
    ensures items == Mark(Segments(stream), cap)
  {
    var reader := new Reader(stream, cuts);
    items := [];
    ItemsAreSegments(stream, cap);
    while true
      invariant items + Items(reader.Rest(), cap) == Items(stream, cap)
      decreases |reader.Rest()|
    {
      ghost var s := reader.Rest();
      var kind, buf := ReadCappedLine(reader, cap);
      if kind.Eof? {
        return;
      }
      ItemsAppend(items, s, cap);
      items := items + [if kind.TooLong? then Skipped else Whole(buf)];
    }
  }

  // ---- Splitting at newlines ----

  /** The segments between newlines; there is always at least one. */
  function Segments(s: seq<Byte>): (r: seq<seq<Byte>>)
    ensures |r| > 0
  {
    if s == [] then [[]]
    else
      var rest := Segments(s[1..]);
      if s[0] == NL then [[]] + rest else [[s[0]] + rest[0]] + rest[1..]
  }

  function Join(segs: seq<seq<Byte>>): seq<Byte>
    requires |segs| > 0
    decreases |segs|
  {
    if |segs| == 1 then segs[0] else segs[0] + [NL] + Join(segs[1..])
  }

  /** Segments hold no newline, and joined by newlines they give the stream back. */
  lemma {:induction false} SegmentsJoin(s: seq<Byte>)
    ensures Join(Segments(s)) == s
    ensures forall i :: 0 <= i < |Segments(s)| ==> NL !in Segments(s)[i]
    decreases |s|
  {
    if s != [] {
      SegmentsJoin(s[1..]);
      var rest := Segments(s[1..]);
      if s[0] == NL {
        assert Segments(s)[1..] == rest;
        assert s == [] + [NL] + s[1..];
      } else {
        assert Segments(s)[1..] == rest[1..];
        assert s == [s[0]] + s[1..];
        if |rest| > 1 {
          assert [s[0]] + (rest[0] + [NL] + Join(rest[1..])) == ([s[0]] + rest[0]) + [NL] + Join(rest[1..]);
        }
      }
    }
  }

  function MarkOne(seg: seq<Byte>, cap: nat): Item {
    if |seg| > cap then Skipped else Whole(seg)
  }

  /** Each segment is given whole or marked too long; an empty last segment is no line. */
  function Mark(segs: seq<seq<Byte>>, cap: nat): seq<Item>
    requires |segs| > 0
    decreases |segs|
  {
    if |segs| == 1 then (if segs[0] == [] then [] else [MarkOne(segs[0], cap)])
    else [MarkOne(segs[0], cap)] + Mark(segs[1..], cap)
  }

  lemma {:induction false} FirstSegment(s: seq<Byte>)
    ensures var i := FirstNewline(s);
            && Segments(s)[0] == s[..i]
            && (i == |s| ==> |Segments(s)| == 1)
            && (i < |s| ==> Segments(s)[1..] == Segments(s[i + 1..]))
    decreases |s|
  {
    if s != [] {
      var i := FirstNewline(s);
      if s[0] == NL {
        assert Segments(s)[1..] == Segments(s[1..]);
      } else {
        FirstSegment(s[1..]);
        assert s[..i] == [s[0]] + s[1..][..i - 1];
        assert Segments(s)[1..] == Segments(s[1..])[1..];
        if i < |s| {
          assert s[1..][i..] == s[i + 1..];
        }
      }
    }
  }

  /** The first item is the first segment, marked; the rest is read from behind its newline. */
  lemma FirstItem(s: seq<Byte>, cap: nat)
    requires s != []
    ensures var i := FirstNewline(s);
            Items(s, cap) == [MarkOne(s[..i], cap)] + (if i < |s| then Items(s[i + 1..], cap) else [])
  {
  }

  /** Reading line by line is splitting at newlines and marking long segments, whatever came before each. */
  lemma {:induction false} ItemsAreSegments(s: seq<Byte>, cap: nat)
    ensures Items(s, cap) == Mark(Segments(s), cap)
    decreases |s|
  {
    if s != [] {
      var i := FirstNewline(s);
      var segs := Segments(s);
      FirstItem(s, cap);
      FirstSegment(s);
      if i < |s| {
        ItemsAreSegments(s[i + 1..], cap);
        assert |segs[1..]| > 0;
        assert Mark(segs, cap) == [MarkOne(segs[0], cap)] + Mark(segs[1..], cap);
      } else {
        assert segs[0] == s;
      }
    }
  }
}
