/**
 * Delimiter framing: a message goes out as its text followed by one
 * delimiter byte, and comes back as the bytes read up to the first
 * delimiter, chunk by chunk, through a 512-byte read buffer.
 */
module Framing {
  import opened Text
  import opened Win32
  import opened PipeStatus

  /** The size of the receive buffer, and so the most one ReadFile call delivers. */
  const RECEIVE_BUFFER_SIZE: nat := 512

  const MSG_READ_FAILED: string := "Encountered error whilst reading pipe data; "

  /** What Send puts on the wire for `text`. */
  function Payload(text: NarrowString, delimiter: Char8): (p: NarrowString)
    ensures |p| == |text| + 1 && p[..|text|] == text && p[|text|] == delimiter
  {
    text + [delimiter]
  }

  /**
   * The scan over one chunk: the bytes before the first delimiter, and
   * whether a delimiter was found.
   */
  function Scan(data: NarrowString, delimiter: Char8): (r: (NarrowString, bool))
    ensures delimiter !in r.0
    ensures r.0 <= data
    ensures r.1 <==> delimiter in data
    ensures r.1 ==> |r.0| < |data| && data[|r.0|] == delimiter
    ensures !r.1 ==> r.0 == data
  {
    if data == [] then ([], false)
    else if data[0] == delimiter then ([], true)
    else
      var rest := Scan(data[1..], delimiter);
      ([data[0]] + rest.0, rest.1)
  }

  /**
   * The read loop of Receive, from the point where the read mode is set:
   * read a chunk; give up on an error other than ERROR_MORE_DATA; append
   * the chunk's bytes before its first delimiter; stop when a delimiter
   * was found or the read reported more data, read again otherwise.
   * Gives the response and the system afterwards.
   */
  function ReadLoop(os: Os, h: Handle, delimiter: Char8, acc: NarrowString): (r: (Status, Os))
    ensures r.0.ok ==> acc <= r.0.message
    ensures r.0.ok ==> |r.1.chunks| < |os.chunks|
    ensures h == InvalidHandle ==> !r.0.ok
    decreases |os.chunks|
  {
    var (os1, ok, data) := ReadStep(os, h, RECEIVE_BUFFER_SIZE);
    if !ok && os1.lastError != ERROR_MORE_DATA then
      (Status(false, MSG_READ_FAILED + ErrorDescription(os1.lastError)), os1)
    else
      var (part, found) := Scan(data, delimiter);
      if found || !ok then (Status(true, acc + part), os1)
      else ReadLoop(os1, h, delimiter, acc + part)
  }

  /** The read loop makes no open attempt and writes nothing. */
  lemma {:induction false} ReadLoopOnlyReads(os: Os, h: Handle, delimiter: Char8, acc: NarrowString)
    ensures var r := ReadLoop(os, h, delimiter, acc);
      OpenCalls(r.1.trace) == OpenCalls(os.trace) && Written(r.1.trace) == Written(os.trace)
    decreases |os.chunks|
  {
    var (os1, ok, data) := ReadStep(os, h, RECEIVE_BUFFER_SIZE);
    OneMoreCall(os.trace, ReadFile(h, RECEIVE_BUFFER_SIZE));
    if ok && !Scan(data, delimiter).1 {
      ReadLoopOnlyReads(os1, h, delimiter, acc + Scan(data, delimiter).0);
    }
  }

  /**
   * When the stream ends before a delimiter arrives, the receive fails on
   * the broken-pipe read: the bytes gathered so far are not returned.
   */
  lemma {:induction false} StreamEndsBeforeDelimiter(os: Os, h: Handle, delimiter: Char8, acc: NarrowString)
    requires h != InvalidHandle
    requires forall k :: 0 <= k < |os.chunks| ==> os.chunks[k].ok && delimiter !in os.chunks[k].data
    ensures var r := ReadLoop(os, h, delimiter, acc);
      !r.0.ok && r.0.message == MSG_READ_FAILED + ErrorDescription(ERROR_BROKEN_PIPE)
    decreases |os.chunks|
  {
    if os.chunks != [] {
      var (os1, ok, data) := ReadStep(os, h, RECEIVE_BUFFER_SIZE);
      assert data <= os.chunks[0].data;
      assert delimiter !in data by {
        forall k | 0 <= k < |data| ensures data[k] != delimiter {
          assert data[k] == os.chunks[0].data[k];
        }
      }
      assert os1.chunks == os.chunks[1..];
      StreamEndsBeforeDelimiter(os1, h, delimiter, acc + Scan(data, delimiter).0);
    }
  }

  /**
   * A read that reports ERROR_MORE_DATA (a message-mode message longer
   * than the buffer) ends the loop: the receive returns the bytes gathered
   * so far and leaves the rest of the message unread.
   */
  lemma MoreDataEndsMessage(os: Os, h: Handle, delimiter: Char8, acc: NarrowString, data: NarrowString)
    requires h != InvalidHandle && os.chunks != []
    requires os.chunks[0] == ReadOutcome(false, ERROR_MORE_DATA, data) && |data| <= RECEIVE_BUFFER_SIZE
    requires delimiter !in data
    ensures ReadLoop(os, h, delimiter, acc) == (Status(true, acc + data), ReadStep(os, h, RECEIVE_BUFFER_SIZE).0)
  {
    assert Scan(data, delimiter).0 == data;
  }

  /** All the bytes a sequence of read outcomes delivers, in order. */
  function Flatten(chunks: seq<ReadOutcome>): NarrowString {
    if chunks == [] then [] else chunks[0].data + Flatten(chunks[1..])
  }

  /** A scan that stopped at `i` (at a delimiter or at the end) took exactly the bytes before `i`. */
  lemma {:induction false} ScanStopsAt(data: NarrowString, delimiter: Char8, i: nat)
    requires i <= |data|
    requires forall k :: 0 <= k < i ==> data[k] != delimiter
    requires i == |data| || data[i] == delimiter
    ensures Scan(data, delimiter) == (data[..i], i < |data|)
  {
    if data != [] && data[0] != delimiter {
      ScanStopsAt(data[1..], delimiter, i - 1);
      assert [data[0]] + data[1..][..i - 1] == data[..i];
    }
  }

  /** Scanning a sent payload gives back the text, whatever follows it. */
  lemma {:induction false} PayloadScan(text: NarrowString, delimiter: Char8, rest: NarrowString)
    requires delimiter !in text
    ensures Scan(Payload(text, delimiter) + rest, delimiter) == (text, true)
  {
    var wire := Payload(text, delimiter) + rest;
    assert wire[..|text|] == text;
    forall k | 0 <= k < |text| ensures wire[k] != delimiter {
      assert wire[k] == text[k];
    }
    ScanStopsAt(wire, delimiter, |text|);
  }

  /** A successful receive never contains the delimiter. */
  lemma {:induction false} ReceivedHasNoDelimiter(os: Os, h: Handle, delimiter: Char8, acc: NarrowString)
    requires delimiter !in acc
    ensures var r := ReadLoop(os, h, delimiter, acc); r.0.ok ==> delimiter !in r.0.message
    decreases |os.chunks|
  {
    var (os1, ok, data) := ReadStep(os, h, RECEIVE_BUFFER_SIZE);
    var (part, found) := Scan(data, delimiter);
    if (ok || os1.lastError == ERROR_MORE_DATA) && !found && ok {
      ReceivedHasNoDelimiter(os1, h, delimiter, acc + part);
    }
  }

  /** The bytes of the first `n` reads are those of the first read followed by those of the next `n - 1`. */
  lemma FlattenFirst(chunks: seq<ReadOutcome>, n: nat)
    requires 0 < n <= |chunks|
    ensures Flatten(chunks[..n]) == chunks[0].data + Flatten(chunks[1..][..n - 1])
  {
    assert chunks[..n][1..] == chunks[1..][..n - 1];
  }

  /**
   * A read that delivers a front part of a payload without reaching its
   * delimiter holds no delimiter, and what is left is the payload of the
   * rest of the text.
   */
  lemma WireFront(data: NarrowString, tail: NarrowString, text: NarrowString, delimiter: Char8, rest: NarrowString)
    requires data + tail == Payload(text, delimiter) + rest
    requires delimiter !in text && |data| <= |text|
    ensures delimiter !in data
    ensures text == data + text[|data|..] && delimiter !in text[|data|..]
    ensures tail == Payload(text[|data|..], delimiter) + rest
  {
    var wire := data + tail;
    assert data == wire[..|data|] == text[..|data|];
    assert tail == wire[|data|..];
  }

  /**
   * Framing round trip: however the system splits a sent payload into
   * successful reads of at most 512 bytes, the read loop returns exactly
   * the text that was sent, and reads no chunk past the one holding the
   * delimiter.
   */
  lemma {:induction false} ReceiveRoundTrip(
    os: Os, h: Handle, delimiter: Char8, acc: NarrowString, text: NarrowString, rest: NarrowString, n: nat)
    requires h != InvalidHandle
    requires n <= |os.chunks|
    requires forall k :: 0 <= k < n ==> os.chunks[k].ok && |os.chunks[k].data| <= RECEIVE_BUFFER_SIZE
    requires Flatten(os.chunks[..n]) == Payload(text, delimiter) + rest
    requires delimiter !in text
    ensures var r := ReadLoop(os, h, delimiter, acc);
      r.0 == Status(true, acc + text) && |os.chunks| - n <= |r.1.chunks|
    decreases n
  {
    assert |Flatten(os.chunks[..n])| > 0;
    var c := os.chunks[0];
    FlattenFirst(os.chunks, n);
    var tail := Flatten(os.chunks[1..][..n - 1]);
    var os1 := ReadStep(os, h, RECEIVE_BUFFER_SIZE).0;
    assert os1.chunks == os.chunks[1..];
    if |c.data| > |text| {
      var wire := c.data + tail;
      assert c.data == wire[..|c.data|];
      assert c.data == Payload(text, delimiter) + rest[..|c.data| - |text| - 1];
      ReceiveDropsRestOfChunk(os, h, delimiter, acc, text, rest[..|c.data| - |text| - 1]);
    } else {
      WireFront(c.data, tail, text, delimiter, rest);
      var text' := text[|c.data|..];
      ReadLoopContinues(os, h, delimiter, acc);
      ReceiveRoundTrip(os1, h, delimiter, acc + c.data, text', rest, n - 1);
      assert acc + c.data + text' == acc + text;
    }
  }

  /** A successful read without a delimiter appends all its bytes and reads again. */
  lemma ReadLoopContinues(os: Os, h: Handle, delimiter: Char8, acc: NarrowString)
    requires h != InvalidHandle && os.chunks != []
    requires os.chunks[0].ok && |os.chunks[0].data| <= RECEIVE_BUFFER_SIZE && delimiter !in os.chunks[0].data
    ensures ReadLoop(os, h, delimiter, acc)
         == ReadLoop(ReadStep(os, h, RECEIVE_BUFFER_SIZE).0, h, delimiter, acc + os.chunks[0].data)
  {
    assert ReadStep(os, h, RECEIVE_BUFFER_SIZE).2 == os.chunks[0].data;
    assert Scan(os.chunks[0].data, delimiter) == (os.chunks[0].data, false);
  }

  /**
   * Bytes after the delimiter in the same chunk are dropped: the read loop
   * returns the text before the delimiter and the next read starts at the
   * following chunk.
   */
  lemma ReceiveDropsRestOfChunk(
    os: Os, h: Handle, delimiter: Char8, acc: NarrowString, text: NarrowString, rest: NarrowString)
    requires h != InvalidHandle && os.chunks != []
    requires os.chunks[0].ok && os.chunks[0].data == Payload(text, delimiter) + rest
    requires |os.chunks[0].data| <= RECEIVE_BUFFER_SIZE
    requires delimiter !in text
    ensures ReadLoop(os, h, delimiter, acc) == (Status(true, acc + text), ReadStep(os, h, RECEIVE_BUFFER_SIZE).0)
    ensures ReadLoop(os, h, delimiter, acc).1.chunks == os.chunks[1..]
  {
    PayloadScan(text, delimiter, rest);
  }

  /**
   * One read decides the loop when it fails: an error other than
   * ERROR_MORE_DATA fails the receive, and ERROR_MORE_DATA ends it with
   * what was gathered, its own bytes up to a delimiter included.
   */
  lemma ReadLoopOnFailedRead(os: Os, h: Handle, delimiter: Char8, acc: NarrowString)
    requires !NextRead(os, h).ok
    ensures var o := NextRead(os, h); var r := ReadLoop(os, h, delimiter, acc);
      && (o.lastError != ERROR_MORE_DATA ==> !r.0.ok)
      && (o.lastError == ERROR_MORE_DATA ==>
            r.0 == Status(true, acc + Scan(Take(o.data, RECEIVE_BUFFER_SIZE), delimiter).0))
  {
  }
}
