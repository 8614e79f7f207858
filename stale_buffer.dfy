/**
 * The delimiter test of Receive as the source writes it.
 *
 * After scanning a chunk, the source tests `buffer[i] == delimiter` where
 * `i` is where the scan stopped.  When the scan ran off the end of the
 * bytes just read (`i == n`), that byte is not part of this read: it is
 * left over from an earlier, longer read or from the zero initialisation
 * of the buffer, and when `i == 512` it lies outside the array.  A left
 * over byte can only be the delimiter when the delimiter is NUL (earlier
 * reads that reached it would have ended the loop), so with a NUL
 * delimiter a read that ends short of a zero byte is taken for a complete
 * message.  Here the out-of-range read at 512 counts as "not the
 * delimiter"; C++ leaves it undefined.
 *
 * The rest of the model uses the guarded test (`i < n`), which is
 * `Framing.ReadLoop`.
 */
module StaleBuffer {
  import opened Text
  import opened Win32
  import opened PipeStatus
  import opened Framing

  /** The test as written: whatever byte the buffer holds where the scan stopped. */
  predicate StopsAsWritten(buffer: seq<Char8>, i: nat, delimiter: Char8) {
    i < |buffer| && buffer[i] == delimiter
  }

  /** The read loop as written, over the persistent buffer's contents. */
  function ReadLoopAsWritten(os: Os, h: Handle, delimiter: Char8, buffer: seq<Char8>, acc: NarrowString): (r: (Status, Os))
    requires |buffer| == RECEIVE_BUFFER_SIZE
    ensures r.0.ok ==> acc <= r.0.message
    ensures h == InvalidHandle ==> !r.0.ok
    decreases |os.chunks|
  {
    var (os1, ok, data) := ReadStep(os, h, RECEIVE_BUFFER_SIZE);
    if !ok && os1.lastError != ERROR_MORE_DATA then
      (Status(false, MSG_READ_FAILED + ErrorDescription(os1.lastError)), os1)
    else
      var buffer1 := data + buffer[|data|..];
      var part := Scan(data, delimiter).0;
      if StopsAsWritten(buffer1, |part|, delimiter) || !ok then (Status(true, acc + part), os1)
      else ReadLoopAsWritten(os1, h, delimiter, buffer1, acc + part)
  }

  /** The buffer as Receive allocates it: all zero bytes. */
  function ZeroBuffer(): (b: seq<Char8>)
    ensures |b| == RECEIVE_BUFFER_SIZE && forall k :: 0 <= k < |b| ==> b[k] == '\0'
  {
    seq(RECEIVE_BUFFER_SIZE, _ => '\0')
  }

  /**
   * While no byte of the buffer is the delimiter, the test as written
   * decides exactly as the guarded one.
   */
  lemma {:induction false} AsWrittenAgreesWithoutStaleDelimiter(
    os: Os, h: Handle, delimiter: Char8, buffer: seq<Char8>, acc: NarrowString)
    requires |buffer| == RECEIVE_BUFFER_SIZE
    requires delimiter !in buffer
    ensures ReadLoopAsWritten(os, h, delimiter, buffer, acc) == ReadLoop(os, h, delimiter, acc)
    decreases |os.chunks|
  {
    var (os1, ok, data) := ReadStep(os, h, RECEIVE_BUFFER_SIZE);
    if ok || os1.lastError == ERROR_MORE_DATA {
      var buffer1 := data + buffer[|data|..];
      var (part, found) := Scan(data, delimiter);
      if found {
        assert buffer1[|part|] == data[|part|];
      } else {
        assert |part| == |data|;
        assert |data| < |buffer1| ==> buffer1[|data|] == buffer[|data|];
        assert delimiter !in buffer1;
        if ok {
          AsWrittenAgreesWithoutStaleDelimiter(os1, h, delimiter, buffer1, acc + part);
        }
      }
    }
  }

  /** Under any delimiter other than NUL the source's test is harmless. */
  lemma AsWrittenAgreesForNonNulDelimiter(os: Os, h: Handle, delimiter: Char8)
    requires delimiter != '\0'
    ensures ReadLoopAsWritten(os, h, delimiter, ZeroBuffer(), []) == ReadLoop(os, h, delimiter, [])
  {
    AsWrittenAgreesWithoutStaleDelimiter(os, h, delimiter, ZeroBuffer(), []);
  }

  /**
   * With a NUL delimiter, the payload "abcdef" followed by NUL, read as
   * "abc" and then "def" plus NUL, comes back as "abc" from the test as
   * written: the zero byte after "abc" in the fresh buffer is taken for the
   * delimiter.  The guarded test returns the whole "abcdef".
   */
  lemma StaleZeroEndsMessageEarly()
    ensures var abc: NarrowString := ['a', 'b', 'c'];
      var def: NarrowString := ['d', 'e', 'f'];
      var os := Os([], [], [], [ReadOutcome(true, 0, abc), ReadOutcome(true, 0, def + ['\0'])], [], 0, []);
      && Flatten(os.chunks) == Payload(abc + def, '\0')
      && ReadLoopAsWritten(os, Handle(1), '\0', ZeroBuffer(), []).0 == Status(true, abc)
      && ReadLoop(os, Handle(1), '\0', []).0 == Status(true, abc + def)
  {
    var abc: NarrowString := ['a', 'b', 'c'];
    var def: NarrowString := ['d', 'e', 'f'];
    var os := Os([], [], [], [ReadOutcome(true, 0, abc), ReadOutcome(true, 0, def + ['\0'])], [], 0, []);
    assert Flatten(os.chunks[1..]) == def + ['\0'] + Flatten([]);
    assert Flatten(os.chunks) == abc + (def + ['\0']);
    assert Scan(abc, '\0') == (abc, false) by { ScanStopsAt(abc, '\0', 3); }
    assert Scan(def + ['\0'], '\0') == (def, true) by { ScanStopsAt(def + ['\0'], '\0', 3); }
    var os1 := ReadStep(os, Handle(1), RECEIVE_BUFFER_SIZE).0;
    assert ReadStep(os1, Handle(1), RECEIVE_BUFFER_SIZE).2 == def + ['\0'];
  }
}
