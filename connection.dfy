/**
 * What each client operation does, as functions of the client's fields
 * and the system: the open attempt, the retry loop, connect, close, send
 * and receive.  `NamedPipe.NamedPipeClient` runs these step by step.
 */
module Connection {
  import opened Text
  import opened Win32
  import opened PipeOptions
  import opened PipeStatus
  import opened Framing

  const MSG_HANDLE_INVALID: string := "Pipe handle was invalid when connecting."
  const MSG_UNKNOWN_ERROR: string := "Unknown error occurred during pipe connection, code "
  const MSG_STILL_BUSY: string := "Pipe is still busy after "
  const MSG_CONNECTED: string := "Pipe connected"
  const MSG_OPEN_FAILED: string := "Failed to open the pipe"
  const MSG_SET_STATE_FAILED: string := "Failed to set pipe handle state; "
  const MSG_WRITE_FAILED: string := "Failed to write file; "
  const MSG_WRITE_SUCCESS: string := "Success, bytes written: "

  /** The fields of a client. */
  datatype ClientState = ClientState(
    pipeHandle: Handle,
    pipeOpen: bool,
    pipeName: seq<char>,
    pipePrefix: seq<char>,
    attempts: uint32,
    connectionOptions: PipeConnectionOptions)

  /** A client as the default constructor leaves it. */
  function InitialState(): ClientState {
    ClientState(InvalidHandle, false, "", DEFAULT_PIPE_PREFIX, 0, DefaultOptions())
  }

  /** What an operation returns, with the client and the system afterwards. */
  datatype Run<T> = Run(value: T, client: ClientState, os: Os)

  function Path(c: ClientState): seq<char> {
    PipePath(c.pipePrefix, c.pipeName, c.connectionOptions.prependPrefix)
  }

  /**
   * Whether the next open attempt against `os` connects: a valid handle,
   * no error other than ERROR_PIPE_BUSY, and a wait that succeeds.
   */
  predicate Connectable(os: Os) {
    && NextCreate(os).handle != InvalidHandle
    && (NextCreate(os).lastError == ERROR_SUCCESS || NextCreate(os).lastError == ERROR_PIPE_BUSY)
    && NextWait(os) == 0
  }

  /**
   * One open attempt.  The handle CreateFileW returns is stored whatever
   * happens next; the checks run in order (invalid handle, unexpected
   * error, wait), and the wait is only made when the first two pass.
   */
  function TryOpenSpec(c: ClientState, os: Os): (r: Run<Status>)
    ensures r.value.ok <==> Connectable(os)
    ensures r.client == c.(pipeHandle := NextCreate(os).handle)
    ensures NextCreate(os).handle == InvalidHandle ==> r.value.message == MSG_HANDLE_INVALID
    ensures r.os.trace == os.trace + [CreateFile(Path(c))] + (
      if NextCreate(os).handle != InvalidHandle
         && (NextCreate(os).lastError == ERROR_SUCCESS || NextCreate(os).lastError == ERROR_PIPE_BUSY)
      then [WaitNamedPipe(Path(c), c.connectionOptions.pipeWaitTime)] else [])
    ensures r.os.chunks == os.chunks && r.os.writeResults == os.writeResults && r.os.modeResults == os.modeResults
  {
    var path := Path(c);
    var (os1, h) := CreateFileStep(os, path);
    var c1 := c.(pipeHandle := h);
    if h == InvalidHandle then
      Run(Status(false, MSG_HANDLE_INVALID), c1, os1)
    else if os1.lastError != ERROR_SUCCESS && os1.lastError != ERROR_PIPE_BUSY then
      Run(Status(false, MSG_UNKNOWN_ERROR + ErrorDescription(os1.lastError) + "!"), c1, os1)
    else
      var (os2, waited) := WaitStep(os1, path, c.connectionOptions.pipeWaitTime);
      if !waited then
        Run(Status(false, MSG_STILL_BUSY + Decimal(c.connectionOptions.pipeWaitTime) + " ticks"), c1, os2)
      else
        Run(Status(true, MSG_CONNECTED), c1, os2)
  }

  /** `++attempts` on an `unsigned int`. */
  function Increment(a: uint32): (r: uint32)
    ensures r == (a + 1) % UINT32_LIMIT
  {
    if a == UINT32_LIMIT - 1 then 0 else a + 1
  }

  /** How many more passes the retry loop can make before `attempts` reaches the limit. */
  function Budget(attempts: uint32, maxAttempts: uint32): nat {
    if attempts < maxAttempts then maxAttempts - attempts else UINT32_LIMIT - attempts + maxAttempts
  }

  /**
   * The retry loop: while the pipe is not open, sleep, make one attempt,
   * record its outcome in `pipeOpen`, count it, and give up with false as
   * soon as the count reaches `maxAttempts` (before looking at whether the
   * attempt connected).
   */
  function OpenSpec(c: ClientState, os: Os): (r: Run<bool>)
    ensures c.pipeOpen ==> r == Run(true, c, os)
    ensures r.value ==> r.client.pipeOpen
    ensures !c.pipeOpen && r.value ==> r.client.pipeHandle != InvalidHandle
    ensures r.client == c.(pipeHandle := r.client.pipeHandle, pipeOpen := r.client.pipeOpen, attempts := r.client.attempts)
    ensures r.os.chunks == os.chunks && r.os.writeResults == os.writeResults && r.os.modeResults == os.modeResults
    decreases Budget(c.attempts, c.connectionOptions.maxAttempts)
  {
    if c.pipeOpen then Run(true, c, os)
    else
      var t := TryOpenSpec(c, SleepStep(os, c.connectionOptions.openSleepTicks));
      var c1 := t.client.(pipeOpen := t.value.ok, attempts := Increment(c.attempts));
      if c1.attempts >= c.connectionOptions.maxAttempts then Run(false, c1, t.os)
      else OpenSpec(c1, t.os)
  }

  /** Connect: store the name and options, then open. */
  function ConnectSpec(c: ClientState, os: Os, name: seq<char>, options: PipeConnectionOptions): (r: Run<bool>)
    ensures r.client.pipeName == name && r.client.connectionOptions == options
    ensures r.client.pipePrefix == c.pipePrefix
    ensures r.value ==> r.client.pipeOpen
  {
    OpenSpec(c.(pipeName := name, connectionOptions := options), os)
  }

  /** Close: release the handle if there is one; nothing else changes. */
  function CloseSpec(c: ClientState, os: Os): (r: (ClientState, Os))
    ensures r.0.pipeHandle == InvalidHandle
    ensures r.0 == c.(pipeHandle := InvalidHandle)
    ensures c.pipeHandle == InvalidHandle <==> r.1 == os
    ensures c.pipeHandle != InvalidHandle ==> r.1 == os.(trace := os.trace + [CloseHandle(c.pipeHandle)])
  {
    if c.pipeHandle != InvalidHandle then (c.(pipeHandle := InvalidHandle), CloseHandleStep(os, c.pipeHandle))
    else (c, os)
  }

  /** Send: open if needed, set the read mode, write the text followed by the delimiter. */
  function SendSpec(c: ClientState, os: Os, text: NarrowString): (r: Run<Status>)
    ensures c.pipeOpen ==> r.client == c
    ensures r.client == OpenSpec(c, os).client
    ensures r.value.ok ==> r.client.pipeOpen && r.os.chunks == os.chunks
    ensures r.value.ok ==>
      |r.os.trace| > 0
      && r.os.trace[|r.os.trace| - 1] == WriteFile(r.client.pipeHandle, Payload(text, c.connectionOptions.delimiter))
  {
    var o := OpenSpec(c, os);
    if !o.value then Run(Status(false, MSG_OPEN_FAILED), o.client, o.os)
    else
      var c1 := o.client;
      var (os1, modeSet) := SetModeStep(o.os, c1.pipeHandle, ReadModeFlag(c1.connectionOptions.mode));
      if !modeSet then Run(Status(false, MSG_SET_STATE_FAILED + ErrorDescription(os1.lastError)), c1, os1)
      else
        var (os2, wrote, n) := WriteStep(os1, c1.pipeHandle, Payload(text, c1.connectionOptions.delimiter));
        if !wrote then Run(Status(false, MSG_WRITE_FAILED + ErrorDescription(os2.lastError)), c1, os2)
        else Run(Status(true, MSG_WRITE_SUCCESS + Decimal(n)), c1, os2)
  }

  /** Receive: open if needed, set the read mode, run the read loop. */
  function ReceiveSpec(c: ClientState, os: Os): (r: Run<Status>)
    ensures c.pipeOpen ==> r.client == c
    ensures r.client == OpenSpec(c, os).client
    ensures r.value.ok ==> r.client.pipeOpen && |r.os.chunks| < |os.chunks|
  {
    var o := OpenSpec(c, os);
    if !o.value then Run(Status(false, MSG_OPEN_FAILED), o.client, o.os)
    else
      var c1 := o.client;
      var (os1, modeSet) := SetModeStep(o.os, c1.pipeHandle, ReadModeFlag(c1.connectionOptions.mode));
      if !modeSet then Run(Status(false, MSG_SET_STATE_FAILED + ErrorDescription(os1.lastError)), c1, os1)
      else
        var r := ReadLoop(os1, c1.pipeHandle, c1.connectionOptions.delimiter, []);
        Run(r.0, c1, r.1)
  }

  // ---------------------------------------------------------------------
  // The retry loop

  /** One pass of the retry loop makes one open attempt and writes nothing. */
  lemma PassMakesOneAttempt(c: ClientState, os: Os)
    ensures var t := TryOpenSpec(c, SleepStep(os, c.connectionOptions.openSleepTicks));
      && OpenCalls(t.os.trace) == OpenCalls(os.trace) + 1
      && ReadCalls(t.os.trace) == ReadCalls(os.trace)
      && Written(t.os.trace) == Written(os.trace)
  {
    var sleep := Sleep(c.connectionOptions.openSleepTicks);
    var create := CreateFile(Path(c));
    var t := TryOpenSpec(c, SleepStep(os, c.connectionOptions.openSleepTicks));
    OneMoreCall(os.trace, sleep);
    OneMoreCall(os.trace + [sleep], create);
    if |t.os.trace| > |os.trace| + 2 {
      OneMoreCall(os.trace + [sleep] + [create], WaitNamedPipe(Path(c), c.connectionOptions.pipeWaitTime));
    }
  }

  /**
   * Every pass of the retry loop makes exactly one open attempt and adds
   * one to `attempts`; Open answers true exactly when it stopped below the
   * limit, and then the pipe is open; only the handle, `pipeOpen` and
   * `attempts` change, and nothing is written.
   */
  lemma {:induction false} OpenAttempts(c: ClientState, os: Os)
    requires !c.pipeOpen
    ensures var r := OpenSpec(c, os);
      var k := OpenCalls(r.os.trace) - OpenCalls(os.trace);
      && OpenCalls(os.trace) < OpenCalls(r.os.trace)
      && r.client == c.(pipeHandle := r.client.pipeHandle, pipeOpen := r.client.pipeOpen, attempts := r.client.attempts)
      && (r.value <==> r.client.attempts < c.connectionOptions.maxAttempts)
      && (r.value ==> r.client.pipeOpen && r.client.pipeHandle != InvalidHandle)
      && (c.attempts < c.connectionOptions.maxAttempts ==>
            r.client.attempts == c.attempts + k <= c.connectionOptions.maxAttempts)
      && Written(r.os.trace) == Written(os.trace) && ReadCalls(r.os.trace) == ReadCalls(os.trace)
      && r.os.chunks == os.chunks && r.os.writeResults == os.writeResults && r.os.modeResults == os.modeResults
    decreases Budget(c.attempts, c.connectionOptions.maxAttempts)
  {
    var t := TryOpenSpec(c, SleepStep(os, c.connectionOptions.openSleepTicks));
    var c1 := t.client.(pipeOpen := t.value.ok, attempts := Increment(c.attempts));
    PassMakesOneAttempt(c, os);
    if c1.attempts < c.connectionOptions.maxAttempts && !c1.pipeOpen {
      OpenAttempts(c1, t.os);
    }
  }

  /**
   * An attempt below the limit that connects ends the loop with true,
   * after exactly that one attempt.
   */
  lemma OpenConnectsBelowLimit(c: ClientState, os: Os)
    requires !c.pipeOpen && Connectable(os)
    requires Increment(c.attempts) < c.connectionOptions.maxAttempts
    ensures var r := OpenSpec(c, os);
      && r.value && r.client.pipeOpen
      && r.client.attempts == Increment(c.attempts)
      && OpenCalls(r.os.trace) == OpenCalls(os.trace) + 1
  {
    var os0 := SleepStep(os, c.connectionOptions.openSleepTicks);
    assert NextCreate(os0) == NextCreate(os) && NextWait(os0) == NextWait(os);
    PassMakesOneAttempt(c, os);
  }

  /** The retry loop does not look at the pipe again once it is open. */
  lemma OpenWhenOpen(c: ClientState, os: Os)
    requires c.pipeOpen
    ensures OpenSpec(c, os) == Run(true, c, os)
  {
  }

  /** An open attempt that finds no pipe fails, and leaves the next ones finding none either. */
  predicate NoServer(os: Os) {
    forall k :: 0 <= k < |os.creates| ==> os.creates[k].handle == InvalidHandle
  }

  /**
   * Retry bound: when the pipe never becomes available, Open gives up
   * with false after exactly `maxAttempts - attempts` attempts.
   */
  lemma {:induction false} OpenNeverAvailable(c: ClientState, os: Os)
    requires !c.pipeOpen && c.attempts < c.connectionOptions.maxAttempts
    requires NoServer(os)
    ensures var r := OpenSpec(c, os);
      && !r.value && !r.client.pipeOpen
      && r.client.attempts == c.connectionOptions.maxAttempts
      && OpenCalls(r.os.trace) == OpenCalls(os.trace) + c.connectionOptions.maxAttempts - c.attempts
    decreases Budget(c.attempts, c.connectionOptions.maxAttempts)
  {
    var os0 := SleepStep(os, c.connectionOptions.openSleepTicks);
    var t := TryOpenSpec(c, os0);
    assert NextCreate(os0).handle == InvalidHandle;
    var c1 := t.client.(pipeOpen := t.value.ok, attempts := Increment(c.attempts));
    PassMakesOneAttempt(c, os);
    if c1.attempts < c.connectionOptions.maxAttempts {
      assert NoServer(t.os) by {
        assert t.os.creates == Tail(os.creates);
      }
      OpenNeverAvailable(c1, t.os);
    } else {
      OpenAttempts(c, os);
    }
  }

  /**
   * Once `attempts` has reached the limit (and is not about to wrap), every
   * Open that enters the loop makes exactly one attempt and answers false,
   * whether or not that attempt connected.
   */
  lemma OpenAfterExhaustion(c: ClientState, os: Os)
    requires !c.pipeOpen
    requires c.connectionOptions.maxAttempts <= c.attempts < UINT32_LIMIT - 1
    ensures var r := OpenSpec(c, os);
      && !r.value
      && r.client.attempts == c.attempts + 1
      && r.client.pipeOpen == Connectable(os)
      && OpenCalls(r.os.trace) == OpenCalls(os.trace) + 1
  {
    var os0 := SleepStep(os, c.connectionOptions.openSleepTicks);
    var t := TryOpenSpec(c, os0);
    assert Increment(c.attempts) == c.attempts + 1;
    assert OpenSpec(c, os) == Run(false, t.client.(pipeOpen := t.value.ok, attempts := c.attempts + 1), t.os);
    assert NextCreate(os0) == NextCreate(os) && NextWait(os0) == NextWait(os);
    PassMakesOneAttempt(c, os);
  }

  /**
   * `attempts` wraps: at 2^32 - 1 the next increment gives 0, so with any
   * positive limit an attempt that connects makes Open answer true again.
   */
  lemma OpenAfterWrapAround(c: ClientState, os: Os)
    requires !c.pipeOpen && c.attempts == UINT32_LIMIT - 1 && c.connectionOptions.maxAttempts > 0
    requires Connectable(os)
    ensures var r := OpenSpec(c, os); r.value && r.client.attempts == 0 && r.client.pipeOpen
  {
    var os0 := SleepStep(os, c.connectionOptions.openSleepTicks);
    assert NextCreate(os0) == NextCreate(os) && NextWait(os0) == NextWait(os);
  }

  /**
   * Once the last allowed attempt has connected, the pipe stays open: a
   * later Open or Connect answers true and makes no attempt, whatever the
   * count.
   */
  lemma ExhaustedButOpen(c: ClientState, os: Os, later: Os, name: seq<char>, options: PipeConnectionOptions)
    requires !c.pipeOpen && c.attempts + 1 == c.connectionOptions.maxAttempts
    requires Connectable(os)
    ensures var r := OpenSpec(c, os);
      && !r.value
      && r.client.attempts == r.client.connectionOptions.maxAttempts
      && OpenSpec(r.client, later) == Run(true, r.client, later)
      && ConnectSpec(r.client, later, name, options).value
      && OpenCalls(ConnectSpec(r.client, later, name, options).os.trace) == OpenCalls(later.trace)
  {
    OpenLastAttemptConnectsYetFails(c, os);
  }

  /**
   * The limit is checked before success: an attempt that connects on the
   * last allowed pass leaves the pipe open and still makes Open answer false.
   */
  lemma OpenLastAttemptConnectsYetFails(c: ClientState, os: Os)
    requires !c.pipeOpen && c.attempts + 1 == c.connectionOptions.maxAttempts
    requires Connectable(os)
    ensures var r := OpenSpec(c, os); !r.value && r.client.pipeOpen && r.client.pipeHandle != InvalidHandle
  {
  }

  // ---------------------------------------------------------------------
  // Connect

  /**
   * Connect overwrites the name and options and then behaves as Open: on
   * an open client it makes no attempt and answers true; `attempts` is
   * never reset.
   */
  lemma ConnectOverwritesThenOpens(c: ClientState, os: Os, name: seq<char>, options: PipeConnectionOptions)
    ensures var r := ConnectSpec(c, os, name, options);
      && r.client.pipeName == name && r.client.connectionOptions == options
      && r.client.pipePrefix == c.pipePrefix
      && (c.pipeOpen ==> r == Run(true, c.(pipeName := name, connectionOptions := options), os))
      && (!c.pipeOpen ==> OpenCalls(r.os.trace) > OpenCalls(os.trace))
  {
    if !c.pipeOpen {
      OpenAttempts(c.(pipeName := name, connectionOptions := options), os);
    }
  }

  /**
   * A new client connecting to a pipe that never becomes available gives
   * up after exactly `maxAttempts` attempts (at least one).
   */
  lemma ConnectNeverAvailable(name: seq<char>, options: PipeConnectionOptions, os: Os)
    requires NoServer(os)
    ensures var r := ConnectSpec(InitialState(), os, name, options);
      && !r.value && !r.client.pipeOpen
      && OpenCalls(r.os.trace) - OpenCalls(os.trace) == (if options.maxAttempts == 0 then 1 else options.maxAttempts)
  {
    var c := InitialState().(pipeName := name, connectionOptions := options);
    if options.maxAttempts == 0 {
      OpenAttempts(c, os);
      assert NextCreate(SleepStep(os, options.openSleepTicks)).handle == InvalidHandle;
    } else {
      OpenNeverAvailable(c, os);
    }
  }

  /**
   * A new client connecting to a pipe that accepts at once, with more than
   * one attempt allowed, answers true after one attempt.
   */
  lemma ConnectFirstAttemptSucceeds(name: seq<char>, options: PipeConnectionOptions, os: Os)
    requires options.maxAttempts > 1 && Connectable(os)
    ensures var r := ConnectSpec(InitialState(), os, name, options);
      && r.value && r.client.pipeOpen && r.client.attempts == 1
      && OpenCalls(r.os.trace) == OpenCalls(os.trace) + 1
  {
    OpenConnectsBelowLimit(InitialState().(pipeName := name, connectionOptions := options), os);
  }

  /** The same with the default options: ten attempts. */
  lemma ConnectDefaultsGiveUpAfterTen(name: seq<char>, os: Os)
    requires NoServer(os)
    ensures var r := ConnectSpec(InitialState(), os, name, DefaultOptions());
      !r.value && OpenCalls(r.os.trace) - OpenCalls(os.trace) == 10
  {
    ConnectNeverAvailable(name, DefaultOptions(), os);
  }

  /**
   * A client whose attempts are used up stays that way: a later Connect
   * makes one attempt and answers false, even against a pipe that
   * accepts the connection.
   */
  lemma ConnectAfterExhaustion(c: ClientState, os: Os, name: seq<char>, options: PipeConnectionOptions)
    requires !c.pipeOpen && options.maxAttempts <= c.attempts < UINT32_LIMIT - 1
    ensures var r := ConnectSpec(c, os, name, options);
      !r.value && r.client.attempts == c.attempts + 1 && OpenCalls(r.os.trace) == OpenCalls(os.trace) + 1
  {
    OpenAfterExhaustion(c.(pipeName := name, connectionOptions := options), os);
  }

  // ---------------------------------------------------------------------
  // Close

  /**
   * Close releases a valid handle exactly once and forgets it; a second
   * Close does nothing; `pipeOpen`, `attempts` and the names are kept.
   */
  lemma CloseReleasesOnce(c: ClientState, os: Os)
    ensures var (c1, os1) := CloseSpec(c, os);
      && c1 == c.(pipeHandle := InvalidHandle)
      && os1 == os.(trace := os.trace + (if c.pipeHandle != InvalidHandle then [CloseHandle(c.pipeHandle)] else []))
      && CloseSpec(c1, os1) == (c1, os1)
  {
  }

  /**
   * Close keeps `pipeOpen`, so a Send after Close makes no open attempt
   * and fails at setting the read mode on the released handle, writing
   * nothing.
   */
  lemma SendAfterCloseFails(c: ClientState, os: Os, text: NarrowString)
    requires c.pipeOpen
    ensures var (c1, os1) := CloseSpec(c, os);
      var r := SendSpec(c1, os1, text);
      && !r.value.ok
      && OpenCalls(r.os.trace) == OpenCalls(os1.trace)
      && Written(r.os.trace) == Written(os1.trace)
  {
    var (c1, os1) := CloseSpec(c, os);
    var r := SendSpec(c1, os1, text);
    assert r.os.trace == os1.trace + [SetNamedPipeHandleState(InvalidHandle, ReadModeFlag(c.connectionOptions.mode))];
    OneMoreCall(os1.trace, SetNamedPipeHandleState(InvalidHandle, ReadModeFlag(c.connectionOptions.mode)));
  }

  // ---------------------------------------------------------------------
  // Send and Receive

  /**
   * Send opens lazily and writes exactly one payload, the text followed
   * by the delimiter, and only after the read mode was set: nothing when
   * the open fails or the mode cannot be set.  Success reports the count
   * the system gave, at most the payload's length.
   */
  lemma {:induction false} SendWritesPayload(c: ClientState, os: Os, text: NarrowString)
    ensures |Written(os.trace)| <= |Written(SendSpec(c, os, text).os.trace)|
    ensures var o := OpenSpec(c, os); var r := SendSpec(c, os, text);
      var wrote := Written(r.os.trace)[|Written(os.trace)|..];
      && (c.pipeOpen ==> OpenCalls(r.os.trace) == OpenCalls(os.trace) && r.client == c)
      && (!o.value ==> r.value == Status(false, MSG_OPEN_FAILED) && wrote == [])
      && (o.value ==> wrote == [] || wrote == [Payload(text, c.connectionOptions.delimiter)])
      && (o.value && NextModeResult(o.os, o.client.pipeHandle) != 0 ==> !r.value.ok && wrote == [])
      && (o.value && NextModeResult(o.os, o.client.pipeHandle) == 0 ==>
            var os1 := SetModeStep(o.os, o.client.pipeHandle, ReadModeFlag(o.client.connectionOptions.mode)).0;
            var w := NextWrite(os1, o.client.pipeHandle);
            && wrote == [Payload(text, c.connectionOptions.delimiter)]
            && (r.value.ok <==> w.ok)
            && (w.ok ==> r.value.message == MSG_WRITE_SUCCESS + Decimal(if w.written <= |text| + 1 then w.written else |text| + 1))
            && (!w.ok ==> r.value.message == MSG_WRITE_FAILED + ErrorDescription(w.lastError)))
      && (r.value.ok ==> wrote == [Payload(text, c.connectionOptions.delimiter)])
  {
    var o := OpenSpec(c, os);
    var r := SendSpec(c, os, text);
    if !c.pipeOpen {
      OpenAttempts(c, os);
    }
    if o.value {
      var setCall := SetNamedPipeHandleState(o.client.pipeHandle, ReadModeFlag(o.client.connectionOptions.mode));
      var os1 := SetModeStep(o.os, o.client.pipeHandle, ReadModeFlag(o.client.connectionOptions.mode)).0;
      OneMoreCall(o.os.trace, setCall);
      if NextModeResult(o.os, o.client.pipeHandle) == 0 {
        var payload := Payload(text, o.client.connectionOptions.delimiter);
        OneMoreCall(os1.trace, WriteFile(o.client.pipeHandle, payload));
      }
    }
  }

  /** Receive opens lazily and reads nothing unless the open and the mode change succeed. */
  lemma ReceiveReadsAfterSetup(c: ClientState, os: Os)
    ensures var o := OpenSpec(c, os); var r := ReceiveSpec(c, os);
      && (c.pipeOpen ==> OpenCalls(r.os.trace) == OpenCalls(os.trace) && r.client == c)
      && (!o.value ==> r == Run(Status(false, MSG_OPEN_FAILED), o.client, o.os))
      && (!o.value || NextModeResult(o.os, o.client.pipeHandle) != 0 ==>
            !r.value.ok && ReadCalls(r.os.trace) == ReadCalls(os.trace) && r.os.chunks == os.chunks)
  {
    if !c.pipeOpen {
      OpenAttempts(c, os);
    }
    var o := OpenSpec(c, os);
    if o.value {
      var setCall := SetNamedPipeHandleState(o.client.pipeHandle, ReadModeFlag(o.client.connectionOptions.mode));
      var os1 := SetModeStep(o.os, o.client.pipeHandle, ReadModeFlag(o.client.connectionOptions.mode)).0;
      OneMoreCall(o.os.trace, setCall);
      ReadLoopOnlyReads(os1, o.client.pipeHandle, o.client.connectionOptions.delimiter, []);
    }
  }

  /** Send of "ping" on an open client whose write reports 5 bytes answers "Success, bytes written: 5". */
  lemma SendPingReportsFive(c: ClientState, os: Os)
    requires c.pipeOpen && c.pipeHandle != InvalidHandle
    requires os.modeResults != [] && os.modeResults[0] == 0
    requires os.writeResults != [] && os.writeResults[0] == WriteOutcome(true, 0, 5)
    ensures SendSpec(c, os, ['p', 'i', 'n', 'g']).value == Status(true, MSG_WRITE_SUCCESS + "5")
  {
    assert Decimal(5) == "5";
  }

  /** A successful Receive never contains the delimiter. */
  lemma ReceiveHasNoDelimiter(c: ClientState, os: Os)
    ensures var r := ReceiveSpec(c, os);
      r.value.ok ==> c.connectionOptions.delimiter !in r.value.message
  {
    var o := OpenSpec(c, os);
    if !c.pipeOpen {
      OpenAttempts(c, os);
    }
    if o.value {
      var os1 := SetModeStep(o.os, o.client.pipeHandle, ReadModeFlag(o.client.connectionOptions.mode)).0;
      ReceivedHasNoDelimiter(os1, o.client.pipeHandle, o.client.connectionOptions.delimiter, []);
    }
  }

  /**
   * Send then Receive: when one client sends a delimiter-free text and the
   * other, open and using the same delimiter, reads back the payload that
   * was written (split into reads of at most 512 bytes in any way, with
   * anything after it), Receive answers exactly that text.
   */
  lemma SendThenReceive(
    sender: ClientState, senderOs: Os, text: NarrowString,
    receiver: ClientState, receiverOs: Os, rest: NarrowString, n: nat)
    requires SendSpec(sender, senderOs, text).value.ok
    requires sender.connectionOptions.delimiter !in text
    requires receiver.pipeOpen && receiver.connectionOptions.delimiter == sender.connectionOptions.delimiter
    requires NextModeResult(receiverOs, receiver.pipeHandle) == 0
    requires n <= |receiverOs.chunks|
    requires forall k :: 0 <= k < n ==> receiverOs.chunks[k].ok && |receiverOs.chunks[k].data| <= RECEIVE_BUFFER_SIZE
    requires var sent := Written(SendSpec(sender, senderOs, text).os.trace);
      |sent| > 0 && Flatten(receiverOs.chunks[..n]) == sent[|sent| - 1] + rest
    ensures ReceiveSpec(receiver, receiverOs).value == Status(true, text)
  {
    var r := SendSpec(sender, senderOs, text);
    SendWritesPayload(sender, senderOs, text);
    var sent := Written(r.os.trace);
    assert sent[|sent| - 1] == Payload(text, sender.connectionOptions.delimiter);
    var os1 := SetModeStep(receiverOs, receiver.pipeHandle, ReadModeFlag(receiver.connectionOptions.mode)).0;
    assert os1.chunks == receiverOs.chunks;
    ReceiveRoundTrip(os1, receiver.pipeHandle, receiver.connectionOptions.delimiter, [], text, rest, n);
  }
}
