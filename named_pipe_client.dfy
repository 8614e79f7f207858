/**
 * The client object: its fields, and its operations run step by step
 * against the system.  Every operation is proved to do what the
 * corresponding function of `Connection` describes, so the properties
 * proved there hold of the object.
 */
module NamedPipe {
  import opened Text
  import opened Win32
  import opened PipeOptions
  import opened PipeStatus
  import opened Framing
  import opened Connection

  class NamedPipeClient {
    /** The system this client calls into. */
    const host: Host

    var pipeHandle: Handle
    var pipeOpen: bool
    var pipeName: seq<char>
    var pipePrefix: seq<char>
    var attempts: uint32
    var connectionOptions: PipeConnectionOptions

    /** The client's fields as a value. */
    function State(): ClientState
      reads this
    {
      ClientState(pipeHandle, pipeOpen, pipeName, pipePrefix, attempts, connectionOptions)
    }

    /** A client with no handle, not open, no name, the system prefix and the default options. */
    constructor (host: Host)
      ensures this.host == host && State() == InitialState()
    {
      this.host := host;
      pipeHandle := InvalidHandle;
      pipeOpen := false;
      pipeName := "";
      pipePrefix := DEFAULT_PIPE_PREFIX;
      attempts := 0;
      connectionOptions := DefaultOptions();
    }

    /** The address opened: the prefix and the name, or the bare name. */
    function GetPipePath(): (path: seq<char>)
      reads this
      ensures path == Path(State())
      ensures path[|path| - |pipeName|..] == pipeName
      ensures connectionOptions.prependPrefix ==> |path| == |pipePrefix| + |pipeName| && path[..|pipePrefix|] == pipePrefix
      ensures !connectionOptions.prependPrefix ==> path == pipeName
    {
      PipePath(pipePrefix, pipeName, connectionOptions.prependPrefix)
    }

    /** The name, which ends the address. */
    function GetPipeName(): (name: seq<char>)
      reads this
      ensures |name| <= |GetPipePath()| && GetPipePath()[|GetPipePath()| - |name|..] == name
    {
      pipeName
    }

    /** The prefix, which starts the address whenever the options ask for it. */
    function GetPipePrefix(): (prefix: seq<char>)
      reads this
      ensures connectionOptions.prependPrefix ==> GetPipePath() == prefix + GetPipeName()
      ensures !connectionOptions.prependPrefix ==> GetPipePath() == GetPipeName()
    {
      pipePrefix
    }

    /** Replaces the prefix; nothing else changes. */
    method SetPipePrefix(prefix: seq<char>)
      modifies this
      ensures State() == old(State()).(pipePrefix := prefix)
      ensures GetPipePrefix() == prefix && GetPipeName() == old(GetPipeName())
    {
      pipePrefix := prefix;
    }

    /** One open attempt (`TryOpen`). */
    method TryOpen() returns (response: Status)
      modifies this, host
      ensures Run(response, State(), host.st) == TryOpenSpec(old(State()), old(host.st))
    {
      ghost var c := State();
      ghost var os := host.st;
      var path := GetPipePath();
      pipeHandle := host.CreateFileW(path);
      if pipeHandle == InvalidHandle {
        response := Status(false, MSG_HANDLE_INVALID);
        assert Run(response, State(), host.st) == TryOpenSpec(c, os);
        return;
      }
      var error := host.GetLastError();
      if error != ERROR_SUCCESS && error != ERROR_PIPE_BUSY {
        response := Status(false, MSG_UNKNOWN_ERROR + ErrorDescription(host.GetLastError()) + "!");
        assert Run(response, State(), host.st) == TryOpenSpec(c, os);
        return;
      }
      var waited := host.WaitNamedPipeW(path, connectionOptions.pipeWaitTime);
      if !waited {
        response := Status(false, MSG_STILL_BUSY + Decimal(connectionOptions.pipeWaitTime) + " ticks");
      } else {
        response := Status(true, MSG_CONNECTED);
      }
      assert Run(response, State(), host.st) == TryOpenSpec(c, os);
    }

    /** The retry loop (`Open`). */
    method Open() returns (ok: bool)
      modifies this, host
      ensures Run(ok, State(), host.st) == OpenSpec(old(State()), old(host.st))
    {
      ghost var target := OpenSpec(State(), host.st);
      while !pipeOpen
        invariant OpenSpec(State(), host.st) == target
        decreases Budget(attempts, connectionOptions.maxAttempts)
      {
        ghost var c := State();
        ghost var os := host.st;
        ghost var t := TryOpenSpec(c, SleepStep(os, c.connectionOptions.openSleepTicks));
        host.Sleep(connectionOptions.openSleepTicks);
        var response := TryOpen();
        assert Run(response, State(), host.st) == t;
        pipeOpen := response.ok;
        attempts := Increment(attempts);
        assert State() == t.client.(pipeOpen := t.value.ok, attempts := Increment(c.attempts));
        if attempts >= connectionOptions.maxAttempts {
          assert OpenSpec(c, os) == Run(false, State(), host.st);
          return false;
        }
        assert OpenSpec(c, os) == OpenSpec(State(), host.st);
      }
      return true;
    }

    /** Connect with the default options. */
    method Connect(name: seq<char>) returns (ok: bool)
      modifies this, host
      ensures Run(ok, State(), host.st) == ConnectSpec(old(State()), old(host.st), name, DefaultOptions())
    {
      pipeName := name;
      connectionOptions := DefaultOptions();
      ok := Open();
    }

    /** Connect with the given options. */
    method ConnectWithOptions(name: seq<char>, options: PipeConnectionOptions) returns (ok: bool)
      modifies this, host
      ensures Run(ok, State(), host.st) == ConnectSpec(old(State()), old(host.st), name, options)
    {
      pipeName := name;
      connectionOptions := options;
      ok := Open();
    }

    /** Releases the handle if there is one. */
    method Close()
      modifies this, host
      ensures (State(), host.st) == CloseSpec(old(State()), old(host.st))
    {
      if pipeHandle != InvalidHandle {
        host.CloseHandle(pipeHandle);
        pipeHandle := InvalidHandle;
      }
    }

    /** Sends `text` followed by the delimiter. */
    method Send(text: NarrowString) returns (response: Status)
      modifies this, host
      ensures Run(response, State(), host.st) == SendSpec(old(State()), old(host.st), text)
    {
      if !pipeOpen {
        var status := Open();
        if !status {
          return Status(false, MSG_OPEN_FAILED);
        }
      }
      var success := host.SetNamedPipeHandleState(pipeHandle, ReadModeFlag(connectionOptions.mode));
      if !success {
        return Status(false, MSG_SET_STATE_FAILED + ErrorDescription(host.GetLastError()));
      }
      var messageToSend := text + [connectionOptions.delimiter];
      var writeSuccess, bytesWritten := host.WriteFile(pipeHandle, messageToSend);
      if !writeSuccess {
        return Status(false, MSG_WRITE_FAILED + ErrorDescription(host.GetLastError()));
      }
      return Status(true, MSG_WRITE_SUCCESS + Decimal(bytesWritten));
    }

    /** Reads one message, opening the pipe and setting the read mode first. */
    method Receive() returns (response: Status)
      modifies this, host
      ensures Run(response, State(), host.st) == ReceiveSpec(old(State()), old(host.st))
    {
      if !pipeOpen {
        var status := Open();
        if !status {
          return Status(false, MSG_OPEN_FAILED);
        }
      }
      var success := host.SetNamedPipeHandleState(pipeHandle, ReadModeFlag(connectionOptions.mode));
      if !success {
        return Status(false, MSG_SET_STATE_FAILED + ErrorDescription(host.GetLastError()));
      }

      response := ReadMessage(pipeHandle, connectionOptions.delimiter);
    }

    /**
     * The read loop of Receive: chunks of up to 512 bytes into a zeroed
     * buffer, appending the bytes before the delimiter, until a chunk holds
     * the delimiter or a read reports more data.  The delimiter test only
     * looks at bytes of the current read (`StaleBuffer` has the test as the
     * source writes it).
     */
    method ReadMessage(h: Handle, delimiter: Char8) returns (response: Status)
      modifies host
      ensures (response, host.st) == ReadLoop(old(host.st), h, delimiter, [])
    {
      var success := true;
      var buffer := new Char8[RECEIVE_BUFFER_SIZE](_ => '\0');
      var buildStr: NarrowString := [];
      ghost var target := ReadLoop(host.st, h, delimiter, []);
      while success
        invariant buffer.Length == RECEIVE_BUFFER_SIZE
        invariant success ==> ReadLoop(host.st, h, delimiter, buildStr) == target
        invariant !success ==> target == (Status(true, buildStr), host.st)
        decreases |host.st.chunks|
      {
        ghost var before := host.st;
        ghost var built := buildStr;
        ghost var step := ReadStep(before, h, RECEIVE_BUFFER_SIZE);
        var bytesRead;
        success, bytesRead := host.ReadFile(h, buffer);
        assert host.st == step.0 && success == step.1 && buffer[..bytesRead] == step.2;
        if !success && host.GetLastError() != ERROR_MORE_DATA {
          return Status(false, MSG_READ_FAILED + ErrorDescription(host.GetLastError()));
        }
        var stopped;
        buildStr, stopped := AppendChunk(buffer, bytesRead, delimiter, buildStr);
        if stopped {
          return Status(true, buildStr);
        }
      }
      return Status(true, buildStr);
    }

    /**
     * The inner loop of Receive: appends the first `n` bytes of `buffer`
     * to `build` up to the first delimiter, and tells whether it stopped at
     * one (the guarded form of the source's test).
     */
    static method AppendChunk(buffer: array<Char8>, n: nat, delimiter: Char8, build: NarrowString)
      returns (build': NarrowString, stopped: bool)
      requires n <= buffer.Length
      ensures var (part, found) := Scan(buffer[..n], delimiter); build' == build + part && stopped == found
    {
      build' := build;
      var i := 0;
      while i < n && buffer[i] != delimiter
        invariant 0 <= i <= n
        invariant build' == build + buffer[..i]
        invariant forall k :: 0 <= k < i ==> buffer[k] != delimiter
      {
        build' := build' + [buffer[i]];
        i := i + 1;
      }
      assert buffer[..n][..i] == buffer[..i];
      ScanStopsAt(buffer[..n], delimiter, i);
      stopped := i < n && buffer[i] == delimiter;
    }
  }
}
