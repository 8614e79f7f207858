/**
 * The Win32 primitives the client calls, as a scripted environment.
 *
 * The operating system is a value `Os`: one queue of scripted outcomes per
 * primitive, the thread's last-error code, and the trace of every call made.
 * Each primitive takes the head of its queue.  An exhausted queue stands for
 * a server that has gone away: opens find no pipe, waits time out, and reads,
 * writes and mode changes fail with a broken pipe.  A call on
 * INVALID_HANDLE_VALUE fails with ERROR_INVALID_HANDLE and consumes nothing.
 * `Host` is the same environment as a mutable object, one method per call.
 */
module Win32 {
  import opened Text

  /** A C++ `unsigned int` / `DWORD`. */
  type uint32 = x: int | 0 <= x < 0x1_0000_0000

  const UINT32_LIMIT: int := 0x1_0000_0000

  const ERROR_SUCCESS: uint32 := 0
  const ERROR_FILE_NOT_FOUND: uint32 := 2
  const ERROR_INVALID_HANDLE: uint32 := 6
  const ERROR_BROKEN_PIPE: uint32 := 109
  const ERROR_SEM_TIMEOUT: uint32 := 121
  const ERROR_PIPE_BUSY: uint32 := 231
  const ERROR_MORE_DATA: uint32 := 234

  const PIPE_READMODE_BYTE: uint32 := 0x0
  const PIPE_READMODE_MESSAGE: uint32 := 0x2

  /** INVALID_HANDLE_VALUE or a handle the system handed out. */
  datatype Handle = InvalidHandle | Handle(id: nat)

  /** What CreateFileW returns and the last error it leaves behind. */
  datatype CreateOutcome = CreateOutcome(handle: Handle, lastError: uint32)

  /**
   * One ReadFile call: its return value, the last error when it fails,
   * and the bytes it delivers (trimmed to the caller's buffer).
   */
  datatype ReadOutcome = ReadOutcome(ok: bool, lastError: uint32, data: NarrowString)

  /** One WriteFile call: its return value, the last error, the bytes it reports written. */
  datatype WriteOutcome = WriteOutcome(ok: bool, lastError: uint32, written: uint32)

  /** A call made into the system, with the arguments the client passed. */
  datatype Call =
    | Sleep(ticks: uint32)
    | CreateFile(path: seq<char>)
    | WaitNamedPipe(path: seq<char>, timeout: uint32)
    | SetNamedPipeHandleState(h: Handle, readMode: uint32)
    | ReadFile(h: Handle, capacity: nat)
    | WriteFile(h: Handle, bytes: NarrowString)
    | CloseHandle(h: Handle)

  /**
   * The environment: `waits` and `modeResults` script the error code a call
   * fails with, 0 meaning that it succeeds.
   */
  datatype Os = Os(
    creates: seq<CreateOutcome>,
    waits: seq<uint32>,
    modeResults: seq<uint32>,
    chunks: seq<ReadOutcome>,
    writeResults: seq<WriteOutcome>,
    lastError: uint32,
    trace: seq<Call>)

  function Tail<T>(s: seq<T>): seq<T> {
    if s == [] then [] else s[1..]
  }

  function Take(s: NarrowString, n: nat): (r: NarrowString)
    ensures |r| <= n && r <= s
    ensures |s| <= n ==> r == s
  {
    if |s| <= n then s else s[..n]
  }

  function SleepStep(os: Os, ticks: uint32): Os {
    os.(trace := os.trace + [Sleep(ticks)])
  }

  function NextCreate(os: Os): CreateOutcome {
    if os.creates == [] then CreateOutcome(InvalidHandle, ERROR_FILE_NOT_FOUND) else os.creates[0]
  }

  function CreateFileStep(os: Os, path: seq<char>): (Os, Handle) {
    var o := NextCreate(os);
    (os.(creates := Tail(os.creates), lastError := o.lastError, trace := os.trace + [CreateFile(path)]),
     o.handle)
  }

  function NextWait(os: Os): uint32 {
    if os.waits == [] then ERROR_SEM_TIMEOUT else os.waits[0]
  }

  function WaitStep(os: Os, path: seq<char>, timeout: uint32): (Os, bool) {
    var code := NextWait(os);
    (os.(waits := Tail(os.waits),
         lastError := if code == 0 then os.lastError else code,
         trace := os.trace + [WaitNamedPipe(path, timeout)]),
     code == 0)
  }

  function NextModeResult(os: Os, h: Handle): uint32 {
    if h == InvalidHandle then ERROR_INVALID_HANDLE
    else if os.modeResults == [] then ERROR_BROKEN_PIPE
    else os.modeResults[0]
  }

  function SetModeStep(os: Os, h: Handle, readMode: uint32): (Os, bool) {
    var code := NextModeResult(os, h);
    (os.(modeResults := if h == InvalidHandle then os.modeResults else Tail(os.modeResults),
         lastError := if code == 0 then os.lastError else code,
         trace := os.trace + [SetNamedPipeHandleState(h, readMode)]),
     code == 0)
  }

  function NextRead(os: Os, h: Handle): ReadOutcome {
    if h == InvalidHandle then ReadOutcome(false, ERROR_INVALID_HANDLE, [])
    else if os.chunks == [] then ReadOutcome(false, ERROR_BROKEN_PIPE, [])
    else os.chunks[0]
  }

  /** ReadFile into a buffer of `capacity` bytes: success, the new state, the bytes delivered. */
  function ReadStep(os: Os, h: Handle, capacity: nat): (r: (Os, bool, NarrowString))
    ensures |r.2| <= capacity
    ensures |r.0.chunks| <= |os.chunks|
    ensures r.1 || r.0.lastError == ERROR_MORE_DATA ==> |r.0.chunks| < |os.chunks|
  {
    var o := NextRead(os, h);
    (os.(chunks := if h == InvalidHandle then os.chunks else Tail(os.chunks),
         lastError := if o.ok then os.lastError else o.lastError,
         trace := os.trace + [ReadFile(h, capacity)]),
     o.ok,
     Take(o.data, capacity))
  }

  function NextWrite(os: Os, h: Handle): WriteOutcome {
    if h == InvalidHandle then WriteOutcome(false, ERROR_INVALID_HANDLE, 0)
    else if os.writeResults == [] then WriteOutcome(false, ERROR_BROKEN_PIPE, 0)
    else os.writeResults[0]
  }

  /** WriteFile of `bytes`: success, the new state, the count it reports (never more than given). */
  function WriteStep(os: Os, h: Handle, bytes: NarrowString): (r: (Os, bool, uint32))
    ensures r.2 <= |bytes|
  {
    var o := NextWrite(os, h);
    (os.(writeResults := if h == InvalidHandle then os.writeResults else Tail(os.writeResults),
         lastError := if o.ok then os.lastError else o.lastError,
         trace := os.trace + [WriteFile(h, bytes)]),
     o.ok,
     if o.written <= |bytes| then o.written else |bytes|)
  }

  function CloseHandleStep(os: Os, h: Handle): Os {
    os.(trace := os.trace + [CloseHandle(h)])
  }

  /** The number of CreateFileW calls in a trace: the open attempts made. */
  function OpenCalls(trace: seq<Call>): nat {
    if trace == [] then 0
    else OpenCalls(trace[..|trace| - 1]) + (if trace[|trace| - 1].CreateFile? then 1 else 0)
  }

  /** The number of ReadFile calls in a trace. */
  function ReadCalls(trace: seq<Call>): nat {
    if trace == [] then 0
    else ReadCalls(trace[..|trace| - 1]) + (if trace[|trace| - 1].ReadFile? then 1 else 0)
  }

  /** The byte strings handed to WriteFile, in order. */
  function Written(trace: seq<Call>): seq<NarrowString> {
    if trace == [] then []
    else
      var last := trace[|trace| - 1];
      Written(trace[..|trace| - 1]) + (if last.WriteFile? then [last.bytes] else [])
  }

  /** One more call adds one attempt if it is a CreateFileW, one read if it is a ReadFile, one payload if it is a WriteFile. */
  lemma OneMoreCall(trace: seq<Call>, call: Call)
    ensures OpenCalls(trace + [call]) == OpenCalls(trace) + (if call.CreateFile? then 1 else 0)
    ensures ReadCalls(trace + [call]) == ReadCalls(trace) + (if call.ReadFile? then 1 else 0)
    ensures Written(trace + [call]) == Written(trace) + (if call.WriteFile? then [call.bytes] else [])
  {
    assert (trace + [call])[..|trace + [call]| - 1] == trace;
  }

  /** The system as an object the client calls into. */
  class Host {
    var st: Os

    constructor (world: Os)
      ensures st == world
    {
      st := world;
    }

    function GetLastError(): uint32
      reads this
    {
      st.lastError
    }

    method Sleep(ticks: uint32)
      modifies this
      ensures st == SleepStep(old(st), ticks)
    {
      st := SleepStep(st, ticks);
    }

    method CreateFileW(path: seq<char>) returns (h: Handle)
      modifies this
      ensures (st, h) == CreateFileStep(old(st), path)
    {
      st, h := CreateFileStep(st, path).0, CreateFileStep(st, path).1;
    }

    method WaitNamedPipeW(path: seq<char>, timeout: uint32) returns (ok: bool)
      modifies this
      ensures (st, ok) == WaitStep(old(st), path, timeout)
    {
      st, ok := WaitStep(st, path, timeout).0, WaitStep(st, path, timeout).1;
    }

    method SetNamedPipeHandleState(h: Handle, readMode: uint32) returns (ok: bool)
      modifies this
      ensures (st, ok) == SetModeStep(old(st), h, readMode)
    {
      st, ok := SetModeStep(st, h, readMode).0, SetModeStep(st, h, readMode).1;
    }

    /** Reads into the front of `buffer`; the bytes past the ones delivered keep their old values. */
    method ReadFile(h: Handle, buffer: array<Char8>) returns (ok: bool, n: nat)
      modifies this, buffer
      ensures var r := ReadStep(old(st), h, buffer.Length);
        st == r.0 && ok == r.1 && n == |r.2| && buffer[..n] == r.2
      ensures n <= buffer.Length && buffer[n..] == old(buffer[n..])
    {
      var r := ReadStep(st, h, buffer.Length);
      st, ok, n := r.0, r.1, |r.2|;
      forall k | 0 <= k < n {
        buffer[k] := r.2[k];
      }
    }

    method WriteFile(h: Handle, bytes: NarrowString) returns (ok: bool, written: uint32)
      modifies this
      ensures (st, ok, written) == WriteStep(old(st), h, bytes)
    {
      var r := WriteStep(st, h, bytes);
      st, ok, written := r.0, r.1, r.2;
    }

    method CloseHandle(h: Handle)
      modifies this
      ensures st == CloseHandleStep(old(st), h)
    {
      st := CloseHandleStep(st, h);
    }
  }
}
