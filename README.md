# Named pipe client, modelled in Dafny

This project models `win32Pipes::NamedPipeClient`, a small Windows client
for named pipes.  The client resolves a pipe's address from a prefix and a
name, opens it with a bounded retry loop, and exchanges messages framed by
a delimiter byte.  `Send` writes the text followed by the delimiter.
`Receive` reads 512-byte chunks and returns the bytes before the first
delimiter.

The Win32 calls the client makes (CreateFileW, WaitNamedPipeW,
SetNamedPipeHandleState, ReadFile, WriteFile, CloseHandle, Sleep,
GetLastError) are not modelled.  They are a scripted environment instead
(`Win32.Os`).  It holds one queue of outcomes per call, the thread's last
error code, and a trace of every call made.  An exhausted queue stands for
a server that has gone away.  `Win32.Host` is the same environment as an
object, and the client object calls into it.

Modules:

- `Text`: 8-bit characters, and `std::to_string` for unsigned numbers
  (`Decimal`) with its inverse.
- `Win32`: 32-bit unsigned integers, handles, error codes, the scripted
  environment, and the counting of open attempts and written payloads in
  a trace.
- `PipeOptions`: `PipeConnectionOptions` with its defaults, the address
  (`GetPipePath`), and the read-mode flag.
- `PipeStatus`: the `(bool, string)` response and the numeric part of
  `GetLastErrorAsString`.
- `Framing`: the payload `Send` writes and the read loop of `Receive`.
  It also has the framing round trip: however the payload is split into
  reads of at most 512 bytes, the read loop gives back the sent text.
- `StaleBuffer`: the delimiter test of `Receive` as the source writes it
  (see Findings).
- `Connection`: each client operation as a function of the client's
  fields and the environment, and the retry, connect, close, send and
  receive properties.
- `NamedPipe`: the class `NamedPipeClient`, with the source's fields.
  Its methods update the fields step by step, with the same loops as the
  source.  Each operation is proved equal to its function in `Connection`.
  The read loop of `Receive` (`ReadMessage`) is proved equal to
  `Framing.ReadLoop`, and its per-chunk loop (`AppendChunk`) to
  `Framing.Scan`.

Some behaviours of the code are stated outright, because a reader of
its interface might expect otherwise:

- `Open` increments `attempts` on every pass, successful or not.  It
  compares `attempts` with `maxAttempts` before it looks at success.  So
  when the last allowed attempt connects, `pipeOpen` is true and `Open`
  still returns false.
- `attempts` is never reset.  `Connect` does not reset it either.  Once
  a client that is not open has used up its attempts, every later `Open`
  makes one attempt and returns false.  There are two exceptions.  If the
  last allowed attempt connected, the pipe counts as open, so a later
  `Open` or `Connect` returns true without an attempt.  And the counter
  is a 32-bit `unsigned int`: at 2^32 - 1 the next increment wraps it to
  0, so an attempt that connects then makes `Open` return true.
- `Close` resets only the handle.  `pipeOpen` stays true, so a later
  `Send` or `Receive` does not reopen the pipe.  It calls
  SetNamedPipeHandleState on INVALID_HANDLE_VALUE, which fails, so it
  fails at setting the read mode.
- With `maxAttempts == 0`, `Connect` still makes one attempt.
- When the stream ends before a delimiter arrives, `Receive` fails on the
  broken-pipe read.  It does not return the bytes gathered so far.
- In message mode, a message longer than 512 bytes is cut off.  The read
  that reports ERROR_MORE_DATA ends the loop, because the loop runs only
  while the last read succeeded.  `Receive` returns the bytes gathered so
  far and leaves the rest of the message unread.

## Model

| member | source | states |
|---|---|---|
| Text.Decimal | NamedPipeClient.hpp:269 | `std::to_string` of an unsigned number: a non-empty string of decimal digits with no leading zero |
| Text.DecimalRoundTrip | NamedPipeClient.hpp:269 | reading the digits back gives the number that was formatted |
| Win32.ReadStep | NamedPipeClient.hpp:207 | a ReadFile call delivers at most the buffer's capacity, and a call that succeeds or reports more data consumes a chunk |
| Win32.WriteStep | NamedPipeClient.hpp:264 | the count WriteFile reports is never more than the bytes given |
| Win32.Host.Sleep | NamedPipeClient.hpp:149 | the sleep is recorded with its tick count and changes nothing else |
| Win32.Host.CreateFileW | NamedPipeClient.hpp:127 | the open call takes the next scripted handle and last error |
| Win32.Host.WaitNamedPipeW | NamedPipeClient.hpp:138 | the wait takes the next scripted result and sets the last error when it fails |
| Win32.Host.SetNamedPipeHandleState | NamedPipeClient.hpp:245 | the mode change takes the next scripted result, or fails with ERROR_INVALID_HANDLE on an invalid handle |
| Win32.Host.ReadFile | NamedPipeClient.hpp:207 | the delivered bytes fill the front of the buffer and the bytes after them keep their old values |
| Win32.Host.WriteFile | NamedPipeClient.hpp:264 | the write takes the next scripted outcome and records the bytes written |
| Win32.Host.CloseHandle | NamedPipeClient.hpp:296 | the release is recorded and changes nothing else |
| PipeOptions.DefaultOptions | NamedPipeClient.hpp:17-34 | default options: prefix on, form-feed delimiter, 250 sleep ticks, 15000 wait, 10 attempts, byte mode |
| PipeOptions.PipePath | NamedPipeClient.hpp:306-312 | the address ends with the name; it starts with the prefix when the options ask for it, and is the bare name otherwise |
| PipeOptions.ReadModeFlag | NamedPipeClient.hpp:244 | byte mode gives PIPE_READMODE_BYTE and message mode gives PIPE_READMODE_MESSAGE, in both directions |
| PipeOptions.DefaultPipePath | NamedPipeClient.hpp:63 | with the default prefix and options, a name resolves to `\\.\pipe\` followed by the name |
| PipeStatus.ErrorDescription | NamedPipeClient.hpp:74-96 | empty exactly when no error is recorded; otherwise it ends with the code in decimal between parentheses |
| Framing.Payload | NamedPipeClient.hpp:255-256 | the payload is the text followed by exactly one delimiter byte |
| Framing.Scan | NamedPipeClient.hpp:216-217 | the scan takes a delimiter-free front part of the chunk; it reports a delimiter exactly when the chunk has one, and then the delimiter follows that part |
| Framing.ReadLoop | NamedPipeClient.hpp:204-225 | the read loop: a successful result extends what was gathered before, a successful result has used up at least one chunk, and no read on an invalid handle succeeds |
| Framing.ReadLoopContinues | NamedPipeClient.hpp:213-222 | a successful read without a delimiter appends all its bytes and the loop reads again |
| Framing.StreamEndsBeforeDelimiter | NamedPipeClient.hpp:204-211 | when the stream ends before a delimiter arrives, the receive fails with the broken-pipe diagnostic and the gathered bytes are not returned |
| Framing.MoreDataEndsMessage | NamedPipeClient.hpp:204-225 | a read reporting ERROR_MORE_DATA ends the loop with the bytes gathered so far, and the rest of the message stays unread |
| Framing.ScanStopsAt | NamedPipeClient.hpp:216-217 | a scan that stops at a delimiter or at the end of the chunk took exactly the bytes before that point |
| Framing.PayloadScan | NamedPipeClient.hpp:216-221 | scanning a payload gives back the delimiter-free text that was sent, whatever follows it |
| Framing.ReadLoopOnlyReads | NamedPipeClient.hpp:204-222 | the read loop makes no open attempt and writes nothing |
| Framing.ReceivedHasNoDelimiter | NamedPipeClient.hpp:216-221 | a successful receive never contains the delimiter |
| Framing.ReceiveRoundTrip | NamedPipeClient.hpp:204-225 | however the payload is split into successful reads of at most 512 bytes, the read loop returns exactly the text and reads no chunk past the one holding the delimiter |
| Framing.ReceiveDropsRestOfChunk | NamedPipeClient.hpp:219-221 | bytes after the delimiter in the same chunk are dropped, and the next receive starts at the following chunk |
| Framing.ReadLoopOnFailedRead | NamedPipeClient.hpp:209-225 | a read error other than ERROR_MORE_DATA fails the receive; ERROR_MORE_DATA ends it with what was gathered |
| StaleBuffer.ReadLoopAsWritten | NamedPipeClient.hpp:197-225 | the read loop with the delimiter test as written, over the buffer kept from read to read: a successful result extends what was gathered before, and no read on an invalid handle succeeds |
| StaleBuffer.ZeroBuffer | NamedPipeClient.hpp:197 | the receive buffer starts as 512 zero bytes |
| StaleBuffer.AsWrittenAgreesWithoutStaleDelimiter | NamedPipeClient.hpp:216-221 | while no byte of the buffer is the delimiter, the source's test decides exactly as the guarded one |
| StaleBuffer.AsWrittenAgreesForNonNulDelimiter | NamedPipeClient.hpp:197-221 | with any delimiter other than NUL, the source's test gives the same result as the guarded one |
| StaleBuffer.StaleZeroEndsMessageEarly | NamedPipeClient.hpp:220 | with a NUL delimiter, the source's test returns "abc" for the payload "abcdef" read as "abc" then "def"; the guarded test returns "abcdef" |
| Connection.TryOpenSpec | NamedPipeClient.hpp:112-143 | an attempt succeeds exactly when the handle is valid, the error is none or ERROR_PIPE_BUSY, and the wait succeeds; the handle is stored whatever happens; the wait is made only after the first two checks pass |
| Connection.OpenSpec | NamedPipeClient.hpp:145-168 | the retry loop: on an open client nothing happens and the answer is true; a true answer leaves the pipe open, and with a valid handle when the loop ran; only the handle, `pipeOpen` and `attempts` change; no read, write or mode result is used |
| Connection.ConnectSpec | NamedPipeClient.hpp:272-290 | Connect stores the name and options, keeps the prefix, and a true answer leaves the pipe open |
| Connection.CloseSpec | NamedPipeClient.hpp:292-299 | Close leaves no handle and changes no other field; the system is touched exactly when there was a handle, by one CloseHandle of it |
| Connection.SendSpec | NamedPipeClient.hpp:228-270 | Send changes the client only by its open; on an open client it changes nothing; success leaves the pipe open, reads nothing, and its last call wrote the text followed by the delimiter on the client's handle |
| Connection.ReceiveSpec | NamedPipeClient.hpp:170-226 | Receive changes the client only by its open; on an open client it changes nothing; success leaves the pipe open and has read at least one chunk |
| Connection.Increment | NamedPipeClient.hpp:154 | `++attempts` wraps modulo 2^32 |
| Connection.PassMakesOneAttempt | NamedPipeClient.hpp:149-151 | one pass of the retry loop makes exactly one open attempt and writes nothing |
| Connection.OpenAttempts | NamedPipeClient.hpp:145-168 | Open makes at least one attempt and adds one to `attempts` per attempt, up to the limit; it returns true exactly when it stopped below the limit, and then the pipe is open with a valid handle; only the handle, `pipeOpen` and `attempts` change; nothing is read or written |
| Connection.OpenWhenOpen | NamedPipeClient.hpp:147 | Open on an open client makes no call and returns true |
| Connection.OpenNeverAvailable | NamedPipeClient.hpp:145-168 | when no pipe is ever found, Open returns false after exactly `maxAttempts - attempts` attempts, with the pipe not open |
| Connection.OpenConnectsBelowLimit | NamedPipeClient.hpp:145-168 | on a client that is not open, when the next count of attempts is below the limit and the pipe accepts, Open returns true after exactly one attempt, with the pipe open |
| Connection.ConnectFirstAttemptSucceeds | NamedPipeClient.hpp:282-290 | a new client connecting with more than one attempt allowed to a pipe that accepts returns true after one attempt, with `attempts` at 1 |
| Connection.OpenAfterExhaustion | NamedPipeClient.hpp:154-155 | on a client that is not open, once `attempts` has reached the limit (and is below 2^32 - 1), Open makes one attempt and returns false, even when that attempt connects |
| Connection.OpenAfterWrapAround | NamedPipeClient.hpp:154 | at `attempts == 2^32 - 1` the counter wraps to 0, so with a positive limit an attempt that connects makes Open return true |
| Connection.ExhaustedButOpen | NamedPipeClient.hpp:147-155 | after the last allowed attempt connected (Open returned false), a later Open or Connect returns true and makes no attempt |
| Connection.OpenLastAttemptConnectsYetFails | NamedPipeClient.hpp:151-155 | a connection on the last allowed attempt leaves the pipe open with a valid handle, and Open still returns false |
| Connection.ConnectOverwritesThenOpens | NamedPipeClient.hpp:282-290 | Connect stores the name and options and then behaves as Open; on an open client it changes nothing else and returns true |
| Connection.ConnectNeverAvailable | NamedPipeClient.hpp:282-290 | a new client connecting to a pipe that never appears returns false after exactly `maxAttempts` attempts (one when `maxAttempts` is 0) |
| Connection.ConnectDefaultsGiveUpAfterTen | NamedPipeClient.hpp:272-280 | with the default options that is ten attempts |
| Connection.ConnectAfterExhaustion | NamedPipeClient.hpp:282-290 | a client that is not open and whose attempts are used up (below 2^32 - 1) makes one attempt per Connect and returns false |
| Connection.CloseReleasesOnce | NamedPipeClient.hpp:292-299 | Close releases a valid handle once and forgets it; a second Close changes nothing; all other fields are kept |
| Connection.SendAfterCloseFails | NamedPipeClient.hpp:228-249 | on a client that was open, after Close, Send makes no open attempt, fails at setting the read mode, and writes nothing |
| Connection.SendWritesPayload | NamedPipeClient.hpp:228-270 | Send opens only when not open; it writes nothing unless the open and the mode change succeed; once both succeed it writes exactly the text followed by the delimiter, once, and succeeds exactly when that WriteFile succeeds, reporting "Success, bytes written: " and the count WriteFile returned (at most the payload's length), or the write error otherwise |
| Connection.SendPingReportsFive | NamedPipeClient.hpp:228-270 | on an open client whose mode change succeeds and whose write reports 5 bytes, Send of "ping" answers "Success, bytes written: 5" |
| Connection.ReceiveReadsAfterSetup | NamedPipeClient.hpp:170-194 | Receive opens only when not open; when the open or the mode change fails it fails without a single ReadFile call and consumes no chunk |
| Connection.ReceiveHasNoDelimiter | NamedPipeClient.hpp:170-226 | a successful Receive never contains the delimiter |
| Connection.SendThenReceive | NamedPipeClient.hpp:204-264 | when the payload one client wrote arrives at an open receiver with the same delimiter, in reads of at most 512 bytes, Receive returns exactly the text sent |
| NamedPipe.NamedPipeClient.constructor | NamedPipeClient.hpp:58-70 | a new client has no handle, is not open, has no name, the system prefix, no attempts and the default options |
| NamedPipe.NamedPipeClient.GetPipePath | NamedPipeClient.hpp:306-312 | the address ends with the name, starts with the prefix when the options ask for it, and is the bare name otherwise |
| NamedPipe.NamedPipeClient.GetPipeName | NamedPipeClient.hpp:301-304 | the name ends the address |
| NamedPipe.NamedPipeClient.GetPipePrefix | NamedPipeClient.hpp:314-317 | the address is the prefix followed by the name when the options ask for the prefix, and the name alone otherwise |
| NamedPipe.NamedPipeClient.SetPipePrefix | NamedPipeClient.hpp:319-322 | the prefix is replaced and no other field changes |
| NamedPipe.NamedPipeClient.TryOpen | NamedPipeClient.hpp:112-143 | one attempt does what `Connection.TryOpenSpec` states, to the fields and the environment |
| NamedPipe.NamedPipeClient.Open | NamedPipeClient.hpp:145-168 | the retry loop does what `Connection.OpenSpec` states |
| NamedPipe.NamedPipeClient.Connect | NamedPipeClient.hpp:272-280 | Connect with the default options does what `Connection.ConnectSpec` states |
| NamedPipe.NamedPipeClient.ConnectWithOptions | NamedPipeClient.hpp:282-290 | Connect with given options does what `Connection.ConnectSpec` states |
| NamedPipe.NamedPipeClient.Close | NamedPipeClient.hpp:292-299 | Close does what `Connection.CloseSpec` states |
| NamedPipe.NamedPipeClient.Send | NamedPipeClient.hpp:228-270 | Send does what `Connection.SendSpec` states |
| NamedPipe.NamedPipeClient.Receive | NamedPipeClient.hpp:170-194 | Receive does what `Connection.ReceiveSpec` states |
| NamedPipe.NamedPipeClient.ReadMessage | NamedPipeClient.hpp:196-225 | the read loop over the zeroed 512-byte buffer does what `Framing.ReadLoop` states |
| NamedPipe.NamedPipeClient.AppendChunk | NamedPipeClient.hpp:214-221 | the byte-by-byte append of one chunk adds exactly the scanned part and stops exactly at a delimiter |

## Left out

- Sleep timing is left out.  A sleep is a recorded call with its tick count, and no time passes.
- The `fprintf` logging in `Open` is left out, because it has no effect on the client's state or results.
- The system text of `GetLastErrorAsString` is left out, because it comes from `FormatMessageA`.  `PipeStatus.ErrorDescription` keeps the empty case and the ` (code)` suffix.
- Wide strings are plain `seq<char>`, with no UTF-16 encoding.  Narrow strings are `seq<Char8>`.  Diagnostic messages are plain strings.
- The copy constructor (NamedPipeClient.hpp:98-102) is left out.  It copies only the name and has no caller in the core.
- The destructor (NamedPipeClient.hpp:106-109) is left out, because Dafny has no destructors.  It only calls `Close`, which is modelled.
- The argument values CreateFileW is given (access, sharing, disposition, attributes) are left out.  They are constants that decide nothing in the model.
- Send: the payload length is cast to a 32-bit `unsigned int`.  A payload of 2^32 bytes or more would be truncated, and this is not modelled.
- The handles left by failed retries are not released, because the source does not release them either.  `Connection.TryOpenSpec` overwrites the stored handle on every attempt, as the source does.
- NamedPipe.NamedPipeClient.ReadMessage, NamedPipe.NamedPipeClient.AppendChunk, Framing.ReadLoop: use the guarded delimiter test (see Findings).  The source reads one byte past the delivered bytes, and past the array when 512 bytes were read.  `StaleBuffer.ReadLoopAsWritten` models that stale read.  It treats a read outside the array as "not the delimiter", where C++ leaves it undefined.
- A `ReadFile` call that fails with ERROR_MORE_DATA can deliver bytes, and those bytes are scanned.  The loop then ends, because its condition is the call's result, as in the source.

## Findings

| source | as written | input that shows it | evidently intended | confidence | as-written member | corrected member |
|---|---|---|---|---|---|---|
| NamedPipeClient.hpp:220 | after the scan stops at `i == pipeNumBytesRead`, the test reads `pipeMsgCharBuffer[i]`: a byte from an earlier read or from the zero initialisation, or one past the array when 512 bytes were read | delimiter NUL; reads "abc" then "def" followed by NUL (the payload of "abcdef"): the zero byte after "abc" in the fresh buffer is taken for the delimiter and Receive returns "abc" | stop only at a delimiter among the bytes just read (`i < pipeNumBytesRead`), so the sent text comes back whole | high (not executed) | StaleBuffer.StaleZeroEndsMessageEarly | Framing.ReceiveRoundTrip |
