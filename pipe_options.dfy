/** Connection options, their defaults, and how a pipe's address is formed. */
module PipeOptions {
  import opened Text
  import opened Win32

  const NPC_DEFAULT_PIPE_TRYOPEN_SLEEP_TICKS: uint32 := 250
  /** Wait for 15 seconds by default. */
  const NPC_DEFAULT_PIPE_TRYOPEN_TIMEOUT: uint32 := 1000 * 15
  /** How many open attempts before giving up. */
  const NPC_DEFAULT_PIPE_NUM_ATTEMPTS: uint32 := 10

  /** The form feed character, the default message delimiter. */
  const FORM_FEED: Char8 := '\U{000C}'

  /** The system's namespace for pipes, `\\.\pipe\`. */
  const DEFAULT_PIPE_PREFIX: seq<char> := "\\\\.\\pipe\\"

  datatype PipeMode = Byte | Message

  datatype PipeConnectionOptions = PipeConnectionOptions(
    prependPrefix: bool,
    delimiter: Char8,
    openSleepTicks: uint32,
    pipeWaitTime: uint32,
    maxAttempts: uint32,
    mode: PipeMode)

  /** A default-constructed `PipeConnectionOptions`. */
  function DefaultOptions(): (o: PipeConnectionOptions)
    ensures o.prependPrefix && o.delimiter as int == 0x0C && o.mode == Byte
    ensures o.openSleepTicks == 250 && o.pipeWaitTime == 15000 && o.maxAttempts == 10
  {
    PipeConnectionOptions(
      true, FORM_FEED,
      NPC_DEFAULT_PIPE_TRYOPEN_SLEEP_TICKS, NPC_DEFAULT_PIPE_TRYOPEN_TIMEOUT,
      NPC_DEFAULT_PIPE_NUM_ATTEMPTS, Byte)
  }

  /**
   * The full address of a pipe: the prefix followed by the name when the
   * options ask for the prefix, the bare name otherwise.
   */
  function PipePath(prefix: seq<char>, name: seq<char>, prependPrefix: bool): (path: seq<char>)
    ensures |path| == |name| + (if prependPrefix then |prefix| else 0)
    ensures path[|path| - |name|..] == name
    ensures prependPrefix ==> path[..|prefix|] == prefix
    ensures !prependPrefix ==> path == name
  {
    if prependPrefix then prefix + name else name
  }

  /** The read-mode flag handed to SetNamedPipeHandleState for a pipe mode. */
  function ReadModeFlag(mode: PipeMode): (flag: uint32)
    ensures flag == PIPE_READMODE_BYTE <==> mode == Byte
    ensures flag == PIPE_READMODE_MESSAGE <==> mode.Message?
  {
    if mode == Byte then PIPE_READMODE_BYTE else PIPE_READMODE_MESSAGE
  }

  /** Under the default options a name resolves inside the `\\.\pipe\` namespace. */
  lemma DefaultPipePath(name: seq<char>)
    ensures PipePath(DEFAULT_PIPE_PREFIX, name, DefaultOptions().prependPrefix)
            == ['\\', '\\', '.', '\\', 'p', 'i', 'p', 'e', '\\'] + name
  {
  }
}
