/**
 * Where the payload comes from (main.go lines 40-75): the positional
 * arguments, the `-f` file, or piped standard input, in the precedence the
 * program implements, followed by the capacity limit.
 *
 * The file system and standard input are not modelled as devices: what the
 * program would learn from `os.Open`, `Stat`, `Read` and `os.Stdin.Read` is
 * given as a value.
 */
module ContentSource {
  import opened GoBytes

  /** `QrCodeMaxLength`: the byte capacity of the largest QR symbol. */
  const QrCodeMaxLength := 4296

  /** Every error main.go passes to `checkError`: each one ends the run with status 1. */
  datatype ErrorKind =
    | NoContent                      // "error: no content given"
    | OpenFailed(path: GoString)     // os.Open of the -f path failed
    | StatFailed(path: GoString)     // Stat of the opened file failed
    | IsDirectory(path: GoString)    // "error: <path> is a directory"
    | ReadFailed(path: GoString)     // the single f.Read failed
    | StdinReadFailed                // os.Stdin.Read failed
    | StdinEof                       // os.Stdin.Read found the pipe empty: io.EOF
    | CapacityExceeded(length: nat)  // "error: content length <n> exceeds QR code capacity"
    | EncodingFailed                 // qrcode.New refused the content
    | PngFailed                      // q.PNG failed
    | CreateFailed(path: GoString)   // os.Create of the output file failed
    | WriteFailed                    // writing the PNG bytes failed

  /** What opening, stat-ing and reading the `-f` path yields. */
  datatype FileInput =
    | CannotOpen
    | CannotStat
    | Directory
    | CannotRead
    | Regular(data: GoString)  // the whole file, read by the one f.Read call

  /**
   * What the one `os.Stdin.Read` call sees: a failure, or the bytes the pipe
   * has ready for it (the call returns as soon as any are there).
   */
  datatype StdinInput = StdinFails | StdinData(available: GoString)

  /** The source the program reads the payload from. */
  datatype Source = NoSource | FromFile(path: GoString) | FromStdin | FromArgs(args: seq<GoString>)

  /** The outcome of content resolution. */
  datatype Resolved = Content(text: GoString) | Error(kind: ErrorKind)

  function TotalLength(args: seq<GoString>): nat {
    if args == [] then 0 else |args[0]| + TotalLength(args[1..])
  }

  /** `strings.Join(args, " ")`. */
  function JoinArgs(args: seq<GoString>): (r: GoString)
    ensures args == [] ==> r == ""
    ensures args != [] ==> |r| == TotalLength(args) + |args| - 1
    ensures args != [] ==> r[..|args[0]|] == args[0]
  {
    if args == [] then ""
    else if |args| == 1 then args[0]
    else args[0] + " " + JoinArgs(args[1..])
  }

  /**
   * The precedence as main.go implements it: no arguments and no `-f` is an
   * error even when standard input is piped; `-f` wins over everything; piped
   * standard input replaces the arguments; otherwise the arguments are used.
   */
  function SelectSource(args: seq<GoString>, inpFile: GoString, stdinPiped: bool): (s: Source)
    ensures s.NoSource? <==> args == [] && inpFile == ""
    ensures s.FromFile? <==> inpFile != ""
    ensures s.FromFile? ==> s.path == inpFile
    ensures s.FromStdin? <==> inpFile == "" && args != [] && stdinPiped
    ensures s.FromArgs? <==> inpFile == "" && args != [] && !stdinPiped
    ensures s.FromArgs? ==> s.args == args
  {
    if |args| == 0 && inpFile == "" then NoSource
    else if inpFile != "" then FromFile(inpFile)
    else if stdinPiped then FromStdin
    else FromArgs(args)
  }

  /** Lines 48-64: open, stat, reject a directory, read the whole file. */
  function ReadFile(path: GoString, file: FileInput): (r: Resolved)
    ensures r.Content? <==> file.Regular?
    ensures r.Content? ==> r.text == file.data
    ensures r.Error? ==> r.kind.OpenFailed? || r.kind.StatFailed? || r.kind.IsDirectory? || r.kind.ReadFailed?
    ensures r.Error? ==> r.kind.path == path
    ensures file.CannotOpen? ==> r == Error(OpenFailed(path))
    ensures file.CannotStat? ==> r == Error(StatFailed(path))
    ensures file.Directory? ==> r == Error(IsDirectory(path))
    ensures file.CannotRead? ==> r == Error(ReadFailed(path))
  {
    match file
    case CannotOpen => Error(OpenFailed(path))
    case CannotStat => Error(StatFailed(path))
    case Directory => Error(IsDirectory(path))
    case CannotRead => Error(ReadFailed(path))
    case Regular(data) => Content(data)
  }

  /**
   * Lines 66-69: one read into a buffer of `QrCodeMaxLength` bytes. An empty
   * pipe makes `Read` return `io.EOF`, which `checkError` reports.
   */
  function ReadStdin(stdin: StdinInput): (r: Resolved)
    ensures r.Content? ==> stdin.StdinData? && r.text <= stdin.available
    ensures r.Content? ==> 0 < |r.text| <= QrCodeMaxLength
    ensures r.Content? ==> |r.text| == if |stdin.available| < QrCodeMaxLength then |stdin.available| else QrCodeMaxLength
    ensures r.Error? ==> r.kind == (if stdin.StdinFails? then StdinReadFailed else StdinEof)
    ensures stdin.StdinData? && stdin.available != [] ==> r.Content?
  {
    match stdin
    case StdinFails => Error(StdinReadFailed)
    case StdinData(available) =>
      if available == [] then Error(StdinEof)
      else if |available| < QrCodeMaxLength then Content(available)
      else Content(available[..QrCodeMaxLength])
  }

  /** Lines 40-70: the payload, or the error that ends the run. */
  function Resolve(args: seq<GoString>, inpFile: GoString, file: FileInput,
                   stdinPiped: bool, stdin: StdinInput): (r: Resolved)
    ensures r == Error(NoContent) <==> args == [] && inpFile == ""
    ensures inpFile != "" ==> r == ReadFile(inpFile, file)
    ensures inpFile == "" && args != [] && stdinPiped ==> r == ReadStdin(stdin)
    ensures inpFile == "" && args != [] && !stdinPiped ==> r == Content(JoinArgs(args))
  {
    match SelectSource(args, inpFile, stdinPiped)
    case NoSource => Error(NoContent)
    case FromFile(path) => ReadFile(path, file)
    case FromStdin => ReadStdin(stdin)
    case FromArgs(a) => Content(JoinArgs(a))
  }

  // ---------------------------------------------------------------------
  // Properties of resolution.

  /** No arguments and no `-f`: the error, whether or not standard input is piped. */
  lemma NoContentEvenIfPiped(inpFile: GoString, file: FileInput, stdinPiped: bool, stdin: StdinInput)
    requires inpFile == ""
    ensures Resolve([], inpFile, file, stdinPiped, stdin) == Error(NoContent)
  {
  }

  /** With `-f`, the content is the file's and neither the arguments nor standard input matter. */
  lemma FileWins(args: seq<GoString>, args': seq<GoString>, inpFile: GoString, file: FileInput,
                 stdinPiped: bool, stdinPiped': bool, stdin: StdinInput, stdin': StdinInput)
    requires inpFile != ""
    ensures Resolve(args, inpFile, file, stdinPiped, stdin)
         == Resolve(args', inpFile, file, stdinPiped', stdin')
         == ReadFile(inpFile, file)
  {
  }

  /** Without `-f`, piped standard input replaces non-empty arguments. */
  lemma StdinOverridesArgs(args: seq<GoString>, args': seq<GoString>, file: FileInput, stdin: StdinInput)
    requires args != [] && args' != []
    ensures Resolve(args, "", file, true, stdin) == Resolve(args', "", file, true, stdin) == ReadStdin(stdin)
  {
  }

  /** Without `-f` and without a pipe, the content is the arguments joined by single spaces. */
  lemma ArgsJoined(args: seq<GoString>, file: FileInput, stdin: StdinInput)
    requires args != []
    ensures Resolve(args, "", file, false, stdin) == Content(JoinArgs(args))
    ensures |Resolve(args, "", file, false, stdin).text| == TotalLength(args) + |args| - 1
  {
  }

  /** Content read from standard input always fits the capacity. */
  lemma StdinFitsCapacity(args: seq<GoString>, file: FileInput, stdin: StdinInput)
    requires Resolve(args, "", file, true, stdin).Content?
    ensures |Resolve(args, "", file, true, stdin).text| <= QrCodeMaxLength
  {
  }

  /** Resolution never reports the errors of later stages. */
  lemma ResolveErrors(args: seq<GoString>, inpFile: GoString, file: FileInput, stdinPiped: bool, stdin: StdinInput)
    ensures var r := Resolve(args, inpFile, file, stdinPiped, stdin);
            r.Error? ==> !r.kind.CapacityExceeded? && !r.kind.EncodingFailed? && !r.kind.PngFailed?
                         && !r.kind.CreateFailed? && !r.kind.WriteFailed?
  {
  }

  /** `strings.Join` appends one separator and one argument per extra argument. */
  lemma {:induction false} JoinArgsSnoc(args: seq<GoString>, x: GoString)
    requires args != []
    ensures JoinArgs(args + [x]) == JoinArgs(args) + " " + x
  {
    if |args| == 1 {
      assert args + [x] == [args[0], x];
      assert ([args[0], x])[1..] == [x];
    } else {
      assert (args + [x])[1..] == args[1..] + [x];
      JoinArgsSnoc(args[1..], x);
    }
  }
}
