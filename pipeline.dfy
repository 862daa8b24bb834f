/**
 * One run of qr-gen (main.go lines 35-126): help, content resolution, the
 * capacity check, encoding, the render settings and the output.
 *
 * The QR library is opaque. Whether `qrcode.New` accepts a content, whether
 * `q.PNG` succeeds, and whether the output file can be created and written
 * are given in `Env`; the text-art and PNG bytes themselves are represented
 * by the request that produces them.
 */
module Pipeline {
  import opened Wrappers
  import opened GoBytes
  import opened HexColor
  import opened ContentSource
  import opened Render

  /** The parsed command line. */
  datatype Config = Config(
    args: seq<GoString>,  // positional arguments
    outFile: GoString,    // -o, PNG file prefix
    size: int,            // -s
    textArt: bool,        // -t
    negative: bool,       // -i
    disableBorder: bool,  // -d
    inpFile: GoString,    // -f
    help: bool,           // -h
    fg: GoString,         // -fg
    bg: GoString)         // -bg

  /** The flag defaults of lines 19-27 around the given positional arguments. */
  function DefaultConfig(args: seq<GoString>): (c: Config)
    ensures c.args == args && c.size == 256 && c.fg == DefaultForeground && c.bg == DefaultBackground
    ensures c.outFile == "" && c.inpFile == "" && !c.help && !c.textArt && !c.negative && !c.disableBorder
  {
    Config(args, "", 256, false, false, false, "", false, DefaultForeground, DefaultBackground)
  }

  /** What the program finds in its environment. */
  datatype Env = Env(
    file: FileInput,
    stdinPiped: bool,           // isInputFromPipe()
    stdin: StdinInput,
    encodes: GoString -> bool,  // qrcode.New(content, qrcode.Highest) succeeds
    pngOk: bool,                // q.PNG(size) succeeds
    createOk: bool,             // os.Create(outFile + ".png") succeeds
    writeOk: bool)              // writing the PNG bytes succeeds

  datatype Destination = Stdout | File(path: GoString)

  /** How the run ends. */
  datatype Outcome =
    | Help                     // usage printed, exit 0
    | Failed(kind: ErrorKind)  // checkError: message on stderr, exit 1
    | Panicked                 // runtime panic in the colour decoder, exit 2
    | TextArt(invert: bool, borderDisabled: bool)
    | Png(dest: Destination, size: int, fg: RGBA, bg: RGBA, borderDisabled: bool)

  function ExitCode(o: Outcome): (code: int)
    ensures code == 0 <==> o.Help? || o.TextArt? || o.Png?
    ensures code == 1 <==> o.Failed?
    ensures code == 2 <==> o.Panicked?
  {
    match o
    case Failed(_) => 1
    case Panicked => 2
    case _ => 0
  }

  /** Lines 107-114: stdout, or the file `-o` + ".png". */
  function OutputDestination(outFile: GoString): (d: Destination)
    ensures d.Stdout? <==> outFile == ""
    ensures d.File? ==> d.path == outFile + ".png" && |d.path| == |outFile| + 4
  {
    if outFile == "" then Stdout else File(outFile + ".png")
  }

  /** Lines 103-126 once the colours are set. */
  function Deliver(cfg: Config, env: Env, p: Palette, borderDisabled: bool): (o: Outcome)
    ensures o.Png? || o.Failed?
    ensures o.Png? <==> env.pngOk && (cfg.outFile != "" ==> env.createOk) && env.writeOk
    ensures o.Png? ==> o == Png(OutputDestination(cfg.outFile), cfg.size, p.fg, p.bg, borderDisabled)
    ensures !env.pngOk ==> o == Failed(PngFailed)
    ensures env.pngOk && cfg.outFile != "" && !env.createOk ==> o == Failed(CreateFailed(cfg.outFile + ".png"))
  {
    if !env.pngOk then Failed(PngFailed)
    else
      var dest := OutputDestination(cfg.outFile);
      if dest.File? && !env.createOk then Failed(CreateFailed(dest.path))
      else if !env.writeOk then Failed(WriteFailed)
      else Png(dest, cfg.size, p.fg, p.bg, borderDisabled)
  }

  /** The outcome of a run, stage by stage. */
  function Expected(cfg: Config, env: Env): (o: Outcome)
    ensures o.Help? <==> cfg.help
    ensures o.TextArt? ==> cfg.textArt
    ensures o.Png? || o.Panicked? ==> !cfg.textArt && !cfg.help
    ensures o.Failed? && o.kind.CapacityExceeded? ==> o.kind.length > QrCodeMaxLength
  {
    if cfg.help then Help
    else match Resolve(cfg.args, cfg.inpFile, env.file, env.stdinPiped, env.stdin)
      case Error(kind) => Failed(kind)
      case Content(text) =>
        if |text| > QrCodeMaxLength then Failed(CapacityExceeded(|text|))
        else if !env.encodes(text) then Failed(EncodingFailed)
        else if cfg.textArt then TextArt(cfg.negative, cfg.disableBorder)
        else match ConfiguredColors(Black, White, cfg.fg, cfg.bg, cfg.negative)
          case None => Panicked
          case Some(p) => Deliver(cfg, env, p, cfg.disableBorder)
  }

  /** `main`, statement by statement. */
  method Run(cfg: Config, env: Env) returns (outcome: Outcome)
    ensures outcome == Expected(cfg, env)
  {
    if cfg.help {
      return Help;
    }
    if |cfg.args| == 0 && cfg.inpFile == "" {
      return Failed(NoContent);
    }

    var content := JoinArgs(cfg.args);
    if cfg.inpFile != "" {
      match env.file
      case CannotOpen => return Failed(OpenFailed(cfg.inpFile));
      case CannotStat => return Failed(StatFailed(cfg.inpFile));
      case Directory => return Failed(IsDirectory(cfg.inpFile));
      case CannotRead => return Failed(ReadFailed(cfg.inpFile));
      case Regular(data) => content := data;
    } else if env.stdinPiped {
      match env.stdin
      case StdinFails => return Failed(StdinReadFailed);
      case StdinData(available) =>
        var n := if |available| < QrCodeMaxLength then |available| else QrCodeMaxLength;
        if n == 0 {
          return Failed(StdinEof);
        }
        content := available[..n];
    }
    assert Resolve(cfg.args, cfg.inpFile, env.file, env.stdinPiped, env.stdin) == Content(content);

    if |content| > QrCodeMaxLength {
      return Failed(CapacityExceeded(|content|));
    }

    if !env.encodes(content) {
      return Failed(EncodingFailed);
    }
    var q := new QrCode.New(content);

    q.ApplyBorder(cfg.disableBorder);

    if cfg.textArt {
      return TextArt(cfg.negative, q.disableBorder);
    }

    var panicked := q.ApplyColors(cfg.fg, cfg.bg, cfg.negative);
    if panicked {
      return Panicked;
    }

    if !env.pngOk {
      return Failed(PngFailed);
    }
    if cfg.outFile == "" {
      if !env.writeOk {
        return Failed(WriteFailed);
      }
      return Png(Stdout, cfg.size, q.foregroundColor, q.backgroundColor, q.disableBorder);
    } else {
      if !env.createOk {
        return Failed(CreateFailed(cfg.outFile + ".png"));
      }
      if !env.writeOk {
        return Failed(WriteFailed);
      }
      return Png(File(cfg.outFile + ".png"), cfg.size, q.foregroundColor, q.backgroundColor, q.disableBorder);
    }
  }

  // ---------------------------------------------------------------------
  // Properties of a run.

  /** `-h` ends the run with status 0 before any content is looked at. */
  lemma HelpFirst(cfg: Config, env: Env)
    requires cfg.help
    ensures Expected(cfg, env) == Help && ExitCode(Expected(cfg, env)) == 0
  {
  }

  /** No arguments and no `-f` is the "no content given" error, piped or not. */
  lemma NoContentGiven(cfg: Config, env: Env)
    requires !cfg.help && cfg.args == [] && cfg.inpFile == ""
    ensures Expected(cfg, env) == Failed(NoContent)
  {
  }

  /**
   * The capacity check fails exactly when the resolved content is longer
   * than `QrCodeMaxLength`, and then no encoding is attempted.
   */
  lemma CapacityCheck(cfg: Config, env: Env, encodes': GoString -> bool)
    requires !cfg.help
    requires Resolve(cfg.args, cfg.inpFile, env.file, env.stdinPiped, env.stdin).Content?
    ensures var text := Resolve(cfg.args, cfg.inpFile, env.file, env.stdinPiped, env.stdin).text;
            (Expected(cfg, env).Failed? && Expected(cfg, env).kind.CapacityExceeded?)
              <==> |text| > QrCodeMaxLength
    ensures var text := Resolve(cfg.args, cfg.inpFile, env.file, env.stdinPiped, env.stdin).text;
            |text| > QrCodeMaxLength ==>
              Expected(cfg, env) == Expected(cfg, env.(encodes := encodes')) == Failed(CapacityExceeded(|text|))
  {
    ResolveErrors(cfg.args, cfg.inpFile, env.file, env.stdinPiped, env.stdin);
  }

  /** Content taken from standard input never fails the capacity check. */
  lemma StdinNeverExceedsCapacity(cfg: Config, env: Env)
    requires !cfg.help && cfg.inpFile == "" && cfg.args != [] && env.stdinPiped
    ensures !(Expected(cfg, env).Failed? && Expected(cfg, env).kind.CapacityExceeded?)
  {
    ResolveErrors(cfg.args, cfg.inpFile, env.file, env.stdinPiped, env.stdin);
  }

  /** With `-f`, the run is the same whatever the arguments and standard input are. */
  lemma FileIgnoresArgsAndStdin(cfg: Config, env: Env, args: seq<GoString>, piped: bool, stdin: StdinInput)
    requires cfg.inpFile != ""
    ensures Expected(cfg, env) == Expected(cfg.(args := args), env.(stdinPiped := piped, stdin := stdin))
  {
    FileWins(cfg.args, args, cfg.inpFile, env.file, env.stdinPiped, piped, env.stdin, stdin);
  }

  /**
   * Text-art mode never decodes a colour, never produces a PNG and always
   * writes to stdout: `-o`, `-s`, `-fg`, `-bg` and the PNG, create and write
   * steps make no difference to it.
   */
  lemma TextArtIgnoresPngSettings(cfg: Config, env: Env, outFile: GoString, size: int,
                                  fg: GoString, bg: GoString, pngOk: bool, createOk: bool, writeOk: bool)
    requires !cfg.help && cfg.textArt
    ensures !Expected(cfg, env).Png? && !Expected(cfg, env).Panicked?
    ensures Expected(cfg, env)
         == Expected(cfg.(outFile := outFile, size := size, fg := fg, bg := bg),
                     env.(pngOk := pngOk, createOk := createOk, writeOk := writeOk))
    ensures Expected(cfg, env).TextArt? ==>
              Expected(cfg, env) == TextArt(cfg.negative, cfg.disableBorder)
  {
  }

  /** `-d` disables the border in both output modes. */
  lemma BorderFlagInBothModes(cfg: Config, env: Env)
    ensures Expected(cfg, env).TextArt? ==> Expected(cfg, env).borderDisabled == cfg.disableBorder
    ensures Expected(cfg, env).Png? ==> Expected(cfg, env).borderDisabled == cfg.disableBorder
  {
  }

  /** A PNG goes to stdout when `-o` is empty, otherwise to `-o` + ".png". */
  lemma PngDestination(cfg: Config, env: Env)
    requires Expected(cfg, env).Png?
    ensures Expected(cfg, env).dest == (if cfg.outFile == "" then Stdout else File(cfg.outFile + ".png"))
    ensures Expected(cfg, env).size == cfg.size
  {
  }

  /** A PNG carries the configured colours, default or overridden, swapped by `-i`. */
  lemma PngColors(cfg: Config, env: Env)
    requires Expected(cfg, env).Png?
    ensures var o := Expected(cfg, env);
            ConfiguredColors(Black, White, cfg.fg, cfg.bg, cfg.negative) == Some(Palette(o.fg, o.bg))
  {
  }

  /** `qr-gen hello world` with every default: a black-on-white PNG with a border on stdout. */
  lemma HelloWorldScenario(env: Env)
    requires !env.stdinPiped && env.encodes("hello world") && env.pngOk && env.writeOk
    ensures Expected(DefaultConfig(["hello", "world"]), env) == Png(Stdout, 256, Black, White, false)
    ensures ExitCode(Expected(DefaultConfig(["hello", "world"]), env)) == 0
  {
    assert JoinArgs(["hello", "world"]) == "hello world" by {
      assert (["hello", "world"])[1..] == ["world"];
    }
  }

  /** `qr-gen -f <dir>`: status 1, the "is a directory" error, no output. */
  lemma DirectoryScenario(cfg: Config, env: Env)
    requires !cfg.help && cfg.inpFile != "" && env.file == Directory
    ensures Expected(cfg, env) == Failed(IsDirectory(cfg.inpFile))
    ensures ExitCode(Expected(cfg, env)) == 1
  {
  }

  /** A 4297-byte file: status 1, the capacity error, whatever the encoder would say. */
  lemma OneOverCapacityScenario(cfg: Config, env: Env)
    requires !cfg.help && cfg.inpFile != ""
    requires env.file.Regular? && |env.file.data| == QrCodeMaxLength + 1
    ensures Expected(cfg, env) == Failed(CapacityExceeded(4297))
    ensures ExitCode(Expected(cfg, env)) == 1
  {
  }

  /** A non-default `-fg` shorter than six bytes panics in PNG mode, after encoding. */
  lemma ShortColorPanics(cfg: Config, env: Env)
    requires !cfg.help && !cfg.textArt && cfg.fg != DefaultForeground && |cfg.fg| < 6
    requires Resolve(cfg.args, cfg.inpFile, env.file, env.stdinPiped, env.stdin).Content?
    requires var text := Resolve(cfg.args, cfg.inpFile, env.file, env.stdinPiped, env.stdin).text;
             |text| <= QrCodeMaxLength && env.encodes(text)
    ensures Expected(cfg, env) == Panicked && ExitCode(Expected(cfg, env)) == 2
  {
  }
}
