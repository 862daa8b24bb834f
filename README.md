# qr-gen: a Dafny model of the command-line pipeline

qr-gen turns text into a QR code. The text comes from the positional
arguments, from a file (`-f`) or from piped standard input. The code is
written as a PNG (`-s` size, `-fg`/`-bg` colours, `-i` invert, `-d` no
border) to stdout or to `<-o>.png`, or printed as text art (`-t`). Nearly
all of it is one Go file, `main.go`. This project models the decision logic
of that file and proves properties of the model:

- `HexColor` models `convertColorStringToStruct`, the decoder from six hex
  digits to an RGBA value. A pair that does not parse gives 0. Alpha is
  always 255. Bytes after the sixth are ignored. A format function for
  colours is included so that the decoder can be proved to round-trip in
  both directions.
- `ContentSource` models how the payload is chosen and read, with
  `QrCodeMaxLength` (4296). `Resolve` decides through a single, ordered
  `SelectSource` choice.
- `Render` models the part of the library's `QRCode` object that `main`
  changes in place, as the class `QrCode`. Its methods apply the border
  flag, then the colour overrides, then the invert swap, in the order of
  main.go. `ConfiguredColors` is the pure specification of those methods.
- `Pipeline` models one run. `Run` is `main` written statement by
  statement: a local `content` that is set to the joined arguments and
  then overwritten, a `QrCode` object updated in place, and early exits.
  It is proved equal to `Expected`, which composes the stages as pure
  functions. The lemmas about a run are stated over `Expected`.

Modelling decisions:

- A Go string is a `GoBytes.GoString`, a sequence of `GoBytes.byte`:
  characters below 256, each one byte. This keeps `len`, slicing and the
  4296-byte limit byte-accurate. Text outside ASCII appears as its UTF-8
  bytes.
- The environment is given as data (`Env`):
  - what `os.Open`/`Stat`/`Read` of the `-f` path give (`FileInput`);
  - whether stdin is piped;
  - what the single `os.Stdin.Read` sees (`StdinInput`);
  - whether `qrcode.New` accepts the content (`encodes`);
  - whether `q.PNG`, `os.Create` and the write succeed.
- How a run ends is an `Outcome`: `Help` (status 0), `Failed(kind)`
  (status 1), `Panicked` (status 2, a Go runtime panic), `TextArt`, or
  `Png` with its destination, size, colours and border flag.
- Precedence is taken from the code:
  - with no positional arguments and no `-f`, the run fails with "no
    content given", even when stdin is piped. So `echo hi | qr-gen` is
    rejected;
  - `-f` wins over everything;
  - piped stdin *replaces* non-empty positional arguments;
  - only otherwise are the arguments joined with single spaces.

  This order is surprising. The `-f` help text, "input file, empty for
  stdin" (main.go:24), suggests that stdin alone was meant to work. The
  usage text (main.go:151) says the arguments are what gets encoded. The
  model follows what the code does.
- A non-default colour shorter than six bytes makes the Go slices panic.
  This happens after encoding, and only in PNG mode. The model gives the
  `Panicked` outcome. It does not turn this into a clean colour error,
  because that would not be what the code does. A non-default `-fg` is
  decoded before `-bg` is looked at. Either colour panicking ends the run
  the same way.
- Piped stdin that is empty makes `os.Stdin.Read` return `io.EOF`, which
  `checkError` reports (`StdinEof`, status 1). An empty `-f` file reads
  as empty content with no error, because a zero-length `Read` returns at
  once.
- The library's default colours are taken to be opaque black (0,0,0,255)
  and white (255,255,255,255). main.go does not define them.

## Model

| member | source | states |
|---|---|---|
| `HexColor.HexDigitFolded` | main.go:168-170 | `IsHexDigit` (which has no contract of its own) holds of a byte exactly when, folded to lower case, it is one of 0-9 or a-f: the digits the parse accepts in base 16 |
| `HexColor.ParsePair` | main.go:168-170 | for two hex digits, the value's high and low nibbles are the two digit values; a pair with any other byte gives 0, as the parse with its error discarded does |
| `HexColor.HexValue` | main.go:168-170 | the value of a base-16 digit accepted by the parse, below 16, decimal for 0-9 and at least 10 for letters of either case |
| `HexColor.ParseColor` | main.go:167-173 | decoding needs at least six bytes, and alpha is always 255 |
| `HexColor.ParseColorOfHex` | main.go:167-172 | when the first six bytes are hex digits in either case, R, G and B are the base-16 values of bytes 0-1, 2-3 and 4-5, and A is 255 |
| `HexColor.ChannelsAreIndependent` | main.go:168-171 | a pair with a non-hex byte gives 0 for its channel, and each channel depends only on its own pair |
| `HexColor.TrailingBytesIgnored` | main.go:168-170 | bytes after the sixth never change the decoded colour |
| `HexColor.ParseColorExamples` | main.go:167-172 | "ff00aa" and "FF00AA" give (255,0,170,255), "000000" gives black, "ffffff" gives white, "zz00aa" gives (0,0,170,255), and a longer string decodes as its first six bytes |
| `HexColor.ParseFormatRoundTrip` | main.go:167-172 | decoding the six-digit form of any opaque colour gives that colour back |
| `HexColor.FormatParseRoundTrip` | main.go:167-172 | formatting a decoded hex string gives the first six bytes back, in lower case |
| `ContentSource.JoinArgs` | main.go:45 | joining no arguments gives ""; otherwise the length is the sum of the argument lengths plus one space between each pair, and the result starts with the first argument |
| `ContentSource.JoinArgsSnoc` | main.go:45 | one more argument adds exactly one space and that argument at the end |
| `ContentSource.ReadFile` | main.go:47-64 | the content is the file's bytes exactly when the file can be opened, stat-ed and read and is not a directory; each failure gives its own error naming the path: open gives `OpenFailed`, stat gives `StatFailed`, a directory gives `IsDirectory`, a failed read gives `ReadFailed` |
| `ContentSource.ReadStdin` | main.go:65-69 | a successful read gives a non-empty prefix of the available bytes, of length min(available, 4296); a failed read or an empty pipe (EOF) is an error |
| `ContentSource.SelectSource` | main.go:40-70 | no source exactly when there are no arguments and no `-f`; the file exactly when `-f` is given; stdin exactly when there is no `-f`, there are arguments and stdin is piped; otherwise the arguments themselves |
| `ContentSource.Resolve` | main.go:40-70 | the no-content error exactly when there are no arguments and no `-f`; with `-f`, the file read; otherwise, with arguments, the stdin read when piped and the joined arguments when not (the lemmas below restate these as independence of the unused inputs) |
| `ContentSource.NoContentEvenIfPiped` | main.go:40-43 | no arguments and no `-f` give the no-content error, whether stdin is piped or not |
| `ContentSource.FileWins` | main.go:45-64 | with `-f`, the resolved content is the file read, whatever the arguments and stdin are |
| `ContentSource.StdinOverridesArgs` | main.go:45-70 | without `-f`, piped stdin replaces any non-empty arguments |
| `ContentSource.ArgsJoined` | main.go:45 | without `-f` and without a pipe, the content is the arguments joined by single spaces, with the joined length |
| `ContentSource.StdinFitsCapacity` | main.go:65-70 | content taken from stdin is never longer than 4296 bytes |
| `ContentSource.ResolveErrors` | main.go:40-70 | resolution never reports a capacity, encoding, PNG, create or write error |
| `Render.Override` | main.go:92-97 | a colour string equal to its default literal keeps the current colour; any other string shorter than six bytes panics; any other string of six or more bytes is decoded with `ParseColor` |
| `Render.ConfiguredColors` | main.go:92-101 | the colours are undefined (a panic) exactly when either override panics; otherwise the foreground override ends up as the foreground, or as the background when `-i` is set, and the background override as the other colour |
| `Render.QrCode.New` | main.go:79-80 | a newly encoded symbol has its border on and the default black foreground and white background |
| `Render.QrCode.ApplyBorder` | main.go:82-84 | `-d` turns the border off and never turns it back on; the colours are unchanged |
| `Render.QrCode.ApplyColors` | main.go:92-101 | panics exactly when the configured colours are undefined; otherwise the fields become the overrides, then swapped when `-i` is set; the border flag is unchanged |
| `Render.PanicsIff` | main.go:92-97 | colour configuration panics if and only if a non-default `-fg` or `-bg` is shorter than six bytes |
| `Render.InvertSwapsAfterOverrides` | main.go:92-101 | with `-i` the final colours are those without `-i`, exchanged, whether they are defaults or overrides |
| `Render.DefaultShortcutAgrees` | main.go:92-97 | skipping the decoder for the default literals gives the same colour the decoder would |
| `Render.InvertAlone` | main.go:99-101 | `-i` alone gives a white foreground on a black background |
| `Render.OverrideThenSwap` | main.go:92-101 | `-fg ff0000 -bg 00ff00 -i` ends with foreground 00ff00 and background ff0000 |
| `Pipeline.DefaultConfig` | main.go:19-27 | the flag defaults: size 256, colours "000000" and "ffffff", no output prefix, no input file, every boolean flag off |
| `Pipeline.ExitCode` | main.go:129-137 | status 0 for help and for written output, status 1 exactly for the errors passed to `checkError`, and status 2 exactly for the runtime panic |
| `Pipeline.OutputDestination` | main.go:107-114 | the output goes to stdout exactly when `-o` is empty; otherwise it goes to `-o` with ".png" appended |
| `Pipeline.Deliver` | main.go:103-126 | ends in either a PNG or an error; there is a PNG exactly when rendering succeeds, the file can be created if `-o` is given, and the write succeeds; the PNG carries the destination, the `-s` size, the colours and the border flag; a failed render gives `PngFailed` and a failed create gives `CreateFailed` naming `-o` + ".png" |
| `Pipeline.Expected` | main.go:35-126 | the run ends in `Help` exactly when `-h` is given; text art only in `-t` mode; a PNG or a panic only outside `-t` mode and without `-h`; a capacity error always reports a length over 4296 (the lemmas below carry the rest) |
| `Pipeline.Run` | main.go:35-126 | `main`, step by step, with `content` overwritten in place and the symbol's fields updated in place, ends exactly as the staged specification `Expected` says |
| `Pipeline.HelpFirst` | main.go:35-38 | `-h` ends the run with status 0 before any content handling |
| `Pipeline.NoContentGiven` | main.go:40-43 | with no `-h`, no arguments and no `-f`, the run fails with no content, in any environment |
| `Pipeline.CapacityCheck` | main.go:72-80 | the run fails the capacity check if and only if the resolved content is longer than 4296 bytes, and the encoder is then never consulted |
| `Pipeline.StdinNeverExceedsCapacity` | main.go:65-75 | a run whose content comes from stdin never fails the capacity check |
| `Pipeline.FileIgnoresArgsAndStdin` | main.go:45-64 | with `-f`, the run ends the same whatever the arguments, the pipe and the stdin bytes are |
| `Pipeline.TextArtIgnoresPngSettings` | main.go:86-90 | text-art mode never panics and never produces a PNG; `-o`, `-s`, `-fg`, `-bg` and the PNG, create and write steps do not change its outcome; the art uses the `-i` and `-d` flags |
| `Pipeline.BorderFlagInBothModes` | main.go:82-90 | text art and PNG output both carry `-d` as their border-disabled flag |
| `Pipeline.PngDestination` | main.go:103-126 | a PNG goes to stdout when `-o` is empty, otherwise to `-o` + ".png", at the `-s` size |
| `Pipeline.PngColors` | main.go:92-104 | a PNG carries the colours from the overrides and the swap, starting from black on white |
| `Pipeline.HelloWorldScenario` | main.go:35-126 | `qr-gen hello world` with every default, no pipe, and a library that succeeds gives a black-on-white PNG with a border at size 256 on stdout, with status 0 |
| `Pipeline.DirectoryScenario` | main.go:56-60 | `-f` naming a directory ends with status 1 and the error naming that path as a directory |
| `Pipeline.OneOverCapacityScenario` | main.go:72-75 | a 4297-byte `-f` file ends with status 1 and the capacity error for length 4297 |
| `Pipeline.ShortColorPanics` | main.go:92-97 | in PNG mode, a non-default `-fg` shorter than six bytes panics (status 2) once the content has been accepted |

## Left out

- Real I/O is not modelled. This covers `os.Open`, `Stat`, `Read`,
  `os.Stdin`, `os.Create`, `Write`, `Close`, `fmt.Println` and stderr
  output. What those calls return is an input (`Env`). Error message
  texts are represented by the error kind and its path or length.
- The single `f.Read` at main.go:62 is taken to read the whole file.
  The model does not cover a file that changes size between `Stat` and
  `Read`, where the Go buffer would keep trailing zero bytes.
- `ContentSource.ReadStdin` takes as input the bytes that one read call
  sees. It does not model how much of a longer stream a pipe delivers to
  one call.
- The `Close` calls in the deferred functions (main.go:50-55, 116-121)
  are left out. They run after the output is written and could turn
  success into status 1. Closing a file does not fail in the cases
  modelled here.
- `isInputFromPipe` (main.go:175-178) is an OS mode-bit query. It is the
  boolean `stdinPiped`.
- The `flag` package's parsing and its own exit on bad flags, and the
  text of `showUsage` (main.go:19-33, 139-165), are left out. `Config`
  holds the parsed values, and `DefaultConfig` holds the defaults.
- `checkError`'s retry after a failed stderr write (main.go:129-137) is
  reduced to "every error ends the run with status 1".
- The go-qrcode library is opaque: encoding, error correction, text-art
  and PNG rasterisation. `qrcode.New` is a predicate `encodes` over the
  content. `q.PNG` success is the boolean `pngOk`. Their output is
  represented by the request (invert, border, size, colours and
  destination). The fixed `qrcode.Highest` level is a constant of the
  encoder and is not a parameter.
- The library's defaults are Go's `color.Black` and `color.White`, which
  are 16-bit greys. They are modelled as the 8-bit RGBA values
  (0,0,0,255) and (255,255,255,255).
- `HexColor.ParsePair` models `strconv.ParseUint(_, 16, 8)` only on the
  two-byte inputs main.go passes it. On those inputs the range error
  cannot occur. Longer inputs, and the range error, are not modelled.
- `HexColor.ParseColor` requires six bytes, as the Go slices do. The
  panic on shorter strings is modelled where the decoder is called
  (`Render.Override`, the `Panicked` outcome), not inside the decoder.
