/** The external transcoding engine: the argument vectors the processors
    build for it, a reader that recovers their meaning, and the engine
    itself as an oracle that either writes the output file or fails. */
module Ffmpeg {
  import opened Results
  import opened Strings
  import opened Paths
  import opened Fs
  import opened AudioConfig

  /** What one `subprocess.run(cmd, capture_output=True, text=True, check=True)`
      does: exit status 0 with the output file written; a non-zero status
      with the captured stderr (and perhaps a partly written output); or no
      executable to start at all. */
  datatype EngineOutcome =
    | Completed(output: Bytes)
    | Failed(partial: Option<Bytes>, stderr: string)
    | NotFound

  /** The engine sees the argument vector, the files and the directories
      that exist, and decides; a real engine fails when the directory of
      its output is missing. */
  type Engine = (seq<string>, map<Path, Bytes>, set<Path>) -> EngineOutcome

  /** The files after the engine has run: its output replaces the file named
      last on the command line. */
  function AfterRun(files: map<Path, Bytes>, output: Path, o: EngineOutcome): map<Path, Bytes> {
    match o
    case Completed(data) => files[output := data]
    case Failed(Some(data), _) => files[output := data]
    case _ => files
  }

  /** One engine run against the filesystem. */
  method Run(fs: FileSystem, engine: Engine, argv: seq<string>) returns (o: EngineOutcome)
    requires |argv| > 0
    modifies fs
    ensures o == engine(argv, old(fs.files), old(fs.dirs))
    ensures fs.files == AfterRun(old(fs.files), argv[|argv| - 1], o)
    ensures fs.dirs == old(fs.dirs) && fs.runs == old(fs.runs) + [argv]
  {
    o := engine(argv, fs.files, fs.dirs);
    fs.files := AfterRun(fs.files, argv[|argv| - 1], o);
    fs.runs := fs.runs + [argv];
  }

  /** The exception a failed run raises: `check=True` turns a non-zero
      status into a RuntimeError whose message is `prefix` and the captured
      stderr; a missing executable propagates as it is. */
  function EngineError(o: EngineOutcome, prefix: string): (e: AudioError)
    requires !o.Completed?
    ensures o.NotFound? <==> e == EngineNotFound
    ensures o.Failed? ==> e == EngineFailed(prefix + o.stderr)
  {
    if o.NotFound? then EngineNotFound else EngineFailed(prefix + o.stderr)
  }

  /** A run whose success yields `value`. */
  function Checked<T>(o: EngineOutcome, prefix: string, value: T): (r: Result<T, AudioError>)
    ensures r.Ok? <==> o.Completed?
    ensures r.Ok? ==> r.value == value
    ensures r.Err? ==> r.error == EngineError(o, prefix)
  {
    if o.Completed? then Ok(value) else Err(EngineError(o, prefix))
  }

  /** A run whose success yields what the engine wrote. */
  function CheckedOutput(o: EngineOutcome, prefix: string): (r: Result<Bytes, AudioError>)
    ensures r.Ok? <==> o.Completed?
    ensures r.Ok? ==> r.value == o.output
    ensures r.Err? ==> r.error == EngineError(o, prefix)
  {
    if o.Completed? then Ok(o.output) else Err(EngineError(o, prefix))
  }

  /** A scratch file written, run into, and removed leaves no trace. */
  lemma DropScratch(files: map<Path, Bytes>, p: Path, data: Bytes, o: EngineOutcome)
    requires p !in files
    ensures p in AfterRun(files[p := data], p, o)
    ensures AfterRun(files[p := data], p, o) - {p} == files
  {
  }

  /** Removing a scratch input after a run into another file. */
  lemma DropInput(files: map<Path, Bytes>, input: Path, data: Bytes, target: Path, o: EngineOutcome)
    requires input !in files && input != target
    ensures input in AfterRun(files[input := data], target, o)
    ensures AfterRun(files[input := data], target, o) - {input} == AfterRun(files, target, o)
  {
  }

  /** The downlink encode command of `DownlinkProcessor._process_audio_to_opus`. */
  function EncodeArgs(cmd: string, input: Path, bitrate: string, frameDuration: string,
                      sampleRate: int, channels: int, output: Path): seq<string>
  {
    [cmd,
     "-i", input,
     "-c:a", "libopus",
     "-b:a", bitrate,
     "-frame_duration", frameDuration,
     "-ar", IntToString(sampleRate),
     "-ac", IntToString(channels),
     "-sample_fmt", "s16",
     "-application", "voip",
     "-y",
     output]
  }

  /** The uplink decode command of `UplinkProcessor._decode_opus_to_audio`. */
  function DecodeArgs(cmd: string, input: Path, sampleRate: int, channels: int,
                      format: string, output: Path): seq<string>
  {
    [cmd,
     "-i", input,
     "-ar", IntToString(sampleRate),
     "-ac", IntToString(channels),
     "-acodec", "pcm_s16le",
     "-f", format,
     "-y",
     output]
  }

  /** A command line read back as the engine reads it: the program, then
      option/value pairs in order, then "-y" (overwrite without asking), then
      the output file. */
  datatype Opt = Opt(flag: string, value: string)
  datatype Invocation = Invocation(program: string, options: seq<Opt>, overwrite: bool, output: Path)

  predicate IsFlag(s: string) { |s| > 0 && s[0] == '-' }

  function Flatten(options: seq<Opt>): (r: seq<string>)
    ensures |r| == 2 * |options|
  {
    if options == [] then [] else [options[0].flag, options[0].value] + Flatten(options[1..])
  }

  /** The argument vector of an invocation. */
  function ToArgv(inv: Invocation): (r: seq<string>)
    ensures |r| > 0 && r[0] == inv.program && r[|r| - 1] == inv.output
  {
    [inv.program] + Flatten(inv.options) + (if inv.overwrite then ["-y"] else []) + [inv.output]
  }

  /** Reading the words after the program. */
  function ReadOptions(rest: seq<string>): Option<(seq<Opt>, bool, Path)>
    decreases |rest|
  {
    if |rest| == 0 then None
    else if |rest| == 1 then Some(([], false, rest[0]))
    else if rest[0] == "-y" then (if |rest| == 2 then Some(([], true, rest[1])) else None)
    else if IsFlag(rest[0]) then
      match ReadOptions(rest[2..])
      case Some((options, overwrite, output)) => Some(([Opt(rest[0], rest[1])] + options, overwrite, output))
      case None => None
    else None
  }

  function ReadArgv(argv: seq<string>): Option<Invocation> {
    if |argv| == 0 then None
    else
      match ReadOptions(argv[1..])
      case Some((options, overwrite, output)) => Some(Invocation(argv[0], options, overwrite, output))
      case None => None
  }

  /** Every option is a flag other than "-y". */
  predicate WellFormed(inv: Invocation) {
    forall i :: 0 <= i < |inv.options| ==> IsFlag(inv.options[i].flag) && inv.options[i].flag != "-y"
  }

  lemma {:induction false} ReadFlatten(options: seq<Opt>, tail: seq<string>, overwrite: bool, output: Path)
    requires forall i :: 0 <= i < |options| ==> IsFlag(options[i].flag) && options[i].flag != "-y"
    requires tail == (if overwrite then ["-y"] else []) + [output]
    ensures ReadOptions(Flatten(options) + tail) == Some((options, overwrite, output))
    decreases |options|
  {
    if options == [] {
      assert Flatten(options) + tail == tail;
    } else {
      var w := Flatten(options) + tail;
      assert w[2..] == Flatten(options[1..]) + tail;
      ReadFlatten(options[1..], tail, overwrite, output);
      assert [options[0]] + options[1..] == options;
    }
  }

  /** Reading an argument vector gives back the invocation it was made from. */
  lemma ReadToArgv(inv: Invocation)
    requires WellFormed(inv)
    ensures ReadArgv(ToArgv(inv)) == Some(inv)
  {
    var tail := (if inv.overwrite then ["-y"] else []) + [inv.output];
    ReadFlatten(inv.options, tail, inv.overwrite, inv.output);
    assert ToArgv(inv)[1..] == Flatten(inv.options) + tail;
  }

  /** The options the encode command passes, in order. */
  function EncodeOptions(input: Path, bitrate: string, frameDuration: string, sampleRate: int, channels: int): seq<Opt> {
    [Opt("-i", input), Opt("-c:a", "libopus"), Opt("-b:a", bitrate), Opt("-frame_duration", frameDuration),
     Opt("-ar", IntToString(sampleRate)), Opt("-ac", IntToString(channels)),
     Opt("-sample_fmt", "s16"), Opt("-application", "voip")]
  }

  /** The options the decode command passes, in order. */
  function DecodeOptions(input: Path, sampleRate: int, channels: int, format: string): seq<Opt> {
    [Opt("-i", input), Opt("-ar", IntToString(sampleRate)), Opt("-ac", IntToString(channels)),
     Opt("-acodec", "pcm_s16le"), Opt("-f", format)]
  }

  /** The encode command reads as: input file, Opus codec at the preset's
      bitrate and frame duration, the preset's sample rate and channel
      count, 16-bit samples, the VoIP profile, overwrite, output file. */
  lemma EncodeArgsMeaning(cmd: string, input: Path, bitrate: string, frameDuration: string,
                          sampleRate: int, channels: int, output: Path)
    ensures ReadArgv(EncodeArgs(cmd, input, bitrate, frameDuration, sampleRate, channels, output))
         == Some(Invocation(cmd, EncodeOptions(input, bitrate, frameDuration, sampleRate, channels), true, output))
  {
    var inv := Invocation(cmd, EncodeOptions(input, bitrate, frameDuration, sampleRate, channels), true, output);
    var o := inv.options;
    assert Flatten(o[7..]) == ["-application", "voip"];
    assert Flatten(o[6..]) == ["-sample_fmt", "s16"] + Flatten(o[7..]);
    assert Flatten(o[5..]) == ["-ac", IntToString(channels)] + Flatten(o[6..]);
    assert Flatten(o[4..]) == ["-ar", IntToString(sampleRate)] + Flatten(o[5..]);
    assert Flatten(o[3..]) == ["-frame_duration", frameDuration] + Flatten(o[4..]);
    assert Flatten(o[2..]) == ["-b:a", bitrate] + Flatten(o[3..]);
    assert Flatten(o[1..]) == ["-c:a", "libopus"] + Flatten(o[2..]);
    assert Flatten(o) == ["-i", input] + Flatten(o[1..]);
    assert ToArgv(inv) == EncodeArgs(cmd, input, bitrate, frameDuration, sampleRate, channels, output);
    ReadToArgv(inv);
  }

  /** The decode command reads as: scratch input, the preset's sample rate
      and channel count, 16-bit little-endian PCM in the preset's container,
      overwrite, output file. */
  lemma DecodeArgsMeaning(cmd: string, input: Path, sampleRate: int, channels: int, format: string, output: Path)
    ensures ReadArgv(DecodeArgs(cmd, input, sampleRate, channels, format, output))
         == Some(Invocation(cmd, DecodeOptions(input, sampleRate, channels, format), true, output))
  {
    var inv := Invocation(cmd, DecodeOptions(input, sampleRate, channels, format), true, output);
    var o := inv.options;
    assert Flatten(o[4..]) == ["-f", format];
    assert Flatten(o[3..]) == ["-acodec", "pcm_s16le"] + Flatten(o[4..]);
    assert Flatten(o[2..]) == ["-ac", IntToString(channels)] + Flatten(o[3..]);
    assert Flatten(o[1..]) == ["-ar", IntToString(sampleRate)] + Flatten(o[2..]);
    assert Flatten(o) == ["-i", input] + Flatten(o[1..]);
    assert ToArgv(inv) == DecodeArgs(cmd, input, sampleRate, channels, format, output);
    ReadToArgv(inv);
  }

  /** The numbers on both command lines read back as the configured ones. */
  lemma CommandNumbersReadBack(sampleRate: int, channels: int)
    ensures ParseInt(EncodeOptions("", "", "", sampleRate, channels)[4].value) == Some(sampleRate)
    ensures ParseInt(EncodeOptions("", "", "", sampleRate, channels)[5].value) == Some(channels)
    ensures ParseInt(DecodeOptions("", sampleRate, channels, "")[1].value) == Some(sampleRate)
    ensures ParseInt(DecodeOptions("", sampleRate, channels, "")[2].value) == Some(channels)
  {
    ParseIntToString(sampleRate);
    ParseIntToString(channels);
  }
}
