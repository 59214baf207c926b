/** `UplinkProcessor`: Opus audio from the device decoded for speech
    recognition, as raw bytes, as a file or as an audio segment. */
module Uplink {
  import opened Results
  import opened Strings
  import opened Paths
  import opened Fs
  import opened AudioConfig
  import opened Ffmpeg
  import opened FfmpegLocator

  /** The prefix of the RuntimeError a failed decode raises. */
  const DecodeFailure: string := "Opus解码失败: "

  /** What `get_preset_info()` reports. */
  datatype PresetInfo = PresetInfo(
    presetName: string,
    description: string,
    sampleRate: int,
    channels: int,
    format: string,
    bitDepth: int)

  /** A decoded segment: the audio bytes and the container they are read as. */
  datatype AudioSegment = AudioSegment(data: Bytes, format: string)

  /** The three shapes `decode_opus` can return. */
  datatype UplinkOutput = AudioBytes(data: Bytes) | AudioFile(path: Path) | Segment(segment: AudioSegment)

  /** The file `decode_opus(data, "file")` writes when no path is given. */
  function DefaultOutputPath(preset: string, format: string): Path {
    "outputs/uplink_" + preset + "_decoded." + format
  }

  /** That file lies directly in "outputs". */
  lemma DefaultOutputLocation(preset: string, format: string)
    requires '/' !in preset && '/' !in format
    ensures Dirname(DefaultOutputPath(preset, format)) == "outputs"
  {
    var name := "uplink_" + preset + "_decoded." + format;
    assert '/' !in name by {
      forall k | 0 <= k < |name| ensures name[k] != '/' {
        var a := "uplink_" + preset;
        var b := a + "_decoded.";
        assert name == b + format;
        if k >= |b| { assert name[k] == format[k - |b|]; }
        else {
          assert name[k] == b[k];
          if k >= |a| { assert b[k] == "_decoded."[k - |a|]; }
          else if k >= 7 { assert b[k] == preset[k - 7]; }
        }
      }
    }
    assert DefaultOutputPath(preset, format) == "outputs" + "/" + name;
    DirnameOfChild("outputs", name);
  }

  /** The directories after `os.makedirs(os.path.dirname(output_path),
      exist_ok=True)` exactly as `decode_opus` calls it. */
  function FileTargetDirsAsWritten(files: map<Path, Bytes>, dirs: set<Path>, output: Path): Result<set<Path>, FsError> {
    MakeDirsResult(files, dirs, Dirname(output))
  }

  /** As written, a caller's bare file name is refused: its directory part
      is "", and `os.makedirs("")` raises FileNotFoundError. */
  lemma BareNameRefusedAsWritten()
    ensures FileTargetDirsAsWritten(map[], {}, "decoded.wav") == Err(NoSuchFile(""))
  {
    assert '/' !in "decoded.wav";
  }

  /** The directories after making sure the output's directory exists, as
      intended: a path without a directory part names the working directory,
      which exists already. */
  function FileTargetDirs(files: map<Path, Bytes>, dirs: set<Path>, output: Path): (r: Result<set<Path>, FsError>)
    ensures Dirname(output) != "" ==> r == FileTargetDirsAsWritten(files, dirs, output)
  {
    if Dirname(output) == "" then Ok(dirs) else MakeDirsResult(files, dirs, Dirname(output))
  }

  /** Corrected: a bare file name is accepted and creates no directory,
      whereas the call as written refuses it. */
  lemma BareNameAccepted(files: map<Path, Bytes>, dirs: set<Path>, name: Path)
    requires '/' !in name
    ensures FileTargetDirs(files, dirs, name) == Ok(dirs)
    ensures FileTargetDirsAsWritten(files, dirs, name) == Err(NoSuchFile(""))
  {
  }

  /** Corrected: the target's directory exists afterwards, or the call
      fails because a regular file stands in its place. */
  lemma FileTargetDirsExist(files: map<Path, Bytes>, dirs: set<Path>, output: Path)
    ensures FileTargetDirs(files, dirs, output).Ok? ==>
      Dirname(output) == "" || Dirname(output) in FileTargetDirs(files, dirs, output).value
    ensures FileTargetDirs(files, dirs, output).Err? <==> Dirname(output) != "" && Dirname(output) in files
  {
  }

  class UplinkProcessor {
    const preset: string
    const sampleRate: int
    const channels: int
    const format: string
    const bitDepth: int
    const ffmpegCmd: string

    /** The preset is one of the catalog's names and the container name is
        a plain word. */
    predicate Valid() {
      preset in UplinkPresetNames && '/' !in format
    }

    /** The attribute assignments of `__init__` once the preset is found. */
    constructor (name: string, config: UplinkPreset, cmd: string)
      requires name in UplinkPresetNames && '/' !in config.container
      ensures Valid()
      ensures preset == name && ffmpegCmd == cmd && format == config.container
      ensures sampleRate == config.format.sampleRate && channels == config.format.channels
      ensures bitDepth == config.format.bitDepth
    {
      preset := name;
      sampleRate := config.format.sampleRate;
      channels := config.format.channels;
      format := config.container;
      bitDepth := config.format.bitDepth;
      ffmpegCmd := cmd;
    }

    /** `get_preset_info()`: the catalog is read again for the description. */
    function Info(env: Env): (r: Result<PresetInfo, AudioError>)
      requires Valid()
      ensures r.Ok? <==> GetAudioConfig(env).Ok?
      ensures r.Err? ==> r.error == GetAudioConfig(env).error
      ensures r.Ok? ==> r.value.presetName == preset && r.value.description == UplinkDescription(preset)
      ensures r.Ok? ==> r.value.sampleRate == sampleRate && r.value.channels == channels
      ensures r.Ok? ==> r.value.format == format && r.value.bitDepth == bitDepth
    {
      var config :- ResolveUplink(env, preset);
      Ok(PresetInfo(preset, config.desc, sampleRate, channels, format, bitDepth))
    }

    /** The command `_decode_opus_to_audio` runs. */
    function DecodeCommand(input: Path, output: Path): (argv: seq<string>)
      ensures |argv| > 0 && argv[|argv| - 1] == output
      ensures ReadArgv(argv) == Some(Invocation(ffmpegCmd,
        DecodeOptions(input, sampleRate, channels, format), true, output))
    {
      DecodeArgsMeaning(ffmpegCmd, input, sampleRate, channels, format, output);
      DecodeArgs(ffmpegCmd, input, sampleRate, channels, format, output)
    }

    /** What `decode_to_bytes` returns, given the files and directories it
        starts from, the scratch output it decodes into and the scratch
        Opus input. */
    function ToBytes(engine: Engine, files: map<Path, Bytes>, dirs: set<Path>,
                     data: Bytes, target: Path, scratch: Path): Result<Bytes, AudioError> {
      CheckedOutput(engine(DecodeCommand(scratch, target), files[target := []][scratch := data], dirs), DecodeFailure)
    }

    /** What `decode_to_audiosegment` returns. */
    function ToSegment(engine: Engine, files: map<Path, Bytes>, dirs: set<Path>,
                       data: Bytes, target: Path, scratch: Path): Result<AudioSegment, AudioError> {
      match ToBytes(engine, files, dirs, data, target, scratch)
      case Ok(audio) => Ok(AudioSegment(audio, format))
      case Err(e) => Err(e)
    }

    /** The segment holds exactly the decoded bytes in the processor's
        container, and fails exactly when they do. */
    lemma SegmentOfBytes(engine: Engine, files: map<Path, Bytes>, dirs: set<Path>, data: Bytes, target: Path, scratch: Path)
      ensures ToSegment(engine, files, dirs, data, target, scratch).Ok? <==> ToBytes(engine, files, dirs, data, target, scratch).Ok?
      ensures ToSegment(engine, files, dirs, data, target, scratch).Ok? ==>
        ToSegment(engine, files, dirs, data, target, scratch).value
          == AudioSegment(ToBytes(engine, files, dirs, data, target, scratch).value, format)
    {
    }

    /** `_decode_opus_to_audio(opus_data, output_path)`: the Opus bytes go to
        a scratch file, the engine writes the output, and the scratch file is
        removed whatever happens. */
    method DecodeOpusToAudio(fs: FileSystem, engine: Engine, data: Bytes, output: Option<Path> := None)
      returns (r: Result<Path, AudioError>, ghost target: Path, ghost scratch: Path)
      modifies fs
      ensures output.Some? ==> target == output.value
      ensures output.None? ==> !old(fs.Exists(target)) && EndsWith(target, "." + format)
      ensures !old(fs.Exists(scratch)) && scratch != target && EndsWith(scratch, ".opus")
      ensures var o := engine(DecodeCommand(scratch, target), old(fs.files)[scratch := data], old(fs.dirs));
        && r == Checked(o, DecodeFailure, target)
        && fs.files == AfterRun(old(fs.files), target, o)
      ensures fs.dirs == old(fs.dirs) && fs.runs == old(fs.runs) + [DecodeCommand(scratch, target)]
    {
      var path: Path;
      if output.None? {
        path := fs.FreshName("." + format, {});
      } else {
        path := output.value;
      }
      target := path;
      ghost var files0 := fs.files;
      var tempOpus := fs.NewTempFile(".opus", data, {path});
      scratch := tempOpus;
      var o := Run(fs, engine, DecodeCommand(tempOpus, path));
      r := Checked(o, DecodeFailure, path);
      DropInput(files0, tempOpus, data, path, o);
      if tempOpus in fs.files {
        fs.Unlink(tempOpus);
      }
    }

    /** `decode_to_bytes(opus_data)`: both scratch files are gone afterwards,
        so the files and directories end as they began. */
    method DecodeToBytes(fs: FileSystem, engine: Engine, data: Bytes)
      returns (r: Result<Bytes, AudioError>, ghost target: Path, ghost scratch: Path)
      modifies fs
      ensures r == ToBytes(engine, old(fs.files), old(fs.dirs), data, target, scratch)
      ensures !old(fs.Exists(target)) && EndsWith(target, "." + format)
      ensures !old(fs.Exists(scratch)) && scratch != target && EndsWith(scratch, ".opus")
      ensures fs.runs == old(fs.runs) + [DecodeCommand(scratch, target)]
      ensures fs.files == old(fs.files) && fs.dirs == old(fs.dirs)
    {
      ghost var files0 := fs.files;
      var tempPath := fs.NewTempFile("." + format, [], {});
      target := tempPath;
      var decoded: Result<Path, AudioError>;
      ghost var same;
      decoded, same, scratch := DecodeOpusToAudio(fs, engine, data, Some(tempPath));
      ghost var o := engine(DecodeCommand(scratch, tempPath), files0[tempPath := []][scratch := data], old(fs.dirs));
      DropScratch(files0, tempPath, [], o);
      if decoded.Ok? {
        var read := fs.ReadFile(tempPath);
        r := match read case Ok(audio) => Ok(audio) case Err(e) => Err(FileSystemError(e));
      } else {
        r := Err(decoded.error);
      }
      if tempPath in fs.files {
        fs.Unlink(tempPath);
      }
    }

    /** `decode_to_file(opus_data, output_path)`. */
    method DecodeToFile(fs: FileSystem, engine: Engine, data: Bytes, output: Path)
      returns (r: Result<Path, AudioError>, ghost scratch: Path)
      modifies fs
      ensures !old(fs.Exists(scratch)) && scratch != output && EndsWith(scratch, ".opus")
      ensures var o := engine(DecodeCommand(scratch, output), old(fs.files)[scratch := data], old(fs.dirs));
        && r == Checked(o, DecodeFailure, output)
        && fs.files == AfterRun(old(fs.files), output, o)
      ensures r.Ok? ==> output in fs.files
      ensures fs.dirs == old(fs.dirs) && fs.runs == old(fs.runs) + [DecodeCommand(scratch, output)]
    {
      var written: Result<Path, AudioError>;
      ghost var same;
      written, same, scratch := DecodeOpusToAudio(fs, engine, data, Some(output));
      r := written;
    }

    /** `decode_to_audiosegment(opus_data)`: `AudioSegment.from_wav` for
        "wav", `AudioSegment.from_file` with the format otherwise; both read
        the decoded bytes as that container. */
    method DecodeToAudioSegment(fs: FileSystem, engine: Engine, data: Bytes)
      returns (r: Result<AudioSegment, AudioError>, ghost target: Path, ghost scratch: Path)
      modifies fs
      ensures r == ToSegment(engine, old(fs.files), old(fs.dirs), data, target, scratch)
      ensures !old(fs.Exists(target)) && EndsWith(target, "." + format)
      ensures !old(fs.Exists(scratch)) && scratch != target && EndsWith(scratch, ".opus")
      ensures fs.runs == old(fs.runs) + [DecodeCommand(scratch, target)]
      ensures fs.files == old(fs.files) && fs.dirs == old(fs.dirs)
    {
      var audio;
      audio, target, scratch := DecodeToBytes(fs, engine, data);
      r := match audio case Ok(b) => Ok(AudioSegment(b, format)) case Err(e) => Err(e);
    }

    /** `decode_opus(opus_data, output_format, output_path)`. In "file" mode
        the output's directory is created first, with the correction of
        `FileTargetDirs`: a path without a directory part is used as it is,
        where the call as written raises (`BareNameRefusedAsWritten`). The
        engine then runs with that directory present. An unknown format
        raises before anything happens. */
    method DecodeOpus(fs: FileSystem, engine: Engine, data: Bytes, outputFormat: string := "bytes",
                      outputPath: Option<Path> := None)
      returns (r: Result<UplinkOutput, AudioError>, ghost target: Path, ghost scratch: Path)
      requires Valid()
      modifies fs
      ensures outputFormat == "bytes" ==>
        && fs.files == old(fs.files) && fs.dirs == old(fs.dirs)
        && r == (match ToBytes(engine, old(fs.files), old(fs.dirs), data, target, scratch)
                 case Ok(audio) => Ok(AudioBytes(audio)) case Err(e) => Err(e))
        && !old(fs.Exists(target)) && EndsWith(target, "." + format)
        && !old(fs.Exists(scratch)) && scratch != target && EndsWith(scratch, ".opus")
        && fs.runs == old(fs.runs) + [DecodeCommand(scratch, target)]
      ensures outputFormat == "audiosegment" ==>
        && fs.files == old(fs.files) && fs.dirs == old(fs.dirs)
        && r == (match ToSegment(engine, old(fs.files), old(fs.dirs), data, target, scratch)
                 case Ok(s) => Ok(Segment(s)) case Err(e) => Err(e))
        && !old(fs.Exists(target)) && EndsWith(target, "." + format)
        && !old(fs.Exists(scratch)) && scratch != target && EndsWith(scratch, ".opus")
        && fs.runs == old(fs.runs) + [DecodeCommand(scratch, target)]
      ensures outputFormat == "file" ==>
        var out := if outputPath.Some? then outputPath.value else DefaultOutputPath(preset, format);
        var m := FileTargetDirs(old(fs.files), old(fs.dirs), out);
        && (m.Err? ==>
              && r == Err(FileSystemError(m.error))
              && fs.files == old(fs.files) && fs.dirs == old(fs.dirs) && fs.runs == old(fs.runs))
        && (m.Ok? ==>
              var o := engine(DecodeCommand(scratch, out), old(fs.files)[scratch := data], m.value);
              && (Dirname(out) == "" || Dirname(out) in m.value)
              && !old(fs.Exists(scratch)) && scratch != out && EndsWith(scratch, ".opus")
              && r == Checked(o, DecodeFailure, AudioFile(out))
              && fs.files == AfterRun(old(fs.files), out, o)
              && fs.dirs == m.value
              && fs.runs == old(fs.runs) + [DecodeCommand(scratch, out)])
      ensures outputFormat !in {"bytes", "audiosegment", "file"} ==>
        && r == Err(InvalidOutputFormat(outputFormat))
        && fs.files == old(fs.files) && fs.dirs == old(fs.dirs) && fs.runs == old(fs.runs)
    {
      target, scratch := "", "";
      if outputFormat == "bytes" {
        var audio;
        audio, target, scratch := DecodeToBytes(fs, engine, data);
        r := match audio case Ok(b) => Ok(AudioBytes(b)) case Err(e) => Err(e);
      } else if outputFormat == "audiosegment" {
        var segment;
        segment, target, scratch := DecodeToAudioSegment(fs, engine, data);
        r := match segment case Ok(s) => Ok(Segment(s)) case Err(e) => Err(e);
      } else if outputFormat == "file" {
        var path: Path;
        if outputPath.None? {
          path := DefaultOutputPath(preset, format);
          DefaultOutputLocation(preset, format);
        } else {
          path := outputPath.value;
        }
        var dir := Dirname(path);
        if dir != "" {
          var made := fs.MakeDirs(dir);
          if made.Err? {
            return Err(FileSystemError(made.error)), target, scratch;
          }
        }
        var written;
        written, scratch := DecodeToFile(fs, engine, data, path);
        r := match written case Ok(p) => Ok(AudioFile(p)) case Err(e) => Err(e);
      } else {
        r := Err(InvalidOutputFormat(outputFormat));
      }
    }
  }

  /** `UplinkProcessor(preset)`: the name is checked against the catalog
      (built from the environment) before the engine is looked for. */
  method NewUplinkProcessor(env: Env, fs: FileSystem, moduleDir: Dir, name: string := "general")
    returns (r: Result<UplinkProcessor, AudioError>)
    ensures r.Err? <==> ResolveUplink(env, name).Err?
    ensures r.Err? ==> r.error == ResolveUplink(env, name).error
    ensures r.Ok? ==>
      var config := ResolveUplink(env, name).value;
      && fresh(r.value) && r.value.Valid() && r.value.preset == name
      && r.value.sampleRate == config.format.sampleRate && r.value.channels == config.format.channels
      && r.value.bitDepth == config.format.bitDepth && r.value.format == "wav"
      && (OverrideUsable(env, fs) ==> r.value.ffmpegCmd == Join(env[OverrideKey], Executable))
      && (r.value.ffmpegCmd != BareCommand ==> fs.Exists(r.value.ffmpegCmd))
      && LocatedEngine(env, fs, moduleDir, r.value.ffmpegCmd)
  {
    var config := ResolveUplink(env, name);
    if config.Err? {
      return Err(config.error);
    }
    var cmd := GetFfmpegExecutable(env, fs, moduleDir);
    var p := new UplinkProcessor(name, config.value, cmd);
    r := Ok(p);
  }
}
