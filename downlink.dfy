/** `DownlinkProcessor`: speech audio from the synthesiser encoded to Opus
    for the device, as raw bytes, as Base64 text or as a file. */
module Downlink {
  import opened Results
  import opened Strings
  import opened Paths
  import opened Fs
  import opened AudioConfig
  import opened Ffmpeg
  import opened FfmpegLocator
  import Base64

  /** The prefix of the RuntimeError a failed encode raises. */
  const EncodeFailure: string := "Opus编码失败: "

  /** What `get_preset_info()` reports. */
  datatype PresetInfo = PresetInfo(
    presetName: string,
    description: string,
    sampleRate: int,
    channels: int,
    bitrate: string,
    bitDepth: int,
    frameDuration: string)

  /** The three shapes `process_audio` can return. */
  datatype DownlinkOutput = OpusBytes(data: Bytes) | OpusBase64(text: string) | OpusFile(path: Path)

  /** The file `process_audio(input, "file")` writes. */
  function DefaultOutputPath(preset: string, input: Path): Path {
    "outputs/downlink_" + preset + "_" + Stem(input) + ".opus"
  }

  /** That file lies directly in "outputs" and is named after the preset and
      the input's stem, so `os.makedirs` is asked for "outputs". */
  lemma DefaultOutputLocation(preset: string, input: Path)
    requires '/' !in preset
    ensures Dirname(DefaultOutputPath(preset, input)) == "outputs"
    ensures Basename(DefaultOutputPath(preset, input)) == "downlink_" + preset + "_" + Stem(input) + ".opus"
  {
    var name := "downlink_" + preset + "_" + Stem(input) + ".opus";
    StemNoSlash(input);
    assert '/' !in name by {
      forall k | 0 <= k < |name| ensures name[k] != '/' {
        var a := "downlink_" + preset;
        var b := a + "_" + Stem(input);
        assert name == b + ".opus";
        if k >= |b| { assert name[k] == ".opus"[k - |b|]; }
        else {
          assert name[k] == b[k];
          if k > |a| { assert b[k] == Stem(input)[k - |a| - 1]; }
          else if k < |a| && k >= 9 { assert b[k] == preset[k - 9]; }
        }
      }
    }
    assert DefaultOutputPath(preset, input) == "outputs" + "/" + name;
    DirnameOfChild("outputs", name);
  }

  class DownlinkProcessor {
    const preset: string
    const sampleRate: int
    const channels: int
    const bitrate: string
    const bitDepth: int
    const frameDuration: string
    const ffmpegCmd: string

    /** The preset is one of the catalog's names. */
    predicate Valid() {
      preset in DownlinkPresetNames
    }

    /** The attribute assignments of `__init__` once the preset is found. */
    constructor (name: string, config: DownlinkPreset, cmd: string)
      requires name in DownlinkPresetNames
      ensures Valid()
      ensures preset == name && ffmpegCmd == cmd
      ensures sampleRate == config.format.sampleRate && channels == config.format.channels
      ensures bitDepth == config.format.bitDepth
      ensures bitrate == config.bitrate && frameDuration == config.frameDuration
    {
      preset := name;
      sampleRate := config.format.sampleRate;
      channels := config.format.channels;
      bitrate := config.bitrate;
      bitDepth := config.format.bitDepth;
      frameDuration := config.frameDuration;
      ffmpegCmd := cmd;
    }

    /** `get_preset_info()`: the catalog is read again for the description,
        so a setting that has since become malformed raises here. */
    function Info(env: Env): (r: Result<PresetInfo, AudioError>)
      requires Valid()
      ensures r.Ok? <==> GetAudioConfig(env).Ok?
      ensures r.Err? ==> r.error == GetAudioConfig(env).error
      ensures r.Ok? ==> r.value.presetName == preset && r.value.description == DownlinkDescription(preset)
      ensures r.Ok? ==> r.value.sampleRate == sampleRate && r.value.channels == channels && r.value.bitDepth == bitDepth
      ensures r.Ok? ==> r.value.bitrate == bitrate && r.value.frameDuration == frameDuration
    {
      var config :- ResolveDownlink(env, preset);
      Ok(PresetInfo(preset, config.desc, sampleRate, channels, bitrate, bitDepth, frameDuration))
    }

    /** The command `_process_audio_to_opus` runs. */
    function EncodeCommand(input: Path, output: Path): (argv: seq<string>)
      ensures |argv| > 0 && argv[|argv| - 1] == output
      ensures ReadArgv(argv) == Some(Invocation(ffmpegCmd,
        EncodeOptions(input, bitrate, frameDuration, sampleRate, channels), true, output))
    {
      EncodeArgsMeaning(ffmpegCmd, input, bitrate, frameDuration, sampleRate, channels, output);
      EncodeArgs(ffmpegCmd, input, bitrate, frameDuration, sampleRate, channels, output)
    }

    /** What `process_to_bytes` returns, given the files and directories it
        starts from and the scratch file it encodes into: the input must
        load, then the engine's output is read back. */
    function ToBytes(engine: Engine, files: map<Path, Bytes>, dirs: set<Path>,
                     input: Path, scratch: Path): Result<Bytes, AudioError> {
      if input !in files then Err(InputNotFound(input))
      else CheckedOutput(engine(EncodeCommand(input, scratch), files[scratch := []], dirs), EncodeFailure)
    }

    /** What `process_to_base64` returns. */
    function ToBase64(engine: Engine, files: map<Path, Bytes>, dirs: set<Path>,
                      input: Path, scratch: Path): Result<string, AudioError> {
      match ToBytes(engine, files, dirs, input, scratch)
      case Ok(data) => Ok(Base64.Encode(data))
      case Err(e) => Err(e)
    }

    /** The Base64 text decodes to exactly the Opus bytes, and it fails
        exactly when the bytes do, with the same error. */
    lemma Base64OfBytes(engine: Engine, files: map<Path, Bytes>, dirs: set<Path>, input: Path, scratch: Path)
      ensures ToBase64(engine, files, dirs, input, scratch).Ok? <==> ToBytes(engine, files, dirs, input, scratch).Ok?
      ensures ToBase64(engine, files, dirs, input, scratch).Ok? ==>
        Base64.Decode(ToBase64(engine, files, dirs, input, scratch).value) == Some(ToBytes(engine, files, dirs, input, scratch).value)
      ensures ToBase64(engine, files, dirs, input, scratch).Err? ==>
        ToBase64(engine, files, dirs, input, scratch).error == ToBytes(engine, files, dirs, input, scratch).error
    {
      if ToBytes(engine, files, dirs, input, scratch).Ok? {
        Base64.DecodeEncode(ToBytes(engine, files, dirs, input, scratch).value);
      }
    }

    /** `_process_audio_to_opus(input_path, output_path)`: without an output
        path a fresh name ending in ".opus" is chosen (and not created); the
        engine writes the output file. */
    method ProcessAudioToOpus(fs: FileSystem, engine: Engine, input: Path, output: Option<Path> := None)
      returns (r: Result<Path, AudioError>, ghost target: Path)
      modifies fs
      ensures output.Some? ==> target == output.value
      ensures output.None? ==> !old(fs.Exists(target)) && EndsWith(target, ".opus")
      ensures var o := engine(EncodeCommand(input, target), old(fs.files), old(fs.dirs));
        && r == Checked(o, EncodeFailure, target)
        && fs.files == AfterRun(old(fs.files), target, o)
      ensures fs.dirs == old(fs.dirs) && fs.runs == old(fs.runs) + [EncodeCommand(input, target)]
    {
      var path: Path;
      if output.None? {
        path := fs.FreshName(".opus", {});
      } else {
        path := output.value;
      }
      target := path;
      var o := Run(fs, engine, EncodeCommand(input, path));
      r := Checked(o, EncodeFailure, path);
    }

    /** `process_to_bytes(input_path)`: the scratch file is removed on
        every path, so the files and directories end as they began. */
    method ProcessToBytes(fs: FileSystem, engine: Engine, input: Path)
      returns (r: Result<Bytes, AudioError>, ghost scratch: Path)
      modifies fs
      ensures r == ToBytes(engine, old(fs.files), old(fs.dirs), input, scratch)
      ensures input in old(fs.files) ==> !old(fs.Exists(scratch)) && EndsWith(scratch, ".opus")
      ensures input in old(fs.files) ==> fs.runs == old(fs.runs) + [EncodeCommand(input, scratch)]
      ensures input !in old(fs.files) ==> fs.runs == old(fs.runs)
      ensures fs.files == old(fs.files) && fs.dirs == old(fs.dirs)
    {
      if input !in fs.files {
        scratch := "";
        return Err(InputNotFound(input)), scratch;
      }
      ghost var files0 := fs.files;
      var tempPath := fs.NewTempFile(".opus", [], {});
      scratch := tempPath;
      var encoded, _ := ProcessAudioToOpus(fs, engine, input, Some(tempPath));
      ghost var o := engine(EncodeCommand(input, tempPath), files0[tempPath := []], old(fs.dirs));
      DropScratch(files0, tempPath, [], o);
      if encoded.Ok? {
        var read := fs.ReadFile(tempPath);
        r := match read case Ok(data) => Ok(data) case Err(e) => Err(FileSystemError(e));
      } else {
        r := Err(encoded.error);
      }
      if tempPath in fs.files {
        fs.Unlink(tempPath);
      }
    }

    /** `process_to_file(input_path, output_path)`. */
    method ProcessToFile(fs: FileSystem, engine: Engine, input: Path, output: Path)
      returns (r: Result<Path, AudioError>)
      modifies fs
      ensures var o := engine(EncodeCommand(input, output), old(fs.files), old(fs.dirs));
        && r == Checked(o, EncodeFailure, output)
        && fs.files == AfterRun(old(fs.files), output, o)
      ensures r.Ok? ==> output in fs.files
      ensures fs.dirs == old(fs.dirs) && fs.runs == old(fs.runs) + [EncodeCommand(input, output)]
    {
      var written, _ := ProcessAudioToOpus(fs, engine, input, Some(output));
      r := written;
    }

    /** `process_to_base64(input_path)`. */
    method ProcessToBase64(fs: FileSystem, engine: Engine, input: Path)
      returns (r: Result<string, AudioError>, ghost scratch: Path)
      modifies fs
      ensures r == ToBase64(engine, old(fs.files), old(fs.dirs), input, scratch)
      ensures input in old(fs.files) ==> !old(fs.Exists(scratch)) && EndsWith(scratch, ".opus")
      ensures input in old(fs.files) ==> fs.runs == old(fs.runs) + [EncodeCommand(input, scratch)]
      ensures input !in old(fs.files) ==> fs.runs == old(fs.runs)
      ensures fs.files == old(fs.files) && fs.dirs == old(fs.dirs)
    {
      var opus;
      opus, scratch := ProcessToBytes(fs, engine, input);
      r := match opus case Ok(data) => Ok(Base64.Encode(data)) case Err(e) => Err(e);
    }

    /** `process_audio(input_path, output_format)`: "file" writes to
        `DefaultOutputPath` after creating "outputs"; an unknown format
        raises before anything happens. */
    method ProcessAudio(fs: FileSystem, engine: Engine, input: Path, outputFormat: string := "bytes")
      returns (r: Result<DownlinkOutput, AudioError>, ghost scratch: Path)
      requires Valid()
      modifies fs
      ensures outputFormat == "bytes" ==>
        && fs.files == old(fs.files) && fs.dirs == old(fs.dirs)
        && r == (match ToBytes(engine, old(fs.files), old(fs.dirs), input, scratch)
                 case Ok(data) => Ok(OpusBytes(data)) case Err(e) => Err(e))
        && (input in old(fs.files) ==>
              && !old(fs.Exists(scratch)) && EndsWith(scratch, ".opus")
              && fs.runs == old(fs.runs) + [EncodeCommand(input, scratch)])
        && (input !in old(fs.files) ==> fs.runs == old(fs.runs))
      ensures outputFormat == "base64" ==>
        && fs.files == old(fs.files) && fs.dirs == old(fs.dirs)
        && r == (match ToBase64(engine, old(fs.files), old(fs.dirs), input, scratch)
                 case Ok(text) => Ok(OpusBase64(text)) case Err(e) => Err(e))
        && (input in old(fs.files) ==>
              && !old(fs.Exists(scratch)) && EndsWith(scratch, ".opus")
              && fs.runs == old(fs.runs) + [EncodeCommand(input, scratch)])
        && (input !in old(fs.files) ==> fs.runs == old(fs.runs))
      ensures outputFormat == "file" ==>
        var out := DefaultOutputPath(preset, input);
        var m := MakeDirsResult(old(fs.files), old(fs.dirs), "outputs");
        && (m.Err? ==>
              && r == Err(FileSystemError(m.error))
              && fs.files == old(fs.files) && fs.dirs == old(fs.dirs) && fs.runs == old(fs.runs))
        && (m.Ok? ==>
              var o := engine(EncodeCommand(input, out), old(fs.files), m.value);
              && Dirname(out) in m.value
              && r == Checked(o, EncodeFailure, OpusFile(out))
              && fs.files == AfterRun(old(fs.files), out, o)
              && fs.dirs == m.value
              && fs.runs == old(fs.runs) + [EncodeCommand(input, out)])
      ensures outputFormat !in {"bytes", "base64", "file"} ==>
        && r == Err(InvalidOutputFormat(outputFormat))
        && fs.files == old(fs.files) && fs.dirs == old(fs.dirs) && fs.runs == old(fs.runs)
    {
      scratch := "";
      if outputFormat == "bytes" {
        var opus;
        opus, scratch := ProcessToBytes(fs, engine, input);
        r := match opus case Ok(data) => Ok(OpusBytes(data)) case Err(e) => Err(e);
      } else if outputFormat == "base64" {
        var text;
        text, scratch := ProcessToBase64(fs, engine, input);
        r := match text case Ok(t) => Ok(OpusBase64(t)) case Err(e) => Err(e);
      } else if outputFormat == "file" {
        var outputPath := DefaultOutputPath(preset, input);
        DefaultOutputLocation(preset, input);
        var made := fs.MakeDirs(Dirname(outputPath));
        if made.Err? {
          return Err(FileSystemError(made.error)), scratch;
        }
        var written := ProcessToFile(fs, engine, input, outputPath);
        r := match written case Ok(p) => Ok(OpusFile(p)) case Err(e) => Err(e);
      } else {
        r := Err(InvalidOutputFormat(outputFormat));
      }
    }
  }

  /** `DownlinkProcessor(preset)`: the name is checked against the catalog
      (built from the environment) before the engine is looked for. */
  method NewDownlinkProcessor(env: Env, fs: FileSystem, moduleDir: Dir, name: string := "balanced")
    returns (r: Result<DownlinkProcessor, AudioError>)
    ensures r.Err? <==> ResolveDownlink(env, name).Err?
    ensures r.Err? ==> r.error == ResolveDownlink(env, name).error
    ensures r.Ok? ==>
      var config := ResolveDownlink(env, name).value;
      && fresh(r.value) && r.value.Valid() && r.value.preset == name
      && r.value.sampleRate == config.format.sampleRate && r.value.channels == config.format.channels
      && r.value.bitDepth == config.format.bitDepth
      && r.value.bitrate == config.bitrate && r.value.frameDuration == config.frameDuration
      && (OverrideUsable(env, fs) ==> r.value.ffmpegCmd == Join(env[OverrideKey], Executable))
      && (r.value.ffmpegCmd != BareCommand ==> fs.Exists(r.value.ffmpegCmd))
      && LocatedEngine(env, fs, moduleDir, r.value.ffmpegCmd)
  {
    var config := ResolveDownlink(env, name);
    if config.Err? {
      return Err(config.error);
    }
    var cmd := GetFfmpegExecutable(env, fs, moduleDir);
    var p := new DownlinkProcessor(name, config.value, cmd);
    r := Ok(p);
  }
}
