/** `EdgeTTS`: text to speech through an external synthesizer, with a fixed
    table of Chinese voices and a shared instance. */
module Tts {
  import opened Results
  import opened Strings
  import opened Paths
  import opened Fs

  /** The voice a new instance speaks with unless told otherwise. */
  const DefaultVoice: string := "zh-CN-XiaoyiNeural"
  const DefaultRate: string := "+0%"
  const DefaultVolume: string := "+0%"

  /** Where files named without a separator are placed. */
  const OutputDir: Path := "outputs/tts"

  /** The prefix of every exception `text_to_speech` raises. */
  const Failure: string := "EdgeTTS 语音生成失败: "
  const EmptyTextMessage: string := "文本内容不能为空"
  const NotGeneratedMessage: string := "语音文件生成失败"
  const UnknownVoiceMessage: string := "未找到语音角色: "

  /** The short names of the voice table, in the table's order. */
  const VoiceNames: seq<string> := ["xiaoyou", "xiaoyi", "yunjian", "yunxi", "yunxia",
                                    "yunyang", "xiaoxiao", "xiaohan", "xiaomo", "xiaoxuan"]

  /** The voice table: short name to Edge voice name. */
  const Voices: map<string, string> := map[
    "xiaoyou" := "zh-CN-XiaoyouNeural",
    "xiaoyi" := "zh-CN-XiaoyiNeural",
    "yunjian" := "zh-CN-YunjianNeural",
    "yunxi" := "zh-CN-YunxiNeural",
    "yunxia" := "zh-CN-YunxiaNeural",
    "yunyang" := "zh-CN-YunyangNeural",
    "xiaoxiao" := "zh-CN-XiaoxiaoNeural",
    "xiaohan" := "zh-CN-XiaohanNeural",
    "xiaomo" := "zh-CN-XiaomoNeural",
    "xiaoxuan" := "zh-CN-XiaoxuanNeural"]

  /** The ordered names are exactly the table's keys, each once, and every
      short name is already lower case. */
  lemma VoiceTableShape()
    ensures |VoiceNames| == 10 && |Voices| == 10
    ensures forall k :: k in Voices <==> k in VoiceNames
    ensures forall i, j :: 0 <= i < j < |VoiceNames| ==> VoiceNames[i] != VoiceNames[j]
    ensures forall k :: k in Voices ==> Lower(k) == k
  {
    VoiceNamesLower();
    VoiceNamesDistinct();
    assert Voices.Keys == set k | k in VoiceNames;
    DistinctCard(VoiceNames);
  }

  lemma VoiceNamesLower()
    ensures forall k :: k in Voices ==> Lower(k) == k
  {
  }

  /** Length, first and last letter tell the short names apart. */
  lemma VoiceNamesDistinct()
    ensures forall i, j :: 0 <= i < j < |VoiceNames| ==> VoiceNames[i] != VoiceNames[j]
  {
    forall i, j | 0 <= i < j < |VoiceNames| ensures VoiceNames[i] != VoiceNames[j] {
      assert Signature(VoiceNames[i]) != Signature(VoiceNames[j]);
    }
  }

  function Signature(s: string): (int, char, char)
    requires s != []
  {
    (|s|, s[0], s[|s| - 1])
  }

  /** A list without repetitions has as many members as elements. */
  lemma {:induction false} DistinctCard(s: seq<string>)
    requires forall i, j :: 0 <= i < j < |s| ==> s[i] != s[j]
    ensures |set k | k in s| == |s|
  {
    if s != [] {
      var t := s[..|s| - 1];
      DistinctCard(t);
      assert (set k | k in s) == (set k | k in t) + {s[|s| - 1]};
      assert s[|s| - 1] !in t by {
        forall i | 0 <= i < |t| ensures t[i] != s[|s| - 1] {
          assert t[i] == s[i];
        }
      }
    }
  }

  /** `str(list_of_names)`: the names quoted and separated by ", ". */
  function QuotedList(names: seq<string>): string {
    "[" + QuotedItems(names) + "]"
  }

  function QuotedItems(names: seq<string>): string {
    if names == [] then ""
    else if |names| == 1 then "'" + names[0] + "'"
    else "'" + names[0] + "', " + QuotedItems(names[1..])
  }

  /** The voice `set_voice_by_name` picks: the lower-cased name looked up
      in the table. */
  function LookupVoice(name: string): (r: Option<string>)
    ensures r.Some? <==> Lower(name) in VoiceNames
    ensures r.Some? ==> r.value == Voices[Lower(name)] && r.value in Voices.Values
  {
    VoiceTableShape();
    if Lower(name) in Voices then Some(Voices[Lower(name)]) else None
  }

  /** The lookup ignores the case of the name. */
  lemma LookupVoiceCaseInsensitive(name: string)
    ensures LookupVoice(name) == LookupVoice(Lower(name))
  {
    LowerTwice(name);
  }

  lemma LowerTwice(s: string)
    ensures Lower(Lower(s)) == Lower(s)
  {
    assert forall i :: 0 <= i < |s| ==> Lower(Lower(s))[i] == Lower(s)[i];
  }

  /** Every short name of the table reaches its own voice, in any case. */
  lemma LookupVoiceFindsTable(name: string)
    requires name in VoiceNames
    ensures LookupVoice(name) == Some(Voices[name])
  {
    VoiceTableShape();
  }

  /** Python truthiness of an optional string: `x if x else current`. */
  function Pick(arg: Option<string>, current: string): (r: string)
    ensures arg.Some? && arg.value != "" ==> r == arg.value
    ensures arg.None? || arg.value == "" ==> r == current
  {
    if arg.Some? && arg.value != "" then arg.value else current
  }

  /** `f"tts_output_{int(time.time())}.mp3"`. */
  function TimestampName(timestamp: nat): string {
    "tts_output_" + IntToString(timestamp) + ".mp3"
  }

  predicate HasAudioExtension(name: string) {
    EndsWith(name, ".mp3") || EndsWith(name, ".wav")
  }

  /** The file name after the extension step of `text_to_speech`. */
  function WithExtension(name: string): (r: string)
    ensures HasAudioExtension(r)
    ensures r == name <==> HasAudioExtension(name)
    ensures r != name ==> r == name + ".mp3"
  {
    if HasAudioExtension(name) then name
    else EndsWithAppend(name, ".mp3"); name + ".mp3"
  }

  /** The file name `text_to_speech` settles on. */
  function NormalizeFilename(filename: Option<string>, timestamp: nat): string {
    WithExtension(if filename.Some? then filename.value else TimestampName(timestamp))
  }

  /** The name always ends in ".mp3" or ".wav", a generated name is the
      timestamped one, and normalising a normalised name changes nothing. */
  lemma NormalizeFilenameProperties(filename: Option<string>, timestamp: nat, later: nat)
    ensures HasAudioExtension(NormalizeFilename(filename, timestamp))
    ensures filename.None? ==> NormalizeFilename(filename, timestamp) == TimestampName(timestamp)
    ensures NormalizeFilename(Some(NormalizeFilename(filename, timestamp)), later) == NormalizeFilename(filename, timestamp)
  {
    if filename.None? {
      var t := "tts_output_" + IntToString(timestamp);
      assert TimestampName(timestamp) == t + ".mp3";
      EndsWithAppend(t, ".mp3");
    }
  }

  /** A name with a '/' or '\' is a path of its own. */
  predicate HasSeparator(name: string) {
    '/' in name || '\\' in name
  }

  /** Where the audio is written. */
  function TargetPath(name: string): Path {
    if HasSeparator(name) then name else Join(OutputDir, name)
  }

  /** The directory made before synthesis: the path's parent, or the
      output directory. */
  function TargetDir(name: string): Path {
    if HasSeparator(name) then Dirname(name) else OutputDir
  }

  /** A plain name lands directly in the output directory under its own
      name; the directory made is the one the file lies in. */
  lemma PlainNamePlacement(name: string)
    requires !HasSeparator(name)
    ensures TargetPath(name) == OutputDir + "/" + name
    ensures Dirname(TargetPath(name)) == TargetDir(name) == OutputDir
    ensures Basename(TargetPath(name)) == name
  {
    DirnameOfChild(OutputDir, name);
  }

  /** A path given by the caller is used as it is. */
  lemma SeparatedNamePlacement(name: string)
    requires HasSeparator(name)
    ensures TargetPath(name) == name && TargetDir(name) == Dirname(name)
  {
  }

  /** `Path(d).mkdir(parents=True, exist_ok=True)`, where "" is the
      parent of a name with no '/' and stands for the working directory. */
  function PrepareDirs(files: map<Path, Bytes>, dirs: set<Path>, d: Path): (r: Result<set<Path>, FsError>)
    ensures d == "" ==> r == Ok(dirs)
    ensures r.Err? <==> d != "" && d in files
    ensures r.Ok? && d != "" ==> r.value == dirs + {d}
  {
    if d == "" then Ok(dirs) else MakeDirsResult(files, dirs, d)
  }

  /** `str(e)` of the OSError `mkdir` raises. */
  function OsErrorText(e: FsError): string {
    match e
    case NoSuchFile(p) => "[Errno 2] No such file or directory: '" + p + "'"
    case FileExists(p) => "[Errno 17] File exists: '" + p + "'"
  }

  /** What the synthesizer is asked to say, and with which voice. */
  datatype SpeechRequest = SpeechRequest(text: string, voice: string, rate: string, volume: string)

  /** The synthesizer's outcome: the audio saved to the path, or a
      failure after which a partial file may be left behind. */
  datatype Speech = Saved(audio: Bytes) | NotSaved(partial: Option<Bytes>)

  /** The network synthesis `_generate_speech_async` performs, as an
      oracle. */
  type Synthesizer = (SpeechRequest, Path) -> Speech

  /** The files after the synthesizer ran. */
  function AfterSynthesis(files: map<Path, Bytes>, path: Path, s: Speech): map<Path, Bytes> {
    match s
    case Saved(audio) => files[path := audio]
    case NotSaved(None) => files
    case NotSaved(Some(partial)) => files[path := partial]
  }

  /** The output-path step of `text_to_speech`: a name with a separator is
      the path and its parent is made (unless it has none); any other name
      goes into the output directory, which is made. */
  method PlaceOutput(fs: FileSystem, name: string) returns (path: Path, made: Result<(), FsError>)
    modifies fs
    ensures path == TargetPath(name)
    ensures var m := PrepareDirs(old(fs.files), old(fs.dirs), TargetDir(name));
      && (made.Ok? <==> m.Ok?)
      && (m.Ok? ==> fs.dirs == m.value)
      && (m.Err? ==> made.error == m.error && fs.dirs == old(fs.dirs))
    ensures fs.files == old(fs.files) && fs.runs == old(fs.runs)
  {
    if HasSeparator(name) {
      path := name;
      var parent := Dirname(name);
      made := Ok(());
      if parent != "" {
        made := fs.MakeDirs(parent);
      }
    } else {
      made := fs.MakeDirs(OutputDir);
      path := Join(OutputDir, name);
    }
  }

  /** The configuration `get_tts_info()` reports. */
  datatype TtsInfo = TtsInfo(voice: string, rate: string, volume: string, outputDir: Path, availableChineseVoices: int)

  class EdgeTts {
    var voice: string
    var rate: string
    var volume: string

    /** `EdgeTTS(voice, rate, volume)`; nothing is created on disk. */
    constructor (voice0: string := DefaultVoice, rate0: string := DefaultRate,
                 volume0: string := DefaultVolume)
      ensures voice == voice0 && rate == rate0 && volume == volume0
    {
      voice, rate, volume := voice0, rate0, volume0;
    }

    /** `text_to_speech(text, filename, voice, rate, volume)`, with the
        clock's reading as `timestamp`. The per-call voice, rate and volume
        replace the instance's while the synthesizer runs and are restored
        on every exit path. */
    method TextToSpeech(fs: FileSystem, synth: Synthesizer, text: string, filename: Option<string> := None,
                        voiceArg: Option<string> := None, rateArg: Option<string> := None,
                        volumeArg: Option<string> := None, timestamp: nat)
      returns (r: Result<Path, string>)
      modifies this, fs
      ensures voice == old(voice) && rate == old(rate) && volume == old(volume)
      ensures r.Err? ==> |Failure| <= |r.error| && r.error[..|Failure|] == Failure
      ensures IsBlank(text) ==>
        && r == Err(Failure + EmptyTextMessage)
        && fs.files == old(fs.files) && fs.dirs == old(fs.dirs)
      ensures !IsBlank(text) ==>
        var name := NormalizeFilename(filename, timestamp);
        var m := PrepareDirs(old(fs.files), old(fs.dirs), TargetDir(name));
        && (m.Err? ==>
              r == Err(Failure + OsErrorText(m.error)) && fs.files == old(fs.files) && fs.dirs == old(fs.dirs))
        && (m.Ok? ==>
              var req := SpeechRequest(text, Pick(voiceArg, old(voice)), Pick(rateArg, old(rate)), Pick(volumeArg, old(volume)));
              var s := synth(req, TargetPath(name));
              && fs.files == AfterSynthesis(old(fs.files), TargetPath(name), s)
              && fs.dirs == m.value
              && r == (if s.Saved? then Ok(TargetPath(name)) else Err(Failure + NotGeneratedMessage)))
      ensures fs.runs == old(fs.runs)
    {
      if IsBlank(text) {
        return Err(Failure + EmptyTextMessage);
      }
      var name := NormalizeFilename(filename, timestamp);
      var outputPath, made := PlaceOutput(fs, name);
      if made.Err? {
        return Err(Failure + OsErrorText(made.error));
      }
      var currentVoice := Pick(voiceArg, voice);
      var currentRate := Pick(rateArg, rate);
      var currentVolume := Pick(volumeArg, volume);
      var originalVoice, originalRate, originalVolume := voice, rate, volume;
      voice, rate, volume := currentVoice, currentRate, currentVolume;
      var s := synth(SpeechRequest(text, voice, rate, volume), outputPath);
      match s {
        case Saved(audio) => fs.WriteFile(outputPath, audio);
        case NotSaved(None) =>
        case NotSaved(Some(partial)) => fs.WriteFile(outputPath, partial);
      }
      if s.Saved? && fs.Exists(outputPath) {
        r := Ok(outputPath);
      } else {
        r := Err(Failure + NotGeneratedMessage);
      }
      voice, rate, volume := originalVoice, originalRate, originalVolume;
    }

    /** `set_voice(voice)`. */
    method SetVoice(v: string)
      modifies this
      ensures voice == v && rate == old(rate) && volume == old(volume)
    {
      voice := v;
    }

    /** `set_voice_by_name(name)`: an unknown name raises ValueError naming
        the choices and leaves the voice alone. */
    method SetVoiceByName(name: string) returns (r: Result<(), string>)
      modifies this
      ensures LookupVoice(name).Some? ==> r == Ok(()) && voice == LookupVoice(name).value
      ensures LookupVoice(name).None? ==>
        && r == Err(UnknownVoiceMessage + name + "。可用选项: " + QuotedList(VoiceNames))
        && voice == old(voice)
      ensures rate == old(rate) && volume == old(volume)
    {
      var key := Lower(name);
      if key in Voices {
        voice := Voices[key];
        r := Ok(());
      } else {
        r := Err(UnknownVoiceMessage + name + "。可用选项: " + QuotedList(VoiceNames));
      }
    }

    /** `set_speech_params(rate, volume)`: only a non-empty argument
        replaces its setting. */
    method SetSpeechParams(rateArg: Option<string> := None, volumeArg: Option<string> := None)
      modifies this
      ensures rate == Pick(rateArg, old(rate)) && volume == Pick(volumeArg, old(volume))
      ensures voice == old(voice)
    {
      if rateArg.Some? && rateArg.value != "" {
        rate := rateArg.value;
      }
      if volumeArg.Some? && volumeArg.value != "" {
        volume := volumeArg.value;
      }
    }

    /** `get_available_voices()`: a copy of the table. Dafny maps are
        values, so what the caller does with it cannot reach the instance. */
    function AvailableVoices(): (m: map<string, string>)
      ensures m.Keys == set k | k in VoiceNames
      ensures |m| == 10
      ensures forall k :: k in m ==> m[k] == Voices[k]
    {
      VoiceTableShape();
      Voices
    }

    /** `get_tts_info()`. */
    function Info(): (info: TtsInfo)
      reads this
      ensures info.voice == voice && info.rate == rate && info.volume == volume
      ensures info.outputDir == OutputDir && info.availableChineseVoices == 10
    {
      VoiceTableShape();
      TtsInfo(voice, rate, volume, OutputDir, |Voices|)
    }
  }

  /** The class variable `_instance` behind `get_instance`. */
  class TtsRegistry {
    var instance: Option<EdgeTts>

    constructor ()
      ensures instance == None
    {
      instance := None;
    }

    /** `EdgeTTS.get_instance(voice, rate, volume)`: the first call creates
        the instance (a missing voice becomes the default one); every later
        call returns that same instance and ignores its arguments. */
    method GetInstance(voice: Option<string> := None, rate: string := DefaultRate,
                       volume: string := DefaultVolume) returns (t: EdgeTts)
      modifies this
      ensures instance == Some(t)
      ensures old(instance).Some? ==> t == old(instance).value
      ensures old(instance).None? ==>
        && fresh(t)
        && t.voice == (if voice.Some? then voice.value else DefaultVoice)
        && t.rate == rate && t.volume == volume
    {
      if instance.None? {
        var v := if voice.None? then DefaultVoice else voice.value;
        var created := new EdgeTts(v, rate, volume);
        instance := Some(created);
      }
      t := instance.value;
    }
  }
}
