/** The configuration resolver and the two preset catalogs of
    ai_core/audio/audio.py: numeric audio parameters and per-preset codec
    parameters read from the environment, falling back to fixed defaults. */
module AudioConfig {
  import opened Results
  import opened Strings
  import opened Fs

  type Env = map<string, string>

  /** The exceptions the audio processors raise. */
  datatype AudioError =
    | InvalidInteger(literal: string)              // ValueError from int()
    | UnknownPreset(name: string, valid: seq<string>) // ValueError listing the catalog's keys
    | InvalidOutputFormat(format: string)          // ValueError for an unsupported output shape
    | EngineFailed(message: string)                // RuntimeError carrying the engine's stderr
    | EngineNotFound                               // the engine executable could not be started
    | InputNotFound(path: string)                  // the input audio file is missing
    | FileSystemError(cause: FsError)              // an OSError from the filesystem

  datatype AudioFormat = AudioFormat(sampleRate: int, channels: int, bitDepth: int)

  datatype DownlinkPreset = DownlinkPreset(format: AudioFormat, bitrate: string, frameDuration: string, desc: string)

  datatype UplinkPreset = UplinkPreset(format: AudioFormat, container: string, desc: string)

  /** `os.getenv(key, default)`. */
  function GetEnv(env: Env, key: string, default: string): (v: string)
    ensures key in env ==> v == env[key]
    ensures key !in env ==> v == default
  {
    if key in env then env[key] else default
  }

  /** `int(os.getenv(key, default))`. */
  function IntSetting(env: Env, key: string, default: string): (r: Result<int, AudioError>)
    ensures r.Ok? <==> ParseInt(GetEnv(env, key, default)).Some?
    ensures r.Ok? ==> r.value == ParseInt(GetEnv(env, key, default)).value
    ensures r.Err? ==> r.error == InvalidInteger(GetEnv(env, key, default))
  {
    var v := GetEnv(env, key, default);
    match ParseInt(v)
    case Some(n) => Ok(n)
    case None => Err(InvalidInteger(v))
  }

  /** `_get_audio_config()`: sample rate, channels and bit depth, in that order;
      the first setting that is not an integer raises. */
  function GetAudioConfig(env: Env): Result<AudioFormat, AudioError> {
    var sampleRate :- IntSetting(env, "AUDIO_SAMPLE_RATE", "16000");
    var channels :- IntSetting(env, "AUDIO_CHANNELS", "2");
    var bitDepth :- IntSetting(env, "AUDIO_BIT_DEPTH", "16");
    Ok(AudioFormat(sampleRate, channels, bitDepth))
  }

  const DownlinkPresetNames: seq<string> := ["ultra_low_latency", "low_latency", "balanced", "high_quality"]
  const UplinkPresetNames: seq<string> := ["whisper", "general", "high_quality"]

  /** `_get_downlink_bitrates()`. */
  function GetDownlinkBitrates(env: Env): map<string, string> {
    map[
      "ultra_low_latency" := GetEnv(env, "DOWNLINK_ULTRA_LOW_LATENCY_BITRATE", "64") + "k",
      "low_latency" := GetEnv(env, "DOWNLINK_LOW_LATENCY_BITRATE", "96") + "k",
      "balanced" := GetEnv(env, "DOWNLINK_BALANCED_BITRATE", "128") + "k",
      "high_quality" := GetEnv(env, "DOWNLINK_HIGH_QUALITY_BITRATE", "192") + "k"
    ]
  }

  /** `_get_downlink_frame_durations()`. */
  function GetDownlinkFrameDurations(env: Env): map<string, string> {
    map[
      "ultra_low_latency" := GetEnv(env, "DOWNLINK_ULTRA_LOW_LATENCY_FRAME_DURATION", "2.5"),
      "low_latency" := GetEnv(env, "DOWNLINK_LOW_LATENCY_FRAME_DURATION", "5"),
      "balanced" := GetEnv(env, "DOWNLINK_BALANCED_FRAME_DURATION", "20"),
      "high_quality" := GetEnv(env, "DOWNLINK_HIGH_QUALITY_FRAME_DURATION", "40")
    ]
  }

  /** Per downlink preset: the environment variables that override its
      bitrate (the digits before "k") and its frame duration, their defaults,
      and its description. */
  function BitrateKey(name: string): string {
    match name
    case "ultra_low_latency" => "DOWNLINK_ULTRA_LOW_LATENCY_BITRATE"
    case "low_latency" => "DOWNLINK_LOW_LATENCY_BITRATE"
    case "balanced" => "DOWNLINK_BALANCED_BITRATE"
    case _ => "DOWNLINK_HIGH_QUALITY_BITRATE"
  }

  function DefaultBitrate(name: string): string {
    match name
    case "ultra_low_latency" => "64"
    case "low_latency" => "96"
    case "balanced" => "128"
    case _ => "192"
  }

  function FrameDurationKey(name: string): string {
    match name
    case "ultra_low_latency" => "DOWNLINK_ULTRA_LOW_LATENCY_FRAME_DURATION"
    case "low_latency" => "DOWNLINK_LOW_LATENCY_FRAME_DURATION"
    case "balanced" => "DOWNLINK_BALANCED_FRAME_DURATION"
    case _ => "DOWNLINK_HIGH_QUALITY_FRAME_DURATION"
  }

  function DefaultFrameDuration(name: string): string {
    match name
    case "ultra_low_latency" => "2.5"
    case "low_latency" => "5"
    case "balanced" => "20"
    case _ => "40"
  }

  function DownlinkDescription(name: string): string {
    match name
    case "ultra_low_latency" => "极低延迟 - 实时对讲"
    case "low_latency" => "低延迟 - 语音助手"
    case "balanced" => "平衡质量和延迟"
    case _ => "高质量语音"
  }

  function UplinkDescription(name: string): string {
    match name
    case "whisper" => "Whisper ASR优化"
    case "general" => "通用ASR格式"
    case _ => "高质量ASR"
  }

  /** `DownlinkProcessor._get_presets()`. */
  function GetDownlinkPresets(env: Env): Result<map<string, DownlinkPreset>, AudioError> {
    var audio :- GetAudioConfig(env);
    var bitrates := GetDownlinkBitrates(env);
    var frames := GetDownlinkFrameDurations(env);
    Ok(map[
      "ultra_low_latency" := DownlinkPreset(audio, bitrates["ultra_low_latency"], frames["ultra_low_latency"], "极低延迟 - 实时对讲"),
      "low_latency" := DownlinkPreset(audio, bitrates["low_latency"], frames["low_latency"], "低延迟 - 语音助手"),
      "balanced" := DownlinkPreset(audio, bitrates["balanced"], frames["balanced"], "平衡质量和延迟"),
      "high_quality" := DownlinkPreset(audio, bitrates["high_quality"], frames["high_quality"], "高质量语音")
    ])
  }

  /** `UplinkProcessor._get_presets()`. */
  function GetUplinkPresets(env: Env): Result<map<string, UplinkPreset>, AudioError> {
    var audio :- GetAudioConfig(env);
    Ok(map[
      "whisper" := UplinkPreset(audio, "wav", "Whisper ASR优化"),
      "general" := UplinkPreset(audio, "wav", "通用ASR格式"),
      "high_quality" := UplinkPreset(audio, "wav", "高质量ASR")
    ])
  }

  /** The catalog entry of each downlink preset, field by field. */
  lemma DownlinkEntry(env: Env, name: string)
    requires GetAudioConfig(env).Ok?
    ensures var presets := GetDownlinkPresets(env).value;
      (name in presets <==> name in DownlinkPresetNames)
      && (name in presets ==>
            presets[name] == DownlinkPreset(GetAudioConfig(env).value,
                                            GetEnv(env, BitrateKey(name), DefaultBitrate(name)) + "k",
                                            GetEnv(env, FrameDurationKey(name), DefaultFrameDuration(name)),
                                            DownlinkDescription(name)))
  {
    DownlinkKeys(env);
    if name in DownlinkPresetNames {
      DownlinkValue(env, name);
      DownlinkBitrateEntry(env, name);
      DownlinkFrameEntry(env, name);
    }
  }

  /** The downlink catalog names exactly the four presets. */
  lemma DownlinkKeys(env: Env)
    requires GetAudioConfig(env).Ok?
    ensures forall n :: n in GetDownlinkPresets(env).value <==> n in DownlinkPresetNames
  {
    var presets := GetDownlinkPresets(env).value;
    assert presets.Keys == {"ultra_low_latency", "low_latency", "balanced", "high_quality"};
  }

  /** Each downlink catalog entry is built from the two tables' entries. */
  lemma DownlinkValue(env: Env, name: string)
    requires GetAudioConfig(env).Ok? && name in DownlinkPresetNames
    ensures name in GetDownlinkPresets(env).value && name in GetDownlinkBitrates(env) && name in GetDownlinkFrameDurations(env)
    ensures GetDownlinkPresets(env).value[name]
      == DownlinkPreset(GetAudioConfig(env).value, GetDownlinkBitrates(env)[name],
                        GetDownlinkFrameDurations(env)[name], DownlinkDescription(name))
  {
    var presets := GetDownlinkPresets(env).value;
    var audio := GetAudioConfig(env).value;
    var bitrates := GetDownlinkBitrates(env);
    var frames := GetDownlinkFrameDurations(env);
    if name == "ultra_low_latency" {
      assert presets["ultra_low_latency"]
        == DownlinkPreset(audio, bitrates["ultra_low_latency"], frames["ultra_low_latency"], "极低延迟 - 实时对讲");
    } else if name == "low_latency" {
      assert presets["low_latency"] == DownlinkPreset(audio, bitrates["low_latency"], frames["low_latency"], "低延迟 - 语音助手");
    } else if name == "balanced" {
      assert presets["balanced"] == DownlinkPreset(audio, bitrates["balanced"], frames["balanced"], "平衡质量和延迟");
    } else {
      assert name == "high_quality";
      assert presets["high_quality"] == DownlinkPreset(audio, bitrates["high_quality"], frames["high_quality"], "高质量语音");
    }
  }

  /** The bitrate table's entry for each downlink preset. */
  lemma DownlinkBitrateEntry(env: Env, name: string)
    requires name in DownlinkPresetNames
    ensures name in GetDownlinkBitrates(env)
    ensures GetDownlinkBitrates(env)[name] == GetEnv(env, BitrateKey(name), DefaultBitrate(name)) + "k"
  {
    var bitrates := GetDownlinkBitrates(env);
    if name == "ultra_low_latency" {
      assert bitrates["ultra_low_latency"] == GetEnv(env, "DOWNLINK_ULTRA_LOW_LATENCY_BITRATE", "64") + "k";
    } else if name == "low_latency" {
      assert bitrates["low_latency"] == GetEnv(env, "DOWNLINK_LOW_LATENCY_BITRATE", "96") + "k";
    } else if name == "balanced" {
      assert bitrates["balanced"] == GetEnv(env, "DOWNLINK_BALANCED_BITRATE", "128") + "k";
    } else {
      assert name == "high_quality";
      assert bitrates["high_quality"] == GetEnv(env, "DOWNLINK_HIGH_QUALITY_BITRATE", "192") + "k";
    }
  }


  /** The frame-duration table's entry for each downlink preset. */
  lemma DownlinkFrameEntry(env: Env, name: string)
    requires name in DownlinkPresetNames
    ensures name in GetDownlinkFrameDurations(env)
    ensures GetDownlinkFrameDurations(env)[name] == GetEnv(env, FrameDurationKey(name), DefaultFrameDuration(name))
  {
    var frames := GetDownlinkFrameDurations(env);
    if name == "ultra_low_latency" {
      assert frames["ultra_low_latency"] == GetEnv(env, "DOWNLINK_ULTRA_LOW_LATENCY_FRAME_DURATION", "2.5");
    } else if name == "low_latency" {
      assert frames["low_latency"] == GetEnv(env, "DOWNLINK_LOW_LATENCY_FRAME_DURATION", "5");
    } else if name == "balanced" {
      assert frames["balanced"] == GetEnv(env, "DOWNLINK_BALANCED_FRAME_DURATION", "20");
    } else {
      assert name == "high_quality";
      assert frames["high_quality"] == GetEnv(env, "DOWNLINK_HIGH_QUALITY_FRAME_DURATION", "40");
    }
  }


  /** The catalog entry of each uplink preset. */
  lemma UplinkEntry(env: Env, name: string)
    requires GetAudioConfig(env).Ok?
    ensures var presets := GetUplinkPresets(env).value;
      (name in presets <==> name in UplinkPresetNames)
      && (name in presets ==> presets[name] == UplinkPreset(GetAudioConfig(env).value, "wav", UplinkDescription(name)))
  {
    var presets := GetUplinkPresets(env).value;
    assert presets.Keys == {"whisper", "general", "high_quality"};
    if name == "whisper" {
    } else if name == "general" {
    } else if name == "high_quality" {
    }
  }

  /** The validation and lookup at the start of `DownlinkProcessor.__init__`:
      the catalog is built first (so a malformed integer setting raises
      first), then the name must be one of its keys. */
  function ResolveDownlink(env: Env, name: string): (r: Result<DownlinkPreset, AudioError>)
    ensures GetAudioConfig(env).Err? ==> r == Err(GetAudioConfig(env).error)
    ensures GetAudioConfig(env).Ok? ==> (r.Err? <==> name !in DownlinkPresetNames)
    ensures GetAudioConfig(env).Ok? && r.Err? ==> r.error == UnknownPreset(name, DownlinkPresetNames)
    ensures r.Ok? ==>
      && name in DownlinkPresetNames
      && r.value.format == GetAudioConfig(env).value
      && r.value.bitrate == GetEnv(env, BitrateKey(name), DefaultBitrate(name)) + "k"
      && r.value.frameDuration == GetEnv(env, FrameDurationKey(name), DefaultFrameDuration(name))
      && r.value.desc == DownlinkDescription(name)
  {
    var presets :- GetDownlinkPresets(env);
    DownlinkEntry(env, name);
    if name !in presets then Err(UnknownPreset(name, DownlinkPresetNames)) else Ok(presets[name])
  }

  /** The same for `UplinkProcessor.__init__`. */
  function ResolveUplink(env: Env, name: string): (r: Result<UplinkPreset, AudioError>)
    ensures GetAudioConfig(env).Err? ==> r == Err(GetAudioConfig(env).error)
    ensures GetAudioConfig(env).Ok? ==> (r.Err? <==> name !in UplinkPresetNames)
    ensures GetAudioConfig(env).Ok? && r.Err? ==> r.error == UnknownPreset(name, UplinkPresetNames)
    ensures r.Ok? ==>
      && name in UplinkPresetNames
      && r.value == UplinkPreset(GetAudioConfig(env).value, "wav", UplinkDescription(name))
  {
    var presets :- GetUplinkPresets(env);
    UplinkEntry(env, name);
    if name !in presets then Err(UnknownPreset(name, UplinkPresetNames)) else Ok(presets[name])
  }

  /** `DownlinkProcessor.get_all_presets()`: every preset name with its description. */
  function DownlinkPresetDescriptions(env: Env): (r: Result<map<string, string>, AudioError>)
    ensures r.Err? <==> GetAudioConfig(env).Err?
    ensures r.Ok? ==> r.value.Keys == set n | n in DownlinkPresetNames
    ensures r.Ok? ==> forall n :: n in r.value ==> r.value[n] == DownlinkDescription(n)
  {
    var presets :- GetDownlinkPresets(env);
    var descs := map name | name in presets :: presets[name].desc;
    DownlinkKeys(env);
    assert forall n :: n in descs ==> descs[n] == DownlinkDescription(n) by {
      forall n | n in descs ensures descs[n] == DownlinkDescription(n) { DownlinkValue(env, n); }
    }
    assert descs.Keys == set n | n in DownlinkPresetNames;
    Ok(descs)
  }

  /** `UplinkProcessor.get_all_presets()`. */
  function UplinkPresetDescriptions(env: Env): (r: Result<map<string, string>, AudioError>)
    ensures r.Err? <==> GetAudioConfig(env).Err?
    ensures r.Ok? ==> r.value.Keys == set n | n in UplinkPresetNames
    ensures r.Ok? ==> forall n :: n in r.value ==> r.value[n] == UplinkDescription(n)
  {
    var presets :- GetUplinkPresets(env);
    var descs := map name | name in presets :: presets[name].desc;
    assert forall n :: n in descs ==> descs[n] == UplinkDescription(n) by {
      forall n | n in descs ensures descs[n] == UplinkDescription(n) { UplinkEntry(env, n); }
    }
    assert descs.Keys == set n | n in UplinkPresetNames by {
      forall n ensures n in descs <==> n in UplinkPresetNames { UplinkEntry(env, n); }
    }
    Ok(descs)
  }

  /** With no overrides: 16000 Hz, 2 channels, 16 bits. */
  lemma DefaultAudioConfig()
    ensures GetAudioConfig(map[]) == Ok(AudioFormat(16000, 2, 16))
  {
    ParseIntToString(16000);
    ParseIntToString(2);
    ParseIntToString(16);
    assert IntToString(16000) == "16000";
  }

  /** With no overrides the bitrates are 64k/96k/128k/192k and the frame
      durations 2.5/5/20/40 ms. */
  lemma DefaultDownlinkParameters()
    ensures var b := GetDownlinkBitrates(map[]);
      b["ultra_low_latency"] == "64k" && b["low_latency"] == "96k" && b["balanced"] == "128k" && b["high_quality"] == "192k"
    ensures var f := GetDownlinkFrameDurations(map[]);
      f["ultra_low_latency"] == "2.5" && f["low_latency"] == "5" && f["balanced"] == "20" && f["high_quality"] == "40"
  {
  }

  /** A bitrate is the override with "k" appended, or the default. */
  lemma BitrateFromEnv(env: Env, name: string)
    requires GetAudioConfig(env).Ok? && name in DownlinkPresetNames
    ensures var b := ResolveDownlink(env, name).value.bitrate;
      && EndsWith(b, "k")
      && (BitrateKey(name) in env ==> b == env[BitrateKey(name)] + "k")
      && (BitrateKey(name) !in env ==> b == DefaultBitrate(name) + "k")
  {
    EndsWithAppend(GetEnv(env, BitrateKey(name), DefaultBitrate(name)), "k");
  }

  /** The three uplink presets differ only in their description. */
  lemma UplinkPresetsShareFormat(env: Env, p: string, q: string)
    requires GetAudioConfig(env).Ok?
    requires p in UplinkPresetNames && q in UplinkPresetNames
    ensures var a := ResolveUplink(env, p).value; var b := ResolveUplink(env, q).value;
      a.format == b.format && a.container == b.container == "wav"
  {
  }
}
