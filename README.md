# AI_Server audio, speech and chat core in Dafny

This project models the server side of a voice assistant. Three parts are
modelled:

- **Audio transcoding layer** (`ai_core/audio/audio.py`):
  - the environment-driven configuration and the preset catalogs;
  - the ffmpeg locator;
  - the downlink processor (audio file to Opus, as bytes, Base64 or a file);
  - the uplink processor (Opus bytes to WAV, as bytes, an audio segment or a file).
- **Edge TTS wrapper** (`ai_core/tts/edge.py`): file naming and placement, per-call voice overrides, the voice table and the shared instance.
- **ChatGLM wrapper** (`ai_core/llm/chatglm.py`): key check, message and request assembly, reply extraction, model info and the shared instance.

The external programs and services are oracles, passed in as parameters:

- the ffmpeg engine is `Ffmpeg.Engine`, from argv, files and existing directories to an outcome;
- the Edge synthesizer is `Tts.Synthesizer`;
- the Zhipu client is `ChatGlm.ChatApi`.

The filesystem is a `Fs.FileSystem` object:

- regular files are a `map` from path to bytes, and directories are a `set` of paths;
- a ghost log records the engine runs, so contracts can say that no engine was started;
- `tempfile` names are modelled as fresh paths nobody uses.

Environment variables are a `map<string, string>`. The clock reading `int(time.time())` is a `timestamp` parameter.

Modules:

| module | file | contents |
|---|---|---|
| Results | results.dfy | Option, Result |
| Strings | strings.dfy | `int()` / `str()` of integers, `endswith`, `lower`, `isspace` |
| Paths | paths.dfy | `posixpath.join`, `dirname`, `basename`, `splitext` |
| Fs | fs.dfy | the filesystem, `os.makedirs` |
| Base64 | base64.dfy | standard Base64 (section 4 of RFC 4648) and its decoder |
| AudioConfig | audio_config.dfy | `_get_audio_config`, bitrate and frame-duration maps, preset catalogs |
| Ffmpeg | ffmpeg.dfy | the engine oracle, both command lines, an argv reader as their partner |
| FfmpegLocator | locator.dfy | `find_ffmpeg_path`, `get_ffmpeg_executable` |
| Downlink | downlink.dfy | `DownlinkProcessor` |
| Uplink | uplink.dfy | `UplinkProcessor` |
| Tts | edge_tts.dfy | `EdgeTTS` |
| ChatGlm | chatglm.dfy | `ChatGLM` |

How the operations are shaped:

- Processor objects are classes whose preset fields are `const`. The command builders, `Info` and the byte-level specifications (`ToBytes`, `ToSegment`) are functions. Each operation that touches the filesystem is a method. The byte-returning ones (`ProcessToBytes`, `DecodeToBytes` and the modes built on them) follow the source's steps: create the scratch file, run the engine, read back, unlink in `finally`. `ProcessToFile` runs the engine straight into the caller's path. `DecodeToFile` does the same, with its scratch input removed afterwards.
- Each method's `ensures` ties its result and the new filesystem to a pure function of the old state (`ToBytes`, `ToBase64`, `ToSegment`, `AfterRun`).
- Lemmas about those functions state what the source promises:
  - the Base64 text decodes back to the bytes;
  - scratch files leave no trace;
  - each command line reads back as the preset's parameters.

## Model

| member | source | states |
|---|---|---|
| AudioConfig.GetAudioConfig | ai_core/audio/audio.py:27-38 | defines the audio format: sample rate, channels and bit depth, each read with `IntSetting` in that order, so the first malformed one is the error |
| AudioConfig.IntSetting | ai_core/audio/audio.py:35-37 | the setting is `int()` of the variable or of the default; a value `int()` refuses becomes an error naming it |
| AudioConfig.DefaultAudioConfig | ai_core/audio/audio.py:34-38 | with no variables set: 16000 Hz, 2 channels, 16 bits |
| AudioConfig.DefaultDownlinkParameters | ai_core/audio/audio.py:41-68 | with no variables set the bitrates are 64k/96k/128k/192k and the frame durations 2.5/5/20/40 |
| AudioConfig.GetDownlinkBitrates | ai_core/audio/audio.py:41-53 | defines the bitrate table: per preset, its variable or default followed by "k" |
| AudioConfig.GetDownlinkFrameDurations | ai_core/audio/audio.py:56-68 | defines the frame-duration table: per preset, its variable or default |
| AudioConfig.BitrateFromEnv | ai_core/audio/audio.py:48-53 | a preset's bitrate is its variable with "k" appended when set, else the default with "k" |
| AudioConfig.GetDownlinkPresets | ai_core/audio/audio.py:139-176 | defines the downlink catalog: the audio format first (its error is the catalog's), then the four named entries built from the two tables and their descriptions |
| AudioConfig.GetUplinkPresets | ai_core/audio/audio.py:384-409 | defines the uplink catalog: the audio format first, then three entries with container "wav" and their descriptions |
| AudioConfig.DownlinkBitrateEntry | ai_core/audio/audio.py:41-53 | each preset's bitrate is its variable's value, or its default, followed by "k" |
| AudioConfig.DownlinkFrameEntry | ai_core/audio/audio.py:56-68 | each preset's frame duration is its variable's value or its default |
| AudioConfig.DownlinkKeys | ai_core/audio/audio.py:151-176 | the downlink catalog has exactly the four preset names as keys |
| AudioConfig.DownlinkValue | ai_core/audio/audio.py:147-176 | each catalog entry carries the audio settings, the preset's entries of the bitrate and frame-duration tables, and its description |
| AudioConfig.DownlinkEntry | ai_core/audio/audio.py:139-176 | each downlink catalog entry holds the configured format, its bitrate, its frame duration and its description |
| AudioConfig.UplinkEntry | ai_core/audio/audio.py:384-410 | each uplink catalog entry holds the configured format, container "wav" and its description |
| AudioConfig.UplinkPresetsShareFormat | ai_core/audio/audio.py:393-409 | the three uplink presets agree on everything but the description |
| AudioConfig.ResolveDownlink | ai_core/audio/audio.py:196-207 | fails iff the name is not one of the four presets (error lists them) or the configuration fails; otherwise yields that preset's entry |
| AudioConfig.ResolveUplink | ai_core/audio/audio.py:433-443 | the same over the three uplink presets |
| AudioConfig.DownlinkPresetDescriptions | ai_core/audio/audio.py:213-217 | exactly the four preset names, each mapped to its description |
| AudioConfig.UplinkPresetDescriptions | ai_core/audio/audio.py:449-452 | exactly the three preset names, each mapped to its description |
| Base64.Encode | ai_core/audio/audio.py:335-336 | the text has 4·⌈n/3⌉ characters |
| Base64.DecodeEncode | ai_core/audio/audio.py:335-336 | decoding the Base64 text gives back the original bytes |
| Base64.DecodeSymbols | ai_core/audio/audio.py:335-336 | four alphabet symbols decode to the three bytes their sextets spell |
| Base64.DecodeEncodeGroup | ai_core/audio/audio.py:335-336 | a group of three bytes decodes back from its four symbols |
| Base64.DecodeThenRest | ai_core/audio/audio.py:335-336 | a full group followed by more text decodes to the group's bytes followed by the rest's |
| Base64.EncodeAlphabet | ai_core/audio/audio.py:335-336 | padding appears only in the last two positions |
| Paths.StemOfFileName | ai_core/audio/audio.py:364 | the stem of `dir/name.ext` is `name` |
| Ffmpeg.Run | ai_core/audio/audio.py:264 | the outcome is the engine's on the current files and directories; its output lands in the file named last on the command line; the run is logged |
| Ffmpeg.EngineError | ai_core/audio/audio.py:266-267 | a failed run's error carries the prefix followed by the engine's stderr |
| Ffmpeg.Checked | ai_core/audio/audio.py:263-267 | success iff the engine completed, with the given value; otherwise the engine error |
| Ffmpeg.CheckedOutput | ai_core/audio/audio.py:292-294 | success iff the engine completed, with the bytes it wrote |
| Ffmpeg.DropScratch | ai_core/audio/audio.py:287-301 | a scratch file created, run into and unlinked leaves the files as they were |
| Ffmpeg.DropInput | ai_core/audio/audio.py:484-507 | unlinking a scratch input after a run leaves exactly what the run wrote |
| Ffmpeg.EncodeArgs | ai_core/audio/audio.py:249-261 | defines the encode argument vector, element by element as in the source's list |
| Ffmpeg.DecodeArgs | ai_core/audio/audio.py:489-498 | defines the decode argument vector, element by element as in the source's list |
| Ffmpeg.ReadToArgv | ai_core/audio/audio.py:249-261 | reading a well-formed command line gives back the invocation it was built from |
| Ffmpeg.EncodeArgsMeaning | ai_core/audio/audio.py:249-261 | the encode command is program, input, libopus at the bitrate, frame duration, rate, channels, s16, voip, overwrite, output |
| Ffmpeg.DecodeArgsMeaning | ai_core/audio/audio.py:489-498 | the decode command is program, scratch input, rate, channels, pcm_s16le, container, overwrite, output |
| Ffmpeg.CommandNumbersReadBack | ai_core/audio/audio.py:255-256 | the sample rate and channel count on the command lines parse back to the configured numbers |
| FfmpegLocator.RenderJoin | ai_core/audio/audio.py:95 | joining a name onto a directory gives the child directory's path |
| FfmpegLocator.RenderDirname | ai_core/audio/audio.py:93 | `dirname` of a directory is its parent, and equals it only at the root, so the loop stops exactly at the root |
| FfmpegLocator.AncestorsAt | ai_core/audio/audio.py:93-100 | the i-th directory the walk visits is the module directory with i components dropped, so at least one component is always left and the root is never visited |
| FfmpegLocator.AncestorsLength | ai_core/audio/audio.py:93-100 | the walk visits one directory per component of the module directory |
| FfmpegLocator.BundledPaths | ai_core/audio/audio.py:96-97 | the bundled directory is `dir/ffmpeg/bin` and the engine is `ffmpeg.exe` in it |
| FfmpegLocator.FindMarker | ai_core/audio/audio.py:94-99 | the marker loop finds a marker iff one of "requirements.txt", "README.md", ".git" exists in the directory (`IsProjectRoot`); loop invariant: no marker before the current one |
| FfmpegLocator.CheckLevel | ai_core/audio/audio.py:94-99 | one level succeeds iff some marker file exists there and so does `ffmpeg/bin/ffmpeg.exe` |
| FfmpegLocator.FirstHitNone | ai_core/audio/audio.py:93-100 | the walk finds nothing iff no level qualifies |
| FfmpegLocator.FirstHitSome | ai_core/audio/audio.py:93-100 | a found level qualifies and no earlier level does |
| FfmpegLocator.FirstHitStep | ai_core/audio/audio.py:93-100 | a level that qualifies ends the walk there; one that does not passes it on to the next level |
| FfmpegLocator.WalkUp | ai_core/audio/audio.py:93-100 | over the visited directories, the loop returns `dir/ffmpeg/bin` for the first one that qualifies and none when none does, a marker level without the engine not stopping it |
| FfmpegLocator.WalkMeaning | ai_core/audio/audio.py:88-100 | the walk over the module directory's ancestors finds nothing exactly when no ancestor qualifies (`NoneQualifies`), and otherwise finds the first that does (`FirstQualifying`) |
| FfmpegLocator.FindFfmpegPath | ai_core/audio/audio.py:71-111 | a usable override wins; otherwise none exactly when no ancestor qualifies, and else the bundled directory of the nearest qualifying ancestor, no nearer one qualifying |
| FfmpegLocator.LocatedBare | ai_core/audio/audio.py:114-124 | a located command is the bare "ffmpeg" exactly when the override is unusable and no ancestor qualifies |
| FfmpegLocator.LocatedExists | ai_core/audio/audio.py:114-124 | a located command other than the bare name is an existing file ending in "ffmpeg.exe" |
| FfmpegLocator.GetFfmpegExecutable | ai_core/audio/audio.py:114-124 | the override's executable when the override is usable; otherwise `join(dir, "ffmpeg.exe")` for the bundled directory of the nearest qualifying ancestor, no nearer ancestor qualifying; the bare "ffmpeg" exactly when nothing qualifies; a non-bare command is an existing file (`LocatedEngine`) |
| Downlink.DefaultOutputPath | ai_core/audio/audio.py:363-364 | defines the default output `outputs/downlink_{preset}_{stem}.opus` |
| Downlink.DefaultOutputLocation | ai_core/audio/audio.py:363-366 | the default output file lies directly in "outputs" and is named after the preset and the input's stem |
| Downlink.DownlinkProcessor.constructor | ai_core/audio/audio.py:200-207 | the fields are the preset's entries |
| Downlink.NewDownlinkProcessor | ai_core/audio/audio.py:182-207 | fails iff the preset does not resolve; otherwise a new processor with that preset's parameters and the engine `get_ffmpeg_executable` locates (`LocatedEngine`: override, else nearest bundled engine, else the bare name); the preset defaults to "balanced" |
| Downlink.DownlinkProcessor.Info | ai_core/audio/audio.py:219-230 | the preset's name, description and the processor's parameters |
| Downlink.DownlinkProcessor.EncodeCommand | ai_core/audio/audio.py:249-261 | the command ends in the output and reads back as this preset's encode invocation |
| Downlink.DownlinkProcessor.Base64OfBytes | ai_core/audio/audio.py:325-338 | the Base64 mode fails iff the bytes mode does, with the same error, and its text decodes to those bytes |
| Downlink.DownlinkProcessor.ProcessAudioToOpus | ai_core/audio/audio.py:232-267 | without an output a fresh ".opus" name is used; the result and the new files are those of one engine run |
| Downlink.DownlinkProcessor.ProcessToBytes | ai_core/audio/audio.py:269-301 | a missing input fails before any run; otherwise the engine's output is read back and files and directories end as they began |
| Downlink.DownlinkProcessor.ProcessToFile | ai_core/audio/audio.py:303-323 | the output holds what the engine wrote, and exists on success |
| Downlink.DownlinkProcessor.ProcessToBase64 | ai_core/audio/audio.py:325-338 | the Base64 of the bytes result; files and directories unchanged |
| Downlink.DownlinkProcessor.ProcessAudio | ai_core/audio/audio.py:340-369 | "bytes" (the default)/"base64"/"file" dispatch; "bytes" and "base64" leave files and directories as they were and, for an existing input, run the engine once into a fresh ".opus" scratch file; "file" makes "outputs" and then runs the engine on the default path with that directory present; any other mode fails with nothing changed and no engine run |
| Uplink.DefaultOutputPath | ai_core/audio/audio.py:602-603 | defines the default output `outputs/uplink_{preset}_decoded.{format}` |
| Uplink.DefaultOutputLocation | ai_core/audio/audio.py:601-604 | the default decode file lies directly in "outputs" |
| Uplink.FileTargetDirsAsWritten | ai_core/audio/audio.py:605-607 | the directories after the `makedirs` call as written |
| Uplink.BareNameRefusedAsWritten | ai_core/audio/audio.py:605-607 | as written, a path with no directory part is refused |
| Uplink.FileTargetDirs | ai_core/audio/audio.py:600-607 | agrees with the call as written whenever the path has a directory part |
| Uplink.BareNameAccepted | ai_core/audio/audio.py:605-607 | corrected, a bare file name is accepted and creates nothing; as written it is refused |
| Uplink.FileTargetDirsExist | ai_core/audio/audio.py:600-607 | corrected, the target's directory exists afterwards; it fails iff a regular file stands there |
| Uplink.UplinkProcessor.constructor | ai_core/audio/audio.py:437-443 | the fields are the preset's entries |
| Uplink.NewUplinkProcessor | ai_core/audio/audio.py:416-443 | fails iff the preset does not resolve; otherwise a new processor with that preset's parameters, container "wav" and the engine `get_ffmpeg_executable` locates (`LocatedEngine`); the preset defaults to "general" |
| Uplink.UplinkProcessor.Info | ai_core/audio/audio.py:454-464 | the preset's name, description and the processor's parameters |
| Uplink.UplinkProcessor.DecodeCommand | ai_core/audio/audio.py:489-498 | the command ends in the output and reads back as this preset's decode invocation |
| Uplink.UplinkProcessor.SegmentOfBytes | ai_core/audio/audio.py:559-575 | the segment holds exactly the decoded bytes in the processor's container, and fails iff they do |
| Uplink.UplinkProcessor.DecodeOpusToAudio | ai_core/audio/audio.py:466-507 | the Opus bytes go to a fresh scratch file that is gone afterwards; the result and files are those of one engine run into the output |
| Uplink.UplinkProcessor.DecodeToBytes | ai_core/audio/audio.py:509-535 | the decoded bytes or the engine error; both scratch files gone, files and directories as they began |
| Uplink.UplinkProcessor.DecodeToFile | ai_core/audio/audio.py:537-557 | the output holds what the engine wrote, and exists on success |
| Uplink.UplinkProcessor.DecodeToAudioSegment | ai_core/audio/audio.py:559-575 | the segment of the decoded bytes; files and directories unchanged |
| Uplink.UplinkProcessor.DecodeOpus | ai_core/audio/audio.py:577-610 | "bytes" (the default)/"audiosegment"/"file" dispatch, the default path; "bytes" and "audiosegment" leave files and directories as they were and run the engine once from a fresh ".opus" scratch input into a distinct fresh target; in "file" mode the output's directory is made first, corrected by `FileTargetDirs` so that a bare name is accepted where the source raises (see Findings), and the engine runs with that directory present; any other mode fails with nothing changed |
| Tts.VoiceTableShape | ai_core/tts/edge.py:32-43 | ten distinct lower-case short names, listed in table order, exactly the table's keys |
| Tts.LookupVoice | ai_core/tts/edge.py:174-175 | a voice is found iff the lower-cased name is a short name, and it is that entry's voice |
| Tts.LookupVoiceCaseInsensitive | ai_core/tts/edge.py:174 | the lookup ignores the case of the name |
| Tts.LookupVoiceFindsTable | ai_core/tts/edge.py:174-175 | every short name finds its own voice |
| Tts.Pick | ai_core/tts/edge.py:136-138 | the argument when it is a non-empty string, else the current value |
| Tts.WithExtension | ai_core/tts/edge.py:121-122 | the name ends in ".mp3" or ".wav"; unchanged iff it did already, else ".mp3" appended |
| Tts.NormalizeFilename | ai_core/tts/edge.py:116-122 | defines the file name: the given one or `tts_output_{timestamp}.mp3`, then `WithExtension` |
| Tts.NormalizeFilenameProperties | ai_core/tts/edge.py:116-122 | a missing name becomes `tts_output_{timestamp}.mp3`; the result has an audio extension; normalising twice changes nothing |
| Tts.TargetPath | ai_core/tts/edge.py:126-133 | defines the output path: the name itself when it holds '/' or '\', else `outputs/tts/{name}` |
| Tts.TargetDir | ai_core/tts/edge.py:126-133 | defines the directory made: the name's parent when it holds a separator, else "outputs/tts" |
| Tts.PlainNamePlacement | ai_core/tts/edge.py:130-133 | a name without separator is written as `outputs/tts/{name}`, in the directory that is made |
| Tts.SeparatedNamePlacement | ai_core/tts/edge.py:126-129 | a name with '/' or '\' is the path itself, and its parent is made |
| Tts.PrepareDirs | ai_core/tts/edge.py:129 | making a parent adds it; it fails iff a regular file stands there; no parent part means no change |
| Tts.PlaceOutput | ai_core/tts/edge.py:126-133 | the path chosen and the directories made agree with `TargetPath` and `PrepareDirs` |
| Tts.EdgeTts.constructor | ai_core/tts/edge.py:15-29 | voice, rate and volume stored, by default "zh-CN-XiaoyiNeural", "+0%" and "+0%"; nothing is created on disk |
| Tts.EdgeTts.TextToSpeech | ai_core/tts/edge.py:88-166 | blank text fails first; then the directory, the per-call parameters, one synthesis, success iff the audio was saved; every error starts with "EdgeTTS 语音生成失败: "; voice, rate and volume restored on every path |
| Tts.EdgeTts.SetVoice | ai_core/tts/edge.py:168-170 | only the voice changes |
| Tts.EdgeTts.SetVoiceByName | ai_core/tts/edge.py:172-177 | a known name sets its voice; an unknown one fails with the list of options and changes nothing |
| Tts.EdgeTts.SetSpeechParams | ai_core/tts/edge.py:179-184 | only a non-empty argument replaces its setting; the voice is untouched |
| Tts.EdgeTts.AvailableVoices | ai_core/tts/edge.py:186-188 | the ten short names with their voices |
| Tts.EdgeTts.Info | ai_core/tts/edge.py:199-207 | the current voice, rate and volume, "outputs/tts" and a count of 10 |
| Tts.TtsRegistry.GetInstance | ai_core/tts/edge.py:45-62 | the first call creates the instance, with the default voice when none is given and rate and volume "+0%" by default; later calls return it and ignore their arguments |
| ChatGlm.RequestFor | ai_core/llm/chatglm.py:66-98 | system message first (the given one or the default), then the history in order, then the user message; as long as the history plus two; no streaming; temperature present iff given, max_tokens iff non-zero |
| ChatGlm.ReplyText | ai_core/llm/chatglm.py:104-113 | the first choice's content; "响应为空" for empty or `None`; `str(response)` without a choice or content |
| ChatGlm.ReplyTextNonEmpty | ai_core/llm/chatglm.py:110 | the reply is never empty unless the response prints as "" |
| ChatGlm.KeyPrefix | ai_core/llm/chatglm.py:129 | at most the first ten characters of the key followed by "..."; "未设置" iff there is no key |
| ChatGlm.ChatGlm.constructor | ai_core/llm/chatglm.py:11-24 | key and model stored (the model "glm-4.5" by default), the default system message set |
| ChatGlm.NewChatGlm | ai_core/llm/chatglm.py:11-24 | fails with the key message iff the key is missing or empty; otherwise a new client with that key and model ("glm-4.5" by default) |
| ChatGlm.ChatGlm.GenerateResponse | ai_core/llm/chatglm.py:42-119 | one API call with `RequestFor`'s request; its reply text, or the failure prefixed by "ChatGLM API调用失败: " |
| ChatGlm.ChatGlm.SetDefaultSystemMessage | ai_core/llm/chatglm.py:121-123 | the message used when none is passed is the new one |
| ChatGlm.ChatGlm.Info | ai_core/llm/chatglm.py:125-132 | model, key prefix and default system message |
| ChatGlm.ChatGlmRegistry.GetInstance | ai_core/llm/chatglm.py:26-40 | the first successful call creates the instance, with model "glm-4.5" by default; later calls return it and ignore their arguments |

## Left out

- **The transcoding performed by ffmpeg** (`subprocess.run`, the Opus and WAV contents). It is the engine oracle. A completed run writes its output to the file named last on the command line. A failed run may leave a partial file.
- **The PATH probe of `find_ffmpeg_path`.** It returns `None` on every branch it handles, so it is left out. Two things the model therefore does not capture:
  - An exception other than `TimeoutExpired` or `FileNotFoundError` raised by `subprocess.run(["ffmpeg", "-version"])`: a `PermissionError`, say, escapes `find_ffmpeg_path` and the processor constructors, while the model's constructors never fail for that reason.
  - The probe is itself a run of the engine, and `fs.runs` does not record it.
- **pydub parsing.**
  - `process_to_bytes` loads the input only to print its duration. It is modelled as "the input file must exist".
  - `decode_to_audiosegment` is modelled as the decoded bytes tagged with the container, for both the `from_wav` and `from_file` branches.
- **`load_dotenv`, every `print`, and `tempfile` naming.** Temporary names are arbitrary fresh paths. A temporary name is also assumed to differ from a caller's output path.
- **`int()` accepts** surrounding whitespace, `_` separators and non-ASCII digits. The model accepts an optional sign followed by ASCII digits.
- **Path normalisation.** `str(Path(...))` normalisation, `Path.parent` on names such as `a/./b.mp3`, and Windows separators are not modelled. The model uses POSIX `dirname` and joins.
- **Intermediate directories.** `os.makedirs` and `Path.mkdir(parents=True)` create all intermediate directories. The model records only the leaf directory, and fails only when a regular file stands at the leaf.
- **Network and external APIs.** The edge_tts network synthesis and `get_all_voices` are network calls; the synthesizer is an oracle. The Zhipu client and `zai.__version__` are left out as well, so `ChatGlm.ChatGlm.Info` has no version field.
- **Temperature** is a `real` passed through unchanged. No floating point is modelled.
- **`解析响应失败`.** Reply extraction in the model cannot raise, so this wrapper never appears.
- **Dictionary-copy aliasing.** `get_available_voices` returns a copy. A Dafny map is a value, so the caller cannot change the instance's table through it.
- Uplink.UplinkProcessor.DecodeOpus: implements the corrected directory step of the finding below (`FileTargetDirs`). As written, lines 605-607 of ai_core/audio/audio.py raise FileNotFoundError for a bare output name such as "decoded.wav"; `Uplink.FileTargetDirsAsWritten` and `Uplink.BareNameRefusedAsWritten` model that behaviour.
- Ffmpeg.Run: the engine oracle receives the existing directories but is not forced to fail when the output's directory is missing. A real ffmpeg fails there; the model leaves that decision to the oracle. The processors' contracts state instead that their makedirs steps leave the output's directory present before the engine runs.
- Strings.Lower: lowers ASCII letters only, whereas Python's `str.lower()` is Unicode-aware. It is applied to the caller's name in `LookupVoice`, and the lookup still agrees with Python's on every name. The table's keys are ASCII, and the only non-ASCII characters `str.lower()` maps into ASCII are U+0130, which becomes 'i' followed by the non-ASCII U+0307, and U+212A, which becomes 'k'. No key contains 'k', so a name containing either character matches no key under both definitions.
- Downlink.DownlinkProcessor.ProcessToBytes: an input that exists but that pydub cannot decode is not modelled as failing, because the model holds no audio contents.
- **Other files.** `ai_core/asr/funasr_wrapper.py`, the command-line scripts, the examples and the `__init__.py` re-exports are not part of this model.

## Findings

| source | as written | input that shows it | evidently intended | confidence | as-written member | corrected member |
|---|---|---|---|---|---|---|
| ai_core/audio/audio.py:605-607 | `decode_opus(..., "file", output_path)` calls `os.makedirs(os.path.dirname(output_path), exist_ok=True)`; for a bare file name the directory part is "" and `os.makedirs("")` raises FileNotFoundError | `output_path = "decoded.wav"` | a bare name means the working directory, which exists: skip the call when the directory part is empty | high, not executed | Uplink.BareNameRefusedAsWritten | Uplink.BareNameAccepted |
