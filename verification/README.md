# Documentary pipeline: a verified model of its control core

The documentary pipeline turns a YAML brief into a narrated video episode.
`main()` builds an episode context, then runs seven stages in a fixed order:

1. the script writer;
2. structure and timing;
3. image prompts;
4. image production;
5. voice-over;
6. video assembly;
7. QA.

Each stage asks a generative text service for output. Stages that expect JSON first cut the payload out of a Markdown code fence. They store the result in the context and write it under the episode root. The media stages reuse earlier artifacts through a size-checked cache guard, or call the image and speech services.

Two programs sit around that loop:

- the renderer turns the stored timeline into two ffmpeg concat lists and runs ffmpeg, with a video-only fallback;
- the audio repair script re-synthesises every chunk of a stored TTS plan with a local speech engine.

This project models all of that as pure Dafny functions over immutable data:

- a JSON value type;
- a context record with one optional entry per stage output;
- a disk made of media files with their sizes plus the documents the stages persist.

Everything the code cannot compute itself is a parameter:

- prompt files;
- the generative service, given per try;
- JSON parsing;
- MIME guessing;
- `os.path.abspath`;
- which paths exist;
- ffmpeg;
- the local speech engine.

A stage that raises returns `Fault` with whatever it had written so far. The stage loop stops there with exit status 1.

Modules, in dependency order:

- `Wrappers`: the `Option` type.
- `Text`: substring search, `split`, `strip`, `replace`, `lower`, `str(n)`.
- `Json`: JSON values plus Python truthiness, `get`, item assignment and iteration.
- `Paths`: POSIX `os.path`.
- `Fence`: the shared fenced-reply extractor.
- `CacheGuard`: the artifact cache guard.
- `RemoteApi`: the retry wrapper and the text, image and speech calls.
- `Episode`: context, disk, services and persistence.
- `Scripting`, `Production`, `VoiceOver`, `Assembly`, `Qa`: the stages.
- `Pipeline`: `main()`.
- `Render` and `RenderExamples`: the renderer.
- `AudioFix`: the audio repair script.

Behaviour of the code worth knowing:

- **Missing script.** The structure stage raises (`KeyError`) on a missing script instead of returning the context unchanged.
- **Text calls never fault.** An exhausted retry budget in a text call does not become a fault. `generate_text` catches it and returns "".
- **Malformed timeline.** A timeline file that does not parse raises out of the renderer; it is not reported and swallowed. Only a missing file ends the render quietly.
- **Repeated last clip.** The last video clip, repeated at the end of the video list, is resolved by a shorter chain than the four-step fallback. The chain is: absolute path, the path as it is, then the path under the episode directory, whether it exists or not. `RenderExamples.LastClipShortChain` exhibits a bare image name that resolves under `assets/images` for its own entry but not for the repeat.
- **ffmpeg missing on the retry.** The video-only retry does not always end in a reported failure. If ffmpeg is missing on that second run, the error escapes `render_video`. `main()` then catches it.
- **Raising loops undo nothing.** The production and voice-over loops annotate their entries in place. An exception part-way keeps the files written so far and leaves the earlier entries of the context annotated. `main()` then exits with status 1, so nothing reads that context.
- **Failed deletes.** A corrupt cache file is not always deleted. A failed `os.remove` is tolerated, so the file stays.

## Model

| member | source | states |
|---|---|---|
| Text.Find | utils/google_api.py:47 | The index returned is the first occurrence of the pattern. There is no index exactly when the pattern does not occur (`in` is false). |
| Text.FindFirst | utils/google_api.py:47 | Any occurrence with no earlier occurrence is the one `Find` returns. |
| Text.SplitFirst | agents/scripting.py:52-54 | `split(sep)[0]` is the text before the first separator, or the whole text when there is none. |
| Text.SplitFirstHasNoSep | agents/scripting.py:52-54 | The piece before the first separator never contains the separator. |
| Text.Strip | agents/scripting.py:52-54 | `strip()` keeps a slice of the input that drops only whitespace at either end and neither starts nor ends with whitespace. |
| Text.StripIdempotent | agents/scripting.py:52-54 | Stripping twice is the same as stripping once. |
| Text.StripKeepsAbsence | agents/scripting.py:52-54 | Stripping cannot create an occurrence of a pattern. |
| Text.ReplaceChar | tools/render_video.py:66 | Replacing backslashes keeps the length and changes exactly the matching characters. |
| Text.Lower | utils/google_api.py:149 | Lower-casing keeps the length and maps exactly A-Z to a-z. |
| Text.NatToString | agents/production.py:21 | `str(i)` is a canonical decimal numeral (non-empty, digits only, no leading zero) denoting `i`. |
| Fence.ExtractTagged | agents/scripting.py:51-54 | With a "```json" fence, the payload is the stripped text after its first occurrence, up to the next bare fence or the end. |
| Fence.ExtractUnfenced | agents/assembly.py:33-36 | A reply without any fence reaches the parser unchanged, not even stripped. |
| Fence.ExtractRemovesFences | agents/voice_over.py:36-39 | Whenever the reply held a fence, the extracted payload holds none. |
| Fence.ExtractIdempotent | agents/voice_over.py:36-39 | Extracting from an extracted payload changes nothing. |
| Fence.ExtractBacktickRun | agents/assembly.py:33-36 | A closing fence that begins a longer backtick run that reopens "```json" leaves a stray backtick in the payload. |
| Fence.ExtractProseExample | agents/scripting.py:88-91 | A tagged block surrounded by prose yields just its stripped JSON body. |
| Json.Get | agents/voice_over.py:21-22 | `.get` answers only on dicts, with the stored value or the default; on anything else it raises. |
| Json.Put | agents/production.py:52 | Item assignment sets one key and leaves every other key's value alone. |
| Json.ListAt | agents/production.py:14-20 | The list a loop walks is the stored list, and empty for a missing key, `""` or `{}`. Every other value raises, including `None`, numbers and booleans. |
| Json.FalsyIteration | agents/voice_over.py:54 | `None`, `0` and `False` cannot be walked, while `""` and `{}` walk as empty. |
| Json.Minus | tools/render_video.py:63 | Subtracting two JSON values succeeds exactly when both are numbers or booleans. |
| Paths.Join | main.py:26 | An absolute second part replaces the first. Otherwise the result starts with the directory and ends with the name. |
| Paths.JoinInjective | main.py:26 | Under one directory, different relative names give different paths. |
| Paths.Basename | agents/voice_over.py:58 | The base name is the separator-free tail of the path, preceded by a separator when shorter than the path. |
| Paths.BasenameOfJoin | agents/voice_over.py:58-59 | A separator-free name joined under a directory is that path's base name again. |
| Paths.Splitext | agents/production.py:27 | Stem plus extension rebuild the path. An extension is split off exactly when the final component has a dot after some non-dot character, and it then starts at the last dot, which lies in that component. |
| Paths.SplitextExamples | agents/production.py:27 | A leading-dot name such as `.bashrc` has no extension, a dot in a directory name is not one, and only the last dot splits. |
| Paths.SplitextOfJoin | agents/production.py:24-27 | `splitext` undoes appending an extension to a plain name under a directory. |
| CacheGuard.Remove | agents/production.py:37-40 | A failed delete leaves the file. A successful one removes exactly that path and keeps every other size. |
| CacheGuard.Guard | agents/production.py:26-40 | Exactly the first candidate over 1024 bytes is reused. Only unlocked candidates of at most 1024 bytes are deleted. On a hit, the deleted files are exactly the unlocked candidates on disk listed before the hit, and nothing after it is looked at. Sizes never change. After a miss, no deletable small candidate remains. |
| CacheGuard.GuardIdempotent | agents/voice_over.py:61-76 | A second scan over what the first left gives the same hit and deletes nothing more. |
| CacheGuard.BoundaryIsCorrupt | agents/production.py:32 | A file of exactly 1024 bytes is never reused; it survives only when its delete fails. |
| CacheGuard.CleanHitScan | agents/voice_over.py:61-70 | When the first candidate on disk is valid, it is reused and nothing is touched. |
| CacheGuard.NoCandidateMisses | agents/production.py:29-34 | With no candidate on disk the scan misses and touches nothing. |
| RemoteApi.Retry | utils/google_api.py:36-61 | At most `max_retries` tries. Every try but the last hit a rate limit. The last one's value is returned, or its error re-raised; a rate limit is re-raised only at the budget. Nothing comes back only when the budget is not positive. Base delays double from `initial_delay`. |
| RemoteApi.RetryOutcome | utils/google_api.py:36-61 | The result is decided by the first try without a rate limit when it falls within the budget; otherwise the last rate limit is re-raised. The try count follows from that. |
| RemoteApi.Sleeps | utils/google_api.py:53-55 | Each sleep lies between the base delay and one and a half times it. |
| RemoteApi.RetrySleeps | utils/google_api.py:42-56 | A retry run sleeps once after every try but the last, and the j-th sleep lies between `initial_delay * 2^j` and one and a half times that. |
| RemoteApi.GenerateText | utils/google_api.py:63-94 | Mock mode gives the canned reply for the prompt. Without a client the result is "". Live, the first settled try's text is returned, or "" when it failed or every try hit a rate limit. |
| RemoteApi.MockDispatchFirstMatch | utils/google_api.py:264-319 | The canned reply is the one for the first marker found in the system prompt; the script reply is given exactly when no marker occurs. |
| RemoteApi.FirstData | utils/google_api.py:141-155 | The stream is read up to the first part that carries data, and every earlier part carries none. |
| RemoteApi.RewriteExtension | utils/google_api.py:146-152 | The output path is kept when its extension already matches, ignoring case; otherwise its stem gets the guessed extension. |
| RemoteApi.RewriteKeepsStem | utils/google_api.py:146-152 | On a `dir/name.ext` target, the rewritten path keeps the stem, carries the guessed extension ignoring case, and a second rewrite to the same extension changes nothing. |
| RemoteApi.Cleanup | utils/google_api.py:164-172 | After a failure, only an empty file at the output path may disappear. |
| RemoteApi.LiveMedia | utils/google_api.py:114-172 | A path comes back exactly when the retried call returned a stream with a data part and the rewritten path is not empty. It is then the output path rewritten to that part's extension, holding that part's data, and nothing else changes. Any failure returns "" and leaves only the cleanup. |
| RemoteApi.LiveMediaOutcome | utils/google_api.py:134-172 | In terms of the first try that is not rate-limited: a failure or a stream without data gives "" and the cleanup, and data is written at the rewritten path. |
| RemoteApi.GenerateImage | utils/google_api.py:96-172 | With the configuration lookup taken to succeed, only a mock prompt that cannot be sliced escapes as an exception. Mock mode writes the 15-byte placeholder at the output path. Without a client nothing is written. A live client gives the live media call with the image retry budget and `.png` as the default extension. Nothing but an empty output file is ever removed. |
| RemoteApi.SynthesizeSpeech | utils/google_api.py:174-262 | With the configuration lookups taken to succeed, no branch raises. Mock mode writes the placeholder at the output path. Without a client nothing is written. A live client gives the live media call with the speech retry budget and `.wav` as the default extension. Only an empty output file can be removed. |
| Episode.ModeOf | utils/google_api.py:67-73 | Mock mode wins; otherwise a missing client means no client, whatever else holds. |
| Episode.LoadPrompt | agents/base.py:8-11 | A prompt is read from the configured prompts directory and fails exactly when that file is absent. |
| Episode.Persist | agents/voice_over.py:45-46 | Writing a document replaces that one file and leaves every other document and all media alone. |
| Episode.PersistOther | agents/scripting.py:28 | Writing one file name never disturbs the document at another name. |
| Scripting.SeriesTest | agents/scripting.py:13-14 | `'series' in brief` is a key test on a dict, an element test on a list, a substring test on a str, and raises otherwise. |
| Scripting.WithSeries | agents/scripting.py:13-15 | A dict brief without a series gains the default series and keeps every other key. A brief with a series is untouched. A non-dict raises unless the test already succeeds. |
| Scripting.WithSeriesIdempotent | agents/scripting.py:13-15 | Defaulting the series a second time changes nothing. |
| Scripting.ScriptStage | agents/scripting.py:8-30 | The stage fails exactly on a missing prompt or an unassignable brief, and then changes nothing. Otherwise it stores the defaulted brief and the raw reply as the script, writes `script.md` with that text, and changes nothing else. |
| Scripting.StructureStage | agents/scripting.py:33-68 | The stage fails exactly on a missing script or prompt. A parsed reply becomes the structure and `structure.json`. An unparsable one goes, as extracted, to `structure_error.txt` and leaves the structure as it was. |
| Scripting.ImagePromptStage | agents/scripting.py:71-102 | A falsy structure is a no-op. Otherwise only a missing prompt fails. A parsed reply becomes the image prompts and `image_prompts.json`; a parse failure leaves no trace. |
| Scripting.ParsedEmptyObjectIsMissing | agents/scripting.py:56-61 | A structure reply that parses to `{}` is stored, yet the image-prompt stage after it treats it as absent. |
| Production.SlotId | agents/production.py:21 | The slot id is the entry's `slot_id`, or the decimal numeral of the loop index when it has none. |
| Production.ProcessSlot | agents/production.py:23-52 | One entry: the recorded path is the cache hit if there is one, and the generator runs only on a miss. On a miss the recorded path and the files are exactly what `generate_image` returned at the target, "" included. Only the entry's candidates or target can disappear, and only when they hold at most 1024 bytes. A hit leaves the files exactly as the guard left them, so the reused image stays. Any new or resized file is the recorded path. Only a mock prompt that cannot be sliced raises. |
| Production.ProduceAll | agents/production.py:20-52 | The loop completes only over dicts. Entries without `prompt_text` come back unchanged and the others gain `image_path`. There is at most one generation per processed entry. Removed files belong to some processed entry. A removed file held at most 1024 bytes unless the loop itself wrote it, so a reused image is never removed. A new or resized file was written by the loop and is recorded by some entry, whether the loop completes or raises. A raising loop leaves every entry as it was or with its recorded path. |
| Production.SettledRunIsQuiet | agents/production.py:26-43 | When every processed entry finds its image as a valid first candidate, the loop makes no calls and leaves the files as they were. |
| Production.ProductionStage | agents/production.py:6-55 | Falsy image prompts are a no-op, and an unwalkable list raises before any work. Documents are never rewritten. Only the image prompts and the media files change. They become the loop's entries and files whether it completes or raises, so a raising run keeps the files and paths produced before the exception. |
| Production.SettledStageIsQuiet | agents/production.py:6-55 | A stage run over entries that all hit cleanly leaves the disk unchanged. |
| Production.OneSlotTwoRuns | agents/production.py:20-52 | One slot with no image on disk: the first live run generates once, writes exactly that file and records it. A second run on the result changes nothing. |
| VoiceOver.ChunkTargetName | agents/voice_over.py:58-59 | A chunk's recording lands inside `assets/audio` under the final component of its `output_file`. |
| VoiceOver.SpeakChunk | agents/voice_over.py:57-87 | A non-string output file raises. Otherwise the recorded path is the cache hit; on a miss the recorded path and the files are exactly what `synthesize_speech` returned at the target, "" included. Only the chunk's candidates or target disappear, and only when they hold at most 1024 bytes. A hit leaves the files exactly as the guard left them. Any new or resized file is the recorded path. |
| VoiceOver.SpeakAll | agents/voice_over.py:54-87 | The loop completes only over dicts with string output files. Chunks without text or output file come back unchanged and the others gain `absolute_path`. There is at most one synthesis per chunk. Removed files belong to some chunk. A removed file held at most 1024 bytes unless the loop itself wrote it, so a reused recording is never removed. A new or resized file was written by the loop and is recorded by some chunk, whether the loop completes or raises. A raising loop leaves every chunk as it was or with its recorded path. |
| VoiceOver.SettledChunksAreQuiet | agents/voice_over.py:61-79 | When every chunk finds its recording as a valid first candidate, the loop synthesises nothing and leaves the files as they were. |
| VoiceOver.VoiceOverStage | agents/voice_over.py:7-92 | A missing script or structure is a no-op. A missing prompt or non-dict brief raises before the call. Only the TTS plan entry changes, and only `tts_plan.json` can be written. A removed media file means the reply parsed into a plan with walkable `audio_chunks`, and the file is a candidate or target of one of those chunks. Once a plan parses, the media files and the stored plan are those the chunk loop leaves, whether it completes or raises. |
| VoiceOver.RunPlan | agents/voice_over.py:41-87 | A parsed plan is stored and written before the chunk loop. A walkable plan's chunks are then annotated in place. The media files are the chunk loop's whether it completes or raises, and a raising loop leaves the plan file unannotated while the stored plan keeps the paths recorded so far. |
| VoiceOver.SettledPlanIsQuiet | agents/voice_over.py:54-87 | A second run over a plan whose chunks all hit cleanly leaves the recordings as they were. |
| Assembly.AssemblyStage | agents/assembly.py:7-48 | Without structure, image prompts and TTS plan the stage is a no-op. Only a missing prompt fails. Any parsed reply becomes the timeline and `timeline.json`; an unparsable one changes nothing. |
| Assembly.AnyJsonIsATimeline | agents/assembly.py:38-43 | A reply that parses to a bare number is still accepted and written as the timeline. |
| Qa.QaStage | agents/qa.py:7-34 | Only a missing prompt fails. The report is the raw reply and `qa_report.md` holds exactly that text. |
| Qa.QaKeepsFences | agents/qa.py:23-32 | A fenced reply is stored with its fences, unlike what a parsing stage would keep. |
| Pipeline.StepOf | main.py:57-59 | The loop applies each agent's own `run` to the current state. |
| Pipeline.InitialContext | main.py:26-44 | The episode root is `<output_dir>/<name>`, the prompts directory comes from the configuration, and no stage output exists yet. |
| Pipeline.Fold | main.py:57-62 | The exit status is 0 or 1. The stages started are a prefix of the list. Status 0 means all were started, and status 1 means at least one was. |
| Pipeline.FaultIsLast | main.py:57-62 | Every stage before the last one started returned. The exit status is 1 exactly when the last one started raised. |
| Pipeline.RunPipeline | main.py:57-62 | The imperative stage loop ends with the same status, state and started stages as the reference fold, and records the same per-stage outcomes. |
| Pipeline.StagePreservesPersisted | main.py:57-59 | Every stage keeps each stored script, structure, timeline and QA report in step with the document it was written to. |
| Pipeline.StageKeepsEpisode | main.py:36-44 | No stage changes the episode's name, configuration or root. |
| Pipeline.FoldPreserves | main.py:57-62 | However the loop ends, the episode identity is unchanged and the tracked documents agree with the context. |
| Pipeline.TimelineOnDisk | tools/render_video.py:12-17 | A missing `timeline.json` is absent. A stored JSON document reads back as itself. Any other text is parsed, and it is malformed exactly when it does not parse. |
| Pipeline.PipelineMain | main.py:46-73 | The exit status is the stage loop's. A render happens exactly when asked for and every stage returned. It reads the timeline file the run left on disk, parsing a text file, and its outcome never changes the status. |
| Pipeline.RenderReadsStoredTimeline | main.py:65-73 | After a clean run, the renderer reads back exactly the timeline stored in the context. |
| Pipeline.MissingScriptPromptStopsEarly | main.py:57-62 | A missing script prompt ends the run at the first stage with status 1, nothing written and nothing rendered. |
| Render.Resolve | tools/render_video.py:44-58 | An absolute reference is kept. Otherwise the result is the reference, the reference under the episode, or its name under `assets/<kind>`. Anything other than the reference itself exists. |
| Render.ResolveIsFirstExisting | tools/render_video.py:46-58 | Resolution is "first existing path of the fallback chain, else the reference". |
| Render.ResolveLast | tools/render_video.py:71-80 | The repeated last clip keeps an absolute or existing reference, and otherwise goes under the episode directory unchecked. |
| Render.Clean | tools/render_video.py:66 | A written path never contains a backslash. |
| Render.Duration | tools/render_video.py:63 | The duration exists exactly when both times, missing ones read as 0, are numbers or booleans, and it is then end minus start. |
| Render.VideoLines | tools/render_video.py:38-68 | Every video clip gives a file line and a duration line, in order, none dropped. The list fails exactly when some clip would raise. |
| Render.VideoList | tools/render_video.py:38-81 | The video list is every clip's two lines followed by the last clip once more, without a duration, and every line is clean. |
| Render.KeepExisting | tools/render_video.py:88-112 | The audio lines are exactly the existing targets, in order, each by its cleaned path; missing ones are dropped. |
| Render.AudioLines | tools/render_video.py:88-112 | The audio list exists exactly when every audio clip has a string `audio_file`. It lists exactly the clips whose resolved paths exist, in order, never more than the clips. |
| Render.IncreasingBound | tools/render_video.py:106-108 | A strictly increasing choice of indices from a range is no longer than the range, so no clip is listed twice. |
| Render.RunFfmpeg | tools/render_video.py:117-161 | The full command runs first. A non-zero exit, and only that, triggers exactly one video-only retry. Each combination of the two runs' results gives its own ending. A missing ffmpeg on the retry escapes. |
| Render.VideoOnlyDropsAudio | tools/render_video.py:143-152 | The fallback command is the full command without the audio input and the audio codec options. |
| Render.RenderVideo | tools/render_video.py:7-17 | A missing timeline file ends the render with nothing written. A file that does not parse raises. A parsed one is rendered. |
| Render.RenderTimeline | tools/render_video.py:28-126 | A falsy video track writes nothing. A truthy one whose tracks can both be walked is rendered from those clips; one that cannot be walked raises. |
| Render.RenderLists | tools/render_video.py:38-161 | The render finishes exactly when every video clip and every audio clip can be listed and ffmpeg does not escape. A finished render wrote exactly the video list and the audio list, with clean paths, and its runs and status are those of the two-tier ffmpeg phase. |
| RenderExamples.LastClipShortChain | tools/render_video.py:71-81 | A bare image name found only under `assets/images` resolves for its own entry, but its repeat points under the episode directory, where nothing exists. |
| RenderExamples.AudioFallsBackToAudioDir | tools/render_video.py:93-104 | An audio reference found only under `assets/audio` resolves there. |
| RenderExamples.EmptyAudioIffNoneFound | tools/render_video.py:106-108 | The audio list is empty exactly when no audio clip resolves to an existing file. |
| RenderExamples.MissingAudioStillRenders | tools/render_video.py:88-126 | One shot and one unfound chunk: an empty audio list, the shot listed twice, and one successful ffmpeg run. |
| AudioFix.PlanOnDisk | tools/run_audio_fix.py:26-32 | The plan is missing exactly when no file exists. A stored JSON document loads as itself. A text document goes through the parser and is unreadable exactly when it does not parse. |
| AudioFix.StoredPlanReadsBack | tools/run_audio_fix.py:26-32 | The plan the voice-over stage writes to `tts_plan.json` loads back as that plan. |
| AudioFix.FixChunk | tools/run_audio_fix.py:55-88 | Only unlocked small candidates of the chunk's base are deleted, and only the chunk's target can change. A successful local synthesis writes its size there. |
| AudioFix.SpokenTargets | tools/run_audio_fix.py:44-52 | There is one target per chunk with text and output file. |
| AudioFix.FixAll | tools/run_audio_fix.py:38-88 | The loop raises exactly when some chunk is no dict or has a non-string output file. Otherwise the local engine is called once per spoken chunk, at its target, in plan order. Only scanned candidates disappear and only called targets change. |
| AudioFix.AudioFixMain | tools/run_audio_fix.py:16-95 | A missing plan stops before anything is touched. An unreadable or unwalkable plan raises before any chunk. Otherwise the chunk loop runs on the stored chunks. |
| AudioFix.FixIgnoresCache | tools/run_audio_fix.py:73-88 | The calls made do not depend on what is on disk. |
| AudioFix.HitIsResynthesised | tools/run_audio_fix.py:73-88 | A chunk whose recording is reusable is still synthesised again at its target. |

## Left out

- Console output, logging and `os.makedirs`: they have no effect on the modelled state.
- Argument parsing and loading the YAML settings and brief: the brief is a `Json` parameter and the settings are the `Config` record.
- JSON and YAML serialisation: the parser is a parameter, and persisted documents are stored as values. Dictionary key order and `indent` formatting are not modelled.
- The bodies of requests to the generative service (`json.dumps` of the inputs, `default=str`): the service is a parameter indexed by agent and context, so request text is not modelled.
- Floating-point formatting of durations in the concat list: durations are exact reals.
- `os.path.abspath`, file existence for the renderer, and ffmpeg: oracles of the `World` record.
- Paths follow POSIX `posixpath` semantics only. There are no Windows drive letters.
- `Text.Lower`: covers ASCII letters only, because Python's full Unicode lower-casing table is out of scope. It is only applied to file extensions.
- The concat list files are returned as data. A render that raises after writing them leaves partial files, which the model does not track.
- A failed write inside the local speech engine may leave a partial file; the engine is a parameter that reports a size or nothing.
- The model names, the voice parameters and the `temperature` setting: they only shape requests to the service. The configuration is taken to contain `models` and, when the voice parameters name no voice, `tts.voice_name`. Without them, `generate_image` and `synthesize_speech` would raise a `KeyError` before the mock test or before the live call, and the model does not show that.
- The mock-mode render warning in `main()`: printing only.
- Writes never fail. An `open(..., 'w')` or `write` that raises, for a full disk or a missing permission, is not a fault of the model. Statements that a stage fails exactly in some cases, or that only a missing prompt fails, hold under that assumption.
- Media files and documents live in two separate maps of `Disk`, so a media path never collides with a document path. The pipeline's own names keep them apart, because media live under `assets/` and documents at the episode root, but a slot id or output file name that points at a document is not modelled.
- The mock placeholder files are 15 bytes, so they never pass the 1024-byte cache check and are regenerated on every run. The model shows this through `MockPayloadSize`, not through a separate lemma.
- `Fence.ExtractTagged`: requires that the closing fence not start a run of four or more backticks. Python's double split behaves differently there, and `Fence.ExtractBacktickRun` exhibits that case instead.
- `Pipeline.Fold`: exit status 0 implies every stage started, but not the converse, because a run whose last stage raises has also started every stage. `Pipeline.FaultIsLast` states the exact condition.
- `ProduceAll`: a removed file is bounded by 1024 bytes only if the loop did not write it itself. The flat bound would need the extension guess to be a plain extension. With an arbitrary guess, an earlier entry's rewritten path can be a later entry's small candidate. Exact `mimetypes` behaviour is not modelled.
- `SpeakAll`: the same exception as for `ProduceAll`, for the same reason.
- `AudioFix.FixAll`: bounds neither the calls nor the files when the loop raises part-way, except that removals stay candidates of the plan's chunks.
- The other scripts under `tools/` (Parler and Kokoro setup, voice listing, quota tests) and `utils/local_tts.py` beyond its result: they are outside the control core.
