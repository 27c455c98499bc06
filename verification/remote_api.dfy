/**
 * The remote-call helpers: the retry-with-backoff wrapper, text generation
 * with its mock and no-client fallbacks, image and speech generation with
 * their output-path extension rewrite and failure cleanup, and the mock text
 * dispatcher.  The generative service itself is an oracle: a call is a
 * sequence of attempt outcomes, one per try of the wrapped function.
 */
module RemoteApi {
  import opened Wrappers
  import opened Text
  import opened Json
  import opened Paths
  import CacheGuard

  // ---------------------------------------------------------------- retry

  /** One try of the wrapped function: it returns a value or raises with a message. */
  datatype Attempt<T> = Returns(value: T) | Throws(message: string)

  /** What the wrapper finally does: return a value, re-raise, or fall out of the loop with `None`. */
  datatype Retried<T> = Returned(value: T) | Reraised(message: string) | NoResult

  /** A run of the wrapper: its result, how many tries it made, and the base delay before each sleep. */
  datatype RetryRun<T> = RetryRun(result: Retried<T>, calls: nat, delays: seq<real>)

  /** A failure is retried exactly when its message shows a rate limit. */
  predicate RateLimited(message: string) {
    Contains(message, "429") || Contains(message, "RESOURCE_EXHAUSTED")
  }

  /** Try `j` failed with a rate limit. */
  predicate RateLimitedAt<T>(attempt: nat -> Attempt<T>, j: nat) {
    attempt(j).Throws? && RateLimited(attempt(j).message)
  }

  /** The base delay before the (j+1)-th sleep: the initial delay doubled j times. */
  function BaseDelay(initialDelay: real, j: nat): (d: real)
    ensures initialDelay > 0.0 ==> d >= initialDelay
  {
    if j == 0 then initialDelay else 2.0 * BaseDelay(initialDelay, j - 1)
  }

  /** The loop of the wrapper, entered after `k` rate-limited tries. */
  function RetryLoop<T>(maxRetries: int, initialDelay: real, attempt: nat -> Attempt<T>, k: nat, delays: seq<real>): (r: RetryRun<T>)
    requires k == 0 || k < maxRetries
    requires |delays| == k
    requires forall j :: 0 <= j < k ==> RateLimitedAt(attempt, j)
    requires forall j :: 0 <= j < k ==> delays[j] == BaseDelay(initialDelay, j)
    ensures k <= r.calls
    ensures r.calls <= (if maxRetries > 0 then maxRetries else 0)
    ensures r.result.NoResult? <==> maxRetries <= 0
    ensures r.result.NoResult? ==> r.calls == 0
    ensures !r.result.NoResult? ==> r.calls >= 1
    ensures forall j :: 0 <= j < r.calls - 1 ==> RateLimitedAt(attempt, j)
    ensures r.result.Returned? ==> r.calls >= 1 && attempt(r.calls - 1) == Returns(r.result.value)
    ensures r.result.Reraised? ==> r.calls >= 1 && attempt(r.calls - 1) == Throws(r.result.message)
    ensures r.result.Reraised? ==> !RateLimited(r.result.message) || r.calls == maxRetries
    ensures |r.delays| == (if r.calls > 0 then r.calls - 1 else 0)
    ensures forall j :: 0 <= j < |r.delays| ==> r.delays[j] == BaseDelay(initialDelay, j)
    decreases maxRetries - k
  {
    if k >= maxRetries then
      RetryRun(NoResult, k, delays)
    else
      match attempt(k)
      case Returns(v) => RetryRun(Returned(v), k + 1, delays)
      case Throws(m) =>
        if !RateLimited(m) || k + 1 == maxRetries then
          RetryRun(Reraised(m), k + 1, delays)
        else
          RetryLoop(maxRetries, initialDelay, attempt, k + 1, delays + [BaseDelay(initialDelay, k)])
  }

  /**
   * `retry_with_backoff(max_retries, initial_delay)` applied to one call.
   * At most `max_retries` tries; every try but the last failed with a rate
   * limit; the last one returned (its value is the result) or raised (a
   * non-rate-limit error, or the `max_retries`-th rate limit, re-raised).
   * `None` comes back only when the loop never runs.  Before the k-th sleep
   * the base delay is `initial_delay * 2^(k-1)`.
   */
  function Retry<T>(maxRetries: int, initialDelay: real, attempt: nat -> Attempt<T>): (r: RetryRun<T>)
    ensures r.calls <= (if maxRetries > 0 then maxRetries else 0)
    ensures r.result.NoResult? <==> maxRetries <= 0
    ensures r.result.NoResult? ==> r.calls == 0
    ensures !r.result.NoResult? ==> r.calls >= 1
    ensures forall j :: 0 <= j < r.calls - 1 ==> RateLimitedAt(attempt, j)
    ensures r.result.Returned? ==> r.calls >= 1 && attempt(r.calls - 1) == Returns(r.result.value)
    ensures r.result.Reraised? ==> r.calls >= 1 && attempt(r.calls - 1) == Throws(r.result.message)
    ensures r.result.Reraised? ==> !RateLimited(r.result.message) || r.calls == maxRetries
    ensures |r.delays| == (if r.calls > 0 then r.calls - 1 else 0)
    ensures forall j :: 0 <= j < |r.delays| ==> r.delays[j] == BaseDelay(initialDelay, j)
  {
    RetryLoop(maxRetries, initialDelay, attempt, 0, [])
  }

  /** Try `n` is the first that does not fail with a rate limit. */
  predicate SettlesAt<T>(attempt: nat -> Attempt<T>, n: nat) {
    && !RateLimitedAt(attempt, n)
    && forall j :: 0 <= j < n ==> RateLimitedAt(attempt, j)
  }

  /**
   * The wrapper's result in terms of the first try that is not rate-limited:
   * if that try comes within the budget, its outcome is the result; if the
   * whole budget is rate-limited, the last rate limit is re-raised.
   */
  lemma {:induction false} RetryOutcome<T>(maxRetries: int, initialDelay: real, attempt: nat -> Attempt<T>, n: nat)
    requires maxRetries > 0
    requires n < maxRetries ==> SettlesAt(attempt, n)
    requires n >= maxRetries ==> forall j :: 0 <= j < maxRetries ==> RateLimitedAt(attempt, j)
    requires n >= maxRetries ==> n == maxRetries
    ensures n < maxRetries && attempt(n).Returns? ==> Retry(maxRetries, initialDelay, attempt).result == Returned(attempt(n).value)
    ensures n < maxRetries && attempt(n).Throws? ==> Retry(maxRetries, initialDelay, attempt).result == Reraised(attempt(n).message)
    ensures n == maxRetries ==> Retry(maxRetries, initialDelay, attempt).result.Reraised?
    ensures Retry(maxRetries, initialDelay, attempt).calls == (if n < maxRetries then n + 1 else maxRetries)
  {
    var r := Retry(maxRetries, initialDelay, attempt);
    var c := r.calls;
    assert c >= 1;
    // the run cannot stop before the first try that is not rate-limited ...
    if c - 1 < n {
      assert RateLimitedAt(attempt, c - 1);
      assert c == maxRetries;
    }
  }

  /** The sleep actually taken: the base delay stretched by a jitter in [0, 1). */
  function Sleeps(delays: seq<real>, jitter: nat -> real): (r: seq<real>)
    requires forall j: nat :: 0.0 <= jitter(j) < 1.0
    ensures |r| == |delays|
    ensures forall j :: 0 <= j < |r| && delays[j] > 0.0 ==> delays[j] <= r[j] < delays[j] * 1.5
  {
    var r := seq(|delays|, j requires 0 <= j < |delays| => Stretch(delays[j], jitter(j)));
    assert forall j :: 0 <= j < |r| ==> r[j] == Stretch(delays[j], jitter(j));
    r
  }

  /**
   * The sleeps of a retry run: one after every try but the last, the j-th
   * lying between `initial_delay * 2^j` and one and a half times that.
   */
  lemma RetrySleeps<T>(maxRetries: int, initialDelay: real, attempt: nat -> Attempt<T>, jitter: nat -> real)
    requires initialDelay > 0.0 && forall j: nat :: 0.0 <= jitter(j) < 1.0
    ensures
      var run := Retry(maxRetries, initialDelay, attempt);
      var waits := Sleeps(run.delays, jitter);
      && |waits| == (if run.calls > 0 then run.calls - 1 else 0)
      && forall j :: 0 <= j < |waits| ==> BaseDelay(initialDelay, j) <= waits[j] < BaseDelay(initialDelay, j) * 1.5
  {
    var run := Retry(maxRetries, initialDelay, attempt);
    assert forall j :: 0 <= j < |run.delays| ==> run.delays[j] > 0.0;
  }

  /** A base delay stretched by up to half of itself. */
  function Stretch(d: real, x: real): (s: real)
    requires 0.0 <= x < 1.0
    ensures d > 0.0 ==> d <= s < d * 1.5
  {
    StretchBounds(d, x);
    d + d * x * 0.5
  }

  lemma StretchBounds(d: real, x: real)
    requires 0.0 <= x < 1.0
    ensures d > 0.0 ==> 0.0 <= d * x * 0.5 < d * 0.5
  {
    if d > 0.0 {
      assert d * x <= d * 1.0 by { assert d * (1.0 - x) > 0.0; }
    }
  }

  // ---------------------------------------------------------------- service modes

  /** `mock_mode` set in the configuration; no client (no API key); or a live client. */
  datatype Mode = Mock | NoClient | Live

  const TextRetries: int := 5
  const ImageRetries: int := 5
  const SpeechRetries: int := 8

  /**
   * `generate_text`: the mock reply in mock mode; "" without a client; the
   * text of the first successful try, or "" when the wrapper re-raises.
   */
  function GenerateText(mode: Mode, systemPrompt: string, attempt: nat -> Attempt<string>): (r: string)
    ensures mode == Mock ==> r == MockText(MockKindOf(systemPrompt))
    ensures mode == NoClient ==> r == ""
    ensures mode == Live ==> forall n: nat :: n < TextRetries && SettlesAt(attempt, n) && attempt(n).Returns? ==> r == attempt(n).value
    ensures mode == Live ==> forall n: nat :: n < TextRetries && SettlesAt(attempt, n) && attempt(n).Throws? ==> r == ""
    ensures mode == Live && (forall j :: 0 <= j < TextRetries ==> RateLimitedAt(attempt, j)) ==> r == ""
  {
    match mode
    case Mock => MockText(MockKindOf(systemPrompt))
    case NoClient => ""
    case Live =>
      var run := Retry(TextRetries, 1.0, attempt);
      RetryAnswers(attempt);
      match run.result
      case Returned(t) => t
      case _ => ""
  }

  /** The text wrapper's outcome for each way the tries can settle. */
  lemma RetryAnswers(attempt: nat -> Attempt<string>)
    ensures forall n: nat :: n < TextRetries && SettlesAt(attempt, n) && attempt(n).Returns? ==>
      Retry(TextRetries, 1.0, attempt).result == Returned(attempt(n).value)
    ensures forall n: nat :: n < TextRetries && SettlesAt(attempt, n) && attempt(n).Throws? ==>
      Retry(TextRetries, 1.0, attempt).result.Reraised?
    ensures (forall j :: 0 <= j < TextRetries ==> RateLimitedAt(attempt, j)) ==>
      Retry(TextRetries, 1.0, attempt).result.Reraised?
  {
    forall n: nat | n < TextRetries && SettlesAt(attempt, n)
      ensures attempt(n).Returns? ==> Retry(TextRetries, 1.0, attempt).result == Returned(attempt(n).value)
      ensures attempt(n).Throws? ==> Retry(TextRetries, 1.0, attempt).result.Reraised?
    {
      RetryOutcome(TextRetries, 1.0, attempt, n);
    }
    if forall j :: 0 <= j < TextRetries ==> RateLimitedAt(attempt, j) {
      RetryOutcome(TextRetries, 1.0, attempt, TextRetries);
    }
  }

  // ---------------------------------------------------------------- mock text

  /** Which canned reply `_get_mock_text_response` gives. */
  datatype MockKind = StructureMock | ImagePromptMock | VoiceOverMock | AssemblyMock | QaMock | ScriptMock

  /** The markers looked for in the system prompt, in the order they are tested. */
  const MockMarkers: seq<string> := ["Structure & Timing Agent", "Image Prompt Agent", "Voice-Over (TTS) Agent", "Video Assembly", "QA"]
  const MockKinds: seq<MockKind> := [StructureMock, ImagePromptMock, VoiceOverMock, AssemblyMock, QaMock]

  /** The chain of `if marker in system_prompt` tests. */
  function MockKindOf(systemPrompt: string): MockKind {
    if Contains(systemPrompt, "Structure & Timing Agent") then StructureMock
    else if Contains(systemPrompt, "Image Prompt Agent") then ImagePromptMock
    else if Contains(systemPrompt, "Voice-Over (TTS) Agent") then VoiceOverMock
    else if Contains(systemPrompt, "Video Assembly") then AssemblyMock
    else if Contains(systemPrompt, "QA") then QaMock
    else ScriptMock
  }

  /** Marker `k` is in the prompt and no earlier marker is. */
  predicate FirstFound(systemPrompt: string, k: nat)
    requires k < |MockMarkers|
  {
    && Contains(systemPrompt, MockMarkers[k])
    && forall j :: 0 <= j < k ==> !Contains(systemPrompt, MockMarkers[j])
  }

  /** The dispatch chain is "first marker found wins", with the script reply as fallback. */
  lemma MockDispatchFirstMatch(systemPrompt: string)
    ensures forall k :: 0 <= k < |MockMarkers| && FirstFound(systemPrompt, k) ==> MockKindOf(systemPrompt) == MockKinds[k]
    ensures MockKindOf(systemPrompt) == ScriptMock <==>
      forall k :: 0 <= k < |MockMarkers| ==> !Contains(systemPrompt, MockMarkers[k])
  {
    var p := systemPrompt;
    assert MockMarkers[0] == "Structure & Timing Agent" && MockMarkers[1] == "Image Prompt Agent";
    assert MockMarkers[2] == "Voice-Over (TTS) Agent" && MockMarkers[3] == "Video Assembly" && MockMarkers[4] == "QA";
    forall k | 0 <= k < |MockMarkers| && FirstFound(p, k)
      ensures MockKindOf(p) == MockKinds[k]
    {
      if k > 0 { assert !Contains(p, MockMarkers[0]); }
      if k > 1 { assert !Contains(p, MockMarkers[1]); }
      if k > 2 { assert !Contains(p, MockMarkers[2]); }
      if k > 3 { assert !Contains(p, MockMarkers[3]); }
    }
  }

  /** The canned replies, as `json.dumps` renders them. */
  function MockText(kind: MockKind): string {
    match kind
    case StructureMock => "{\"episode_id\": \"mock_id\", \"target_duration_minutes\": 15, \"total_estimated_minutes\": 14.5, \"segments\": [{\"id\": \"seg_01\", \"type\": \"hook\", \"start_time_sec\": 0.0, \"end_time_sec\": 10.0, \"narration_ref\": {\"from_paragraph_index\": 0, \"to_paragraph_index\": 1}, \"visual_slots\": [{\"slot_id\": \"seg_01_shot_01\", \"start_time_sec\": 0.0, \"end_time_sec\": 10.0, \"visual_concept\": \"Wide shot\", \"priority\": \"must_have\"}]}], \"ad_break_suggestions\": [], \"notes_for_next_agents\": [\"Mock structure\"]}"
    case ImagePromptMock => "{\"episode_id\": \"mock_id\", \"image_prompts\": [{\"slot_id\": \"seg_01_shot_01\", \"segment_id\": \"seg_01\", \"start_time_sec\": 0.0, \"end_time_sec\": 10.0, \"prompt_text\": \"A wide shot of Uruk.\", \"safety_notes\": \"None\"}]}"
    case VoiceOverMock => "{\"episode_id\": \"mock_id\", \"voice_profile\": {\"engine\": \"google-tts\", \"default_voice\": \"Charon\"}, \"audio_chunks\": [{\"chunk_id\": \"aud_seg_01\", \"segment_id\": \"seg_01\", \"text\": \"This is Uruk.\", \"output_file\": \"audio/seg_01.wav\"}]}"
    case AssemblyMock => "{\"episode_id\": \"mock_id\", \"frame_rate\": 30, \"tracks\": {\"video\": [{\"slot_id\": \"seg_01_shot_01\", \"image_file\": \"assets/images/seg_01_shot_01.png\", \"start_time_sec\": 0.0, \"end_time_sec\": 10.0, \"transition_in\": \"fade\", \"transition_out\": \"cut\"}], \"audio\": [{\"chunk_id\": \"aud_seg_01\", \"audio_file\": \"assets/audio/seg_01.wav\", \"start_time_sec\": 0.0, \"end_time_sec\": 10.0}]}}"
    case QaMock => "# QA Report\nMock report."
    case ScriptMock => "\n[1] EPISODE METADATA\n- Title: Mock Episode\n[2] SEGMENT OUTLINE\n- 0:00 Hook\n[3] FULL VOICE-OVER SCRIPT\nThis is a mock script.\n[4] VISUAL SUGGESTIONS\n- Mock visual.\n[5] NOTES\n- Mock notes.\n"
  }

  // ---------------------------------------------------------------- media generation

  /** One streamed part: its MIME type and the size of its inline data (0 = no data). */
  datatype Part = Part(mime: string, size: nat)

  /** The result of a media call: the path written (or "") and the files afterwards. */
  datatype Generated = Generated(path: string, files: CacheGuard.Files)

  /** Mock mode writes the 15 characters "Mock Image Data" / "Mock Audio Data". */
  const MockPayloadSize: nat := 15

  /** Index of the first streamed part that carries data; the stream is read up to it. */
  function FirstData(parts: seq<Part>): (r: Option<nat>)
    ensures r.Some? ==> r.value < |parts| && parts[r.value].size > 0
    ensures r.Some? ==> forall j :: 0 <= j < r.value ==> parts[j].size == 0
    ensures r.None? ==> forall j :: 0 <= j < |parts| ==> parts[j].size == 0
  {
    if parts == [] then None
    else if parts[0].size > 0 then Some(0)
    else match FirstData(parts[1..])
      case Some(i) => Some(i + 1)
      case None => None
  }

  /**
   * The path actually written: `output_path` when its extension already
   * equals the guessed one ignoring case, otherwise its stem plus the guessed
   * extension.
   */
  function RewriteExtension(outputPath: string, ext: string): (r: string)
    ensures Lower(Splitext(outputPath).1) == Lower(ext) ==> r == outputPath
    ensures Lower(Splitext(outputPath).1) != Lower(ext) ==> r == Splitext(outputPath).0 + ext
    ensures r[..|Splitext(outputPath).0|] == Splitext(outputPath).0
  {
    var (base, ext0) := Splitext(outputPath);
    if Lower(ext0) != Lower(ext) then base + ext else outputPath
  }

  /**
   * On a target `dir/name.ext0` with a plain name, rewriting to a plain
   * extension `e` keeps the stem, leaves an extension equal to `e` ignoring
   * case, and a second rewrite to `e` changes nothing.
   */
  lemma RewriteKeepsStem(dir: string, name: string, ext0: string, e: string)
    requires PlainName(name) && PlainExt(ext0) && PlainExt(e)
    ensures
      var r := RewriteExtension(Join(dir, name + ext0), e);
      && Splitext(r).0 == Join(dir, name)
      && Lower(Splitext(r).1) == Lower(e)
      && RewriteExtension(r, e) == r
  {
    SplitextOfJoin(dir, name, ext0);
    SplitextOfJoin(dir, name, e);
  }

  /** `mimetypes.guess_extension(mime) or ".png"`: a missing or empty guess becomes ".png". */
  function ImageExtension(guess: string -> Option<string>, mime: string): (e: string)
    ensures e != ""
  {
    match guess(mime)
    case Some(g) => if g == "" then ".png" else g
    case None => ".png"
  }

  /** `guess_extension(mime)`, with ".wav" only when there is no guess at all. */
  function SpeechExtension(guess: string -> Option<string>, mime: string): (e: string)
    ensures guess(mime).Some? ==> e == guess(mime).value
  {
    match guess(mime)
    case Some(g) => g
    case None => ".wav"
  }

  /** After a failure, an empty file left at `output_path` is removed (if it can be). */
  function Cleanup(files: CacheGuard.Files, locked: set<string>, outputPath: string): (r: CacheGuard.Files)
    ensures r.Keys <= files.Keys
    ensures forall p :: p in r ==> r[p] == files[p]
    ensures forall p :: p in files && p !in r ==> p == outputPath && files[p] == 0
  {
    if outputPath in files && files[outputPath] == 0 then CacheGuard.Remove(files, locked, outputPath) else files
  }

  /** A prompt Python can slice with `[:30]` (mock mode prints its head). */
  predicate Sliceable(v: Json) {
    v.Str? || v.Arr?
  }

  /**
   * The shared body of `generate_image` and `synthesize_speech` once the
   * client is live: retry the call, read the stream up to the first part
   * with data, write it at the rewritten path; on any failure clean up and
   * return "".
   */
  function LiveMedia(maxRetries: int, ext: string -> string, outputPath: string,
                     attempt: nat -> Attempt<seq<Part>>, files: CacheGuard.Files, locked: set<string>): (r: Generated)
    ensures r.path == "" ==> r.files == Cleanup(files, locked, outputPath)
    ensures r.path != "" ==> r.files.Keys == files.Keys + {r.path} && r.files[r.path] > 0
    ensures r.path != "" ==> forall p :: p in files && p != r.path ==> r.files[p] == files[p]
    ensures
      var run := Retry(maxRetries, 2.0, attempt).result;
      r.path != "" <==>
        && run.Returned? && FirstData(run.value).Some?
        && RewriteExtension(outputPath, ext(run.value[FirstData(run.value).value].mime)) != ""
    ensures
      var run := Retry(maxRetries, 2.0, attempt).result;
      run.Returned? && FirstData(run.value).Some? ==>
        var part := run.value[FirstData(run.value).value];
        var final := RewriteExtension(outputPath, ext(part.mime));
        final != "" ==> r == Generated(final, files[final := part.size])
  {
    match Retry(maxRetries, 2.0, attempt).result
    case Returned(parts) =>
      (match FirstData(parts)
       case Some(i) =>
         var e := ext(parts[i].mime);
         var final := RewriteExtension(outputPath, e);
         if final == "" then
           // an empty path cannot be opened: the write raises and the failure path runs
           Generated("", Cleanup(files, locked, outputPath))
         else
           Generated(final, files[final := parts[i].size])
       case None => Generated("", Cleanup(files, locked, outputPath)))
    case _ => Generated("", Cleanup(files, locked, outputPath))
  }

  /**
   * A live media call in terms of the first try that is not rate-limited,
   * when it comes within the budget: a failure there, or a stream without
   * data, leaves "" and the cleaned-up files; data is written at the
   * rewritten path.
   */
  lemma LiveMediaOutcome(maxRetries: int, ext: string -> string, outputPath: string,
                         attempt: nat -> Attempt<seq<Part>>, files: CacheGuard.Files, locked: set<string>, n: nat)
    requires n < maxRetries && SettlesAt(attempt, n)
    ensures attempt(n).Throws? ==>
      LiveMedia(maxRetries, ext, outputPath, attempt, files, locked) == Generated("", Cleanup(files, locked, outputPath))
    ensures attempt(n).Returns? && FirstData(attempt(n).value).None? ==>
      LiveMedia(maxRetries, ext, outputPath, attempt, files, locked) == Generated("", Cleanup(files, locked, outputPath))
    ensures attempt(n).Returns? && FirstData(attempt(n).value).Some? ==>
      var part := attempt(n).value[FirstData(attempt(n).value).value];
      var final := RewriteExtension(outputPath, ext(part.mime));
      final != "" ==> LiveMedia(maxRetries, ext, outputPath, attempt, files, locked) == Generated(final, files[final := part.size])
  {
    RetryOutcome(maxRetries, 2.0, attempt, n);
  }

  /**
   * `generate_image`.  `None` is an exception escaping the call (mock mode
   * slicing a prompt that cannot be sliced); every other failure is caught
   * and yields "".  The model-name lookup in the configuration, which runs
   * before the mock test, is taken to succeed.
   */
  function GenerateImage(mode: Mode, prompt: Json, outputPath: string, attempt: nat -> Attempt<seq<Part>>,
                         guess: string -> Option<string>, files: CacheGuard.Files, locked: set<string>): (r: Option<Generated>)
    ensures r.None? <==> mode == Mock && !Sliceable(prompt)
    ensures mode == Mock && r.Some? ==> r.value == Generated(outputPath, files[outputPath := MockPayloadSize])
    ensures mode == NoClient ==> r == Some(Generated("", files))
    ensures mode == Live ==> r == Some(LiveMedia(ImageRetries, ImageExtOf(guess), outputPath, attempt, files, locked))
    ensures r.Some? ==> forall p :: p in files && p !in r.value.files ==> p == outputPath && files[p] == 0
  {
    match mode
    case Mock =>
      if Sliceable(prompt) then Some(Generated(outputPath, files[outputPath := MockPayloadSize])) else None
    case NoClient => Some(Generated("", files))
    case Live => Some(LiveMedia(ImageRetries, ImageExtOf(guess), outputPath, attempt, files, locked))
  }

  /** The image call's extension rule as a function of the MIME type. */
  function ImageExtOf(guess: string -> Option<string>): string -> string {
    m => ImageExtension(guess, m)
  }

  /** The speech call's extension rule as a function of the MIME type. */
  function SpeechExtOf(guess: string -> Option<string>): string -> string {
    m => SpeechExtension(guess, m)
  }

  /**
   * `synthesize_speech`: like `generate_image`, but the mock branch does not
   * slice the text, so it cannot raise, and the default extension is ".wav".
   * The model-name and voice-name lookups in the configuration are taken to
   * succeed.
   */
  function SynthesizeSpeech(mode: Mode, outputPath: string, attempt: nat -> Attempt<seq<Part>>,
                            guess: string -> Option<string>, files: CacheGuard.Files, locked: set<string>): (r: Generated)
    ensures mode == Mock ==> r == Generated(outputPath, files[outputPath := MockPayloadSize])
    ensures mode == NoClient ==> r == Generated("", files)
    ensures mode == Live ==> r == LiveMedia(SpeechRetries, SpeechExtOf(guess), outputPath, attempt, files, locked)
    ensures forall p :: p in files && p !in r.files ==> p == outputPath && files[p] == 0
  {
    match mode
    case Mock => Generated(outputPath, files[outputPath := MockPayloadSize])
    case NoClient => Generated("", files)
    case Live => LiveMedia(SpeechRetries, SpeechExtOf(guess), outputPath, attempt, files, locked)
  }
}
