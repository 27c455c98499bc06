/**
 * `render_video` (tools/render_video.py): turn a timeline into two ffmpeg
 * concat lists and run ffmpeg on them, once with audio and, if that fails,
 * once more without.  Which paths exist, `os.path.abspath` and ffmpeg itself
 * are oracles; the lists are returned as data rather than written.
 */
module Render {
  import opened Wrappers
  import opened Text
  import opened Json
  import opened Paths

  /** What `subprocess.run(cmd, check=True)` does: finish, exit non-zero, or find no ffmpeg. */
  datatype Exec = Success | ProcessError | NotFound

  /** The world the renderer sees: the paths that exist, `os.path.abspath`, and ffmpeg. */
  datatype World = World(present: set<string>, abs: string -> string, ffmpeg: seq<string> -> Exec)

  /** `timeline.json` as the renderer finds it. */
  datatype TimelineFile = Absent | Malformed | Parsed(value: Json)

  /** One line of a concat list: `file '<path>'` or `duration <seconds>`. */
  datatype Line = FileLine(path: string) | DurationLine(seconds: real)

  /** How the ffmpeg phase ended when it did not raise. */
  datatype Status = Rendered | VideoOnly | BothFailed | FfmpegMissing

  /**
   * How a call ends: without writing anything (no timeline, no video
   * entries), with both lists written and ffmpeg run, or with an exception
   * escaping to the caller.
   */
  datatype Result =
    | NoTimeline
    | NoVideo
    | Finished(video: seq<Line>, audio: seq<Line>, runs: seq<seq<string>>, status: Status)
    | Raised

  // ---------------------------------------------------------------- path resolution

  /** `<episode>/assets/<kind>/<basename(ref)>`. */
  function AssetPath(ep: string, kind: string, ref: string): string {
    Join(Join(Join(ep, "assets"), kind), Basename(ref))
  }

  /**
   * The four-step fallback: an absolute reference as it is; otherwise the
   * reference itself, the reference under the episode, or its file name under
   * `assets/<kind>`, whichever exists first; otherwise the reference unchanged.
   */
  function Resolve(ref: string, ep: string, kind: string, present: set<string>): (r: string)
    ensures IsAbs(ref) ==> r == ref
    ensures r == ref || r == Join(ep, ref) || r == AssetPath(ep, kind, ref)
    ensures r != ref ==> r in present
  {
    if IsAbs(ref) then ref
    else if ref in present then ref
    else if Join(ep, ref) in present then Join(ep, ref)
    else if AssetPath(ep, kind, ref) in present then AssetPath(ep, kind, ref)
    else ref
  }

  /** `candidates[k]` is the first of `candidates` that exists. */
  predicate FirstIn(candidates: seq<string>, present: set<string>, k: nat) {
    k < |candidates| && candidates[k] in present && forall j :: 0 <= j < k ==> candidates[j] !in present
  }

  /** The first of `candidates` that exists, or `fallback`. */
  function FirstExisting(candidates: seq<string>, present: set<string>, fallback: string): (r: string)
    ensures forall k: nat :: FirstIn(candidates, present, k) ==> r == candidates[k]
    ensures (forall k :: 0 <= k < |candidates| ==> candidates[k] !in present) ==> r == fallback
  {
    if candidates == [] then fallback
    else if candidates[0] in present then candidates[0]
    else FirstExisting(candidates[1..], present, fallback)
  }

  /** The paths a relative reference is looked up at, in order. */
  function Chain(ref: string, ep: string, kind: string): seq<string> {
    [ref, Join(ep, ref), AssetPath(ep, kind, ref)]
  }

  /** `Resolve` picks the first existing path of the chain, and keeps the reference when none exists. */
  lemma ResolveIsFirstExisting(ref: string, ep: string, kind: string, present: set<string>)
    requires !IsAbs(ref)
    ensures Resolve(ref, ep, kind, present) == FirstExisting(Chain(ref, ep, kind), present, ref)
  {
    FirstOfThree(ref, Join(ep, ref), AssetPath(ep, kind, ref), present);
  }

  lemma FirstOfThree(a: string, b: string, c: string, present: set<string>)
    ensures FirstExisting([a, b, c], present, a) ==
      if a in present then a else if b in present then b else if c in present then c else a
  {
    var cs := [a, b, c];
    if a in present {
      assert FirstIn(cs, present, 0);
    } else if b in present {
      assert FirstIn(cs, present, 1);
    } else if c in present {
      assert FirstIn(cs, present, 2);
    } else {
      assert forall k :: 0 <= k < |cs| ==> cs[k] !in present;
    }
  }

  /**
   * The repeated last clip uses a shorter chain: an absolute reference, the
   * reference if it exists, and otherwise the reference under the episode,
   * existing or not.
   */
  function ResolveLast(ref: string, ep: string, present: set<string>): (r: string)
    ensures IsAbs(ref) || ref in present ==> r == ref
    ensures !IsAbs(ref) && ref !in present ==> r == Join(ep, ref)
  {
    if IsAbs(ref) then ref
    else if ref in present then ref
    else Join(ep, ref)
  }

  /** A path as written to a concat list: made absolute, with every backslash turned into a slash. */
  function Clean(abs: string -> string, p: string): (r: string)
    ensures forall k :: 0 <= k < |r| ==> r[k] != '\\'
  {
    ReplaceChar(abs(p), '\\', '/')
  }

  /** A line whose path, if it has one, holds no backslash. */
  predicate CleanLine(line: Line) {
    line.FileLine? ==> forall j :: 0 <= j < |line.path| ==> line.path[j] != '\\'
  }

  // ---------------------------------------------------------------- concat lists

  /** The string a clip holds under `key`; `None` when the clip is no dict or the value is no string (the renderer raises). */
  function RefOf(clip: Json, key: string): (r: Option<string>)
    ensures r.Some? <==> clip.Obj? && key in clip.fields && clip.fields[key].Str?
    ensures r.Some? ==> r.value == clip.fields[key].s
  {
    if clip.Obj? && key in clip.fields && clip.fields[key].Str? then Some(clip.fields[key].s) else None
  }

  /** `clip.get('end_time_sec', 0) - clip.get('start_time_sec', 0)`; `None` when the subtraction raises. */
  function Duration(clip: Json): (r: Option<real>)
    requires clip.Obj?
    ensures "end_time_sec" !in clip.fields && "start_time_sec" !in clip.fields ==> r == Some(0.0)
    ensures "end_time_sec" in clip.fields && clip.fields["end_time_sec"].Num? && "start_time_sec" !in clip.fields ==>
      r == Some(clip.fields["end_time_sec"].n)
    ensures
      var e := Get(clip, "end_time_sec", Num(0.0)).value;
      var s := Get(clip, "start_time_sec", Num(0.0)).value;
      && (r.Some? <==> AsNumber(e).Some? && AsNumber(s).Some?)
      && (r.Some? ==> r.value == AsNumber(e).value - AsNumber(s).value)
    ensures
      && "end_time_sec" in clip.fields && clip.fields["end_time_sec"].Num?
      && "start_time_sec" in clip.fields && clip.fields["start_time_sec"].Num? ==>
      r == Some(clip.fields["end_time_sec"].n - clip.fields["start_time_sec"].n)
  {
    Minus(Get(clip, "end_time_sec", Num(0.0)).value, Get(clip, "start_time_sec", Num(0.0)).value)
  }

  /** A video clip the list can take: a dict with a string `image_file` and subtractable times. */
  predicate VideoClip(clip: Json) {
    RefOf(clip, "image_file").Some? && Duration(clip).Some?
  }

  /** The resolved, cleaned path of a video clip. */
  function VideoPath(clip: Json, ep: string, w: World): string
    requires RefOf(clip, "image_file").Some?
  {
    Clean(w.abs, Resolve(RefOf(clip, "image_file").value, ep, "images", w.present))
  }

  /**
   * The video entries from `clips[from..]`: a file line and a duration line
   * for every clip, in order, none dropped; `None` when some clip raises.
   */
  function VideoLines(clips: seq<Json>, from: nat, ep: string, w: World): (r: Option<seq<Line>>)
    requires from <= |clips|
    ensures r.Some? <==> forall k :: from <= k < |clips| ==> VideoClip(clips[k])
    ensures r.Some? ==> |r.value| == 2 * (|clips| - from)
    ensures r.Some? ==> forall k :: from <= k < |clips| ==>
      && r.value[2 * (k - from)] == FileLine(VideoPath(clips[k], ep, w))
      && r.value[2 * (k - from) + 1] == DurationLine(Duration(clips[k]).value)
    ensures r.Some? ==> forall j :: 0 <= j < |r.value| ==> CleanLine(r.value[j])
    decreases |clips| - from
  {
    if from == |clips| then Some([])
    else
      var clip := clips[from];
      if !VideoClip(clip) then None
      else
        match VideoLines(clips, from + 1, ep, w)
        case None => None
        case Some(rest) =>
          VideoLinesCons(clips, from, ep, w, rest);
          Some([FileLine(VideoPath(clip, ep, w)), DurationLine(Duration(clip).value)] + rest)
  }

  /** Two lines for the clip at `from` in front of the lines of the clips after it give the lines of `clips[from..]`. */
  lemma VideoLinesCons(clips: seq<Json>, from: nat, ep: string, w: World, rest: seq<Line>)
    requires from < |clips| && VideoClip(clips[from])
    requires |rest| == 2 * (|clips| - (from + 1))
    requires forall k :: from + 1 <= k < |clips| ==>
      && VideoClip(clips[k])
      && rest[2 * (k - (from + 1))] == FileLine(VideoPath(clips[k], ep, w))
      && rest[2 * (k - (from + 1)) + 1] == DurationLine(Duration(clips[k]).value)
    requires forall j :: 0 <= j < |rest| ==> CleanLine(rest[j])
    ensures var r := [FileLine(VideoPath(clips[from], ep, w)), DurationLine(Duration(clips[from]).value)] + rest;
      && |r| == 2 * (|clips| - from)
      && (forall k :: from <= k < |clips| ==>
            && VideoClip(clips[k])
            && r[2 * (k - from)] == FileLine(VideoPath(clips[k], ep, w))
            && r[2 * (k - from) + 1] == DurationLine(Duration(clips[k]).value))
      && (forall j :: 0 <= j < |r| ==> CleanLine(r[j]))
  {
    var head := [FileLine(VideoPath(clips[from], ep, w)), DurationLine(Duration(clips[from]).value)];
    var r := head + rest;
    assert CleanLine(head[0]) && CleanLine(head[1]);
    forall k | from <= k < |clips|
      ensures VideoClip(clips[k])
      ensures r[2 * (k - from)] == FileLine(VideoPath(clips[k], ep, w))
      ensures r[2 * (k - from) + 1] == DurationLine(Duration(clips[k]).value)
    {
      if k > from {
        assert r[2 * (k - from)] == rest[2 * (k - (from + 1))];
        assert r[2 * (k - from) + 1] == rest[2 * (k - (from + 1)) + 1];
      }
    }
    CleanLinesJoin(head, rest);
  }

  /** Joining two lists of clean lines gives a list of clean lines. */
  lemma CleanLinesJoin(a: seq<Line>, b: seq<Line>)
    requires forall j :: 0 <= j < |a| ==> CleanLine(a[j])
    requires forall j :: 0 <= j < |b| ==> CleanLine(b[j])
    ensures forall j :: 0 <= j < |a + b| ==> CleanLine((a + b)[j])
  {
    forall j | |a| <= j < |a + b|
      ensures CleanLine((a + b)[j])
    {
      assert (a + b)[j] == b[j - |a|];
    }
  }

  /** An audio clip the list can take: a dict with a string `audio_file`. */
  predicate AudioClip(clip: Json) {
    RefOf(clip, "audio_file").Some?
  }

  /** Where an audio clip resolves to, falling back to `assets/audio`. */
  function AudioTarget(clip: Json, ep: string, w: World): string
    requires AudioClip(clip)
  {
    Resolve(RefOf(clip, "audio_file").value, ep, "audio", w.present)
  }

  /** The audio list and, for each of its lines, the index of the clip it came from. */
  datatype AudioList = AudioList(lines: seq<Line>, kept: seq<nat>)

  /** Every audio clip from `from` on can be listed: each is a dict with a string `audio_file`. */
  predicate AudioReady(clips: seq<Json>, from: nat) {
    forall k :: from <= k < |clips| ==> AudioClip(clips[k])
  }

  /** The resolved path of every audio clip, in order. */
  function AudioTargets(clips: seq<Json>, ep: string, w: World): (r: seq<string>)
    requires AudioReady(clips, 0)
    ensures |r| == |clips| && forall k :: 0 <= k < |clips| ==> r[k] == AudioTarget(clips[k], ep, w)
  {
    seq(|clips|, k requires 0 <= k < |clips| => AudioTarget(clips[k], ep, w))
  }

  /**
   * `a` lists exactly the targets of `targets[from..]` that exist, in order,
   * each by its cleaned path, and `a.kept` says which.
   */
  predicate KeptSpec(targets: seq<string>, from: nat, present: set<string>, abs: string -> string, a: AudioList) {
    && |a.lines| == |a.kept|
    && (forall j :: 0 <= j < |a.kept| ==>
          && from <= a.kept[j] < |targets|
          && targets[a.kept[j]] in present
          && a.lines[j] == FileLine(Clean(abs, targets[a.kept[j]])))
    && (forall i, j :: 0 <= i < j < |a.kept| ==> a.kept[i] < a.kept[j])
    && (forall k :: from <= k < |targets| && targets[k] in present ==> k in a.kept)
    && (forall j :: 0 <= j < |a.lines| ==> CleanLine(a.lines[j]))
  }

  /** The existing targets of `targets[from..]`, in order: the missing ones are dropped. */
  function KeepExisting(targets: seq<string>, from: nat, present: set<string>, abs: string -> string): (r: AudioList)
    requires from <= |targets|
    ensures KeptSpec(targets, from, present, abs, r)
    decreases |targets| - from
  {
    if from == |targets| then AudioList([], [])
    else
      var rest := KeepExisting(targets, from + 1, present, abs);
      var t := targets[from];
      var a := if t in present then AudioList([FileLine(Clean(abs, t))] + rest.lines, [from] + rest.kept) else rest;
      KeepCons(targets, from, present, abs, rest, a);
      a
  }

  /** Listing or dropping target `from` in front of the list for the targets after it. */
  lemma KeepCons(targets: seq<string>, from: nat, present: set<string>, abs: string -> string, rest: AudioList, a: AudioList)
    requires from < |targets|
    requires KeptSpec(targets, from + 1, present, abs, rest)
    requires
      var t := targets[from];
      a == if t in present then AudioList([FileLine(Clean(abs, t))] + rest.lines, [from] + rest.kept) else rest
    ensures KeptSpec(targets, from, present, abs, a)
  {
    if targets[from] in present {
      KeepFront(targets, from, present, abs, rest, a);
    } else {
      forall k | from <= k < |targets| && targets[k] in present
        ensures k in a.kept
      {
        assert k != from;
      }
    }
  }

  lemma KeepFront(targets: seq<string>, from: nat, present: set<string>, abs: string -> string, rest: AudioList, a: AudioList)
    requires from < |targets| && targets[from] in present
    requires KeptSpec(targets, from + 1, present, abs, rest)
    requires a == AudioList([FileLine(Clean(abs, targets[from]))] + rest.lines, [from] + rest.kept)
    ensures KeptSpec(targets, from, present, abs, a)
  {
    forall j | 1 <= j < |a.kept|
      ensures a.kept[j] == rest.kept[j - 1] && a.lines[j] == rest.lines[j - 1]
    {
    }
    assert forall j :: 0 <= j < |a.kept| ==>
          && from <= a.kept[j] < |targets|
          && targets[a.kept[j]] in present
          && a.lines[j] == FileLine(Clean(abs, targets[a.kept[j]]));
    assert forall i, j :: 0 <= i < j < |a.kept| ==> a.kept[i] < a.kept[j];
    forall k | from <= k < |targets| && targets[k] in present
      ensures k in a.kept
    {
      if k != from {
        assert k in rest.kept;
      }
    }
    assert forall j :: 0 <= j < |a.lines| ==> CleanLine(a.lines[j]);
  }

  /**
   * The audio list: every clip must be a dict with a string `audio_file`
   * (`None`: the renderer raises); a clip whose resolved path does not exist
   * is dropped, the others become file lines in order.
   */
  function AudioLines(clips: seq<Json>, ep: string, w: World): (r: Option<AudioList>)
    ensures r.Some? <==> AudioReady(clips, 0)
    ensures r.Some? ==> |r.value.kept| <= |clips|
    ensures r.Some? ==> KeptSpec(AudioTargets(clips, ep, w), 0, w.present, w.abs, r.value)
  {
    if !AudioReady(clips, 0) then None
    else
      var r := KeepExisting(AudioTargets(clips, ep, w), 0, w.present, w.abs);
      KeptBound(AudioTargets(clips, ep, w), w.present, w.abs, r);
      Some(r)
  }

  /** At most one line per target. */
  lemma KeptBound(targets: seq<string>, present: set<string>, abs: string -> string, a: AudioList)
    requires KeptSpec(targets, 0, present, abs, a)
    ensures |a.kept| <= |targets|
  {
    IncreasingBound(a.kept, 0, |targets|);
  }

  /** A strictly increasing sequence drawn from `[lo, hi)` has at most `hi - lo` entries. */
  lemma {:induction false} IncreasingBound(xs: seq<nat>, lo: nat, hi: nat)
    requires lo <= hi
    requires forall j :: 0 <= j < |xs| ==> lo <= xs[j] < hi
    requires forall i, j :: 0 <= i < j < |xs| ==> xs[i] < xs[j]
    ensures |xs| <= hi - lo
  {
    if xs != [] {
      var tail := xs[1..];
      forall j | 0 <= j < |tail|
        ensures xs[0] + 1 <= tail[j] < hi
      {
        assert tail[j] == xs[j + 1];
      }
      IncreasingBound(tail, xs[0] + 1, hi);
      assert |xs| == |tail| + 1;
    }
  }

  // ---------------------------------------------------------------- ffmpeg

  /** The first command: both concat lists as inputs, video and audio encoded. */
  function FullCommand(videoList: string, audioList: string, output: string): seq<string> {
    ["ffmpeg", "-y",
     "-f", "concat", "-safe", "0", "-i", videoList,
     "-f", "concat", "-safe", "0", "-i", audioList,
     "-c:v", "libx264", "-r", "30", "-pix_fmt", "yuv420p",
     "-c:a", "aac", "-b:a", "192k",
     "-shortest", output]
  }

  /** The fallback command: the video concat list only, no audio options. */
  function VideoOnlyCommand(videoList: string, output: string): seq<string> {
    ["ffmpeg", "-y",
     "-f", "concat", "-safe", "0", "-i", videoList,
     "-c:v", "libx264", "-r", "30", "-pix_fmt", "yuv420p",
     "-shortest", output]
  }

  /** The fallback is the first command without the audio input and without `-c:a aac -b:a 192k`. */
  lemma VideoOnlyDropsAudio(videoList: string, audioList: string, output: string)
    ensures
      var full := FullCommand(videoList, audioList, output);
      && full[8..14] == ["-f", "concat", "-safe", "0", "-i", audioList]
      && full[20..24] == ["-c:a", "aac", "-b:a", "192k"]
      && VideoOnlyCommand(videoList, output) == full[..8] + full[14..20] + full[24..]
  {
    var full := FullCommand(videoList, audioList, output);
    assert full[..8] == ["ffmpeg", "-y", "-f", "concat", "-safe", "0", "-i", videoList];
    assert full[14..20] == ["-c:v", "libx264", "-r", "30", "-pix_fmt", "yuv420p"];
    assert full[24..] == ["-shortest", output];
    assert full[8..14] == ["-f", "concat", "-safe", "0", "-i", audioList];
    assert full[20..24] == ["-c:a", "aac", "-b:a", "192k"];
    assert VideoOnlyCommand(videoList, output) ==
      ["ffmpeg", "-y", "-f", "concat", "-safe", "0", "-i", videoList] +
      ["-c:v", "libx264", "-r", "30", "-pix_fmt", "yuv420p"] +
      ["-shortest", output];
  }

  /**
   * The two-tier run: the full command; on a non-zero exit, once more video
   * only.  A missing ffmpeg on the first run ends it quietly; on the second
   * run it escapes the handler (`None`).
   */
  function RunFfmpeg(full: seq<string>, videoOnly: seq<string>, ffmpeg: seq<string> -> Exec): (r: (seq<seq<string>>, Option<Status>))
    ensures 1 <= |r.0| <= 2 && r.0[0] == full
    ensures |r.0| == 2 <==> ffmpeg(full) == ProcessError
    ensures |r.0| == 2 ==> r.0[1] == videoOnly
    ensures ffmpeg(full) == Success <==> r.1 == Some(Rendered)
    ensures ffmpeg(full) == NotFound <==> r.1 == Some(FfmpegMissing)
    ensures r.1 == Some(VideoOnly) <==> ffmpeg(full) == ProcessError && ffmpeg(videoOnly) == Success
    ensures r.1 == Some(BothFailed) <==> ffmpeg(full) == ProcessError && ffmpeg(videoOnly) == ProcessError
    ensures r.1.None? <==> ffmpeg(full) == ProcessError && ffmpeg(videoOnly) == NotFound
  {
    match ffmpeg(full)
    case Success => ([full], Some(Rendered))
    case NotFound => ([full], Some(FfmpegMissing))
    case ProcessError =>
      match ffmpeg(videoOnly)
      case Success => ([full, videoOnly], Some(VideoOnly))
      case ProcessError => ([full, videoOnly], Some(BothFailed))
      case NotFound => ([full, videoOnly], None)
  }

  // ---------------------------------------------------------------- the whole call

  /** `timeline.get('tracks', {}).get(key, [])`; `None` when either `get` raises. */
  function Track(timeline: Json, key: string): (r: Option<Json>)
    ensures r.Some? <==> timeline.Obj? && Get(timeline, "tracks", Obj(map[])).value.Obj?
  {
    match Get(timeline, "tracks", Obj(map[]))
    case None => None
    case Some(tracks) => Get(tracks, key, Arr([]))
  }

  /** The paths of one episode's render. */
  function EpisodeDir(episodesDir: string, episodeId: string): string {
    Join(episodesDir, episodeId)
  }

  /**
   * `render_video(episode_id, episodes_dir)`: nothing happens without a
   * timeline file; a file that does not parse raises.
   */
  function RenderVideo(episodeId: string, episodesDir: string, file: TimelineFile, w: World): (r: Result)
    ensures file.Absent? ==> r == NoTimeline
    ensures file.Malformed? ==> r == Raised
    ensures file.Parsed? ==> r == RenderTimeline(file.value, EpisodeDir(episodesDir, episodeId), w)
  {
    match file
    case Absent => NoTimeline
    case Malformed => Raised
    case Parsed(timeline) => RenderTimeline(timeline, EpisodeDir(episodesDir, episodeId), w)
  }

  /**
   * A parsed timeline: nothing is written when its video track is falsy;
   * otherwise both tracks must be iterable and the lists are built.
   */
  function RenderTimeline(timeline: Json, ep: string, w: World): (r: Result)
    ensures r.NoVideo? <==> Track(timeline, "video").Some? && !Truthy(Track(timeline, "video").value)
    ensures !r.NoTimeline?
    ensures r.Finished? ==>
      && Track(timeline, "video").Some? && Track(timeline, "video").value.Arr?
      && |Track(timeline, "video").value.items| > 0
      && Elements(Track(timeline, "audio").value).Some?
      && r == RenderLists(Track(timeline, "video").value.items, Elements(Track(timeline, "audio").value).value, ep, w)
    ensures
      && Track(timeline, "video").Some? && Truthy(Track(timeline, "video").value)
      && Elements(Track(timeline, "video").value).Some? && Elements(Track(timeline, "audio").value).Some? ==>
      r == RenderLists(Elements(Track(timeline, "video").value).value, Elements(Track(timeline, "audio").value).value, ep, w)
    ensures
      && Track(timeline, "video").Some? && Truthy(Track(timeline, "video").value)
      && (Elements(Track(timeline, "video").value).None? || Elements(Track(timeline, "audio").value).None?) ==>
      r == Raised
  {
    match Track(timeline, "video")
    case None => Raised
    case Some(videoTrack) =>
      if !Truthy(videoTrack) then NoVideo
      else
        match Elements(videoTrack)
        case None => Raised
        case Some(clips) =>
          match Elements(Track(timeline, "audio").value)
          case None => Raised
          case Some(audioClips) => RenderLists(clips, audioClips, ep, w)
  }

  /** Every video clip can be listed: each is a dict with a string `image_file` and subtractable times. */
  predicate VideoReady(clips: seq<Json>) {
    forall k :: 0 <= k < |clips| ==> VideoClip(clips[k])
  }

  /** The whole video list: every clip's two lines, then the last clip once more, resolved by the short chain. */
  function VideoList(clips: seq<Json>, ep: string, w: World): (r: Option<seq<Line>>)
    requires |clips| > 0
    ensures r.Some? <==> VideoReady(clips)
    ensures r.Some? ==>
      && |r.value| == 2 * |clips| + 1
      && (forall k :: 0 <= k < |clips| ==>
            && r.value[2 * k] == FileLine(VideoPath(clips[k], ep, w))
            && r.value[2 * k + 1] == DurationLine(Duration(clips[k]).value))
      && r.value[2 * |clips|] == FileLine(Clean(w.abs, ResolveLast(RefOf(clips[|clips| - 1], "image_file").value, ep, w.present)))
    ensures r.Some? ==> forall j :: 0 <= j < |r.value| ==> CleanLine(r.value[j])
  {
    match VideoLines(clips, 0, ep, w)
    case None => None
    case Some(lines) =>
      var last := Clean(w.abs, ResolveLast(RefOf(clips[|clips| - 1], "image_file").value, ep, w.present));
      Some(lines + [FileLine(last)])
  }

  /** The ffmpeg phase of an episode directory: the full command, then the video-only fallback. */
  function FfmpegPhase(ep: string, w: World): (seq<seq<string>>, Option<Status>) {
    var videoList := Join(ep, "video_concat.txt");
    var output := Join(ep, "final_video.mp4");
    RunFfmpeg(FullCommand(videoList, Join(ep, "audio_concat.txt"), output), VideoOnlyCommand(videoList, output), w.ffmpeg)
  }

  /**
   * The lists and the ffmpeg runs for non-empty video clips.  The video list
   * is `VideoList`; the audio list holds only the clips that resolve to
   * existing files; every written path is free of backslashes; ffmpeg runs
   * once or twice.
   */
  function RenderLists(clips: seq<Json>, audioClips: seq<Json>, ep: string, w: World): (r: Result)
    requires |clips| > 0
    ensures r.Finished? || r.Raised?
    ensures r.Finished? ==> VideoList(clips, ep, w) == Some(r.video)
    ensures r.Finished? ==> AudioLines(audioClips, ep, w).Some? && r.audio == AudioLines(audioClips, ep, w).value.lines
    ensures r.Finished? ==>
      && 1 <= |r.runs| <= 2
      && r.runs[0] == FullCommand(Join(ep, "video_concat.txt"), Join(ep, "audio_concat.txt"), Join(ep, "final_video.mp4"))
      && (|r.runs| == 2 ==> r.runs[1] == VideoOnlyCommand(Join(ep, "video_concat.txt"), Join(ep, "final_video.mp4")))
    ensures r.Finished? ==> (forall j :: 0 <= j < |r.video| ==> CleanLine(r.video[j])) && forall j :: 0 <= j < |r.audio| ==> CleanLine(r.audio[j])
    ensures r.Finished? <==> VideoReady(clips) && AudioLines(audioClips, ep, w).Some? && FfmpegPhase(ep, w).1.Some?
    ensures r.Finished? ==> r.runs == FfmpegPhase(ep, w).0 && Some(r.status) == FfmpegPhase(ep, w).1
  {
    match VideoList(clips, ep, w)
    case None => Raised
    case Some(video) =>
      match AudioLines(audioClips, ep, w)
      case None => Raised
      case Some(audio) =>
        var run := FfmpegPhase(ep, w);
        match run.1
        case None => Raised
        case Some(status) => Finished(video, audio.lines, run.0, status)
  }
}

module RenderExamples {
  import opened Wrappers
  import opened Json
  import opened Paths
  import opened Render

  /**
   * A bare image name that exists only under `assets/images` is found for
   * the clip's own entry, but the repeated last entry points under the
   * episode directory, where nothing exists.
   */
  lemma LastClipShortChain(ref: string, ep: string, present: set<string>)
    requires !IsAbs(ref) && ref !in present && Join(ep, ref) !in present
    requires AssetPath(ep, "images", ref) in present
    ensures Resolve(ref, ep, "images", present) == AssetPath(ep, "images", ref)
    ensures ResolveLast(ref, ep, present) == Join(ep, ref) && Join(ep, ref) !in present
  {
  }

  /** Audio falls back to `assets/audio`, never to `assets/images`. */
  lemma AudioFallsBackToAudioDir(clip: Json, ep: string, w: World)
    requires AudioClip(clip)
    requires
      var ref := RefOf(clip, "audio_file").value;
      !IsAbs(ref) && ref !in w.present && Join(ep, ref) !in w.present && AssetPath(ep, "audio", ref) in w.present
    ensures AudioTarget(clip, ep, w) == AssetPath(ep, "audio", RefOf(clip, "audio_file").value)
  {
  }

  /** The audio list is empty exactly when none of the audio clips resolves to an existing file. */
  lemma {:induction false} EmptyAudioIffNoneFound(clips: seq<Json>, ep: string, w: World)
    requires AudioLines(clips, ep, w).Some?
    ensures AudioLines(clips, ep, w).value.lines == [] <==>
      forall k :: 0 <= k < |clips| ==> AudioTarget(clips[k], ep, w) !in w.present
  {
    var a := AudioLines(clips, ep, w).value;
    var targets := AudioTargets(clips, ep, w);
    if a.lines == [] {
      forall k | 0 <= k < |clips|
        ensures AudioTarget(clips[k], ep, w) !in w.present
      {
        assert targets[k] in w.present ==> k in a.kept;
      }
    } else {
      assert targets[a.kept[0]] in w.present;
    }
  }

  /** One clip with a plain image name and given start and end times. */
  function Shot(image: string, start: real, end: real): (r: Json)
    ensures VideoClip(r) && RefOf(r, "image_file") == Some(image) && Duration(r) == Some(end - start)
  {
    Obj(map["image_file" := Str(image), "start_time_sec" := Num(start), "end_time_sec" := Num(end)])
  }

  /**
   * One shot and one narration chunk that cannot be found: the audio list is
   * written empty, the video list holds the shot twice, and a successful
   * ffmpeg run ends the call after one command.
   */
  lemma MissingAudioStillRenders(shot: Json, chunk: Json, ep: string, w: World)
    requires VideoClip(shot) && AudioClip(chunk) && AudioTarget(chunk, ep, w) !in w.present
    requires
      w.ffmpeg(FullCommand(Join(ep, "video_concat.txt"), Join(ep, "audio_concat.txt"), Join(ep, "final_video.mp4"))) == Success
    ensures
      var last := Clean(w.abs, ResolveLast(RefOf(shot, "image_file").value, ep, w.present));
      RenderLists([shot], [chunk], ep, w) ==
        Finished([FileLine(VideoPath(shot, ep, w)), DurationLine(Duration(shot).value), FileLine(last)], [],
                 [FullCommand(Join(ep, "video_concat.txt"), Join(ep, "audio_concat.txt"), Join(ep, "final_video.mp4"))],
                 Rendered)
  {
    OneShotList(shot, ep, w);
    NoAudioFound(chunk, ep, w);
    var full := FullCommand(Join(ep, "video_concat.txt"), Join(ep, "audio_concat.txt"), Join(ep, "final_video.mp4"));
    var videoOnly := VideoOnlyCommand(Join(ep, "video_concat.txt"), Join(ep, "final_video.mp4"));
    assert RunFfmpeg(full, videoOnly, w.ffmpeg) == ([full], Some(Rendered));
  }

  /** A single narration chunk found nowhere yields an empty audio list. */
  lemma NoAudioFound(chunk: Json, ep: string, w: World)
    requires AudioClip(chunk) && AudioTarget(chunk, ep, w) !in w.present
    ensures AudioLines([chunk], ep, w).Some?
    ensures AudioLines([chunk], ep, w).value.lines == []
  {
    assert AudioReady([chunk], 0);
    EmptyAudioIffNoneFound([chunk], ep, w);
  }

  /** The video list of a single shot: the shot, its duration, and the shot again by the short chain. */
  lemma OneShotList(shot: Json, ep: string, w: World)
    requires VideoClip(shot)
    ensures VideoList([shot], ep, w) == Some([
      FileLine(VideoPath(shot, ep, w)),
      DurationLine(Duration(shot).value),
      FileLine(Clean(w.abs, ResolveLast(RefOf(shot, "image_file").value, ep, w.present)))])
  {
    var clips := [shot];
    assert VideoReady(clips);
    var r := VideoList(clips, ep, w).value;
    assert |r| == 3;
    assert r[0] == FileLine(VideoPath(clips[0], ep, w));
    assert r[1] == DurationLine(Duration(clips[0]).value);
    assert r[2] == FileLine(Clean(w.abs, ResolveLast(RefOf(clips[0], "image_file").value, ep, w.present)));
    assert r == [r[0], r[1], r[2]];
  }
}
