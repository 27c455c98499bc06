/**
 * `VoiceOverAgent.run` (agents/voice_over.py): ask for a TTS plan, store and
 * persist it, then for every chunk with a text and an output file reuse a
 * cached recording under `assets/audio` or synthesise one, and record the
 * path used in the chunk's `absolute_path`.
 */
module VoiceOver {
  import opened Wrappers
  import opened Json
  import opened Paths
  import opened CacheGuard
  import opened RemoteApi
  import opened Episode
  import opened Scripting

  const VoiceOverPrompt := "voice_over_agent.md"

  /** `assets/audio` under the episode root. */
  function AudioDir(root: string): string {
    Join(Join(root, "assets"), "audio")
  }

  /** `context.get('script')` is truthy. */
  predicate HasScript(ctx: Context) {
    ctx.script.Some? && ctx.script.value != ""
  }

  /**
   * A chunk the loop works on: a dict whose `text` and `output_file` are both
   * truthy (`chunk.get(key)` of an absent key is `None`, which is falsy).
   */
  predicate Speaks(chunk: Json) {
    && chunk.Obj?
    && "text" in chunk.fields && Truthy(chunk.fields["text"])
    && "output_file" in chunk.fields && Truthy(chunk.fields["output_file"])
  }

  /**
   * `os.path.join(audio_dir, os.path.basename(name))`: the recording lands in
   * the audio directory under the final component of `name`, whatever
   * directories `name` spells out.
   */
  function ChunkTarget(root: string, name: string): string {
    Join(AudioDir(root), Basename(name))
  }

  /** The target lies in the audio directory and keeps only the final component of `name`. */
  lemma ChunkTargetName(root: string, name: string)
    ensures |ChunkTarget(root, name)| >= |AudioDir(root)| && ChunkTarget(root, name)[..|AudioDir(root)|] == AudioDir(root)
    ensures Basename(ChunkTarget(root, name)) == Basename(name)
  {
    var b := Basename(name);
    assert !IsAbs(b) by { if |b| > 0 { assert b[0] != '/'; } }
    BasenameOfJoin(AudioDir(root), b);
  }

  /** The cache base of a chunk: its target without the extension. */
  function ChunkBase(root: string, name: string): string {
    Splitext(ChunkTarget(root, name)).0
  }

  /** A path the work on the chunk naming `name` may remove: a cache candidate or the synthesis target. */
  predicate ChunkPath(p: string, root: string, name: string) {
    p == ChunkTarget(root, name) || Candidate(p, ChunkBase(root, name), AudioExts)
  }

  /** The output file of a chunk the loop works on, when it is a string. */
  predicate Named(chunk: Json) {
    Speaks(chunk) && chunk.fields["output_file"].Str?
  }

  /** The `output_file` of a named chunk. */
  function NameOf(chunk: Json): string
    requires Named(chunk)
  {
    chunk.fields["output_file"].s
  }

  /**
   * What follows the scan: use the hit, or synthesise at the target.  Speech
   * synthesis swallows its own failures, so this never raises.
   */
  function AfterAudioScan(chunk: Json, target: string, scan: Scan, mode: Mode, svc: Services): (r: SlotResult)
    requires chunk.Obj? && "text" in chunk.fields
    ensures r.SlotDone? && Annotated(chunk, r.entry, "absolute_path") && (r.generated <==> scan.hit.None?)
    ensures scan.hit.Some? ==> RecordsPath(r.entry, "absolute_path", scan.hit.value) && r.files == scan.files
    ensures scan.hit.None? && mode == Mock ==> RecordsPath(r.entry, "absolute_path", target)
    ensures forall p :: p in scan.files && p !in r.files ==> p == target && scan.files[p] == 0
    ensures forall p :: p in r.files && (p !in scan.files || r.files[p] != scan.files[p]) ==>
      r.generated && RecordsPath(r.entry, "absolute_path", p)
    ensures scan.hit.None? ==>
      var text := chunk.fields["text"];
      var g := SynthesizeSpeech(mode, target, svc.speech(text, target), svc.guess, scan.files, svc.locked);
      r.entry == Put(chunk, "absolute_path", Str(g.path)) && r.files == g.files
  {
    match scan.hit
    case Some(h) => SlotDone(Put(chunk, "absolute_path", Str(h)), scan.files, false)
    case None =>
      var text := chunk.fields["text"];
      var g := SynthesizeSpeech(mode, target, svc.speech(text, target), svc.guess, scan.files, svc.locked);
      SlotDone(Put(chunk, "absolute_path", Str(g.path)), g.files, true)
  }

  /**
   * One iteration on a chunk with a text and an output file.  A non-string
   * output file raises in `basename`; otherwise the guard scans `.wav` then
   * `.mp3` at the chunk's base, and synthesis runs only on a miss.
   */
  function SpeakChunk(chunk: Json, root: string, mode: Mode, svc: Services, files: Files): (r: SlotResult)
    requires Speaks(chunk)
    ensures r.SlotRaised? <==> !Named(chunk)
    ensures r.SlotRaised? ==> r.files == files
    ensures r.SlotDone? ==> Annotated(chunk, r.entry, "absolute_path")
    ensures r.SlotDone? ==>
      (r.generated <==> !exists k: nat :: FirstValid(files, ChunkBase(root, NameOf(chunk)), AudioExts, k))
    ensures r.SlotDone? ==> forall k: nat :: FirstValid(files, ChunkBase(root, NameOf(chunk)), AudioExts, k) ==>
      RecordsPath(r.entry, "absolute_path", ChunkBase(root, NameOf(chunk)) + AudioExts[k])
    ensures r.SlotDone? ==> forall p :: p in files && p !in r.files ==> ChunkPath(p, root, NameOf(chunk))
    ensures forall p :: p in files && p !in r.files ==> files[p] <= MinValidSize
    ensures forall p :: p in r.files && (p !in files || r.files[p] != files[p]) ==>
      r.SlotDone? && r.generated && RecordsPath(r.entry, "absolute_path", p)
    ensures r.SlotDone? && !r.generated ==>
      r.files == Guard(files, svc.locked, ChunkBase(root, NameOf(chunk)), AudioExts).files
    ensures r.SlotDone? && r.generated ==>
      var target := ChunkTarget(root, NameOf(chunk));
      var text := chunk.fields["text"];
      var g := SynthesizeSpeech(mode, target, svc.speech(text, target), svc.guess,
                                Guard(files, svc.locked, ChunkBase(root, NameOf(chunk)), AudioExts).files, svc.locked);
      RecordsPath(r.entry, "absolute_path", g.path) && r.files == g.files
  {
    if !chunk.fields["output_file"].Str? then SlotRaised(files)
    else
      AfterAudioScan(chunk, ChunkTarget(root, NameOf(chunk)), Guard(files, svc.locked, ChunkBase(root, NameOf(chunk)), AudioExts), mode, svc)
  }

  /** One iteration: a non-dict chunk raises on `.get`; one without text or output file is skipped. */
  function ChunkStep(chunk: Json, root: string, mode: Mode, svc: Services, files: Files): (r: SlotResult)
    ensures !chunk.Obj? ==> r == SlotRaised(files)
    ensures chunk.Obj? && !Speaks(chunk) ==> r == SlotDone(chunk, files, false)
    ensures Speaks(chunk) ==> r == SpeakChunk(chunk, root, mode, svc, files)
  {
    if !chunk.Obj? then SlotRaised(files)
    else if !Speaks(chunk) then SlotDone(chunk, files, false)
    else SpeakChunk(chunk, root, mode, svc, files)
  }

  /** The number of chunks the loop works on. */
  function CountSpoken(items: seq<Json>): (n: nat)
    ensures n <= |items|
  {
    if items == [] then 0 else (if Speaks(items[0]) then 1 else 0) + CountSpoken(items[1..])
  }

  /** `p` belongs to the work of some named chunk of `items`. */
  predicate ChunkTouches(p: string, items: seq<Json>, root: string) {
    exists k :: 0 <= k < |items| && Named(items[k]) && ChunkPath(p, root, NameOf(items[k]))
  }

  /**
   * The `for chunk in ...` loop.  It completes only if every chunk is a dict
   * and every chunk it works on names its file with a string; skipped chunks
   * come back as they were and the others gain `absolute_path`; synthesis
   * runs at most once per chunk worked on; a file disappears only as a
   * candidate or target of such a chunk; a file that appears or changes size
   * is the recorded path of some chunk.  A file over 1024 bytes is never
   * removed unless the loop itself wrote it, so a reused recording stays.  An
   * exception stops the loop but undoes nothing: the chunks before it keep
   * their paths and their recordings stay.
   */
  function SpeakAll(items: seq<Json>, root: string, mode: Mode, svc: Services, files: Files): (r: Slots)
    ensures |r.entries| == |items|
    ensures forall k :: 0 <= k < |items| ==>
      r.entries[k] == items[k] || (Speaks(items[k]) && Annotated(items[k], r.entries[k], "absolute_path"))
    ensures r.Completed? ==> forall k :: 0 <= k < |items| ==> items[k].Obj? && (Speaks(items[k]) ==> Named(items[k]))
    ensures r.Completed? ==> forall k :: 0 <= k < |items| && !Speaks(items[k]) ==> r.entries[k] == items[k]
    ensures r.Completed? ==> forall k :: 0 <= k < |items| && Speaks(items[k]) ==> Annotated(items[k], r.entries[k], "absolute_path")
    ensures r.Completed? ==> r.calls <= CountSpoken(items)
    ensures forall p :: p in files && p !in r.files ==> ChunkTouches(p, items, root)
    ensures forall p :: p in files && p !in r.files ==> files[p] <= MinValidSize || p in r.written
    ensures forall p :: p in r.files && (p !in files || r.files[p] != files[p]) ==> p in r.written
    ensures forall p :: p in r.written ==>
      exists k :: 0 <= k < |items| && Speaks(items[k]) && RecordsPath(r.entries[k], "absolute_path", p)
    ensures forall p :: p in r.files && (p !in files || r.files[p] != files[p]) ==>
      exists k :: 0 <= k < |items| && Speaks(items[k]) && RecordsPath(r.entries[k], "absolute_path", p)
    decreases |items|
  {
    if items == [] then Completed([], files, 0, {})
    else
      match ChunkStep(items[0], root, mode, svc, files)
      case SlotRaised(f) => Aborted(items, f, {})
      case SlotDone(entry, f, generated) =>
        FirstChunk(items[0], root, mode, svc, files, entry, f, generated);
        var mine := if generated then {entry.fields["absolute_path"].s} else {};
        var rest := SpeakAll(items[1..], root, mode, svc, f);
        SpeakCombineFiles(items, root, mode, svc, files, entry, f, generated, mine, rest);
        SpeakCombineEntries(items, root, mode, svc, files, entry, f, generated, mine, rest);
        match rest
        case Aborted(entries, g, w) => Aborted([entry] + entries, g, mine + w)
        case Completed(entries, g, calls, w) =>
          SpokenEntries(items, entry, entries);
          Completed([entry] + entries, g, (if generated then 1 else 0) + calls, mine + w)
  }

  /** How the first chunk's result and the rest of the loop combine on disk. */
  lemma SpeakStep(items: seq<Json>, root: string, mode: Mode, svc: Services, files: Files,
                  entry: Json, f: Files, generated: bool, rest: Slots)
    requires items != []
    requires ChunkStep(items[0], root, mode, svc, files) == SlotDone(entry, f, generated)
    requires forall p :: p in f && p !in rest.files ==> ChunkTouches(p, items[1..], root)
    requires |rest.entries| == |items| - 1
    requires forall p :: p in rest.files && (p !in f || rest.files[p] != f[p]) ==>
      exists k :: 0 <= k < |items| - 1 && Speaks(items[1..][k]) && RecordsPath(rest.entries[k], "absolute_path", p)
    ensures forall p :: p in files && p !in rest.files ==> ChunkTouches(p, items, root)
    ensures forall p :: p in rest.files && (p !in files || rest.files[p] != files[p]) ==>
      exists k :: 0 <= k < |items| && Speaks(items[k]) && RecordsPath(([entry] + rest.entries)[k], "absolute_path", p)
  {
    assert forall p :: p in files && p !in f ==> Named(items[0]) && ChunkPath(p, root, NameOf(items[0]));
    assert forall p :: p in f && (p !in files || f[p] != files[p]) ==> Speaks(items[0]) && RecordsPath(entry, "absolute_path", p);
    ChunkRemovedSomewhere(items, root, files, f, rest.files);
    ChunkRecordedSomewhere(items, entry, files, f, rest.files, rest.entries);
  }

  /** What the loop promises about removed and changed files, for the first result in front of the rest. */
  lemma SpeakCombineFiles(items: seq<Json>, root: string, mode: Mode, svc: Services, files: Files,
                       entry: Json, f: Files, generated: bool, mine: set<string>, rest: Slots)
    requires items != []
    requires ChunkStep(items[0], root, mode, svc, files) == SlotDone(entry, f, generated)
    requires mine == if generated then {entry.fields["absolute_path"].s} else {}
    requires forall p :: p in f && p !in rest.files ==> f[p] <= MinValidSize || p in rest.written
    requires forall p :: p in rest.files && (p !in f || rest.files[p] != f[p]) ==> p in rest.written
    ensures forall p :: p in files && p !in rest.files ==> files[p] <= MinValidSize || p in mine + rest.written
    ensures forall p :: p in rest.files && (p !in files || rest.files[p] != files[p]) ==> p in mine + rest.written
  {
    FirstChunk(items[0], root, mode, svc, files, entry, f, generated);
    RemovalsStaySmall(files, f, rest.files, mine, rest.written);
  }

  /** What the loop promises about its entries and the paths they record, for the first result in front of the rest. */
  lemma SpeakCombineEntries(items: seq<Json>, root: string, mode: Mode, svc: Services, files: Files,
                         entry: Json, f: Files, generated: bool, mine: set<string>, rest: Slots)
    requires items != []
    requires ChunkStep(items[0], root, mode, svc, files) == SlotDone(entry, f, generated)
    requires generated ==> Speaks(items[0]) && RecordsPath(entry, "absolute_path", entry.fields["absolute_path"].s)
    requires mine == if generated then {entry.fields["absolute_path"].s} else {}
    requires |rest.entries| == |items| - 1
    requires forall k :: 0 <= k < |items| - 1 ==>
      rest.entries[k] == items[1..][k] || (Speaks(items[1..][k]) && Annotated(items[1..][k], rest.entries[k], "absolute_path"))
    requires forall p :: p in f && p !in rest.files ==> ChunkTouches(p, items[1..], root)
    requires forall p :: p in rest.written ==>
      exists k :: 0 <= k < |items| - 1 && Speaks(items[1..][k]) && RecordsPath(rest.entries[k], "absolute_path", p)
    requires forall p :: p in rest.files && (p !in f || rest.files[p] != f[p]) ==>
      exists k :: 0 <= k < |items| - 1 && Speaks(items[1..][k]) && RecordsPath(rest.entries[k], "absolute_path", p)
    ensures forall k :: 0 <= k < |items| ==>
      ([entry] + rest.entries)[k] == items[k] || (Speaks(items[k]) && Annotated(items[k], ([entry] + rest.entries)[k], "absolute_path"))
    ensures forall p :: p in files && p !in rest.files ==> ChunkTouches(p, items, root)
    ensures forall p :: p in mine + rest.written ==>
      exists k :: 0 <= k < |items| && Speaks(items[k]) && RecordsPath(([entry] + rest.entries)[k], "absolute_path", p)
    ensures forall p :: p in rest.files && (p !in files || rest.files[p] != files[p]) ==>
      exists k :: 0 <= k < |items| && Speaks(items[k]) && RecordsPath(([entry] + rest.entries)[k], "absolute_path", p)
  {
    SpeakStep(items, root, mode, svc, files, entry, f, generated, rest);
    ChunksKeptOrAnnotated(items, entry, rest.entries);
    ChunkWrittenRecorded(items, entry, rest.entries, mine, rest.written);
  }

  /** One iteration that returns: only small files go, and only a synthesis writes, at the path it records. */
  lemma FirstChunk(c: Json, root: string, mode: Mode, svc: Services, files: Files, entry: Json, f: Files, generated: bool)
    requires ChunkStep(c, root, mode, svc, files) == SlotDone(entry, f, generated)
    ensures generated ==> Speaks(c) && RecordsPath(entry, "absolute_path", entry.fields["absolute_path"].s)
    ensures forall p :: p in files && p !in f ==> files[p] <= MinValidSize
    ensures forall p :: p in f && (p !in files || f[p] != files[p]) ==> generated && RecordsPath(entry, "absolute_path", p)
  {
  }

  /** A path the first chunk or the rest of the loop wrote is recorded by some chunk. */
  lemma ChunkWrittenRecorded(items: seq<Json>, entry: Json, entries: seq<Json>, mine: set<string>, w: set<string>)
    requires items != [] && |entries| == |items| - 1
    requires forall p :: p in mine ==> Speaks(items[0]) && RecordsPath(entry, "absolute_path", p)
    requires forall p :: p in w ==>
      exists k :: 0 <= k < |items| - 1 && Speaks(items[1..][k]) && RecordsPath(entries[k], "absolute_path", p)
    ensures forall p :: p in mine + w ==>
      exists k :: 0 <= k < |items| && Speaks(items[k]) && RecordsPath(([entry] + entries)[k], "absolute_path", p)
  {
    var all := [entry] + entries;
    forall p | p in mine + w
      ensures exists k :: 0 <= k < |items| && Speaks(items[k]) && RecordsPath(all[k], "absolute_path", p)
    {
      if p in mine {
        assert Speaks(items[0]) && RecordsPath(all[0], "absolute_path", p);
      } else {
        var k :| 0 <= k < |items| - 1 && Speaks(items[1..][k]) && RecordsPath(entries[k], "absolute_path", p);
        assert items[k + 1] == items[1..][k] && all[k + 1] == entries[k];
      }
    }
  }

  /** The first chunk, kept or annotated, in front of the rest keeps every chunk kept or annotated. */
  lemma ChunksKeptOrAnnotated(items: seq<Json>, entry: Json, entries: seq<Json>)
    requires items != [] && |entries| == |items| - 1
    requires entry == items[0] || (Speaks(items[0]) && Annotated(items[0], entry, "absolute_path"))
    requires forall k :: 0 <= k < |items| - 1 ==>
      entries[k] == items[1..][k] || (Speaks(items[1..][k]) && Annotated(items[1..][k], entries[k], "absolute_path"))
    ensures forall k :: 0 <= k < |items| ==>
      ([entry] + entries)[k] == items[k] || (Speaks(items[k]) && Annotated(items[k], ([entry] + entries)[k], "absolute_path"))
  {
    forall k | 1 <= k < |items|
      ensures items[k] == items[1..][k - 1] && ([entry] + entries)[k] == entries[k - 1]
    {
    }
  }

  /** The first chunk's result in front of the rest keeps the per-chunk facts. */
  lemma SpokenEntries(items: seq<Json>, entry: Json, entries: seq<Json>)
    requires items != [] && |entries| == |items| - 1
    requires items[0].Obj? && (Speaks(items[0]) ==> Named(items[0]) && Annotated(items[0], entry, "absolute_path"))
    requires !Speaks(items[0]) ==> entry == items[0]
    requires forall k :: 0 <= k < |items| - 1 ==> items[1..][k].Obj? && (Speaks(items[1..][k]) ==> Named(items[1..][k]))
    requires forall k :: 0 <= k < |items| - 1 && !Speaks(items[1..][k]) ==> entries[k] == items[1..][k]
    requires forall k :: 0 <= k < |items| - 1 && Speaks(items[1..][k]) ==> Annotated(items[1..][k], entries[k], "absolute_path")
    ensures forall k :: 0 <= k < |items| ==> items[k].Obj? && (Speaks(items[k]) ==> Named(items[k]))
    ensures forall k :: 0 <= k < |items| && !Speaks(items[k]) ==> ([entry] + entries)[k] == items[k]
    ensures forall k :: 0 <= k < |items| && Speaks(items[k]) ==> Annotated(items[k], ([entry] + entries)[k], "absolute_path")
  {
    forall k | 1 <= k < |items|
      ensures items[k] == items[1..][k - 1] && ([entry] + entries)[k] == entries[k - 1]
    {
    }
  }

  lemma ChunkRemovedSomewhere(items: seq<Json>, root: string, files: Files, f: Files, g: Files)
    requires items != []
    requires forall p :: p in files && p !in f ==> Named(items[0]) && ChunkPath(p, root, NameOf(items[0]))
    requires forall p :: p in f && p !in g ==> ChunkTouches(p, items[1..], root)
    ensures forall p :: p in files && p !in g ==> ChunkTouches(p, items, root)
  {
    forall p | p in files && p !in g
      ensures ChunkTouches(p, items, root)
    {
      if p in f {
        var k :| 0 <= k < |items[1..]| && Named(items[1..][k]) && ChunkPath(p, root, NameOf(items[1..][k]));
        assert items[k + 1] == items[1..][k];
      } else {
        assert Named(items[0]) && ChunkPath(p, root, NameOf(items[0]));
      }
    }
  }

  lemma ChunkRecordedSomewhere(items: seq<Json>, entry: Json, files: Files, f: Files, g: Files, entries: seq<Json>)
    requires items != [] && |entries| == |items| - 1
    requires forall p :: p in f && (p !in files || f[p] != files[p]) ==> Speaks(items[0]) && RecordsPath(entry, "absolute_path", p)
    requires forall p :: p in g && (p !in f || g[p] != f[p]) ==>
      exists k :: 0 <= k < |items| - 1 && Speaks(items[1..][k]) && RecordsPath(entries[k], "absolute_path", p)
    ensures forall p :: p in g && (p !in files || g[p] != files[p]) ==>
      exists k :: 0 <= k < |items| && Speaks(items[k]) && RecordsPath(([entry] + entries)[k], "absolute_path", p)
  {
    var all := [entry] + entries;
    forall p | p in g && (p !in files || g[p] != files[p])
      ensures exists k :: 0 <= k < |items| && Speaks(items[k]) && RecordsPath(all[k], "absolute_path", p)
    {
      if p !in f || g[p] != f[p] {
        var k :| 0 <= k < |items| - 1 && Speaks(items[1..][k]) && RecordsPath(entries[k], "absolute_path", p);
        assert items[k + 1] == items[1..][k] && all[k + 1] == entries[k];
      } else {
        assert Speaks(items[0]) && RecordsPath(all[0], "absolute_path", p);
      }
    }
  }

  /** Every chunk the loop works on names its file and finds its recording as the first candidate on disk, valid. */
  predicate SettledChunks(files: Files, items: seq<Json>, root: string) {
    forall k :: 0 <= k < |items| && Speaks(items[k]) ==>
      Named(items[k]) && HitsCleanly(files, ChunkBase(root, NameOf(items[k])), AudioExts)
  }

  /** A run over settled chunks synthesises nothing and removes nothing. */
  lemma {:induction false} SettledChunksAreQuiet(items: seq<Json>, root: string, mode: Mode, svc: Services, files: Files)
    requires forall k :: 0 <= k < |items| ==> items[k].Obj?
    requires SettledChunks(files, items, root)
    ensures SpeakAll(items, root, mode, svc, files).Completed?
    ensures SpeakAll(items, root, mode, svc, files).files == files
    ensures SpeakAll(items, root, mode, svc, files).calls == 0
    decreases |items|
  {
    if items != [] {
      QuietChunk(items[0], root, mode, svc, files);
      SettledTail(items, files, root);
      SettledChunksAreQuiet(items[1..], root, mode, svc, files);
    }
  }

  /** A settled chunk, or one the loop skips, comes back without a call and without touching a file. */
  lemma QuietChunk(c: Json, root: string, mode: Mode, svc: Services, files: Files)
    requires c.Obj? && (Speaks(c) ==> Named(c) && HitsCleanly(files, ChunkBase(root, NameOf(c)), AudioExts))
    ensures ChunkStep(c, root, mode, svc, files).SlotDone?
    ensures ChunkStep(c, root, mode, svc, files).files == files
    ensures !ChunkStep(c, root, mode, svc, files).generated
  {
    if Speaks(c) {
      var j: nat :| j < |AudioExts| && CleanHit(files, ChunkBase(root, NameOf(c)), AudioExts, j);
      CleanHitScan(files, svc.locked, ChunkBase(root, NameOf(c)), AudioExts, j);
    }
  }

  /** The chunks after the first of a settled plan are settled. */
  lemma SettledTail(items: seq<Json>, files: Files, root: string)
    requires items != []
    requires forall k :: 0 <= k < |items| ==> items[k].Obj?
    requires SettledChunks(files, items, root)
    ensures forall k :: 0 <= k < |items[1..]| ==> items[1..][k].Obj?
    ensures SettledChunks(files, items[1..], root)
  {
    assert forall k :: 0 <= k < |items[1..]| ==> items[1..][k] == items[k + 1];
  }

  /**
   * `VoiceOverAgent.run`.  An empty script or a falsy structure returns at
   * once.  A missing prompt file or a brief that is not a dict raises before
   * the call.  A reply that does not parse is dropped.  A plan that parses is
   * stored and written to `tts_plan.json` before any chunk is worked on, so an
   * exception in the loop leaves the plan file behind, unannotated, while the
   * plan in the context keeps the paths recorded before the exception.
   */
  function VoiceOverStage(st: State, svc: Services): (r: Outcome)
    ensures !HasScript(st.ctx) || !Present(st.ctx.structure) ==> r == Done(st)
    ensures (HasScript(st.ctx) && Present(st.ctx.structure) &&
             (LoadPrompt(svc, st.ctx.config, VoiceOverPrompt).None? || !st.ctx.brief.Obj?)) ==> r == Fault(st)
    ensures r.Done? ==> OnlyWrites(st.ctx, r.state.ctx, TtsPlanField)
    ensures r.Fault? ==> OnlyWrites(st.ctx, r.state.ctx, TtsPlanField)
    ensures r.state.disk.docs == st.disk.docs || exists plan :: r.state.disk.docs == Persist(st.disk, st.ctx.root, TtsPlanFile, JsonDoc(plan)).docs
    ensures forall p :: p in st.disk.assets && p !in r.state.disk.assets ==>
      && HasScript(st.ctx) && Present(st.ctx.structure) && st.ctx.brief.Obj?
      && LoadPrompt(svc, st.ctx.config, VoiceOverPrompt).Some?
      && var plan := svc.parse(CleanReply(svc, Agent.VoiceOver, st.ctx, VoiceOverPrompt).value);
         && plan.Some? && ListAt(plan.value, "audio_chunks").Some?
         && ChunkTouches(p, ListAt(plan.value, "audio_chunks").value, st.ctx.root)
    ensures (HasScript(st.ctx) && Present(st.ctx.structure) && st.ctx.brief.Obj? &&
             LoadPrompt(svc, st.ctx.config, VoiceOverPrompt).Some?) ==>
      var text := CleanReply(svc, Agent.VoiceOver, st.ctx, VoiceOverPrompt).value;
      && (svc.parse(text).None? ==> r == Done(st))
      && (svc.parse(text).Some? ==> PlanOutcome(st, svc, svc.parse(text).value, r))
  {
    if !HasScript(st.ctx) || !Present(st.ctx.structure) then Done(st)
    else if !st.ctx.brief.Obj? then Fault(st)
    else
      match CleanReply(svc, Agent.VoiceOver, st.ctx, VoiceOverPrompt)
      case None => Fault(st)
      case Some(text) =>
        match svc.parse(text)
        case None => Done(st)
        case Some(plan) => RunPlan(st, svc, plan)
  }

  /** What the stage does with a plan that parsed. */
  predicate PlanOutcome(st: State, svc: Services, plan: Json, r: Outcome) {
    var disk := Persist(st.disk, st.ctx.root, TtsPlanFile, JsonDoc(plan));
    && r.state.disk.docs == disk.docs
    && r.state.ctx.ttsPlan.Some?
    && (ListAt(plan, "audio_chunks").None? ==> r == Fault(State(st.ctx.(ttsPlan := Some(plan)), disk)))
    && (ListAt(plan, "audio_chunks").Some? ==>
          var chunks := SpeakAll(ListAt(plan, "audio_chunks").value, st.ctx.root, ModeOf(st.ctx.config, svc), svc, st.disk.assets);
          && (r.Done? <==> chunks.Completed?)
          && r.state.disk.assets == chunks.files
          && (HasKey(plan, "audio_chunks") && plan.fields["audio_chunks"].Arr? ==>
                r.state.ctx == st.ctx.(ttsPlan := Some(Put(plan, "audio_chunks", Arr(chunks.entries)))))
          && (!(HasKey(plan, "audio_chunks") && plan.fields["audio_chunks"].Arr?) ==>
                r.state.ctx == st.ctx.(ttsPlan := Some(plan))))
    && (forall p :: p in st.disk.assets && p !in r.state.disk.assets ==>
          ListAt(plan, "audio_chunks").Some? && ChunkTouches(p, ListAt(plan, "audio_chunks").value, st.ctx.root))
    && (r.Done? ==> ListAt(plan, "audio_chunks").Some?)
    && (r.Done? && !(HasKey(plan, "audio_chunks") && plan.fields["audio_chunks"].Arr?) ==>
          r == Done(State(st.ctx.(ttsPlan := Some(plan)), disk)))
    && (r.Done? && HasKey(plan, "audio_chunks") && plan.fields["audio_chunks"].Arr? ==>
          var items := plan.fields["audio_chunks"].items;
          var chunks := SpeakAll(items, st.ctx.root, ModeOf(st.ctx.config, svc), svc, st.disk.assets);
          && chunks.Completed?
          && r.state.ctx.ttsPlan.value.Obj?
          && r.state.ctx.ttsPlan.value.fields == plan.fields["audio_chunks" := Arr(chunks.entries)]
          && r.state.disk.assets == chunks.files)
  }

  /** Store and persist the plan, then walk its chunks. */
  function RunPlan(st: State, svc: Services, plan: Json): (r: Outcome)
    ensures PlanOutcome(st, svc, plan, r)
    ensures OnlyWrites(st.ctx, r.state.ctx, TtsPlanField)
  {
    var ctx := st.ctx.(ttsPlan := Some(plan));
    var disk := Persist(st.disk, st.ctx.root, TtsPlanFile, JsonDoc(plan));
    match ListAt(plan, "audio_chunks")
    case None => Fault(State(ctx, disk))
    case Some(items) =>
      var chunks := SpeakAll(items, st.ctx.root, ModeOf(st.ctx.config, svc), svc, disk.assets);
      var updated := if HasKey(plan, "audio_chunks") && plan.fields["audio_chunks"].Arr?
        then Put(plan, "audio_chunks", Arr(chunks.entries)) else plan;
      var after := State(ctx.(ttsPlan := Some(updated)), disk.(assets := chunks.files));
      if chunks.Completed? then Done(after) else Fault(after)
  }

  /** A second run over a plan whose chunks all hit cleanly synthesises nothing and leaves the recordings as they were. */
  lemma SettledPlanIsQuiet(st: State, svc: Services, plan: Json)
    requires ListAt(plan, "audio_chunks").Some?
    requires forall k :: 0 <= k < |ListAt(plan, "audio_chunks").value| ==> ListAt(plan, "audio_chunks").value[k].Obj?
    requires SettledChunks(st.disk.assets, ListAt(plan, "audio_chunks").value, st.ctx.root)
    ensures RunPlan(st, svc, plan).Done?
    ensures RunPlan(st, svc, plan).state.disk.assets == st.disk.assets
  {
    SettledChunksAreQuiet(ListAt(plan, "audio_chunks").value, st.ctx.root, ModeOf(st.ctx.config, svc), svc, st.disk.assets);
  }
}
