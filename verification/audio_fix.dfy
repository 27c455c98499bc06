/**
 * The audio-only repair script (tools/run_audio_fix.py): reload one episode's
 * TTS plan and synthesise every chunk again with the local speech engine.
 * It runs the same cache scan as the voice-over stage, so corrupt leftovers
 * are deleted, but a reusable recording does not spare the chunk: the local
 * engine is called for every chunk with a text and an output file.
 */
module AudioFix {
  import opened Wrappers
  import opened Json
  import opened Paths
  import opened CacheGuard
  import opened Episode
  import opened VoiceOver

  /** The one episode the script repairs. */
  const EpisodeName := "Episode_0001_Uruk"

  /** `tts_plan.json` as the script finds it. */
  datatype PlanFile = Missing | Unreadable | Loaded(plan: Json)

  /** Reading the plan back: a stored JSON document is itself; a text document goes through the parser. */
  function PlanOnDisk(disk: Disk, root: string, parse: Parser): (f: PlanFile)
    ensures f.Missing? <==> DocAt(disk, root, TtsPlanFile).None?
    ensures forall v :: DocAt(disk, root, TtsPlanFile) == Some(JsonDoc(v)) ==> f == Loaded(v)
    ensures f.Unreadable? ==> DocAt(disk, root, TtsPlanFile).value.TextDoc?
    ensures forall t :: DocAt(disk, root, TtsPlanFile) == Some(TextDoc(t)) ==>
      f == (if parse(t).Some? then Loaded(parse(t).value) else Unreadable)
    ensures f.Unreadable? <==>
      DocAt(disk, root, TtsPlanFile).Some? && DocAt(disk, root, TtsPlanFile).value.TextDoc? &&
      parse(DocAt(disk, root, TtsPlanFile).value.text).None?
  {
    match DocAt(disk, root, TtsPlanFile)
    case None => Missing
    case Some(JsonDoc(v)) => Loaded(v)
    case Some(TextDoc(t)) =>
      match parse(t)
      case Some(v) => Loaded(v)
      case None => Unreadable
  }

  /** The plan the voice-over stage writes to `tts_plan.json` is the plan the script loads back. */
  lemma StoredPlanReadsBack(disk: Disk, root: string, plan: Json, parse: Parser)
    ensures PlanOnDisk(Persist(disk, root, TtsPlanFile, JsonDoc(plan)), root, parse) == Loaded(plan)
  {
  }

  /**
   * `synthesize_speech_local(text, output_path)`: the size of the file it
   * wrote, or `None` when it caught an error and returned "".
   */
  type LocalTts = (Json, string) -> Option<nat>

  /**
   * The repair of one chunk with a text and a string output file: scan
   * `.wav` then `.mp3` at the target's base, deleting corrupt candidates,
   * then synthesise at the target whatever the scan found.
   */
  function FixChunk(chunk: Json, root: string, locked: set<string>, local: LocalTts, files: Files): (r: Files)
    requires Named(chunk)
    ensures forall p :: p in files && p !in r ==>
      Candidate(p, ChunkBase(root, NameOf(chunk)), AudioExts) && files[p] <= MinValidSize && p !in locked
    ensures forall p :: p in r && (p !in files || r[p] != files[p]) ==> p == ChunkTarget(root, NameOf(chunk))
    ensures local(chunk.fields["text"], ChunkTarget(root, NameOf(chunk))).Some? ==>
      ChunkTarget(root, NameOf(chunk)) in r &&
      r[ChunkTarget(root, NameOf(chunk))] == local(chunk.fields["text"], ChunkTarget(root, NameOf(chunk))).value
  {
    var scan := Guard(files, locked, ChunkBase(root, NameOf(chunk)), AudioExts);
    match local(chunk.fields["text"], ChunkTarget(root, NameOf(chunk)))
    case Some(n) => scan.files[ChunkTarget(root, NameOf(chunk)) := n]
    case None => scan.files
  }

  /** Every chunk can be visited: a dict, whose output file is a string when it has a text and an output file. */
  predicate FixReady(items: seq<Json>) {
    forall k :: 0 <= k < |items| ==> items[k].Obj? && (Speaks(items[k]) ==> Named(items[k]))
  }

  /** The reference: the targets of the chunks with a text and an output file, in plan order. */
  function SpokenTargets(items: seq<Json>, root: string): (r: seq<string>)
    requires FixReady(items)
    ensures |r| == CountSpoken(items)
  {
    if items == [] then []
    else
      (if Speaks(items[0]) then [ChunkTarget(root, NameOf(items[0]))] else []) + SpokenTargets(items[1..], root)
  }

  /** How the chunk loop ends: the files left, the paths the local engine was asked to write, and whether it raised. */
  datatype FixRun = FixRun(files: Files, calls: seq<string>, raised: bool)

  /** Some chunk of `items` may have the candidate `p` removed. */
  predicate FixMayRemove(p: string, items: seq<Json>, root: string) {
    exists k :: 0 <= k < |items| && Named(items[k]) && Candidate(p, ChunkBase(root, NameOf(items[k])), AudioExts)
  }

  /**
   * The chunk loop.  It raises exactly when some chunk is not a dict or has a
   * non-string output file; otherwise the engine is called once per chunk
   * with a text and an output file, at its target, in order.  Only scanned
   * candidates disappear and only called targets change.
   */
  function FixAll(items: seq<Json>, root: string, locked: set<string>, local: LocalTts, files: Files): (r: FixRun)
    ensures !r.raised <==> FixReady(items)
    ensures !r.raised ==> r.calls == SpokenTargets(items, root)
    ensures forall p :: p in files && p !in r.files ==> FixMayRemove(p, items, root)
    ensures forall p :: p in r.files && (p !in files || r.files[p] != files[p]) ==> p in r.calls
    decreases |items|
  {
    if items == [] then FixRun(files, [], false)
    else
      var c := items[0];
      if !c.Obj? || (Speaks(c) && !Named(c)) then
        FixRun(files, [], true)
      else if !Speaks(c) then
        var rest := FixAll(items[1..], root, locked, local, files);
        FixAllStep(items, root, files, files, rest, []);
        rest
      else
        var after := FixChunk(c, root, locked, local, files);
        var target := ChunkTarget(root, NameOf(c));
        var rest := FixAll(items[1..], root, locked, local, after);
        FixAllStep(items, root, files, after, rest, [target]);
        FixRun(rest.files, [target] + rest.calls, rest.raised)
  }

  /** How the loop's contract for the remaining chunks carries over to the whole plan. */
  lemma FixAllStep(items: seq<Json>, root: string, files: Files, after: Files, rest: FixRun, call: seq<string>)
    requires items != [] && items[0].Obj? && (Speaks(items[0]) ==> Named(items[0]))
    requires call == if Speaks(items[0]) then [ChunkTarget(root, NameOf(items[0]))] else []
    requires !Speaks(items[0]) ==> after == files
    requires forall p :: p in files && p !in after ==>
      Speaks(items[0]) && Candidate(p, ChunkBase(root, NameOf(items[0])), AudioExts)
    requires forall p :: p in after && (p !in files || after[p] != files[p]) ==> p in call
    requires !rest.raised <==> FixReady(items[1..])
    requires !rest.raised ==> rest.calls == SpokenTargets(items[1..], root)
    requires forall p :: p in after && p !in rest.files ==> FixMayRemove(p, items[1..], root)
    requires forall p :: p in rest.files && (p !in after || rest.files[p] != after[p]) ==> p in rest.calls
    ensures !rest.raised <==> FixReady(items)
    ensures !rest.raised ==> call + rest.calls == SpokenTargets(items, root)
    ensures forall p :: p in files && p !in rest.files ==> FixMayRemove(p, items, root)
    ensures forall p :: p in rest.files && (p !in files || rest.files[p] != files[p]) ==> p in call + rest.calls
  {
    FixReadyCons(items);
    FixRemovedSomewhere(items, root, files, after, rest.files);
  }

  /** A plan is ready exactly when its first chunk is and the rest is. */
  lemma FixReadyCons(items: seq<Json>)
    requires items != []
    ensures FixReady(items) <==> (items[0].Obj? && (Speaks(items[0]) ==> Named(items[0]))) && FixReady(items[1..])
  {
    forall k | 1 <= k < |items|
      ensures items[k] == items[1..][k - 1]
    {
    }
  }

  /** A file removed by the first chunk or by the rest is a candidate of some chunk of the plan. */
  lemma FixRemovedSomewhere(items: seq<Json>, root: string, files: Files, after: Files, g: Files)
    requires items != []
    requires items[0].Obj? && (Speaks(items[0]) ==> Named(items[0]))
    requires forall p :: p in files && p !in after ==>
      Speaks(items[0]) && Candidate(p, ChunkBase(root, NameOf(items[0])), AudioExts)
    requires forall p :: p in after && p !in g ==> FixMayRemove(p, items[1..], root)
    ensures forall p :: p in files && p !in g ==> FixMayRemove(p, items, root)
  {
    forall p | p in files && p !in g
      ensures FixMayRemove(p, items, root)
    {
      if p !in after {
        assert Named(items[0]) && Candidate(p, ChunkBase(root, NameOf(items[0])), AudioExts);
      } else {
        MayRemoveTail(p, items, root);
      }
    }
  }

  /** A candidate of a chunk after the first is a candidate of a chunk of the whole plan. */
  lemma MayRemoveTail(p: string, items: seq<Json>, root: string)
    requires items != [] && FixMayRemove(p, items[1..], root)
    ensures FixMayRemove(p, items, root)
  {
    var k :| 0 <= k < |items[1..]| && Named(items[1..][k]) && Candidate(p, ChunkBase(root, NameOf(items[1..][k])), AudioExts);
    assert items[1..][k] == items[k + 1];
  }

  /** How the script ends. */
  datatype FixResult = NoPlan | Fixed(run: FixRun) | PlanUnusable

  /**
   * `main()` of the repair script.  A missing plan ends it before anything is
   * touched; a plan that does not parse, or whose `audio_chunks` cannot be
   * walked, raises before any chunk is visited.
   */
  function AudioFixMain(config: Config, disk: Disk, parse: Parser, locked: set<string>, local: LocalTts): (r: FixResult)
    ensures r.NoPlan? <==> PlanOnDisk(disk, Join(config.outputDir, EpisodeName), parse).Missing?
    ensures r.Fixed? <==>
      && PlanOnDisk(disk, Join(config.outputDir, EpisodeName), parse).Loaded?
      && ListAt(PlanOnDisk(disk, Join(config.outputDir, EpisodeName), parse).plan, "audio_chunks").Some?
    ensures r.Fixed? ==>
      r.run == FixAll(ListAt(PlanOnDisk(disk, Join(config.outputDir, EpisodeName), parse).plan, "audio_chunks").value,
                      Join(config.outputDir, EpisodeName), locked, local, disk.assets)
  {
    var root := Join(config.outputDir, EpisodeName);
    match PlanOnDisk(disk, root, parse)
    case Missing => NoPlan
    case Unreadable => PlanUnusable
    case Loaded(plan) =>
      match ListAt(plan, "audio_chunks")
      case None => PlanUnusable
      case Some(items) => Fixed(FixAll(items, root, locked, local, disk.assets))
  }

  /**
   * The cache does not decide what is synthesised: two runs over the same
   * plan from different files make the same calls, one per chunk with a text
   * and an output file.
   */
  lemma FixIgnoresCache(items: seq<Json>, root: string, locked: set<string>, local: LocalTts, f1: Files, f2: Files)
    requires FixReady(items)
    ensures FixAll(items, root, locked, local, f1).calls == FixAll(items, root, locked, local, f2).calls
    ensures |FixAll(items, root, locked, local, f1).calls| == CountSpoken(items)
  {
  }

  /**
   * A chunk whose recording is already reusable is synthesised anyway, at its
   * target, after the scan has kept the recording.
   */
  lemma HitIsResynthesised(chunk: Json, root: string, locked: set<string>, local: LocalTts, files: Files)
    requires Named(chunk)
    requires Valid(files, ChunkBase(root, NameOf(chunk)) + AudioExts[0])
    ensures Guard(files, locked, ChunkBase(root, NameOf(chunk)), AudioExts).hit.Some?
    ensures FixAll([chunk], root, locked, local, files).calls == [ChunkTarget(root, NameOf(chunk))]
  {
    HitRemovesNothing(files, locked, ChunkBase(root, NameOf(chunk)), AudioExts);
    OneChunkCalls(chunk, root, locked, local, files);
  }

  /** A plan of one chunk with a text and a string output file makes one call, at that chunk's target. */
  lemma OneChunkCalls(chunk: Json, root: string, locked: set<string>, local: LocalTts, files: Files)
    requires Named(chunk)
    ensures FixAll([chunk], root, locked, local, files).calls == [ChunkTarget(root, NameOf(chunk))]
  {
    assert FixReady([chunk]);
    assert SpokenTargets([chunk], root) == [ChunkTarget(root, NameOf(chunk))] by {
      assert [chunk][1..] == [];
    }
  }
}
