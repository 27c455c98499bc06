/**
 * The three stages of `agents/scripting.py`: the script writer (which also
 * defaults the brief's series), the structure-and-timing stage and the
 * image-prompt stage.  The last two clean the reply with the shared fence
 * extractor before parsing it.
 */
module Scripting {
  import opened Wrappers
  import opened Text
  import opened Json
  import opened Fence
  import opened Episode

  const ScriptPrompt := "script_writer_global.md"
  const StructurePrompt := "structure_timing_agent.md"
  const ImagePromptPrompt := "image_prompt_agent.md"

  /** The series a brief gets when it names none. */
  const DefaultSeries := "Power, Empires & Diplomacy"

  /**
   * Python's `'series' in brief`: a key test on a dict, an element test on a
   * list, a substring test on a str; anything else raises (`None`).
   */
  function SeriesTest(brief: Json): (r: Option<bool>)
    ensures r.None? <==> !(brief.Obj? || brief.Arr? || brief.Str?)
    ensures brief.Obj? ==> r == Some("series" in brief.fields)
    ensures brief.Arr? ==> r == Some(exists k :: 0 <= k < |brief.items| && brief.items[k] == Str("series"))
    ensures brief.Str? ==> r == Some(Contains(brief.s, "series"))
  {
    match brief
    case Obj(fields) => Some("series" in fields)
    case Arr(items) => Some(Str("series") in items)
    case Str(s) => Some(Contains(s, "series"))
    case _ => None
  }

  /**
   * The brief after the series check: unchanged when it already names a
   * series; a dict without the key gains the default; on anything else the
   * item assignment raises (`None`).
   */
  function WithSeries(brief: Json): (r: Option<Json>)
    ensures brief.Obj? ==> r.Some? && r.value.Obj? && "series" in r.value.fields
    ensures brief.Obj? && "series" in brief.fields ==> r == Some(brief)
    ensures brief.Obj? && "series" !in brief.fields ==>
      && r.value.fields.Keys == brief.fields.Keys + {"series"}
      && r.value.fields["series"] == Str(DefaultSeries)
      && forall k :: k in brief.fields ==> r.value.fields[k] == brief.fields[k]
    ensures !brief.Obj? ==> (r.Some? <==> SeriesTest(brief) == Some(true))
    ensures !brief.Obj? && r.Some? ==> r.value == brief
  {
    match SeriesTest(brief)
    case None => None
    case Some(found) =>
      if found then Some(brief)
      else if brief.Obj? then Some(Put(brief, "series", Str(DefaultSeries)))
      else None
  }

  /** Defaulting the series twice is the same as doing it once. */
  lemma WithSeriesIdempotent(brief: Json)
    requires WithSeries(brief).Some?
    ensures WithSeries(WithSeries(brief).value) == WithSeries(brief)
  {
  }

  /** The fence-extracted reply of a parsing stage, when its prompt file can be read. */
  function CleanReply(svc: Services, agent: Agent, ctx: Context, promptName: string): (r: Option<string>)
    ensures r.Some? <==> LoadPrompt(svc, ctx.config, promptName).Some?
    ensures r.Some? ==> r.value == Extract(Ask(svc, agent, ctx, LoadPrompt(svc, ctx.config, promptName).value))
  {
    match LoadPrompt(svc, ctx.config, promptName)
    case Some(sp) => Some(Extract(Ask(svc, agent, ctx, sp)))
    case None => None
  }

  /**
   * `ScriptAgent.run`.  The prompt is read first, then the series is
   * defaulted; the script is whatever the generator returned, "" included,
   * and is written to `script.md`.
   */
  function ScriptStage(st: State, svc: Services): (r: Outcome)
    ensures r.Fault? <==> LoadPrompt(svc, st.ctx.config, ScriptPrompt).None? || WithSeries(st.ctx.brief).None?
    ensures r.Fault? ==> r.state == st
    ensures r.Done? ==> r.state.ctx.brief == WithSeries(st.ctx.brief).value
    ensures r.Done? ==> OnlyWrites(st.ctx.(brief := r.state.ctx.brief), r.state.ctx, ScriptField)
    ensures r.Done? ==>
      r.state.ctx.script == Some(Ask(svc, ScriptWriter, st.ctx.(brief := r.state.ctx.brief), LoadPrompt(svc, st.ctx.config, ScriptPrompt).value))
    ensures r.Done? ==> r.state.disk == Persist(st.disk, st.ctx.root, ScriptFile, TextDoc(r.state.ctx.script.value))
  {
    match LoadPrompt(svc, st.ctx.config, ScriptPrompt)
    case None => Fault(st)
    case Some(sp) =>
      match WithSeries(st.ctx.brief)
      case None => Fault(st)
      case Some(brief) =>
        var ctx := st.ctx.(brief := brief);
        var text := Ask(svc, ScriptWriter, ctx, sp);
        Done(State(ctx.(script := Some(text)), Persist(st.disk, ctx.root, ScriptFile, TextDoc(text))))
  }

  /**
   * `StructureTimingAgent.run`.  A missing script raises (`KeyError`).  A reply
   * that parses becomes `structure` and `structure.json`; one that does not
   * is written, as extracted, to `structure_error.txt` and `structure` is
   * left as it was.
   */
  function StructureStage(st: State, svc: Services): (r: Outcome)
    ensures r.Fault? <==> st.ctx.script.None? || LoadPrompt(svc, st.ctx.config, StructurePrompt).None?
    ensures r.Fault? ==> r.state == st
    ensures r.Done? ==> OnlyWrites(st.ctx, r.state.ctx, StructureField) && r.state.disk.assets == st.disk.assets
    ensures r.Done? ==>
      var text := CleanReply(svc, StructureTiming, st.ctx, StructurePrompt).value;
      && (svc.parse(text).Some? ==>
            && r.state.ctx.structure == svc.parse(text)
            && r.state.disk == Persist(st.disk, st.ctx.root, StructureFile, JsonDoc(svc.parse(text).value)))
      && (svc.parse(text).None? ==>
            && r.state.ctx == st.ctx
            && r.state.disk == Persist(st.disk, st.ctx.root, StructureErrorFile, TextDoc(text)))
  {
    if st.ctx.script.None? then Fault(st)
    else
      match CleanReply(svc, StructureTiming, st.ctx, StructurePrompt)
      case None => Fault(st)
      case Some(text) =>
        match svc.parse(text)
        case Some(v) =>
          Done(State(st.ctx.(structure := Some(v)), Persist(st.disk, st.ctx.root, StructureFile, JsonDoc(v))))
        case None =>
          Done(State(st.ctx, Persist(st.disk, st.ctx.root, StructureErrorFile, TextDoc(text))))
  }

  /**
   * `ImagePromptAgent.run`.  A falsy `structure` returns the context as it
   * is.  A reply that parses becomes `image_prompts` and
   * `image_prompts.json`; any failure to parse is swallowed without a trace.
   */
  function ImagePromptStage(st: State, svc: Services): (r: Outcome)
    ensures !Present(st.ctx.structure) ==> r == Done(st)
    ensures r.Fault? <==> Present(st.ctx.structure) && LoadPrompt(svc, st.ctx.config, ImagePromptPrompt).None?
    ensures r.Fault? ==> r.state == st
    ensures r.Done? ==> OnlyWrites(st.ctx, r.state.ctx, ImagePromptsField) && r.state.disk.assets == st.disk.assets
    ensures r.Done? && Present(st.ctx.structure) ==>
      var text := CleanReply(svc, ImagePrompt, st.ctx, ImagePromptPrompt).value;
      && (svc.parse(text).Some? ==>
            && r.state.ctx.imagePrompts == svc.parse(text)
            && r.state.disk == Persist(st.disk, st.ctx.root, ImagePromptsFile, JsonDoc(svc.parse(text).value)))
      && (svc.parse(text).None? ==> r == Done(st))
  {
    if !Present(st.ctx.structure) then Done(st)
    else
      match CleanReply(svc, ImagePrompt, st.ctx, ImagePromptPrompt)
      case None => Fault(st)
      case Some(text) =>
        match svc.parse(text)
        case Some(v) =>
          Done(State(st.ctx.(imagePrompts := Some(v)), Persist(st.disk, st.ctx.root, ImagePromptsFile, JsonDoc(v))))
        case None => Done(st)
  }

  /**
   * A structure reply that parses to an empty object is stored, yet the
   * image-prompt stage that follows treats it as missing and does nothing.
   */
  lemma ParsedEmptyObjectIsMissing(st: State, svc: Services)
    requires st.ctx.script.Some? && LoadPrompt(svc, st.ctx.config, StructurePrompt).Some?
    requires svc.parse(CleanReply(svc, StructureTiming, st.ctx, StructurePrompt).value) == Some(Obj(map[]))
    ensures StructureStage(st, svc).state.ctx.structure == Some(Obj(map[]))
    ensures ImagePromptStage(StructureStage(st, svc).state, svc) == Done(StructureStage(st, svc).state)
  {
    var text := CleanReply(svc, StructureTiming, st.ctx, StructurePrompt).value;
    var st1 := State(st.ctx.(structure := Some(Obj(map[]))), Persist(st.disk, st.ctx.root, StructureFile, JsonDoc(Obj(map[]))));
    assert StructureStage(st, svc) == Done(st1);
    assert !Present(st1.ctx.structure);
  }
}
