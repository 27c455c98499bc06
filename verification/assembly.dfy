/**
 * `VideoAssemblyAgent.run` (agents/assembly.py): once structure, image
 * prompts and TTS plan are all present, ask for a timeline, clean the reply
 * with the shared fence extractor and keep whatever JSON it parses to.
 */
module Assembly {
  import opened Wrappers
  import opened Json
  import opened Fence
  import opened Episode
  import opened Scripting

  const AssemblyPrompt := "video_assembly_agent.md"

  /** The three upstream entries the stage needs are all truthy. */
  predicate Ready(ctx: Context) {
    Present(ctx.structure) && Present(ctx.imagePrompts) && Present(ctx.ttsPlan)
  }

  /**
   * `VideoAssemblyAgent.run`.  Any reply that parses is accepted as the
   * timeline, whatever its shape, and written to `timeline.json`; a reply
   * that does not parse is dropped and nothing is written.
   */
  function AssemblyStage(st: State, svc: Services): (r: Outcome)
    ensures !Ready(st.ctx) ==> r == Done(st)
    ensures r.Fault? <==> Ready(st.ctx) && LoadPrompt(svc, st.ctx.config, AssemblyPrompt).None?
    ensures r.Fault? ==> r.state == st
    ensures r.Done? ==> OnlyWrites(st.ctx, r.state.ctx, TimelineField) && r.state.disk.assets == st.disk.assets
    ensures r.Done? && Ready(st.ctx) ==>
      var text := CleanReply(svc, VideoAssembly, st.ctx, AssemblyPrompt).value;
      && (svc.parse(text).Some? ==>
            && r.state.ctx.timeline == svc.parse(text)
            && r.state.disk == Persist(st.disk, st.ctx.root, TimelineFile, JsonDoc(svc.parse(text).value)))
      && (svc.parse(text).None? ==> r == Done(st))
  {
    if !Ready(st.ctx) then Done(st)
    else
      match CleanReply(svc, VideoAssembly, st.ctx, AssemblyPrompt)
      case None => Fault(st)
      case Some(text) =>
        match svc.parse(text)
        case Some(v) => Done(State(st.ctx.(timeline := Some(v)), Persist(st.disk, st.ctx.root, TimelineFile, JsonDoc(v))))
        case None => Done(st)
  }

  /**
   * A fenced reply whose body parses to something without any `tracks`
   * (here, a bare number) still becomes the timeline.
   */
  lemma AnyJsonIsATimeline(st: State, svc: Services, n: real)
    requires Ready(st.ctx) && LoadPrompt(svc, st.ctx.config, AssemblyPrompt).Some?
    requires svc.parse(CleanReply(svc, VideoAssembly, st.ctx, AssemblyPrompt).value) == Some(Num(n))
    ensures AssemblyStage(st, svc).state.ctx.timeline == Some(Num(n))
    ensures DocAt(AssemblyStage(st, svc).state.disk, st.ctx.root, TimelineFile) == Some(JsonDoc(Num(n)))
  {
  }
}
