/**
 * `QAAgent.run` (agents/qa.py): the one stage without a gate.  It asks for a
 * report on whatever the context holds and stores the reply exactly as
 * received, fences and all.
 */
module Qa {
  import opened Wrappers
  import opened Text
  import opened Fence
  import opened Episode

  const QaPrompt := "qa_agent.md"

  /**
   * `QAAgent.run`.  Only a missing prompt file stops it; the report is the raw
   * reply, "" included, and `qa_report.md` holds exactly that text.
   */
  function QaStage(st: State, svc: Services): (r: Outcome)
    ensures r.Fault? <==> LoadPrompt(svc, st.ctx.config, QaPrompt).None?
    ensures r.Fault? ==> r.state == st
    ensures r.Done? ==> OnlyWrites(st.ctx, r.state.ctx, QaField) && r.state.disk.assets == st.disk.assets
    ensures r.Done? ==> r.state.ctx.qaReport == Some(Ask(svc, QA, st.ctx, LoadPrompt(svc, st.ctx.config, QaPrompt).value))
    ensures r.Done? ==> r.state.disk == Persist(st.disk, st.ctx.root, QaFile, TextDoc(r.state.ctx.qaReport.value))
  {
    match LoadPrompt(svc, st.ctx.config, QaPrompt)
    case None => Fault(st)
    case Some(sp) =>
      var report := Ask(svc, QA, st.ctx, sp);
      Done(State(st.ctx.(qaReport := Some(report)), Persist(st.disk, st.ctx.root, QaFile, TextDoc(report))))
  }

  /**
   * Nothing upstream is needed: with no script, structure or anything else,
   * the stage still asks and records the reply.
   */
  lemma QaIsUngated(st: State, svc: Services)
    requires st.ctx.script.None? && st.ctx.structure.None? && st.ctx.imagePrompts.None?
    requires st.ctx.ttsPlan.None? && st.ctx.timeline.None?
    requires LoadPrompt(svc, st.ctx.config, QaPrompt).Some?
    ensures QaStage(st, svc).Done? && QaStage(st, svc).state.ctx.qaReport.Some?
  {
  }

  /**
   * The report is not passed through the fence extractor: a fenced reply is
   * stored with its fences, and it differs from what a parsing stage would
   * have kept.
   */
  lemma QaKeepsFences(st: State, svc: Services)
    requires LoadPrompt(svc, st.ctx.config, QaPrompt).Some?
    requires Contains(Ask(svc, QA, st.ctx, LoadPrompt(svc, st.ctx.config, QaPrompt).value), Tick3)
    ensures Contains(QaStage(st, svc).state.ctx.qaReport.value, Tick3)
    ensures QaStage(st, svc).state.ctx.qaReport.value != Extract(QaStage(st, svc).state.ctx.qaReport.value)
  {
    ExtractRemovesFences(Ask(svc, QA, st.ctx, LoadPrompt(svc, st.ctx.config, QaPrompt).value));
  }
}
