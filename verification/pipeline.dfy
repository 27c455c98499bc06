/**
 * `main()` (main.py): build the initial context, run the seven stages in
 * order, stop with exit status 1 at the first stage that raises, and
 * optionally render the episode, swallowing any exception of the renderer.
 */
module Pipeline {
  import opened Wrappers
  import opened Json
  import opened Paths
  import opened Episode
  import Scripting
  import Production
  import VoiceOver
  import Assembly
  import Qa
  import Render

  /** The stages in the order `main` runs them. */
  const Stages: seq<Agent> :=
    [ScriptWriter, StructureTiming, ImagePrompt, Agent.Production, Agent.VoiceOver, VideoAssembly, QA]

  /** `agent.run(context)` for each of the seven agents. */
  function RunStage(a: Agent, st: State, svc: Services): Outcome {
    match a
    case ScriptWriter => Scripting.ScriptStage(st, svc)
    case StructureTiming => Scripting.StructureStage(st, svc)
    case ImagePrompt => Scripting.ImagePromptStage(st, svc)
    case Production => Production.ProductionStage(st, svc)
    case VoiceOver => VoiceOver.VoiceOverStage(st, svc)
    case VideoAssembly => Assembly.AssemblyStage(st, svc)
    case QA => Qa.QaStage(st, svc)
  }

  /** One stage run against the services: what the loop applies to each agent in turn. */
  type Step = (Agent, State) -> Outcome

  function StepOf(svc: Services): (step: Step)
    ensures forall a, st :: step(a, st) == RunStage(a, st, svc)
  {
    (a: Agent, st: State) => RunStage(a, st, svc)
  }

  /** The context before the first stage: the episode root is `<output_dir>/<name>` and no stage output exists yet. */
  function InitialContext(name: string, brief: Json, config: Config): (c: Context)
    ensures c.root == Join(config.outputDir, name) && c.promptsDir == config.promptsDir
    ensures c.script.None? && c.structure.None? && c.imagePrompts.None?
    ensures c.ttsPlan.None? && c.timeline.None? && c.qaReport.None?
  {
    Context(name, brief, config, Join(config.outputDir, name), config.promptsDir, None, None, None, None, None, None)
  }

  /** The fixed part of the context no stage may change. */
  predicate SameEpisode(a: Context, b: Context) {
    a.name == b.name && a.config == b.config && a.root == b.root && a.promptsDir == b.promptsDir
  }

  /** How the stage loop ends: the exit status, the last state, and the stages that were started. */
  datatype Run = Run(exitCode: nat, final: State, started: seq<Agent>)

  /**
   * The stage loop as a reference definition: each stage gets the state the
   * previous one returned; the first stage that raises ends the loop with
   * status 1, keeping what it wrote.
   */
  function Fold(stages: seq<Agent>, st: State, step: Step): (r: Run)
    ensures r.exitCode == 0 || r.exitCode == 1
    ensures |r.started| <= |stages| && r.started == stages[..|r.started|]
    ensures r.exitCode == 0 ==> r.started == stages
    ensures r.exitCode == 1 ==> |r.started| > 0
    decreases |stages|
  {
    if stages == [] then Run(0, st, [])
    else
      match step(stages[0], st)
      case Fault(s) => Run(1, s, [stages[0]])
      case Done(s) =>
        var rest := Fold(stages[1..], s, step);
        assert stages == [stages[0]] + stages[1..];
        Run(rest.exitCode, rest.final, [stages[0]] + rest.started)
  }

  /** The states the stages leave behind, one per started stage. */
  function Trace(stages: seq<Agent>, st: State, step: Step): (r: seq<Outcome>)
    ensures |r| == |Fold(stages, st, step).started|
    ensures |r| > 0 ==> r[|r| - 1].state == Fold(stages, st, step).final
    decreases |stages|
  {
    if stages == [] then []
    else
      match step(stages[0], st)
      case Fault(s) => [Fault(s)]
      case Done(s) => [Done(s)] + Trace(stages[1..], s, step)
  }

  /** The stage loop ends with status 1 exactly when some started stage raised, and then it is the last one started. */
  lemma {:induction false} FaultIsLast(stages: seq<Agent>, st: State, step: Step)
    ensures var t := Trace(stages, st, step);
      && (forall k :: 0 <= k < |t| - 1 ==> t[k].Done?)
      && (Fold(stages, st, step).exitCode == 1 <==> |t| > 0 && t[|t| - 1].Fault?)
    decreases |stages|
  {
    if stages != [] {
      match step(stages[0], st)
      case Fault(s) =>
      case Done(s) =>
        FaultIsLast(stages[1..], s, step);
        var t := Trace(stages, st, step);
        var u := Trace(stages[1..], s, step);
        assert t == [Done(s)] + u;
        forall k | 0 <= k < |t| - 1
          ensures t[k].Done?
        {
          if k > 0 { assert t[k] == u[k - 1]; }
        }
    }
  }

  /** `r`, with `done` already started before it. */
  function After(done: seq<Agent>, r: Run): Run {
    Run(r.exitCode, r.final, done + r.started)
  }

  /**
   * The loop of `main` over the stages.  It agrees with `Fold` on every
   * input, and the per-stage outcomes it records are those of `Trace`.
   */
  method RunPipeline(stages: seq<Agent>, st0: State, step: Step) returns (code: nat, final: State, started: seq<Agent>, states: seq<Outcome>)
    ensures Run(code, final, started) == Fold(stages, st0, step)
    ensures states == Trace(stages, st0, step)
  {
    var cur := st0;
    var i := 0;
    started := [];
    states := [];
    code := 0;
    assert stages[..0] == [] && stages[0..] == stages;
    while i < |stages|
      invariant 0 <= i <= |stages|
      invariant started == stages[..i] && |states| == i
      invariant Fold(stages, st0, step) == After(stages[..i], Fold(stages[i..], cur, step))
      invariant Trace(stages, st0, step) == states + Trace(stages[i..], cur, step)
      decreases |stages| - i
    {
      var out := step(stages[i], cur);
      LoopStep(stages, i, cur, step, states);
      started := started + [stages[i]];
      states := states + [out];
      if out.Fault? {
        return 1, out.state, started, states;
      }
      cur := out.state;
      i := i + 1;
    }
    assert stages[i..] == [];
    final := cur;
  }

  /** The loop's bookkeeping after running stage `i`. */
  lemma LoopStep(stages: seq<Agent>, i: nat, cur: State, step: Step, states: seq<Outcome>)
    requires i < |stages|
    ensures
      var out := step(stages[i], cur);
      && stages[..i] + [stages[i]] == stages[..i + 1]
      && (out.Fault? ==>
            && After(stages[..i], Fold(stages[i..], cur, step)) == Run(1, out.state, stages[..i + 1])
            && states + Trace(stages[i..], cur, step) == states + [out])
      && (out.Done? ==>
            && After(stages[..i], Fold(stages[i..], cur, step)) == After(stages[..i + 1], Fold(stages[i + 1..], out.state, step))
            && states + Trace(stages[i..], cur, step) == (states + [out]) + Trace(stages[i + 1..], out.state, step))
  {
    assert stages[i..][0] == stages[i] && stages[i..][1..] == stages[i + 1..];
    assert stages[..i] + [stages[i]] == stages[..i + 1];
    LoopFold(stages, i, cur, step);
    LoopTrace(stages, i, cur, step, states);
  }

  /** The run from stage `i` on, after the stages before it: stage `i`, then the run from `i + 1`. */
  lemma LoopFold(stages: seq<Agent>, i: nat, cur: State, step: Step)
    requires i < |stages|
    requires stages[i..][0] == stages[i] && stages[i..][1..] == stages[i + 1..]
    requires stages[..i] + [stages[i]] == stages[..i + 1]
    ensures
      var out := step(stages[i], cur);
      && (out.Fault? ==> After(stages[..i], Fold(stages[i..], cur, step)) == Run(1, out.state, stages[..i + 1]))
      && (out.Done? ==>
            After(stages[..i], Fold(stages[i..], cur, step)) == After(stages[..i + 1], Fold(stages[i + 1..], out.state, step)))
  {
    FoldStep(stages[i..], cur, step);
    var out := step(stages[i], cur);
    if out.Done? {
      var rest := Fold(stages[i + 1..], out.state, step);
      assert stages[..i] + ([stages[i]] + rest.started) == stages[..i + 1] + rest.started;
    }
  }

  /** The outcomes from stage `i` on, after those recorded: stage `i`'s outcome, then those from `i + 1`. */
  lemma LoopTrace(stages: seq<Agent>, i: nat, cur: State, step: Step, states: seq<Outcome>)
    requires i < |stages|
    requires stages[i..][0] == stages[i] && stages[i..][1..] == stages[i + 1..]
    ensures
      var out := step(stages[i], cur);
      && (out.Fault? ==> states + Trace(stages[i..], cur, step) == states + [out])
      && (out.Done? ==>
            states + Trace(stages[i..], cur, step) == (states + [out]) + Trace(stages[i + 1..], out.state, step))
  {
    TraceStep(stages[i..], cur, step);
    var out := step(stages[i], cur);
    if out.Done? {
      var t := Trace(stages[i + 1..], out.state, step);
      assert states + ([out] + t) == (states + [out]) + t;
    }
  }

  /** One step of the loop: the first stage, then the rest from the state it returned. */
  lemma FoldStep(stages: seq<Agent>, st: State, step: Step)
    requires stages != []
    ensures
      var out := step(stages[0], st);
      && (out.Fault? ==> Fold(stages, st, step) == Run(1, out.state, [stages[0]]))
      && (out.Done? ==>
            var rest := Fold(stages[1..], out.state, step);
            Fold(stages, st, step) == Run(rest.exitCode, rest.final, [stages[0]] + rest.started))
  {
  }

  /** The outcomes of one step of the loop: the first stage's, then those of the rest. */
  lemma TraceStep(stages: seq<Agent>, st: State, step: Step)
    requires stages != []
    ensures
      var out := step(stages[0], st);
      && (out.Fault? ==> Trace(stages, st, step) == [out])
      && (out.Done? ==> Trace(stages, st, step) == [out] + Trace(stages[1..], out.state, step))
  {
  }

  /** Every stage keeps the episode's name, configuration and root. */
  lemma StageKeepsEpisode(a: Agent, st: State, svc: Services)
    ensures SameEpisode(st.ctx, RunStage(a, st, svc).state.ctx)
  {
  }

  /**
   * Every stage keeps each stored text entry and each stored structure and
   * timeline in step with the file it was written to.
   */
  lemma StagePreservesPersisted(a: Agent, st: State, svc: Services)
    requires Persisted(st)
    ensures Persisted(RunStage(a, st, svc).state)
  {
    match a
    case ScriptWriter => ScriptKeepsPersisted(st, svc);
    case StructureTiming => StructureKeepsPersisted(st, svc);
    case ImagePrompt => ImagePromptKeepsPersisted(st, svc);
    case Production => assert Production.ProductionStage(st, svc).state.disk.docs == st.disk.docs;
    case VoiceOver => VoiceOverKeepsPersisted(st, svc);
    case VideoAssembly => AssemblyKeepsPersisted(st, svc);
    case QA => QaKeepsPersisted(st, svc);
  }

  lemma ScriptKeepsPersisted(st: State, svc: Services)
    requires Persisted(st)
    ensures Persisted(Scripting.ScriptStage(st, svc).state)
  {
    var r := Scripting.ScriptStage(st, svc);
    if r.Done? {
      var doc := TextDoc(r.state.ctx.script.value);
      PersistOther(st.disk, st.ctx.root, ScriptFile, doc, StructureFile);
      PersistOther(st.disk, st.ctx.root, ScriptFile, doc, TimelineFile);
      PersistOther(st.disk, st.ctx.root, ScriptFile, doc, QaFile);
    }
  }

  lemma StructureKeepsPersisted(st: State, svc: Services)
    requires Persisted(st)
    ensures Persisted(Scripting.StructureStage(st, svc).state)
  {
    var r := Scripting.StructureStage(st, svc);
    var root := st.ctx.root;
    if r.Done? {
      var text := Scripting.CleanReply(svc, StructureTiming, st.ctx, Scripting.StructurePrompt).value;
      match svc.parse(text)
      case Some(v) =>
        PersistOther(st.disk, root, StructureFile, JsonDoc(v), ScriptFile);
        PersistOther(st.disk, root, StructureFile, JsonDoc(v), TimelineFile);
        PersistOther(st.disk, root, StructureFile, JsonDoc(v), QaFile);
      case None =>
        PersistOther(st.disk, root, StructureErrorFile, TextDoc(text), ScriptFile);
        PersistOther(st.disk, root, StructureErrorFile, TextDoc(text), StructureFile);
        PersistOther(st.disk, root, StructureErrorFile, TextDoc(text), TimelineFile);
        PersistOther(st.disk, root, StructureErrorFile, TextDoc(text), QaFile);
    }
  }

  lemma ImagePromptKeepsPersisted(st: State, svc: Services)
    requires Persisted(st)
    ensures Persisted(Scripting.ImagePromptStage(st, svc).state)
  {
    var r := Scripting.ImagePromptStage(st, svc);
    if r.state != st {
      var doc := JsonDoc(r.state.ctx.imagePrompts.value);
      PersistOther(st.disk, st.ctx.root, ImagePromptsFile, doc, ScriptFile);
      PersistOther(st.disk, st.ctx.root, ImagePromptsFile, doc, StructureFile);
      PersistOther(st.disk, st.ctx.root, ImagePromptsFile, doc, TimelineFile);
      PersistOther(st.disk, st.ctx.root, ImagePromptsFile, doc, QaFile);
    }
  }

  lemma VoiceOverKeepsPersisted(st: State, svc: Services)
    requires Persisted(st)
    ensures Persisted(VoiceOver.VoiceOverStage(st, svc).state)
  {
    var r := VoiceOver.VoiceOverStage(st, svc);
    if r.state.disk.docs != st.disk.docs {
      var plan :| r.state.disk.docs == Persist(st.disk, st.ctx.root, TtsPlanFile, JsonDoc(plan)).docs;
      PlanKeepsOthers(st.disk, r.state.disk, st.ctx.root, plan);
    }
  }

  lemma AssemblyKeepsPersisted(st: State, svc: Services)
    requires Persisted(st)
    ensures Persisted(Assembly.AssemblyStage(st, svc).state)
  {
    var r := Assembly.AssemblyStage(st, svc);
    if r.state != st {
      var doc := JsonDoc(r.state.ctx.timeline.value);
      PersistOther(st.disk, st.ctx.root, TimelineFile, doc, ScriptFile);
      PersistOther(st.disk, st.ctx.root, TimelineFile, doc, StructureFile);
      PersistOther(st.disk, st.ctx.root, TimelineFile, doc, QaFile);
    }
  }

  lemma QaKeepsPersisted(st: State, svc: Services)
    requires Persisted(st)
    ensures Persisted(Qa.QaStage(st, svc).state)
  {
    var r := Qa.QaStage(st, svc);
    if r.Done? {
      var doc := TextDoc(r.state.ctx.qaReport.value);
      PersistOther(st.disk, st.ctx.root, QaFile, doc, ScriptFile);
      PersistOther(st.disk, st.ctx.root, QaFile, doc, StructureFile);
      PersistOther(st.disk, st.ctx.root, QaFile, doc, TimelineFile);
    }
  }

  /** Writing the TTS plan leaves the four tracked documents where they were. */
  lemma PlanKeepsOthers(disk: Disk, after: Disk, root: string, plan: Json)
    requires after.docs == Persist(disk, root, TtsPlanFile, JsonDoc(plan)).docs
    ensures DocAt(after, root, ScriptFile) == DocAt(disk, root, ScriptFile)
    ensures DocAt(after, root, StructureFile) == DocAt(disk, root, StructureFile)
    ensures DocAt(after, root, TimelineFile) == DocAt(disk, root, TimelineFile)
    ensures DocAt(after, root, QaFile) == DocAt(disk, root, QaFile)
  {
    var d := Persist(disk, root, TtsPlanFile, JsonDoc(plan));
    PersistOther(disk, root, TtsPlanFile, JsonDoc(plan), ScriptFile);
    PersistOther(disk, root, TtsPlanFile, JsonDoc(plan), StructureFile);
    PersistOther(disk, root, TtsPlanFile, JsonDoc(plan), TimelineFile);
    PersistOther(disk, root, TtsPlanFile, JsonDoc(plan), QaFile);
    assert DocAt(after, root, ScriptFile) == DocAt(d, root, ScriptFile);
    assert DocAt(after, root, StructureFile) == DocAt(d, root, StructureFile);
    assert DocAt(after, root, TimelineFile) == DocAt(d, root, TimelineFile);
    assert DocAt(after, root, QaFile) == DocAt(d, root, QaFile);
  }

  /** However the loop ends, the episode is the same and the tracked documents agree with the context. */
  lemma {:induction false} FoldPreserves(stages: seq<Agent>, st: State, svc: Services)
    requires Persisted(st)
    ensures Persisted(Fold(stages, st, StepOf(svc)).final)
    ensures SameEpisode(st.ctx, Fold(stages, st, StepOf(svc)).final.ctx)
    decreases |stages|
  {
    if stages != [] {
      StagePreservesPersisted(stages[0], st, svc);
      StageKeepsEpisode(stages[0], st, svc);
      match RunStage(stages[0], st, svc)
      case Fault(s) =>
      case Done(s) => FoldPreserves(stages[1..], s, svc);
    }
  }

  /** How `main` ends: its exit status, the state the stages left, and the render, if one was attempted. */
  datatype Exit = Exit(code: nat, run: Run, render: Option<Render.Result>)

  /**
   * The timeline file as the renderer opens it: a stored JSON document reads
   * back as itself, and any other text goes through `json.load`.
   */
  function TimelineOnDisk(disk: Disk, root: string, parse: Parser): (f: Render.TimelineFile)
    ensures DocAt(disk, root, TimelineFile).None? <==> f.Absent?
    ensures forall v :: DocAt(disk, root, TimelineFile) == Some(JsonDoc(v)) ==> f == Render.Parsed(v)
    ensures forall t :: DocAt(disk, root, TimelineFile) == Some(TextDoc(t)) ==>
      f == (if parse(t).Some? then Render.Parsed(parse(t).value) else Render.Malformed)
    ensures f.Malformed? <==>
      DocAt(disk, root, TimelineFile).Some? && DocAt(disk, root, TimelineFile).value.TextDoc? &&
      parse(DocAt(disk, root, TimelineFile).value.text).None?
  {
    match DocAt(disk, root, TimelineFile)
    case None => Render.Absent
    case Some(JsonDoc(v)) => Render.Parsed(v)
    case Some(TextDoc(t)) =>
      match parse(t)
      case Some(v) => Render.Parsed(v)
      case None => Render.Malformed
  }

  /**
   * `main()`.  The render runs only when asked for and only when every stage
   * returned; it reads the timeline the run left on disk, and nothing it does,
   * an exception included, changes the exit status.
   */
  function PipelineMain(name: string, brief: Json, config: Config, render: bool, disk: Disk, svc: Services, w: Render.World): (r: Exit)
    ensures r.run == Fold(Stages, State(InitialContext(name, brief, config), disk), StepOf(svc))
    ensures r.code == r.run.exitCode
    ensures r.render.Some? <==> render && r.code == 0
    ensures r.render.Some? ==>
      r.render.value == Render.RenderVideo(name, config.outputDir, TimelineOnDisk(r.run.final.disk, Join(config.outputDir, name), svc.parse), w)
  {
    var run := Fold(Stages, State(InitialContext(name, brief, config), disk), StepOf(svc));
    if render && run.exitCode == 0 then
      var root := Join(config.outputDir, name);
      Exit(0, run, Some(Render.RenderVideo(name, config.outputDir, TimelineOnDisk(run.final.disk, root, svc.parse), w)))
    else
      Exit(run.exitCode, run, None)
  }

  /**
   * When every stage returns, the renderer reads back exactly the timeline
   * the run stored in the context, if it stored one.
   */
  lemma RenderReadsStoredTimeline(name: string, brief: Json, config: Config, disk: Disk, svc: Services, w: Render.World)
    requires Fold(Stages, State(InitialContext(name, brief, config), disk), StepOf(svc)).exitCode == 0
    requires Fold(Stages, State(InitialContext(name, brief, config), disk), StepOf(svc)).final.ctx.timeline.Some?
    ensures
      var run := Fold(Stages, State(InitialContext(name, brief, config), disk), StepOf(svc));
      PipelineMain(name, brief, config, true, disk, svc, w).render ==
        Some(Render.RenderVideo(name, config.outputDir, Render.Parsed(run.final.ctx.timeline.value), w))
  {
    var st := State(InitialContext(name, brief, config), disk);
    var run := Fold(Stages, st, StepOf(svc));
    var root := Join(config.outputDir, name);
    FoldPreserves(Stages, st, svc);
    assert run.final.ctx.root == root;
    assert TimelineOnDisk(run.final.disk, root, svc.parse) == Render.Parsed(run.final.ctx.timeline.value);
  }

  /** A missing script prompt ends the run at the first stage with status 1, nothing written and nothing rendered. */
  lemma MissingScriptPromptStopsEarly(name: string, brief: Json, config: Config, render: bool, disk: Disk, svc: Services, w: Render.World)
    requires LoadPrompt(svc, config, Scripting.ScriptPrompt).None?
    ensures
      var r := PipelineMain(name, brief, config, render, disk, svc, w);
      && r.code == 1 && r.run.started == [ScriptWriter] && r.run.final.disk == disk && r.render.None?
  {
    var st := State(InitialContext(name, brief, config), disk);
    assert RunStage(Stages[0], st, svc) == Fault(st);
  }
}
