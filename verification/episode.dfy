/**
 * The state the stages share: the episode context (the dict threaded from
 * stage to stage), the files the run produces, and the external services a
 * stage may consult.  Everything a stage cannot compute itself (prompt files,
 * the generative service, JSON parsing, MIME guessing, `str()` of a JSON
 * value) is a field of `Services`.
 */
module Episode {
  import opened Wrappers
  import opened Json
  import opened Paths
  import opened RemoteApi
  import CacheGuard

  /** The parts of `config/settings.yaml` the core reads. */
  datatype Config = Config(outputDir: string, promptsDir: string, mockMode: bool)

  /**
   * The context dict.  `name`, `brief`, `config` and the two `paths` entries
   * are set before the first stage; every other entry is absent (`None`)
   * until the stage that owns it stores a value.
   */
  datatype Context = Context(
    name: string,
    brief: Json,
    config: Config,
    root: string,
    promptsDir: string,
    script: Option<string>,
    structure: Option<Json>,
    imagePrompts: Option<Json>,
    ttsPlan: Option<Json>,
    timeline: Option<Json>,
    qaReport: Option<string>)

  /** A document a stage writes under the episode root. */
  datatype Doc = TextDoc(text: string) | JsonDoc(value: Json)

  /**
   * The filesystem: generated media with their sizes (what the cache guard
   * inspects) and the documents written by the stages, by path.
   */
  datatype Disk = Disk(assets: CacheGuard.Files, docs: map<string, Doc>)

  datatype State = State(ctx: Context, disk: Disk)

  /** A stage returns normally, or raises; a raising stage leaves behind what it already wrote. */
  datatype Outcome = Done(state: State) | Fault(state: State)

  /** The outcome of one iteration of a stage's loop over entries: the entry as left, or an exception. */
  datatype SlotResult =
    | SlotDone(entry: Json, files: CacheGuard.Files, generated: bool)
    | SlotRaised(files: CacheGuard.Files)

  /**
   * A whole loop over entries: the entries as it left them, the generator
   * calls it made and the paths those calls returned, or an exception, after
   * which the entries already worked on keep what the loop wrote into them in
   * place.
   */
  datatype Slots =
    | Completed(entries: seq<Json>, files: CacheGuard.Files, calls: nat, written: set<string>)
    | Aborted(entries: seq<Json>, files: CacheGuard.Files, written: set<string>)

  /** `after` is `before` with `key` set to a string and nothing else changed. */
  predicate Annotated(before: Json, after: Json, key: string) {
    && before.Obj? && after.Obj?
    && after.fields.Keys == before.fields.Keys + {key}
    && after.fields[key].Str?
    && forall k :: k in before.fields && k != key ==> after.fields[k] == before.fields[k]
  }

  /** Entry `e` records the path `p` under `key`. */
  predicate RecordsPath(e: Json, key: string, p: string) {
    e.Obj? && key in e.fields && e.fields[key] == Str(p)
  }

  /** The seven stages. */
  datatype Agent = ScriptWriter | StructureTiming | ImagePrompt | Production | VoiceOver | VideoAssembly | QA

  /** The context entries a stage may own. */
  datatype Field = ScriptField | StructureField | ImagePromptsField | TtsPlanField | TimelineField | QaField

  /**
   * The outside world.  `reply(agent, ctx)` is the sequence of outcomes of the
   * live text call a stage makes from `ctx`; `image(prompt, path)` and
   * `speech(text, path)` those of the media calls; `locked` holds the paths
   * `os.remove` fails on.
   */
  datatype Services = Services(
    prompts: map<string, string>,
    client: bool,
    reply: (Agent, Context) -> (nat -> Attempt<string>),
    parse: Parser,
    image: (Json, string) -> (nat -> Attempt<seq<Part>>),
    speech: (Json, string) -> (nat -> Attempt<seq<Part>>),
    guess: string -> Option<string>,
    show: Json -> string,
    locked: set<string>)

  /** Mock mode wins over everything; without it, a client must exist. */
  function ModeOf(config: Config, svc: Services): (m: Mode)
    ensures m == Mock <==> config.mockMode
    ensures m == NoClient <==> !config.mockMode && !svc.client
  {
    if config.mockMode then Mock else if svc.client then Live else NoClient
  }

  /** `load_prompt(name)`: the file under the configured prompts directory; `None` when reading raises. */
  function LoadPrompt(svc: Services, config: Config, name: string): (r: Option<string>)
    ensures r.Some? <==> Join(config.promptsDir, name) in svc.prompts
    ensures r.Some? ==> r.value == svc.prompts[Join(config.promptsDir, name)]
  {
    var path := Join(config.promptsDir, name);
    if path in svc.prompts then Some(svc.prompts[path]) else None
  }

  /** The raw reply a stage gets from `generate_text`. */
  function Ask(svc: Services, agent: Agent, ctx: Context, systemPrompt: string): string {
    GenerateText(ModeOf(ctx.config, svc), systemPrompt, svc.reply(agent, ctx))
  }

  /** Writing `name` under the episode root replaces that one document. */
  function Persist(disk: Disk, root: string, name: string, doc: Doc): (d: Disk)
    ensures d.assets == disk.assets
    ensures d.docs.Keys == disk.docs.Keys + {Join(root, name)}
    ensures d.docs[Join(root, name)] == doc
    ensures forall p :: p in disk.docs && p != Join(root, name) ==> d.docs[p] == disk.docs[p]
  {
    disk.(docs := disk.docs[Join(root, name) := doc])
  }

  /** `b` differs from `a` at most in the entry `f`. */
  predicate OnlyWrites(a: Context, b: Context, f: Field) {
    && a.name == b.name && a.brief == b.brief && a.config == b.config
    && a.root == b.root && a.promptsDir == b.promptsDir
    && (f != ScriptField ==> a.script == b.script)
    && (f != StructureField ==> a.structure == b.structure)
    && (f != ImagePromptsField ==> a.imagePrompts == b.imagePrompts)
    && (f != TtsPlanField ==> a.ttsPlan == b.ttsPlan)
    && (f != TimelineField ==> a.timeline == b.timeline)
    && (f != QaField ==> a.qaReport == b.qaReport)
  }

  /** The file names the stages write, relative to the episode root. */
  const ScriptFile := "script.md"
  const StructureFile := "structure.json"
  const StructureErrorFile := "structure_error.txt"
  const ImagePromptsFile := "image_prompts.json"
  const TtsPlanFile := "tts_plan.json"
  const TimelineFile := "timeline.json"
  const QaFile := "qa_report.md"

  /** The document at `root/name`, if one was written. */
  function DocAt(disk: Disk, root: string, name: string): Option<Doc> {
    if Join(root, name) in disk.docs then Some(disk.docs[Join(root, name)]) else None
  }

  /**
   * Every text entry of the context and every JSON entry that no later stage
   * annotates agrees with the file it was persisted to.
   */
  predicate Persisted(st: State) {
    var c := st.ctx;
    && (c.script.Some? ==> DocAt(st.disk, c.root, ScriptFile) == Some(TextDoc(c.script.value)))
    && (c.structure.Some? ==> DocAt(st.disk, c.root, StructureFile) == Some(JsonDoc(c.structure.value)))
    && (c.timeline.Some? ==> DocAt(st.disk, c.root, TimelineFile) == Some(JsonDoc(c.timeline.value)))
    && (c.qaReport.Some? ==> DocAt(st.disk, c.root, QaFile) == Some(TextDoc(c.qaReport.value)))
  }

  /** Writing one document leaves the documents at every other name where they were. */
  lemma PersistOther(disk: Disk, root: string, name: string, doc: Doc, other: string)
    requires !IsAbs(name) && !IsAbs(other) && name != other
    ensures DocAt(Persist(disk, root, name, doc), root, other) == DocAt(disk, root, other)
    ensures DocAt(Persist(disk, root, name, doc), root, name) == Some(doc)
  {
    if Join(root, name) == Join(root, other) {
      JoinInjective(root, name, other);
    }
  }
}
