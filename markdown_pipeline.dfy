/** The Markdown pipeline (src/scraper/pipelines/MarkdownPipeline.ts): it
    decodes the raw bytes, builds a fresh context, runs the fixed stage
    chain over it (front matter first), hands the processed text and the
    hierarchical path to the splitter, and copies the context into the
    result.

    The collaborators whose code is not part of this model are parameters:
    the byte decoder, the `gray-matter` parser, the two auxiliary stages
    (metadata and link extraction), the two-phase splitter, and the
    Markdown MIME-type test. */
module Pipeline {
  import opened Middleware
  import FrontMatterMiddleware

  newtype byte = x: int | 0 <= x < 256

  /** What the fetcher delivers. */
  datatype RawContent = RawContent(
    content: seq<byte>,
    mimeType: string,
    charset: Option<string>,
    source: string)

  /** A chunk as the splitter returns it; the pipeline only passes it on. */
  datatype Chunk = Chunk(content: string, sectionPath: seq<string>, sectionLevel: nat)

  datatype PipelineResult = PipelineResult(
    title: Option<Value>,
    contentType: string,
    textContent: string,
    links: seq<string>,
    errors: seq<string>,
    chunks: seq<Chunk>,
    originalLink: Option<Value>)

  datatype Stage = FrontMatterStage | MetadataExtractorStage | LinkExtractorStage

  /** The context a stage leaves behind and whether it invoked its
      continuation. */
  datatype StageOutcome = StageOutcome(state: ContextState, proceeds: bool)

  /** Size thresholds of the greedy splitter: the configured minimum and
      the pipeline's preferred and maximum sizes. */
  datatype SplitterConfig = SplitterConfig(minChunkSize: nat, preferredChunkSize: nat, maxChunkSize: nat)

  /** The collaborators of one pipeline run. */
  datatype Collaborators = Collaborators(
    convertToString: (seq<byte>, Option<string>) -> string,
    parseFrontMatter: string -> FrontMatterMiddleware.ParseOutcome,
    runAuxiliaryStage: (Stage, ContextState) -> StageOutcome,
    splitText: (SplitterConfig, string, string, Option<seq<Value>>) -> seq<Chunk>)

  const DefaultMimeType: string := "text/markdown"

  /** The pipeline's stages, in the order they run. */
  const StageOrder: seq<Stage> := [FrontMatterStage, MetadataExtractorStage, LinkExtractorStage]

  /** One stage applied to a context. The front-matter stage is the one
      modelled here and always proceeds; the others are collaborators. */
  function StageStep(stage: Stage, s: ContextState, env: Collaborators): StageOutcome {
    match stage
    case FrontMatterStage =>
      StageOutcome(FrontMatterMiddleware.Extract(s, env.parseFrontMatter(s.content)), true)
    case _ =>
      env.runAuxiliaryStage(stage, s)
  }

  /** Chain of responsibility over `stages`: each stage runs on the context
      its predecessor left, and the chain stops at the first stage that
      does not invoke its continuation. */
  function RunStages(stages: seq<Stage>, s: ContextState, env: Collaborators): ContextState
    decreases |stages|
  {
    if stages == [] then s
    else
      var o := StageStep(stages[0], s, env);
      if o.proceeds then RunStages(stages[1..], o.state, env) else o.state
  }

  /** Runs the stages in order on the context object, in place. */
  method ExecuteMiddlewareStack(stages: seq<Stage>, context: Context, env: Collaborators)
    modifies context
    ensures context.State() == RunStages(stages, old(context.State()), env)
  {
    var i := 0;
    var proceed := true;
    while i < |stages| && proceed
      invariant 0 <= i <= |stages|
      invariant proceed ==> RunStages(stages[i..], context.State(), env) == RunStages(stages, old(context.State()), env)
      invariant !proceed ==> context.State() == RunStages(stages, old(context.State()), env)
    {
      assert stages[i..][1..] == stages[i + 1..];
      var next := new Continuation();
      if stages[i] == FrontMatterStage {
        FrontMatterMiddleware.Process(context, next, env.parseFrontMatter);
      } else {
        var outcome := env.runAuxiliaryStage(stages[i], context.State());
        context.Assign(outcome.state);
        if outcome.proceeds {
          next.Invoke();
        }
      }
      proceed := next.calls > 0;
      i := i + 1;
    }
    if proceed {
      assert stages[i..] == [];
    }
  }

  /** The context's content type: the fetched MIME type, or Markdown when
      the fetcher gave none. */
  function DefaultContentType(mimeType: string): (t: string)
    ensures t != ""
    ensures mimeType != "" ==> t == mimeType
    ensures mimeType == "" ==> t == DefaultMimeType
  {
    if mimeType != "" then mimeType else DefaultMimeType
  }

  /** The context a run starts from. */
  function InitialState(raw: RawContent, env: Collaborators): (s: ContextState)
    ensures s.content == env.convertToString(raw.content, raw.charset)
    ensures s.source == raw.source
    ensures s.contentType == DefaultContentType(raw.mimeType)
    ensures s.links == [] && s.errors == []
    ensures s.title.None? && s.frontMatter.None? && s.hierarchicalPath.None? && s.originalLink.None?
  {
    ContextState(env.convertToString(raw.content, raw.charset), DefaultContentType(raw.mimeType),
                 raw.source, None, None, None, None, [], [])
  }

  /** The context once every stage has run. */
  function ProcessedContext(raw: RawContent, env: Collaborators): ContextState {
    RunStages(StageOrder, InitialState(raw, env), env)
  }

  class MarkdownPipeline {
    /** Filled once; the front-matter stage must come first so that the
        block is gone before the other stages see the text. */
    const middleware: seq<Stage> := StageOrder
    const splitterConfig: SplitterConfig

    /** `minChunkSize` is the configured minimum chunk size, a constant of
        the configuration module. */
    constructor (preferredChunkSize: nat, maxChunkSize: nat, minChunkSize: nat)
      ensures splitterConfig == SplitterConfig(minChunkSize, preferredChunkSize, maxChunkSize)
      ensures middleware == [FrontMatterStage, MetadataExtractorStage, LinkExtractorStage]
      ensures FrontMatterFirst(middleware)
    {
      splitterConfig := SplitterConfig(minChunkSize, preferredChunkSize, maxChunkSize);
    }

    /** Only a non-empty MIME type that the MIME utilities call Markdown. */
    function CanProcess(mimeType: string, isMarkdown: string -> bool): (r: bool)
      ensures mimeType == "" ==> !r
      ensures r ==> isMarkdown(mimeType)
      ensures mimeType != "" && isMarkdown(mimeType) ==> r
    {
      if mimeType == "" then false else isMarkdown(mimeType)
    }

    /** One document through the pipeline. The result carries the context's
        fields as the stages left them; the splitter gets the same text
        that the result reports, the fetched MIME type as it is, and the
        context's hierarchical path as the path prefix. */
    method Process(raw: RawContent, env: Collaborators) returns (result: PipelineResult)
      ensures var s := ProcessedContext(raw, env);
              && result.title == s.title
              && result.contentType == s.contentType
              && result.textContent == s.content
              && result.links == s.links
              && result.errors == s.errors
              && result.originalLink == s.originalLink
              && result.chunks == env.splitText(splitterConfig, s.content, raw.mimeType, s.hierarchicalPath)
    {
      var contentString := env.convertToString(raw.content, raw.charset);
      var context := new Context(DefaultContentType(raw.mimeType), contentString, raw.source);
      ExecuteMiddlewareStack(middleware, context, env);
      var text := context.content;
      var chunks := env.splitText(splitterConfig, text, raw.mimeType, context.hierarchicalPath);
      result := PipelineResult(context.title, context.contentType, text, context.links,
                               context.errors, chunks, context.originalLink);
    }
  }

  // ---------------------------------------------------------------------
  // What the run promises about the front-matter stage's effect, under the
  // context contract of the auxiliary stages (whose code is not modelled).
  // ---------------------------------------------------------------------

  /** The auxiliary stages only ever append to `errors`. */
  ghost predicate AuxiliaryAppendsErrors(env: Collaborators) {
    forall stage: Stage, st: ContextState :: st.errors <= env.runAuxiliaryStage(stage, st).state.errors
  }

  /** The auxiliary stages never overwrite a truthy title. */
  ghost predicate AuxiliaryKeepsTitle(env: Collaborators) {
    forall stage: Stage, st: ContextState :: TruthyProperty(st.title) ==> env.runAuxiliaryStage(stage, st).state.title == st.title
  }

  /** The auxiliary stages do not touch the hierarchical path. */
  ghost predicate AuxiliaryKeepsPath(env: Collaborators) {
    forall stage: Stage, st: ContextState :: env.runAuxiliaryStage(stage, st).state.hierarchicalPath == st.hierarchicalPath
  }

  /** The auxiliary stages do not rewrite the content. */
  ghost predicate AuxiliaryKeepsContent(env: Collaborators) {
    forall stage: Stage, st: ContextState :: env.runAuxiliaryStage(stage, st).state.content == st.content
  }

  /** The shape of the pipeline's stage list: the front-matter stage
      first, then auxiliary stages only. */
  predicate FrontMatterFirst(stages: seq<Stage>) {
    && |stages| >= 1
    && stages[0] == FrontMatterStage
    && forall i :: 1 <= i < |stages| ==> stages[i] != FrontMatterStage
  }

  /** The front-matter stage runs first, on the text the run starts from. */
  lemma FrontMatterRunsFirst(stages: seq<Stage>, s: ContextState, env: Collaborators)
    requires FrontMatterFirst(stages)
    ensures RunStages(stages, s, env)
         == RunStages(stages[1..], FrontMatterMiddleware.Extract(s, env.parseFrontMatter(s.content)), env)
  {
  }

  /** No stage run removes or reorders errors, so long as the auxiliary
      stages only append. */
  lemma {:induction false} ErrorsOnlyGrow(stages: seq<Stage>, s: ContextState, env: Collaborators)
    requires AuxiliaryAppendsErrors(env)
    ensures s.errors <= RunStages(stages, s, env).errors
    decreases |stages|
  {
    if stages != [] {
      var o := StageStep(stages[0], s, env);
      if o.proceeds {
        ErrorsOnlyGrow(stages[1..], o.state, env);
      }
    }
  }

  /** A property that every auxiliary stage preserves holds after any run
      of auxiliary stages. */
  lemma {:induction false} AuxiliaryStagesPreserve(
    stages: seq<Stage>, s: ContextState, env: Collaborators, inv: ContextState -> bool)
    requires forall i :: 0 <= i < |stages| ==> stages[i] != FrontMatterStage
    requires inv(s)
    requires forall stage: Stage, st: ContextState :: inv(st) ==> inv(env.runAuxiliaryStage(stage, st).state)
    ensures inv(RunStages(stages, s, env))
    decreases |stages|
  {
    if stages != [] {
      var o := StageStep(stages[0], s, env);
      if o.proceeds {
        AuxiliaryStagesPreserve(stages[1..], o.state, env, inv);
      }
    }
  }

  // The four lemmas below hold for any stage list of the pipeline's shape
  // and any starting context; `MarkdownPipeline.Process` runs them on
  // `InitialState`, whose `errors` is empty and whose content is the
  // decoded text.

  /** A parse failure is reported: its error comes right after the errors
      the run started with (so it is the first error of a pipeline run), and
      nothing later removes it. */
  lemma ParseFailureIsReported(stages: seq<Stage>, s: ContextState, env: Collaborators)
    requires FrontMatterFirst(stages)
    requires AuxiliaryAppendsErrors(env)
    requires env.parseFrontMatter(s.content).Threw?
    ensures var errors := RunStages(stages, s, env).errors;
            && |errors| > |s.errors|
            && errors[..|s.errors|] == s.errors
            && errors[|s.errors|] == FrontMatterMiddleware.FailureMessage(env.parseFrontMatter(s.content).thrown)
  {
    var s1 := FrontMatterMiddleware.Extract(s, env.parseFrontMatter(s.content));
    FrontMatterRunsFirst(stages, s, env);
    ErrorsOnlyGrow(stages[1..], s1, env);
  }

  /** A truthy `name` in the front matter becomes the title when the run
      starts without a truthy title. */
  lemma NameBecomesTitle(stages: seq<Stage>, s: ContextState, env: Collaborators)
    requires FrontMatterFirst(stages)
    requires AuxiliaryKeepsTitle(env)
    requires !TruthyProperty(s.title)
    requires var outcome := env.parseFrontMatter(s.content);
             outcome.Parsed? && "name" in outcome.data && Truthy(outcome.data["name"])
    ensures RunStages(stages, s, env).title == Some(env.parseFrontMatter(s.content).data["name"])
  {
    var outcome := env.parseFrontMatter(s.content);
    var s1 := FrontMatterMiddleware.Extract(s, outcome);
    var name := outcome.data["name"];
    FrontMatterRunsFirst(stages, s, env);
    var inv := (st: ContextState) => st.title == Some(name);
    assert inv(s1);
    AuxiliaryStagesPreserve(stages[1..], s1, env, inv);
  }

  /** An array-valued `path` in the front matter is the hierarchical path
      the run ends with, which the pipeline hands to the splitter. */
  lemma PathReachesSplitter(stages: seq<Stage>, s: ContextState, env: Collaborators)
    requires FrontMatterFirst(stages)
    requires AuxiliaryKeepsPath(env)
    requires var outcome := env.parseFrontMatter(s.content);
             outcome.Parsed? && "path" in outcome.data && outcome.data["path"].Arr?
    ensures RunStages(stages, s, env).hierarchicalPath == Some(env.parseFrontMatter(s.content).data["path"].items)
  {
    var outcome := env.parseFrontMatter(s.content);
    var s1 := FrontMatterMiddleware.Extract(s, outcome);
    var path := outcome.data["path"].items;
    FrontMatterRunsFirst(stages, s, env);
    var inv := (st: ContextState) => st.hierarchicalPath == Some(path);
    assert inv(s1);
    AuxiliaryStagesPreserve(stages[1..], s1, env, inv);
  }

  /** Without front-matter keys (no block, an empty block, or a block that
      fails to parse) the text the run ends with is the text it started
      with. */
  lemma TextKeptWithoutFrontMatter(stages: seq<Stage>, s: ContextState, env: Collaborators)
    requires FrontMatterFirst(stages)
    requires AuxiliaryKeepsContent(env)
    requires !FrontMatterMiddleware.HasKeys(env.parseFrontMatter(s.content))
    ensures RunStages(stages, s, env).content == s.content
  {
    var s1 := FrontMatterMiddleware.Extract(s, env.parseFrontMatter(s.content));
    FrontMatterRunsFirst(stages, s, env);
    var text := s.content;
    var inv := (st: ContextState) => st.content == text;
    assert inv(s1);
    AuxiliaryStagesPreserve(stages[1..], s1, env, inv);
  }
}
