# Markdown front-matter extraction and pipeline context threading

This project models two pieces of the docs-mcp-server scraper.

The first is the front-matter middleware. It parses a YAML block at the top of a Markdown document and strips it from the text. It stores the parsed map on the processing context and copies `name`, `link` and `path` into the context's `title`, `originalLink` and `hierarchicalPath`. A block that fails to parse is recorded as a non-fatal error. Whatever happens, the middleware then hands control to the next stage.

The second is the Markdown pipeline. It decodes the fetched bytes and builds a fresh context. It runs the stage chain over that context: front matter, then metadata extraction, then link extraction. It hands the processed text and the hierarchical path to the splitter. Finally it copies the context's fields into the result record.

Files:

- `middleware_context.dfy` (module `Middleware`) holds the context as a class with mutable fields. Its value snapshot is `ContextState`. The module also holds the parsed-value type `Value`, JavaScript truthiness, and the continuation `next` as an object that counts its invocations.
- `front_matter_middleware.dfy` (module `FrontMatterMiddleware`) holds the stage. `Extract` gives its effect on a context snapshot. `Process` is the in-place method proved against `Extract`.
- `markdown_pipeline.dfy` (module `Pipeline`) holds the stage runner, the `MarkdownPipeline` class and the lemmas about a whole run.

Collaborators whose code is not part of this model are parameters of the model. Each is taken as a total function:

- the byte decoder `convertToString`;
- the `gray-matter` parse, whose result is a `ParseOutcome`: either the data map plus the body, or the value the parser threw;
- the metadata and link extraction stages, each a function from a context snapshot to a new snapshot plus a flag saying whether the stage invoked its continuation;
- the splitter's `splitText`;
- `MimeTypeUtils.isMarkdown`.

The lemmas about a whole run list, as preconditions, what they need from the auxiliary stages. One example is "they only append to `errors`".

The splitter receives the fetched MIME type as it is, even when it is empty. Only the context's `contentType` gets the `text/markdown` default.

Three behaviours of the code go beyond what its own declarations suggest, and the model follows the code:

- The class's doc comment (src/scraper/middleware/FrontMatterMiddleware.ts:28) says the front-matter block is removed from the content. But the content is replaced only when the parsed data has at least one key (line 45). So a block that parses to no keys, such as an empty `---`/`---` block, stays in the text, and the context is left entirely unchanged.
- The parsed data is cast to the declared `FrontMatterData` type without a check (line 46). So `path` is accepted when it is any array, whatever its elements (line 65).
- For the same reason, `name` and `link` are copied when they are truthy, whatever their type (lines 55-62). So `title` and `originalLink` hold a `Value` rather than a string.

## Model

| member | source | states |
|---|---|---|
| `FrontMatterMiddleware.FailureMessage` | src/scraper/middleware/FrontMatterMiddleware.ts:71-75 | The recorded message starts with `Failed to parse front-matter: `. The rest is the thrown error's message, or the thrown value's string form when it is not an `Error`. |
| `FrontMatterMiddleware.Extract` | src/scraper/middleware/FrontMatterMiddleware.ts:41-76 | No keys: the context is unchanged. Keys found: `content` becomes the body and `frontMatter` the whole parsed map. `title` takes `name` iff `name` is truthy and the title is falsy; a truthy title is never overwritten. `originalLink` takes `link` iff `link` is truthy, else it is kept. `hierarchicalPath` takes `path` iff `path` is an array, else it is kept. A failed parse appends exactly one error after the old ones and changes nothing else. `errors` only grows. `contentType`, `source` and `links` are never touched. |
| `FrontMatterMiddleware.Process` | src/scraper/middleware/FrontMatterMiddleware.ts:40-79 | Updates the context in place to exactly `Extract` of its old state and of the parse of its old content. It invokes `next` exactly once on every path. |
| `Middleware.Context.constructor` | src/scraper/pipelines/MarkdownPipeline.ts:63-71 | A new context has the given content, content type and source. It has no links and no errors, and no optional field set. |
| `Pipeline.ExecuteMiddlewareStack` | src/scraper/pipelines/MarkdownPipeline.ts:73-74 | Running the stage list on the context object in place leaves it equal to the chain-of-responsibility run `RunStages`. Each stage sees its predecessor's context, and the chain stops at the first stage that does not invoke its continuation. |
| `Pipeline.DefaultContentType` | src/scraper/pipelines/MarkdownPipeline.ts:64 | The content type is the fetched MIME type when that is non-empty, and `text/markdown` otherwise. It is never empty. |
| `Pipeline.InitialState` | src/scraper/pipelines/MarkdownPipeline.ts:61-71 | The run starts from a context whose content is the decoded bytes and whose source is the fetched source. Its content type is defaulted, `links` and `errors` are empty, and title, front matter, path and link are unset. |
| `Pipeline.MarkdownPipeline.constructor` | src/scraper/pipelines/MarkdownPipeline.ts:27-49 | The stage list is fixed: front matter, then metadata extraction, then link extraction. So it has the shape the end-to-end lemmas require. The splitter gets the configured minimum size and the given preferred and maximum sizes. |
| `Pipeline.MarkdownPipeline.CanProcess` | src/scraper/pipelines/MarkdownPipeline.ts:51-54 | False for an empty MIME type. Otherwise true exactly when the MIME utilities call the type Markdown. |
| `Pipeline.MarkdownPipeline.Process` | src/scraper/pipelines/MarkdownPipeline.ts:56-93 | The result's title, content type, links, errors and original link are the context's values after the stages. `textContent` is the processed text. The chunks are what the splitter returns for that same text, the fetched MIME type, and the context's `hierarchicalPath` as the path prefix. |
| `Pipeline.FrontMatterRunsFirst` | src/scraper/pipelines/MarkdownPipeline.ts:32-36 | For a stage list that starts with the front-matter stage, as the pipeline's does, a run is the front-matter step on the starting text followed by the remaining stages. |
| `Pipeline.ErrorsOnlyGrow` | src/scraper/pipelines/MarkdownPipeline.ts:67-74 | If the auxiliary stages only append errors, any run of stages keeps the old errors as a prefix. So the pipeline never removes or reorders an error. |
| `Pipeline.ParseFailureIsReported` | src/scraper/pipelines/MarkdownPipeline.ts:84-92 | Take a stage list of the pipeline's shape: front matter first, then auxiliary stages only. If the front-matter parse fails and the auxiliary stages only append errors, the run keeps the starting errors and puts the failure message right after them. A pipeline run starts with no errors, so the result's first error is that message. |
| `Pipeline.NameBecomesTitle` | src/scraper/pipelines/MarkdownPipeline.integration.test.ts:42-46 | For a stage list of the pipeline's shape and a run starting without a truthy title, a truthy `name` in the front matter becomes the final title. This needs the auxiliary stages not to overwrite a truthy title. |
| `Pipeline.PathReachesSplitter` | src/scraper/pipelines/MarkdownPipeline.ts:76-82 | For a stage list of the pipeline's shape, an array-valued `path` in the front matter is the final `hierarchicalPath`. `Process` hands that path to the splitter as the prefix. This needs the auxiliary stages to leave the path alone. |
| `Pipeline.TextKeptWithoutFrontMatter` | src/scraper/pipelines/MarkdownPipeline.integration.test.ts:94-101 | For a stage list of the pipeline's shape, a text whose parse yields no keys or fails is still the text at the end of the run. This needs the auxiliary stages not to rewrite the content. |

## Left out

- The YAML parse inside `gray-matter` is an opaque `ParseOutcome`. The model does not say which texts contain a block, how a block is delimited, or what its body parses to. Properties that depend on the parser are therefore not stated, such as idempotence of stripping.
- `gray-matter`'s result cache is not modelled.
- The splitters (`SemanticMarkdownSplitter`, `GreedySplitter`) are not part of this model. They are one function from the configuration, the text, the MIME type and the path prefix to chunks.
- `MarkdownMetadataExtractorMiddleware` and `MarkdownLinkExtractorMiddleware` are not part of this model. Each is a function on context snapshots, and the lemmas name the context contract they assume of them.
- `BasePipeline.executeMiddlewareStack` is not part of this model. `Pipeline.ExecuteMiddlewareStack` follows the chain-of-responsibility contract: stages run in order, and a stage that does not invoke `next` ends the chain.
- `convertToString` and `MimeTypeUtils.isMarkdown` are not part of this model. They are parameters.
- async/await: `next()` is a counter the stage increments, and the runner goes on after the stage returns. In the source, `next()` is a nested call, so the later stages run inside it. For the front-matter stage the two agree, since `next()` is its last statement.
- `Collaborators.runAuxiliaryStage` assumes that the metadata and link stages also do all their work before they invoke `next`. Work such a stage did after `await next()` would come after the later stages in the source. This model does not represent that.
- The scraper options and the optional `fetcher` are carried by the source's context but never read by the modelled code. They are left out.
- `Pipeline.MarkdownPipeline.Process`: the context's content is typed as a string in the model, so the `typeof` fallback to `""` at lines 79 and 87 is never taken.
- Recorded errors are their message strings rather than `Error` objects.
- Numbers are reals plus `NaN`. Infinities are not represented, but they are truthy like every non-zero number.
- Front-matter keys are looked up in the parsed map only. `Object.prototype` has no `name`, `link` or `path` property, so for a plain mapping the prototype chain cannot contribute.
- `FrontMatterMiddleware.Extract`: the parse's data is assumed to be a key/value mapping. A front-matter document that is a YAML scalar or sequence is not represented. The guard at line 45 would accept a non-empty string, for example, and then `link` would resolve through `String.prototype`.
- The pipeline constructor's default arguments come from configuration constants, which are not part of this model. The constructor takes the sizes as parameters.
- `src/test-source-link.ts` is a maintenance script doing file-system, database and console work. It is not part of this model.
