/** The processing context that the Markdown middleware chain threads from
    stage to stage, and the dynamic values a front-matter block parses to.

    The context record type is declared in src/scraper/middleware/types.ts,
    which is not part of this model; its fields are the ones the two core
    files read and write. */
module Middleware {

  datatype Option<+T> = None | Some(value: T)

  /** A value the YAML front-matter parser can produce: a string, a number
      (NaN kept apart, since it is the one falsy non-zero number), a boolean,
      a date (YAML timestamps become Date objects, never strings), an array,
      a nested mapping, or null. */
  datatype Value =
    | Str(s: string)
    | Num(n: real)
    | NaN
    | Bool(b: bool)
    | Date(epochMillis: int)
    | Arr(items: seq<Value>)
    | Obj(fields: map<string, Value>)
    | Null

  /** JavaScript truthiness: the empty string, zero, NaN, false and null
      are falsy; every object (date, array, mapping) is truthy, even an
      empty one. */
  predicate Truthy(v: Value) {
    match v
    case Str(s) => s != ""
    case Num(n) => n != 0.0
    case NaN => false
    case Bool(b) => b
    case Date(_) => true
    case Arr(_) => true
    case Obj(_) => true
    case Null => false
  }

  /** Truthiness of an optional property: a missing one reads as
      `undefined`, which is falsy. */
  predicate TruthyProperty(p: Option<Value>) {
    p.Some? && Truthy(p.value)
  }

  /** A snapshot of every field of the context.

      `title` and `originalLink` hold whatever value a stage assigned; the
      front-matter stage copies `name` and `link` without checking that
      they are strings. `hierarchicalPath` is whatever array `path` held.
      `None` stands for a field that was never set. */
  datatype ContextState = ContextState(
    content: string,
    contentType: string,
    source: string,
    title: Option<Value>,
    frontMatter: Option<map<string, Value>>,
    hierarchicalPath: Option<seq<Value>>,
    originalLink: Option<Value>,
    links: seq<string>,
    errors: seq<string>)

  /** The mutable context object, created once per document and updated in
      place by each middleware stage. `errors` holds the messages of the
      recorded non-fatal errors, oldest first. */
  class Context {
    var content: string
    var contentType: string
    var source: string
    var title: Option<Value>
    var frontMatter: Option<map<string, Value>>
    var hierarchicalPath: Option<seq<Value>>
    var originalLink: Option<Value>
    var links: seq<string>
    var errors: seq<string>

    /** A context with the given text and tags, no links, no errors and no
        optional field set. */
    constructor (contentType: string, content: string, source: string)
      ensures State() == ContextState(content, contentType, source, None, None, None, None, [], [])
    {
      this.content := content;
      this.contentType := contentType;
      this.source := source;
      title := None;
      frontMatter := None;
      hierarchicalPath := None;
      originalLink := None;
      links := [];
      errors := [];
    }

    function State(): ContextState
      reads this
    {
      ContextState(content, contentType, source, title, frontMatter,
                   hierarchicalPath, originalLink, links, errors)
    }

    /** Overwrites every field at once; stands for a stage whose code is
        not part of this model and whose effect is given as a new state. */
    method Assign(s: ContextState)
      modifies this
      ensures State() == s
    {
      content, contentType, source := s.content, s.contentType, s.source;
      title, frontMatter := s.title, s.frontMatter;
      hierarchicalPath, originalLink := s.hierarchicalPath, s.originalLink;
      links, errors := s.links, s.errors;
    }
  }

  /** The continuation `next` handed to a middleware stage. It records how
      often the stage invoked it; the runner goes on to the following stage
      only if it was invoked. */
  class Continuation {
    var calls: nat

    constructor ()
      ensures calls == 0
    {
      calls := 0;
    }

    method Invoke()
      modifies this
      ensures calls == old(calls) + 1
    {
      calls := calls + 1;
    }
  }
}
