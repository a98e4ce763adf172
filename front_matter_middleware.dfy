/** The front-matter stage of the Markdown pipeline
    (src/scraper/middleware/FrontMatterMiddleware.ts).

    The YAML parse itself belongs to the `gray-matter` library and is taken
    as an opaque input: a `ParseOutcome` that either carries the parsed
    key/value data and the body that follows the block, or the value the
    parser threw. */
module FrontMatterMiddleware {
  import opened Middleware

  /** What the parser threw: an `Error` instance (its `message` is used) or
      any other value (its `String(...)` rendering is used). */
  datatype Thrown = ErrorInstance(message: string) | NonError(text: string)

  datatype ParseOutcome =
    | Parsed(data: map<string, Value>, body: string)
    | Threw(thrown: Thrown)

  const FailurePrefix: string := "Failed to parse front-matter: "

  function Lookup(data: map<string, Value>, key: string): Option<Value> {
    if key in data then Some(data[key]) else None
  }

  /** The parse found a block with at least one key. Only then does the
      stage change anything besides `errors`: a block that parses to no
      keys (including an empty `---`/`---` block) is left in the content. */
  predicate HasKeys(outcome: ParseOutcome) {
    outcome.Parsed? && |outcome.data| > 0
  }

  /** The value of a front-matter key, when the parse found keys. */
  function Key(outcome: ParseOutcome, key: string): Option<Value> {
    if HasKeys(outcome) then Lookup(outcome.data, key) else None
  }

  /** The message of the error recorded when the parse throws. */
  function FailureMessage(t: Thrown): (m: string)
    ensures |FailurePrefix| <= |m| && m[..|FailurePrefix|] == FailurePrefix
    ensures t.ErrorInstance? ==> m[|FailurePrefix|..] == t.message
    ensures t.NonError? ==> m[|FailurePrefix|..] == t.text
  {
    FailurePrefix + (match t
                     case ErrorInstance(message) => message
                     case NonError(text) => text)
  }

  /** The effect of the stage on the context, given what the parser made of
      the context's content. */
  function Extract(s: ContextState, outcome: ParseOutcome): (r: ContextState)
    // No keys: nothing changes at all.
    ensures outcome.Parsed? && |outcome.data| == 0 ==> r == s
    // Keys found: the body replaces the content and the whole map, unknown
    // keys and date values included, is stored as it is.
    ensures HasKeys(outcome) ==> r.content == outcome.body && r.frontMatter == Some(outcome.data)
    ensures !HasKeys(outcome) ==> r.content == s.content && r.frontMatter == s.frontMatter
    // `name` fills the title only when it is truthy and the title is not;
    // a truthy title is never overwritten.
    ensures TruthyProperty(Key(outcome, "name")) && !TruthyProperty(s.title) ==> r.title == Key(outcome, "name")
    ensures !(TruthyProperty(Key(outcome, "name")) && !TruthyProperty(s.title)) ==> r.title == s.title
    // `link` is copied exactly when it is truthy.
    ensures TruthyProperty(Key(outcome, "link")) ==> r.originalLink == Key(outcome, "link")
    ensures !TruthyProperty(Key(outcome, "link")) ==> r.originalLink == s.originalLink
    // `path` is copied exactly when it is an array, whatever its elements.
    ensures Key(outcome, "path").Some? && Key(outcome, "path").value.Arr? ==>
              r.hierarchicalPath == Some(Key(outcome, "path").value.items)
    ensures !(Key(outcome, "path").Some? && Key(outcome, "path").value.Arr?) ==>
              r.hierarchicalPath == s.hierarchicalPath
    // A failed parse appends exactly one error, keeps the old ones as a
    // prefix, and changes nothing else.
    ensures outcome.Threw? ==>
              && |r.errors| == |s.errors| + 1
              && r.errors[..|s.errors|] == s.errors
              && r.errors[|s.errors|] == FailureMessage(outcome.thrown)
              && r.(errors := s.errors) == s
    ensures outcome.Parsed? ==> r.errors == s.errors
    // Errors are append-only; the other fields are never touched.
    ensures s.errors <= r.errors
    ensures r.contentType == s.contentType && r.source == s.source && r.links == s.links
  {
    match outcome
    case Threw(t) =>
      s.(errors := s.errors + [FailureMessage(t)])
    case Parsed(data, body) =>
      if |data| == 0 then s
      else
        var name := Lookup(data, "name");
        var link := Lookup(data, "link");
        var path := Lookup(data, "path");
        s.(content := body,
           frontMatter := Some(data),
           title := if TruthyProperty(name) && !TruthyProperty(s.title) then name else s.title,
           originalLink := if TruthyProperty(link) then link else s.originalLink,
           hierarchicalPath :=
             if TruthyProperty(path) && path.value.Arr? then Some(path.value.items)
             else s.hierarchicalPath)
  }

  /** The stage itself: parses the context's content, updates the context
      in place, and then invokes the continuation exactly once, whichever
      way the parse went. */
  method Process(context: Context, next: Continuation, parse: string -> ParseOutcome)
    modifies context, next
    ensures context.State() == Extract(old(context.State()), parse(old(context.content)))
    ensures next.calls == old(next.calls) + 1
  {
    var outcome := parse(context.content);
    match outcome {
      case Parsed(data, body) =>
        if |data| > 0 {
          context.content := body;
          context.frontMatter := Some(data);
          var name := Lookup(data, "name");
          if TruthyProperty(name) && !TruthyProperty(context.title) {
            context.title := name;
          }
          var link := Lookup(data, "link");
          if TruthyProperty(link) {
            context.originalLink := link;
          }
          var path := Lookup(data, "path");
          if TruthyProperty(path) && path.value.Arr? {
            context.hierarchicalPath := Some(path.value.items);
          }
        }
      case Threw(t) =>
        context.errors := context.errors + [FailureMessage(t)];
    }
    next.Invoke();
  }
}
