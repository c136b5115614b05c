/** `validate(schema)` of `src/middleware/validator.ts`. Running the Zod schema is not
    modelled here: its outcome, including the list of issues Zod reports and their order, is
    the input. On success the parsed (and defaulted) output is discarded and the request goes
    on as it came; a `ZodError` becomes exactly one `ValidationError`; anything else thrown
    while parsing is passed on unchanged. */
module Validator {
  import opened Strings
  import opened Errors
  import opened Http

  /** One element of a Zod issue path: an object key or an array index. */
  datatype PathItem = Key(name: string) | Index(i: nat)

  datatype Issue = Issue(path: seq<PathItem>, message: string)

  /** What `schema.parseAsync({body, query, params})` does: resolve with the parsed output,
      reject with a `ZodError`, or reject with something else. */
  datatype ParseOutcome = Parsed(output: Request) | ZodFailed(issues: seq<Issue>) | ParseThrew(error: Thrown)

  /** `String(item)`, as `Array.prototype.join` renders each path element. */
  function RenderItem(item: PathItem): string {
    match item
    case Key(k) => k
    case Index(i) => NatToString(i)
  }

  /** `err.path.join('.')`. */
  function RenderPath(path: seq<PathItem>): string {
    Join(seq(|path|, i requires 0 <= i < |path| => RenderItem(path[i])), ".")
  }

  /** `${err.path.join('.')}: ${err.message}`. */
  function RenderIssue(issue: Issue): string {
    RenderPath(issue.path) + ": " + issue.message
  }

  /** `error.errors.map(...)`: one rendered entry per issue, in the issues' order. */
  function Rendered(issues: seq<Issue>): (entries: seq<string>)
    ensures |entries| == |issues|
    ensures forall i :: 0 <= i < |issues| ==> entries[i] == RenderIssue(issues[i])
  {
    seq(|issues|, i requires 0 <= i < |issues| => RenderIssue(issues[i]))
  }

  /** `errorMessages.join(', ')`. */
  function IssuesMessage(issues: seq<Issue>): string {
    Join(Rendered(issues), ", ")
  }

  /** The middleware: the parse outcome decides between `next()` and `next(error)`. */
  function Validate(outcome: ParseOutcome): (f: Flow)
    ensures outcome.Parsed? <==> f == Proceed
    ensures outcome.ZodFailed? ==> f == Fail(App(NewValidationError(IssuesMessage(outcome.issues))))
    ensures outcome.ParseThrew? ==> f == Fail(outcome.error)
  {
    match outcome
    case Parsed(_) => Proceed
    case ZodFailed(issues) => Fail(App(NewValidationError(IssuesMessage(issues))))
    case ParseThrew(e) => Fail(e)
  }

  /** The parsed output plays no part: two successful parses, whatever they produced, lead
      to the same `next()`. */
  lemma ParsedOutputDiscarded(o1: Request, o2: Request)
    ensures Validate(Parsed(o1)) == Validate(Parsed(o2)) == Proceed
  {
  }

  /** A Zod failure is a 400 `ValidationError` and no issue is dropped from its message:
      every reported issue's rendering occurs in it. */
  lemma {:induction false} NoIssueDropped(issues: seq<Issue>, j: nat)
    requires j < |issues|
    ensures Validate(ZodFailed(issues)).error.error.statusCode == 400
    ensures Includes(Validate(ZodFailed(issues)).error.error.message, RenderIssue(issues[j]))
  {
    JoinIncludesPart(Rendered(issues), ", ", j);
  }

  /** The message lists the issues in order: the first issue's rendering, then `", "`, then
      the message the remaining issues would give on their own. */
  lemma IssuesInOrder(issues: seq<Issue>)
    requires |issues| >= 2
    ensures IssuesMessage(issues) == RenderIssue(issues[0]) + ", " + IssuesMessage(issues[1..])
  {
    assert Rendered(issues)[1..] == Rendered(issues[1..]);
  }
}
