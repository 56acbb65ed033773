# Trip-plan backend: retrieval-to-prompt pipeline

This project models the `POST /generate-trip-plan` endpoint of a small Express server.
The endpoint reads the activities, restaurants and hotels of a Thai province from a
Supabase data store and renders each category as a bullet list, or as a fixed "no data
in this province" sentence when there are no rows. It builds a two-message chat prompt
that quotes those lists and tells the model to use nothing else, then returns the first
completion of an OpenAI chat call as the plan. It also models the startup gate that
refuses to run without the three credentials.

Modules, leaf to root:

- `Wrappers`: `Option` (`null`/`undefined` where a value may be absent) and `Result`.
- `Js`: the JavaScript behaviour the handler depends on:
  - truthiness and `${…}` interpolation of a `JsValue` (`Undefined`, `Null`, `Bool`, `Int`, `Str`);
  - decimal rendering of integers;
  - `Array.prototype.join`;
  - `String.prototype.split` and `String.prototype.includes`, which the handler never calls: they are used only to state properties of the rendered text;
  - the lemmas that relate these (split undoes join, every joined part occurs at a known offset).
- `Catalog`: a row `{name, description}` becomes `- name: description`. A missing or
  empty description becomes `ไม่มีคำอธิบาย` ("no description"). The lines are joined with
  `\n`. An absent or empty list becomes the category's placeholder sentence.
- `Prompt`: the fixed system instruction and the user template. The template holds the
  request line (province, style, days, budget), the three sections under their headings,
  and the closing directives.
- `Config`: the check of `SUPABASE_URL`, `SUPABASE_SERVICE_ROLE_KEY` and `OPENAI_API_KEY`.
  Unset and empty both count as missing, as `!""` is true in JavaScript.
- `Handler`:
  - the data store and the completion service are oracles held by a `Backend` object;
  - a ghost log records every call made to them;
  - `GenerateTripPlan` is the handler itself, with its early 500 returns and its `try/catch`.

The renderer and the prompt builder are Dafny functions, so equal inputs always give
equal sections and equal messages; only the completion oracle's answer varies between
backends.

## Model

| member | source | states |
|---|---|---|
| `Catalog.Placeholder` | server.js:62-72 | each category's "no data" sentence is non-empty and does not start with `-`, so it cannot be mistaken for a bullet line |
| `Catalog.Description` | server.js:63 | the text put in place of a description (the description when truthy, else `ไม่มีคำอธิบาย`) is never empty |
| `Catalog.Line` | server.js:63 | every bullet line starts with `"- "` and has content after it |
| `Catalog.Lines` | server.js:63 | `rows.map(...)`: one line per row, the `i`th line being the `i`th row's line |
| `Catalog.Render` | server.js:62-72 | a rendered section is never empty; it equals the category placeholder if and only if the list is absent or has no rows |
| `Catalog.LineDescription` | server.js:63 | a non-empty string description stands verbatim after `name: `; an undefined, null or empty description is replaced by the fixed "no description" text |
| `Catalog.RenderLast` | server.js:62-64 | one row renders to its line alone; each further row appends `\n` and its line at the end, so lines follow input order and no newline follows the last line |
| `Catalog.RenderSplitsIntoLines` | server.js:62-64 | when no name or description holds a newline, splitting a rendered list at `\n` gives exactly one line per row, in input order |
| `Catalog.LineInSection` | server.js:62-64 | every row's line occurs verbatim in its rendered section, at a computed offset |
| `Js.Truthy` | server.js:63 | a value is falsy exactly when it is `undefined`, `null`, `false`, `0` or `""` |
| `Js.Text` | server.js:63 | a truthy value never interpolates to the empty string, so a description kept because it is truthy never leaves its line empty after `name: ` |
| `Js.ParseNatToString` | server.js:91 | the decimal text of a natural number reads back as that number |
| `Js.IntTextReadsBack` | server.js:91 | an interpolated integer, such as the day count, is its sign followed by decimal digits that read back as its magnitude |
| `Js.JoinStartsWith` | server.js:63 | a joined list begins with its first part |
| `Js.JoinEndsWith` | server.js:63 | a joined list ends with its last part, so no separator trails |
| `Js.SplitJoin` | server.js:63 | `split` undoes `join` when no part contains the separator |
| `Js.JoinSnoc` | server.js:63 | joining one more part appends only the separator and that part |
| `Js.JoinPartAt` | server.js:63 | every joined part occurs verbatim at its offset |
| `Prompt.SystemInstructionFixed` | server.js:83-87 | the first message is the system instruction, the same for every request and catalog |
| `Prompt.RequestLineFields` | server.js:91 | the request line shows the province, style, days and budget texts verbatim, in that order, each at an offset computed from the lengths of the fixed labels |
| `Prompt.SectionsInOrder` | server.js:88-107 | the user instruction opens with a newline and the request line, then quotes the activities, restaurants and hotels sections, each verbatim, in that order and without overlapping, and ends with the fixed directives |
| `Prompt.MessagesQuoteSections` | server.js:83-109 | the conversation is exactly two messages: the fixed system instruction, then a user message quoting the three sections at their offsets |
| `Prompt.CatalogMessagesQuoteSections` | server.js:62-109 | the conversation built from a catalog quotes each category's rendered section at its offset, and so quotes the placeholder of every category that had no rows |
| `Prompt.LineGrounded` | server.js:62-107 | the user message sent for a catalog quotes every line of every category verbatim (grounding can be traced) |
| `Config.CheckEnvironment` | server.js:14-20 | startup succeeds if and only if all three variables are set and non-empty; on success it hands on exactly those values, which are valid credentials; on failure the error is the fixed message |
| `Config.AnyMissingRefuses` | server.js:14-16 | any one missing variable refuses startup, whatever the other two hold |
| `Config.EmptyCountsAsMissing` | server.js:14-16 | setting any required variable to the empty string refuses startup |
| `Handler.Pattern` | server.js:32 | the `ilike` pattern starts and ends with `%` and holds the province text, verbatim, in between |
| `Handler.FetchFailure` | server.js:34-59 | a read failure answers 500 with an error body, different from the generic `Server Error` answer |
| `Handler.FailuresDistinguishable` | server.js:34-59 | the three categories' read failures differ from each other |
| `Handler.PlanResponse` | server.js:112-117 | the answer is 200 if and only if the completion succeeded with at least one choice; then the plan is the first choice's content unchanged; otherwise the answer is 500 `Server Error` |
| `Handler.Backend.constructor` | server.js:18-20 | the clients can only be built from credentials that passed the startup gate, and start with no calls made |
| `Handler.Backend.Select` | server.js:29-54 | a read returns the store's answer for that table and pattern, and logs exactly that read |
| `Handler.Backend.Complete` | server.js:80-110 | a completion call returns the service's answer for those messages, and logs exactly that call |
| `Handler.Backend.GenerateTripPlan` | server.js:23-118 | a failed activities read answers 500 `Failed to fetch activities` after that one read. A failed restaurants read answers 500 `Failed to fetch restaurants` after two reads. A failed hotels read answers 500 `Failed to fetch hotels` after three reads. In none of these cases is the completion service called. When all three reads succeed, even with no rows, the handler makes exactly one completion call, with the catalog prompt, and answers with `PlanResponse` of its result |

## Left out

- Express, CORS and JSON middleware, dotenv loading, `app.listen` and the default port (server.js:3-11, 121-124): transport and bootstrap.
- The Supabase query semantics: the case-insensitive substring match of `ilike` and the `destinations!inner` join (server.js:29-32, 40-43, 51-54). Each read is an oracle from (category, pattern) to rows or an error; the filtering belongs to the store.
- The OpenAI model id `gpt-4o` and temperature `0.7` (server.js:81-82): a fixed foreign-call parameter and a float. The oracle receives only the messages.
- `console.log` / `console.error` (server.js:26, 35, 46, 57, 75-77, 115): logging only.
- `async`/`await`: the reads are awaited strictly one after another, so they are modelled in sequence. Concurrency between requests is left out, as no state is shared between them.
- Throws other than those of the completion call: a rejected Supabase `await`, or a missing `req.body`, which makes the destructuring throw. Both would also end in the 500 `Server Error` answer. A Supabase read is modelled as returning `{data}` or `{error}`, and the request as an object whose missing fields are `undefined`.
- A choice without a `message` object is not modelled: a `Choice` always carries content.
- JSON serialisation of the response body: the body holds the content value as returned, so a `null` or `undefined` plan is carried as such.
- `Js.Text` covers `undefined`, `null`, booleans, integers and strings only. It does not model floats, the exponent notation JavaScript uses for integers of 10^21 and more, or interpolating objects and arrays. A JavaScript number is a double, so an integer beyond 2^53 in the request body is rounded before `${days}` prints it; the model prints the exact value.
- `Js.Truthy`: its falsy list is complete for the modelled values only. `NaN`, `-0` and `0n`, which JavaScript also treats as falsy, are not among the modelled values.
- Request validation and timeouts: the code has neither, so the model has neither. An empty category renders its placeholder and the request still proceeds.
- The call log `Backend.calls` is ghost: it records which oracles were consulted and has no counterpart in the running server.
- `Backend.completer` and `Backend.store` are fixed functions for each backend. The real completion service, sampling at temperature 0.7, can answer the same messages differently each time, and the real data store's rows can change between requests. In the model, two identical requests to one backend read the same rows and get the same plan.
