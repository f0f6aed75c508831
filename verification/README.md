# Loki push client — Dafny model

A model of the per-call pipeline of a small Go client for the Loki log
backend (`loki.go`). A `Print(v...)` call formats its heterogeneous
arguments into one log line and one label set, builds a push payload that
holds exactly one stream with exactly one `[timestamp, line]` pair, posts it
once to `<address>/loki/api/v1/push`, and, if anything fails, writes the
error text plus a newline to standard output instead of returning it.

Modules, one per component of the source:

- `Wrappers` — `Option` and `Result`.
- `Decimal` — the `%d` rendering of naturals (`FromNat`), its inverse
  (`ToNat`), and round trips in both directions.
- `Configuration` — the `Config` record of `config.go` and the `Logger`
  that holds it.
- `Formatter` — arguments as capability records (`Arg`: default rendering,
  optional `String()` result, optional `Labels()` result); the line and
  label semantics; the `Format` method, a loop that mirrors the Go loop
  step by step, proved against the independent descriptions.
- `PayloadBuilder` — the effective label set and the `Payload`/`Stream`
  shape.
- `Transport` — the push URL, the request, the failure precedence and
  status classification of `send`, the error texts and a parser that reads
  a status-rejection text back.
- `Facade` — `Print`.
- `Scenarios` — the repository's test cases restated about the model.

The line is not a plain space-join, although a plain space-join would be
the natural expectation. The Go loop replaces the accumulator
while it is still `""` and otherwise appends `" " + text`, so renderings
before the first non-empty one disappear while later empty ones leave
doubled spaces. The model follows the code: the line is
`SpaceJoin(DropLeadingEmpty(Texts(args)))`, which equals the plain
space-join whenever no rendering is empty (`NonEmptyTextsJoinPlainly`).

The payload's labels are built as a new map from the defaults and the call
labels. Every value in the model is immutable, so the configured defaults
are never changed by a call.

Labels come only from arguments that have both `String()` and `Labels()`,
because the labeler interface embeds the stringer interface. A value with
`Labels()` alone contributes nothing.

## Model

| member | source | states |
|---|---|---|
| Decimal.FromNat | loki.go:128 | the `%d` rendering of a nanosecond count is a non-empty all-digit string with no redundant leading zero, starting with `0` only for zero |
| Decimal.ToNatFromNat | loki.go:128 | the rendered timestamp reads back as exactly the timestamp |
| Decimal.FromNatToNat | loki.go:128 | every canonical digit string is the rendering of its own value, so the rendering is a bijection onto canonical strings |
| Decimal.LeadingDigitsOfConcat | loki.go:96 | in a status text the run of digits after the prefix is exactly the rendered code, since a tab follows it |
| Formatter.Text | loki.go:48-52 | an argument's text is its `String()` result when it has that method, and its default rendering otherwise |
| Formatter.MergeLabels | loki.go:54-59 | the merged label set holds exactly the keys that some argument with both `String()` and `Labels()` supplies |
| Formatter.DropLeadingEmpty | loki.go:61-65 | the texts kept are a suffix of the texts, every text dropped is empty, and the first one kept is non-empty |
| Formatter.SpaceJoinAppend | loki.go:64 | appending `" " + text` to a non-empty join is the join of the extended list |
| Formatter.DropLeadingEmptyAppend | loki.go:61-65 | a new text is dropped only while everything before it was empty, and otherwise is kept even when empty |
| Formatter.LineStep | loki.go:61-65 | one iteration of the replace-or-append step turns the line for a prefix into the line for the prefix plus one argument |
| Formatter.NonEmptyTextsJoinPlainly | loki.go:61-65 | when no argument renders empty, the line is the renderings joined by single spaces in input order |
| Formatter.MergeLabelsLastWriterWins | loki.go:54-59 | the merged labels hold exactly the keys some labeler supplies, each with the value of the last labeler that supplies it |
| Formatter.LastWriterWinsUnique | loki.go:54-59 | that description determines the label set completely |
| Formatter.NonLabelersContributeNothing | loki.go:16-19 | arguments that lack `String()` or `Labels()` add no labels |
| Formatter.Format | loki.go:40-69 | the line is the space-join of the renderings from the first non-empty one on (each rendering is `String()` when present, else the default), zero arguments giving `""`; the labels obey last-writer-wins |
| PayloadBuilder.EffectiveLabels | loki.go:112-121 | the record's keys are the default keys plus the call's keys; a call value wins on collision; a default survives where the call has no value or no map |
| PayloadBuilder.NoCallLabelsGiveDefaults | loki.go:117-121 | a nil or empty call map yields exactly the defaults |
| PayloadBuilder.BuildPayload | loki.go:102-132 | exactly one stream with exactly one two-element entry: a canonical decimal timestamp that reads back as the clock value, then the line unchanged; the stream labels are the effective labels |
| Transport.PushUrl | loki.go:142-144 | the URL is the address verbatim followed by `/loki/api/v1/push` |
| Transport.ErrorText | loki.go:71-99 | reproduces each `fmt.Errorf` format, with the wrapped error as `reason`: an encoding failure reads `makePayload error: can't marshal json to loki: ` then the reason (the wrapping from loki.go:136 inside that from loki.go:74); request and transport failures read their stage's context then the reason; a rejection reads `loki response: `, the decimal code, the tab separator, then the body |
| Transport.Send | loki.go:71-100 | at most one request is handed to the HTTP client and none when encoding fails; that request is a POST of the encoded body to the push URL; an encoding failure is reported first, then a request-construction failure, then a transport failure, then the status; 200 and 204 succeed; any other status fails carrying the code and the body that was sent |
| Transport.SendSucceedsIff | loki.go:95-99 | a send succeeds if and only if encoding succeeds and the backend answers 200 or 204 |
| Transport.StatusReportRoundTrip | loki.go:96 | the rejection text starts with `loki response: `, then the decimal code, then a tab separator and the body; parsing it recovers both code and body |
| Transport.OnlyStatusRejectionsParse | loki.go:71-96 | the texts of encoding, request and transport failures are never mistaken for a status rejection |
| Facade.Print | loki.go:31-38 | no pipeline failure reaches the caller: whenever the arguments' methods return, Print yields a diagnostic, the error text plus a newline, exactly when sending the formatted record fails, and nothing when it succeeds |
| Scenarios.MixedTypesFormat | loki_print_test.go:64-69 | a stringer, a labeler and a number give `custom log 123` and the labels `{component: test}` |
| Scenarios.EmptyRenderings | loki.go:61-65 | a leading empty rendering vanishes while an interior one leaves a double space |
| Scenarios.LabelsWithoutStringIgnored | loki.go:16-19 | a value with `Labels()` but no `String()` adds no labels |
| Scenarios.PayloadLabelsScenario | loki_test.go:28-69 | defaults `{app: test}` with call labels `{env: dev}` give stream labels with both, and the entry carries the line |
| Scenarios.Status500Text | loki_send_test.go:51-55 | a 500 answer fails with a text that starts with `loki response: 500` |

## Left out

- HTTP machinery (request construction, the client, its timeout, redirects
  the client follows inside its one call, closing the body): replaced by the
  injected function `exchange`, whose result says
  whether the request could not be built, could not be completed, or was
  answered with a status. `Config.timeout` is therefore carried but unused.
- Transport.Send: `sent` lists the request handed to `exchange`, including
  one that then turns out not to be buildable (nothing goes on the wire
  then); a 307 or 308 redirect that re-posts the body inside the client's
  one call is not represented.
- The `Content-Type: application/json` header is recorded in `Request` but
  has no effect in the model.
- JSON encoding: replaced by the injected function `marshal` from `Payload`
  to the encoded text or an error message. Escaping rules are not modelled.
- The clock: the nanosecond timestamp is a parameter `now`.
- PayloadBuilder.BuildPayload: the timestamp is a `nat`; the source's `int64`
  nanosecond count could be negative before 1970 and would then render with
  a minus sign.
- Status codes are modelled as `nat`: the status is any natural number the
  HTTP client reports.
- Default `%v` formatting of arbitrary Go values: each argument carries its
  default rendering as an opaque string.
- Writing to standard output: `Print` returns the diagnostic text instead.
- `New`: it only wraps the configuration; the `Logger` datatype stands for it.
- A `Labels()` method returning a nil map: it behaves like an empty map and is
  modelled as one. `String()` and `Labels()` are taken as values, so side
  effects of calling them are not modelled.
- Facade.Print: a panic raised inside an argument's `String()` or `Labels()`
  method (a nil pointer whose type has a value-receiver `String()`, say)
  escapes `Print`, because `loki.go` calls both methods directly without
  recovering; the model takes both methods' results as plain values, so it
  does not represent that panic.
