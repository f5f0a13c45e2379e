# Constraint test-format parser

This project models the parser that the optimizer's key-range constraint
package uses in its tests (`pkg/sql/opt/constraint/testutils.go`). The parser
reads text such as `/1/2/3: [/1 - /2] [/5 - /6)` into a `Constraint`:

- a list of ordering-column ids;
- a sequence of spans. Each span has a start key and an end key, and each
  end has its own Include or Exclude boundary. A key is a list of integer or
  NULL values.

The pipeline has five stages:

- `ParseConstraint` cuts the text at the first `": "`.
- `parseIntPath` reads the column ids.
- `parseSpans` cuts the span list at single spaces and groups the pieces in
  runs of three.
- `parseSpan` checks the brackets and cuts the inside at `" - "`.
- `parseDatumPath` reads each key, using `parsePath` to cut it at `/`.

Where the Go code panics, the model returns `Err`. `Err` names the rejected
text (`Malformed`) or the token `strconv.Atoi` refused (`NotAnInteger`).
When there are several errors, the first in evaluation order is returned.

Files:

- `outcomes.dfy`: `Option`, `Result`, and `Collect`. `Collect` converts tokens
  in order and stops at the first failure, as the parser's loops do.
- `strings.dfy`: the parts of Go's `strings` package that the parser uses:
  `Index`, `Split`, `SplitN(…, 2)` (as `SplitFirst`) and `Join`.
- `atoi.dfy`: integer tokens as `strconv.Atoi` reads them (an optional sign,
  then one or more digits), with `FormatInt` as the writer.
- `constraint.dfy`: the data model (`SpanBoundary`, `Datum`, `Key`, `Span`,
  `Constraint`).
- `testutils.dfy`: the parser. Each stage is a function. The four stages that
  loop in the Go code are also methods with those loops, and each method is
  proved equal to its stage's function.
- `text.dfy`: a writer for the test format's grammar, the partner of the
  parser. Every stage reads back what the writer produces, up to
  `ConstraintOf(ConstraintText(c)) == Ok(c)` for every constraint.
- `examples.dfy`: concrete inputs and their results.

## Model

| member | source | states |
|---|---|---|
| `Strings.Index` | pkg/sql/opt/constraint/testutils.go:26 | `strings.Index`: on `Some(i)`, `sep` occurs at `i` and at no earlier position. On `None`, it occurs nowhere. |
| `Strings.IndexFrom` | pkg/sql/opt/constraint/testutils.go:46 | The first occurrence of `sep` at or after a position, or `None` when there is none after it. This is the search that `Split` repeats, which makes its pieces leftmost and non-overlapping. |
| `Strings.Split` | pkg/sql/opt/constraint/testutils.go:129 | `strings.Split` with a non-empty separator always gives at least one piece. Its pieces are pinned down by `SplitMeaning` (join-back, no separator inside) and `SplitLeftmost` (leftmost cuts). |
| `Strings.SplitShort` | pkg/sql/opt/constraint/testutils.go:129 | A text shorter than the separator is a single piece. In particular `Split("", sep) == [""]`. |
| `Strings.SplitMeaning` | pkg/sql/opt/constraint/testutils.go:46 | The pieces of `Split` join back with `sep` to exactly the text, and no piece contains `sep`. `SplitLeftmost` fixes where the cuts fall. |
| `Strings.SplitLeftmost` | pkg/sql/opt/constraint/testutils.go:75 | Every cut is at the leftmost occurrence of `sep` still available: no occurrence starts inside a piece that a separator follows, with that separator attached. So the self-overlapping `" - "` cuts `" - - "` into `""` and `"- "`, as Go does. |
| `Strings.SplitChar` | pkg/sql/opt/constraint/testutils.go:129 | Splitting at one character gives one more piece than the character's occurrences, and no piece contains it. |
| `Strings.SplitJoin` | pkg/sql/opt/constraint/testutils.go:75 | `strings.Split` undoes `strings.Join` for any non-empty list of pieces that avoid the separator's first character. |
| `Strings.JoinAppend` | pkg/sql/opt/constraint/testutils.go:53 | `strings.Join` of two non-empty runs is the join of each with one separator between them. |
| `Outcomes.Collect` | pkg/sql/opt/constraint/testutils.go:92-98 | Converting a token list that succeeds gives one value per token. |
| `Outcomes.CollectMeaning` | pkg/sql/opt/constraint/testutils.go:106-116 | The convert-and-append loops succeed exactly when every token converts, with the i-th value from the i-th token. Otherwise the error is that of the first token that fails, after all earlier tokens converted. |
| `Outcomes.CollectFirstError` | pkg/sql/opt/constraint/testutils.go:93-95 | Once a prefix converts and the next token fails, the loop fails with that token's error, whatever follows. |
| `TestUtils.IntPath` | pkg/sql/opt/constraint/testutils.go:90-100 | `parseIntPath` rejects a non-empty text not starting with `/`, naming it. On success it has one id per path token. |
| `TestUtils.DatumPath` | pkg/sql/opt/constraint/testutils.go:104-118 | `parseDatumPath` rejects a non-empty text not starting with `/`, naming it. On success it has one datum per path token. |
| `TestUtils.Groups` | pkg/sql/opt/constraint/testutils.go:52-53 | There is one span text per full run of three pieces (`len(s)/3` in all). The i-th is the i-th run. `GroupsJoin` states that the runs together keep every piece in order. |
| `TestUtils.GroupsJoin` | pkg/sql/opt/constraint/testutils.go:51-55 | The runs of three that `parseSpans` hands to `parseSpan` account for every piece once, in order: joined by single spaces, the span texts are exactly the pieces joined by single spaces. |
| `TestUtils.ParsePath` | pkg/sql/opt/constraint/testutils.go:122-130 | `""` yields no tokens. The result is an error, naming the text, exactly when the text is non-empty and does not start with `/`. |
| `TestUtils.ParsePathTokens` | pkg/sql/opt/constraint/testutils.go:129 | A successful path has one token per `/` in the text, and no token contains a `/`. |
| `TextFormat.PathRoundTrip` | pkg/sql/opt/constraint/testutils.go:122-130 | Writing any tokens without `/` as a path and parsing it gives the same tokens back, including zero tokens and empty tokens. |
| `TextFormat.ParsePathJoin` | pkg/sql/opt/constraint/testutils.go:129 | `parsePath("/" + join(tokens, "/")) == tokens` for every non-empty token list whose tokens hold no `/`. |
| `TextFormat.ParsePathInverse` | pkg/sql/opt/constraint/testutils.go:122-130 | The other direction: the tokens of a successful parse write back to exactly the input text. |
| `Atoi.ParseInt` | pkg/sql/opt/constraint/testutils.go:93-96 | `strconv.Atoi` succeeds exactly on an optional sign followed by one or more decimal digits. The value is that of the digits, negated after `-`, so `+5`, `-007` and `-0` read as 5, -7 and 0. |
| `Atoi.ParseFormatInt` | pkg/sql/opt/constraint/testutils.go:93 | Every integer written in decimal reads back as itself. |
| `TestUtils.IntToken` | pkg/sql/opt/constraint/testutils.go:93-97 | A column-id token is accepted exactly when it is an integer literal, with the value `Atoi` gives. Otherwise the error names the token. |
| `TestUtils.DatumToken` | pkg/sql/opt/constraint/testutils.go:107-115 | `NULL` is exactly the token that yields the NULL datum. An integer literal yields that integer. Any other token (empty ones too) is an error naming it. |
| `TestUtils.IntPathMeaning` | pkg/sql/opt/constraint/testutils.go:90-100 | `parseIntPath` succeeds exactly when the path is well formed and every token is an integer literal. It keeps the number and the order of the tokens. |
| `TestUtils.DatumPathMeaning` | pkg/sql/opt/constraint/testutils.go:104-118 | `parseDatumPath` succeeds exactly when every token is `NULL` or an integer literal. Each value is that token's datum, in token order. |
| `TestUtils.ParseIntPath` | pkg/sql/opt/constraint/testutils.go:90-100 | The loop that appends one integer per token computes `IntPath`, including which error it stops at. |
| `TestUtils.ParseDatumPath` | pkg/sql/opt/constraint/testutils.go:104-118 | The loop that appends `DNull` or `DInt` per token computes `DatumPath`, including which error it stops at. |
| `TextFormat.IntsRoundTrip` | pkg/sql/opt/constraint/testutils.go:90-100 | Every list of integers, written as a path, parses back to itself. |
| `TextFormat.KeyRoundTrip` | pkg/sql/opt/constraint/testutils.go:104-118 | Every key of NULLs and integers, written as a path, parses back to its values, and its text holds no space. |
| `TestUtils.ParseSpan` | pkg/sql/opt/constraint/testutils.go:61-87 | A text shorter than `"[ - ]"`, or one without an opening `[`/`(` and a closing `]`/`)`, is an error. On success the start boundary depends only on the first character and the end boundary only on the last. |
| `TestUtils.ParseSpanKeys` | pkg/sql/opt/constraint/testutils.go:75-86 | Between the brackets, anything other than exactly two pieces around `" - "` is an error. Otherwise the span succeeds exactly when both pieces are key paths, and they become the start and end keys. When both fail, the start key's error is the one reported, since it is read first. |
| `TextFormat.SpanRoundTrip` | pkg/sql/opt/constraint/testutils.go:61-87 | Every span, with any combination of boundaries, written in the format parses back to itself. |
| `TestUtils.SpansOf` | pkg/sql/opt/constraint/testutils.go:42-57 | `""` yields zero spans. A non-empty text whose single-space pieces are not a multiple of three is an error. |
| `TestUtils.SpansOfMeaning` | pkg/sql/opt/constraint/testutils.go:46-56 | If the pieces come in runs of three, `parseSpans` succeeds exactly when every run parses. The result then has count/3 spans, the i-th from pieces 3i..3i+2 rejoined with a space. |
| `TestUtils.ParseSpans` | pkg/sql/opt/constraint/testutils.go:42-57 | The loop that appends one parsed span per run of three computes `SpansOf`. |
| `TextFormat.SpansRoundTrip` | pkg/sql/opt/constraint/testutils.go:42-57 | Every list of spans, written separated by single spaces, parses back to the same spans in the same order. |
| `Strings.SplitFirst` | pkg/sql/opt/constraint/testutils.go:26-29 | `SplitN(str, ": ", 2)` has two parts exactly when `": "` occurs. The parts are the text before and after its first occurrence. |
| `TestUtils.ConstraintOf` | pkg/sql/opt/constraint/testutils.go:25-38 | A text with no `": "` is an error naming the text. |
| `TestUtils.ConstraintOfMeaning` | pkg/sql/opt/constraint/testutils.go:26-36 | `ParseConstraint` succeeds exactly when the columns before the first `": "` and the spans after it both parse, and the result holds both. A column error is reported first, and a span error only when the columns parse. |
| `TestUtils.ConstraintSplitsAtFirst` | pkg/sql/opt/constraint/testutils.go:26 | For a column part without `:`, everything after the first `": "` is the span list, even if it holds another `": "`. `ConstraintOfMeaning` covers every text. |
| `TestUtils.ParseConstraint` | pkg/sql/opt/constraint/testutils.go:25-38 | The procedure, with its loop that copies the ids into ordering columns, computes `ConstraintOf`. |
| `TextFormat.ConstraintRoundTrip` | pkg/sql/opt/constraint/testutils.go:23-38 | Every constraint, written as `columns: spans`, parses back to itself. |
| `ParseExamples.SlashIsOneEmptyToken` | pkg/sql/opt/constraint/testutils.go:129 | `"/"` gives one empty token, not zero tokens. |
| `ParseExamples.KeyWithNull` | pkg/sql/opt/constraint/testutils.go:107-115 | `/1/NULL` is the key (1, NULL). |
| `ParseExamples.NullIsNoColumn` | pkg/sql/opt/constraint/testutils.go:93-96 | `NULL` is rejected as a column id. |
| `ParseExamples.EmptyTokenRejected` | pkg/sql/opt/constraint/testutils.go:111-114 | `/1//2` fails on its empty middle token. |
| `ParseExamples.OverlappingSeparator` | pkg/sql/opt/constraint/testutils.go:75 | `" - - "` split at `" - "` is `["", "- "]`: the first of two overlapping occurrences wins. |
| `ParseExamples.ShortestSpan` | pkg/sql/opt/constraint/testutils.go:62-86 | `[ - ]` is a span from the empty key to the empty key, both ends included. |
| `ParseExamples.MixedBoundaries` | pkg/sql/opt/constraint/testutils.go:65-85 | `[/1 - /2)` has start Include and end Exclude. |
| `ParseExamples.ThreeColumnsOneSpan` | pkg/sql/opt/constraint/testutils.go:23-24 | `/1/2/3: [/1 - /2]` gives columns [1,2,3] and one span from [1] (Include) to [2] (Include). |
| `ParseExamples.TwoSpansInOrder` | pkg/sql/opt/constraint/testutils.go:40-41 | `/1: [/1 - /2] [/5 - /6]` gives two spans, in input order. |
| `ParseExamples.NoSeparator` | pkg/sql/opt/constraint/testutils.go:26-29 | A text with no `": "` is rejected. |
| `ParseExamples.IncompleteSpan` | pkg/sql/opt/constraint/testutils.go:46-50 | Four pieces are rejected because they cannot form runs of three. |

## Left out

- Span construction is not modelled. `Span.Init`, `MakeCompositeKey` and
  `Columns.Init` are outside this model and are taken to store their arguments
  as given. So `(/1 - /1]` parses to a span here. Whatever checking or
  normalisation `Span.Init` performs on its keys is not captured.
- `parseSpan` accepts only `[` or `(` as the first character and only `]` or
  `)` as the last (testutils.go:72). So `boundary[s]` is read only for `[`/`(`
  and `boundary[e]` only for `]`/`)`. The model's `Boundary` keeps all four
  entries.
- Integers are unbounded. The model ignores the 64-bit range error of
  `strconv.Atoi` and the int32 truncation when an id becomes an
  `opt.OrderingColumn`. It says nothing about what negative column ids mean.
- Only the two datum kinds the parser builds are modelled, `DNull` and `DInt`.
  The `tree.EvalContext` parameter of `ParseConstraint` is unused and dropped.
- Text is `seq<char>`, while Go indexes bytes. Every delimiter the parser looks
  at is ASCII, and a non-ASCII byte never equals one of them.
- Panic payloads are simplified. The model records the rejected text or token,
  not the wording of Go's `*strconv.NumError`.
- `Constraint.String` is not part of this model. `TextFormat` writes the
  grammar that the parser reads and serves as the parser's partner. It is not
  a model of the production renderer.
- Key comparison, span normalisation and the constraint algebra (intersect,
  union, contains, prefix extraction) are elsewhere in the package and are not
  modelled.
- `pkg/cli/sqlfmt.go` (a formatting command over an external SQL parser),
  `pkg/storage/closedts/provider/testutils/clock.go` (a channel-based test
  clock) and `c-deps/libroach/cache.h` (a locked handle to a RocksDB cache)
  are I/O, concurrency and foreign handles outside this parser.
