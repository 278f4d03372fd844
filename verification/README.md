# delete-organization: deletion-query builder, modelled in Dafny

`delete-organization` writes SPARQL 1.1 Update text that removes the triples
around one resource. The path walk starts from a seed IRI and asks a SPARQL
endpoint for its neighbours. The reverse walk asks for the subjects of
triples pointing at the current IRIs; the forward walk asks for the objects
of triples leaving them. From the answer it keeps the rows whose `s` is an
IRI (`parse_json_uris`). While there are any, it:

- writes one `DELETE { GRAPH ?g { ?s ?p ?o . } } WHERE { VALUES ?s { … } … }`
  statement for them (`build_delete_snippet`);
- writes a `;` separator after it;
- asks again for the neighbours of exactly those IRIs.

This project models that core as Dafny:

- `Json`: the parsed JSON value, with serde_json's `get`, indexing,
  `as_array` and `as_str`. A missing key, or indexing a non-object, gives
  `Null`.
- `Results`: the row filter. It is a specification function (`UriBindings`
  of `BindingsOf`), plus the imperative `ParseJsonUris` loop, which is
  proved equal to it.
- `Snippet`: the statement text. It is a specification function
  (`DeleteSnippet`), plus the imperative `BuildDeleteSnippet`, which pushes
  one `    <iri>\n` line per row. The statement's line structure is proved
  against an independent line splitter (`Lines.SplitLines`).
- `Queries`: the three query templates. Each is a prefix, the argument
  verbatim, then a suffix. They are proved invertible by `Unfill`, so each
  argument is inserted unchanged, exactly once.
- `Endpoint`: what the tool makes of an HTTP reply:
  - a transport error, or a 2xx body that is not JSON, is the error that
    aborts the build;
  - a non-2xx status gives `Null`.
- `Paths`: the two `while` loops. `Walk` lists the rows of the successive
  rounds, and `Statements` gives their text. `Rounds` is the loop itself and
  `Round` its body; the loop is proved to produce `Emit(Walk(...))`.
  `BuildReversePath` and `BuildForwardPath` are the two builds.

The endpoint is a parameter (`string -> Reply`), so the model is about every
endpoint at once. The Rust loops have no bound. Nothing records the IRIs
already seen, so a cycle in the data makes them run forever. The model
therefore takes a `fuel` bound on the number of rounds and ends with
`OutOfFuel` when the bound is reached. `WalkFuelMonotone` shows that a build
which ends within the bound gives the same result under any larger bound,
and `WalkCycle` shows that a round whose query gives back its own rows ends
with `OutOfFuel` under every bound.

How a build ends is an `Outcome`:

- `Done(text)`;
- `FetchFailed`: the `?` error of a failed fetch, which discards the text
  built so far;
- `Panicked`: a row whose `s.type` is `"uri"` but whose `s.value` is not a
  string, where `unwrap` panics;
- `OutOfFuel`.

The forward query selects `?o`, but the filter and the statement read only
`s`. The forward build therefore drops every row of its answer and returns
the empty text. The model keeps this behaviour
(`Paths.ForwardRowsWithoutSubjectYieldNothing`).

## Model

| member | source | states |
|---|---|---|
| Json.Get | delete-organization/src/main.rs:54-55 | `get` gives a member exactly when the value is an object holding the key, and then it is that key's member |
| Json.At | delete-organization/src/main.rs:59 | indexing gives the key's member when the value is an object holding the key, and `Null` otherwise |
| Json.AsArray | delete-organization/src/main.rs:56 | `as_array` gives the items exactly when the value is an array |
| Json.AsStr | delete-organization/src/main.rs:88 | `as_str` gives the text exactly when the value is a string |
| Results.IsUriBinding | delete-organization/src/main.rs:59 | a row passing the test is an object binding `s` to an object that has a `type` member |
| Results.SubjectValue | delete-organization/src/main.rs:88 | the value is the string under `s.value` whenever there is one |
| Results.BindingsOf | delete-organization/src/main.rs:54-56 | the rows are the array that `["results"]["bindings"]` indexes to, and none when that is not an array |
| Results.UriBindings | delete-organization/src/main.rs:57-61 | the kept rows are no more than the input rows, and each has `s.type == "uri"` |
| Results.UriBindingsAppend | delete-organization/src/main.rs:57-61 | the filter works row by row: filtering a concatenation concatenates the filtered parts, so the order is kept |
| Results.UriBindingsMembership | delete-organization/src/main.rs:57-61 | a row is in the result if and only if it is an input row with `s.type == "uri"` |
| Results.UriBindingsKeepsAll | delete-organization/src/main.rs:57-61 | the result is the whole input if and only if every row has `s.type == "uri"` |
| Results.UriBindingsEmpty | delete-organization/src/main.rs:57-61 | the result is empty if and only if no row has `s.type == "uri"` |
| Results.RowsWithoutSubjectDropped | delete-organization/src/main.rs:59 | rows that bind no `s` are all dropped |
| Results.ParseJsonUris | delete-organization/src/main.rs:50-68 | the pushed rows are exactly the filtered `results.bindings`, in order; the result is empty when `results` is missing, when `bindings` is missing, when `bindings` is not an array, or when the value is `Null` |
| Lines.JoinLines | delete-organization/src/main.rs:221 | the joined text starts with the first string, followed by a newline when more strings come; `SplitJoin` and `JoinSplit` make the reference splitter `SplitLines` its inverse |
| Lines.SplitJoin | delete-organization/src/main.rs:221 | newline-free strings joined with `"\n"` split back into the same strings |
| Lines.JoinSplit | delete-organization/src/main.rs:221 | splitting text at newlines and joining the pieces with `"\n"` gives the text back |
| Lines.SplitTerminated | delete-organization/src/main.rs:86-90 | text made of newline-terminated lines splits into those lines, then into what follows |
| Snippet.ValueTextsAt | delete-organization/src/main.rs:86-89 | there is one `    <value>` line per row, at the row's own position |
| Snippet.ValueTextsHaveNoNewline | delete-organization/src/main.rs:88 | the value lines hold no newline when no value does |
| Snippet.SnippetFrame | delete-organization/src/main.rs:70-102 | the statement `DeleteSnippet` starts with the fixed header and ends with the fixed footer; with no rows only `  }\n` is between them |
| Snippet.HeaderTextLines | delete-organization/src/main.rs:73-80 | the fixed header is its seven lines, each ended by a newline |
| Snippet.FooterTextLines | delete-organization/src/main.rs:94-99 | the fixed footer is an empty line and the four lines of the graph pattern, each ended by a newline |
| Snippet.StatementLines | delete-organization/src/main.rs:70-102 | header lines, value lines, `  }` and footer lines, each newline-terminated, split back into exactly those lines |
| Snippet.FixedStatementLines | delete-organization/src/main.rs:70-102 | around any value lines, the statement's fixed text is the listed header and footer lines |
| Snippet.SnippetLines | delete-organization/src/main.rs:70-102 | read line by line, the statement is the fixed header, one `    <iri>` line per row in order, `  }`, then the fixed footer |
| Snippet.BuildDeleteSnippet | delete-organization/src/main.rs:70-102 | the pushed text is the statement of the rows; with no rows only the header, `  }\n` and the footer remain; every row must have a string `s.value` |
| Queries.Fill | delete-organization/src/main.rs:105-189 | a query is as long as its template's prefix, the argument and the suffix together |
| Queries.UnfillFill | delete-organization/src/main.rs:105-189 | the argument is read back verbatim from the query built with it |
| Queries.FillUnfill | delete-organization/src/main.rs:105-189 | a text of the template's shape is the query of the argument read from it |
| Queries.FillInjective | delete-organization/src/main.rs:105-189 | distinct arguments give distinct queries |
| Queries.CreateSimpleForwardParametrizedDeleteQuery | delete-organization/src/main.rs:105-123 | the query is the `DELETE … BIND(uri AS ?s) …` template with `uri` inserted once, unescaped |
| Queries.CreateForwardParametrizedQuery | delete-organization/src/main.rs:125-141 | the query is the `SELECT DISTINCT ?o … VALUES ?values { uri }` template with `uri` inserted once, unescaped |
| Queries.CreateReverseParametrizedQuery | delete-organization/src/main.rs:175-189 | the query is the `SELECT DISTINCT ?s … VALUES ?values { uri }` template with `uri` inserted once, unescaped |
| Endpoint.FetchSparqlResults | delete-organization/src/main.rs:11-48 | the fetch fails exactly on a transport error or an unreadable 2xx body; a non-2xx status gives `Null`; a 2xx status gives the parsed body |
| Paths.QueryFor | delete-organization/src/main.rs:222 | a round's query is its direction's template with the argument inserted verbatim |
| Paths.QueryRound | delete-organization/src/main.rs:222-224 | a round's rows are missing exactly when the fetch fails; otherwise they are no more than the answer's rows, and each has `s.type == "uri"` |
| Paths.WrappedValues | delete-organization/src/main.rs:216-220 | the `filter_map` gives at most one `<value>` per row |
| Paths.WrappedValuesAll | delete-organization/src/main.rs:216-220 | when every row has a string value, there is one `<value>` per row, in order |
| Paths.FrontierArgument | delete-organization/src/main.rs:216-221 | no rows give the empty argument; otherwise the argument starts with the first row's `<value>` |
| Paths.FrontierRoundTrip | delete-organization/src/main.rs:216-222 | the next query's argument has one line per current row, line k being `<value of row k>` |
| Paths.NextRoundEmpty | delete-organization/src/main.rs:222-224 | the loop's step `NextRound` gives no rows exactly when its query is answered and no row of the answer has `s.type == "uri"` |
| Paths.Walk | delete-organization/src/main.rs:207-224 | a finished walk has no more rounds than the bound |
| Paths.WalkRounds | delete-organization/src/main.rs:207-224 | a finished walk starts with the first rows; each round's rows are what the query on the previous round's values gives; every round has rows, all with string values; the walk stops exactly when a round's query gives no rows |
| Paths.WalkFuelMonotone | delete-organization/src/main.rs:207 | a walk that ends within a bound ends the same under any larger bound |
| Paths.WalkCycle | delete-organization/src/main.rs:209-225 | a round whose query gives back its own rows never lets the loop end: the walk runs out of every bound |
| Paths.WalkStep | delete-organization/src/main.rs:207-224 | one round moves its rows from the rounds to come to the rounds done |
| Paths.StatementsEmpty | delete-organization/src/main.rs:209-211 | the text `Statements` of the rounds is empty exactly when there are no rounds |
| Paths.StatementsConcat | delete-organization/src/main.rs:209-211 | the text of two runs of rounds is the text of the first, then the text of the second: each round adds its statement and `"\n;\n\n"` and nothing else |
| Paths.Path | delete-organization/src/main.rs:191-228 | a build whose first fetch fails is the fetch error; a build whose first query gives no rows is `""` |
| Paths.ErrorStatusEndsLoop | delete-organization/src/main.rs:38-45 | a non-2xx reply in the middle of a walk ends it normally, keeping the rounds done |
| Paths.ForwardRowsWithoutSubjectYieldNothing | delete-organization/src/main.rs:128 | when the rows of the forward answer bind no `s`, the forward build is the empty text |
| Paths.RunQuery | delete-organization/src/main.rs:198-207 | one query: its fetch, then `parse_json_uris` on the answer |
| Paths.PushRound | delete-organization/src/main.rs:210-211 | the loop body's output is the text so far, then the round's statement and separator |
| Paths.Round | delete-organization/src/main.rs:209-224 | one pass of the loop body either ends the build with the walk's outcome or pushes the round's statement and moves the walk one round on |
| Paths.Rounds | delete-organization/src/main.rs:209-225 | the `while` loop's text is the statements of the walk's rounds, in order; it stops with the walk's failure when the walk fails |
| Paths.BuildPath | delete-organization/src/main.rs:191-228 | a build is its first query, then the rounds; when the first query gives no rows the text is `""` |
| Paths.BuildReversePath | delete-organization/src/main.rs:191-228 | `build_reverse_path` is the reverse build |
| Paths.BuildForwardPath | delete-organization/src/main.rs:230-267 | `build_forward_path` is the forward build |

## Left out

- HTTP: the reqwest client, the headers, the form encoding and the fixed
  endpoint address are not modelled (`fetch_sparql_results`, lines 11-48).
  The endpoint is a function from query text to a reply, and the model
  keeps only what the tool does with that reply.
- JSON text parsing (`serde_json::from_str`): a reply's body is already a
  JSON value, or `None` when it is not JSON.
- JSON booleans and numbers are one `Other` case, since no code here
  inspects them.
- `main` (lines 269-322): the `println!` calls, appending to
  `out_folder/output.txt`, the header comments written there, and the fixed
  seed IRI are output plumbing.
- The two `println!` calls on a failed status (lines 42-43) are output
  only.
- Tokio and `async`: the model runs the same steps in sequence.
- The commented-out query variants (lines 143-173) and the commented-out
  lines of `main` (271, 275-294, 301-307, 313 and 318) are dead code.
- Paths.Rounds: the Rust loop has no bound. The model stops after `fuel`
  rounds with `OutOfFuel`. `WalkFuelMonotone` shows the bound changes
  nothing for a walk that ends within it. `WalkCycle` shows that a cycle in
  the data, which makes the Rust loop run forever, gives `OutOfFuel` under
  every bound.
- Paths.Rounds: after the first query, each round's query, fetch and filter
  are the specification function `NextRound`, passed in as `next`. The
  first query is run by the methods `RunQuery` and `ParseJsonUris`.
  `ParseJsonUris` is proved equal to that specification.
- Results.SubjectValue gives `""` for a row without a string `s.value`. The
  tool never writes such a value out, since `unwrap` panics first:
  `BuildDeleteSnippet` requires string values, and the walk ends with
  `Panicked`.
- Paths.WrappedValues: the frontier's `filter_map` skips rows without a
  string value. Since the statement for the same rows panics first, that
  case never reaches a query, and no lemma is stated about it.
