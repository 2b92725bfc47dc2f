# Search filter and sort compiler

A Dafny model of the `search` package of the predicate service. The package compiles a
wire-format search request into a request for the bleve search engine:

- a **schema** of typed fields: documents built from options that keep field and
  sub-document names unique and apart (`pkg/search/document.go`), an index that is an
  ordered list of documents (`webserver/pkg/search/index.go`), the field types and their
  bleve field mappings (`pkg/search/field.go`);
- the **filter compiler**, a recursive descent over `Filter{Base, And, Or}` trees that
  resolves each `field:expr` leaf against the schema and builds a query tree of match,
  numeric-range, date-range, conjunction and disjunction queries
  (`webserver/pkg/search/filter.go`);
- the **sort compiler**, which turns `"field:<"` / `"field:>"` entries into bleve sort
  fields (`pkg/search/sort.go`);
- the **request assembly**, which combines query, ordering and paging
  (`webserver/pkg/search/request.go`).

Modules, one file each: `Results` (Option, Result, the error kinds), `Strings` (Go's
`strings.SplitN(s, ":", 2)`, `strings.Split` and `strings.HasPrefix`), `Fields`, `Documents`,
`Indexes`, `Filters` with `FilterLemmas`, `Sorting`, `Requests`.

How the model reads the source:

- The loops of the source are methods with loop invariants, each proved equal to a
  specification function (`ParseAndFilter` to `CompileAnd`, `ParseSort` to `CompileSort`, and
  so on); the properties are then lemmas about those functions.
- `Document`, `Index`, the mapping cache of `field.go` and bleve's `SearchRequest` are
  classes whose methods change their fields in place.
- Option closures (`WithField`, `WithSubDocument`, `WithDocument`) are datatype values that
  an `ApplyOption` method runs. The panic of `BuildDocument` on an option error is a `Failure`
  result.
- Go's nil and empty slices differ for `Filter.Or` (`Or != nil` is tested), so a slice is
  `NilSlice` or `Slice(elems)`.
- Numbers are `real` and times are `Time(nanos)`, with `Time(0)` standing for Go's zero time
  (the absent bound of a date range). The literal parsers (`strconv.ParseFloat` and
  `time.Parse` with layout `2006-01-02T15:04:05.000Z`) are abstract partial functions given
  as a parameter.
- Errors are values of the `Error` datatype, one constructor per message the source formats.
- The field type `FType` is an integer newtype, as in Go, so out-of-range values exist and
  take the error paths.
- Field resolution works on the index's field tables (`Index.Schema()`), first document
  wins.

## Model

| member | source | states |
|---|---|---|
| Fields.MappingFor | pkg/search/field.go:60-107 | exactly the six known types have a mapping; others fail with an unrecognised-type error; no mapping stores values; text, keyword and keyword-list are the text mappings, not in `_all`, without term vectors; number, date and boolean get the numeric, date-time and boolean mappings |
| Fields.TextAnalyzers | pkg/search/field.go:27-57 | text uses the English analyzer, keyword the keyword analyzer, keyword-list the custom `keywordList` analyzer, which is a whitespace tokenizer with a lowercase filter |
| Fields.MappingTable.constructor | pkg/search/field.go:16-25 | the mapping cache starts uninitialised |
| Fields.MappingTable.InitializeMappings | pkg/search/field.go:37-70 | fills the six cached mappings (English text, keyword, keyword-list, number, date, boolean) and marks the cache initialised |
| Fields.MappingTable.ToBleveMapping | pkg/search/field.go:89-107 | initialises the cache once (a later call changes nothing) and returns the type's mapping or the error |
| Documents.Apply | pkg/search/document.go:26-50 | an option succeeds iff its name is neither a field nor a sub-document yet; success adds exactly that entry |
| Documents.BuildSucceedsIffNamesDistinct | pkg/search/document.go:12-50 | building succeeds iff all declared names are distinct; then fields and sub-documents are disjoint and together hold exactly the declared names |
| Documents.BuildRecordsEveryOption | pkg/search/document.go:18-47 | after a successful build every option's entry is present with its type or sub-document |
| Documents.PrefixFailurePersists | pkg/search/document.go:18-22 | once an option fails, later options do not change the outcome |
| Documents.Document.constructor | pkg/search/document.go:13-17 | a new document has its name and no fields or sub-documents |
| Documents.Document.ApplyOption | pkg/search/document.go:26-50 | runs an option in place: on success the layout becomes the applied one, on failure the document is unchanged and the error returned; disjointness is kept |
| Documents.BuildDocument | pkg/search/document.go:12-24 | applies the options in order, failing exactly when the specification build fails, with its error; on success returns a fresh document of that name and layout |
| Indexes.Index.constructor | webserver/pkg/search/index.go:10-13 | a new index has its name and no documents |
| Indexes.Index.ApplyOption | webserver/pkg/search/index.go:22-27 | adding a document appends it and never fails |
| Indexes.BuildIndex | webserver/pkg/search/index.go:10-20 | the index's documents are the given ones, in option order, duplicates kept |
| Indexes.LookupFindsFirst | webserver/pkg/search/filter.go:81-86 | a field resolves to its type in the first document that has it |
| Indexes.LookupMisses | pkg/search/sort.go:38-55 | a field is unresolved iff no document has it |
| Indexes.LookupSound | webserver/pkg/search/filter.go:81-86 | a resolved type always comes from the first document having the field |
| Strings.SplitFirst | webserver/pkg/search/filter.go:77 | one part iff there is no separator; otherwise a separator-free head and the remainder that rebuild the input |
| Strings.Split | pkg/search/sort.go:33 | one part more than there are separators, none containing one, joining back to the input |
| Strings.SplitFirstOfJoined | webserver/pkg/search/filter.go:77-80 | splitting `head:rest` at the first separator gives `head` and `rest` even when `rest` holds separators |
| Strings.SplitOfJoinedPair | pkg/search/sort.go:33-36 | splitting two separator-free texts joined by the separator gives those two texts |
| Filters.RangeOperator | webserver/pkg/search/filter.go:121-169 | the operator found is a prefix of the suffix, the rest is the literal, no earlier-tested operator is a prefix; none is found iff no operator is a prefix |
| Filters.FilterOfType | webserver/pkg/search/filter.go:92-119 | text, keyword and keyword-list give a match of the whole suffix on that field; number and date go to their range grammars; any other type fails with a type error |
| Filters.ParseFilter | webserver/pkg/search/filter.go:22-41 | the recursive compile of a filter node equals the specification `CompileFilter` over the index's field tables |
| Filters.ParseAndFilter | webserver/pkg/search/filter.go:44-57 | the loop over `and` children equals `CompileAnd` |
| Filters.ParseOrFilter | webserver/pkg/search/filter.go:60-73 | the loop over `or` children equals `CompileOr` |
| Filters.ParseBaseFilter | webserver/pkg/search/filter.go:76-87 | the split and the scan over documents equal `CompileBase` |
| Filters.CompileAllStopsAtFailure | webserver/pkg/search/filter.go:46-50 | once a child fails, the remaining children do not change the outcome |
| FilterLemmas.NodeShapeRule | webserver/pkg/search/filter.go:22-41 | nil compiles to match-all; a node that is not of exactly one kind fails, as empty when nothing is set and as mixed otherwise; a single-kind node compiles as that kind |
| FilterLemmas.CompileAllSucceeds | webserver/pkg/search/filter.go:44-52 | the children compile iff each does; then there is one query per child, in order |
| FilterLemmas.CompileAllFailsAtFirst | webserver/pkg/search/filter.go:46-50 | a failure carries the error of the first failing child |
| FilterLemmas.AndNodeCombines | webserver/pkg/search/filter.go:44-57 | an `and` fails with its first failing child's error; one child compiles to that child's query; two or more give their conjunction in input order |
| FilterLemmas.OrNodeCombines | webserver/pkg/search/filter.go:60-73 | the same for `or`, with a disjunction |
| FilterLemmas.SingletonCollapses | webserver/pkg/search/filter.go:53-55 | a one-child `and` or `or` compiles to what its child does |
| FilterLemmas.BaseFilterSplitsAtFirstColon | webserver/pkg/search/filter.go:76-87 | a base without `:` fails; `field:rest` compiles `rest` whole (further `:` kept) under the field's resolved type, or fails as unknown |
| FilterLemmas.BaseFilterUsesFirstDocument | webserver/pkg/search/filter.go:81-86 | the first document having the field decides its type; no document having it gives the unknown-field error |
| FilterLemmas.NumberFilterMeaning | webserver/pkg/search/filter.go:121-178 | an unknown prefix or an unparsable literal is an error; otherwise `==`, `<=`, `>=`, `<`, `>` admit exactly the values comparing so with the literal, and `!=` admits none |
| FilterLemmas.DateFilterMeaning | webserver/pkg/search/filter.go:180-233 | the same grammar for dates, for a literal that is not the zero time |
| FilterLemmas.DateNotEqualAsWrittenAdmitsNothing | webserver/pkg/search/filter.go:188-197 | the date `!=` query as written, for a literal other than the zero time, is a conjunction that admits no time |
| FilterLemmas.DateNotEqualIntendedAdmitsOthers | webserver/pkg/search/filter.go:188-197 | the disjunction of the two exclusive half-ranges around a non-zero time t admits exactly the times other than t |
| FilterLemmas.ZeroTimeLiteralIsUnbounded | webserver/pkg/search/filter.go:186-225 | a literal parsing to the zero time yields ranges with no bound, so every operator, `!=` included, admits every time |
| FilterLemmas.RangeOperatorRoundTrip | webserver/pkg/search/filter.go:121-169 | an operator followed by a literal reads back as that operator and literal, unless a one-character operator is followed by `=` |
| FilterLemmas.NumberBoundaries | webserver/pkg/search/filter.go:121-166 | for any operator but `!=`, a parsed literal v is admitted iff the operator is `==`, `<=` or `>=` |
| FilterLemmas.NotEqualAsWrittenAdmitsNothing | webserver/pkg/search/filter.go:129-138 | the `!=` query as written is a conjunction that admits no value |
| FilterLemmas.NotEqualIntendedAdmitsOthers | webserver/pkg/search/filter.go:129-138 | the disjunction of the two exclusive half-ranges admits exactly the values other than v |
| FilterLemmas.EqualAndNotEqualPartition | webserver/pkg/search/filter.go:122-138 | `==v` and the intended `!=v` split the values between them |
| FilterLemmas.CompiledQueryWellFormed | webserver/pkg/search/filter.go:22-119 | every compiled query is well formed: matches name a resolvable text-like field, every range has a bound with its inclusiveness flag, no conjunction or disjunction has fewer than two children |
| FilterLemmas.BaseQueryWellFormed | webserver/pkg/search/filter.go:76-107 | every compiled base filter is well formed |
| FilterLemmas.RangeWellFormed | webserver/pkg/search/filter.go:121-229 | every range the two grammars build is well formed |
| FilterLemmas.FilterConversionExample | webserver/pkg/search/filter_test.go:24-55 | `userId:Rob AND (createdTimestamp:<1 OR createdTimestamp:>=5)` compiles to a match on field `userId` with text `Rob`, conjoined with (-inf, 1) or [5, +inf) |
| Sorting.ConvertFType | pkg/search/sort.go:58-73 | text-like types sort as strings, number as number, date as date, each iff; any other type fails with its type code |
| Sorting.ConvertOrder | pkg/search/sort.go:75-82 | `>` is descending and `<` ascending, each iff; anything else fails as an unrecognised suffix |
| Sorting.DirectionText | pkg/search/sort.go:75-82 | the direction text reads back as its direction |
| Sorting.ParseSortField | pkg/search/sort.go:32-56 | the split, scan and conversions equal `CompileSortField` |
| Sorting.ParseSort | pkg/search/sort.go:15-29 | the loop over entries equals `CompileSort`: no sort gives an empty order |
| Sorting.CompileSortFieldsStopsAtFailure | pkg/search/sort.go:21-25 | once an entry fails, later entries do not change the outcome |
| Sorting.CompileSortFieldsInOrder | pkg/search/sort.go:20-28 | the order exists iff every entry compiles; then it has one field per entry, in entry order |
| Sorting.CompileSortFieldsFailsAtFirst | pkg/search/sort.go:21-25 | a failure carries the first failing entry's error |
| Sorting.SeparatorRule | pkg/search/sort.go:33-36 | an entry is refused for its separator iff it does not hold exactly one `:`; in particular an entry without `:` is refused |
| Sorting.SortFieldShape | pkg/search/sort.go:38-55 | `field:dir` fails as unknown when no document has the field; an unsortable type fails with the type error whatever the direction; otherwise the direction decides |
| Sorting.SortFieldRoundTrip | pkg/search/sort.go:32-56 | a compiled sort field renders back to its entry and is sortable; a sortable field is recovered from its rendering |
| Sorting.SortRoundTrip | pkg/search/sort.go:15-29 | the renderings of sortable fields compile back to those fields, in order |
| Sorting.RenderedSortCompiles | pkg/search/sort.go:15-29 | a sort whose entries render sortable fields compiles to exactly those fields |
| Sorting.SortConversionExample | webserver/pkg/search/sort_test.go:24-50 | the three entries of the test give (createdTimestamp, ascending, number), (updatedTimestamp, descending, number), (userId, ascending, string), with bleve codes 2 and 1 |
| Requests.SearchRequest.constructor | webserver/pkg/search/request.go:26 | a new request orders by score and returns ten hits from the first |
| Requests.SearchRequest.SortByCustom | webserver/pkg/search/request.go:32-34 | replaces the ordering and nothing else |
| Requests.ToBleveSearchRequest | webserver/pkg/search/request.go:18-43 | builds the request step by step; it fails exactly when `Assemble` does, with its error, and otherwise returns a fresh request equal to `Assemble`'s |
| Requests.ErrorPrecedence | webserver/pkg/search/request.go:19-31 | a filter error wins over everything; a sort error counts only once the filter compiled; the request is built iff both compile |
| Requests.QueryAndOrdering | webserver/pkg/search/request.go:19-34 | the request searches with the compiled query and orders by the compiled sort fields iff there are any, by score otherwise |
| Requests.PagingOnlyMovesWindow | webserver/pkg/search/request.go:36-41 | the page changes neither outcome, query nor ordering; `from` and `size` take the page's non-zero values and keep 0 and 10 otherwise |
| Requests.ZeroPageIsNoPage | webserver/pkg/search/request.go:36-41 | a page of count 0 and offset 0 is the same as no page |
| Requests.EmptyRequestIsDefault | webserver/pkg/search/request.go:19-26 | a request with no filter, sort or page searches everything, by score, ten hits from the first |

## Left out

- Literal parsing: `strconv.ParseFloat` and `time.Parse` are abstract partial functions; NaN, infinities and floating-point rounding are not modelled, numbers being `real`.
- FilterLemmas.DateFilterMeaning: states the comparison only for literals other than the zero time, because the source reads the zero time as "no bound" on either side (ZeroTimeLiteralIsUnbounded covers that case).
- Requests.ToBleveSearchRequest: the fallback to match-all for a nil compiled query is not modelled, because the compiler never returns a nil query without an error.
- Fields.MappingTable.ToBleveMapping: shared mapping objects are modelled as equal values, not pointer identity; `sync.Once` is a flag, without concurrency.
- Go's nil sort order (for a nil sort or one with no entries) is the empty sequence.
- Building bleve's document and index mappings (`Document.toBleveMapping`, `Index.ToBleveMapping`) and the engine's query evaluation are bleve's; queries are data here, with `AdmitsNumber`/`AdmitsDate` reading their bounds.
- The example of `filter_test.go` expects a match query without a field (`filter_test.go:50`); the code sets field `userId` and text `Rob` (`filter.go:115-118`); the model follows the code. The examples use the test index's field table directly instead of building it.
- Error texts are not modelled, only their kinds: `ParseSortField` splits at every `:` and needs exactly two parts (pkg/search/sort.go:33-36), and both range parsers report an unknown operator as "incorrectly formatted number query" (webserver/pkg/search/filter.go:168, 227); the model's `MalformedRange` stands for that one message.
- The non-compiling reflection-based predicate variants (`pkg/predicates`, `predicates/predicate.go`), HTTP handlers, authorisation, tokens and the Kubernetes client are not part of this model.

## Findings

| source | as written | input that shows it | evidently intended | confidence | as-written member | corrected member |
|---|---|---|---|---|---|---|
| webserver/pkg/search/filter.go:129-138 | `!=v` on a number field builds the conjunction of "greater than v" and "less than v" | `createdTimestamp:!=5`: no value is both above and below 5, so no value satisfies the query | the disjunction of the two half-ranges, satisfied by every value other than v | high; not executed | FilterLemmas.NotEqualAsWrittenAdmitsNothing | FilterLemmas.NotEqualIntendedAdmitsOthers |
| webserver/pkg/search/filter.go:188-197 | `!=t` on a date field builds the conjunction of "after t" and "before t" | a date filter `!=t` for any time t other than the zero time: no time is both after and before t, so no time satisfies the query | the disjunction of the two half-ranges, satisfied by every time other than t | high; not executed | FilterLemmas.DateNotEqualAsWrittenAdmitsNothing | FilterLemmas.DateNotEqualIntendedAdmitsOthers |

The compiler itself keeps the conjunctions, as the source does; `FilterLemmas.NotEqualIntended` and `FilterLemmas.DateNotEqualIntended` are the corrected queries, and `FilterLemmas.EqualAndNotEqualPartition` shows the numeric one complements `==`. The ranges carry no field name (webserver/pkg/search/filter.go:136-137, 195-196), so these statements are about the values a range admits.
