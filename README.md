# melastic in Dafny

A model of the core of melastic, a small Python client for the ElasticSearch
bulk and scroll HTTP APIs, with proofs of what it does.

The core has three parts:

- **Bulk serialisers.** `BulkCreate`, `BulkUpdate`, `BulkIndex` and
  `BulkDelete` each turn a configuration and a list of documents into the
  newline-delimited body of one `POST /_bulk`. Each document gives one JSON
  action line, then a payload line for every batch but delete. A final `"\n"`
  follows.
- **Bulk push.** Given the transport status and the parsed reply, `push`
  checks the status and, for create, the item count. It then writes each
  reply item's `_id` and/or `status` into the caller's own documents, in place.
- **Scroll cursor.** `Scroll` opens a search with a cursor lifetime, buffers
  the first page, hands out one page per `next`, and releases the cursor on
  close. `__enter__`/`__exit__` bracket a `with` block with open and close.

The engine is an oracle. The HTTP status and the already-parsed reply of
every request are parameters. The requests the cursor sends are kept in a
log (`sent`), and `Push` returns the bulk body it posts.

## Modules

| file | module | contents |
|---|---|---|
| `wrappers.dfy` | `Wrappers` | `Option`, `Result`, `Outcome` |
| `errors.dfy` | `Errors` | the Python exceptions the core raises; HTTP 200 |
| `json.dfy` | `Json` | JSON values, `json.dumps` with default settings, key lookup |
| `lines.dfy` | `Lines` | `"\n".join` and `str.split("\n")`, and how they undo each other |
| `config.dfy` | `Settings` | the `Config` record |
| `bulk.dfy` | `Bulk` | serialisers as functions; push loops specified by functions; the `Batch` class over an array of documents |
| `scroll.dfy` | `Scrolling` | the cursor as a state-transition function per method; the `Scroll` class whose methods follow them |

## How the model follows the code

- **`Config`** is the same four fields. Headers are kept but never used,
  since no request is built.
- **`json.dumps`** is modelled for the values the core handles, within the
  two limits listed under "Left out". That means null, booleans, integers, strings with `ensure_ascii` escaping,
  arrays and insertion-ordered objects, with the default separators `", "`
  and `": "`. Its output never holds a raw newline, so each document's lines
  survive the join.
- **Python version.** The model follows Python 3.7 or later:
  - `/` is true division in `__open`;
  - `__next__` is the iterator method;
  - `json.dumps` emits a dict's members in insertion order, which the exact
    action lines in `Bulk.SerializePairs` rely on.
- **Serialisers** are functions. Update and index build each document's
  action line, and so read its `"_id"`, before they read `"src"`. So a
  document lacking both keys raises `KeyError("_id")`. Create's action line
  reads no `"_id"`, so it raises `KeyError("src")`. The
  configuration-scoped delete reads only `"_id"`; as written, delete raises
  `AttributeError` before it reads `"_id"`.
- **Push methods** mutate an `array<Doc>` in loops. Each loop is proved equal
  to a recursive function of the old documents (`CreateFrom`, `StatusFrom`),
  and the properties are lemmas about those functions.
- **Assignment order.** Python's `docs[i][k] = rhs` evaluates `rhs` before
  indexing `docs`. So for update/index, a malformed item raises its lookup
  error before an item past the last document raises `IndexError`.
- **Scroll as written.** The scroll is modelled exactly as written:
  - `__next__` never advances `next_page_num` and never stores a new scroll
    id.
  - `__close` never clears the scroll id.
  - A zero-hit search fails `assert self.num_pages` on every `next`.
- **Scroll lemmas.** The consequences are proved as lemmas:
  - a one-page scroll yields one page and ends;
  - a longer scroll never ends by itself;
  - a zero-hit scroll raises on every call;
  - a closed cursor cannot be reopened, yet can be closed again.
- **The delete batch** reads `self.index`, `self.doctype` and
  `self.http_headers`, which a batch never has. The as-written delete
  serialiser and push (`Bulk.SerializeDeleteAsWritten`,
  `Bulk.PushDeleteAsWritten`) raise `AttributeError("index")` for every
  non-empty list. The push with only its serialiser corrected
  (`Bulk.PushDeleteSerializeFixed`) still raises, on the headers. See
  Findings. `Serialize` and `Batch.Push` take all three fields from the
  configuration, as the other three batches do.
- **Wire shape.** For N ≥ 1 documents the create/update/index body splits on
  `"\n"` into 2N + 1 pieces. With no documents, the body is `"\n"`, which
  splits into two empty pieces, not one (`Bulk.SerializeEmpty`).

## Model

| member | source | states |
|---|---|---|
| Json.IntToString | melastic/melastic.py:44-45 | an integer's JSON text is non-empty, has no newline, and starts with '-' exactly when the integer is negative |
| Json.EscapeChar | melastic/melastic.py:44-45 | each character's `ensure_ascii` escape is non-empty and newline-free; printable ASCII other than quote and backslash is kept as is |
| Json.EscapeString | melastic/melastic.py:44-45 | an escaped string is newline-free and no shorter than the original |
| Json.EscapePlain | melastic/melastic.py:41 | a string of printable ASCII without quotes or backslashes, such as an index or type name, is emitted verbatim |
| Json.Quote | melastic/melastic.py:44-45 | a string literal is newline-free and delimited by double quotes |
| Json.Dumps | melastic/melastic.py:44-45 | `json.dumps` of any value is one non-empty line: it never contains a raw newline |
| Json.DumpsItems | melastic/melastic.py:45 | the elements of an array dump to newline-free text |
| Json.DumpsMembers | melastic/melastic.py:44 | the members of an object dump to newline-free text |
| Json.Find | melastic/melastic.py:73-74 | a member lookup succeeds exactly when some member has the key, and returns a value stored under that key |
| Json.FindLast | melastic/melastic.py:66 | of duplicated keys in a parsed reply, the last one wins |
| Json.Get | melastic/melastic.py:73 | `v[key]` is a TypeError on a non-object, a KeyError exactly when no member has the key, and otherwise a value stored under it |
| Json.Get2 | melastic/melastic.py:121 | `v[outer][inner]` succeeds exactly when both lookups do, returns a value stored under `inner` in the value stored under `outer`, and otherwise raises TypeError or the KeyError of one of the two keys |
| Lines.Join | melastic/melastic.py:49 | `sep.join` of no parts is empty, and otherwise starts with the first part |
| Lines.Split | melastic/test_melastic.py:22 | `split("\n")` yields at least one piece, and no piece holds a newline |
| Lines.SplitOneLine | melastic/test_melastic.py:22 | a newline-free string splits into itself alone |
| Lines.SplitFirstLine | melastic/test_melastic.py:22 | splitting peels a leading newline-free line off the rest |
| Lines.SplitJoin | melastic/melastic.py:49 | splitting undoes `"\n".join` of one or more newline-free lines |
| Lines.JoinSplit | melastic/melastic.py:49 | `"\n".join` undoes splitting on "\n" for every string |
| Lines.JoinSnoc | melastic/melastic.py:49 | joining one more part appends the separator and the part |
| Lines.SplitTerminated | melastic/melastic.py:49 | N >= 1 newline-free lines joined by "\n" plus a final "\n" split into those lines and one empty piece |
| Lines.SplitEmptyTerminated | melastic/melastic.py:49 | with no lines the body is a lone "\n", which splits into two empty pieces |
| Bulk.ActionLine | melastic/melastic.py:39-43 | the action line is a dict with the batch verb as its one key (lines 92-97, 138-143, 154-159 build the others) |
| Bulk.ActionLineFields | melastic/melastic.py:39-159 | read back as a parsed dict, `line[verb]` holds the configuration's index and type, and the document's "_id" exactly when the batch is not a create (two members for create, three otherwise) |
| Bulk.PayloadLine | melastic/melastic.py:99 | the update payload is a one-member dict whose "doc" is the source; create and index send the source itself |
| Bulk.DocLines | melastic/melastic.py:32-161 | one document's lines exist exactly when it has the keys its batch reads; there are two (one for delete), newline-free: the dumped action line, then the dumped payload; otherwise KeyError("_id") when a non-create document lacks "_id", and KeyError("src") otherwise |
| Bulk.SerialLines | melastic/melastic.py:32-161 | no documents give no lines |
| Bulk.Serialize | melastic/melastic.py:32-161 | `serialize()` of any batch succeeds exactly when every document has the keys its batch reads, and its body then ends with "\n" |
| Bulk.SerialLinesFailsAt | melastic/melastic.py:32-161 | when document k is the first that lacks a key, the lines and the body fail with exactly that document's KeyError |
| Bulk.SerialLinesOk | melastic/melastic.py:32-161 | the line list is built exactly when every document has the keys its batch reads |
| Bulk.SerialLinesCons | melastic/melastic.py:32-161 | a document with its keys contributes its lines ahead of the later documents' lines |
| Bulk.SerialLinesShape | melastic/melastic.py:32-161 | with every key present, the line list has Width lines per document, none holding a newline |
| Bulk.SerialLinesAt | melastic/melastic.py:32-161 | with every key present, document i owns the lines from Width*i: its action line, then its payload line |
| Bulk.OwnsCons | melastic/melastic.py:32-161 | one more document's lines in front of a well-laid-out line list keep every document at line Width*i |
| Bulk.SerializePairs | melastic/melastic.py:32-146 | for N >= 1 documents a create/update/index body splits into 2N+1 pieces: document i's action line at 2i, its payload at 2i+1, an empty last piece; it fails exactly when a document lacks a key |
| Bulk.SerializeDeletes | melastic/melastic.py:151-161 | for N >= 1 documents a delete body splits into N action lines, one per document in order, and an empty last piece; no payload lines |
| Bulk.SerializeEmpty | melastic/melastic.py:49 | with no documents every batch serialises to "\n" |
| Bulk.SerializeDeleteAsWritten | melastic/melastic.py:151-161 | as written, the delete serialiser returns "\n" for no documents |
| Bulk.DeleteAsWrittenFails | melastic/melastic.py:156 | as written, a delete of one well-formed document raises AttributeError("index"), where the configuration-scoped serialiser yields its action line and "\n" |
| Bulk.PushDeleteAsWritten | melastic/melastic.py:163-172 | as written, the delete push never posts; it succeeds exactly when the list is empty, and then returns None |
| Bulk.PushDeleteAsWrittenFails | melastic/melastic.py:156 | as written, every non-empty delete push raises AttributeError("index") and posts nothing |
| Bulk.PushDeleteSerializeFixed | melastic/melastic.py:163-172 | with only line 156 corrected, the delete push still never posts: an empty list returns None, a key error propagates, and every non-empty body that serialises raises AttributeError("http_headers") |
| Bulk.DeleteHeadersAsWrittenFails | melastic/melastic.py:170 | with line 156 corrected, one well-formed delete serialises but raises AttributeError("http_headers") and posts nothing |
| Bulk.Created | melastic/melastic.py:73-74 | a document with a create item written into it gains exactly "_id" and "status", holding the item's values, and keeps every other key |
| Bulk.CreateFrom | melastic/melastic.py:72-74 | the create loop keeps the number of documents |
| Bulk.CreateStep | melastic/melastic.py:72-74 | a well-formed item moves the create loop on by writing its "_id" and "status" into its document |
| Bulk.CreateFromWrites | melastic/melastic.py:72-74 | the create loop succeeds exactly when every item holds `create._id` and `create.status`, and then every document j has item j's "_id" and "status" |
| Bulk.CreateFromKeepsOtherKeys | melastic/melastic.py:72-74 | whatever the outcome, the create loop changes no key but "_id" and "status", so "src" survives |
| Bulk.CreateFromFailsAt | melastic/melastic.py:72-74 | when item k is the first malformed one, its lookup error is raised, documents before k are fully written, document k has at most its "_id", and later documents are untouched |
| Bulk.StatusFrom | melastic/melastic.py:120-121 | the update/index loop keeps the number of documents |
| Bulk.StatusFromWrites | melastic/melastic.py:120-121 | the update/index loop succeeds exactly when there are no more items than documents and each item has `[action].status`; then document j's "status" is item j's, and documents without an item keep theirs |
| Bulk.StatusFromKeepsOtherKeys | melastic/melastic.py:120-121 | whatever the outcome, documents without a reply item are untouched and no key but "status" changes |
| Bulk.StatusFromFailsAt | melastic/melastic.py:120-121 | when item k is the first whose status cannot be written, the loop raises its lookup error, or IndexError when there is no document k; documents before k have their "status" written, all others are untouched |
| Bulk.Batch.constructor | melastic/melastic.py:19-21 | a batch keeps its configuration and the caller's own document list, not a copy |
| Bulk.Batch.WriteCreated | melastic/melastic.py:72-74 | the in-place create loop ends with the documents and outcome of `CreateFrom` |
| Bulk.Batch.WriteStatuses | melastic/melastic.py:120-121 | the in-place update/index loop ends with the documents and outcome of `StatusFrom` |
| Bulk.Batch.Push | melastic/melastic.py:51-76 | no documents: nothing posted or changed. A key error: nothing posted. Otherwise the serialised body is posted. A non-200 status is an AssertionError with nothing changed. For create, a count mismatch is an AssertionError with nothing changed, else the `CreateFrom` writes. For update/index, the `StatusFrom` writes. Delete returns None. The `errors` flag affects nothing |
| Scrolling.CeilDiv | melastic/melastic.py:226-228 | the exact ceiling of a / b: (r-1)*b < a <= r*b |
| Scrolling.OnePage | melastic/melastic.py:226-228 | hits that fit on one page make one page |
| Scrolling.SeveralPages | melastic/melastic.py:226-228 | more hits than fit on one page make at least two pages |
| Scrolling.PageCount | melastic/melastic.py:225-230 | 0 pages for no hits; a ZeroDivisionError for hits with an empty first page; otherwise the least page count holding all hits, at least 1 for positive hits |
| Scrolling.OpenStep | melastic/melastic.py:205-230 | opening keeps the cursor invariant: nothing is set before the scroll id, and once set the hit count is known and the page counter is 1 |
| Scrolling.CloseStep | melastic/melastic.py:232-238 | closing keeps the cursor invariant |
| Scrolling.NextStep | melastic/melastic.py:243-262 | a call of `next` keeps the cursor invariant |
| Scrolling.Drain | melastic/test_melastic.py:258 | successive calls of `next` keep the invariant and give one step per call |
| Scrolling.OpenSets | melastic/melastic.py:205-230 | an open from a cursor without id logs the search; a non-200 status changes nothing else; otherwise id, hit count and first page are the reply's, the counter is 1, and the page count is 0, the exact ceiling of hits over page size, or left unset by a ZeroDivisionError when hits come with an empty first page |
| Scrolling.CloseIff | melastic/melastic.py:232-238 | close succeeds exactly on a cursor with a non-empty scroll id, sending one release of it; a failing close changes nothing |
| Scrolling.CloseBeforeOpenFails | melastic/melastic.py:233 | closing a cursor that was never opened fails its assertion and sends nothing |
| Scrolling.OpenOnlyOnce | melastic/melastic.py:206 | once a scroll id is set, opening again fails and changes nothing, also after a close |
| Scrolling.CloseTwice | melastic/melastic.py:232-238 | a second close of a live cursor is not refused: each close sends one more release of the same id |
| Scrolling.NextKeepsCursor | melastic/melastic.py:243-262 | `next` never changes the scroll id, page count, hit count or page counter of an open cursor; it sends at most one continuation, with the cursor's own id |
| Scrolling.FirstPageIsBuffered | melastic/melastic.py:249-252 | the first `next` after opening returns the buffered first page, clears it, and sends nothing |
| Scrolling.StopsForever | melastic/melastic.py:253-254 | with at most one page and no buffered page, every later call stops without a request or a change |
| Scrolling.PagesForever | melastic/melastic.py:253-262 | with two or more pages and no buffered page, every call sends a continuation and returns its hits, without end |
| Scrolling.RaisesForever | melastic/melastic.py:247 | an open cursor with page count 0 or unset raises on every call and sends nothing |
| Scrolling.DrainKeepsId | melastic/melastic.py:243-262 | iterating never changes the scroll id of an open cursor |
| Scrolling.SinglePageScroll | melastic/melastic.py:243-262 | a scroll whose hits fit on the first page yields that page and then stops on every call, sending only the search |
| Scrolling.MultiPageScrollNeverEnds | melastic/melastic.py:253 | a scroll with more hits than its first page yields the first page and then a continuation page on every call |
| Scrolling.ZeroHitScrollRaises | melastic/melastic.py:247 | a scroll with no hits raises on every call after its one search |
| Scrolling.ExitReleases | melastic/melastic.py:198-203 | after a successful `__enter__` with a non-empty scroll id, whatever the block reads, `__exit__` succeeds and releases that id |
| Scrolling.ScrollObjectScenario | melastic/test_melastic.py:182-223 | ten hits with one per page give ten pages; the first `next` returns the buffered hit and the second a continuation's, leaving no buffered page |
| Scrolling.Scroll.constructor | melastic/melastic.py:185-196 | a new cursor keeps its configuration, query and lifetime ("1m" unless given), has nothing set and has sent nothing |
| Scrolling.Scroll.Open | melastic/melastic.py:205-230 | the fields and request log change exactly as `OpenStep` says, keeping the invariant |
| Scrolling.Scroll.Close | melastic/melastic.py:232-238 | only the request log changes, as `CloseStep` says |
| Scrolling.Scroll.Next | melastic/melastic.py:243-262 | the fields and request log change exactly as `NextStep` says, keeping the invariant |
| Scrolling.Scroll.Enter | melastic/melastic.py:198-200 | entering is opening |
| Scrolling.Scroll.Exit | melastic/melastic.py:202-203 | exiting is closing |

## Left out
- Json.IntToString: does not model the limit on integer-to-string conversion (4300 digits by default, `sys.int_max_str_digits`) that recent Python releases apply in `int.__repr__` and so in `json.dumps`. Above it, `json.dumps` raises `ValueError`, while the model prints every integer. So the "succeeds exactly when every document has its keys" contracts of `Bulk.Serialize`, `Bulk.SerialLinesOk` and `Bulk.SerializePairs` hold only for integers within that limit.
- Json.EscapeChar: strings are sequences of Unicode scalar values, so a lone surrogate, which a Python `str` can hold and `json.dumps` emits escaped (`"\ud800"`), is not modelled.
- HTTP transport, URL and query-parameter building, and request headers: the status and parsed reply of each request are parameters; the model records only which request is sent and, for a bulk push, its body.
- `json.loads` and the reply's structure beyond what the core reads: replies arrive parsed, with `errors` and `items` present; a reply missing them is not modelled.
- JSON floating-point numbers and dictionary keys that are not strings.
- Logging, which has no effect on results.
- Scrolling.PageCount: uses exact integer ceiling division for `math.ceil(total / len(page))`; floating-point rounding of very large hit counts and Python 2's floor division are not modelled.
- The namedtuple `Scroll` shadowed by the class of the same name, and the never-read `current_page_num` field.
- `__iter__`, which returns the cursor itself; `Scrolling.Drain` stands for the calls `list(scroll)` makes.
- Exception propagation through `__exit__`: exit is modelled as a close, and `ExitReleases` covers any outcome of the block.
- Bulk.Batch.Push, Bulk.CreateFrom, Bulk.StatusFrom: documents are values, so aliasing between the caller's dicts is not modelled. A dict listed twice in the batch, or shared with another list, receives both writes in Python but is two independent documents here.
- An unset attribute and an attribute set to None are both modelled as `None`.
- Assertion messages of the bare `assert`s on status and counts are modelled as the empty string.
- The tests and packaging (`setup.py`); the tests are reflected as lemmas.

## Findings

| source | as written | input that shows it | evidently intended | confidence | as-written member | corrected member |
|---|---|---|---|---|---|---|
| melastic/melastic.py:156 | `BulkDelete.serialize` reads `self.index` and `self.doctype`, which a batch never sets | one document `{"_id": x}` raises AttributeError | read `self.config.index` and `self.config.doctype`, as the other batches do | not executed | Bulk.DeleteAsWrittenFails | Bulk.SerializeDeletes |
| melastic/melastic.py:170 | `BulkDelete.push` passes `self.http_headers`, which a batch never sets | one document `{"_id": x}` with the serialiser corrected still raises AttributeError before posting | pass `self.config.http_headers` | not executed | Bulk.DeleteHeadersAsWrittenFails | Bulk.Batch.Push |
