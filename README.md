# ckanext-sa datastore push, modelled in Dafny

The `datastore` paster command of ckanext-sa takes a CKAN resource holding a
tabular file and loads its rows into the CKAN DataStore. Once the table is
parsed, the command does five things, and this project models each of them:

- It chooses the resource. `DATA_FORMATS` is an allow-list of MIME types and
  formats. A resource that has a MIME type is skipped when that type or its
  lower-cased format is not on the list; a resource with an empty or missing
  MIME type never is. Only the first package is looked at, and at most one
  resource is pushed (module `Selection`).
- It turns the guessed column types into DataStore field types through
  `TYPE_MAPPING` (module `Types`).
- It normalises cells in place with two row processors (module `Cells`):
  - `datetime_procesor` turns a `datetime` into its ISO-8601 text and marks the
    cell `StringType`;
  - `stringify_processor` turns every false value into `None` and every other
    value into its text.
- It cuts the record stream into batches of at most 100 (`chunky`) and counts
  them (module `Chunking`).
- It runs the upload protocol (module `Upload`):
  - a `datastore_delete`, which must answer 200 or 404;
  - one `datastore_create` per batch, each of which must answer 200 or 201;
  - a `resource_update` that sets `webstore_url` to `active` and stamps
    `webstore_last_updated`; it must answer 200 or 201.

  Any other status raises `DatastorerException`, and nothing after it is sent.
  A transport failure of the delete raises `DatastorerException` too. A
  transport failure of a create or of the update lets the `RequestException`
  through instead.

The network is replaced by `Upload.Replies`. For the delete, for the create of
each batch (by batch number) and for the update, it gives the status code or a
transport failure. The requests sent are returned in order. The clock
(`datetime.now()`) is a parameter holding a valid `DateTime`.

The stateful parts are imperative:
- `Cell` is a class whose `value` and `kind` the processors rewrite in place.
- `RowIterator` is the shared iterator that `islice` advances.
- `Resource` is the dictionary that `resource.update` mutates.
- `Command` and `SendBatches` are loops; `PushToDatastore` runs the steps of
  the push in order and calls `SendBatches` for the batches.

Each method is proved against a pure specification: `StringifyValue`,
`DatetimeConvert`, `Chunks`, `FirstPushable` and `PushSpec`. Lemmas state the
protocol's properties about these specifications.

Some consequences of the code as written, stated by the contracts:
- Python truthiness makes `stringify_processor` upload an integer or decimal
  zero and `False` as `null`, just like an empty cell (`Cells.StringifyValue`).
- The separator of an uploaded datetime depends on the cast that
  `types_processor` applies between the two processors. If the cast keeps the
  ISO text, the datetime arrives with the `T` separator. If it parses the text
  back into the datetime, it arrives with a space, as `unicode(datetime)` gives
  (`Cells.DatetimeThenStringify`).
- The delete check `not response.status_code or status not in (200, 404)` only
  accepts 200 and 404. Its first half adds nothing (`Upload.DeleteAccepted`).
- The `try: ... except Exception: pass` around the create's zero-status check
  (lines 174-179) has no effect and is modelled as nothing. A zero status is
  rejected by the next test anyway (`Upload.Accepted`).
- A create rejected after earlier batches were accepted leaves those earlier
  records in the store. They are exactly the first records of the table, in
  order (`Upload.CreateRejectionStops`).

## Model

| member | source | states |
|---|---|---|
| `Types.TypeMapping` | ckanext/sa/commands.py:18-26 | every candidate type has an entry (its name lies in the vocabulary by `Types.Name`); `BoolType` has none (a `KeyError`) |
| `Types.Name` | ckanext/sa/commands.py:18-26 | every field-type name belongs to the vocabulary {text, numeric, float, timestamp} |
| `Types.MappingGroups` | ckanext/sa/commands.py:18-26 | Integer and Decimal both map to numeric, Date and DateUtil both map to timestamp, and only String maps to text |
| `Types.TypeNames` | ckanext/sa/commands.py:163 | the list comprehension succeeds iff every guessed type has an entry; then it gives one field type per column, position by position; otherwise it fails with the first unmapped type |
| `Types.GuessedTypesAreMapped` | ckanext/sa/commands.py:144-163 | when every guessed type is one of the candidates passed to `type_guess`, the lookup cannot fail and yields vocabulary names |
| `Cells.IsoFormat` | ckanext/sa/commands.py:272 | `isoformat()` is 19 characters long, or 26 when the microseconds are not zero |
| `Cells.IsoFormatRoundTrip` | ckanext/sa/commands.py:272 | the date and time can be read back from `isoformat(sep)` for every valid datetime and any separator |
| `Cells.Falsy` | ckanext/sa/commands.py:258 | a datetime is never false, and every true value has a non-empty text |
| `Cells.ToText` | ckanext/sa/commands.py:261 | only the empty string has the empty text; a string is its own text; an integer and a datetime read back from their text |
| `Cells.FloatDigits` | ckanext/sa/commands.py:261 | the float's digits with the trailing zeros after the point dropped: at most as many places, none left ending in 0, and the same value |
| `Cells.FloatTextIgnoresTrailingZero` | ckanext/sa/commands.py:261 | for every float, a mantissa with one more trailing zero and one more place writes the same text, so the text depends only on the value |
| `Cells.DecimalTextPlaces` | ckanext/sa/commands.py:261 | for every decimal, the text ends in a point followed by exactly `places` digits, as `unicode(Decimal)` keeps the exponent |
| `Cells.FloatTextExamples` | ckanext/sa/commands.py:261 | `1.50` as a float is written `1.5`, `3.00` is written `3.0`, and a decimal `1.50` keeps its places |
| `Cells.StringifyValue` | ckanext/sa/commands.py:258-261 | the new value is `None` iff the old one is false in Python's sense (None, False, 0, zero decimal, ""); otherwise it is a non-empty text |
| `Cells.StringifyIdempotent` | ckanext/sa/commands.py:255-263 | stringifying twice is the same as stringifying once |
| `Cells.StringifyPreserves` | ckanext/sa/commands.py:261 | a non-empty text is kept; a non-zero integer and a datetime can be read back from their text form |
| `Cells.DatetimeConvert` | ckanext/sa/commands.py:270-273 | a datetime cell becomes text that reads back as the same datetime, with type `StringType`; every other cell keeps its value and type; no datetime is left |
| `Cells.DatetimeConvertIdempotent` | ckanext/sa/commands.py:266-275 | converting twice is the same as converting once |
| `Cells.DatetimeThenStringify` | ckanext/sa/commands.py:140-157 | datetime processor, then a cast standing for `types_processor`, then stringify: a datetime ends as `isoformat('T')` when the cast keeps the text, and as `isoformat(' ')` when the cast turns the text back into the datetime, which is what stringifying alone gives |
| `Cells.Cell.Stringify` | ckanext/sa/commands.py:258-261 | the cell's value becomes `StringifyValue` of its old value, and its type is unchanged |
| `Cells.Cell.ConvertDatetime` | ckanext/sa/commands.py:271-273 | the cell's value and type become `DatetimeConvert` of the old ones |
| `Cells.StringifyRow` | ckanext/sa/commands.py:255-263 | every cell of the row holds the stringified old value with its type unchanged, even when a cell occurs twice in the row; the same row is returned |
| `Cells.DatetimeRow` | ckanext/sa/commands.py:266-275 | every cell of the row is converted exactly as `DatetimeConvert` says, even when a cell occurs twice in the row; the same row is returned |
| `Chunking.Chunks` | ckanext/sa/commands.py:208-216 | every batch is non-empty with at most `n` records, every batch but the last has exactly `n`, and the first batch is the first `n` records |
| `Chunking.ChunksRoundTrip` | ckanext/sa/commands.py:208-216 | for `n > 0`, joining the batches gives back exactly the records, in order |
| `Chunking.ChunkCount` | ckanext/sa/commands.py:218-221 | there are `ceil(len(rows) / n)` batches, so `send_request` is called that many times |
| `Chunking.NextChunk` | ckanext/sa/commands.py:209-215 | the next `islice` of the shared iterator is empty exactly when all batches have been taken; otherwise it is the next batch |
| `Chunking.RowIterator.Take` | ckanext/sa/commands.py:211-213 | `list(islice(it, n))` returns the next `min(n, remaining)` records and advances the iterator past them |
| `Selection.Skipped` | ckanext/sa/commands.py:110-112 | only a resource with a (non-empty) MIME type is skipped, and one whose MIME type is not in `DATA_FORMATS` always is |
| `Selection.SkippedExactly` | ckanext/sa/commands.py:109-117 | a resource with a MIME type is pushed iff both the MIME type and the lower-cased format are in `DATA_FORMATS`; the case of the format does not matter |
| `Selection.FirstPushable` | ckanext/sa/commands.py:108-122 | the result is the first resource that is not skipped, with all earlier ones skipped, or none when all are skipped |
| `Selection.Command` | ckanext/sa/commands.py:107-123 | only the first package is examined and at most one resource is pushed: the first of that package that is not skipped |
| `Upload.DeleteAccepted` | ckanext/sa/commands.py:196 | the delete is accepted exactly on a response with status 200 or 404; the zero-status test adds nothing |
| `Upload.Accepted` | ckanext/sa/commands.py:181 | a create (and, at line 238, the update) is accepted exactly on a response with status 200 or 201, never on a transport failure, and so never on a zero status |
| `Upload.Finalisation` | ckanext/sa/commands.py:227-230 | exactly the keys `webstore_url` and `webstore_last_updated` are written: `active`, and a timestamp that reads back as the clock reading |
| `Upload.PushSpec` | ckanext/sa/commands.py:163-240 | nothing is sent iff a guessed type is unmapped or the resource has no `id`; a completed push counts every record; the resource ends untouched or finalised |
| `Upload.Fields` | ckanext/sa/commands.py:167 | `zip` pairs each header with the name of its field type and stops at the shorter list |
| `Upload.FirstRejected` | ckanext/sa/commands.py:181-184 | the result is the first batch whose create reply is not a 200/201 response, with all earlier ones accepted, or the number of batches when none is rejected |
| `Upload.SendBatches` | ckanext/sa/commands.py:218-221 | the batches are sent in order up to and including the first rejected one, and none after it; when all are accepted, the count equals the number of records |
| `Upload.Resource.Update` | ckanext/sa/commands.py:227-230 | `resource.update` overrides the given keys and keeps the others |
| `Upload.PushToDatastore` | ckanext/sa/commands.py:163-240 | the outcome, the requests sent and the final resource are those that `PushSpec` gives |
| `Upload.DeleteBeforeCreate` | ckanext/sa/commands.py:186-204 | the first request is always the delete of the resource's id, and every later request is sent only after the delete was accepted |
| `Upload.DeleteFailureAborts` | ckanext/sa/commands.py:189-202 | the push fails with the delete error iff the delete answer is not a non-zero 200/404; then only the delete was sent and the resource is untouched |
| `Upload.RejectedRequests` | ckanext/sa/commands.py:181-184 | a push stopped by a create was preceded by an accepted delete and accepted earlier batches; it sent exactly the creates up to the rejected batch |
| `Upload.CreateRejectionStops` | ckanext/sa/commands.py:219-221 | after a rejected create, nothing else is sent (no later batch, no update), and the records already sent are a prefix of the table |
| `Upload.BatchPrefixSent` | ckanext/sa/commands.py:218-221 | the delete plus the first `b + 1` creates are `b + 2` requests with no update, carrying a prefix of the records |
| `Upload.PushedRequests` | ckanext/sa/commands.py:218-240 | a completed push is the delete, every batch's create and the update of the finalised resource, and the count is the number of records |
| `Upload.AllBatchesSent` | ckanext/sa/commands.py:218-223 | the delete, all creates and the update are `ceil(n / 100) + 2` requests carrying every record once, in order |
| `Upload.SuccessfulPushSendsAll` | ckanext/sa/commands.py:218-223 | after a completed push, `count` equals the number of records, and every record was sent once, in order, in `ceil(n / 100)` creates |
| `Upload.SuccessfulPushFinalises` | ckanext/sa/commands.py:225-240 | the last request is the resource with `webstore_url = 'active'` and `webstore_last_updated = now.isoformat()`, every other key unchanged |
| `Upload.PushedExactly` | ckanext/sa/commands.py:218-240 | a push completes iff every guessed type is mapped, the resource has an `id`, the delete is accepted, every batch's create is accepted and the update is accepted |
| `Upload.UpdateOnlyAfterAllBatches` | ckanext/sa/commands.py:225-240 | the update is sent only as the last request, after every batch's create was accepted |

## Left out

- Downloading the resource (`download`, `fetch_resource`) and the `max_content_length` guard (lines 127-128): network I/O in a module that is not part of this model.
- Table parsing by messytables (lines 132-156): `AnyTableSet`, `headers_guess`, `type_guess`, `types_processor`, `offset_processor`, `headers_processor`, `register_processor` and `row_set.dicts()` are library code. The guessed headers, the guessed types and the normalised records are inputs. The step between the cell processors and the records (`dicts()`, and the cast that `types_processor` applies between the two processors) is therefore not modelled.
- `requests.post` and JSON serialisation (lines 169-173, 191-195, 232-236): replaced by `Upload.Replies`. Requests are recorded as values, and the URLs and the `Authorization` header are not modelled.
- `get_response_error` (lines 243-252): it builds the text logged for a rejected delete (line 198) or create (line 182). Response bodies are not modelled, and logging is left out. When the body is a JSON number, boolean or `null`, the `"error" in d` test at line 250 raises `TypeError`. When it is a JSON string or list that contains `"error"`, that test passes and `d["error"]` at line 251 raises `TypeError`. Either `TypeError` replaces the `DatastorerException` of that delete or create. The requests sent and the resource are the same; the model reports `DeleteFailed` or `CreateRejected` there.
- `Upload.Replies`: a reply is a status code or a transport failure. `response.content`, headers and timeouts are not modelled.
- `Cells.DatetimeThenStringify`: the cast of `types_processor` is library code and is a parameter. The lemma states the upload for the two outcomes that decide the separator: the cast keeps the ISO text, or it turns the text back into the datetime.
- Logging, including the message at line 119 that prints the URL where the package name was meant.
- `_get_all_packages` pagination (lines 68-84), the site-user call and the context built from configuration (lines 94-106): foreign calls into CKAN. `Selection.Command` takes the packages as a list.
- Command-line handling, configuration loading, and the `Datastore` name at line 91.
- The call of `push_to_datastore` from `command`: `Selection.Command` returns which resource is pushed. `Upload.PushToDatastore` models the push itself, and any exception it raises propagates out of `command` unchanged.
- `Cells.ToText`: a float is the exact decimal `mantissa / 10^places`, written without trailing zeros after the point and with `.0` when it is whole (`Cells.FloatDigits`). Python 2's `unicode(float)` formats with 12 significant digits (`%.12g`); that rounding and the exponent notation for very large and very small floats and decimals are not modelled. Non-finite numbers are not representable either: messytables' float and decimal casts accept `nan`, `inf`, `NaN` and `Infinity`. Such a value is true at line 258, and line 261 writes it as `nan`, `inf`, `NaN` or `Infinity`; `Float` and `Decimal` hold finite decimals only. `unicode` of a byte string is taken to be the string itself; the `UnicodeDecodeError` it raises on non-ASCII bytes is not modelled (see `Upload.SendBatches` below for where it would stop the push).
- `Cells.DateTime`: time zones are not modelled. A naive datetime has no UTC offset in `isoformat`. `datetime.date` values are not modelled either, since they are not `datetime.datetime` instances.
- `Selection.Lower`: only ASCII letters are lower-cased. A resource whose format is `None` would raise on `.lower()`; formats are modelled as strings.
- `Selection.ResourceInfo`: a resource without the `mimetype` key raises `KeyError` at line 109; the key is taken to be present, its value possibly `None`.
- `Upload.Props`: the values of the resource dictionary are modelled as strings. Nested JSON values are not modelled.
- `Upload.SendBatches`: the records are taken as a complete list. In the source they come from a lazy stream (`row_set.dicts()` with the processors of lines 138-157 applied row by row), and an exception raised while a later record is produced propagates out of the `for` at line 219. Two causes are the `strict=True` cast of line 156 on a row past the type-guessing sample, and `unicode()` at line 261 on a non-ASCII byte string. Such an abort leaves the earlier batches stored and sends no `resource_update`; the model, and so `Upload.PushedExactly`, does not express it.
- `Upload.PushSpec`: a resource without `id` fails before the delete is sent (`MissingId`). The `KeyError` that a missing `format` would raise earlier, during parsing, is not modelled.
