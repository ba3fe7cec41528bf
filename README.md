# restapi-logging-handler in Dafny

A model of the two Python logging handlers in `restapi_logging_handler`.

- **`RestApiHandler`** POSTs one JSON payload per log record to a fixed endpoint.
- **`LogglyHandler`** buffers payloads and flushes them to Loggly's bulk endpoint. It sends one POST per (process id, thread id) group and retries failed POSTs.

## Modules

- **`Strings`** (`strings.dfy`): the parts of Python's `str` that the handlers use:
  - `split` and `join` on a one-character separator, with their round trips;
  - `startswith`;
  - `str()` of an integer.
- **`Serialization`** (`serialization.dfy`):
  - the Python values a record can hold, and the JSON document `json.dumps` builds;
  - the `serialize` fallback hook and `simple_json`.

  `json.dumps` is modelled as a function `Encode` from a value to an optional JSON document. For the values modelled (finite, acyclic, with string dictionary keys) it fails exactly when some nested object has no `__dict__` and a `str()` that raises. The text it renders is a parameter: `Runtime.render`.
- **`RestApi`** (`restapi.dfy`):
  - the key-set constants and the handler's ignore sets;
  - `_getPayload`, as a specification function `PayloadOf` and as the method `GetPayload`;
  - `_prepPayload`;
  - the `RestApiHandler` class. Its HTTP session is the log `requests` of the POSTs it was asked to send.
- **`Grouping`** (`grouping.dfy`): the nested `pids` dictionary `flush` builds.
  - Python dictionaries keep insertion order, so both levels are sequences in the order their keys were first seen.
  - The main results are that grouping partitions the batch, and that processes come in the order of their first records, each process's threads in the order of theirs.
- **`Loggly`** (`loggly.dfy`):
  - tag normalisation, `_implodeTags` and the bulk URL;
  - the `handle_response` retry rule, and the runs of attempts it produces;
  - the grouping loop (`GroupBatch`) and the posting loops (`PostGroups`, `PostThreads`);
  - the `LogglyHandler` class, with its buffer `logs`, its process id, and a `Session` whose `posts` field is the log of bulk POSTs;
  - the constructor path `NewLogglyHandler`.

Nothing outside the model is called. The following become parameters:

| Python call | parameter |
|---|---|
| `os.getpid()` | `currentPid` / `processId` |
| `traceback.format_exc()` | `excTrace` |
| `record.getMessage()` | the record's `message`, a `Result` |
| the EC2 metadata request | `ec2Id`, `None` when it failed |
| `json.dumps` text and `str()` of floats and containers | `Runtime` |

### Retries

- Only status 200 counts as delivered (`loggly_handler.py:19`); any other status, 2xx included, is a failure.
- The retry rule resubmits while `attempt <= max_attempts`, starting from attempt 1, so it would allow `max_attempts + 1` sends if the resubmission worked. As written, the first resubmission raises inside `flush` and nothing is resent (see "## Findings"). `RetryRun` and the lemmas about it (`RetryRunAttempts`, `RetryRunEnd`, `AlwaysFailing`, `FirstFlushSends`, `FailOnceThenSucceed`) describe the corrected resubmission, as `LogglyHandler.OnResponse` performs it.

## Model

| member | source | states |
|---|---|---|
| Strings.JoinSplit | restapi_logging_handler/loggly_handler.py:96 | joining the parts of `s.split(sep)` with `sep` gives back `s` |
| Strings.SplitJoin | restapi_logging_handler/loggly_handler.py:110 | splitting `sep.join(parts)` at `sep` gives back the parts when no part holds the separator |
| Serialization.Serialize | restapi_logging_handler/restapi_logging_handler.py:96-118 | `serialize` returns a string or a dict; it raises exactly for an object without `__dict__` whose `str()` raises; an object with a `__dict__` yields that dict; a UUID yields `str(uuid)`; an object without `__dict__` yields `str(obj)`; when reading `__dict__` raises otherwise, the text is `json fail <repr(e) or unknown err> <str(obj) or unknown obj>` |
| Serialization.SerializeDateTime | restapi_logging_handler/restapi_logging_handler.py:98-100 | a datetime becomes `date + "T" + time`, and splitting that at `T` gives back date and time |
| Serialization.SerializeIsDefaultHook | restapi_logging_handler/restapi_logging_handler.py:124 | dumping a foreign object is dumping what `serialize` returns for it, and fails when `serialize` raises |
| Serialization.EncodeFailsIff | restapi_logging_handler/restapi_logging_handler.py:122-126 | for finite, acyclic values with string keys, `json.dumps(v, default=serialize)` raises if and only if some nested object has no `__dict__` and no `str()` |
| Serialization.SimpleJson | restapi_logging_handler/restapi_logging_handler.py:122-126 | returns the rendered JSON of the value when dumping succeeds; otherwise it returns `cannot serialize <class 'T'>` with the value's type name |
| RestApi.DetailIgnoreSet | restapi_logging_handler/restapi_logging_handler.py:143-146 | the detail ignore set is exactly the ignored keys ∪ `TOP_KEYS` ∪ `META_KEYS`, with the default ignored keys when none are given |
| RestApi.PayloadIdentity | restapi_logging_handler/restapi_logging_handler.py:173-174 | `pid`/`tid` are always `p-<process>`/`t-<thread>`, defaulting to `nopid`/`notid`, on the fallback path too |
| RestApi.PayloadFallback | restapi_logging_handler/restapi_logging_handler.py:202-209 | when the message cannot be built or `exc_info` is missing, the payload is exactly `level=ERROR`, `message="could not format"`, `exception=repr(e)`, plus the ids |
| RestApi.PayloadTopKeys | restapi_logging_handler/restapi_logging_handler.py:176-200 | a formatted payload has exactly `meta`, `details`, `log`, `level`, `message`, `pid`, `tid`, and `traceback` only when there is one; `name` and `levelname` are gone |
| RestApi.BodyKeys | restapi_logging_handler/restapi_logging_handler.py:176-200 | the same key set before the ids are added |
| RestApi.PayloadTopValues | restapi_logging_handler/restapi_logging_handler.py:193-200 | `log`/`level` are the record's `name`/`levelname` or `n/a`; `message` is the formatted message; `traceback` is the formatted exception |
| RestApi.PayloadRenamedValues | restapi_logging_handler/restapi_logging_handler.py:193-194 | `log` and `level` are present and taken from `name` and `levelname`, defaulting to `n/a` |
| RestApi.PayloadMessageValues | restapi_logging_handler/restapi_logging_handler.py:197-200 | `message` holds `getMessage()`; `traceback` is present with the trace when `exc_info` is truthy and the trace non-empty |
| RestApi.RenamedTop | restapi_logging_handler/restapi_logging_handler.py:176-194 | after the renames the top level is exactly `meta`, `details`, `log`, `level`, with `log`/`level` from `name`/`levelname` |
| RestApi.FormattedBody | restapi_logging_handler/restapi_logging_handler.py:170-210 | when formatting succeeds, the payload is the renamed dictionary plus `message` and the optional `traceback`, then the two ids |
| RestApi.PayloadMeta | restapi_logging_handler/restapi_logging_handler.py:182-195 | `meta` holds only `created`/`funcName` as on the record plus `line` from `lineno` (or `n/a`); no `lineno` remains |
| RestApi.PayloadDetails | restapi_logging_handler/restapi_logging_handler.py:187-191 | `details` holds exactly the record keys outside the ignore set, other than `process` and `thread`; each value is `simple_json` of the record's value |
| RestApi.DetailsExcludePromotedKeys | restapi_logging_handler/restapi_logging_handler.py:143-146 | with the handler's detail ignore set, `details` shares no key with `TOP_KEYS` or `META_KEYS` |
| RestApi.GetPayload | restapi_logging_handler/restapi_logging_handler.py:165-210 | the stepwise in-place build pops `process` and `thread` from the record and returns exactly `PayloadOf` of the old attributes |
| RestApi.ContentTypeHeader | restapi_logging_handler/restapi_logging_handler.py:223-225 | the header is `application/json` if and only if the content type is `json`; it is `text/plain` otherwise |
| RestApi.PreparedRequest | restapi_logging_handler/restapi_logging_handler.py:220-225 | it fails if and only if the payload cannot be dumped; otherwise it returns the rendered JSON and the content-type header |
| RestApi.RestApiHandler.constructor | restapi_logging_handler/restapi_logging_handler.py:134-148 | the handler keeps the endpoint and content type; the ignored keys are the caller's set, or the default when it is absent or empty; the detail set is their union with the top and meta keys; no request is sent yet |
| RestApi.RestApiHandler.GetEndpoint | restapi_logging_handler/restapi_logging_handler.py:158-163 | the endpoint given at construction |
| RestApi.RestApiHandler.PrepPayload | restapi_logging_handler/restapi_logging_handler.py:212-225 | pops the ids from the record; the result is the prepared request for `PayloadOf` of the old attributes |
| RestApi.RestApiHandler.Emit | restapi_logging_handler/restapi_logging_handler.py:227-242 | `requests*` loggers are skipped with the record untouched; a record without a string name raises with the record untouched; any other record loses `process` and `thread`, and exactly one request to the endpoint is logged if and only if the payload can be dumped |
| Grouping.GroupedOrder | restapi_logging_handler/loggly_handler.py:145-161 | the nested dictionary lists processes in the order of their first records, and each process's threads in the order of their first records among that process's records; the nested loops visit them in that order |
| Grouping.GroupedPartitions | restapi_logging_handler/loggly_handler.py:145-158 | the nested dictionary has distinct keys at both levels; its groups partition the batch: one per distinct (pid, tid), each holding that pair's records in batch order, every record exactly once (same multiset) |
| Loggly.TagList.InsertFront | restapi_logging_handler/loggly_handler.py:100 | `list.insert(0, tag)` puts the tag before the old items |
| Loggly.TagList.Append | restapi_logging_handler/loggly_handler.py:76 | `list.append(tag)` puts the tag after the old items |
| Loggly.NormalizeTags | restapi_logging_handler/loggly_handler.py:99-100 | `bulk` is present, the old tags are kept at the end, and `bulk` occurs once more only when it was absent |
| Loggly.NormalizeTagsIdempotent | restapi_logging_handler/loggly_handler.py:99-100 | normalising twice is normalising once; `bulk` is never duplicated |
| Loggly.GetTags | restapi_logging_handler/loggly_handler.py:94-101 | a string is split at commas into a new normalised list; a list is normalised in place and returned; `None` raises |
| Loggly.TextTagsExample | restapi_logging_handler/tests/test_loggly_handler.py:98-102 | the text tags `tag1,tag2` become `bulk, tag1, tag2` |
| Loggly.ImplodeTags | restapi_logging_handler/loggly_handler.py:103-110 | the result is the static tags followed by `add_tags`, joined by commas; the stored tags are not changed |
| Loggly.ImplodeSplit | restapi_logging_handler/loggly_handler.py:103-110 | splitting the imploded tags at commas gives back the static and added tags when no tag has a comma |
| Loggly.GroupTags | restapi_logging_handler/loggly_handler.py:163 | a group's tag string is the static tag string, then `,pid,tid` |
| Loggly.EndpointShape | restapi_logging_handler/loggly_handler.py:112-120 | every bulk URL starts with `https://logs-01.loggly.com/bulk/` and ends with `/` |
| Loggly.EndpointSegments | restapi_logging_handler/loggly_handler.py:112-120 | split at `/`, the bulk URL is `https:`, ``, `logs-01.loggly.com`, `bulk`, token, `tag`, imploded tags, `` |
| Loggly.TextTagsEndpointExample | restapi_logging_handler/tests/test_loggly_handler.py:20-51 | token `LOGGLYKEY` with tags `bulk, tag1, tag2` gives tags `bulk,tag1,tag2` and the URL `https://logs-01.loggly.com/bulk/LOGGLYKEY/tag/bulk,tag1,tag2/` |
| Loggly.InstanceTag | restapi_logging_handler/loggly_handler.py:67-76 | the instance tag is the EC2 id, or `id_NA` when the request failed |
| Loggly.HandleResponse | restapi_logging_handler/loggly_handler.py:18-25 | 200 means delivered; otherwise it resubmits with `attempt + 1` if and only if `attempt <= max_attempts`, and gives up if and only if `attempt > max_attempts` |
| Loggly.RetryRun | restapi_logging_handler/loggly_handler.py:18-25 | a run of retries sends at least one and at most one more POST than there are responses, the first with the starting attempt (corrected resubmission) |
| Loggly.RetryRunAttempts | restapi_logging_handler/loggly_handler.py:20-22 | attempt numbers rise by one per POST; every POST before the last failed within the limit (corrected resubmission) |
| Loggly.RetryRunEnd | restapi_logging_handler/loggly_handler.py:18-25 | a run succeeds only on 200; it gives up only on a non-200 to an attempt past `max_attempts`, reporting that status; it is pending only when responses ran out (corrected resubmission) |
| Loggly.AlwaysFailing | restapi_logging_handler/loggly_handler.py:18-25 | against an always-failing transport, a group is sent exactly `Budget` times and then given up (corrected resubmission) |
| Loggly.FirstFlushSends | restapi_logging_handler/loggly_handler.py:18-25 | a batch first flushed with attempt 1 is sent `max_attempts + 1` times against an always-failing transport (corrected resubmission) |
| Loggly.FailOnceThenSucceed | restapi_logging_handler/loggly_handler.py:18-25 | one failure then 200: two POSTs, attempts 1 and 2, then success (corrected resubmission) |
| Loggly.PrepareItem | restapi_logging_handler/loggly_handler.py:146-158 | one grouping step fails for a string item; for a dict it fails if and only if the rest cannot be dumped or an id is unhashable; the ids default to `nopid`/`notid` |
| Loggly.Prepared | restapi_logging_handler/loggly_handler.py:146-158 | the grouping loop gets through if and only if every item prepares, and then yields the prepared entries in batch order |
| Loggly.GroupPost | restapi_logging_handler/loggly_handler.py:160-169 | a group's POST body is its records joined by `,`, sent as `application/json` to the URL tagged with the static tags plus pid and tid; it carries the attempt and the records |
| Loggly.Posts | restapi_logging_handler/loggly_handler.py:160-169 | one POST per group |
| Loggly.PostsAt | restapi_logging_handler/loggly_handler.py:160-169 | the i-th POST is the POST for the i-th group |
| Loggly.Records | restapi_logging_handler/loggly_handler.py:141-142 | the buffer becomes the batch element by element |
| Loggly.Resubmitted | restapi_logging_handler/loggly_handler.py:22 | the serialized records handed back to `flush` become the batch element by element |
| Loggly.DispatchPostable | restapi_logging_handler/loggly_handler.py:160-169 | with only string ids, the posting loops post once per group in order and do not raise |
| Loggly.DispatchStops | restapi_logging_handler/loggly_handler.py:160-169 | the loops raise at the first group with a non-string id, after posting exactly the groups before it |
| Loggly.DispatchAppend | restapi_logging_handler/loggly_handler.py:160-169 | running the loops over two runs of groups reaches the second run only when the first did not raise |
| Loggly.RetriedBatchRaises | restapi_logging_handler/loggly_handler.py:22 | a resubmitted non-empty group makes `flush` raise before posting anything |
| Loggly.FlushRaisesOnlyOnDump | restapi_logging_handler/loggly_handler.py:140-169 | flushing buffered records with string ids raises if and only if one of them cannot be dumped |
| Loggly.StringIdsPostable | restapi_logging_handler/loggly_handler.py:160-164 | groups built from records with string ids all have string ids |
| Loggly.FlushPartitionsBatch | restapi_logging_handler/loggly_handler.py:140-169 | a dumpable buffer with string ids gets exactly one POST per distinct (pid, tid) pair, processes in the order of their first records and each process's threads in the order of theirs, each POST carrying that pair's records in order; every record is posted once and nothing is raised |
| Loggly.OneThreadOneGroup | restapi_logging_handler/loggly_handler.py:145-169 | records from one thread of one process go out as one group with all of them in order |
| Loggly.GroupBatch | restapi_logging_handler/loggly_handler.py:145-158 | the grouping loop fails if and only if some item cannot be prepared; otherwise it builds exactly the nested dictionary `Grouped` of the prepared entries |
| Loggly.LogglyPayload | restapi_logging_handler/loggly_handler.py:131-138 | the Loggly payload is the generic payload plus `tags`, the comma-joined static tags, with the prefixed ids |
| Loggly.Session.Send | restapi_logging_handler/loggly_handler.py:166-169 | a POST is appended to the session's log |
| Loggly.LogglyHandler.constructor | restapi_logging_handler/loggly_handler.py:78-84 | the endpoint is built from the current tags; the default ignore sets are used; the buffer is empty; one timer is started and one exit hook registered |
| Loggly.LogglyHandler.GetPayload | restapi_logging_handler/loggly_handler.py:122-138 | pops the ids from the record and returns `LogglyPayload` of the old attributes |
| Loggly.LogglyHandler.Emit | restapi_logging_handler/loggly_handler.py:171-188 | after a fork the buffer is emptied, the pid updated, and a new timer and exit hook added; `requests*` records are dropped; a record without a string name raises; otherwise exactly one payload is appended at the end; buffered ids stay strings |
| Loggly.LogglyHandler.ResetAfterFork | restapi_logging_handler/loggly_handler.py:177-182 | the new pid is adopted, the buffer dropped, and one more timer and exit hook set up |
| Loggly.LogglyHandler.Buffer | restapi_logging_handler/loggly_handler.py:184-188 | `requests*` records are dropped untouched; a record without a string name raises; any other record's Loggly payload is appended |
| Loggly.LogglyHandler.Flush | restapi_logging_handler/loggly_handler.py:140-169 | with no batch, the buffer is taken whole and left empty; the session log grows by exactly the POSTs `FlushOutcome` gives, and it raises exactly when that says so; an empty batch posts nothing |
| Loggly.LogglyHandler.PostGroups | restapi_logging_handler/loggly_handler.py:160-169 | the outer posting loop appends exactly `Dispatch` of all groups and raises as it says |
| Loggly.LogglyHandler.PostThreads | restapi_logging_handler/loggly_handler.py:161-169 | the inner posting loop appends exactly `Dispatch` of one process's groups and raises as it says |
| Loggly.LogglyHandler.OnResponse | restapi_logging_handler/loggly_handler.py:18-25 | corrected callback: on 200 nothing; a failure within the budget resends the same POST with the next attempt; after the budget one report is made |
| Loggly.LogglyHandler.HandleResponseAsWritten | restapi_logging_handler/loggly_handler.py:18-25 | callback as written: nothing is ever resent; a resubmission raises exactly when the group is non-empty; after the budget one report is made |
| Loggly.LogglyHandler.StopFlushTimer | restapi_logging_handler/loggly_handler.py:90-92 | the timer is marked stopped and the whole buffer is flushed with attempt 1, leaving it empty |
| Loggly.NewLogglyHandler | restapi_logging_handler/loggly_handler.py:53-84 | `app_tags=None` raises; otherwise the tags are normalised, followed by the instance tag when `aws_tag` is set; the endpoint is built from them; the handler starts empty with one running timer and one exit hook |

## Left out

- **HTTP transport.** `FuturesSession.post` and its background thread pool are not modelled. A POST is an entry appended to a log (`RestApiHandler.requests`, `Session.posts`), and a response is delivered by calling `LogglyHandler.OnResponse`.
- **`handleError`.** The call in `RestApiHandler.emit` is not modelled, because the modelled POST never raises.
- **The flush timer.** `setInterval`, the timer thread and `threading.Event` become a count of timers started and a stopped flag: they are threads and wall-clock waits.
- **Concurrency.** The race between the timer's `flush` and `emit` is not modelled: every operation is sequential.
- **`atexit`.** It is a count of registered exit hooks. `_stopFlushTimer` is modelled as what one hook run does.
- **JSON text.** Dafny has no `json.dumps`, so the text it renders is a parameter (`Runtime.render`). The model does not cover key order, escaping or number formatting.
- **`str()` of floats, lists, dicts and objects.** It is a parameter (`Runtime.strOf`). `str()` of `None`, booleans, integers, strings, datetimes and UUIDs is modelled.
- **`record.getMessage()`.** Its %-formatting is not modelled: the record carries its message, or the exception that building it raises.
- **`traceback.format_exc()`.** It is a parameter.
- **`os.getpid()` and the EC2 metadata request.** Both are parameters. The stderr line printed when the metadata request fails is not modelled.
- **Dictionary order.** It is dropped everywhere except the `pids` dictionary of `flush`, whose order decides the POST order.
- **Cycles and non-string keys.** `Value` is a finite datatype whose dictionaries have string keys, so the circular references (`ValueError`) and unsupported dictionary keys (`TypeError`) that make `json.dumps` raise are not modelled; `EncodeFailsIff` holds for acyclic, string-keyed values only.
- **Key equality.** Python's equality across types (`1 == 1.0 == True` as dictionary keys) is not modelled: ids are equal when they are the same value.
- **Float `max_attempts`.** It is modelled as an integer. The tests pass `0.01`; with an integer, the only difference is how many retries the comparison allows.
- **Retry tests.** The retry-count tests in `tests/test_loggly_handler.py:109-178` call a method signature the handler does not have, so no property is taken from them.
- **`setup.py`.** It is packaging only.
- **Loggly.LogglyHandler.HandleResponseAsWritten:** the stderr text of a final failure is kept as the status and the response content, not as the printed line.
- **Loggly.LogglyHandler.constructor:** `self.timer = None` followed by the timer start is collapsed into one started timer.

## Findings

| source | as written | input that shows it | evidently intended | confidence | as-written member | corrected member |
|---|---|---|---|---|---|---|
| restapi_logging_handler/loggly_handler.py:18-22 with :147 | `handle_response` passes the group's list of already-serialized strings back to `flush`, whose grouping loop calls `d.pop('pid', 'nopid')` on each element, so the resubmission raises AttributeError and nothing is resent | any failed POST (status 500) of a non-empty group with `attempt <= max_attempts` | resend the same group's records to the same URL with `attempt + 1` | not executed | Loggly.LogglyHandler.HandleResponseAsWritten (with Loggly.RetriedBatchRaises) | Loggly.LogglyHandler.OnResponse (with Loggly.RetryRunAttempts, Loggly.RetryRunEnd, Loggly.AlwaysFailing, Loggly.FirstFlushSends, Loggly.FailOnceThenSucceed) |
