/** The generic REST handler (restapi_logging_handler/restapi_logging_handler.py):
    the key sets, the payload a log record becomes, and a handler that POSTs
    one payload per record. */
module RestApi {
  import opened Wrappers
  import opened Strings
  import opened Serialization

  /** Record attributes that never reach `details` unless the caller supplies
      its own ignore set. */
  const DefaultIgnoredKeys: set<string> := {
    "process", "thread", "levelno", "pathname", "module", "filename",
    "funcName", "asctime", "msecs", "processName", "relativeCreated",
    "threadName", "stack_info", "exc_info", "exc_text", "args", "msg"
  }

  /** Record attributes copied into the `meta` sub-dictionary. */
  const MetaKeys: set<string> := {"created", "funcName", "lineno"}

  /** Record attributes copied to the top level of the payload (then renamed). */
  const TopKeys: set<string> := {"levelname", "name"}

  /** The placeholder for a missing logger name, level or line number. */
  const NotAvailable: Value := Str("n/a")

  /** `repr()` of the AttributeError a record without `exc_info` raises. */
  const NoExcInfoRepr: string := MissingAttributeRepr("LogRecord", "exc_info")

  /** `repr()` of the AttributeError raised when an object of class `cls` has
      no attribute `attr`. */
  function MissingAttributeRepr(cls: string, attr: string): string
  {
    "AttributeError(\"'" + cls + "' object has no attribute '" + attr + "'\")"
  }

  /** A log record: its attribute dictionary `__dict__`, which `_getPayload`
      changes, and what `getMessage()` does (the %-formatting of `msg` with
      `args` is not modelled). */
  class LogRecord {
    var attrs: map<string, Value>
    const message: Result<string>

    constructor (attrs: map<string, Value>, message: Result<string>)
      ensures this.attrs == attrs && this.message == message
    {
      this.attrs := attrs;
      this.message := message;
    }
  }

  /** `d.get(k, default)`, which is also the value `d.pop(k, default)` returns. */
  function Lookup(d: map<string, Value>, k: string, default: Value): Value
  {
    if k in d then d[k] else default
  }

  /** `record.name` where it can be used with `startswith`; None when the
      attribute is missing or not a string (the access raises). */
  function NameOf(attrs: map<string, Value>): Option<string>
  {
    if "name" in attrs && attrs["name"].Str? then Some(attrs["name"].s) else None
  }

  /** The `ignored_record_keys` a handler keeps: the caller's set, or the
      default when none (or an empty, hence falsy, set) is given. */
  function IgnoredRecordKeys(ignored: Option<set<string>>): set<string>
  {
    if ignored.Some? && ignored.value != {} then ignored.value else DefaultIgnoredKeys
  }

  /** `detail_ignore_set`: the ignored keys together with the top-level and
      meta keys, so that neither kind is ever repeated under `details`. */
  function DetailIgnoreSet(ignored: Option<set<string>>): (r: set<string>)
    ensures TopKeys <= r && MetaKeys <= r && IgnoredRecordKeys(ignored) <= r
    ensures forall k :: k in r ==> k in IgnoredRecordKeys(ignored) || k in TopKeys || k in MetaKeys
    ensures ignored.None? ==> r == DefaultIgnoredKeys + {"lineno", "created", "levelname", "name"}
  {
    IgnoredRecordKeys(ignored) + (TopKeys + MetaKeys)
  }

  /** `_getTraceback`: the formatted current exception when the record's
      `exc_info` is truthy. `excTrace` is what `traceback.format_exc()` returns. */
  function Traceback(excInfo: Value, excTrace: string): Option<string>
  {
    if Truthy(excInfo) then Some(excTrace) else None
  }

  /** The payload `_getPayload` returns when building it raised. */
  function FallbackPayload(exception: string): map<string, Value>
  {
    map["level" := Str("ERROR"), "message" := Str("could not format"), "exception" := Str(exception)]
  }

  /** The dictionary `_getPayload` builds from the record dictionary `d` (after
      `process` and `thread` were popped) up to the message: the top-level keys,
      `meta` and `details`, then `name`, `levelname` and `lineno` renamed to
      `log`, `level` and `line`. */
  function Renamed(d: map<string, Value>, ignoreSet: set<string>, rt: Runtime): map<string, Value>
  {
    var top := map k | k in d && k in TopKeys :: d[k];
    var meta := map k | k in d && k in MetaKeys :: d[k];
    var details := Details(d, ignoreSet, rt);
    var parts := top["meta" := Dict(meta)]["details" := Dict(details)];
    var withLog := (parts - {"name"})["log" := Lookup(parts, "name", NotAvailable)];
    var withLevel := (withLog - {"levelname"})["level" := Lookup(withLog, "levelname", NotAvailable)];
    var line := (meta - {"lineno"})["line" := Lookup(meta, "lineno", NotAvailable)];
    withLevel["meta" := Dict(line)]
  }

  /** `details`: every record attribute outside the ignore set, passed
      through `simple_json`. */
  function Details(d: map<string, Value>, ignoreSet: set<string>, rt: Runtime): map<string, Value>
  {
    map k | k in d && k !in ignoreSet :: Str(SimpleJson(d[k], rt))
  }

  /** The body of `_getPayload`'s `try` block, on the record dictionary after
      `process` and `thread` were popped; Raised when it raises. */
  function FormattedPayload(d: map<string, Value>, message: Result<string>, excTrace: string,
                            ignoreSet: set<string>, rt: Runtime): Result<map<string, Value>>
  {
    match message
    case Raised(e) => Raised(e)
    case Ok(text) =>
      var withMessage := Renamed(d, ignoreSet, rt)["message" := Str(text)];
      if "exc_info" !in d then Raised(NoExcInfoRepr)
      else
        var tb := Traceback(d["exc_info"], excTrace);
        if tb.Some? && tb.value != "" then Ok(withMessage["traceback" := Str(tb.value)])
        else Ok(withMessage)
  }

  /** The payload `_getPayload` builds from a record whose attribute dictionary
      was `attrs`: the formatted payload, or the fallback when formatting
      raised, and in both cases the prefixed process and thread ids. */
  function PayloadOf(attrs: map<string, Value>, message: Result<string>, excTrace: string,
                     ignoreSet: set<string>, rt: Runtime): map<string, Value>
  {
    var pid := Lookup(attrs, "process", Str("nopid"));
    var tid := Lookup(attrs, "thread", Str("notid"));
    var d := attrs - {"process", "thread"};
    var body :=
      match FormattedPayload(d, message, excTrace, ignoreSet, rt)
      case Ok(p) => p
      case Raised(e) => FallbackPayload(e);
    body["pid" := Str("p-" + FormatValue(pid, rt))]["tid" := Str("t-" + FormatValue(tid, rt))]
  }

  /** Whether `_getPayload` gets through its `try` block for this record. */
  predicate Formats(attrs: map<string, Value>, message: Result<string>)
  {
    message.Ok? && "exc_info" in attrs
  }

  /** `pid` and `tid` are always set, prefixed `p-` and `t-`, with `nopid` and
      `notid` standing in for a missing process or thread, on the fallback path too. */
  lemma PayloadIdentity(attrs: map<string, Value>, message: Result<string>, excTrace: string,
                        ignoreSet: set<string>, rt: Runtime)
    ensures var r := PayloadOf(attrs, message, excTrace, ignoreSet, rt);
      && "pid" in r && r["pid"].Str? && StartsWith(r["pid"].s, "p-")
      && "tid" in r && r["tid"].Str? && StartsWith(r["tid"].s, "t-")
      && ("process" !in attrs ==> r["pid"] == Str("p-nopid"))
      && ("thread" !in attrs ==> r["tid"] == Str("t-notid"))
      && ("process" in attrs ==> r["pid"] == Str("p-" + FormatValue(attrs["process"], rt)))
      && ("thread" in attrs ==> r["tid"] == Str("t-" + FormatValue(attrs["thread"], rt)))
  {
  }

  /** When formatting raises (the message cannot be built, or the record has no
      `exc_info`), the payload is the fixed `could not format` one plus the ids. */
  lemma PayloadFallback(attrs: map<string, Value>, message: Result<string>, excTrace: string,
                        ignoreSet: set<string>, rt: Runtime)
    requires !Formats(attrs, message)
    ensures var r := PayloadOf(attrs, message, excTrace, ignoreSet, rt);
      && r.Keys == {"level", "message", "exception", "pid", "tid"}
      && r["level"] == Str("ERROR") && r["message"] == Str("could not format")
      && r["exception"] == Str(if message.Raised? then message.exception else NoExcInfoRepr)
  {
  }

  /** A formatted payload has exactly these top-level keys: `log` and `level`
      (renamed from `name` and `levelname`, which are gone), `meta`, `details`,
      `message`, the ids, and `traceback` only when there is one. */
  lemma PayloadTopKeys(attrs: map<string, Value>, message: Result<string>, excTrace: string,
                       ignoreSet: set<string>, rt: Runtime)
    requires Formats(attrs, message)
    ensures var r := PayloadOf(attrs, message, excTrace, ignoreSet, rt);
      var hasTrace := Truthy(attrs["exc_info"]) && excTrace != "";
      && r.Keys == {"meta", "details", "log", "level", "message", "pid", "tid"} + (if hasTrace then {"traceback"} else {})
      && "name" !in r && "levelname" !in r
  {
    var body := FormattedBody(attrs, message, excTrace, ignoreSet, rt);
    BodyKeys(attrs, message, excTrace, ignoreSet, rt, body);
  }

  /** The keys of the formatted payload before the ids are added. */
  lemma BodyKeys(attrs: map<string, Value>, message: Result<string>, excTrace: string,
                 ignoreSet: set<string>, rt: Runtime, body: map<string, Value>)
    requires Formats(attrs, message)
    requires var d := attrs - {"process", "thread"};
      var withMessage := Renamed(d, ignoreSet, rt)["message" := Str(message.value)];
      body == if Truthy(attrs["exc_info"]) && excTrace != "" then withMessage["traceback" := Str(excTrace)]
              else withMessage
    ensures body.Keys == {"meta", "details", "log", "level", "message"}
                         + (if Truthy(attrs["exc_info"]) && excTrace != "" then {"traceback"} else {})
  {
    var d := attrs - {"process", "thread"};
    RenamedTop(d, ignoreSet, rt);
  }

  /** In a formatted payload `log` and `level` are the record's `name` and
      `levelname` (or `n/a`), `message` is the formatted message, and
      `traceback`, when present, the formatted exception. */
  lemma PayloadTopValues(attrs: map<string, Value>, message: Result<string>, excTrace: string,
                         ignoreSet: set<string>, rt: Runtime)
    requires Formats(attrs, message)
    ensures var r := PayloadOf(attrs, message, excTrace, ignoreSet, rt);
      var hasTrace := Truthy(attrs["exc_info"]) && excTrace != "";
      && r["log"] == Lookup(attrs, "name", NotAvailable)
      && r["level"] == Lookup(attrs, "levelname", NotAvailable)
      && r["message"] == Str(message.value)
      && (hasTrace ==> r["traceback"] == Str(excTrace))
  {
    PayloadTopKeys(attrs, message, excTrace, ignoreSet, rt);
    PayloadRenamedValues(attrs, message, excTrace, ignoreSet, rt);
    PayloadMessageValues(attrs, message, excTrace, ignoreSet, rt);
  }

  /** `log` and `level` of a formatted payload. */
  lemma PayloadRenamedValues(attrs: map<string, Value>, message: Result<string>, excTrace: string,
                             ignoreSet: set<string>, rt: Runtime)
    requires Formats(attrs, message)
    ensures var r := PayloadOf(attrs, message, excTrace, ignoreSet, rt);
      && "log" in r && r["log"] == Lookup(attrs, "name", NotAvailable)
      && "level" in r && r["level"] == Lookup(attrs, "levelname", NotAvailable)
  {
    var d := attrs - {"process", "thread"};
    var renamed := Renamed(d, ignoreSet, rt);
    RenamedTop(d, ignoreSet, rt);
    var body := FormattedBody(attrs, message, excTrace, ignoreSet, rt);
    assert body["log"] == renamed["log"] && body["level"] == renamed["level"];
    assert Lookup(d, "name", NotAvailable) == Lookup(attrs, "name", NotAvailable);
    assert Lookup(d, "levelname", NotAvailable) == Lookup(attrs, "levelname", NotAvailable);
  }

  /** The formatted payload before the ids are added, when formatting succeeds. */
  lemma FormattedBody(attrs: map<string, Value>, message: Result<string>, excTrace: string,
                      ignoreSet: set<string>, rt: Runtime) returns (body: map<string, Value>)
    requires Formats(attrs, message)
    ensures var d := attrs - {"process", "thread"};
      var withMessage := Renamed(d, ignoreSet, rt)["message" := Str(message.value)];
      && body == (if Truthy(attrs["exc_info"]) && excTrace != "" then withMessage["traceback" := Str(excTrace)]
                  else withMessage)
      && PayloadOf(attrs, message, excTrace, ignoreSet, rt)
         == body["pid" := Str("p-" + FormatValue(Lookup(attrs, "process", Str("nopid")), rt))]
                ["tid" := Str("t-" + FormatValue(Lookup(attrs, "thread", Str("notid")), rt))]
  {
    var d := attrs - {"process", "thread"};
    assert d["exc_info"] == attrs["exc_info"];
    var withMessage := Renamed(d, ignoreSet, rt)["message" := Str(message.value)];
    body := if Truthy(attrs["exc_info"]) && excTrace != "" then withMessage["traceback" := Str(excTrace)]
            else withMessage;
    assert FormattedPayload(d, message, excTrace, ignoreSet, rt) == Ok(body);
  }

  /** `message` and `traceback` of a formatted payload. */
  lemma PayloadMessageValues(attrs: map<string, Value>, message: Result<string>, excTrace: string,
                             ignoreSet: set<string>, rt: Runtime)
    requires Formats(attrs, message)
    ensures var r := PayloadOf(attrs, message, excTrace, ignoreSet, rt);
      var hasTrace := Truthy(attrs["exc_info"]) && excTrace != "";
      && "message" in r && r["message"] == Str(message.value)
      && (hasTrace ==> "traceback" in r && r["traceback"] == Str(excTrace))
  {
    var body := FormattedBody(attrs, message, excTrace, ignoreSet, rt);
  }

  /** After the renames the top level holds exactly `meta`, `details`, `log`
      and `level`, the last two taken from `name` and `levelname`. */
  lemma RenamedTop(d: map<string, Value>, ignoreSet: set<string>, rt: Runtime)
    ensures var r := Renamed(d, ignoreSet, rt);
      && r.Keys == {"meta", "details", "log", "level"}
      && r["log"] == Lookup(d, "name", NotAvailable)
      && r["level"] == Lookup(d, "levelname", NotAvailable)
  {
    var top := map k | k in d && k in TopKeys :: d[k];
    var meta := map k | k in d && k in MetaKeys :: d[k];
    var details := Details(d, ignoreSet, rt);
    var parts := top["meta" := Dict(meta)]["details" := Dict(details)];
    assert parts.Keys == top.Keys + {"meta", "details"};
    assert Lookup(parts, "name", NotAvailable) == Lookup(d, "name", NotAvailable);
    var withLog := (parts - {"name"})["log" := Lookup(parts, "name", NotAvailable)];
    assert withLog.Keys == (top.Keys - {"name"}) + {"meta", "details", "log"};
    assert Lookup(withLog, "levelname", NotAvailable) == Lookup(d, "levelname", NotAvailable);
  }

  /** `meta` holds only `created` and `funcName` as found on the record, plus
      `line` taken from `lineno` (or `n/a`); no `lineno` key remains. */
  lemma PayloadMeta(attrs: map<string, Value>, message: Result<string>, excTrace: string,
                    ignoreSet: set<string>, rt: Runtime)
    requires Formats(attrs, message)
    ensures var r := PayloadOf(attrs, message, excTrace, ignoreSet, rt);
      && r["meta"].Dict?
      && var meta := r["meta"].entries;
      && meta.Keys == {"line"} + (attrs.Keys * {"created", "funcName"})
      && "lineno" !in meta
      && meta["line"] == Lookup(attrs, "lineno", NotAvailable)
      && (forall k :: k in meta && k != "line" ==> meta[k] == attrs[k])
  {
    var d := attrs - {"process", "thread"};
    var meta := map k | k in d && k in MetaKeys :: d[k];
    var line := (meta - {"lineno"})["line" := Lookup(meta, "lineno", NotAvailable)];
    assert line.Keys == {"line"} + (attrs.Keys * {"created", "funcName"});
  }

  /** `details` holds exactly the record keys outside the ignore set (and other
      than the popped `process` and `thread`), each passed through `simple_json`. */
  lemma PayloadDetails(attrs: map<string, Value>, message: Result<string>, excTrace: string,
                       ignoreSet: set<string>, rt: Runtime)
    requires Formats(attrs, message)
    ensures var r := PayloadOf(attrs, message, excTrace, ignoreSet, rt);
      && r["details"].Dict?
      && var details := r["details"].entries;
      && details.Keys == attrs.Keys - ignoreSet - {"process", "thread"}
      && (forall k :: k in details ==> details[k] == Str(SimpleJson(attrs[k], rt)))
  {
  }

  /** With a handler's `detail_ignore_set`, `details` never repeats a key that
      is promoted to the top level or to `meta`. */
  lemma DetailsExcludePromotedKeys(attrs: map<string, Value>, message: Result<string>, excTrace: string,
                                   ignored: Option<set<string>>, rt: Runtime)
    requires Formats(attrs, message)
    ensures var r := PayloadOf(attrs, message, excTrace, DetailIgnoreSet(ignored), rt);
      && r["details"].Dict?
      && r["details"].entries.Keys !! (TopKeys + MetaKeys)
  {
    PayloadDetails(attrs, message, excTrace, DetailIgnoreSet(ignored), rt);
  }

  /** `_getPayload`: pops `process` and `thread` out of the record's own
      dictionary, then builds the payload step by step, renaming in place. */
  method GetPayload(record: LogRecord, ignoreSet: set<string>, excTrace: string, rt: Runtime)
    returns (payload: map<string, Value>)
    modifies record
    ensures record.attrs == old(record.attrs) - {"process", "thread"}
    ensures payload == PayloadOf(old(record.attrs), record.message, excTrace, ignoreSet, rt)
  {
    var d := record.attrs;
    var pid := Lookup(d, "process", Str("nopid"));
    d := d - {"process"};
    var tid := Lookup(d, "thread", Str("notid"));
    d := d - {"thread"};
    record.attrs := d;
    assert d == old(record.attrs) - {"process", "thread"};

    var failure: Option<string> := None;
    payload := map k | k in d && k in TopKeys :: d[k];
    var meta := map k | k in d && k in MetaKeys :: d[k];
    payload := payload["meta" := Dict(meta)];
    payload := payload["details" := Dict(map k | k in d && k !in ignoreSet :: Str(SimpleJson(d[k], rt)))];
    var log := Lookup(payload, "name", NotAvailable);
    payload := (payload - {"name"})["log" := log];
    var level := Lookup(payload, "levelname", NotAvailable);
    payload := (payload - {"levelname"})["level" := level];
    var line := Lookup(meta, "lineno", NotAvailable);
    meta := (meta - {"lineno"})["line" := line];
    payload := payload["meta" := Dict(meta)];
    match record.message {
      case Raised(e) =>
        failure := Some(e);
      case Ok(text) =>
        payload := payload["message" := Str(text)];
        if "exc_info" !in d {
          failure := Some(NoExcInfoRepr);
        } else {
          var tb := Traceback(d["exc_info"], excTrace);
          if tb.Some? && tb.value != "" {
            payload := payload["traceback" := Str(tb.value)];
          }
        }
    }
    if failure.Some? {
      payload := FallbackPayload(failure.value);
    }
    payload := payload["pid" := Str("p-" + FormatValue(pid, rt))];
    payload := payload["tid" := Str("t-" + FormatValue(tid, rt))];
  }

  /** The `content-type` header `_prepPayload` pairs with the JSON text. */
  function ContentTypeHeader(contentType: string): (header: string)
    ensures header == "application/json" <==> contentType == "json"
    ensures header == "text/plain" <==> contentType != "json"
  {
    if contentType == "json" then "application/json" else "text/plain"
  }

  /** `_prepPayload` on a built payload: its JSON text and the header, or None
      when `json.dumps` raises. */
  function PreparedRequest(payload: map<string, Value>, contentType: string, rt: Runtime): (r: Option<(string, string)>)
    ensures r.None? <==> Unencodable(Dict(payload))
    ensures r.Some? ==> (Encode(Dict(payload)).Some? && r.value.0 == rt.render(Encode(Dict(payload)).value)
                         && r.value.1 == ContentTypeHeader(contentType))
  {
    EncodeFailsIff(Dict(payload));
    match Encode(Dict(payload))
    case None => None
    case Some(j) => Some((rt.render(j), ContentTypeHeader(contentType)))
  }

  /** One HTTP POST the generic handler issues. */
  datatype Request = Request(url: string, data: string, contentType: string)

  /** What `emit` did with a record. */
  datatype EmitResult = Skipped | Posted | Failed

  /** `RestApiHandler`: POSTs each record's payload to a fixed endpoint. The
      HTTP session is represented by the log of requests it was asked to send. */
  class RestApiHandler {
    const endpoint: string
    const contentType: string
    const ignoredRecordKeys: set<string>
    const detailIgnoreSet: set<string>
    const rt: Runtime
    var requests: seq<Request>

    /** `RestApiHandler(endpoint, content_type, ignored_record_keys)`. */
    constructor (endpoint: string, contentType: string, ignored: Option<set<string>>, rt: Runtime)
      ensures this.endpoint == endpoint && this.contentType == contentType && this.rt == rt
      ensures ignoredRecordKeys == IgnoredRecordKeys(ignored)
      ensures detailIgnoreSet == ignoredRecordKeys + TopKeys + MetaKeys
      ensures requests == []
    {
      this.endpoint := endpoint;
      this.contentType := contentType;
      this.rt := rt;
      ignoredRecordKeys := IgnoredRecordKeys(ignored);
      detailIgnoreSet := DetailIgnoreSet(ignored);
      requests := [];
    }

    /** `_getEndpoint`: the endpoint given at construction. */
    function GetEndpoint(): (url: string)
      ensures url == endpoint
    {
      endpoint
    }

    /** `_prepPayload`: builds the payload (changing the record as `_getPayload`
      does) and returns its JSON text with the header; None when dumping raises. */
    method PrepPayload(record: LogRecord, excTrace: string) returns (r: Option<(string, string)>)
      modifies record
      ensures record.attrs == old(record.attrs) - {"process", "thread"}
      ensures r == PreparedRequest(PayloadOf(old(record.attrs), record.message, excTrace, detailIgnoreSet, rt),
                                   contentType, rt)
    {
      var payload := GetPayload(record, detailIgnoreSet, excTrace, rt);
      r := PreparedRequest(payload, contentType, rt);
    }

    /** `emit`: records of the HTTP library's own loggers (names starting with
        `requests`) are dropped; any other record is POSTed to the endpoint.
        A record without a string name, or whose payload cannot be dumped,
        makes `emit` raise (Failed) before anything is sent. */
    method Emit(record: LogRecord, excTrace: string) returns (result: EmitResult)
      modifies this, record
      ensures NameOf(old(record.attrs)).None? ==> result == Failed && record.attrs == old(record.attrs)
      ensures NameOf(old(record.attrs)).Some? && !StartsWith(NameOf(old(record.attrs)).value, "requests")
              ==> record.attrs == old(record.attrs) - {"process", "thread"}
      ensures NameOf(old(record.attrs)).Some? && StartsWith(NameOf(old(record.attrs)).value, "requests")
              ==> result == Skipped && record.attrs == old(record.attrs)
      ensures result != Posted ==> requests == old(requests)
      ensures result == Posted <==>
                NameOf(old(record.attrs)).Some? && !StartsWith(NameOf(old(record.attrs)).value, "requests")
                && !Unencodable(Dict(PayloadOf(old(record.attrs), record.message, excTrace, detailIgnoreSet, rt)))
      ensures result == Posted ==>
                var prepared := PreparedRequest(PayloadOf(old(record.attrs), record.message, excTrace, detailIgnoreSet, rt),
                                                contentType, rt).value;
                requests == old(requests) + [Request(endpoint, prepared.0, prepared.1)]
    {
      var name := NameOf(record.attrs);
      if name.None? {
        return Failed;
      }
      if StartsWith(name.value, "requests") {
        return Skipped;
      }
      var prepared := PrepPayload(record, excTrace);
      if prepared.None? {
        return Failed;
      }
      requests := requests + [Request(GetEndpoint(), prepared.value.0, prepared.value.1)];
      result := Posted;
    }
  }
}
