/** The Loggly handler (restapi_logging_handler/loggly_handler.py): tag
    normalisation, the bulk endpoint, the buffer `emit` fills and `flush`
    drains in one POST per (process, thread) group, and the retry rule for a
    failed POST. The HTTP session is represented by the log of POSTs it was
    asked to send; the timer thread and the exit hook by counters. */
module Loggly {
  import opened Wrappers
  import opened Strings
  import opened Serialization
  import opened RestApi
  import opened Grouping

  /** The tag Loggly's bulk endpoint expects first. */
  const BulkTag: string := "bulk"

  /** Everything before the customer token in a bulk URL. */
  const BulkUrlPrefix: string := "https://logs-01.loggly.com/bulk/"

  /** The tag used when the EC2 instance id cannot be fetched. */
  const NoInstanceId: string := "id_NA"

  /** The content type of every bulk POST. */
  const JsonHeader: string := "application/json"

  /** The only HTTP status `handle_response` treats as delivered. */
  const StatusOk: int := 200

  // ---------------------------------------------------------------- tags

  /** A Python list of tag strings: `_getTags` and `__init__` change it in
      place, and the handler keeps a reference to it. */
  class TagList {
    var items: seq<string>

    constructor (items: seq<string>)
      ensures this.items == items
    {
      this.items := items;
    }

    /** `list.insert(0, tag)`. */
    method InsertFront(tag: string)
      modifies this
      ensures items == [tag] + old(items)
    {
      items := [tag] + items;
    }

    /** `list.append(tag)`. */
    method Append(tag: string)
      modifies this
      ensures items == old(items) + [tag]
    {
      items := items + [tag];
    }
  }

  /** The `app_tags` argument: a comma-separated string, a list object, or
      `None` (the default). */
  datatype TagsArg = TagText(text: string) | TagObjects(list: TagList) | NoTags

  /** The tags `_getTags` leaves: `bulk` in front unless it is already there. */
  function NormalizeTags(tags: seq<string>): (r: seq<string>)
    ensures BulkTag in r
    ensures |r| == |tags| || r == [BulkTag] + tags
    ensures multiset(r)[BulkTag] == if BulkTag in tags then multiset(tags)[BulkTag] else 1
    ensures r[|r| - |tags|..] == tags
  {
    if BulkTag in tags then tags else [BulkTag] + tags
  }

  /** Normalising twice adds nothing: `bulk` is never duplicated. */
  lemma NormalizeTagsIdempotent(tags: seq<string>)
    ensures NormalizeTags(NormalizeTags(tags)) == NormalizeTags(tags)
    ensures multiset(NormalizeTags(NormalizeTags(tags)))[BulkTag] == multiset(NormalizeTags(tags))[BulkTag]
  {
  }

  /** `_getTags`: a string is split at commas into a new list; a list is
      changed in place and returned itself; `None` makes the `in` test raise. */
  method GetTags(arg: TagsArg) returns (r: Option<TagList>)
    modifies if arg.TagObjects? then {arg.list} else {}
    ensures arg.NoTags? <==> r.None?
    ensures arg.TagText? ==> r.Some? && fresh(r.value) && r.value.items == NormalizeTags(Split(arg.text, ','))
    ensures arg.TagObjects? ==> r == Some(arg.list) && arg.list.items == NormalizeTags(old(arg.list.items))
  {
    var tags: TagList;
    match arg {
      case NoTags =>
        return None;
      case TagText(text) =>
        tags := new TagList(Split(text, ','));
      case TagObjects(list) =>
        tags := list;
    }
    if BulkTag !in tags.items {
      tags.InsertFront(BulkTag);
    }
    r := Some(tags);
  }

  /** `_implodeTags`: the static tags, then `add_tags` when there are any,
      joined by commas. */
  function ImplodeTags(tags: seq<string>, addTags: seq<string>): (r: string)
    ensures r == Join(tags + addTags, ',')
  {
    if |addTags| > 0 then Join(tags + addTags, ',')
    else
      assert tags + addTags == tags;
      Join(tags, ',')
  }

  /** The imploded tags split back at commas into the tags and the added
      tags, when no tag contains a comma. */
  lemma ImplodeSplit(tags: seq<string>, addTags: seq<string>)
    requires |tags + addTags| >= 1
    requires forall i :: 0 <= i < |tags + addTags| ==> ',' !in (tags + addTags)[i]
    ensures Split(ImplodeTags(tags, addTags), ',') == tags + addTags
  {
    SplitJoin(tags + addTags, ',');
  }

  /** `'{}'.format(custom_token)`. */
  function TokenText(token: Option<string>): string
  {
    match token
    case Some(t) => t
    case None => "None"
  }

  /** `_getEndpoint(add_tags)`: the bulk URL for the token and the tags. */
  function Endpoint(token: Option<string>, tags: seq<string>, addTags: seq<string>): string
  {
    BulkUrlPrefix + TokenText(token) + "/tag/" + ImplodeTags(tags, addTags) + "/"
  }

  /** Every bulk URL starts with the bulk prefix and ends with a slash. */
  lemma EndpointShape(token: Option<string>, tags: seq<string>, addTags: seq<string>)
    ensures var url := Endpoint(token, tags, addTags);
      StartsWith(url, BulkUrlPrefix) && url[|url| - 1] == '/'
  {
    var url := Endpoint(token, tags, addTags);
    var rest := TokenText(token) + "/tag/" + ImplodeTags(tags, addTags) + "/";
    ConcatAssoc(BulkUrlPrefix + TokenText(token) + "/tag/", ImplodeTags(tags, addTags), "/");
    ConcatAssoc(BulkUrlPrefix + TokenText(token), "/tag/", ImplodeTags(tags, addTags));
    ConcatAssoc(BulkUrlPrefix, TokenText(token), "/tag/" + ImplodeTags(tags, addTags));
    assert url == BulkUrlPrefix + (TokenText(token) + ("/tag/" + ImplodeTags(tags, addTags))) + "/";
    assert url[..|BulkUrlPrefix|] == BulkUrlPrefix;
  }

  /** The bulk URL prefix is its four slash-separated segments joined by
      slashes, then a slash. */
  lemma BulkUrlHead()
    ensures Join(["https:", "", "logs-01.loggly.com", "bulk"], '/') + "/" == BulkUrlPrefix
  {
    var l := ["https:", "", "logs-01.loggly.com", "bulk"];
    assert Join(l[3..], '/') == "bulk";
    assert Join(l[2..], '/') == "logs-01.loggly.com" + "/" + "bulk";
    assert Join(l[1..], '/') == "" + "/" + Join(l[2..], '/');
    assert Join(l, '/') == "https:" + "/" + Join(l[1..], '/');
  }

  /** The part of a bulk URL after the prefix, cut at its slashes. */
  lemma BulkUrlTail(t: string, i: string)
    ensures Join([t, "tag", i, ""], '/') == t + "/tag/" + i + "/"
  {
    var l := [t, "tag", i, ""];
    assert Join(l[3..], '/') == "";
    assert Join(l[2..], '/') == i + "/";
    assert Join(l[1..], '/') == "tag" + "/" + Join(l[2..], '/');
    assert Join(l, '/') == t + "/" + Join(l[1..], '/');
  }

  /** A bulk URL is its eight slash-separated segments joined by slashes. */
  lemma EndpointAsJoin(t: string, i: string)
    ensures BulkUrlPrefix + t + "/tag/" + i + "/"
            == Join(["https:", "", "logs-01.loggly.com", "bulk", t, "tag", i, ""], '/')
  {
    var a := ["https:", "", "logs-01.loggly.com", "bulk"];
    var b := [t, "tag", i, ""];
    assert a + b == ["https:", "", "logs-01.loggly.com", "bulk", t, "tag", i, ""];
    JoinAppend(a, b, '/');
    BulkUrlHead();
    BulkUrlTail(t, i);
    var x := t + "/tag/" + i + "/";
    assert Join(a + b, '/') == Join(a, '/') + "/" + x;
    assert BulkUrlPrefix + t + "/tag/" + i + "/" == BulkUrlPrefix + x;
  }

  /** A bulk URL read back at its slashes: the token is the fifth segment and
      the imploded tags the seventh, when neither contains a slash. */
  lemma EndpointSegments(token: Option<string>, tags: seq<string>, addTags: seq<string>)
    requires '/' !in TokenText(token) && '/' !in ImplodeTags(tags, addTags)
    ensures Split(Endpoint(token, tags, addTags), '/')
            == ["https:", "", "logs-01.loggly.com", "bulk", TokenText(token), "tag", ImplodeTags(tags, addTags), ""]
  {
    var l := ["https:", "", "logs-01.loggly.com", "bulk", TokenText(token), "tag", ImplodeTags(tags, addTags), ""];
    EndpointAsJoin(TokenText(token), ImplodeTags(tags, addTags));
    assert forall k :: 0 <= k < |l| ==> '/' !in l[k];
    SplitJoin(l, '/');
  }

  /** The tags of a group's POST: the process and thread ids follow the
      static tags as two more comma-separated tags. */
  lemma GroupTags(tags: seq<string>, pid: string, tid: string)
    requires |tags| >= 1
    ensures ImplodeTags(tags, [pid, tid]) == ImplodeTags(tags, []) + "," + pid + "," + tid
  {
    var x := Join(tags, ',');
    var y := Join([pid, tid], ',');
    var c: string := [','];
    JoinAppend(tags, [pid, tid], ',');
    JoinTwo(pid, tid, ',');
    assert y == pid + c + tid;
    assert Join(tags + [pid, tid], ',') == x + c + y;
    assert x + c + (pid + c + tid) == x + c + pid + c + tid;
    assert tags + [] == tags;
  }

  /** The text `'tag1,tag2'` splits into its two tags. */
  lemma SplitTwoTags()
    ensures Split("tag1,tag2", ',') == ["tag1", "tag2"]
  {
    var a := "tag1";
    var b := "tag2";
    assert "tag1,tag2" == a + [','] + b;
    SplitAtFirstSep(a, b, ',');
    SplitWithoutSep(b, ',');
  }

  /** A handler built with the tags `'tag1,tag2'` gets the tag list
      `bulk, tag1, tag2`. */
  lemma TextTagsExample()
    ensures NormalizeTags(Split("tag1,tag2", ',')) == ["bulk", "tag1", "tag2"]
  {
    SplitTwoTags();
    var parts: seq<string> := ["tag1", "tag2"];
    assert BulkTag !in parts by {
      assert BulkTag != parts[0] by { assert BulkTag[0] != parts[0][0]; }
      assert BulkTag != parts[1] by { assert BulkTag[0] != parts[1][0]; }
    }
  }

  /** With the token `LOGGLYKEY` and the tags `bulk, tag1, tag2`, records are
      tagged `bulk,tag1,tag2` and the handler posts to that bulk URL. */
  lemma TextTagsEndpointExample()
    ensures ImplodeTags(["bulk", "tag1", "tag2"], []) == "bulk,tag1,tag2"
    ensures Endpoint(Some("LOGGLYKEY"), ["bulk", "tag1", "tag2"], [])
            == "https://logs-01.loggly.com/bulk/LOGGLYKEY/tag/bulk,tag1,tag2/"
  {
    var l := ["bulk", "tag1", "tag2"];
    assert Join(l[2..], ',') == "tag2";
    assert Join(l[1..], ',') == "tag1" + "," + "tag2";
    assert Join(l, ',') == "bulk" + "," + Join(l[1..], ',');
    assert l + [] == l;
    EndpointHalves(Some("LOGGLYKEY"), l, []);
    assert BulkUrlPrefix + TokenText(Some("LOGGLYKEY")) == "https://logs-01.loggly.com/bulk/LOGGLYKEY";
    assert "/tag/" + "bulk,tag1,tag2" + "/" == "/tag/bulk,tag1,tag2/";
    assert "https://logs-01.loggly.com/bulk/LOGGLYKEY" + "/tag/bulk,tag1,tag2/"
           == "https://logs-01.loggly.com/bulk/LOGGLYKEY/tag/bulk,tag1,tag2/";
  }

  /** The bulk URL is the prefix with the token, then the tag path. */
  lemma EndpointHalves(token: Option<string>, tags: seq<string>, addTags: seq<string>)
    ensures Endpoint(token, tags, addTags)
            == (BulkUrlPrefix + TokenText(token)) + ("/tag/" + ImplodeTags(tags, addTags) + "/")
  {
    var a := BulkUrlPrefix + TokenText(token);
    ConcatAssoc(a, "/tag/", ImplodeTags(tags, addTags));
    ConcatAssoc(a, "/tag/" + ImplodeTags(tags, addTags), "/");
  }

  /** The tag naming the EC2 instance: its id, or `id_NA` when the metadata
      request failed. */
  function InstanceTag(ec2Id: Option<string>): (tag: string)
    ensures ec2Id.Some? ==> tag == ec2Id.value
    ensures ec2Id.None? ==> tag == NoInstanceId
  {
    match ec2Id
    case Some(id) => id
    case None => NoInstanceId
  }

  // ---------------------------------------------------------------- retry

  /** What `handle_response` does with the response to a POST. */
  datatype Decision = Delivered | Resubmit(next: int) | GiveUp

  /** `handle_response`: nothing on 200; otherwise resubmit with the next
      attempt number while `attempt <= max_attempts`, else report. */
  function HandleResponse(status: int, attempt: int, maxAttempts: int): (d: Decision)
    ensures d == Delivered <==> status == StatusOk
    ensures d.Resubmit? <==> status != StatusOk && attempt <= maxAttempts
    ensures d == GiveUp <==> status != StatusOk && attempt > maxAttempts
    ensures d.Resubmit? ==> d.next == attempt + 1
  {
    if status != StatusOk then
      if attempt <= maxAttempts then Resubmit(attempt + 1) else GiveUp
    else Delivered
  }

  /** How a group's delivery ended: accepted, abandoned after a failure with
      this status, or still waiting for a response. */
  datatype RunEnd = Succeeded | GaveUp(status: int) | Pending

  /** The attempt numbers of the POSTs sent for one group, and how it ended. */
  datatype Run = Run(sent: seq<int>, end: RunEnd)

  /** A group first sent with `attempt`, whose POSTs receive `statuses` in
      turn, each failure being resubmitted as `handle_response` decides. */
  function RetryRun(attempt: int, statuses: seq<int>, maxAttempts: int): (r: Run)
    ensures 1 <= |r.sent| <= |statuses| + 1
    ensures r.sent[0] == attempt
    decreases |statuses|
  {
    if statuses == [] then Run([attempt], Pending)
    else
      match HandleResponse(statuses[0], attempt, maxAttempts)
      case Delivered => Run([attempt], Succeeded)
      case GiveUp => Run([attempt], GaveUp(statuses[0]))
      case Resubmit(next) =>
        var rest := RetryRun(next, statuses[1..], maxAttempts);
        Run([attempt] + rest.sent, rest.end)
  }

  /** Attempt numbers go up by one per POST, and every POST before the last
      failed while its attempt was within the limit. */
  lemma {:induction false} RetryRunAttempts(attempt: int, statuses: seq<int>, maxAttempts: int)
    ensures var r := RetryRun(attempt, statuses, maxAttempts);
      && (forall i :: 0 <= i < |r.sent| ==> r.sent[i] == attempt + i)
      && (forall i :: 0 <= i < |r.sent| - 1 ==> statuses[i] != StatusOk && r.sent[i] <= maxAttempts)
    decreases |statuses|
  {
    if statuses != [] && HandleResponse(statuses[0], attempt, maxAttempts).Resubmit? {
      RetryRunAttempts(attempt + 1, statuses[1..], maxAttempts);
    }
  }

  /** A run ends in success only on a 200, in failure only on a non-200
      response to an attempt past `max_attempts`, and is pending only when
      every status has been used. */
  lemma {:induction false} RetryRunEnd(attempt: int, statuses: seq<int>, maxAttempts: int)
    ensures var r := RetryRun(attempt, statuses, maxAttempts);
      var last := |r.sent| - 1;
      && (r.end == Succeeded ==> last < |statuses| && statuses[last] == StatusOk)
      && (r.end.GaveUp? ==> last < |statuses| && r.end.status == statuses[last] && r.end.status != StatusOk
                            && r.sent[last] > maxAttempts)
      && (r.end == Pending <==> |r.sent| == |statuses| + 1)
    decreases |statuses|
  {
    if statuses != [] && HandleResponse(statuses[0], attempt, maxAttempts).Resubmit? {
      RetryRunEnd(attempt + 1, statuses[1..], maxAttempts);
      RetryRunAttempts(attempt + 1, statuses[1..], maxAttempts);
    }
  }

  /** How many POSTs a group first sent with `attempt` gets when every one
      fails: one per attempt up to `max_attempts + 1`. */
  function Budget(attempt: int, maxAttempts: int): nat
  {
    if attempt <= maxAttempts then maxAttempts - attempt + 2 else 1
  }

  /** Against a transport that always fails, a group is sent exactly
      `Budget` times and then reported as failed. */
  lemma {:induction false} AlwaysFailing(attempt: int, statuses: seq<int>, maxAttempts: int)
    requires forall i :: 0 <= i < |statuses| ==> statuses[i] != StatusOk
    requires |statuses| >= Budget(attempt, maxAttempts)
    ensures |RetryRun(attempt, statuses, maxAttempts).sent| == Budget(attempt, maxAttempts)
    ensures RetryRun(attempt, statuses, maxAttempts).end.GaveUp?
    decreases |statuses|
  {
    if attempt <= maxAttempts {
      AlwaysFailing(attempt + 1, statuses[1..], maxAttempts);
    }
  }

  /** A batch flushed by the timer (attempt 1) is sent `max_attempts + 1`
      times in all against a transport that always fails. */
  lemma FirstFlushSends(statuses: seq<int>, maxAttempts: int)
    requires maxAttempts >= 0
    requires forall i :: 0 <= i < |statuses| ==> statuses[i] != StatusOk
    requires |statuses| >= maxAttempts + 1
    ensures |RetryRun(1, statuses, maxAttempts).sent| == maxAttempts + 1
  {
    AlwaysFailing(1, statuses, maxAttempts);
  }

  /** One failure followed by success: two POSTs, attempts 1 and 2. */
  lemma FailOnceThenSucceed(status: int, maxAttempts: int)
    requires status != StatusOk && maxAttempts >= 1
    ensures RetryRun(1, [status, StatusOk], maxAttempts) == Run([1, 2], Succeeded)
  {
    assert [status, StatusOk][1..] == [StatusOk];
  }

  // ---------------------------------------------------------------- flush

  /** An element of the list `flush` is given: a payload dictionary from the
      buffer, or an already-serialized string (what a resubmission passes). */
  datatype BatchItem = Payload(fields: map<string, Value>) | Serialized(text: string)

  /** One bulk POST: URL, body, content type, and the callback's arguments
      (the attempt number and the group's serialized records). */
  datatype Post = Post(url: string, body: string, contentType: string, attempt: int, batch: seq<string>)

  /** What was reported to standard error after the last attempt failed. */
  datatype Report = Report(status: int, content: string)

  /** Whether a value can be a dictionary key (lists and dictionaries cannot). */
  predicate Hashable(v: Value)
  {
    !v.List? && !v.Dict?
  }

  /** One turn of the grouping loop's body up to the dictionary update: pop
      the ids (defaulting to `nopid`/`notid`), dump the rest; None when
      popping, dumping or hashing the ids raises. */
  function PrepareItem(item: BatchItem, rt: Runtime): (r: Option<Entry>)
    ensures item.Serialized? ==> r.None?
    ensures item.Payload? ==>
      (r.Some? <==> !Unencodable(Dict(item.fields - {"pid", "tid"}))
                    && Hashable(Lookup(item.fields, "pid", Str("nopid")))
                    && Hashable(Lookup(item.fields, "tid", Str("notid"))))
    ensures r.Some? ==> r.value.pid == Lookup(item.fields, "pid", Str("nopid"))
                        && r.value.tid == Lookup(item.fields, "tid", Str("notid"))
  {
    match item
    case Serialized(_) => None
    case Payload(fields) =>
      var pid := Lookup(fields, "pid", Str("nopid"));
      var tid := Lookup(fields, "tid", Str("notid"));
      EncodeFailsIff(Dict(fields - {"pid", "tid"}));
      match Encode(Dict(fields - {"pid", "tid"}))
      case None => None
      case Some(j) => if Hashable(pid) && Hashable(tid) then Some(Entry(pid, tid, rt.render(j))) else None
  }

  /** The grouping loop's records, or None when it raises on some item. */
  function Prepared(items: seq<BatchItem>, rt: Runtime): (r: Option<seq<Entry>>)
    ensures r.Some? <==> forall i :: 0 <= i < |items| ==> PrepareItem(items[i], rt).Some?
    ensures r.Some? ==> |r.value| == |items|
                        && forall i :: 0 <= i < |items| ==> PrepareItem(items[i], rt) == Some(r.value[i])
  {
    if forall i :: 0 <= i < |items| ==> PrepareItem(items[i], rt).Some? then
      Some(seq(|items|, i requires 0 <= i < |items| => PrepareItem(items[i], rt).value))
    else None
  }

  /** Whether a group's ids can be joined into the tag list (both strings). */
  predicate Postable(s: Slot)
  {
    s.pid.Str? && s.tid.Str?
  }

  /** Whether every group of `slots` is postable. */
  predicate AllPostable(slots: seq<Slot>)
  {
    forall i :: 0 <= i < |slots| ==> Postable(slots[i])
  }

  /** The POST `flush` issues for one group. */
  function GroupPost(s: Slot, token: Option<string>, tags: seq<string>, attempt: int): (p: Post)
    requires Postable(s)
    ensures p.body == Join(s.data, ',') && p.batch == s.data && p.attempt == attempt
    ensures p.contentType == JsonHeader
    ensures p.url == Endpoint(token, tags, [s.pid.s, s.tid.s])
  {
    Post(Endpoint(token, tags, [s.pid.s, s.tid.s]), Join(s.data, ','), JsonHeader, attempt, s.data)
  }

  /** The POSTs for postable groups, in order: one per group. */
  function Posts(slots: seq<Slot>, token: Option<string>, tags: seq<string>, attempt: int): (ps: seq<Post>)
    requires AllPostable(slots)
    ensures |ps| == |slots|
    decreases |slots|
  {
    if slots == [] then []
    else
      AllPostableTail(slots);
      [GroupPost(slots[0], token, tags, attempt)] + Posts(slots[1..], token, tags, attempt)
  }

  /** The `i`-th POST is the one for the `i`-th group. */
  lemma {:induction false} PostsAt(slots: seq<Slot>, token: Option<string>, tags: seq<string>, attempt: int, i: nat)
    requires AllPostable(slots) && i < |slots|
    ensures Posts(slots, token, tags, attempt)[i] == GroupPost(slots[i], token, tags, attempt)
    decreases i
  {
    AllPostableTail(slots);
    var rest := Posts(slots[1..], token, tags, attempt);
    var ps := Posts(slots, token, tags, attempt);
    assert ps == [GroupPost(slots[0], token, tags, attempt)] + rest;
    if i > 0 {
      assert ps[i] == rest[i - 1];
      PostsAt(slots[1..], token, tags, attempt, i - 1);
      assert slots[1..][i - 1] == slots[i];
    }
  }

  /** The groups after the first of an all-postable list are all postable. */
  lemma AllPostableTail(slots: seq<Slot>)
    requires AllPostable(slots) && |slots| >= 1
    ensures AllPostable(slots[1..])
  {
    forall i | 0 <= i < |slots| - 1 ensures Postable(slots[1..][i]) {
      assert slots[1..][i] == slots[i + 1];
    }
  }

  /** The posting loops over the groups in order: the POSTs issued, and
      whether the loops stopped by raising (a non-string id). */
  function Dispatch(slots: seq<Slot>, token: Option<string>, tags: seq<string>, attempt: int): (seq<Post>, bool)
  {
    if slots == [] then ([], false)
    else if !Postable(slots[0]) then ([], true)
    else
      var rest := Dispatch(slots[1..], token, tags, attempt);
      ([GroupPost(slots[0], token, tags, attempt)] + rest.0, rest.1)
  }

  /** What `flush` does with a batch: the POSTs issued, and whether it raised.
      An empty batch posts nothing; a failure while grouping posts nothing. */
  function FlushOutcome(items: seq<BatchItem>, token: Option<string>, tags: seq<string>, attempt: int,
                        rt: Runtime): (seq<Post>, bool)
  {
    if items == [] then ([], false)
    else
      match Prepared(items, rt)
      case None => ([], true)
      case Some(es) => Dispatch(Plan(Grouped(es)), token, tags, attempt)
  }

  /** The buffer as the list of payload dictionaries `flush` takes. */
  function Records(logs: seq<map<string, Value>>): (items: seq<BatchItem>)
    ensures |items| == |logs| && forall i :: 0 <= i < |logs| ==> items[i] == Payload(logs[i])
  {
    seq(|logs|, i requires 0 <= i < |logs| => Payload(logs[i]))
  }

  /** The serialized records of a group, as `handle_response` passes them
      back to `flush`. */
  function Resubmitted(batch: seq<string>): (items: seq<BatchItem>)
    ensures |items| == |batch| && forall i :: 0 <= i < |batch| ==> items[i] == Serialized(batch[i])
  {
    seq(|batch|, i requires 0 <= i < |batch| => Serialized(batch[i]))
  }

  /** When every group is postable the loops post once per group, in order,
      and do not raise. */
  lemma {:induction false} DispatchPostable(slots: seq<Slot>, token: Option<string>, tags: seq<string>, attempt: int)
    requires AllPostable(slots)
    ensures Dispatch(slots, token, tags, attempt) == (Posts(slots, token, tags, attempt), false)
    decreases |slots|
  {
    if slots != [] {
      AllPostableTail(slots);
      DispatchPostable(slots[1..], token, tags, attempt);
    }
  }

  /** The loops raise at the first group with a non-string id, after posting
      every group before it. */
  lemma {:induction false} DispatchStops(done: seq<Slot>, bad: Slot, rest: seq<Slot>,
                                         token: Option<string>, tags: seq<string>, attempt: int)
    requires AllPostable(done) && !Postable(bad)
    ensures Dispatch(done + [bad] + rest, token, tags, attempt) == (Posts(done, token, tags, attempt), true)
    decreases |done|
  {
    if done == [] {
      assert (done + [bad] + rest)[0] == bad;
    } else {
      var all := done + [bad] + rest;
      assert all[0] == done[0];
      assert all[1..] == done[1..] + [bad] + rest;
      AllPostableTail(done);
      DispatchStops(done[1..], bad, rest, token, tags, attempt);
      assert Dispatch(all, token, tags, attempt)
          == ([GroupPost(done[0], token, tags, attempt)] + Dispatch(all[1..], token, tags, attempt).0,
              Dispatch(all[1..], token, tags, attempt).1);
    }
  }

  /** A resubmitted group makes `flush` raise before posting anything: its
      elements are strings, and popping `pid` from a string fails. */
  lemma RetriedBatchRaises(batch: seq<string>, token: Option<string>, tags: seq<string>, attempt: int,
                           rt: Runtime)
    requires batch != []
    ensures FlushOutcome(Resubmitted(batch), token, tags, attempt, rt) == ([], true)
  {
    assert PrepareItem(Resubmitted(batch)[0], rt).None?;
  }

  /** Flushing records that all have string ids raises only if dumping one
      of them raises. */
  lemma FlushRaisesOnlyOnDump(logs: seq<map<string, Value>>, token: Option<string>, tags: seq<string>,
                              attempt: int, rt: Runtime)
    requires forall i :: 0 <= i < |logs| ==> "pid" in logs[i] && logs[i]["pid"].Str?
                                             && "tid" in logs[i] && logs[i]["tid"].Str?
    ensures FlushOutcome(Records(logs), token, tags, attempt, rt).1
            <==> exists i :: 0 <= i < |logs| && Unencodable(Dict(logs[i] - {"pid", "tid"}))
  {
    var items := Records(logs);
    match Prepared(items, rt)
    case None =>
      var i :| 0 <= i < |items| && PrepareItem(items[i], rt).None?;
      assert Unencodable(Dict(logs[i] - {"pid", "tid"}));
    case Some(es) =>
      forall i | 0 <= i < |logs| ensures !Unencodable(Dict(logs[i] - {"pid", "tid"})) {
        assert PrepareItem(items[i], rt).Some?;
      }
      if logs != [] {
        StringIdsPostable(es);
        DispatchPostable(Plan(Grouped(es)), token, tags, attempt);
      }
  }

  /** Groups built from records with string ids are all postable. */
  lemma {:induction false} StringIdsPostable(es: seq<Entry>)
    requires forall k :: 0 <= k < |es| ==> es[k].pid.Str? && es[k].tid.Str?
    ensures AllPostable(Plan(Grouped(es)))
  {
    GroupedPartitions(es);
    var slots := Plan(Grouped(es));
    forall i | 0 <= i < |slots| ensures Postable(slots[i]) {
      FilterHasKey(es, slots[i].pid, slots[i].tid);
    }
  }

  /** A non-empty group has a record with its ids. */
  lemma {:induction false} FilterHasKey(es: seq<Entry>, pid: Value, tid: Value)
    requires Filter(es, pid, tid) != []
    ensures exists k :: 0 <= k < |es| && es[k].pid == pid && es[k].tid == tid
    decreases |es|
  {
    var last := es[|es| - 1];
    if !(last.pid == pid && last.tid == tid) {
      FilterHasKey(es[..|es| - 1], pid, tid);
      var k :| 0 <= k < |es| - 1 && es[..|es| - 1][k].pid == pid && es[..|es| - 1][k].tid == tid;
      assert es[k] == es[..|es| - 1][k];
    }
  }

  /** Flushing a buffer of records with string ids that all dump issues one
      POST per distinct (pid, tid) pair, the processes taken in the order of
      their first records and each process's threads in the order of theirs,
      each carrying exactly that pair's records in buffer order, every record
      in exactly one POST. */
  lemma FlushPartitionsBatch(logs: seq<map<string, Value>>, token: Option<string>, tags: seq<string>,
                             attempt: int, rt: Runtime)
    requires logs != []
    requires forall i :: 0 <= i < |logs| ==> "pid" in logs[i] && logs[i]["pid"].Str?
                                             && "tid" in logs[i] && logs[i]["tid"].Str?
    requires forall i :: 0 <= i < |logs| ==> !Unencodable(Dict(logs[i] - {"pid", "tid"}))
    ensures Prepared(Records(logs), rt).Some?
    ensures var es := Prepared(Records(logs), rt).value;
      && (forall k :: 0 <= k < |es| ==> es[k].pid == logs[k]["pid"] && es[k].tid == logs[k]["tid"])
      && AllPostable(Plan(Grouped(es)))
      && Partitions(Plan(Grouped(es)), es)
      && InFirstSeenOrder(Grouped(es), es)
      && FlushOutcome(Records(logs), token, tags, attempt, rt) == (Posts(Plan(Grouped(es)), token, tags, attempt), false)
  {
    var items := Records(logs);
    forall i | 0 <= i < |items| ensures PrepareItem(items[i], rt).Some? {
      assert items[i] == Payload(logs[i]);
    }
    var es := Prepared(items, rt).value;
    forall k | 0 <= k < |es| ensures es[k].pid == logs[k]["pid"] && es[k].tid == logs[k]["tid"] {
      assert PrepareItem(items[k], rt) == Some(es[k]);
    }
    StringIdsPostable(es);
    GroupedPartitions(es);
    GroupedOrder(es);
    DispatchPostable(Plan(Grouped(es)), token, tags, attempt);
  }

  /** Records that all come from one thread of one process go out in a
      single POST holding all of them in order (as when ten warnings are
      logged and flushed together). */
  lemma {:induction false} OneThreadOneGroup(es: seq<Entry>)
    requires es != []
    requires forall k :: 0 <= k < |es| ==> es[k].pid == es[0].pid && es[k].tid == es[0].tid
    ensures Plan(Grouped(es)) == [Slot(es[0].pid, es[0].tid, Datas(es))]
  {
    var slots := Plan(Grouped(es));
    SingleSlot(es);
    FilterAll(es, es[0].pid, es[0].tid);
    assert slots[0] == Slot(es[0].pid, es[0].tid, Filter(es, es[0].pid, es[0].tid));
  }

  /** A batch from one thread of one process forms a single group, with its ids. */
  lemma SingleSlot(es: seq<Entry>)
    requires es != []
    requires forall k :: 0 <= k < |es| ==> es[k].pid == es[0].pid && es[k].tid == es[0].tid
    ensures var slots := Plan(Grouped(es));
      && |slots| == 1 && slots[0].pid == es[0].pid && slots[0].tid == es[0].tid
      && slots[0].data == Filter(es, es[0].pid, es[0].tid)
  {
    GroupedPartitions(es);
    var slots := Plan(Grouped(es));
    forall i | 0 <= i < |slots| ensures slots[i].pid == es[0].pid && slots[i].tid == es[0].tid {
      FilterHasKey(es, slots[i].pid, slots[i].tid);
    }
    assert HasKey(slots, es[0].pid, es[0].tid);
    SameKeyAtMostOne(slots, es[0].pid, es[0].tid);
  }

  /** Groups with distinct ids cannot share one pair of ids. */
  lemma SameKeyAtMostOne(slots: seq<Slot>, pid: Value, tid: Value)
    requires KeysDistinct(slots)
    ensures (forall i :: 0 <= i < |slots| ==> slots[i].pid == pid && slots[i].tid == tid) ==> |slots| <= 1
  {
    if |slots| >= 2 {
      assert slots[0].pid != slots[1].pid || slots[0].tid != slots[1].tid;
    }
  }

  /** When every record has the given ids, the group holds the whole batch. */
  lemma {:induction false} FilterAll(es: seq<Entry>, pid: Value, tid: Value)
    requires forall k :: 0 <= k < |es| ==> es[k].pid == pid && es[k].tid == tid
    ensures Filter(es, pid, tid) == Datas(es)
    decreases |es|
  {
    if es != [] {
      FilterAll(es[..|es| - 1], pid, tid);
      assert Datas(es) == Datas(es[..|es| - 1]) + [es[|es| - 1].data];
    }
  }

  /** The posting loops over two runs of groups: the second run is
      reached only when the first did not raise. */
  lemma {:induction false} DispatchAppend(a: seq<Slot>, b: seq<Slot>, token: Option<string>, tags: seq<string>,
                                          attempt: int)
    ensures var da := Dispatch(a, token, tags, attempt);
      var db := Dispatch(b, token, tags, attempt);
      Dispatch(a + b, token, tags, attempt) == if da.1 then da else (da.0 + db.0, db.1)
    decreases |a|
  {
    var da := Dispatch(a, token, tags, attempt);
    var db := Dispatch(b, token, tags, attempt);
    if a == [] {
      assert a + b == b;
      assert da.0 + db.0 == db.0;
    } else {
      var ab := a + b;
      assert ab[0] == a[0];
      assert ab[1..] == a[1..] + b;
      if Postable(a[0]) {
        DispatchAppend(a[1..], b, token, tags, attempt);
        var head := [GroupPost(a[0], token, tags, attempt)];
        var da' := Dispatch(a[1..], token, tags, attempt);
        var rest := Dispatch(ab[1..], token, tags, attempt);
        assert da == (head + da'.0, da'.1);
        assert Dispatch(ab, token, tags, attempt) == (head + rest.0, rest.1);
        if !da'.1 {
          ConcatAssoc(head, da'.0, db.0);
        }
      }
    }
  }

  /** The nested posting loops, one process further on: that process's
      groups are posted after those before it, and when they raise, so does
      the whole run. */
  lemma DispatchPlanStep(pids: seq<PidGroup>, pi: nat, token: Option<string>, tags: seq<string>, attempt: int)
    requires pi < |pids| && !Dispatch(Plan(pids[..pi]), token, tags, attempt).1
    ensures var d := Dispatch(PlanTids(pids[pi].pid, pids[pi].tids), token, tags, attempt);
      var next := Dispatch(Plan(pids[..pi + 1]), token, tags, attempt);
      && next.0 == Dispatch(Plan(pids[..pi]), token, tags, attempt).0 + d.0
      && next.1 == d.1
      && (d.1 ==> Dispatch(Plan(pids), token, tags, attempt) == next)
  {
    PlanStep(pids, pi);
    DispatchAppend(Plan(pids[..pi]), PlanTids(pids[pi].pid, pids[pi].tids), token, tags, attempt);
    assert pids == pids[..pi + 1] + pids[pi + 1..];
    PlanAppend(pids[..pi + 1], pids[pi + 1..]);
    DispatchAppend(Plan(pids[..pi + 1]), Plan(pids[pi + 1..]), token, tags, attempt);
  }

  /** The inner posting loop, one thread further on: a postable group adds
      its POST, and a group with a non-string id ends the whole run for
      that process. */
  lemma DispatchTidsStep(group: PidGroup, ti: nat, token: Option<string>, tags: seq<string>, attempt: int)
    requires ti < |group.tids|
    requires !Dispatch(PlanTids(group.pid, group.tids[..ti]), token, tags, attempt).1
    ensures var slot := Slot(group.pid, group.tids[ti].tid, group.tids[ti].data);
      var before := Dispatch(PlanTids(group.pid, group.tids[..ti]), token, tags, attempt);
      && (Postable(slot) ==> Dispatch(PlanTids(group.pid, group.tids[..ti + 1]), token, tags, attempt)
                               == (before.0 + [GroupPost(slot, token, tags, attempt)], false))
      && (!Postable(slot) ==> Dispatch(PlanTids(group.pid, group.tids), token, tags, attempt) == (before.0, true))
  {
    var slot := Slot(group.pid, group.tids[ti].tid, group.tids[ti].data);
    var done := PlanTids(group.pid, group.tids[..ti]);
    PlanTidsStep(group.pid, group.tids, ti);
    DispatchSlot(done, slot, token, tags, attempt);
    if !Postable(slot) {
      PlanTidsSplit(group.pid, group.tids, ti + 1);
      DispatchAppend(done + [slot], PlanTids(group.pid, group.tids[ti + 1..]), token, tags, attempt);
    }
  }

  /** Dispatching one more group after a run that did not stop. */
  lemma DispatchSlot(done: seq<Slot>, slot: Slot, token: Option<string>, tags: seq<string>, attempt: int)
    requires !Dispatch(done, token, tags, attempt).1
    ensures var before := Dispatch(done, token, tags, attempt);
      Dispatch(done + [slot], token, tags, attempt)
        == if Postable(slot) then (before.0 + [GroupPost(slot, token, tags, attempt)], false)
           else (before.0, true)
  {
    var before := Dispatch(done, token, tags, attempt);
    DispatchAppend(done, [slot], token, tags, attempt);
    assert [slot][1..] == [];
    if Postable(slot) {
      var post := GroupPost(slot, token, tags, attempt);
      assert Dispatch([slot][1..], token, tags, attempt) == ([], false);
      assert [post] + [] == [post];
      assert Dispatch([slot], token, tags, attempt) == ([post], false);
    } else {
      assert Dispatch([slot], token, tags, attempt) == ([], true);
      assert before.0 + [] == before.0;
    }
  }

  /** Concatenation is associative. */
  lemma ConcatAssoc<T>(a: seq<T>, b: seq<T>, c: seq<T>)
    ensures a + b + c == a + (b + c)
  {
  }

  // ---------------------------------------------------------------- handler

  /** The grouping loop of `flush`: for each batch element pop `pid` and
      `tid` (defaulting to `nopid` and `notid`), dump the rest to JSON and
      file it under `pids[pid][tid]`. None when an element is not a
      dictionary, cannot be dumped, or has an id that cannot be hashed. */
  method GroupBatch(items: seq<BatchItem>, rt: Runtime) returns (pids: Option<seq<PidGroup>>)
    ensures pids.None? <==> Prepared(items, rt).None?
    ensures pids.Some? ==> pids.value == Grouped(Prepared(items, rt).value)
  {
    var groups: seq<PidGroup> := [];
    ghost var entries: seq<Entry> := [];
    var i := 0;
    while i < |items|
      invariant 0 <= i <= |items| && |entries| == i
      invariant forall j :: 0 <= j < i ==> PrepareItem(items[j], rt) == Some(entries[j])
      invariant groups == Grouped(entries)
    {
      if items[i].Serialized? {
        // `pop` on a string: AttributeError
        assert PrepareItem(items[i], rt).None?;
        return None;
      }
      var d := items[i].fields;
      var p := Lookup(d, "pid", Str("nopid"));
      var t := Lookup(d, "tid", Str("notid"));
      d := d - {"pid", "tid"};
      var json := Encode(Dict(d));
      if json.None? {
        assert PrepareItem(items[i], rt).None?;
        return None;
      }
      var data := rt.render(json.value);
      if !Hashable(p) || !Hashable(t) {
        // `pid in pids` (or building `{tid: [data]}`): TypeError
        assert PrepareItem(items[i], rt).None?;
        return None;
      }
      var e := Entry(p, t, data);
      assert (entries + [e])[..i] == entries;
      groups := Insert(groups, e);
      entries := entries + [e];
      i := i + 1;
    }
    assert Prepared(items, rt) == Some(entries) by {
      assert Prepared(items, rt).Some?;
      var es := Prepared(items, rt).value;
      assert |es| == |entries|;
      forall j | 0 <= j < |es| ensures es[j] == entries[j] {
        assert PrepareItem(items[j], rt) == Some(es[j]);
      }
      assert es == entries;
    }
    pids := Some(groups);
  }

  /** `LogglyHandler._getPayload`: the generic payload with the imploded
      static tags added under `tags`. */
  function LogglyPayload(attrs: map<string, Value>, message: Result<string>, excTrace: string,
                         ignoreSet: set<string>, tags: seq<string>, rt: Runtime): (r: map<string, Value>)
    ensures var base := PayloadOf(attrs, message, excTrace, ignoreSet, rt);
      && r.Keys == base.Keys + {"tags"}
      && r["tags"] == Str(Join(tags, ','))
      && (forall k :: k in base && k != "tags" ==> r[k] == base[k])
    ensures "pid" in r && r["pid"].Str? && StartsWith(r["pid"].s, "p-")
    ensures "tid" in r && r["tid"].Str? && StartsWith(r["tid"].s, "t-")
  {
    PayloadIdentity(attrs, message, excTrace, ignoreSet, rt);
    PayloadOf(attrs, message, excTrace, ignoreSet, rt)["tags" := Str(ImplodeTags(tags, []))]
  }

  /** Whether every buffered payload carries string `pid` and `tid` values,
      as `_getPayload` always sets them. */
  predicate IdsAreStrings(logs: seq<map<string, Value>>)
  {
    forall i :: 0 <= i < |logs| ==> "pid" in logs[i] && logs[i]["pid"].Str? && "tid" in logs[i] && logs[i]["tid"].Str?
  }

  /** The HTTP session (`self.session`): the POSTs it was asked to send, in
      order. Sending happens in the background; responses come back through
      the callback (`LogglyHandler.OnResponse`). */
  class Session {
    var posts: seq<Post>

    constructor ()
      ensures posts == []
    {
      posts := [];
    }

    /** `session.post(url, data, headers, background_callback)`. */
    method Send(p: Post)
      modifies this
      ensures posts == old(posts) + [p]
    {
      posts := posts + [p];
    }
  }

  /** `LogglyHandler`: buffers payloads and posts them in bulk, one POST per
      (process, thread) group. Standard error is represented by the failures
      reported there, the flush timer and the exit hook by how many were
      started and registered. */
  class LogglyHandler {
    const customToken: Option<string>
    const tags: TagList
    const maxAttempts: int
    const endpoint: string
    const detailIgnoreSet: set<string>
    const rt: Runtime
    const session: Session
    var pid: int
    var logs: seq<map<string, Value>>
    var timersStarted: nat
    var timerStopped: bool
    var exitHooks: nat
    var reports: seq<Report>

    /** The buffer holds only payloads built by `_getPayload`. */
    predicate Valid()
      reads this
    {
      IdsAreStrings(logs)
    }

    /** The part of `__init__` after the tags are settled: the endpoint is
        fixed from the tags as they are now, the default ignore sets are
        taken, a new session is opened, the buffer is empty, one timer runs
        and one exit hook is registered. */
    constructor (customToken: Option<string>, tags: TagList, maxAttempts: int, processId: int, rt: Runtime)
      ensures this.customToken == customToken && this.tags == tags && this.maxAttempts == maxAttempts
      ensures this.rt == rt && pid == processId
      ensures endpoint == Endpoint(customToken, tags.items, [])
      ensures detailIgnoreSet == DetailIgnoreSet(None)
      ensures fresh(session) && session.posts == []
      ensures logs == [] && timersStarted == 1 && !timerStopped && exitHooks == 1 && reports == []
      ensures Valid()
    {
      this.customToken := customToken;
      this.tags := tags;
      this.maxAttempts := maxAttempts;
      this.rt := rt;
      pid := processId;
      endpoint := Endpoint(customToken, tags.items, []);
      detailIgnoreSet := DetailIgnoreSet(None);
      session := new Session();
      logs := [];
      timersStarted := 1;
      timerStopped := false;
      exitHooks := 1;
      reports := [];
    }

    /** `_prepPayload`, which is `_getPayload`: the generic payload (popping
        `process` and `thread` from the record) plus the tags. */
    method GetPayload(record: LogRecord, excTrace: string) returns (payload: map<string, Value>)
      modifies record
      ensures record.attrs == old(record.attrs) - {"process", "thread"}
      ensures payload == LogglyPayload(old(record.attrs), record.message, excTrace, detailIgnoreSet, tags.items, rt)
    {
      payload := RestApi.GetPayload(record, detailIgnoreSet, excTrace, rt);
      payload := payload["tags" := Str(ImplodeTags(tags.items, []))];
    }

    /** `emit`: in a new process (after a fork) the inherited buffer is
        dropped and a new timer and exit hook are set up; records of the HTTP
        library's own loggers are dropped; any other record's payload is
        buffered. A record without a string name makes it raise. */
    method Emit(record: LogRecord, currentPid: int, excTrace: string) returns (raised: bool)
      requires Valid()
      modifies this, record
      ensures Valid()
      ensures pid == currentPid && reports == old(reports)
      ensures var forked := old(pid) != currentPid;
        && timersStarted == old(timersStarted) + (if forked then 1 else 0)
        && exitHooks == old(exitHooks) + (if forked then 1 else 0)
        && timerStopped == (old(timerStopped) && !forked)
      ensures var kept := if old(pid) == currentPid then old(logs) else [];
        var name := NameOf(old(record.attrs));
        && (name.None? ==> raised && logs == kept && record.attrs == old(record.attrs))
        && (name.Some? && StartsWith(name.value, "requests") ==>
              !raised && logs == kept && record.attrs == old(record.attrs))
        && (name.Some? && !StartsWith(name.value, "requests") ==>
              !raised && record.attrs == old(record.attrs) - {"process", "thread"}
              && logs == kept + [LogglyPayload(old(record.attrs), record.message, excTrace,
                                               detailIgnoreSet, tags.items, rt)])
    {
      if currentPid != pid {
        ResetAfterFork(currentPid);
      }
      raised := Buffer(record, excTrace);
    }

    /** The fork branch of `emit`: adopt the new process id, drop the
        inherited buffer, start a new timer and register a new exit hook. */
    method ResetAfterFork(currentPid: int)
      modifies this`pid, this`logs, this`timersStarted, this`timerStopped, this`exitHooks
      ensures pid == currentPid && logs == [] && !timerStopped
      ensures timersStarted == old(timersStarted) + 1 && exitHooks == old(exitHooks) + 1
    {
      pid := currentPid;
      logs := [];
      timersStarted := timersStarted + 1;
      timerStopped := false;
      exitHooks := exitHooks + 1;
    }

    /** The rest of `emit`: drop the HTTP library's own records, buffer the
        payload of any other; a record without a string name raises. */
    method Buffer(record: LogRecord, excTrace: string) returns (raised: bool)
      requires Valid()
      modifies this`logs, record
      ensures Valid()
      ensures var name := NameOf(old(record.attrs));
        && (name.None? ==> raised && logs == old(logs) && record.attrs == old(record.attrs))
        && (name.Some? && StartsWith(name.value, "requests") ==>
              !raised && logs == old(logs) && record.attrs == old(record.attrs))
        && (name.Some? && !StartsWith(name.value, "requests") ==>
              !raised && record.attrs == old(record.attrs) - {"process", "thread"}
              && logs == old(logs) + [LogglyPayload(old(record.attrs), record.message, excTrace,
                                                    detailIgnoreSet, tags.items, rt)])
    {
      var name := NameOf(record.attrs);
      if name.None? {
        return true;
      }
      if StartsWith(name.value, "requests") {
        return false;
      }
      var payload := GetPayload(record, excTrace);
      logs := logs + [payload];
      raised := false;
    }

    /** `flush(current_batch, attempt)`: with no batch, take the buffer and
        leave it empty; group the batch by process, then by thread, each
        in the order of its first record, then POST each group to the endpoint tagged with its ids. It raises
        when a batch element is not a dictionary, when one cannot be dumped,
        when an id cannot be hashed (all before anything is sent), or when a
        group's ids are not strings (after the groups before it were sent). */
    method Flush(batch: Option<seq<BatchItem>>, attempt: int) returns (raised: bool)
      modifies this, session
      ensures batch.None? ==> logs == []
      ensures batch.Some? ==> logs == old(logs)
      ensures pid == old(pid) && timersStarted == old(timersStarted) && timerStopped == old(timerStopped)
      ensures exitHooks == old(exitHooks) && reports == old(reports)
      ensures var items := if batch.None? then Records(old(logs)) else batch.value;
        var outcome := FlushOutcome(items, customToken, tags.items, attempt, rt);
        session.posts == old(session.posts) + outcome.0 && raised == outcome.1
    {
      var items: seq<BatchItem>;
      if batch.None? {
        items := Records(logs);
        logs := [];
      } else {
        items := batch.value;
      }
      if items == [] {
        return false;
      }
      var pids := GroupBatch(items, rt);
      if pids.None? {
        return true;
      }
      raised := PostGroups(pids.value, attempt);
    }

    /** The posting loops of `flush`: for each process in order, POST its
        thread groups; raise at the first group whose ids are not strings. */
    method PostGroups(pids: seq<PidGroup>, attempt: int) returns (raised: bool)
      modifies session
      ensures var outcome := Dispatch(Plan(pids), customToken, tags.items, attempt);
        session.posts == old(session.posts) + outcome.0 && raised == outcome.1
    {
      var pi := 0;
      while pi < |pids|
        invariant 0 <= pi <= |pids|
        invariant !Dispatch(Plan(pids[..pi]), customToken, tags.items, attempt).1
        invariant session.posts == old(session.posts) + Dispatch(Plan(pids[..pi]), customToken, tags.items, attempt).0
      {
        DispatchPlanStep(pids, pi, customToken, tags.items, attempt);
        ghost var posted := Dispatch(Plan(pids[..pi]), customToken, tags.items, attempt).0;
        ghost var d := Dispatch(PlanTids(pids[pi].pid, pids[pi].tids), customToken, tags.items, attempt);
        var failed := PostThreads(pids[pi], attempt);
        ConcatAssoc(old(session.posts), posted, d.0);
        if failed {
          return true;
        }
        pi := pi + 1;
      }
      assert pids[..pi] == pids;
      raised := false;
    }

    /** The inner posting loop of `flush` for one process: for each of its
        threads in order, POST the group's records joined by commas to the
        endpoint tagged with the two ids; `",".join` raises at the first
        group whose ids are not strings. */
    method PostThreads(group: PidGroup, attempt: int) returns (raised: bool)
      modifies session
      ensures var outcome := Dispatch(PlanTids(group.pid, group.tids), customToken, tags.items, attempt);
        session.posts == old(session.posts) + outcome.0 && raised == outcome.1
    {
      var ti := 0;
      while ti < |group.tids|
        invariant 0 <= ti <= |group.tids|
        invariant !Dispatch(PlanTids(group.pid, group.tids[..ti]), customToken, tags.items, attempt).1
        invariant session.posts == old(session.posts)
                                   + Dispatch(PlanTids(group.pid, group.tids[..ti]), customToken, tags.items, attempt).0
      {
        var tidGroup := group.tids[ti];
        DispatchTidsStep(group, ti, customToken, tags.items, attempt);
        if !group.pid.Str? || !tidGroup.tid.Str? {
          // `",".join(tags)` on a non-string id: TypeError
          return true;
        }
        var url := Endpoint(customToken, tags.items, [group.pid.s, tidGroup.tid.s]);
        var body := Join(tidGroup.data, ',');
        ghost var posted := Dispatch(PlanTids(group.pid, group.tids[..ti]), customToken, tags.items, attempt).0;
        var post := Post(url, body, JsonHeader, attempt, tidGroup.data);
        session.Send(post);
        ConcatAssoc(old(session.posts), posted, [post]);
        ti := ti + 1;
      }
      assert group.tids[..ti] == group.tids;
      raised := false;
    }

    /** The callback run on a POST's response, as `handle_response` is
        evidently meant to behave: a failed POST within the attempt budget
        is sent again unchanged but for the attempt number; after the last
        attempt the failure is reported. */
    method OnResponse(post: Post, status: int, content: string)
      modifies this, session
      ensures logs == old(logs) && pid == old(pid)
      ensures timersStarted == old(timersStarted) && timerStopped == old(timerStopped) && exitHooks == old(exitHooks)
      ensures match HandleResponse(status, post.attempt, maxAttempts)
        case Delivered => session.posts == old(session.posts) && reports == old(reports)
        case Resubmit(next) => session.posts == old(session.posts) + [post.(attempt := next)] && reports == old(reports)
        case GiveUp => session.posts == old(session.posts) && reports == old(reports) + [Report(status, content)]
    {
      match HandleResponse(status, post.attempt, maxAttempts) {
        case Delivered =>
        case Resubmit(next) =>
          session.Send(post.(attempt := next));
        case GiveUp =>
          reports := reports + [Report(status, content)];
      }
    }

    /** `handle_response` as written: a failed POST within the budget hands
        the group's serialized records back to `flush`, which raises on the
        first of them, so nothing is sent again. */
    method HandleResponseAsWritten(post: Post, status: int, content: string) returns (raised: bool)
      modifies this, session
      ensures logs == old(logs) && pid == old(pid)
      ensures timersStarted == old(timersStarted) && timerStopped == old(timerStopped) && exitHooks == old(exitHooks)
      ensures session.posts == old(session.posts)
      ensures HandleResponse(status, post.attempt, maxAttempts).Resubmit? ==>
                reports == old(reports) && raised == (post.batch != [])
      ensures HandleResponse(status, post.attempt, maxAttempts) == Delivered ==> reports == old(reports) && !raised
      ensures HandleResponse(status, post.attempt, maxAttempts) == GiveUp ==>
                reports == old(reports) + [Report(status, content)] && !raised
    {
      match HandleResponse(status, post.attempt, maxAttempts) {
        case Delivered =>
          raised := false;
        case Resubmit(next) =>
          if post.batch != [] {
            RetriedBatchRaises(post.batch, customToken, tags.items, next, rt);
          }
          raised := Flush(Some(Resubmitted(post.batch)), next);
        case GiveUp =>
          reports := reports + [Report(status, content)];
          raised := false;
      }
    }

    /** `_stopFlushTimer`, the exit hook: stop the current timer and flush
        the buffer. */
    method StopFlushTimer() returns (raised: bool)
      modifies this, session
      ensures timerStopped && logs == []
      ensures pid == old(pid) && timersStarted == old(timersStarted) && exitHooks == old(exitHooks)
      ensures reports == old(reports)
      ensures var outcome := FlushOutcome(Records(old(logs)), customToken, tags.items, 1, rt);
        session.posts == old(session.posts) + outcome.0 && raised == outcome.1
    {
      timerStopped := true;
      raised := Flush(None, 1);
    }
  }

  /** `LogglyHandler(custom_token, app_tags, max_attempts, aws_tag)`: settle
      the tags (None when `app_tags` is None, which makes `_getTags` raise),
      append the EC2 instance tag when asked (`ec2Id` is what the metadata
      request returned, None when it failed), then build the handler. */
  method NewLogglyHandler(customToken: Option<string>, appTags: TagsArg, maxAttempts: int, awsTag: bool,
                          ec2Id: Option<string>, processId: int, rt: Runtime) returns (h: Option<LogglyHandler>)
    modifies if appTags.TagObjects? then {appTags.list} else {}
    ensures appTags.NoTags? <==> h.None?
    ensures h.Some? ==>
      var given := if appTags.TagText? then Split(appTags.text, ',') else old(appTags.list.items);
      var hd := h.value;
      && fresh(hd) && fresh(hd.session)
      && hd.tags.items == NormalizeTags(given) + (if awsTag then [InstanceTag(ec2Id)] else [])
      && hd.endpoint == Endpoint(customToken, hd.tags.items, [])
      && hd.customToken == customToken && hd.maxAttempts == maxAttempts && hd.pid == processId && hd.rt == rt
      && hd.detailIgnoreSet == DetailIgnoreSet(None)
      && hd.logs == [] && hd.timersStarted == 1 && !hd.timerStopped && hd.exitHooks == 1
      && hd.session.posts == [] && hd.reports == [] && hd.Valid()
    ensures h.Some? && appTags.TagText? ==> fresh(h.value.tags)
    ensures h.Some? && appTags.TagObjects? ==> h.value.tags == appTags.list
  {
    var tags := GetTags(appTags);
    if tags.None? {
      return None;
    }
    if awsTag {
      tags.value.Append(InstanceTag(ec2Id));
    }
    var handler := new LogglyHandler(customToken, tags.value, maxAttempts, processId, rt);
    h := Some(handler);
  }
}
