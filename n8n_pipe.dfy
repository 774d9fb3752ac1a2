/**
 * The n8n bridge (`function/n8n_pipe.py`, and its byte-identical copy
 * `n8n-pipe.py`): forward the chat to an n8n webhook, attaching the chat's
 * files to the `<source>` tags of the system prompt, throttle status events,
 * and append n8n's reply to the conversation.
 */
module N8nPipe {
  import opened Wrappers
  import opened Values

  // ------------------------------------------------------------------ files

  /**
   * A file record from the files API. `createdAt` is `x.get("created_at", 0)`,
   * the sort key, with the default already applied.
   */
  datatype FileRec = FileRec(
    id: Option<string>,
    name: Option<string>,
    filename: Option<string>,
    fileName: Option<string>,
    createdAt: int)

  /** Python truthiness of an optional string. */
  predicate Given(s: Option<string>) {
    s.Some? && s.value != ""
  }

  /** `f.get("name") or f.get("filename") or f.get("file_name")`: the first truthy key, else the last one as it is. */
  function FileKey(f: FileRec): (k: Option<string>)
    ensures Given(f.name) ==> k == f.name
    ensures !Given(f.name) && Given(f.filename) ==> k == f.filename
    ensures !Given(f.name) && !Given(f.filename) ==> k == f.fileName
  {
    if Given(f.name) then f.name else if Given(f.filename) then f.filename else f.fileName
  }

  // ------------------------------------------------------- stable sorting

  /** Ascending by `created_at`. */
  predicate SortedByCreated(s: seq<FileRec>) {
    forall i, j :: 0 <= i < j < |s| ==> s[i].createdAt <= s[j].createdAt
  }

  /** `[f]` when `f` was created at time `c`. */
  function Tie(f: FileRec, c: int): seq<FileRec> {
    if f.createdAt == c then [f] else []
  }

  /** The files created at time `c`, in order: stability means sorting keeps this sequence for every `c`. */
  function CreatedAt(s: seq<FileRec>, c: int): seq<FileRec>
    decreases |s|
  {
    if s == [] then [] else Tie(s[0], c) + CreatedAt(s[1..], c)
  }

  /** Put `f` in front of the first element that was not created earlier. */
  function Insert(f: FileRec, s: seq<FileRec>): seq<FileRec>
    decreases |s|
  {
    if s == [] || f.createdAt <= s[0].createdAt then [f] + s
    else [s[0]] + Insert(f, s[1..])
  }

  /** `sorted(data, key=lambda x: x.get("created_at", 0))`: Python's sort is stable. */
  function SortByCreated(s: seq<FileRec>): (sorted: seq<FileRec>)
    ensures multiset(sorted) == multiset(s)
    decreases |s|
  {
    if s == [] then []
    else
      InsertPermutes(s[0], SortByCreated(s[1..]));
      assert s == [s[0]] + s[1..];
      Insert(s[0], SortByCreated(s[1..]))
  }

  lemma {:induction false} InsertPermutes(f: FileRec, s: seq<FileRec>)
    ensures multiset(Insert(f, s)) == multiset(s) + multiset{f}
    decreases |s|
  {
    if s != [] && f.createdAt > s[0].createdAt {
      InsertPermutes(f, s[1..]);
      assert s == [s[0]] + s[1..];
    }
  }

  lemma {:induction false} InsertSorted(f: FileRec, s: seq<FileRec>)
    requires SortedByCreated(s)
    ensures SortedByCreated(Insert(f, s))
    decreases |s|
  {
    if s != [] && f.createdAt > s[0].createdAt {
      var r := Insert(f, s[1..]);
      InsertSorted(f, s[1..]);
      InsertPermutes(f, s[1..]);
      forall j | 0 <= j < |r|
        ensures s[0].createdAt <= r[j].createdAt
      {
        assert r[j] in multiset(r);
        if r[j] != f {
          assert r[j] in multiset(s[1..]);
          var k :| 0 <= k < |s[1..]| && s[1..][k] == r[j];
          assert s[k + 1] == r[j];
        }
      }
      assert Insert(f, s) == [s[0]] + r;
    }
  }

  lemma {:induction false} InsertKeepsTies(f: FileRec, s: seq<FileRec>, c: int)
    ensures CreatedAt(Insert(f, s), c) == Tie(f, c) + CreatedAt(s, c)
    decreases |s|
  {
    if s == [] || f.createdAt <= s[0].createdAt {
      assert ([f] + s)[1..] == s;
    } else {
      var t := s[1..];
      var r := Insert(f, t);
      InsertKeepsTies(f, t, c);
      assert ([s[0]] + r)[1..] == r;
      assert CreatedAt(Insert(f, s), c) == Tie(s[0], c) + CreatedAt(r, c);
      assert Tie(s[0], c) == [] || Tie(f, c) == [];
    }
  }

  /** The file list `get_files_for_session` returns is sorted by creation time and is a permutation of what the API sent. */
  lemma {:induction false} SortByCreatedSorts(s: seq<FileRec>)
    ensures SortedByCreated(SortByCreated(s))
    ensures multiset(SortByCreated(s)) == multiset(s)
    decreases |s|
  {
    if s != [] {
      SortByCreatedSorts(s[1..]);
      InsertSorted(s[0], SortByCreated(s[1..]));
      InsertPermutes(s[0], SortByCreated(s[1..]));
      assert s == [s[0]] + s[1..];
    }
  }

  /** The sort is stable: files created at the same time keep their relative order. */
  lemma {:induction false} SortByCreatedStable(s: seq<FileRec>, c: int)
    ensures CreatedAt(SortByCreated(s), c) == CreatedAt(s, c)
    decreases |s|
  {
    if s != [] {
      SortByCreatedStable(s[1..], c);
      InsertKeepsTies(s[0], SortByCreated(s[1..]), c);
    }
  }

  // -------------------------------------------------------------- grouping

  type Groups = map<Option<string>, seq<FileRec>>

  /** The files whose key is `k`, in order. */
  function WithKey(files: seq<FileRec>, k: Option<string>): seq<FileRec>
    decreases |files|
  {
    if files == [] then []
    else
      var last := files[|files| - 1];
      WithKey(files[..|files| - 1], k) + (if FileKey(last) == k then [last] else [])
  }

  /** `files_grouped.setdefault(fname, []).append(f)` for every file, as a function of the file list. */
  function Grouped(files: seq<FileRec>): Groups
    decreases |files|
  {
    if files == [] then map[]
    else
      var g := Grouped(files[..|files| - 1]);
      var last := files[|files| - 1];
      var k := FileKey(last);
      g[k := (if k in g then g[k] else []) + [last]]
  }

  /** Every key of some file has a group, and that group is exactly the files with that key, in list order. */
  lemma {:induction false} GroupsAreFilters(files: seq<FileRec>)
    ensures forall k :: k in Grouped(files) <==> exists i :: 0 <= i < |files| && FileKey(files[i]) == k
    ensures forall k :: k in Grouped(files) ==> Grouped(files)[k] == WithKey(files, k) != []
    decreases |files|
  {
    if files != [] {
      var init := files[..|files| - 1];
      var last := files[|files| - 1];
      GroupsAreFilters(init);
      forall k | k !in Grouped(init)
        ensures WithKey(init, k) == []
      {
        WithKeyEmpty(init, k);
      }
      forall k
        ensures k in Grouped(files) <==> exists i :: 0 <= i < |files| && FileKey(files[i]) == k
      {
        if k in Grouped(files) && k != FileKey(last) {
          assert k in Grouped(init);
          var i :| 0 <= i < |init| && FileKey(init[i]) == k;
          assert files[i] == init[i];
        }
        if exists i :: 0 <= i < |files| && FileKey(files[i]) == k {
          var i :| 0 <= i < |files| && FileKey(files[i]) == k;
          if i < |init| {
            assert init[i] == files[i];
          }
        }
      }
    }
  }

  lemma {:induction false} WithKeyEmpty(files: seq<FileRec>, k: Option<string>)
    requires forall i :: 0 <= i < |files| ==> FileKey(files[i]) != k
    ensures WithKey(files, k) == []
    decreases |files|
  {
    if files != [] {
      WithKeyEmpty(files[..|files| - 1], k);
    }
  }

  /** The grouping loop of `pipe`. */
  method GroupFiles(files: seq<FileRec>) returns (groups: Groups)
    ensures groups == Grouped(files)
  {
    groups := map[];
    for i := 0 to |files|
      invariant groups == Grouped(files[..i])
    {
      var f := files[i];
      var fname := FileKey(f);
      assert files[..i + 1][..i] == files[..i];
      ghost var next := Grouped(files[..i + 1]);
      assert next == groups[fname := (if fname in groups then groups[fname] else []) + [f]];
      if fname in groups {
        groups := groups[fname := groups[fname] + [f]];
      } else {
        assert [] + [f] == [f];
        groups := groups[fname := [f]];
      }
      assert groups == next;
    }
    assert files[..|files|] == files;
  }

  // ------------------------------------------------------ source matching

  /** One match of the `<source id=… name=…>…</source>` pattern, as `m.groupdict()`. */
  datatype RawSource = RawSource(id: string, name: string, content: string)

  /** A source as forwarded to n8n: the match plus the `file_id` it was paired with. */
  datatype Source = Source(id: string, name: string, content: string, fileId: Option<string>)

  /** How many of `raw` are named `name`: the value of `name_counters[name]` after them. */
  function Count(raw: seq<RawSource>, name: string): nat
    decreases |raw|
  {
    if raw == [] then 0
    else Count(raw[..|raw| - 1], name) + (if raw[|raw| - 1].name == name then 1 else 0)
  }

  /** The id of the `idx`-th file in `name`'s group, or `None` when there is no such file. */
  function MatchedId(groups: Groups, name: string, idx: nat): (id: Option<string>)
    ensures id.Some? ==> Some(name) in groups && idx < |groups[Some(name)]| && id == groups[Some(name)][idx].id
    ensures Some(name) in groups && idx < |groups[Some(name)]| ==> id == groups[Some(name)][idx].id
  {
    if Some(name) in groups && |groups[Some(name)]| > 0 && idx < |groups[Some(name)]| then groups[Some(name)][idx].id
    else None
  }

  function Attach(s: RawSource, fileId: Option<string>): Source {
    Source(s.id, s.name, s.content, fileId)
  }

  /** The sources the matching loop produces, as a function of the extracted matches. */
  function Matched(groups: Groups, raw: seq<RawSource>): (sources: seq<Source>)
    ensures |sources| == |raw|
    decreases |raw|
  {
    if raw == [] then []
    else
      var init := raw[..|raw| - 1];
      var last := raw[|raw| - 1];
      Matched(groups, init) + [Attach(last, MatchedId(groups, last.name, Count(init, last.name)))]
  }

  /** The k-th source named N is paired with the k-th file of N's group, or with `None` when the group is shorter. */
  lemma {:induction false} MatchedPairsKth(groups: Groups, raw: seq<RawSource>)
    ensures forall j :: 0 <= j < |raw| ==>
      Matched(groups, raw)[j] == Attach(raw[j], MatchedId(groups, raw[j].name, Count(raw[..j], raw[j].name)))
    decreases |raw|
  {
    if raw != [] {
      var init := raw[..|raw| - 1];
      MatchedPairsKth(groups, init);
      forall j | 0 <= j < |init|
        ensures raw[..j] == init[..j]
      {
      }
    }
  }

  lemma {:induction false} CountGrows(raw: seq<RawSource>, i: nat, j: nat, name: string)
    requires i <= j <= |raw|
    ensures Count(raw[..i], name) <= Count(raw[..j], name)
    decreases j - i
  {
    if i < j {
      CountGrows(raw, i, j - 1, name);
      assert raw[..j][..j - 1] == raw[..j - 1];
    }
  }

  /** Two sources with the same name get different positions in their group, so distinct files when the group's ids are distinct. */
  lemma NoFileMatchedTwice(groups: Groups, raw: seq<RawSource>, j1: nat, j2: nat)
    requires j1 < j2 < |raw| && raw[j1].name == raw[j2].name
    requires Some(raw[j1].name) in groups
    requires forall a, b :: 0 <= a < b < |groups[Some(raw[j1].name)]| ==>
      groups[Some(raw[j1].name)][a].id != groups[Some(raw[j1].name)][b].id
    ensures Matched(groups, raw)[j1].fileId == None || Matched(groups, raw)[j1].fileId != Matched(groups, raw)[j2].fileId
  {
    var name := raw[j1].name;
    MatchedPairsKth(groups, raw);
    CountGrows(raw, j1 + 1, j2, name);
    assert raw[..j1 + 1][..j1] == raw[..j1];
    assert Count(raw[..j1], name) < Count(raw[..j2], name);
  }

  /** The counting loop of `pipe` over the extracted sources. */
  method MatchSources(groups: Groups, raw: seq<RawSource>) returns (sources: seq<Source>)
    ensures sources == Matched(groups, raw)
  {
    var nameCounters: map<string, nat> := map[];
    sources := [];
    for i := 0 to |raw|
      invariant sources == Matched(groups, raw[..i])
      invariant forall n :: n in nameCounters ==> nameCounters[n] == Count(raw[..i], n)
      invariant forall n :: n !in nameCounters ==> Count(raw[..i], n) == 0
    {
      var s := raw[i];
      var name := s.name;
      var idx := if name in nameCounters then nameCounters[name] else 0;
      var fileId: Option<string> := None;
      if Some(name) in groups {
        var fileList := groups[Some(name)];
        if |fileList| > 0 && idx < |fileList| {
          fileId := fileList[idx].id;
        }
      }
      assert raw[..i + 1][..i] == raw[..i];
      nameCounters := nameCounters[name := idx + 1];
      sources := sources + [Attach(s, fileId)];
    }
    assert raw[..|raw|] == raw;
  }

  // -------------------------------------------------------------- messages

  /** A chat message; `content` is absent or any JSON value. */
  datatype Message = Message(role: Option<string>, content: Option<Json>)

  /** `next((m for m in messages if m.get("role") == "system"), None)`, as a position. */
  function FirstSystem(messages: seq<Message>): (r: Option<nat>)
    ensures r.Some? ==> r.value < |messages| && messages[r.value].role == Some("system")
    ensures r.Some? ==> forall i :: 0 <= i < r.value ==> messages[i].role != Some("system")
    ensures r.None? ==> forall i :: 0 <= i < |messages| ==> messages[i].role != Some("system")
    decreases |messages|
  {
    if messages == [] then None
    else if messages[0].role == Some("system") then Some(0)
    else match FirstSystem(messages[1..])
      case None => None
      case Some(i) => Some(i + 1)
  }

  /** `messages[-1].get("content", "")` */
  function Question(messages: seq<Message>): (question: Json)
    requires messages != []
    ensures messages[|messages| - 1].content.Some? ==> question == messages[|messages| - 1].content.value
    ensures messages[|messages| - 1].content.None? ==> question == JStr("")
  {
    messages[|messages| - 1].content.GetOr(JStr(""))
  }

  /** The system prompt text to scan, when it is a string containing `<source`. */
  function SourceText(messages: seq<Message>): (text: Option<string>)
    ensures text.Some? ==> Contains(text.value, "<source")
    ensures text.Some? ==> FirstSystem(messages).Some? && messages[FirstSystem(messages).value].content == Some(JStr(text.value))
    ensures FirstSystem(messages).Some? ==>
      var content := messages[FirstSystem(messages).value].content;
      content.Some? && content.value.JStr? && Contains(content.value.s, "<source") ==> text == Some(content.value.s)
  {
    match FirstSystem(messages)
    case None => None
    case Some(i) =>
      match messages[i].content
      case Some(JStr(t)) => if Contains(t, "<source") then Some(t) else None
      case _ => None
  }

  // ------------------------------------------------------------- the pipe

  /** `Pipe.Valves` */
  datatype Valves = Valves(
    n8nUrl: string,
    n8nBearerToken: string,
    openwebuiApiUrl: string,
    openwebuiApiToken: Option<string>,
    inputField: string,
    responseField: string,
    emitInterval: real,
    enableStatusIndicator: bool)

  const DefaultValves: Valves := Valves(
    "https://n8n.[your domain].com/webhook/[your webhook]",
    "...",
    "http://localhost:8080/api/v1/files",
    None,
    "chatInput",
    "output",
    2.0,
    true)

  /** A status event as `emit_status` sends it. */
  datatype Status = Status(status: string, level: string, description: string, done: bool)

  /** The event for one `emit_status` call that is let through. */
  function StatusFor(level: string, message: string, done: bool): (e: Status)
    ensures e.status == "complete" <==> done
    ensures e.status in {"complete", "in_progress"}
    ensures e.level == level && e.description == message && e.done == done
  {
    Status(if done then "complete" else "in_progress", level, message, done)
  }

  /** The throttle: the indicator is on and either `emit_interval` has passed since the last event or this is the final one. */
  function ShouldEmit(valves: Valves, lastEmitTime: real, now: real, done: bool): (emit: bool)
    ensures !valves.enableStatusIndicator ==> !emit
    ensures valves.enableStatusIndicator && done ==> emit
    ensures !done ==> (emit <==> valves.enableStatusIndicator && now - lastEmitTime >= valves.emitInterval)
  {
    valves.enableStatusIndicator && (now - lastEmitTime >= valves.emitInterval || done)
  }

  /**
   * The body sent to n8n: a copy of the chat body (`rest` holds its keys
   * other than `messages`) with `sessionId`, the question under the
   * configured input field, and `sources` when there are any (`[]` stands
   * for the key being absent).
   */
  datatype Payload = Payload(
    rest: map<string, Json>,
    messages: seq<Message>,
    sessionId: string,
    inputField: string,
    question: Json,
    sources: seq<Source>)

  /** `str(chat_id)` */
  function SessionId(chatId: Option<string>): (id: string)
    ensures chatId.Some? ==> id == chatId.value
    ensures chatId.None? ==> id == "None"
    ensures id == "" <==> chatId == Some("")
  {
    match chatId
    case None => "None"
    case Some(c) => c
  }

  /** The bearer token for the files API: the configured one, else one minted for the user's id, else none (`""`). */
  function FilesToken(apiToken: Option<string>, user: Option<UserRecord>, mint: string -> string): (t: string)
    ensures Given(apiToken) ==> t == apiToken.value
    ensures !Given(apiToken) && user.Some? && UserField(user.value, "id") != "" ==> t == mint(user.value["id"])
    ensures !Given(apiToken) && (user.None? || UserField(user.value, "id") == "") ==> t == ""
  {
    if Given(apiToken) then apiToken.value
    else if user.Some? && |user.value| > 0 && UserField(user.value, "id") != "" then mint(user.value["id"])
    else ""
  }

  /** The headers of `get_files_for_session`: `Authorization` exactly when there is a token. */
  function FilesHeaders(token: string): (h: map<string, string>)
    ensures "Authorization" in h <==> token != ""
    ensures "Authorization" in h ==> h["Authorization"] == "Bearer " + token
    ensures |h.Keys| <= 1
  {
    if token != "" then map["Authorization" := "Bearer " + token] else map[]
  }

  /** The headers of the post to n8n. */
  function N8nHeaders(valves: Valves): (h: map<string, string>)
    ensures h.Keys == {"Authorization", "Content-Type"}
    ensures h["Authorization"] == "Bearer " + valves.n8nBearerToken && h["Content-Type"] == "application/json"
  {
    map["Authorization" := "Bearer " + valves.n8nBearerToken, "Content-Type" := "application/json"]
  }

  /** The HTTP calls `pipe` makes, in order. */
  datatype Call =
    | GetFiles(url: string, sessionId: string, headers: map<string, string>)
    | PostN8n(url: string, payload: Payload, headers: map<string, string>)

  /** The files API's answer: the decoded list, or an error status / transport failure. */
  datatype FilesResponse = FilesOk(files: seq<FileRec>) | FilesFailed

  /** n8n's answer: the decoded body, or the text of the exception raised. */
  datatype N8nResponse = N8nOk(data: Json) | N8nFailed(error: string)

  /** What `pipe` returns: n8n's reply, an `{"error": …}` dict, or an exception it lets escape. */
  datatype Outcome = Reply(reply: Json) | Error(error: string) | Raised

  /** `data.get(response_field) if isinstance(data, dict) else None`; `JNull` stands for `None`. */
  function ReplyOf(data: Json, responseField: string): (reply: Json)
    ensures data.JObj? && responseField in data.fields ==> reply == data.fields[responseField]
    ensures !(data.JObj? && responseField in data.fields) ==> reply == JNull
  {
    if data.JObj? && responseField in data.fields then data.fields[responseField] else JNull
  }

  /** Whether `pipe` asks the files API: `payload.get("sessionId")` is truthy. */
  function FetchesFiles(chatId: Option<string>): (fetch: bool)
    ensures fetch <==> chatId != Some("")
  {
    SessionId(chatId) != ""
  }

  /** The files request for the chat. */
  function FilesCall(valves: Valves, chatId: Option<string>, user: Option<UserRecord>, mint: string -> string): Call {
    GetFiles(valves.openwebuiApiUrl, SessionId(chatId), FilesHeaders(FilesToken(valves.openwebuiApiToken, user, mint)))
  }

  /** The sources attached to the payload: the matches of the first system message, paired with the chat's files. */
  function SourcesFor(messages: seq<Message>, files: seq<FileRec>, extract: string -> seq<RawSource>): seq<Source> {
    match SourceText(messages)
    case None => []
    case Some(t) => Matched(Grouped(files), extract(t))
  }

  /** The payload built from a non-empty conversation and the (sorted) files of the chat. */
  function PayloadFor(valves: Valves, rest: map<string, Json>, messages: seq<Message>, chatId: Option<string>,
                      files: seq<FileRec>, extract: string -> seq<RawSource>): Payload
    requires messages != []
  {
    Payload(rest, messages, SessionId(chatId), valves.inputField, Question(messages), SourcesFor(messages, files, extract))
  }

  /** The last event sent is `e`. */
  predicate EndsWith(events: seq<Status>, e: Status) {
    |events| > 0 && events[|events| - 1] == e
  }

  /**
   * The middle of `pipe`, between the message check and the post to n8n:
   * fetch and sort the chat's files when there is a session id, group them
   * by name, pair them with the sources of the system prompt and build the
   * payload. `None` stands for the exception a failed files request raises.
   */
  method Prepare(valves: Valves, rest: map<string, Json>, messages: seq<Message>, chatId: Option<string>,
                 user: Option<UserRecord>, mint: string -> string, filesResponse: FilesResponse,
                 extract: string -> seq<RawSource>)
    returns (payload: Option<Payload>, calls: seq<Call>)
    requires messages != []
    ensures calls == if FetchesFiles(chatId) then [FilesCall(valves, chatId, user, mint)] else []
    ensures payload.None? <==> FetchesFiles(chatId) && filesResponse.FilesFailed?
    ensures payload.Some? ==>
      payload.value == PayloadFor(valves, rest, messages, chatId,
                                  if FetchesFiles(chatId) then SortByCreated(filesResponse.files) else [], extract)
  {
    var question := Question(messages);
    var sessionId := SessionId(chatId);
    calls := [];
    var files: seq<FileRec> := [];
    if sessionId != "" {
      var token := FilesToken(valves.openwebuiApiToken, user, mint);
      calls := calls + [GetFiles(valves.openwebuiApiUrl, sessionId, FilesHeaders(token))];
      match filesResponse
      case FilesFailed =>
        return None, calls;
      case FilesOk(data) =>
        files := SortByCreated(data);
    }
    var filesGrouped := GroupFiles(files);

    var sources: seq<Source> := [];
    var systemMsg := FirstSystem(messages);
    if systemMsg.Some? && messages[systemMsg.value].content.Some? && messages[systemMsg.value].content.value.JStr? {
      var text := messages[systemMsg.value].content.value.s;
      if Contains(text, "<source") {
        sources := MatchSources(filesGrouped, extract(text));
      }
    }
    payload := Some(Payload(rest, messages, sessionId, valves.inputField, question, sources));
  }

  /** The request body a caller passes to `pipe`; only `messages` is ever changed. */
  class ChatBody {
    var messages: seq<Message>
    const rest: map<string, Json>

    constructor (messages: seq<Message>, rest: map<string, Json>)
      ensures this.messages == messages && this.rest == rest
    {
      this.messages := messages;
      this.rest := rest;
    }
  }

  /** `Pipe`: the valves, the debug switch and the time of the last status event. */
  class Pipe {
    const valves: Valves
    const debug: bool
    var lastEmitTime: real

    constructor (debug: bool)
      ensures valves == DefaultValves && this.debug == debug && lastEmitTime == 0.0
    {
      valves := DefaultValves;
      this.debug := debug;
      lastEmitTime := 0.0;
    }

    /**
     * `emit_status`: without an emitter nothing happens; otherwise the event
     * is sent when the throttle lets it through, and only then is the time
     * recorded.
     */
    method EmitStatus(attached: bool, level: string, message: string, done: bool, now: real)
      returns (events: seq<Status>)
      modifies this
      ensures events == if attached && ShouldEmit(valves, old(lastEmitTime), now, done) then [StatusFor(level, message, done)] else []
      ensures lastEmitTime == if events != [] then now else old(lastEmitTime)
    {
      events := [];
      if !attached {
        return;
      }
      if valves.enableStatusIndicator && (now - lastEmitTime >= valves.emitInterval || done) {
        events := [StatusFor(level, message, done)];
        lastEmitTime := now;
      }
    }
    /**
     * `pipe`. The host's side is given as inputs: whether an emitter is
     * attached, the chat id read from it, the clock (the k-th status call
     * reads `clock(k)`), the token minting function, the answers of the
     * files API and of n8n, and the `<source>` pattern matcher.
     */
    method Pipe(body: ChatBody, user: Option<UserRecord>, attached: bool, chatId: Option<string>,
                clock: nat -> real, mint: string -> string, filesResponse: FilesResponse,
                extract: string -> seq<RawSource>, n8n: N8nResponse)
      returns (outcome: Outcome, calls: seq<Call>, events: seq<Status>)
      modifies this, body
      ensures !attached ==> events == [] && lastEmitTime == old(lastEmitTime)
      ensures forall e :: e in events ==> (e.status == "complete" <==> e.done)
      ensures old(body.messages) == [] ==>
        && outcome == Error("No messages found") && calls == [] && body.messages == old(body.messages)
        && (attached && valves.enableStatusIndicator ==> EndsWith(events, StatusFor("error", "No messages", true)))
      ensures old(body.messages) != [] && FetchesFiles(chatId) && filesResponse.FilesFailed? ==>
        && outcome == Raised && calls == [FilesCall(valves, chatId, user, mint)] && body.messages == old(body.messages)
      ensures old(body.messages) != [] && !(FetchesFiles(chatId) && filesResponse.FilesFailed?) ==>
        var files := if FetchesFiles(chatId) then SortByCreated(filesResponse.files) else [];
        && calls == (if FetchesFiles(chatId) then [FilesCall(valves, chatId, user, mint)] else []) +
                    [PostN8n(valves.n8nUrl, PayloadFor(valves, body.rest, old(body.messages), chatId, files, extract), N8nHeaders(valves))]
        && (n8n.N8nFailed? ==>
              && outcome == Error(n8n.error) && body.messages == old(body.messages)
              && (attached && valves.enableStatusIndicator ==> EndsWith(events, StatusFor("error", n8n.error, true))))
        && (n8n.N8nOk? ==>
              && outcome == Reply(ReplyOf(n8n.data, valves.responseField))
              && body.messages == old(body.messages) + [Message(Some("assistant"), Some(outcome.reply))]
              && (attached && valves.enableStatusIndicator ==> EndsWith(events, StatusFor("info", "Complete", true))))
    {
      var k: nat := 0;
      events := EmitStatus(attached, "info", "Calling n8n Agent\U{2026}", false, clock(k));
      k := k + 1;
      var messages := body.messages;
      if messages == [] {
        var last := EmitStatus(attached, "error", "No messages", true, clock(k));
        events := events + last;
        return Error("No messages found"), [], events;
      }
      var payload;
      payload, calls := Prepare(valves, body.rest, messages, chatId, user, mint, filesResponse, extract);
      if payload.None? {
        return Raised, calls, events;
      }
      var rest;
      outcome, rest := Deliver(body, payload.value, attached, clock, k, n8n);
      calls := calls + [PostN8n(valves.n8nUrl, payload.value, N8nHeaders(valves))];
      events := events + rest;
    }

    /**
     * The end of `pipe` once the payload is built: the debug event, the post
     * to n8n, and either the error result or the reply appended to the chat.
     */
    method Deliver(body: ChatBody, payload: Payload, attached: bool, clock: nat -> real, k: nat, n8n: N8nResponse)
      returns (outcome: Outcome, events: seq<Status>)
      modifies this, body
      ensures !attached ==> events == [] && lastEmitTime == old(lastEmitTime)
      ensures forall e :: e in events ==> (e.status == "complete" <==> e.done)
      ensures n8n.N8nFailed? ==>
        && outcome == Error(n8n.error) && body.messages == old(body.messages)
        && (attached && valves.enableStatusIndicator ==> EndsWith(events, StatusFor("error", n8n.error, true)))
      ensures n8n.N8nOk? ==>
        && outcome == Reply(ReplyOf(n8n.data, valves.responseField))
        && body.messages == old(body.messages) + [Message(Some("assistant"), Some(outcome.reply))]
        && (attached && valves.enableStatusIndicator ==> EndsWith(events, StatusFor("info", "Complete", true)))
    {
      var k := k;
      events := [];
      if debug {
        events := EmitStatus(attached, "debug", "FULL PAYLOAD attached", false, clock(k));
        k := k + 1;
      }
      match n8n
      case N8nFailed(exc) =>
        var last := EmitStatus(attached, "error", exc, true, clock(k));
        events := events + last;
        return Error(exc), events;
      case N8nOk(data) =>
        var reply := ReplyOf(data, valves.responseField);
        body.messages := body.messages + [Message(Some("assistant"), Some(reply))];
        var last := EmitStatus(attached, "info", "Complete", true, clock(k));
        events := events + last;
        return Reply(reply), events;
    }
  }
}
