/**
 * The Open WebUI REST helper (`tools/openwebui_tool.py`): choose the base URL
 * and bearer token, build the headers, turn whatever the server answers
 * into a status and a JSON value, and wrap the knowledge and file endpoints
 * with status events.
 */
module OpenWebUiTool {
  import opened Wrappers
  import opened Values
  import opened Seqs

  /** The default of `WEBUI_API_URL`. */
  const DefaultApiBaseUrl: string := "http://localhost:8080"

  /** `s.rstrip("/")` */
  function RStripSlash(s: string): (r: string)
    ensures |r| <= |s| && r == s[..|r|]
    ensures r == [] || r[|r| - 1] != '/'
    ensures forall i :: |r| <= i < |s| ==> s[i] == '/'
    decreases |s|
  {
    if s != [] && s[|s| - 1] == '/' then RStripSlash(s[..|s| - 1]) else s
  }

  /** What the server side of one request came to. */
  datatype Transport =
    | Answered(status: int, text: string)  // the response status and its body text
    | Failed(message: string)              // an exception, as `str(exc)`

  /** `json.loads(text) if text else {}`, falling back to `{"message": text}` when the text is not JSON. */
  function DecodeBody(text: string, parse: string -> Option<Json>): (data: Json)
    ensures text == "" ==> data == JObj(map[])
    ensures text != "" && parse(text).Some? ==> data == parse(text).value
    ensures text != "" && parse(text).None? ==> data == JObj(map["message" := JStr(text)])
  {
    if text == "" then JObj(map[])
    else match parse(text)
      case Some(j) => j
      case None => JObj(map["message" := JStr(text)])
  }

  /** The `(status, data)` pair `_request` returns; a failed request is status 0. */
  function Outcome(transport: Transport, parse: string -> Option<Json>): (r: (int, Json))
    ensures transport.Failed? ==> r == (0, JObj(map["message" := JStr(transport.message)]))
    ensures transport.Answered? ==> r.0 == transport.status
    ensures transport.Answered? ==> r.1 == DecodeBody(transport.text, parse)
  {
    match transport
    case Answered(status, text) => (status, DecodeBody(text, parse))
    case Failed(message) => (0, JObj(map["message" := JStr(message)]))
  }

  /** A request as it leaves the tool. */
  datatype Request = Request(verb: string, url: string, body: Option<Json>, headers: map<string, string>)

  /** What a tool method returns: `json.dumps(value)`, or an exception that escapes it. */
  datatype Output = Dumps(value: Json) | Raised

  /** A status event. */
  datatype Status = Status(status: string, description: string, done: bool)

  /** The host's event callback; `received` is every event passed to it so far. */
  class Sink {
    var received: seq<Status>

    constructor ()
      ensures received == []
    {
      received := [];
    }
  }

  /** `EventEmitter`: nothing is sent without a callback. */
  class EventEmitter {
    const sink: Sink?

    constructor (sink: Sink?)
      ensures this.sink == sink
    {
      this.sink := sink;
    }

    method Emit(description: string, status: string := "in_progress", done: bool := false)
      modifies sink
      ensures sink != null ==> sink.received == old(sink.received) + [Status(status, description, done)]
    {
      if sink != null {
        sink.received := sink.received + [Status(status, description, done)];
      }
    }
  }

  // -------------------------------------------------------------- endpoints

  /** The knowledge and file endpoints that differ only in their request and messages. */
  datatype Endpoint =
    | CreateKnowledge(name: string, description: string)
    | KnowledgeList
    | GetKnowledgeById(knowledgeId: string)
    | DeleteKnowledge(knowledgeId: string)
    | DeleteFile(fileId: string)
  {
    function Verb(): string {
      match this
      case CreateKnowledge(_, _) => "POST"
      case KnowledgeList => "GET"
      case GetKnowledgeById(_) => "GET"
      case DeleteKnowledge(_) => "DELETE"
      case DeleteFile(_) => "DELETE"
    }

    function Path(): string {
      match this
      case CreateKnowledge(_, _) => "/api/v1/knowledge/create"
      case KnowledgeList => "/api/v1/knowledge/list"
      case GetKnowledgeById(id) => "/api/v1/knowledge/" + id
      case DeleteKnowledge(id) => "/api/v1/knowledge/" + id + "/delete"
      case DeleteFile(id) => "/api/v1/files/" + id
    }

    function Body(): Option<Json> {
      match this
      case CreateKnowledge(name, description) =>
        Some(JObj(map["name" := JStr(name), "description" := JStr(description)]))
      case _ => None
    }

    function Starting(): string {
      match this
      case CreateKnowledge(_, _) => "Creating knowledge entry..."
      case KnowledgeList => "Fetching knowledges..."
      case GetKnowledgeById(_) => "Fetching knowledge..."
      case DeleteKnowledge(_) => "Deleting knowledge..."
      case DeleteFile(_) => "Deleting file..."
    }

    function Succeeded(): string {
      match this
      case CreateKnowledge(_, _) => "Knowledge created"
      case KnowledgeList => "Knowledge list retrieved"
      case GetKnowledgeById(_) => "Knowledge retrieved"
      case DeleteKnowledge(_) => "Knowledge deleted"
      case DeleteFile(_) => "File deleted"
    }

    function Failed(): string {
      match this
      case CreateKnowledge(_, _) => "Failed to create knowledge"
      case KnowledgeList => "Failed to fetch knowledges"
      case GetKnowledgeById(_) => "Knowledge not found"
      case DeleteKnowledge(_) => "Deletion failed"
      case DeleteFile(_) => "Deletion failed"
    }
  }

  /** The final event of an endpoint helper: success exactly when the status is 200. */
  function Verdict(ep: Endpoint, status: int): (e: Status)
    ensures e.done
    ensures e.status == "success" <==> status == 200
    ensures e.status == "success" ==> e.description == ep.Succeeded()
    ensures e.status != "success" ==> e == Status("error", ep.Failed(), true)
  {
    if status == 200 then Status("success", ep.Succeeded(), true) else Status("error", ep.Failed(), true)
  }

  // ------------------------------------------------------------ file lists

  /** Iterating a decoded body with `for f in data`; `None` when that raises or when an element has no `.get`. */
  function Items(data: Json): (items: Option<seq<Json>>)
    ensures data.JArr? ==> items == Some(data.items)
    ensures items.Some? && !data.JArr? ==> items == Some([])
    ensures items.Some? <==> data.JArr? || data == JObj(map[]) || data == JStr("")
  {
    match data
    case JArr(a) => Some(a)
    case JObj(m) => if |m| == 0 then Some([]) else None  // iterates the keys, which are strings
    case JStr(s) => if s == "" then Some([]) else None    // iterates the characters
    case _ => None
  }

  /** `f.get("meta", {}).get(key)`, with `JNull` for `None`; `None` when `f` or its meta is not a dict. */
  function MetaValue(f: Json, key: string): (v: Option<Json>)
    ensures v.None? <==> !f.JObj? || ("meta" in f.fields && !f.fields["meta"].JObj?)
    ensures f.JObj? && "meta" !in f.fields ==> v == Some(JNull)
    ensures v.Some? && v.value != JNull ==> "meta" in f.fields && key in f.fields["meta"].fields && v.value == f.fields["meta"].fields[key]
    ensures f.JObj? && "meta" in f.fields && f.fields["meta"].JObj? ==>
      v == Some(if key in f.fields["meta"].fields then f.fields["meta"].fields[key] else JNull)
  {
    if !f.JObj? then None
    else
      var meta := if "meta" in f.fields then f.fields["meta"] else JObj(map[]);
      if !meta.JObj? then None
      else Some(if key in meta.fields then meta.fields[key] else JNull)
  }

  /** The files whose meta value under `key` is `value`, in order. */
  function Kept(files: seq<Json>, key: string, value: Json): (kept: seq<Json>)
    ensures forall f :: f in kept <==> f in files && MetaValue(f, key) == Some(value)
    decreases |files|
  {
    if files == [] then []
    else
      var last := files[|files| - 1];
      var before := Kept(files[..|files| - 1], key, value);
      assert forall f :: f in files <==> f in files[..|files| - 1] || f == last;
      before + (if MetaValue(last, key) == Some(value) then [last] else [])
  }

  /**
   * `[f for f in files if f.get("meta", {}).get(key) == value]`: it raises
   * (`None`) as soon as a file or its meta is not a dict, and otherwise keeps
   * the matching files.
   */
  function FilterByMeta(files: seq<Json>, key: string, value: Json): (r: Option<seq<Json>>)
    ensures r.None? <==> exists i :: 0 <= i < |files| && MetaValue(files[i], key).None?
    ensures r.Some? ==> forall f :: f in r.value <==> f in files && MetaValue(f, key) == Some(value)
  {
    if forall i :: 0 <= i < |files| ==> MetaValue(files[i], key).Some? then Some(Kept(files, key, value)) else None
  }

  /** The kept files stay in the order the server listed them. */
  lemma {:induction false} KeptInOrder(files: seq<Json>, key: string, value: Json)
    ensures IsSubsequence(Kept(files, key, value), files)
    decreases |files|
  {
    if files != [] {
      var init := files[..|files| - 1];
      var last := files[|files| - 1];
      var before := Kept(init, key, value);
      KeptInOrder(init, key, value);
      SubsequenceSnoc(before, init, last);
      assert files == init + [last];
      if MetaValue(last, key) == Some(value) {
        assert Kept(files, key, value) == before + [last];
      } else {
        assert Kept(files, key, value) == before;
      }
    }
  }

  /** What a file helper reports after a successful listing: `Found N file(s)` and `{"files": filtered}`. */
  function FoundFiles(filtered: seq<Json>): (r: (Status, Json))
    ensures r.0 == Status("success", "Found " + Decimal(|filtered|) + " file(s)", true)
    ensures r.1.JObj? && r.1.fields.Keys == {"files"} && r.1.fields["files"] == JArr(filtered)
  {
    (Status("success", "Found " + Decimal(|filtered|) + " file(s)", true), JObj(map["files" := JArr(filtered)]))
  }

  /** `Tools`: the base URL and token the helpers use. */
  class Tools {
    const baseUrl: string
    const token: string

    /**
     * `Tools(base_url, token)`; `apiBaseUrl` and `apiToken` are
     * `WEBUI_API_URL` and `WEBUI_JWT` as read from the environment.
     */
    constructor (baseUrl: Option<string>, token: Option<string>, apiBaseUrl: string, apiToken: string)
      ensures baseUrl.Some? && baseUrl.value != "" ==> this.baseUrl == baseUrl.value
      ensures !(baseUrl.Some? && baseUrl.value != "") ==> this.baseUrl == RStripSlash(apiBaseUrl)
      ensures token.Some? && token.value != "" ==> this.token == token.value
      ensures !(token.Some? && token.value != "") ==> this.token == apiToken
    {
      this.baseUrl := if baseUrl.Some? && baseUrl.value != "" then baseUrl.value else RStripSlash(apiBaseUrl);
      this.token := if token.Some? && token.value != "" then token.value else apiToken;
    }

    /** `_token_for_user`: the configured token, else one minted for the user's id, else `""`. */
    function TokenForUser(user: Option<UserRecord>, mint: string -> string): (t: string)
      ensures token != "" ==> t == token
      ensures token == "" && user.Some? && UserField(user.value, "id") != "" ==> t == mint(user.value["id"])
      ensures token == "" && (user.None? || UserField(user.value, "id") == "") ==> t == ""
    {
      if token != "" then token
      else
        var id := if user.Some? then UserField(user.value, "id") else "";
        if id != "" then mint(id) else ""
    }

    /** `_headers`: always JSON, and a bearer token exactly when there is one. */
    function Headers(user: Option<UserRecord>, mint: string -> string): (h: map<string, string>)
      ensures "Content-Type" in h && h["Content-Type"] == "application/json"
      ensures "Authorization" in h <==> TokenForUser(user, mint) != ""
      ensures "Authorization" in h ==> h["Authorization"] == "Bearer " + TokenForUser(user, mint)
      ensures h.Keys <= {"Content-Type", "Authorization"}
    {
      var h := map["Content-Type" := "application/json"];
      var t := TokenForUser(user, mint);
      if t != "" then h["Authorization" := "Bearer " + t] else h
    }

    /** The request `_request` sends. */
    function RequestFor(verb: string, endpoint: string, body: Option<Json>, user: Option<UserRecord>, mint: string -> string): (r: Request)
      ensures r.url == baseUrl + endpoint && r.verb == verb && r.body == body
      ensures r.headers == Headers(user, mint)
    {
      Request(verb, baseUrl + endpoint, body, Headers(user, mint))
    }

    /**
     * One endpoint helper (`create_knowledge`, `knowledge_list`,
     * `get_knowledge_by_id`, `delete_knowledge`, `delete_file`): announce,
     * send, report success exactly on status 200, and return the data.
     */
    method CallEndpoint(ep: Endpoint, user: Option<UserRecord>, sink: Sink?, mint: string -> string,
                        transport: Transport, parse: string -> Option<Json>)
      returns (out: Output, request: Request)
      modifies sink
      ensures request == RequestFor(ep.Verb(), ep.Path(), ep.Body(), user, mint)
      ensures out == Dumps(Outcome(transport, parse).1)
      ensures sink != null ==>
        sink.received == old(sink.received) + [Status("in_progress", ep.Starting(), false), Verdict(ep, Outcome(transport, parse).0)]
    {
      var emitter := new EventEmitter(sink);
      emitter.Emit(ep.Starting());
      request := RequestFor(ep.Verb(), ep.Path(), ep.Body(), user, mint);
      var (status, data) := Outcome(transport, parse);
      if status == 200 {
        emitter.Emit(ep.Succeeded(), "success", true);
      } else {
        emitter.Emit(ep.Failed(), "error", true);
      }
      out := Dumps(data);
    }

    /**
     * `get_files_this_chat`: without a chat id in the metadata, report the
     * missing context and send nothing; otherwise list the files and keep
     * those whose `meta.chat_id` is this chat's.
     */
    method GetFilesThisChat(metadata: Option<map<string, Json>>, user: Option<UserRecord>, sink: Sink?,
                            mint: string -> string, transport: Transport, parse: string -> Option<Json>)
      returns (out: Output, request: Option<Request>)
      modifies sink
      ensures var chatId := ChatIdOf(metadata);
        && (!Truthy(chatId) ==>
              && out == Dumps(JObj(map["message" := JStr("Missing chat context")])) && request == None
              && (sink != null ==> sink.received == old(sink.received) + [Status("error", "Missing chat context", true)]))
        && (Truthy(chatId) ==>
              && request == Some(RequestFor("GET", "/api/v1/files/", None, user, mint))
              && out == Listing(transport, parse, "chat_id", chatId).0
              && (sink != null ==>
                   sink.received == old(sink.received) + [Status("in_progress", "Fetching chat files...", false)] +
                                    Listing(transport, parse, "chat_id", chatId).1))
    {
      var emitter := new EventEmitter(sink);
      var chatId := ChatIdOf(metadata);
      if !Truthy(chatId) {
        emitter.Emit("Missing chat context", "error", true);
        return Dumps(JObj(map["message" := JStr("Missing chat context")])), None;
      }
      emitter.Emit("Fetching chat files...");
      request := Some(RequestFor("GET", "/api/v1/files/", None, user, mint));
      out := ListFiles(emitter, transport, parse, "chat_id", chatId);
    }

    /**
     * `get_files_from_knowledge`: list the files and keep those whose
     * `meta.collection_name` is the knowledge id.
     */
    method GetFilesFromKnowledge(knowledgeId: string, user: Option<UserRecord>, sink: Sink?,
                                 mint: string -> string, transport: Transport, parse: string -> Option<Json>)
      returns (out: Output, request: Request)
      modifies sink
      ensures request == RequestFor("GET", "/api/v1/files/", None, user, mint)
      ensures out == Listing(transport, parse, "collection_name", JStr(knowledgeId)).0
      ensures sink != null ==>
        sink.received == old(sink.received) + [Status("in_progress", "Fetching knowledge files...", false)] +
                         Listing(transport, parse, "collection_name", JStr(knowledgeId)).1
    {
      var emitter := new EventEmitter(sink);
      emitter.Emit("Fetching knowledge files...");
      request := RequestFor("GET", "/api/v1/files/", None, user, mint);
      out := ListFiles(emitter, transport, parse, "collection_name", JStr(knowledgeId));
    }
  }

  /** `(__metadata__ or {}).get("chat_id")`, with `JNull` for `None`. */
  function ChatIdOf(metadata: Option<map<string, Json>>): (chatId: Json)
    ensures metadata.None? || "chat_id" !in metadata.value ==> chatId == JNull
    ensures metadata.Some? && "chat_id" in metadata.value ==> chatId == metadata.value["chat_id"]
  {
    if metadata.Some? && "chat_id" in metadata.value then metadata.value["chat_id"] else JNull
  }

  /**
   * The tail shared by the two file helpers, on a listing filtered on
   * `meta[key] == value`: what is returned and the closing event, if any.
   */
  function Listing(transport: Transport, parse: string -> Option<Json>, key: string, value: Json): (r: (Output, seq<Status>))
    ensures r.0 == Raised <==> r.1 == []
    ensures r.1 != [] ==> |r.1| == 1 && r.1[0].done
    ensures r.1 != [] ==> (r.1[0].status == "success" <==> Outcome(transport, parse).0 == 200)
    ensures Outcome(transport, parse).0 != 200 ==> r == (Dumps(Outcome(transport, parse).1), [Status("error", "Error contacting API", true)])
    ensures Outcome(transport, parse).0 == 200 ==>
      (r.0 == Raised <==> Items(Outcome(transport, parse).1).None? ||
                          FilterByMeta(Items(Outcome(transport, parse).1).value, key, value).None?)
  {
    var (status, data) := Outcome(transport, parse);
    if status != 200 then (Dumps(data), [Status("error", "Error contacting API", true)])
    else match Items(data)
      case None => (Raised, [])
      case Some(files) =>
        match FilterByMeta(files, key, value)
        case None => (Raised, [])
        case Some(filtered) => (Dumps(FoundFiles(filtered).1), [FoundFiles(filtered).0])
  }

  /**
   * On status 200, when the body iterates and every file and meta is a dict,
   * the helper returns exactly the listed files whose meta matches, in listed order.
   */
  lemma ListingKeepsMatches(transport: Transport, parse: string -> Option<Json>, key: string, value: Json)
    requires Outcome(transport, parse).0 == 200
    requires Items(Outcome(transport, parse).1).Some?
    requires FilterByMeta(Items(Outcome(transport, parse).1).value, key, value).Some?
    ensures var files := Items(Outcome(transport, parse).1).value;
      && FilterByMeta(files, key, value).Some?
      && Listing(transport, parse, key, value).0 == Dumps(JObj(map["files" := JArr(FilterByMeta(files, key, value).value)]))
      && IsSubsequence(FilterByMeta(files, key, value).value, files)
      && (forall f :: f in FilterByMeta(files, key, value).value <==> f in files && MetaValue(f, key) == Some(value))
  {
    var files := Items(Outcome(transport, parse).1).value;
    KeptInOrder(files, key, value);
  }

  /** The tail of the two file helpers. */
  method ListFiles(emitter: EventEmitter, transport: Transport, parse: string -> Option<Json>, key: string, value: Json)
    returns (out: Output)
    modifies emitter.sink
    ensures out == Listing(transport, parse, key, value).0
    ensures emitter.sink != null ==> emitter.sink.received == old(emitter.sink.received) + Listing(transport, parse, key, value).1
  {
    var (status, data) := Outcome(transport, parse);
    if status == 200 {
      match Items(data)
      case None =>
        return Raised;
      case Some(files) =>
        match FilterByMeta(files, key, value)
        case None =>
          return Raised;
        case Some(filtered) =>
          var (event, result) := FoundFiles(filtered);
          emitter.Emit(event.description, event.status, event.done);
          return Dumps(result);
    }
    emitter.Emit("Error contacting API", "error", true);
    out := Dumps(data);
  }
}
