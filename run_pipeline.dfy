/**
 * The pipeline proxy (`tools/run_pipeline_tool.py`): after the ACL check it
 * posts the call to the external pipeline service and either relays the
 * server-sent-event stream to the caller's event emitter or returns the
 * JSON body, finishing with a status event that says whether the HTTP
 * status was 2xx.
 *
 * The HTTP exchange is an input: a status code, the lines of the body as
 * the client yields them, and the body decoded as JSON (`None` when it does
 * not decode). JSON decoding of a stream line is the abstract `parse`.
 */
module RunPipeline {
  import opened Wrappers
  import opened Values
  import opened Manifest
  import Acl
  import Loader
  import TimedCache

  type byte = b: int | 0 <= b < 256

  /** One line of the response body, as bytes. */
  type Line = seq<byte>

  /** `b"data:"` */
  const DataPrefix: Line := [100, 97, 116, 97, 58]

  /** The bytes `bytes.strip()` removes: space, \t, \n, \v, \f, \r. */
  predicate IsWhitespace(b: byte) {
    b == 32 || 9 <= b <= 13
  }

  /** `s.lstrip()` */
  function TrimStart(s: Line): Line
    decreases |s|
  {
    if s != [] && IsWhitespace(s[0]) then TrimStart(s[1..]) else s
  }

  /** `s.rstrip()` */
  function TrimEnd(s: Line): Line
    decreases |s|
  {
    if s != [] && IsWhitespace(s[|s| - 1]) then TrimEnd(s[..|s| - 1]) else s
  }

  /** `s.strip()` */
  function Strip(s: Line): Line {
    TrimEnd(TrimStart(s))
  }

  /** A server-sent-event data line. */
  predicate IsDataLine(line: Line) {
    StartsWith(line, DataPrefix)
  }

  /** `line[5:].strip()`: the text after `data:` that is handed to the JSON decoder. */
  function DataOf(line: Line): Line
    requires IsDataLine(line)
  {
    Strip(line[|DataPrefix|..])
  }

  /**
   * The events the relay forwards, in stream order: every data line whose
   * payload decodes, decoded; other lines and undecodable payloads (such as
   * `[DONE]`) contribute nothing.
   */
  function Relay(lines: seq<Line>, parse: Line -> Option<Json>): (events: seq<Json>)
    ensures |events| <= |lines|
    decreases |lines|
  {
    if lines == [] then []
    else
      var last := lines[|lines| - 1];
      Relay(lines[..|lines| - 1], parse) +
        (if IsDataLine(last) && parse(DataOf(last)).Some? then [parse(DataOf(last)).value] else [])
  }

  /** What the host's event callback receives. */
  datatype Event =
    | Status(status: string, description: string, done: bool, progress: int)
    | Forwarded(event: Json)   // a decoded stream event, passed on as it is

  /** The stream events wrapped for the callback, in order. */
  function AsForwarded(events: seq<Json>): (r: seq<Event>)
    ensures |r| == |events| && forall i :: 0 <= i < |events| ==> r[i] == Forwarded(events[i])
  {
    seq(|events|, i requires 0 <= i < |events| => Forwarded(events[i]))
  }

  /**
   * The `progress` of a status event: 100 when done, otherwise the given
   * progress, 0 when none was given.
   */
  function Progress(done: bool, progress: Option<int>): (p: int)
    ensures done ==> p == 100
    ensures !done && progress.None? ==> p == 0
    ensures !done && progress.Some? ==> p == progress.value
    ensures (progress.Some? ==> 0 <= progress.value <= 100) ==> 0 <= p <= 100
  {
    if done then 100 else if progress.None? then 0 else progress.value
  }

  /** The host's event callback; `received` is every event passed to it so far. */
  class Sink {
    var received: seq<Event>

    constructor ()
      ensures received == []
    {
      received := [];
    }
  }

  /** `EventEmitter`: wraps an optional callback and sends it status events. */
  class EventEmitter {
    const sink: Sink?

    constructor (sink: Sink?)
      ensures this.sink == sink
    {
      this.sink := sink;
    }

    /** `emit(description, status, done, progress)`: nothing happens without a callback. */
    method Emit(description: string, status: string := "in_progress", done: bool := false, progress: Option<int> := None)
      modifies sink
      ensures sink != null ==> sink.received == old(sink.received) + [Status(status, description, done, Progress(done, progress))]
    {
      if sink != null {
        sink.received := sink.received + [Status(status, description, done, Progress(done, progress))];
      }
    }
  }

  /** `PIPE_URL` and `PIPE_KEY` from the environment. */
  datatype Config = Config(pipeUrl: string, pipeKey: string)

  /** The environment's defaults. */
  const DefaultConfig := Config("http://localhost:8081", "")

  /** The POST sent to the pipeline service. */
  datatype Request = Request(url: string, headers: map<string, string>, streamParam: string, payload: Json)

  /** The service's answer as the proxy sees it. */
  datatype Response = Response(status: int, lines: seq<Line>, body: Option<Json>)

  /** What `run_pipeline` returns: `json.dumps(value)`, the empty string, or an exception. */
  datatype Output = Dumps(value: Json) | Blank | Raised

  /** `{"error": {"code": "forbidden", "message": "Not allowed"}}` */
  const ForbiddenPayload: Json :=
    JObj(map["error" := JObj(map["code" := JStr("forbidden"), "message" := JStr("Not allowed")])])

  /** The 2xx rule for the terminal status. */
  predicate Succeeded(status: int) {
    200 <= status < 300
  }

  /** The ACL gate: `is_pipe_allowed(pipe_id, user, manifest)` against the given ACL. */
  predicate Permitted(pipeId: string, user: Option<UserRecord>, acl: Acl.AclRules, manifest: seq<Entry>) {
    Acl.PipeAllowed(pipeId, Acl.AllowedGroups(user, acl), manifest)
  }

  /** The request `run_pipeline` sends once the pipeline is allowed. */
  function RequestFor(config: Config, pipeId: string, metadata: Json, userPrompt: Option<string>, stream: bool): (r: Request)
    ensures r.url == config.pipeUrl + "/run"
    ensures r.streamParam == "true" <==> stream
    ensures r.streamParam in {"true", "false"}
    ensures r.headers == map["Authorization" := "Bearer " + config.pipeKey, "Content-Type" := "application/json"]
    ensures r.payload.JObj? && r.payload.fields.Keys == {"pipe_id", "metadata", "user_prompt"}
    ensures r.payload.fields["pipe_id"] == JStr(pipeId) && r.payload.fields["metadata"] == metadata
    ensures r.payload.fields["user_prompt"] == JNull <==> userPrompt.None?
    ensures userPrompt.Some? ==> r.payload.fields["user_prompt"] == JStr(userPrompt.value)
  {
    Request(config.pipeUrl + "/run",
            map["Authorization" := "Bearer " + config.pipeKey, "Content-Type" := "application/json"],
            if stream then "true" else "false",
            JObj(map["pipe_id" := JStr(pipeId), "metadata" := metadata,
                     "user_prompt" := if userPrompt.Some? then JStr(userPrompt.value) else JNull]))
  }

  /** The last status event, decided by the HTTP status. */
  function Terminal(status: int): Event {
    if Succeeded(status)
    then Status("success", "Pipeline finished", true, 100)
    else Status("error", "Pipeline failed", true, 100)
  }

  /** Everything the callback receives during one call, given whether the pipeline is allowed. */
  function Trace(allowed: bool, stream: bool, response: Response, parse: Line -> Option<Json>): seq<Event> {
    if !allowed then [Status("error", "Pipeline not permitted", true, 100)]
    else [Status("in_progress", "Calling pipeline...", false, 0)] + Completion(stream, response, parse)
  }

  /** The events after the POST: the relayed stream, then the terminal status (none if decoding raised). */
  function Completion(stream: bool, response: Response, parse: Line -> Option<Json>): seq<Event> {
    if stream then AsForwarded(Relay(response.lines, parse)) + [Terminal(response.status)]
    else if response.body.Some? then [Terminal(response.status)]
    else []
  }

  /** What the call returns, given whether the pipeline is allowed. */
  function Result(allowed: bool, stream: bool, response: Response): Output {
    if !allowed then Dumps(ForbiddenPayload)
    else if stream then Blank
    else if response.body.Some? then Dumps(response.body.value)
    else Raised
  }

  /**
   * The `async for line in resp.content` loop: each data line whose payload
   * decodes is passed to the callback as it arrives; the rest are skipped.
   */
  method RelayStream(sink: Sink?, lines: seq<Line>, parse: Line -> Option<Json>)
    modifies sink
    ensures sink != null ==> sink.received == old(sink.received) + AsForwarded(Relay(lines, parse))
  {
    for i := 0 to |lines|
      invariant sink != null ==> sink.received == old(sink.received) + AsForwarded(Relay(lines[..i], parse))
    {
      var line := lines[i];
      assert lines[..i + 1][..i] == lines[..i];
      if StartsWith(line, DataPrefix) {
        var event := parse(Strip(line[5..]));
        if event.None? {
          continue;
        }
        if sink != null {
          sink.received := sink.received + [Forwarded(event.value)];
        }
      }
    }
    assert lines[..|lines|] == lines;
  }

  /**
   * `run_pipeline(pipe_id, metadata, user_prompt, __user__, stream, __event_emitter__)`.
   * Both module caches are consulted with the clock reading `now`; `request`
   * is the POST made, if any.
   */
  method RunPipeline(pipeId: string, metadata: Json, userPrompt: Option<string>, user: Option<UserRecord>,
                     stream: bool, sink: Sink?, config: Config,
                     manifestCache: TimedCache.Cache<Entry>, manifestFile: Loader.ManifestFile,
                     aclCache: TimedCache.Cache<(Acl.Group, Acl.Rules)>, aclFile: Acl.AclFile,
                     now: real, response: Response, parse: Line -> Option<Json>)
    returns (out: Output, request: Option<Request>)
    modifies sink, manifestCache, aclCache
    ensures manifestCache.State() == TimedCache.Lookup(old(manifestCache.State()), now, Loader.Reread(manifestFile)).1
    ensures Acl.IsFalsy(user) ==> unchanged(aclCache)
    ensures !Acl.IsFalsy(user) ==> aclCache.State() == TimedCache.Lookup(old(aclCache.State()), now, Acl.Reread(aclFile)).1
    ensures out == Result(Permitted(pipeId, user, aclCache.data, manifestCache.data), stream, response)
    ensures request == if Permitted(pipeId, user, aclCache.data, manifestCache.data)
                       then Some(RequestFor(config, pipeId, metadata, userPrompt, stream)) else None
    ensures sink != null ==>
              sink.received == old(sink.received) + Trace(Permitted(pipeId, user, aclCache.data, manifestCache.data),
                                                           stream, response, parse)
  {
    var emitter := new EventEmitter(sink);
    var manifest := Loader.LoadManifest(manifestCache, now, manifestFile);
    var allowed := Acl.IsPipeAllowed(aclCache, now, aclFile, pipeId, user, manifest);
    assert allowed == Permitted(pipeId, user, aclCache.data, manifestCache.data);
    out, request := Respond(emitter, allowed, config, pipeId, metadata, userPrompt, stream, response, parse);
  }

  /** The part of `run_pipeline` after the permission check. */
  method Respond(emitter: EventEmitter, allowed: bool, config: Config, pipeId: string, metadata: Json,
                 userPrompt: Option<string>, stream: bool, response: Response, parse: Line -> Option<Json>)
    returns (out: Output, request: Option<Request>)
    modifies emitter.sink
    ensures out == Result(allowed, stream, response)
    ensures request == if allowed then Some(RequestFor(config, pipeId, metadata, userPrompt, stream)) else None
    ensures emitter.sink != null ==> emitter.sink.received == old(emitter.sink.received) + Trace(allowed, stream, response, parse)
  {
    if !allowed {
      emitter.Emit("Pipeline not permitted", "error", true);
      return Dumps(ForbiddenPayload), None;
    }

    emitter.Emit("Calling pipeline...");
    request := Some(RequestFor(config, pipeId, metadata, userPrompt, stream));
    out := Exchange(emitter, stream, response, parse);
  }

  /** The part of `run_pipeline` after the POST: relay or decode, then report the status. */
  method Exchange(emitter: EventEmitter, stream: bool, response: Response, parse: Line -> Option<Json>)
    returns (out: Output)
    modifies emitter.sink
    ensures out == Result(true, stream, response)
    ensures emitter.sink != null ==> emitter.sink.received == old(emitter.sink.received) + Completion(stream, response, parse)
  {
    if stream {
      RelayStream(emitter.sink, response.lines, parse);
      if 200 <= response.status < 300 {
        emitter.Emit("Pipeline finished", "success", true);
      } else {
        emitter.Emit("Pipeline failed", "error", true);
      }
      return Blank;
    }

    if response.body.None? {
      return Raised;
    }
    var data := response.body.value;
    if 200 <= response.status < 300 {
      emitter.Emit("Pipeline finished", "success", true);
    } else {
      emitter.Emit("Pipeline failed", "error", true);
    }
    out := Dumps(data);
  }

  // ---------------------------------------------------------------- properties

  /** The relay distributes over consecutive chunks of the stream. */
  lemma {:induction false} RelayAppend(a: seq<Line>, b: seq<Line>, parse: Line -> Option<Json>)
    ensures Relay(a + b, parse) == Relay(a, parse) + Relay(b, parse)
    decreases |b|
  {
    if b == [] {
      assert a + b == a;
    } else {
      RelayAppend(a, b[..|b| - 1], parse);
      assert (a + b)[..|a + b| - 1] == a + b[..|b| - 1];
    }
  }

  /**
   * Exactly the decodable data lines are forwarded: an event is relayed iff
   * some data line's payload decodes to it.
   */
  lemma {:induction false} RelayMembers(lines: seq<Line>, parse: Line -> Option<Json>, e: Json)
    ensures e in Relay(lines, parse) <==>
      exists i :: 0 <= i < |lines| && IsDataLine(lines[i]) && parse(DataOf(lines[i])) == Some(e)
    decreases |lines|
  {
    if lines != [] {
      var init := lines[..|lines| - 1];
      var last := lines[|lines| - 1];
      RelayMembers(init, parse, e);
      if e in Relay(lines, parse) && e !in Relay(init, parse) {
        assert IsDataLine(last) && parse(DataOf(last)) == Some(e);
      }
      if exists i :: 0 <= i < |lines| && IsDataLine(lines[i]) && parse(DataOf(lines[i])) == Some(e) {
        var i :| 0 <= i < |lines| && IsDataLine(lines[i]) && parse(DataOf(lines[i])) == Some(e);
        if i < |init| {
          assert init[i] == lines[i];
        }
      }
    }
  }

  /** A data line whose payload decodes is forwarded as exactly the decoded value. */
  lemma RelayDataLine(line: Line, parse: Line -> Option<Json>)
    requires IsDataLine(line) && parse(DataOf(line)).Some?
    ensures Relay([line], parse) == [parse(DataOf(line)).value]
  {
    assert [line][..0] == [];
  }

  /** A line that is not a data line, or whose payload does not decode, is dropped. */
  lemma RelaySkips(line: Line, parse: Line -> Option<Json>)
    requires !IsDataLine(line) || parse(DataOf(line)).None?
    ensures Relay([line], parse) == []
  {
    assert [line][..0] == [];
  }

  /**
   * The test's stream: one large event followed by `data: [DONE]`. The
   * large event arrives whole and alone.
   */
  lemma RelayStopsQuietlyAtDone(event: Line, done: Line, parse: Line -> Option<Json>)
    requires IsDataLine(event) && parse(DataOf(event)).Some?
    requires IsDataLine(done) && parse(DataOf(done)).None?
    ensures Relay([event, done], parse) == [parse(DataOf(event)).value]
  {
    RelayAppend([event], [done], parse);
    assert [event] + [done] == [event, done];
    RelayDataLine(event, parse);
    RelaySkips(done, parse);
  }

  /** `lstrip` removes a whitespace prefix and stops at the first other byte. */
  lemma {:induction false} TrimStartSpec(s: Line)
    ensures var r := TrimStart(s);
      |r| <= |s| && r == s[|s| - |r|..] &&
      (forall i :: 0 <= i < |s| - |r| ==> IsWhitespace(s[i])) &&
      (r == [] || !IsWhitespace(r[0]))
    decreases |s|
  {
    if s != [] && IsWhitespace(s[0]) {
      TrimStartSpec(s[1..]);
    }
  }

  /** `rstrip` removes a whitespace suffix and stops at the last other byte. */
  lemma {:induction false} TrimEndSpec(s: Line)
    ensures var r := TrimEnd(s);
      |r| <= |s| && r == s[..|r|] &&
      (forall i :: |r| <= i < |s| ==> IsWhitespace(s[i])) &&
      (r == [] || !IsWhitespace(r[|r| - 1]))
    decreases |s|
  {
    if s != [] && IsWhitespace(s[|s| - 1]) {
      TrimEndSpec(s[..|s| - 1]);
    }
  }

  /** `strip` removes only surrounding whitespace and leaves none at either end. */
  lemma StripTrims(s: Line)
    ensures var r := Strip(s);
      (r == [] || (!IsWhitespace(r[0]) && !IsWhitespace(r[|r| - 1]))) &&
      exists i, j :: 0 <= i <= j <= |s| && r == s[i..j] &&
        (forall k :: 0 <= k < i ==> IsWhitespace(s[k])) && (forall k :: j <= k < |s| ==> IsWhitespace(s[k]))
  {
    var t := TrimStart(s);
    var r := TrimEnd(t);
    TrimStartSpec(s);
    TrimEndSpec(t);
    var i := |s| - |t|;
    var j := i + |r|;
    assert r == s[i..j];
    if r != [] {
      assert r[0] == t[0];
    }
  }

  /** Streaming mode returns the empty string whatever the HTTP status. */
  lemma StreamingReturnsBlank(stream: bool, response: Response)
    requires stream
    ensures Result(true, stream, response) == Blank
  {
  }

  /** When the call completes, its last event reports success exactly for a 2xx status. */
  lemma TerminalStatusIs2xx(stream: bool, response: Response, parse: Line -> Option<Json>)
    requires stream || response.body.Some?
    ensures var t := Trace(true, stream, response, parse);
      t[|t| - 1].Status? && t[|t| - 1].done && (t[|t| - 1].status == "success" <==> Succeeded(response.status))
  {
  }

  /** A forbidden call makes one error event, completes its progress and returns the fixed payload. */
  lemma ForbiddenCall(stream: bool, response: Response, parse: Line -> Option<Json>)
    ensures Trace(false, stream, response, parse) == [Status("error", "Pipeline not permitted", true, 100)]
    ensures Result(false, stream, response) == Dumps(ForbiddenPayload)
  {
  }
}
