# Pipeline tooling of the Open WebUI fork, in Dafny

This project models the plugin layer that this Open WebUI fork adds on top of the chat server:

- **Pipeline access control** (`pipelines/acl.py`). A JSON ACL maps each group to user ids and roles. It is cached for 60 seconds. A user sees the groups whose rules name their id or their role, and may run a pipeline whose manifest entry belongs to one of those groups.
- **Manifest loader** (`pipelines/loader.py`). It uses the same 60-second cache over `manifest.json`.
- **Prompt snippet** (`pipelines/prompt.py`). It renders the manifest as the YAML-like "Available Pipelines" block, which is kept in a module global.
- **`run_pipeline` tool** (`tools/run_pipeline_tool.py`):
  - It checks the ACL and posts the call to the pipeline service.
  - When streaming, it relays every `data:` line that decodes as JSON to the chat's event callback.
  - It ends with a success or failure status: success for any 2xx status.
- **Move-file pipeline** (`pipelines/move_file_between_kb.py`). It validates the three ids. If any is missing, it asks for the missing ones. Otherwise it adds the file to the destination knowledge base and then removes it from the source.
- **n8n bridge** (`function/n8n_pipe.py`; `n8n-pipe.py` is the same file byte for byte):
  - It throttles status events.
  - It builds the payload for the n8n webhook. The chat's files are fetched, sorted by creation time, grouped by name, and paired with the `<source>` tags of the system prompt: the k-th source named N gets the k-th file named N.
  - It appends n8n's reply to the conversation.
- **REST helper** (`tools/openwebui_tool.py`). It picks the base URL and token, builds the headers, and decodes whatever the server returns. It also wraps the knowledge and file endpoints: success means exactly status 200. The file listings are filtered by chat id or by knowledge id.

Each source file is one Dafny module. Five small shared modules support them:

- `Wrappers`: `Option`.
- `Manifest`: the manifest entry that the loader, the ACL and the prompt share.
- `Values`: JSON values, user records, truthiness and string helpers.
- `Seqs`: order-preserving subsequences.
- `TimedCache`: the 60-second cache that the ACL and manifest loaders share. It is a class whose fields `ts` and `data` stand for the module-level `_cache` dict.

How the model represents the host:

- **State the source mutates** is modelled with classes:
  - the caches;
  - the prompt module's global snippet;
  - the n8n pipe's `last_emit_time`;
  - the chat body's message list;
  - the event callbacks of the `run_pipeline` tool and the REST helper (`Sink`), which record every event they receive.
- **Events of the n8n bridge and the move-file pipeline** are returned as sequences, in the order they are sent (`Status`, `Effect`).
- **The outside world** is passed in as parameters:
  - the clock, as `now` or `clock(k)`;
  - file contents, as parsed values or "unreadable";
  - HTTP answers, as inputs;
  - JSON decoding and the `<source>` regex, as abstract functions;
  - `create_token`, as an abstract `mint` function.
- **HTTP requests** the plugins send are returned as values.

## Model

| member | source | states |
|---|---|---|
| TimedCache.Cache.constructor | pipelines/loader.py:7 | a fresh cache is stamped 0.0 and holds nothing |
| TimedCache.Cache.Get | pipelines/loader.py:10-22 | returns the cached data while it is non-empty and younger than 60 s; otherwise rereads, stamps `now` and stores what it read; the returned data is what is stored |
| TimedCache.Lookup | pipelines/acl.py:17-29 | the value handed back is always the value stored in the new cache state |
| TimedCache.StaleWithinTtl | test/test_pipelines/test_loader.py:20-25 | after a reread of non-empty data, any call within 60 s returns that data and leaves the cache alone, even if the file has changed |
| TimedCache.FreshAfterTtl | test/test_pipelines/test_loader.py:27-29 | once 60 s have passed the file is reread and the cache restamped |
| TimedCache.EmptyNeverCached | pipelines/loader.py:13 | an empty cache is never served: every call rereads |
| Loader.LoadManifest | pipelines/loader.py:10-22 | `load_manifest` is the cache lookup over `manifest.json`, with `[]` for an unreadable file |
| Loader.CachingScenario | test/test_pipelines/test_loader.py:7-29 | the file changes from [a] to [b]: a call at the same instant still returns [a], one at t=61 returns [b]; once the file is unreadable, [b] is served until it is 60 s old, then [] |
| Acl.LoadAcl | pipelines/acl.py:15-29 | `load_acl` is the cache lookup over the ACL file, with an empty ACL for an unreadable or non-dict file |
| Acl.MatchingGroups | pipelines/acl.py:39-46 | a group is listed iff some entry for it has dict rules naming the user's id or role |
| Acl.AllowedGroups | pipelines/acl.py:32-47 | a falsy user gets no groups; otherwise exactly the groups whose rules admit the user's `id` or `role` |
| Acl.CollectGroups | pipelines/acl.py:39-47 | the loop appends exactly the admitting groups, in ACL order |
| Acl.FindAllowedEntry | pipelines/acl.py:55-58 | true iff some manifest entry has the pipe's id and an allowed group |
| Acl.AllowedGroupsForUser | pipelines/acl.py:32-47 | groups for the user against the cached ACL; a falsy user does not even touch the cache |
| Acl.IsPipeAllowed | pipelines/acl.py:50-58 | allowed iff an entry with this id belongs to one of the user's groups; never for a falsy user |
| Acl.FilterManifestForUser | pipelines/acl.py:61-66 | the entries whose group the user may use; nothing for a falsy user |
| Acl.FilterManifest | pipelines/acl.py:66 | an entry is kept iff its group is allowed |
| Acl.FilterManifestInOrder | pipelines/acl.py:66 | the kept entries are in manifest order |
| Acl.MatchingGroupsInAclOrder | pipelines/acl.py:40-46 | the groups come out in the ACL's key order |
| Acl.MatchingGroupsDistinct | pipelines/acl.py:40-46 | with distinct ACL keys, no group is listed twice |
| Acl.MatchingIsAdditive | pipelines/acl.py:40-46 | matching over two ACL parts is matching over each, concatenated |
| Acl.AllowedIffListed | pipelines/acl.py:54-58 | a pipe is allowed iff some entry has its id and a group among the allowed ones |
| Acl.IdMatchSuffices | test/test_pipelines/test_acl.py:5-11 | user id "1" with role "user" gets ["group1"] from a group listing id "1" and role "admin" |
| Acl.RoleMatchAllowsPipe | test/test_pipelines/test_acl.py:14-21 | a role match alone admits user "99" to "pipe1" of groupA |
| Prompt.Lines | pipelines/prompt.py:16-23 | the header first, then two lines per entry plus one per named entry |
| Prompt.BuildPipelinePrompt | pipelines/prompt.py:12-24 | the loop's text is the snippet: "" for an empty manifest, otherwise the joined lines |
| Prompt.PromptModule.constructor | pipelines/prompt.py:9 | the module global starts as "" |
| Prompt.PromptModule.InitPipelinePrompt | pipelines/prompt.py:27-31 | the global becomes the snippet of the manifest the loader returns, and the loader's cache moves as `load_manifest` does |
| Prompt.Join | pipelines/prompt.py:24 | the joined text starts with the first line, followed by a newline when more lines follow |
| Prompt.Snippet | pipelines/prompt.py:14-24 | the snippet is empty iff the manifest is empty |
| Prompt.SnippetStartsWithHeader | test/test_pipelines/test_prompt.py:22-26 | a non-empty manifest's snippet starts with "## Available Pipelines" |
| Prompt.SplitJoin | pipelines/prompt.py:24 | joining single-line pieces with "\n" and splitting again gives the pieces back |
| Prompt.RenderedLines | pipelines/prompt.py:16-24 | with single-line ids and names, the snippet has exactly the rendered lines, 1 + 2n + (named entries) of them |
| Prompt.TestLines | test/test_pipelines/test_prompt.py:5-19 | the lines of the test's two-entry manifest |
| Prompt.TestSnippet | test/test_pipelines/test_prompt.py:5-19 | the snippet of the test's manifest is the expected text |
| RunPipeline.Progress | tools/run_pipeline_tool.py:38-40 | 100 when done, else 0 without a progress value, else the value; stays within 0..100 if the value does |
| RunPipeline.EventEmitter.Emit | tools/run_pipeline_tool.py:23-43 | with a callback, exactly one status event with the computed progress is delivered; without one, nothing happens |
| RunPipeline.Relay | tools/run_pipeline_tool.py:82-89 | at most one event per stream line |
| RunPipeline.RelayStream | tools/run_pipeline_tool.py:82-89 | the callback receives exactly the relayed events, in stream order |
| RunPipeline.RelayAppend | tools/run_pipeline_tool.py:82-89 | relaying is line by line: relaying a concatenated stream is relaying each part |
| RunPipeline.RelayMembers | tools/run_pipeline_tool.py:82-89 | an event is forwarded iff it decodes from the stripped payload of some `data:` line |
| RunPipeline.RelayDataLine | tools/run_pipeline_tool.py:83-89 | a `data:` line whose payload decodes forwards exactly that event |
| RunPipeline.RelaySkips | tools/run_pipeline_tool.py:83-87 | any other line, or one whose payload does not decode, is skipped silently |
| RunPipeline.RelayStopsQuietlyAtDone | test/test_pipelines/test_run_pipeline_tool.py:88-114 | an event line followed by the `data: [DONE]` sentinel forwards just the event |
| RunPipeline.TrimStartSpec | tools/run_pipeline_tool.py:85 | leading whitespace bytes are removed, the rest kept, and the result does not start with whitespace |
| RunPipeline.TrimEndSpec | tools/run_pipeline_tool.py:85 | trailing whitespace bytes are removed likewise |
| RunPipeline.StripTrims | tools/run_pipeline_tool.py:85 | `bytes.strip()` is an infix of the line with no whitespace at either end |
| RunPipeline.RequestFor | tools/run_pipeline_tool.py:64-76 | the POST goes to the pipe URL plus "/run" with the bearer and JSON headers, `stream` "true" iff streaming, and a payload of exactly pipe_id, metadata and user_prompt (the prompt's text, or null iff there is none) |
| RunPipeline.RunPipeline | tools/run_pipeline_tool.py:46-101 | refused calls emit one error and return the forbidden JSON with no request; permitted calls send the request to `PIPE_URL/run` with the bearer key and stream flag, relay or decode, and end with a 2xx-dependent status; both caches move as their loaders do |
| RunPipeline.Respond | tools/run_pipeline_tool.py:58-101 | a refused call sends no request, emits the error and returns the forbidden JSON; a permitted one emits "Calling pipeline...", sends the request and goes on to the exchange |
| RunPipeline.Exchange | tools/run_pipeline_tool.py:81-101 | streaming returns "" after the relayed events; otherwise the decoded body is returned; a final status follows unless a non-streamed body fails to decode, which raises |
| RunPipeline.StreamingReturnsBlank | tools/run_pipeline_tool.py:81-94 | a streaming call returns "" |
| RunPipeline.TerminalStatusIs2xx | tools/run_pipeline_tool.py:90-100 | the final status is "success" iff the HTTP status is in 200..299 |
| RunPipeline.ForbiddenCall | tools/run_pipeline_tool.py:58-60 | a refused call emits only "Pipeline not permitted" and returns the forbidden error |
| MoveFileBetweenKb.MissingFrom | pipelines/move_file_between_kb.py:17 | a field is reported iff it is listed and absent from the metadata |
| MoveFileBetweenKb.MissingInOrder | pipelines/move_file_between_kb.py:16-17 | the missing fields keep the listed order |
| MoveFileBetweenKb.Missing | pipelines/move_file_between_kb.py:16-17 | exactly the absent ones among src_kb_id, dst_kb_id, file_id, in that order |
| MoveFileBetweenKb.Run | pipelines/move_file_between_kb.py:8-57 | anything missing: a follow-up listing it, with no effects; otherwise add to the destination, then remove from the source, bracketed by a "validating" event without a `done` key and a "done" event with `done` true when an emitter is given, and a stop result echoing file_id and dst_kb_id |
| MoveFileBetweenKb.EmptyMetadataAsksForAll | test/test_pipelines/test_move_file_between_kb.py:6-13 | empty metadata asks for all three fields |
| MoveFileBetweenKb.AddThenRemove | pipelines/move_file_between_kb.py:33-45 | there is exactly one add and one remove, and the add comes first |
| MoveFileBetweenKb.EventsBracketTheMove | pipelines/move_file_between_kb.py:28-48 | with an emitter, "validating" comes first, done last, and no event in between |
| N8nPipe.FileKey | function/n8n_pipe.py:132 | the first truthy of name, filename; otherwise file_name as it is |
| N8nPipe.SortByCreated | function/n8n_pipe.py:101 | the sorted files are a permutation of the API's list |
| N8nPipe.SortByCreatedSorts | function/n8n_pipe.py:101 | the session's files come back ordered by `created_at` (default 0) and are a permutation of the API's list |
| N8nPipe.SortByCreatedStable | function/n8n_pipe.py:101 | the sort is stable: files with equal `created_at` keep their order |
| N8nPipe.GroupsAreFilters | function/n8n_pipe.py:130-133 | there is a group for a key iff some file has that key, and the group is exactly those files in sorted order |
| N8nPipe.GroupFiles | function/n8n_pipe.py:130-133 | the setdefault/append loop builds exactly that grouping |
| N8nPipe.MatchedId | function/n8n_pipe.py:148-152 | when the name's group has a file at idx, the result is that file's id; otherwise there is none |
| N8nPipe.Matched | function/n8n_pipe.py:145-155 | one source out per match in |
| N8nPipe.MatchedPairsKth | function/n8n_pipe.py:145-155 | the k-th source named N carries the id of the k-th file in N's group, or None |
| N8nPipe.NoFileMatchedTwice | function/n8n_pipe.py:146-153 | two same-named sources never get the same file when the group's ids are distinct |
| N8nPipe.MatchSources | n8n-pipe.py:145-155 | the counter loop produces exactly that pairing |
| N8nPipe.FirstSystem | function/n8n_pipe.py:135-137 | the first message whose role is "system", if any |
| N8nPipe.SourceText | function/n8n_pipe.py:135-139 | only the first system message is scanned: its string content is returned iff it contains "<source" |
| N8nPipe.StatusFor | function/n8n_pipe.py:65-75 | status is "complete" iff done, otherwise "in_progress"; it carries the level, message and done flag |
| N8nPipe.ShouldEmit | function/n8n_pipe.py:62-64 | nothing passes with the indicator off; with it on, a final event always passes and any other only once the interval has elapsed |
| N8nPipe.Question | function/n8n_pipe.py:119 | the question is the last message's content, or "" when it has none |
| N8nPipe.SessionId | function/n8n_pipe.py:122 | the chat id as a string, "None" without one; empty only for an empty chat id |
| N8nPipe.FetchesFiles | function/n8n_pipe.py:125-128 | the files are fetched unless the chat id is the empty string; a missing chat id still fetches, for session "None" |
| N8nPipe.FilesToken | function/n8n_pipe.py:84-87 | the configured API token wins; otherwise a token minted for the user's id; otherwise none |
| N8nPipe.FilesHeaders | function/n8n_pipe.py:83-89 | Authorization "Bearer t" iff there is a token, and nothing else |
| N8nPipe.N8nHeaders | function/n8n_pipe.py:169-172 | the webhook call always carries the bearer token and the JSON content type |
| N8nPipe.ReplyOf | function/n8n_pipe.py:185-189 | the reply is the response field of a dict body, else None |
| N8nPipe.Prepare | function/n8n_pipe.py:119-157 | the files are fetched iff `str(chat_id)` is non-empty; a failed fetch raises; otherwise the payload is the body plus sessionId, the last message's content under the input field, and the matched sources |
| N8nPipe.Pipe.constructor | function/n8n_pipe.py:43-49 | default valves; the last emission is at time 0.0 |
| N8nPipe.Pipe.EmitStatus | n8n-pipe.py:51-76 | with an emitter, sends one event iff enabled and (interval elapsed or done), and records the time iff it sent; without one, nothing changes |
| N8nPipe.Pipe.Deliver | function/n8n_pipe.py:161-197 | after the optional debug event: a failed post returns the exception text as the error and leaves the body alone; a successful one appends exactly one assistant message with the reply and ends with the "Complete" event |
| N8nPipe.Pipe.Pipe | n8n-pipe.py:103-197 | no messages: the error result, with no HTTP call and the body unchanged; a failed file fetch raises; a failed post returns `{"error": str(exc)}` and leaves the body alone; success appends exactly one assistant message holding the reply; the final event is the terminal status |
| OpenWebUiTool.RStripSlash | tools/openwebui_tool.py:50 | the longest prefix not ending in "/", with only "/" cut off |
| OpenWebUiTool.DecodeBody | tools/openwebui_tool.py:88-93 | an empty body is `{}`; JSON is decoded; anything else becomes `{"message": text}` |
| OpenWebUiTool.Outcome | tools/openwebui_tool.py:80-95 | a transport failure is `(0, {"message": str(exc)})`; otherwise the response status and the decoded body |
| OpenWebUiTool.Verdict | tools/openwebui_tool.py:114-117 | the closing event is "success" iff the status is exactly 200 |
| OpenWebUiTool.EventEmitter.Emit | tools/openwebui_tool.py:27-43 | one status event if there is a callback, nothing otherwise |
| OpenWebUiTool.Items | tools/openwebui_tool.py:196-197 | a list is iterated as its items; iteration succeeds iff the data is a list, an empty dict or an empty string, the last two giving no items |
| OpenWebUiTool.MetaValue | tools/openwebui_tool.py:197 | no value iff the file or its `meta` is not a dict; a missing `meta` or key reads as null; otherwise the stored value |
| OpenWebUiTool.Kept | tools/openwebui_tool.py:197 | a file is kept iff its meta value under the key equals the target |
| OpenWebUiTool.FilterByMeta | tools/openwebui_tool.py:197 | it raises iff some file or its meta is not a dict; otherwise it keeps exactly the files whose meta value equals the target |
| OpenWebUiTool.KeptInOrder | tools/openwebui_tool.py:216-220 | the kept files stay in listing order |
| OpenWebUiTool.FoundFiles | tools/openwebui_tool.py:198-199 | "Found N file(s)" with N the number kept, and `{"files": kept}` |
| OpenWebUiTool.ChatIdOf | tools/openwebui_tool.py:188 | the metadata's `chat_id`, or null when there is no metadata or no such key |
| OpenWebUiTool.Listing | tools/openwebui_tool.py:213-224 | on a non-200 status: "Error contacting API" and the raw data; on 200 it raises iff the body does not iterate or some file or meta is not a dict; a closing event exists iff nothing raised, and it is "success" iff the status is 200 |
| OpenWebUiTool.ListingKeepsMatches | tools/openwebui_tool.py:194-199 | on 200, when the body iterates and every file and meta is a dict, the result is `{"files": …}` holding exactly the matching files, in order |
| OpenWebUiTool.ListFiles | tools/openwebui_tool.py:213-224 | the shared tail returns the listing's output and sends its closing event |
| OpenWebUiTool.Tools.constructor | tools/openwebui_tool.py:49-52 | an explicit base_url is used verbatim, else `WEBUI_API_URL` without trailing "/"; an explicit token, else `WEBUI_JWT` |
| OpenWebUiTool.Tools.TokenForUser | tools/openwebui_tool.py:54-60 | the configured token wins; else a token minted for the user's id; else "" |
| OpenWebUiTool.Tools.Headers | tools/openwebui_tool.py:62-67 | Content-Type is always JSON; Authorization "Bearer t" is present iff the token is non-empty |
| OpenWebUiTool.Tools.RequestFor | tools/openwebui_tool.py:77-87 | the request goes to base URL + endpoint with those headers |
| OpenWebUiTool.Tools.CallEndpoint | tools/openwebui_tool.py:98-241 | the five endpoint helpers: a start event, the request, "success" iff status 200, and the data returned as is |
| OpenWebUiTool.Tools.GetFilesThisChat | tools/openwebui_tool.py:180-201 | no chat_id: the "Missing chat context" error and no request; otherwise the listing filtered on `meta.chat_id` |
| OpenWebUiTool.Tools.GetFilesFromKnowledge | tools/openwebui_tool.py:203-224 | the listing filtered on `meta.collection_name` |

## Left out

- HTTP, sessions, timeouts and SSL are not modelled. Each request is returned as a value, and each answer (status, body text or stream lines, or a transport error) is an input.
- JSON decoding is not modelled; `json.loads` is an abstract partial function. `json.dumps` results are represented by the value being dumped. The n8n payload's `debug_dump` key is not modelled, and neither is the debug `print`.
- The `<source …>` regex is an abstract function from the system prompt to its list of matches. Its DOTALL and non-greedy matching are not re-verified.
- Clocks and floats: `time.time()` is a parameter. `emit_interval` is a real. Decoded JSON numbers are integers.
- Loader.LoadManifest: the loader does not check that `manifest.json` holds a list. A dict, number or null is cached and returned as it is, and its consumers then fail or iterate keys. The model reads only a list of entries or an unreadable file.
- Manifest.Entry: entry fields are strings or missing. A numeric `id` would render in the prompt but never equal the string `pipe_id` of the ACL check; the model cannot tell it from the same digits as a string. A list element that is not a dict, which makes `entry.get` raise, is not modelled.
- The ACL and manifest loaders read their clocks separately. RunPipeline.RunPipeline gives both the same instant.
- User dicts are maps from keys to values already rendered by `str`, so `str(user.get("id", ""))` is a lookup. Within ACL rules, ids and roles are likewise taken as already-stringified lists, and a non-list `user_ids` or `roles` value is not modelled.
- `extract_event_info` (closure introspection) is not modelled; its chat id is a parameter. `create_token` is an abstract `mint` function.
- N8nPipe.Pipe.Pipe: the key `input_field` could collide with `messages`, `sessionId` or `sources`; the payload datatype keeps them apart, so such a collision is not modelled. `created_at` is an integer (default 0) in the model. Keys that Python cannot compare with each other, such as a string next to the default 0, a `None` or a dict, make the sort raise; those mixes are not modelled. The intermediate events are stated only as a whole: every event obeys the status rule, and the terminal one comes last.
- N8nPipe.SourceText: when the first system message's content is null, a number or a boolean, the source's `"<source" in content` raises `TypeError`; when it is a list or dict that holds `"<source"`, `re.finditer` raises. The model does not raise: such content yields no sources and the post goes ahead.
- MoveFileBetweenKb.Run: `add_file_to_knowledge` and `remove_file_from_knowledge` do not exist on the `Tools` class shown. They are modelled as two abstract effects in order. Whatever they would emit or raise is not modelled.
- OpenWebUiTool: JSON equality is structural, so Python's `1 == True` and `1 == 1.0` are not reproduced. When a dict body is iterated, it raises for any non-empty dict, because its keys are strings without `.get`.
- `tools/knowledge_tool.py` and `tools/files_tool.py` are not part of this model. They are thin wrappers over host models that are not shown.
- The test scaffolding and path setup (`conftest.py`, `sitecustomize.py`, `test/util`) are not part of this model.
