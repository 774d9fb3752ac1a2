/**
 * The pipeline prompt snippet (`pipelines/prompt.py`): the manifest rendered
 * as a YAML-like list that is injected into system prompts.
 */
module Prompt {
  import opened Wrappers
  import opened Values
  import opened Manifest
  import TimedCache
  import Loader

  const Header: string := "## Available Pipelines"
  const CallVia: string := "  call_via: run_pipeline"

  /** An f-string placeholder for an entry field: a missing one prints as `None`. */
  function Show(v: Option<string>): string {
    match v
    case Some(s) => s
    case None => "None"
  }

  /** The entry's `name` is truthy: present and non-empty. */
  predicate HasName(e: Entry) {
    e.name.Some? && e.name.value != ""
  }

  /** The lines one entry contributes. */
  function EntryLines(e: Entry): seq<string> {
    ["- id: " + Show(e.id)] + (if HasName(e) then ["  name: " + e.name.value] else []) + [CallVia]
  }

  /** How many entries have a truthy name. */
  function NamedCount(manifest: seq<Entry>): nat
    decreases |manifest|
  {
    if manifest == [] then 0
    else NamedCount(manifest[..|manifest| - 1]) + (if HasName(manifest[|manifest| - 1]) then 1 else 0)
  }

  /**
   * The list of lines built for a manifest: the header, then each entry's
   * lines in manifest order.
   */
  function Lines(manifest: seq<Entry>): (lines: seq<string>)
    ensures |lines| == 1 + 2 * |manifest| + NamedCount(manifest)
    ensures lines[0] == Header
    decreases |manifest|
  {
    if manifest == [] then [Header]
    else Lines(manifest[..|manifest| - 1]) + EntryLines(manifest[|manifest| - 1])
  }

  /** `"\n".join(lines)`. */
  function Join(lines: seq<string>): (joined: string)
    ensures lines != [] ==> StartsWith(joined, lines[0])
    ensures |lines| >= 2 ==> StartsWith(joined, lines[0] + "\n")
    decreases |lines|
  {
    if lines == [] then ""
    else if |lines| == 1 then lines[0]
    else lines[0] + "\n" + Join(lines[1..])
  }

  /** `s.split("\n")`: the pieces between newlines; always at least one. */
  function Split(s: string): (pieces: seq<string>)
    ensures |pieces| >= 1
    decreases |s|
  {
    if s == [] then [""]
    else if s[0] == '\n' then [""] + Split(s[1..])
    else
      var rest := Split(s[1..]);
      [[s[0]] + rest[0]] + rest[1..]
  }

  /** The snippet for a manifest: empty for an empty manifest, else the joined lines. */
  function Snippet(manifest: seq<Entry>): (snippet: string)
    ensures snippet == "" <==> manifest == []
  {
    if manifest == [] then "" else Join(Lines(manifest))
  }

  /** `build_pipeline_prompt(manifest)`: accumulates the lines, then joins them. */
  method BuildPipelinePrompt(manifest: seq<Entry>) returns (snippet: string)
    ensures snippet == Snippet(manifest)
  {
    if |manifest| == 0 {
      return "";
    }
    var lines := [Header];
    for i := 0 to |manifest|
      invariant lines == Lines(manifest[..i])
    {
      var entry := manifest[i];
      assert manifest[..i + 1][..i] == manifest[..i];
      lines := lines + ["- id: " + Show(entry.id)];
      if entry.name.Some? && entry.name.value != "" {
        lines := lines + ["  name: " + entry.name.value];
      }
      lines := lines + [CallVia];
    }
    assert manifest[..|manifest|] == manifest;
    snippet := Join(lines);
  }

  /** The module-level `PIPELINE_PROMPT_SNIPPET`, initially empty. */
  class PromptModule {
    var snippet: string

    constructor ()
      ensures snippet == ""
    {
      snippet := "";
    }

    /** `init_pipeline_prompt()`: load the manifest through its cache and render it. */
    method InitPipelinePrompt(cache: TimedCache.Cache<Entry>, now: real, file: Loader.ManifestFile)
      modifies this, cache
      ensures snippet == Snippet(cache.data)
      ensures cache.State() == TimedCache.Lookup(old(cache.State()), now, Loader.Reread(file)).1
    {
      var manifest := Loader.LoadManifest(cache, now, file);
      snippet := BuildPipelinePrompt(manifest);
    }
  }

  // ---------------------------------------------------------------- properties

  /** No id or name of the manifest contains a newline. */
  predicate SingleLineFields(manifest: seq<Entry>) {
    forall e :: e in manifest ==> '\n' !in Show(e.id) && (e.name.Some? ==> '\n' !in e.name.value)
  }

  /** A non-empty manifest renders starting with `## Available Pipelines`. */
  lemma SnippetStartsWithHeader(manifest: seq<Entry>)
    requires manifest != []
    ensures StartsWith(Snippet(manifest), Header)
  {
  }

  /** A line without newlines splits to itself. */
  lemma {:induction false} SplitSingleLine(line: string)
    requires '\n' !in line
    ensures Split(line) == [line]
    decreases |line|
  {
    if line != [] {
      SplitSingleLine(line[1..]);
      assert [line[0]] + line[1..] == line;
    }
  }

  /** Splitting a newline-free line followed by a newline peels that line off. */
  lemma {:induction false} SplitAfterLine(line: string, rest: string)
    requires '\n' !in line
    ensures Split(line + "\n" + rest) == [line] + Split(rest)
    decreases |line|
  {
    var s := line + "\n" + rest;
    if line == [] {
      assert s[0] == '\n' && s[1..] == rest;
    } else {
      assert s[0] == line[0] && s[1..] == line[1..] + "\n" + rest;
      SplitAfterLine(line[1..], rest);
      assert [line[0]] + line[1..] == line;
    }
  }

  /** `"\n".join` is undone by `split("\n")` when no line holds a newline. */
  lemma {:induction false} SplitJoin(lines: seq<string>)
    requires |lines| >= 1
    requires forall i :: 0 <= i < |lines| ==> '\n' !in lines[i]
    ensures Split(Join(lines)) == lines
    decreases |lines|
  {
    if |lines| == 1 {
      SplitSingleLine(lines[0]);
    } else {
      SplitJoin(lines[1..]);
      SplitAfterLine(lines[0], Join(lines[1..]));
      assert [lines[0]] + lines[1..] == lines;
    }
  }

  /** Every line built for a manifest with single-line fields is free of newlines. */
  lemma {:induction false} LinesAreSingleLines(manifest: seq<Entry>)
    requires SingleLineFields(manifest)
    ensures forall i :: 0 <= i < |Lines(manifest)| ==> '\n' !in Lines(manifest)[i]
    decreases |manifest|
  {
    if manifest != [] {
      var init := manifest[..|manifest| - 1];
      var last := manifest[|manifest| - 1];
      assert forall e :: e in init ==> e in manifest;
      LinesAreSingleLines(init);
      assert last in manifest;
      var extra := EntryLines(last);
      assert forall i :: 0 <= i < |extra| ==> '\n' !in extra[i];
    } else {
      assert Lines(manifest) == [Header];
      assert '\n' !in Header;
    }
  }

  /**
   * The rendered text of a non-empty manifest has exactly 1 + 2n + k lines
   * (n entries, k of them named): those built by the loop, none trailing.
   */
  lemma RenderedLines(manifest: seq<Entry>)
    requires manifest != [] && SingleLineFields(manifest)
    ensures Split(Snippet(manifest)) == Lines(manifest)
    ensures |Split(Snippet(manifest))| == 1 + 2 * |manifest| + NamedCount(manifest)
  {
    LinesAreSingleLines(manifest);
    SplitJoin(Lines(manifest));
  }

  /** The lines the prompt test's manifest is rendered from. */
  lemma TestLines()
    ensures Lines([Entry(Some("pipe1"), Some("Pipe One"), None), Entry(Some("pipe2"), None, None)]) ==
      ["## Available Pipelines", "- id: pipe1", "  name: Pipe One", "  call_via: run_pipeline",
       "- id: pipe2", "  call_via: run_pipeline"]
  {
    var m := [Entry(Some("pipe1"), Some("Pipe One"), None), Entry(Some("pipe2"), None, None)];
    assert m[..1] == [m[0]] && [m[0]][..0] == [];
    assert HasName(m[0]) && Show(m[0].id) == "pipe1" && !HasName(m[1]) && Show(m[1].id) == "pipe2";
    assert "- id: " + "pipe1" == "- id: pipe1";
    assert "  name: " + "Pipe One" == "  name: Pipe One";
    assert "- id: " + "pipe2" == "- id: pipe2";
    var first := EntryLines(m[0]);
    assert first == ["- id: " + "pipe1"] + ["  name: " + "Pipe One"] + [CallVia];
    assert first == ["- id: pipe1", "  name: Pipe One", CallVia];
    var second := EntryLines(m[1]);
    assert second == ["- id: " + "pipe2"] + [] + [CallVia];
    assert second == ["- id: pipe2", CallVia];
    assert Lines(m[..1]) == [Header] + first;
  }

  /** Joining a first line onto at least one more puts a newline between them. */
  lemma JoinCons(first: string, rest: seq<string>)
    requires |rest| >= 1
    ensures Join([first] + rest) == first + "\n" + Join(rest)
  {
    assert ([first] + rest)[1..] == rest;
  }

  /** The exact text the prompt test expects: its six lines with a newline after each but the last. */
  lemma TestSnippet()
    ensures Snippet([Entry(Some("pipe1"), Some("Pipe One"), None), Entry(Some("pipe2"), None, None)]) ==
      "## Available Pipelines" + "\n" + (
      "- id: pipe1" + "\n" + (
      "  name: Pipe One" + "\n" + (
      "  call_via: run_pipeline" + "\n" + (
      "- id: pipe2" + "\n" +
      "  call_via: run_pipeline"))))
  {
    TestLines();
    var l5 := ["  call_via: run_pipeline"];
    var l4 := ["- id: pipe2"] + l5;
    var l3 := ["  call_via: run_pipeline"] + l4;
    var l2 := ["  name: Pipe One"] + l3;
    var l1 := ["- id: pipe1"] + l2;
    var l0 := ["## Available Pipelines"] + l1;
    JoinCons("- id: pipe2", l5);
    JoinCons("  call_via: run_pipeline", l4);
    JoinCons("  name: Pipe One", l3);
    JoinCons("- id: pipe1", l2);
    JoinCons("## Available Pipelines", l1);
    assert l0 == ["## Available Pipelines", "- id: pipe1", "  name: Pipe One", "  call_via: run_pipeline",
                  "- id: pipe2", "  call_via: run_pipeline"];
  }
}
