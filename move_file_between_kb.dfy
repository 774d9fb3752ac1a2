/**
 * The "move file between knowledge bases" pipeline
 * (`pipelines/move_file_between_kb.py`): check that the metadata names the
 * source base, the destination base and the file; ask for whatever is
 * missing; otherwise add the file to the destination and then remove it
 * from the source.
 */
module MoveFileBetweenKb {
  import opened Wrappers
  import opened Values
  import opened Seqs

  /** The metadata keys the pipeline needs, in the order it reports them. */
  const Required: seq<string> := ["src_kb_id", "dst_kb_id", "file_id"]

  /** The pipeline's side effects, in the order they happen. */
  datatype Effect =
    | Emitted(status: string, done: Option<bool>)  // a status event; `None` when it has no "done" key
    | AddToKnowledge(kbId: Json, fileId: Json)     // `add_file_to_knowledge(dst_kb_id, file_id)`
    | RemoveFromKnowledge(kbId: Json, fileId: Json) // `remove_file_from_knowledge(src_kb_id, file_id)`

  /** The dict `run` returns. */
  datatype Reply =
    | FollowUp(missingFields: seq<string>, message: string)  // finish_reason "follow_up"
    | Stop(moved: bool, fileId: Json, dstKbId: Json)          // finish_reason "stop"

  /** `[field for field in fields if field not in metadata]` */
  function MissingFrom(fields: seq<string>, metadata: map<string, Json>): (missing: seq<string>)
    ensures forall f :: f in missing <==> f in fields && f !in metadata
    decreases |fields|
  {
    if fields == [] then []
    else
      var last := fields[|fields| - 1];
      MissingFrom(fields[..|fields| - 1], metadata) + (if last !in metadata then [last] else [])
  }

  /** The missing fields are reported in the order they are listed. */
  lemma {:induction false} MissingInOrder(fields: seq<string>, metadata: map<string, Json>)
    ensures IsSubsequence(MissingFrom(fields, metadata), fields)
    decreases |fields|
  {
    if fields != [] {
      var init := fields[..|fields| - 1];
      var last := fields[|fields| - 1];
      MissingInOrder(init, metadata);
      var before := MissingFrom(init, metadata);
      SubsequenceSnoc(before, init, last);
      assert fields == init + [last];
      if last in metadata {
        assert MissingFrom(fields, metadata) == before;
      } else {
        assert MissingFrom(fields, metadata) == before + [last];
      }
    }
  }

  /** The required fields absent from `metadata`, in the order `src_kb_id`, `dst_kb_id`, `file_id`. */
  function Missing(metadata: map<string, Json>): (missing: seq<string>)
    ensures forall f :: f in missing <==> f in Required && f !in metadata
    ensures IsSubsequence(missing, Required)
  {
    MissingInOrder(Required, metadata);
    MissingFrom(Required, metadata)
  }

  /**
   * The effects of a move once every id is present, in the order they are
   * performed: the file is added to the destination, then removed from the
   * source, bracketed by the two status events when an emitter is attached.
   */
  function MoveEffects(metadata: map<string, Json>, attached: bool): seq<Effect>
    requires forall f :: f in Required ==> f in metadata
  {
    (if attached then [Emitted("validating", None)] else []) +
    [AddToKnowledge(metadata["dst_kb_id"], metadata["file_id"]),
     RemoveFromKnowledge(metadata["src_kb_id"], metadata["file_id"])] +
    (if attached then [Emitted("done", Some(true))] else [])
  }

  /**
   * `run(metadata, event_emitter=...)`; `attached` says whether an emitter
   * was passed. The effects are returned in the order they are performed.
   */
  method Run(metadata: map<string, Json>, attached: bool) returns (reply: Reply, effects: seq<Effect>)
    ensures Missing(metadata) != [] ==>
      reply == FollowUp(Missing(metadata), "Please provide missing fields") && effects == []
    ensures Missing(metadata) == [] ==>
      && (forall f :: f in Required ==> f in metadata)
      && reply == Stop(true, metadata["file_id"], metadata["dst_kb_id"])
      && effects == MoveEffects(metadata, attached)
  {
    var missing := Missing(metadata);
    if missing != [] {
      return FollowUp(missing, "Please provide missing fields"), [];
    }
    assert forall f :: f in Required ==> f in metadata;
    effects := [];
    if attached {
      effects := effects + [Emitted("validating", None)];
    }
    effects := effects + [AddToKnowledge(metadata["dst_kb_id"], metadata["file_id"])];
    effects := effects + [RemoveFromKnowledge(metadata["src_kb_id"], metadata["file_id"])];
    if attached {
      effects := effects + [Emitted("done", Some(true))];
    }
    reply := Stop(true, metadata["file_id"], metadata["dst_kb_id"]);
  }

  // ---------------------------------------------------------------- properties

  /** Empty metadata asks for all three fields, in order. */
  lemma EmptyMetadataAsksForAll()
    ensures Missing(map[]) == Required
  {
    var none: map<string, Json> := map[];
    assert Required[..2][..1][..0] == [];
    assert MissingFrom(Required[..2][..1], none) == ["src_kb_id"];
    assert MissingFrom(Required[..2], none) == ["src_kb_id", "dst_kb_id"];
  }

  /** The file is added to the destination before it is removed from the source, each exactly once. */
  lemma AddThenRemove(metadata: map<string, Json>, attached: bool)
    requires forall f :: f in Required ==> f in metadata
    ensures var effects := MoveEffects(metadata, attached);
      exists i, j ::
        && 0 <= i < j < |effects|
        && effects[i].AddToKnowledge?
        && effects[j].RemoveFromKnowledge?
        && (forall k :: 0 <= k < |effects| && k != i ==> !effects[k].AddToKnowledge?)
        && (forall k :: 0 <= k < |effects| && k != j ==> !effects[k].RemoveFromKnowledge?)
  {
    var effects := MoveEffects(metadata, attached);
    var i := if attached then 1 else 0;
    assert effects[i].AddToKnowledge? && effects[i + 1].RemoveFromKnowledge?;
  }

  /** With an emitter, the "validating" event comes first and the done event last. */
  lemma EventsBracketTheMove(metadata: map<string, Json>)
    requires forall f :: f in Required ==> f in metadata
    ensures var effects := MoveEffects(metadata, true);
      && effects[0] == Emitted("validating", None) && effects[|effects| - 1] == Emitted("done", Some(true))
      && forall k :: 0 < k < |effects| - 1 ==> !effects[k].Emitted?
  {
    var effects := MoveEffects(metadata, true);
    assert |effects| == 4;
  }
}
