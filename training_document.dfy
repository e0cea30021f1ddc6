/**
 * `app/api/admin/training/document/route.ts`: the stored pieces of one
 * document become question/answer items, which are written as JSON lines
 * and logged. The session check is an input (see `AdminChat.IsAuthenticated`
 * for the rule), `JSON.stringify` is the parameter `serialise`, and the
 * file writes are returned as values.
 */
module TrainingDocument {
  import opened Wrappers
  import opened Text
  import opened Seqs

  /** A stored piece of `vector_db.json`, as far as this route reads it. */
  datatype StoredChunk = StoredChunk(content: string, documentId: Option<string>, title: string)

  datatype TrainingItem = TrainingItem(instruction: string, input: string, output: string)

  /** `doc.metadata.documentId === documentId`. */
  function BelongsTo(documentId: string): StoredChunk -> bool
  {
    (c: StoredChunk) => c.documentId == Some(documentId)
  }

  function Instruction(title: string): string
  {
    "Based on the document \"" + title + "\", answer this question:"
  }

  function Question(position: nat): string
  {
    "What information is available in chunk " + NatToString(position) + "?"
  }

  /**
   * `createTrainingDataset`: `stored` is the parsed list of pieces, absent
   * when the file cannot be read or parsed, which gives no items.
   */
  function CreateTrainingDataset(stored: Option<seq<StoredChunk>>, documentId: string): (items: seq<TrainingItem>)
    ensures stored.None? ==> items == []
    ensures stored.Some? ==>
      var chunks := Filter(stored.value, BelongsTo(documentId));
      && |items| == |chunks|
      && forall k :: 0 <= k < |items| ==>
           items[k] == TrainingItem(Instruction(chunks[k].title), Question(k + 1), chunks[k].content)
  {
    match stored
    case None => []
    case Some(docs) =>
      var chunks := Filter(docs, BelongsTo(documentId));
      seq(|chunks|, k requires 0 <= k < |chunks| =>
        TrainingItem(Instruction(chunks[k].title), Question(k + 1), chunks[k].content))
  }

  /** The items are exactly as many as the stored pieces of the document; other documents' pieces are never used. */
  lemma DatasetSize(stored: seq<StoredChunk>, documentId: string)
    ensures |CreateTrainingDataset(Some(stored), documentId)| == Count(stored, BelongsTo(documentId))
    ensures forall item :: item in CreateTrainingDataset(Some(stored), documentId) ==>
      exists c :: c in stored && c.documentId == Some(documentId) && c.content == item.output
  {
    FilterCount(stored, BelongsTo(documentId));
    var chunks := Filter(stored, BelongsTo(documentId));
    var items := CreateTrainingDataset(Some(stored), documentId);
    forall item | item in items
      ensures exists c :: c in stored && c.documentId == Some(documentId) && c.content == item.output
    {
      var k :| 0 <= k < |items| && items[k] == item;
      assert chunks[k] in chunks;
    }
  }

  /** `items.map(item => JSON.stringify(item)).join('\n')`. */
  function Jsonl(items: seq<TrainingItem>, serialise: TrainingItem -> string): string
  {
    Join(seq(|items|, k requires 0 <= k < |items| => serialise(items[k])), "\n")
  }

  /**
   * A serialiser that writes no raw line break (as `JSON.stringify` escapes
   * them) gives one line per item and no trailing newline: splitting the
   * body at `\n` gives the serialised items back.
   */
  lemma JsonlLines(items: seq<TrainingItem>, serialise: TrainingItem -> string)
    requires items != []
    requires forall item :: '\n' !in serialise(item)
    ensures Split(Jsonl(items, serialise), '\n') == seq(|items|, k requires 0 <= k < |items| => serialise(items[k]))
  {
    var lines := seq(|items|, k requires 0 <= k < |items| => serialise(items[k]));
    assert forall k :: 0 <= k < |lines| ==> '\n' !in lines[k];
    SplitJoin(lines, '\n');
  }

  datatype LogEntry = LogEntry(kind: string, documentId: string, samplesGenerated: nat, datasetPath: string, status: string)

  datatype Reply = Failed(status: nat, error: string) | Created(samplesGenerated: nat, datasetPath: string)

  function DatasetPath(documentId: string): string
  {
    "data/training/" + documentId + "_training.jsonl"
  }

  /** Different documents are written to different dataset files. */
  lemma DatasetPathInjective(a: string, b: string)
    requires DatasetPath(a) == DatasetPath(b)
    ensures a == b
  {
    var p, q := DatasetPath(a), DatasetPath(b);
    assert |a| == |b|;
    assert a == p[14..|p| - 15] && b == q[14..|q| - 15];
  }

  /**
   * `POST`: `parsed` says whether the body was a JSON object (reading it
   * did not throw), `documentId` is its field (absent when missing). On
   * success the JSONL body and the new log list are returned with the reply.
   */
  method PostTrainingDocument(
    authenticated: bool, parsed: bool, documentId: Option<string>, stored: Option<seq<StoredChunk>>,
    serialise: TrainingItem -> string, logsFile: Option<seq<LogEntry>>)
    returns (reply: Reply, jsonl: Option<string>, logs: Option<seq<LogEntry>>)
    ensures !authenticated ==> reply == Failed(401, "Unauthorized")
    ensures authenticated && !parsed ==> reply == Failed(500, "Training failed")
    ensures authenticated && parsed && !Truthy(documentId) ==> reply == Failed(400, "Document ID required")
    ensures authenticated && parsed && Truthy(documentId) ==>
      var items := CreateTrainingDataset(stored, documentId.value);
      && (items == [] ==> reply == Failed(404, "No training data available"))
      && (items != [] ==>
            && reply == Created(|items|, DatasetPath(documentId.value))
            && jsonl == Some(Jsonl(items, serialise))
            && logs == Some(logsFile.GetOr([]) + [LogEntry("document_training", documentId.value, |items|,
                                                          DatasetPath(documentId.value), "dataset_created")]))
    ensures reply.Failed? <==> jsonl.None?
    ensures jsonl.None? <==> logs.None?
    ensures reply.Created? ==> reply.samplesGenerated > 0
  {
    if !authenticated {
      return Failed(401, "Unauthorized"), None, None;
    }
    if !parsed {
      return Failed(500, "Training failed"), None, None;
    }
    if !Truthy(documentId) {
      return Failed(400, "Document ID required"), None, None;
    }
    var id := documentId.value;
    var items := CreateTrainingDataset(stored, id);
    if |items| == 0 {
      return Failed(404, "No training data available"), None, None;
    }
    var path := DatasetPath(id);
    jsonl := Some(Jsonl(items, serialise));
    var entries := logsFile.GetOr([]);
    entries := entries + [LogEntry("document_training", id, |items|, path, "dataset_created")];
    logs := Some(entries);
    reply := Created(|items|, path);
  }
}
