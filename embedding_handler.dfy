/**
 * The embedding Lambda: for every SQS record it parses the body, embeds the
 * text and upserts the vector, and reports one entry per record. A record
 * without text or chunk id is reported and skipped; an exception while
 * handling a record is reported with the chunk id of the last body that
 * parsed, and the loop goes on. When no body has parsed yet there is no
 * such chunk id: reading it raises, and the whole batch fails with a 500.
 *
 * json.loads, create_embedding and upsert_embeddings are parameters, as is
 * the outcome of constructing the two services.
 */
module EmbeddingHandler {
  import opened Wrappers
  import opened PyText
  import opened PyJson
  import opened LambdaEvents
  import PS = PineconeStore

  const CompletedMessage := "Embedding process completed"
  const FatalMessage := "Error processing embeddings"
  const MissingFields := "Missing required fields: text or chunk_id"
  /** str() of the UnboundLocalError raised when the except clause reads message_body before it was ever bound (Python 3.11 wording). */
  const UnboundMessageBody := "cannot access local variable 'message_body' where it is not associated with a value"

  /** json.loads on a str: the value, or str() of the decoding error. */
  type Parse = string -> Result<Json, string>
  /** What create_embedding returns: the vector, the model that made it and the token usage. */
  datatype EmbeddingResponse = EmbeddingResponse(embedding: seq<Json>, model: string, usage: map<string, int>)
  /** create_embedding(text): the response, or str() of the exception. */
  type Embed = Json -> Result<EmbeddingResponse, string>
  /** upsert_embeddings(chunk_id, response, {'text': text}) as the handler calls it: None, or str() of the exception. */
  type Upsert = (Json, EmbeddingResponse, Json) -> Option<string>

  /** str() of the TypeError that len() raises on an EmbeddingResponse, a dataclass without __len__. */
  const ResponseHasNoLen := "object of type 'EmbeddingResponse' has no len()"

  function ErrorEntry(chunkId: Json, error: string): Json {
    JDict(map["chunk_id" := chunkId, "status" := JStr("error"), "error" := JStr(error)])
  }

  function SuccessEntry(chunkId: Json): Json {
    JDict(map["chunk_id" := chunkId, "status" := JStr("success")])
  }

  function Completed(processed: seq<Json>): Response {
    Response(200, JDict(map["message" := JStr(CompletedMessage), "processed_records" := JList(processed)]), None)
  }

  function Fatal(text: string): Response {
    Response(500, JDict(map["message" := JStr(FatalMessage), "error" := JStr(text)]), None)
  }

  /** `json.loads(record['body'])`: a missing body, a body that is not a str, or a malformed one raises. */
  function ParseBody(record: Json, parse: Parse): Result<Json, string> {
    match Lookup(record, "body")
    case Err(e) => Err(ErrorText(e))
    case Ok(JStr(b)) => parse(b)
    case Ok(b) => Err("the JSON object must be str, bytes or bytearray, not " + TypeName(b))
  }

  /**
   * The entry for a body that parsed to a dict: an error entry when text or
   * chunk_id is missing or empty (no service is called), otherwise success
   * only once both the embedding and the upsert returned.
   */
  function EntryOf(body: map<string, Json>, embed: Embed, upsert: Upsert): (e: Json)
    ensures e.JDict? && "status" in e.fields && (e.fields["status"] == JStr("success") || e.fields["status"] == JStr("error"))
  {
    var text := DictGet(body, "text", JStr(""));
    var chunkId := DictGet(body, "chunk_id", JStr(""));
    if !Truthy(text) || !Truthy(chunkId) then ErrorEntry(Or(chunkId, JStr("unknown")), MissingFields)
    else
      match embed(text)
      case Err(t) => ErrorEntry(chunkId, t)
      case Ok(response) =>
        match upsert(chunkId, response, JDict(map["text" := text]))
        case Some(t) => ErrorEntry(chunkId, t)
        case None => SuccessEntry(chunkId)
  }

  /** What the loop carries from one record to the next: the last body that parsed, and the entries so far. */
  datatype Carry = Carry(messageBody: Option<Json>, processed: seq<Json>)

  /**
   * One iteration. A body that does not parse is reported under the chunk id
   * of the previous body, and is fatal when there is none; a body that parsed
   * to something other than a dict is fatal, because the except clause calls
   * .get on it again.
   */
  function Step(c: Carry, record: Json, parse: Parse, embed: Embed, upsert: Upsert): Result<Carry, string> {
    match ParseBody(record, parse)
    case Err(t) =>
      (match c.messageBody
       case None => Err(UnboundMessageBody)
       case Some(previous) =>
         match Get(previous, "chunk_id", JStr("unknown"))
         case Err(e) => Err(ErrorText(e))
         case Ok(id) => Ok(Carry(c.messageBody, c.processed + [ErrorEntry(id, t)])))
    case Ok(JDict(body)) => Ok(Carry(Some(JDict(body)), c.processed + [EntryOf(body, embed, upsert)]))
    case Ok(other) => Err(ErrorText(NoGet(other)))
  }

  /** The loop over a list of records, or the exception that left it. */
  function Run(records: seq<Json>, parse: Parse, embed: Embed, upsert: Upsert): Result<Carry, string>
    decreases |records|
  {
    if records == [] then Ok(Carry(None, []))
    else
      match Run(records[..|records| - 1], parse, embed, upsert)
      case Err(t) => Err(t)
      case Ok(c) => Step(c, records[|records| - 1], parse, embed, upsert)
  }

  /**
   * lambda_handler. `init` is the exception text of constructing the OpenAI
   * and Pinecone services, if any. `Records` defaults to an empty list; a
   * non-empty str or dict in its place yields str elements, whose ['body']
   * raises before any body parsed.
   */
  function HandleSpec(event: Json, init: Option<string>, parse: Parse, embed: Embed, upsert: Upsert): Response {
    if init.Some? then Fatal(init.value)
    else
      match Get(event, "Records", JList([]))
      case Err(e) => Fatal(ErrorText(e))
      case Ok(JList(records)) =>
        (match Run(records, parse, embed, upsert)
         case Err(t) => Fatal(t)
         case Ok(c) => Completed(c.processed))
      case Ok(JStr(s)) => if s == [] then Completed([]) else Fatal(UnboundMessageBody)
      case Ok(JDict(m)) => if m == map[] then Completed([]) else Fatal(UnboundMessageBody)
      case Ok(other) => Fatal("'" + TypeName(other) + "' object is not iterable")
  }

  /** Once the loop has raised, later records change nothing. */
  lemma {:induction false} RunStopsAtError(records: seq<Json>, j: nat, parse: Parse, embed: Embed, upsert: Upsert)
    requires j <= |records| && Run(records[..j], parse, embed, upsert).Err?
    ensures Run(records, parse, embed, upsert) == Run(records[..j], parse, embed, upsert)
    decreases |records|
  {
    if j < |records| {
      var init := records[..|records| - 1];
      assert init[..j] == records[..j];
      RunStopsAtError(init, j, parse, embed, upsert);
    } else {
      assert records[..j] == records;
    }
  }

  /** The handler: the records are processed one at a time, the entries appended in order. */
  method Handle(event: Json, init: Option<string>, parse: Parse, embed: Embed, upsert: Upsert) returns (r: Response)
    ensures r == HandleSpec(event, init, parse, embed, upsert)
  {
    if init.Some? {
      return Fatal(init.value);
    }
    var batch := Get(event, "Records", JList([]));
    if batch.Err? {
      return Fatal(ErrorText(batch.error));
    }
    match batch.value {
      case JList(_) =>
      case JStr(text) => return if text == [] then Completed([]) else Fatal(UnboundMessageBody);
      case JDict(m) => return if m == map[] then Completed([]) else Fatal(UnboundMessageBody);
      case _ => return Fatal("'" + TypeName(batch.value) + "' object is not iterable");
    }
    var records := batch.value.items;
    var messageBody: Option<Json> := None;
    var processed: seq<Json> := [];
    var i := 0;
    while i < |records|
      invariant 0 <= i <= |records|
      invariant Run(records[..i], parse, embed, upsert) == Ok(Carry(messageBody, processed))
    {
      assert records[..i + 1][..i] == records[..i];
      var next := Step(Carry(messageBody, processed), records[i], parse, embed, upsert);
      if next.Err? {
        RunStopsAtError(records, i + 1, parse, embed, upsert);
        return Fatal(next.error);
      }
      messageBody := next.value.messageBody;
      processed := next.value.processed;
      i := i + 1;
    }
    assert records[..i] == records;
    r := Completed(processed);
  }

  /** An event without Records is an empty batch. */
  lemma NoRecordsEmptyBatch(event: map<string, Json>, parse: Parse, embed: Embed, upsert: Upsert)
    requires "Records" !in event
    ensures HandleSpec(JDict(event), None, parse, embed, upsert) == Completed([])
  {
  }

  /** A failure constructing the services is a 500 carrying its text, whatever the event. */
  lemma InitFailureFatal(event: Json, text: string, parse: Parse, embed: Embed, upsert: Upsert)
    ensures HandleSpec(event, Some(text), parse, embed, upsert) ==
      Response(500, JDict(map["message" := JStr(FatalMessage), "error" := JStr(text)]), None)
  {
  }

  /** A body that parses to a dict. */
  predicate ParsesToDict(record: Json, parse: Parse) {
    ParseBody(record, parse).Ok? && ParseBody(record, parse).value.JDict?
  }

  /** The entries a run over records whose bodies all parse to dicts should produce: one per record, in order. */
  function Entries(records: seq<Json>, parse: Parse, embed: Embed, upsert: Upsert): (r: seq<Json>)
    requires forall k :: 0 <= k < |records| ==> ParsesToDict(records[k], parse)
    ensures |r| == |records|
    decreases |records|
  {
    if records == [] then []
    else
      var n := |records| - 1;
      assert forall k :: 0 <= k < n ==> records[..n][k] == records[k];
      assert ParsesToDict(records[n], parse);
      Entries(records[..n], parse, embed, upsert) + [EntryOf(ParseBody(records[n], parse).value.fields, embed, upsert)]
  }

  /** When every body parses to a dict, there is one entry per record, in record order. */
  lemma OneEntryPerRecord(records: seq<Json>, parse: Parse, embed: Embed, upsert: Upsert)
    requires forall k :: 0 <= k < |records| ==> ParsesToDict(records[k], parse)
    ensures Run(records, parse, embed, upsert).Ok?
    ensures var processed := Run(records, parse, embed, upsert).value.processed;
      |processed| == |records| &&
      forall k :: 0 <= k < |records| && ParsesToDict(records[k], parse) ==> processed[k] == EntryOf(ParseBody(records[k], parse).value.fields, embed, upsert)
  {
    RunGivesEntries(records, parse, embed, upsert);
    forall k | 0 <= k < |records| && ParsesToDict(records[k], parse)
      ensures Entries(records, parse, embed, upsert)[k] == EntryOf(ParseBody(records[k], parse).value.fields, embed, upsert)
    {
      EntryAt(records, parse, embed, upsert, k);
    }
  }

  lemma {:induction false} RunGivesEntries(records: seq<Json>, parse: Parse, embed: Embed, upsert: Upsert)
    requires forall k :: 0 <= k < |records| ==> ParsesToDict(records[k], parse)
    ensures records == [] ==> Run(records, parse, embed, upsert) == Ok(Carry(None, []))
    ensures records != [] ==>
      ParsesToDict(records[|records| - 1], parse)
      && Run(records, parse, embed, upsert) == Ok(Carry(Some(ParseBody(records[|records| - 1], parse).value), Entries(records, parse, embed, upsert)))
    decreases |records|
  {
    if records != [] {
      var n := |records| - 1;
      var init := records[..n];
      assert forall k :: 0 <= k < n ==> init[k] == records[k];
      RunGivesEntries(init, parse, embed, upsert);
      RunLast(records, parse, embed, upsert);
      DictRecordStep(Run(init, parse, embed, upsert).value, records[n], parse, embed, upsert);
    }
  }

  lemma {:induction false} EntryAt(records: seq<Json>, parse: Parse, embed: Embed, upsert: Upsert, k: nat)
    requires forall k :: 0 <= k < |records| ==> ParsesToDict(records[k], parse)
    requires k < |records|
    ensures Entries(records, parse, embed, upsert)[k] == EntryOf(ParseBody(records[k], parse).value.fields, embed, upsert)
    decreases |records|
  {
    var n := |records| - 1;
    if k < n {
      var init := records[..n];
      assert forall j :: 0 <= j < n ==> init[j] == records[j];
      EntryAt(init, parse, embed, upsert, k);
    }
  }

  lemma RunLast(records: seq<Json>, parse: Parse, embed: Embed, upsert: Upsert)
    requires records != [] && Run(records[..|records| - 1], parse, embed, upsert).Ok?
    ensures Run(records, parse, embed, upsert) ==
      Step(Run(records[..|records| - 1], parse, embed, upsert).value, records[|records| - 1], parse, embed, upsert)
  {
  }

  /** A body that parses to a dict adds its entry and becomes the last body seen. */
  lemma DictRecordStep(c: Carry, record: Json, parse: Parse, embed: Embed, upsert: Upsert)
    requires ParsesToDict(record, parse)
    ensures var body := ParseBody(record, parse).value.fields;
      Step(c, record, parse, embed, upsert) == Ok(Carry(Some(JDict(body)), c.processed + [EntryOf(body, embed, upsert)]))
  {
  }

  /** A body without text or chunk_id is reported as such, with chunk_id 'unknown' when it is missing or empty, and no service is asked. */
  lemma MissingFieldsReported(body: map<string, Json>, embed1: Embed, upsert1: Upsert, embed2: Embed, upsert2: Upsert)
    requires !Truthy(DictGet(body, "text", JStr(""))) || !Truthy(DictGet(body, "chunk_id", JStr("")))
    ensures EntryOf(body, embed1, upsert1) == EntryOf(body, embed2, upsert2)
    ensures EntryOf(body, embed1, upsert1) == ErrorEntry(Or(DictGet(body, "chunk_id", JStr("")), JStr("unknown")), MissingFields)
  {
  }

  /** An entry is a success exactly when both fields are there and the embedding and then the upsert returned. */
  lemma SuccessOnlyAfterBothCalls(body: map<string, Json>, embed: Embed, upsert: Upsert)
    ensures var text := DictGet(body, "text", JStr(""));
      var chunkId := DictGet(body, "chunk_id", JStr(""));
      EntryOf(body, embed, upsert).fields["status"] == JStr("success") <==>
        Truthy(text) && Truthy(chunkId) && embed(text).Ok? && upsert(chunkId, embed(text).value, JDict(map["text" := text])).None?
  {
  }

  /** A failing embedding or upsert is reported with its text and the loop goes on to the next record. */
  lemma ServiceFailureReported(c: Carry, record: Json, parse: Parse, embed: Embed, upsert: Upsert)
    requires ParsesToDict(record, parse)
    ensures var body := ParseBody(record, parse).value.fields;
      var chunkId := DictGet(body, "chunk_id", JStr(""));
      var text := DictGet(body, "text", JStr(""));
      Truthy(text) && Truthy(chunkId) && embed(text).Err? ==>
        Step(c, record, parse, embed, upsert) ==
          Ok(Carry(Some(JDict(body)), c.processed + [ErrorEntry(chunkId, embed(text).error)]))
  {
  }

  /** A first body that does not parse makes the whole batch fail. */
  lemma FirstBodyInvalidFatal(records: seq<Json>, parse: Parse, embed: Embed, upsert: Upsert)
    requires records != [] && ParseBody(records[0], parse).Err?
    ensures HandleSpec(JDict(map["Records" := JList(records)]), None, parse, embed, upsert) == Fatal(UnboundMessageBody)
  {
    assert records[..1][..0] == [];
    RunStopsAtError(records, 1, parse, embed, upsert);
  }

  /** A later body that does not parse is reported under the chunk id of the previous body. */
  lemma LaterBodyInvalidReportsPrevious(records: seq<Json>, next: Json, previous: map<string, Json>, processed: seq<Json>,
                                        parse: Parse, embed: Embed, upsert: Upsert)
    requires Run(records, parse, embed, upsert) == Ok(Carry(Some(JDict(previous)), processed))
    requires ParseBody(next, parse).Err?
    ensures Run(records + [next], parse, embed, upsert) ==
      Ok(Carry(Some(JDict(previous)), processed + [ErrorEntry(DictGet(previous, "chunk_id", JStr("unknown")), ParseBody(next, parse).error)]))
  {
    assert (records + [next])[..|records|] == records;
  }

  /**
   * What the service's upsert_embeddings raises when handed the handler's
   * arguments in its (vectors, ids, metadata) positions: the chunk id as the
   * vectors, the EmbeddingResponse as the ids and the {'text': ...} dict as
   * the metadata. The response is a dataclass instance, so it is always
   * truthy and has no length: once len(vectors) has been taken, len(ids)
   * raises a TypeError, which the generic handler wraps.
   */
  function UpsertAsCalled(vectors: Json, ids: EmbeddingResponse, metadata: Json): (r: Option<string>)
    ensures r.Some?
    ensures Truthy(vectors) && Truthy(metadata) && Len(vectors).Ok? ==> r == Some(PS.UpsertPrefix + ResponseHasNoLen)
  {
    if !Truthy(vectors) || !Truthy(metadata) then Some(PS.InvalidInputPrefix + PS.EmptyInput)
    else
      match Len(vectors)
      case Err(e) => Some(PS.UpsertPrefix + ErrorText(e))
      case Ok(_) => Some(PS.UpsertPrefix + ResponseHasNoLen)
  }

  /**
   * The handler's call on a record with a text and a str chunk id whose
   * embedding succeeded: the record is reported as an error, with the
   * service's text about the response having no length.
   */
  lemma AsCalledResponseHasNoLen(body: map<string, Json>, chunkId: string, embed: Embed)
    requires Truthy(DictGet(body, "text", JStr(""))) && DictGet(body, "chunk_id", JStr("")) == JStr(chunkId) && chunkId != []
    requires embed(DictGet(body, "text", JStr(""))).Ok?
    ensures EntryOf(body, embed, UpsertAsCalled) ==
      ErrorEntry(JStr(chunkId), PS.UpsertPrefix + ResponseHasNoLen)
  {
    var text := DictGet(body, "text", JStr(""));
    var metadata := JDict(map["text" := text]);
    assert "text" in metadata.fields;
    assert Truthy(metadata);
    assert Len(JStr(chunkId)) == Ok(|chunkId|);
  }

  /** With the real service wired in, no record is ever reported as a success. */
  lemma {:induction false} NoRecordSucceedsAsWritten(records: seq<Json>, parse: Parse, embed: Embed)
    requires Run(records, parse, embed, UpsertAsCalled).Ok?
    ensures forall e :: e in Run(records, parse, embed, UpsertAsCalled).value.processed ==>
      e.JDict? && "status" in e.fields && e.fields["status"] == JStr("error")
    decreases |records|
  {
    if records != [] {
      var init := records[..|records| - 1];
      var c := Run(init, parse, embed, UpsertAsCalled).value;
      NoRecordSucceedsAsWritten(init, parse, embed);
      var last := records[|records| - 1];
      match ParseBody(last, parse)
      case Err(_) =>
      case Ok(JDict(body)) =>
        var text := DictGet(body, "text", JStr(""));
        var chunkId := DictGet(body, "chunk_id", JStr(""));
        if Truthy(text) && Truthy(chunkId) && embed(text).Ok? {
          assert UpsertAsCalled(chunkId, embed(text).value, JDict(map["text" := text])).Some?;
        }
      case Ok(_) =>
    }
  }

  /** The talk metadata the corrected call sends: the text, every other field empty. */
  function TextMetadata(metadata: Json): PS.TalkMetadata {
    var text := match metadata case JDict(m) => DictGet(m, "text", JStr("")) case _ => JStr("");
    PS.TalkMetadata(JList([]), JStr(""), JStr(""), JStr(""), JStr(""), JStr(""), text, JStr(""), JStr(""))
  }

  /** The one vector the corrected call sends: the chunk id, the response's embedding list, the text as metadata. */
  function CorrectedVector(chunkId: Json, response: EmbeddingResponse, metadata: Json): PS.Vector {
    PS.Vector(chunkId, JList(response.embedding), PS.MetadataDict(TextMetadata(metadata)))
  }

  /** The call as evidently intended: one vector, the response's `.embedding`, under the chunk id, with the text as its metadata. */
  function CorrectedUpsert(send: seq<PS.Vector> -> Option<PS.SdkError>, stats: Result<PS.Stats, Raised>): Upsert {
    (chunkId: Json, response: EmbeddingResponse, metadata: Json) =>
      var o := PS.UpsertSpec([JList(response.embedding)], [chunkId], [TextMetadata(metadata)], None, send, stats);
      if o.result.Ok? then None else Some(o.result.error.text)
  }

  /** The corrected call sends exactly one vector: the embedding list of the response, not the response. */
  lemma CorrectedCallSendsEmbedding(chunkId: Json, response: EmbeddingResponse, metadata: Json,
                                    send: seq<PS.Vector> -> Option<PS.SdkError>, stats: Result<PS.Stats, Raised>)
    ensures PS.UpsertSpec([JList(response.embedding)], [chunkId], [TextMetadata(metadata)], None, send, stats).sent ==
      Some([CorrectedVector(chunkId, response, metadata)])
  {
    assert PS.Zip([JList(response.embedding)], [chunkId], [TextMetadata(metadata)]) == [CorrectedVector(chunkId, response, metadata)];
  }

  /**
   * With the corrected call a record with text and chunk id is a success
   * once the index accepts that one vector and its dimension checks out.
   */
  lemma CorrectedCallSucceeds(body: map<string, Json>, embed: Embed, send: seq<PS.Vector> -> Option<PS.SdkError>, count: int)
    requires Truthy(DictGet(body, "text", JStr(""))) && Truthy(DictGet(body, "chunk_id", JStr("")))
    requires embed(DictGet(body, "text", JStr(""))).Ok?
    requires var text := DictGet(body, "text", JStr(""));
      send([CorrectedVector(DictGet(body, "chunk_id", JStr("")), embed(text).value, JDict(map["text" := text]))]).None?
    ensures EntryOf(body, embed, CorrectedUpsert(send, Ok(PS.Stats(count, PS.Dimension)))) ==
      SuccessEntry(DictGet(body, "chunk_id", JStr("")))
  {
    var text := DictGet(body, "text", JStr(""));
    var chunkId := DictGet(body, "chunk_id", JStr(""));
    var response := embed(text).value;
    var metadata := JDict(map["text" := text]);
    CorrectedCallSendsEmbedding(chunkId, response, metadata, send, Ok(PS.Stats(count, PS.Dimension)));
    assert PS.Zip([JList(response.embedding)], [chunkId], [TextMetadata(metadata)]) == [CorrectedVector(chunkId, response, metadata)];
  }
}
