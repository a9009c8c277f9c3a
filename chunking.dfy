/**
 * The chunking service as it stands: it does not split anything yet and
 * only names the object the chunks of a transcript would be written to.
 */
module ChunkingService {
  import opened PyText

  const ChunkPrefix := "chunks/"
  const ChunkSuffix := "-chunks.json"

  /** process_media(bucket, key): the output key for the chunks of `key`; the bucket plays no part. */
  function ProcessMedia(bucket: string, key: string): (r: string)
    ensures StartsWith(r, ChunkPrefix)
    ensures |r| == |key| + |ChunkPrefix| + |ChunkSuffix|
    ensures r[|ChunkPrefix|..|ChunkPrefix| + |key|] == key && r[|ChunkPrefix| + |key|..] == ChunkSuffix
  {
    ChunkPrefix + key + ChunkSuffix
  }

  /** Different source keys get different chunk keys, whatever the buckets. */
  lemma ProcessMediaInjective(bucket1: string, key1: string, bucket2: string, key2: string)
    requires ProcessMedia(bucket1, key1) == ProcessMedia(bucket2, key2)
    ensures key1 == key2
  {
    var r := ProcessMedia(bucket1, key1);
    assert |key1| == |key2|;
    assert key1 == r[|ChunkPrefix|..|ChunkPrefix| + |key1|] == key2;
  }
}

/**
 * The Lambda entry point of the chunking module. It prefers an S3
 * notification's `Records` and falls back to the `detail.records` a
 * previous step passed on; an event with no usable record is acknowledged
 * and echoed back rather than rejected. A None event and any exception
 * become a 500 from the chunking module's handle_error, which reports the
 * exception's type and text separately.
 */
module ChunkingHandler {
  import opened Wrappers
  import opened PyText
  import opened PyJson
  import opened LambdaEvents
  import TH = TranscribeHandler
  import CS = ChunkingService

  const ErrorMessage := "Error in chunking module"
  const OutputBucketVariable := "CHUNKING_OUTPUT_BUCKET"

  /** The chunking module's handle_error: a 500 whose body holds the exception's type, the message and str(e). */
  function HandleError(e: Raised, message: string): (r: Response)
    ensures r.statusCode == 500 && r.detail.None?
    ensures r.body == JDict(map["error" := JStr(e.typeName), "message" := JStr(message), "details" := JStr(e.text)])
  {
    Response(500, JDict(map["error" := JStr(e.typeName), "message" := JStr(message), "details" := JStr(e.text)]), None)
  }

  /** The records: `Records` when non-empty, otherwise `detail.records` when the event has a `detail`. */
  function Records(event: Json): (r: Result<Json, PyError>)
    ensures r.Ok? ==> event.JDict?
  {
    var records :- Get(event, "Records", JList([]));
    // Get succeeded, so the event is a dict and `'detail' in event` cannot raise
    if !Truthy(records) && Has(event, "detail") then
      Get(event.fields["detail"], "records", JList([]))
    else Ok(records)
  }

  /** The answer to an event that names no file: an acknowledgement that echoes the event. */
  function Initialized(event: Json): Response {
    Response(200, JDict(map["message" := JStr("Chunking module initialized successfully"), "event_received" := event]), None)
  }

  /** The answer once a file was processed. */
  function Chunked(bucket: Json, key: Json, outputKey: Json, env: map<string, string>): Response {
    var outputBucket := OptStr(if OutputBucketVariable in env then Some(env[OutputBucketVariable]) else None);
    Response(200, JDict(map["message" := JStr("Chunking completed successfully"), "source_bucket" := bucket,
                            "source_file" := key, "output_bucket" := outputBucket, "output_key" := outputKey]), None)
  }

  /**
   * lambda_handler. `process` stands for ChunkingService().process_media(bucket, key);
   * `env` is the process environment.
   */
  function Handle(event: Json, process: (Json, Json) -> Result<Json, Raised>, env: map<string, string>): (r: Response)
    ensures r.statusCode in {200, 500} && r.detail.None?
  {
    if event.JNull? then HandleError(Raise(ValueError("Event cannot be None")), ErrorMessage)
    else
      match Records(event)
      case Err(e) => HandleError(Raise(e), ErrorMessage)
      case Ok(records) =>
        if !Truthy(records) then Initialized(event)
        else
          match Location(records)
          case Err(e) => HandleError(Raise(e), ErrorMessage)
          case Ok((bucket, key)) =>
            if Truthy(bucket) && Truthy(key) then
              match process(bucket, key)
              case Err(e) => HandleError(e, ErrorMessage)
              case Ok(outputKey) => Chunked(bucket, key, outputKey, env)
            else Initialized(event)
  }

  /** A None event is rejected with a ValueError. */
  lemma NoneEventRejected(process: (Json, Json) -> Result<Json, Raised>, env: map<string, string>)
    ensures Handle(JNull, process, env) ==
      Response(500, JDict(map["error" := JStr("ValueError"), "message" := JStr(ErrorMessage), "details" := JStr("Event cannot be None")]), None)
  {
  }

  /** Non-empty `Records` win over `detail`. */
  lemma RecordsFirst(event: map<string, Json>)
    requires "Records" in event && Truthy(event["Records"])
    ensures Records(JDict(event)) == Ok(event["Records"])
  {
  }

  /** Without non-empty `Records`, the records are those of a `detail` dict. */
  lemma DetailFallback(event: map<string, Json>, detail: map<string, Json>)
    requires !Truthy(DictGet(event, "Records", JList([])))
    requires "detail" in event && event["detail"] == JDict(detail)
    ensures Records(JDict(event)) == Ok(DictGet(detail, "records", JList([])))
  {
  }

  /** An event that names no file is acknowledged with itself echoed back, and nothing is processed. */
  lemma NoFileAcknowledged(event: map<string, Json>, process: (Json, Json) -> Result<Json, Raised>, env: map<string, string>)
    requires !Truthy(DictGet(event, "Records", JList([]))) && "detail" !in event
    ensures Handle(JDict(event), process, env) == Initialized(JDict(event))
  {
  }

  /** A first record with an empty bucket or key is acknowledged, not rejected as the transcribe handler does. */
  lemma MissingLocationAcknowledged(event: Json, bucket: Json, key: Json, rest: seq<Json>,
                                    process: (Json, Json) -> Result<Json, Raised>, env: map<string, string>)
    requires event.JDict? && Records(event) == Ok(JList([S3Record(bucket, key)] + rest))
    requires !Truthy(bucket) || !Truthy(key)
    ensures Handle(event, process, env) == Initialized(event)
    ensures TH.Records(event) == Records(event) ==> TH.Handle(event, process, env).statusCode == 400
  {
    LocationOfRecord(bucket, key, rest);
  }

  /** A record with a bucket and a key is chunked, or the exception of process_media becomes a 500. */
  lemma RecordProcessed(event: Json, bucket: Json, key: Json, rest: seq<Json>,
                        process: (Json, Json) -> Result<Json, Raised>, env: map<string, string>)
    requires event.JDict? && Records(event) == Ok(JList([S3Record(bucket, key)] + rest))
    requires Truthy(bucket) && Truthy(key)
    ensures process(bucket, key).Ok? ==> Handle(event, process, env) == Chunked(bucket, key, process(bucket, key).value, env)
    ensures process(bucket, key).Err? ==> Handle(event, process, env) == HandleError(process(bucket, key).error, ErrorMessage)
  {
    LocationOfRecord(bucket, key, rest);
  }

  /**
   * The pipeline step: the answer of a successful transcription, passed on
   * as the chunking event, makes the chunking handler process the transcript
   * the transcribe handler wrote, in the bucket it named.
   */
  lemma TranscriptionHandsOverToChunking(bucket: Json, key: Json, transcript: string, body: string,
                                         transcribeEnv: map<string, string>, process: (Json, Json) -> Result<Json, Raised>,
                                         env: map<string, string>)
    requires TH.OutputBucketVariable in transcribeEnv && transcribeEnv[TH.OutputBucketVariable] != ""
    requires transcript != ""
    requires process(JStr(transcribeEnv[TH.OutputBucketVariable]), JStr(transcript)) ==
      Ok(JStr(CS.ProcessMedia(transcribeEnv[TH.OutputBucketVariable], transcript)))
    ensures var done := TH.Completed(bucket, key, JStr(transcript), transcribeEnv);
      var event := JDict(map["statusCode" := JInt(done.statusCode), "body" := JStr(body), "detail" := done.detail.value]);
      var outputBucket := transcribeEnv[TH.OutputBucketVariable];
      Handle(event, process, env) ==
        Chunked(JStr(outputBucket), JStr(transcript), JStr(CS.ProcessMedia(outputBucket, transcript)), env)
  {
    var done := TH.Completed(bucket, key, JStr(transcript), transcribeEnv);
    var event := JDict(map["statusCode" := JInt(done.statusCode), "body" := JStr(body), "detail" := done.detail.value]);
    TH.CompletedDetailReadBack(bucket, key, JStr(transcript), transcribeEnv);
    var records := done.detail.value.fields["records"];
    assert Records(event) == Ok(records);
    LocatedRecordProcessed(event, records, JStr(transcribeEnv[TH.OutputBucketVariable]), JStr(transcript), process, env);
  }

  /** Records whose first entry names a bucket and a key are handed to process_media. */
  lemma LocatedRecordProcessed(event: Json, records: Json, bucket: Json, key: Json,
                               process: (Json, Json) -> Result<Json, Raised>, env: map<string, string>)
    requires Records(event) == Ok(records) && Location(records) == Ok((bucket, key))
    requires Truthy(bucket) && Truthy(key) && process(bucket, key).Ok?
    ensures Handle(event, process, env) == Chunked(bucket, key, process(bucket, key).value, env)
  {
    assert Truthy(records);
  }
}
