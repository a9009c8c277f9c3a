/**
 * The Lambda entry point of the transcribe module. It reads the S3 record
 * from an EventBridge `detail` (either its `requestParameters` or the
 * `records` a previous step passed on), falls back to an S3 notification's
 * `Records`, calls process_media on the bucket and key, and answers with a
 * `detail.records` entry pointing at the transcript, so that the next step
 * reads it the same way. Any exception becomes a 500 from handle_error.
 */
module TranscribeHandler {
  import opened Wrappers
  import opened PyText
  import opened PyJson
  import opened LambdaEvents

  const ErrorMessage := "Error processing transcription request"
  const OutputBucketVariable := "TRANSCRIPTION_OUTPUT_BUCKET"

  /** The transcribe module's handle_error: a 500 whose body holds str(e) and the message. */
  function HandleError(e: Raised, message: string): (r: Response)
    ensures r.statusCode == 500 && r.detail.None?
    ensures r.body == JDict(map["error" := JStr(e.text), "message" := JStr(message)])
  {
    Response(500, JDict(map["error" := JStr(e.text), "message" := JStr(message)]), None)
  }

  /** The records named by the `detail` of an event that has one. */
  function DetailRecords(event: Json): (r: Result<Json, PyError>)
  {
    var detail :- Lookup(event, "detail");
    var hasParameters :- In("requestParameters", detail);
    if hasParameters then
      var parameters :- Lookup(detail, "requestParameters");
      var bucket :- Lookup(parameters, "bucketName");
      var key :- Lookup(parameters, "key");
      Ok(JList([S3Record(bucket, key)]))
    else
      // event.get('detail', {}) finds the entry event['detail'] just read
      Get(detail, "records", JList([]))
  }

  /** The records the handler works on: those of `detail` when present and non-empty, otherwise `Records`. */
  function Records(event: Json): (r: Result<Json, PyError>)
  {
    var hasDetail :- In("detail", event);
    var fromDetail :- if hasDetail then DetailRecords(event) else Ok(JList([]));
    if Truthy(fromDetail) then Ok(fromDetail) else Get(event, "Records", JList([]))
  }

  /** The successful answer: the transcript's location as the next step's record, and a summary body. */
  function Completed(bucket: Json, key: Json, outputKey: Json, env: map<string, string>): Response {
    var outputBucket := OptStr(if OutputBucketVariable in env then Some(env[OutputBucketVariable]) else None);
    Response(200,
      JDict(map["message" := JStr("Transcription completed successfully"), "bucket" := bucket,
                "original_file" := key, "transcription_file" := outputKey]),
      Some(JDict(map["records" := JList([S3Record(outputBucket, outputKey)])])))
  }

  /**
   * lambda_handler. `process` stands for building the services and calling
   * process_media(bucket, key): the output key, or the exception it raised.
   * `env` is the process environment.
   */
  function Handle(event: Json, process: (Json, Json) -> Result<Json, Raised>, env: map<string, string>): (r: Response)
    ensures r.statusCode in {200, 400, 500}
    ensures r.statusCode == 200 <==> r.detail.Some?
  {
    match Records(event)
    case Err(e) => HandleError(Raise(e), ErrorMessage)
    case Ok(records) =>
      if !Truthy(records) then Response(400, JStr("No records found in event"), None)
      else
        match Location(records)
        case Err(e) => HandleError(Raise(e), ErrorMessage)
        case Ok((bucket, key)) =>
          if !Truthy(bucket) || !Truthy(key) then Response(400, JStr("Missing bucket or key information"), None)
          else
            match process(bucket, key)
            case Err(e) => HandleError(e, ErrorMessage)
            case Ok(outputKey) => Completed(bucket, key, outputKey, env)
  }

  /** An EventBridge S3 event: `requestParameters` names the object, whatever `Records` or `detail.records` hold. */
  lemma RequestParametersFirst(event: map<string, Json>, detail: map<string, Json>, parameters: map<string, Json>)
    requires "detail" in event && event["detail"] == JDict(detail)
    requires "requestParameters" in detail && detail["requestParameters"] == JDict(parameters)
    requires "bucketName" in parameters && "key" in parameters
    ensures Records(JDict(event)) == Ok(JList([S3Record(parameters["bucketName"], parameters["key"])]))
  {
  }

  /** `requestParameters` without a bucketName or a key is a KeyError. */
  lemma RequestParametersIncomplete(event: map<string, Json>, detail: map<string, Json>, parameters: map<string, Json>)
    requires "detail" in event && event["detail"] == JDict(detail)
    requires "requestParameters" in detail && detail["requestParameters"] == JDict(parameters)
    requires !("bucketName" in parameters && "key" in parameters)
    ensures Records(JDict(event)) == Err(KeyError(JStr(if "bucketName" in parameters then "key" else "bucketName")))
  {
  }

  /** A step-function event: non-empty `detail.records` win over `Records`. */
  lemma DetailRecordsFirst(event: map<string, Json>, detail: map<string, Json>)
    requires "detail" in event && event["detail"] == JDict(detail)
    requires "requestParameters" !in detail && "records" in detail && Truthy(detail["records"])
    ensures Records(JDict(event)) == Ok(detail["records"])
  {
  }

  /** Without `detail`, or with empty `detail.records`, the records are those of `Records`. */
  lemma RecordsFallback(event: map<string, Json>)
    requires "detail" !in event || (event["detail"].JDict? && "requestParameters" !in event["detail"].fields &&
                                    !Truthy(DictGet(event["detail"].fields, "records", JList([]))))
    ensures Records(JDict(event)) == Ok(DictGet(event, "Records", JList([])))
  {
  }

  /** An event with no records is a 400 and process_media is never called. */
  lemma NoRecordsRejected(event: Json, process: (Json, Json) -> Result<Json, Raised>, env: map<string, string>)
    requires Records(event).Ok? && !Truthy(Records(event).value)
    ensures Handle(event, process, env) == Response(400, JStr("No records found in event"), None)
  {
  }

  /** A first record whose bucket or key is missing or empty is a 400 and process_media is never called. */
  lemma MissingLocationRejected(event: Json, bucket: Json, key: Json, rest: seq<Json>,
                                process: (Json, Json) -> Result<Json, Raised>, env: map<string, string>)
    requires Records(event) == Ok(JList([S3Record(bucket, key)] + rest))
    requires !Truthy(bucket) || !Truthy(key)
    ensures Handle(event, process, env) == Response(400, JStr("Missing bucket or key information"), None)
  {
    LocationOfRecord(bucket, key, rest);
  }

  /** A record with a bucket and a key is processed; the answer is 200 or the 500 of the exception process_media raised. */
  lemma RecordProcessed(event: Json, bucket: Json, key: Json, rest: seq<Json>,
                        process: (Json, Json) -> Result<Json, Raised>, env: map<string, string>)
    requires Records(event) == Ok(JList([S3Record(bucket, key)] + rest))
    requires Truthy(bucket) && Truthy(key)
    ensures process(bucket, key).Ok? ==> Handle(event, process, env) == Completed(bucket, key, process(bucket, key).value, env)
    ensures process(bucket, key).Err? ==>
      Handle(event, process, env) == Response(500, JDict(map["error" := JStr(process(bucket, key).error.text), "message" := JStr(ErrorMessage)]), None)
  {
    LocationOfRecord(bucket, key, rest);
  }

  /** The body of a successful answer names the source and the transcript. */
  lemma CompletedBody(bucket: Json, key: Json, outputKey: Json, env: map<string, string>)
    ensures var r := Completed(bucket, key, outputKey, env);
      r.statusCode == 200 && r.body.JDict? &&
      r.body.fields.Keys == {"message", "bucket", "original_file", "transcription_file"} &&
      r.body.fields["bucket"] == bucket && r.body.fields["original_file"] == key &&
      r.body.fields["transcription_file"] == outputKey
  {
  }

  /** The `detail.records` of a successful answer read back as the output bucket and the transcript key. */
  lemma CompletedDetailReadBack(bucket: Json, key: Json, outputKey: Json, env: map<string, string>)
    requires OutputBucketVariable in env
    ensures var r := Completed(bucket, key, outputKey, env);
      r.detail.Some? && r.detail.value.JDict? && "records" in r.detail.value.fields &&
      Location(r.detail.value.fields["records"]) == Ok((JStr(env[OutputBucketVariable]), outputKey))
  {
    LocationOfRecord(JStr(env[OutputBucketVariable]), outputKey, []);
  }

  /** An event that is None, a number or a boolean fails the `in` test: a 500 that names the type. */
  lemma NotIterableEvent(event: Json, process: (Json, Json) -> Result<Json, Raised>, env: map<string, string>)
    requires event.JNull? || event.JBool? || event.JInt? || event.JFloat?
    ensures Handle(event, process, env) == HandleError(Raised("TypeError", "argument of type '" + TypeName(event) + "' is not iterable"), ErrorMessage)
  {
  }
}

/**
 * The Lambda entry point of the earlier transcribe project: S3 notification
 * events only, process_audio instead of process_media, and no `detail` in
 * the answer.
 */
module ProjectTranscribeHandler {
  import opened Wrappers
  import opened PyJson
  import opened LambdaEvents
  import TH = TranscribeHandler

  /**
   * lambda_handler. `process` stands for building the services and calling
   * process_audio(bucket, key).
   */
  function Handle(event: Json, process: (Json, Json) -> Result<Json, Raised>): (r: Response)
    ensures r.statusCode in {200, 400, 500} && r.detail.None?
  {
    match Get(event, "Records", JList([]))
    case Err(e) => TH.HandleError(Raise(e), TH.ErrorMessage)
    case Ok(records) =>
      if !Truthy(records) then Response(400, JStr("No records found in event"), None)
      else
        match Location(records)
        case Err(e) => TH.HandleError(Raise(e), TH.ErrorMessage)
        case Ok((bucket, key)) =>
          if !Truthy(bucket) || !Truthy(key) then Response(400, JStr("Missing bucket or key information"), None)
          else
            match process(bucket, key)
            case Err(e) => TH.HandleError(e, TH.ErrorMessage)
            case Ok(outputKey) =>
              Response(200, JDict(map["message" := JStr("Transcription completed successfully"), "bucket" := bucket,
                                      "original_file" := key, "transcription_file" := outputKey]), None)
  }

  /** On an event without `detail` the module's handler answers as the project's did, adding only `detail`. */
  lemma ModuleHandlerExtendsProject(event: map<string, Json>, process: (Json, Json) -> Result<Json, Raised>, env: map<string, string>)
    requires "detail" !in event
    ensures var a := TH.Handle(JDict(event), process, env);
      var b := Handle(JDict(event), process);
      a.statusCode == b.statusCode && a.body == b.body && (a.statusCode != 200 ==> a == b)
  {
  }

  /** The project ignores `detail`: an EventBridge event without `Records` is a 400. */
  lemma DetailIgnored(event: map<string, Json>, process: (Json, Json) -> Result<Json, Raised>)
    requires "Records" !in event
    ensures Handle(JDict(event), process) == Response(400, JStr("No records found in event"), None)
  {
  }
}
