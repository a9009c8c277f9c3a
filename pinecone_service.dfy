/**
 * The embedding module's Pinecone service: connecting to the talk index
 * (creating it when it is not listed), checking its dimension, and upserting
 * vectors with their talk metadata. The Pinecone SDK calls are parameters:
 * what list_indexes, create_index, upsert and describe_index_stats answer.
 * Every failure surfaces as a PineconeServiceError whose text says where it
 * happened.
 */
module PineconeStore {
  import opened Wrappers
  import opened PyText
  import opened PyJson
  import opened LambdaEvents

  const DefaultEnvironment := "us-east-1"
  const DefaultIndexName := "talk-embeddings"
  /** The dimension of OpenAI's embeddings. */
  const Dimension := 1536
  const Metric := "cosine"

  const ServiceErrorName := "PineconeServiceError"
  const InvalidInputPrefix := "Invalid input for upsert operation: "
  const UpsertPrefix := "Error upserting vectors: "
  const StatusPrefix := "Error verifying storage status: "
  const EnsurePrefix := "Error ensuring index exists: "
  const InitPrefix := "Failed to initialize Pinecone service: "
  const EmptyInput := "Vectors, IDs, and metadata lists cannot be empty"
  const UnequalInput := "Vectors, IDs, and metadata lists must have the same length"

  function ServiceError(text: string): Raised {
    Raised(ServiceErrorName, text)
  }

  /** The metadata of one talk segment; original_file and segment_id default to "". */
  datatype TalkMetadata = TalkMetadata(
    speaker: Json, startTime: Json, endTime: Json, title: Json, track: Json, day: Json, text: Json,
    originalFile: Json, segmentId: Json)

  const MetadataKeys: set<string> :=
    {"speaker", "start_time", "end_time", "title", "track", "day", "text", "original_file", "segment_id"}

  /** The dict sent with a vector: the nine fields under their snake_case names. */
  function MetadataDict(m: TalkMetadata): (d: map<string, Json>)
    ensures d.Keys == MetadataKeys
  {
    map["speaker" := m.speaker, "start_time" := m.startTime, "end_time" := m.endTime, "title" := m.title,
        "track" := m.track, "day" := m.day, "text" := m.text, "original_file" := m.originalFile,
        "segment_id" := m.segmentId]
  }

  /** Reading the metadata back from its dict. */
  function MetadataOfDict(d: map<string, Json>): Option<TalkMetadata> {
    if MetadataKeys <= d.Keys then
      Some(TalkMetadata(d["speaker"], d["start_time"], d["end_time"], d["title"], d["track"], d["day"],
                        d["text"], d["original_file"], d["segment_id"]))
    else None
  }

  /** The dict carries every field unchanged. */
  lemma MetadataRoundTrip(m: TalkMetadata)
    ensures MetadataOfDict(MetadataDict(m)) == Some(m)
  {
  }

  /** describe_index_stats: the vector count and the dimension. */
  datatype Stats = Stats(totalVectorCount: int, dimension: int)

  /** _verify_storage_status: the stats when the dimension is 1536; any failure is wrapped. */
  function VerifyStorageStatus(stats: Result<Stats, Raised>): (r: Result<Stats, Raised>)
    ensures r.Ok? <==> stats.Ok? && stats.value.dimension == Dimension
    ensures r.Ok? ==> r.value == stats.value
    ensures r.Err? ==> r.error.typeName == ServiceErrorName && StartsWith(r.error.text, StatusPrefix)
  {
    match stats
    case Err(e) => Err(ServiceError(StatusPrefix + e.text))
    case Ok(s) =>
      if s.dimension != Dimension then
        Err(ServiceError(StatusPrefix + "Index dimension mismatch. Expected 1536, got " + IntToString(s.dimension)))
      else Ok(s)
  }

  /** Where create_index was asked to put the index, and with which settings. */
  datatype CreateRequest = CreateRequest(name: Json, dimension: int, metric: string, region: Json)

  /** What _ensure_index_exists did: the create_index call it made, if any, and the error it raised, if any. */
  datatype EnsureOutcome = EnsureOutcome(created: Option<CreateRequest>, error: Option<Raised>)

  /**
   * _ensure_index_exists: create the index only when its name is not listed;
   * a creation error whose text mentions "already exists" (in any case) is
   * tolerated, any other failure is wrapped.
   */
  function EnsureIndexExists(indexName: Json, region: Json, listing: Result<seq<string>, Raised>,
                             create: CreateRequest -> Option<Raised>): (o: EnsureOutcome)
    ensures listing.Err? ==> o.created.None? && o.error.Some?
    ensures listing.Ok? && indexName.JStr? && indexName.s in listing.value ==> o == EnsureOutcome(None, None)
    ensures o.created.Some? ==> o.created.value == CreateRequest(indexName, Dimension, Metric, region)
    ensures o.error.Some? ==> o.error.value.typeName == ServiceErrorName && StartsWith(o.error.value.text, EnsurePrefix)
  {
    match listing
    case Err(e) => EnsureOutcome(None, Some(ServiceError(EnsurePrefix + e.text)))
    case Ok(names) =>
      if indexName.JStr? && indexName.s in names then EnsureOutcome(None, None)
      else
        var request := CreateRequest(indexName, Dimension, Metric, region);
        match create(request)
        case None => EnsureOutcome(Some(request), None)
        case Some(e) =>
          if IsInfix("already exists", Lower(e.text)) then EnsureOutcome(Some(request), None)
          else EnsureOutcome(Some(request), Some(ServiceError(EnsurePrefix + e.text)))
  }

  /** The settings a service holds once constructed. */
  datatype Settings = Settings(apiKey: Json, environment: Json, indexName: Json)

  /**
   * The constructor: a key is required, the environment and the index name
   * default, the index is ensured and its dimension checked; every failure
   * is rewrapped once more.
   */
  function Initialize(apiKey: Json, environment: Json, indexName: Json, listing: Result<seq<string>, Raised>,
                      create: CreateRequest -> Option<Raised>, stats: Result<Stats, Raised>): (r: Result<Settings, Raised>)
    ensures !Truthy(apiKey) ==> r == Err(ServiceError(InitPrefix + "Pinecone API key not configured"))
    ensures r.Ok? ==> r.value == Settings(apiKey, Or(environment, JStr(DefaultEnvironment)), Or(indexName, JStr(DefaultIndexName)))
    ensures r.Ok? <==>
      Truthy(apiKey)
      && EnsureIndexExists(Or(indexName, JStr(DefaultIndexName)), Or(environment, JStr(DefaultEnvironment)), listing, create).error.None?
      && VerifyStorageStatus(stats).Ok?
    ensures r.Err? ==> r.error.typeName == ServiceErrorName && StartsWith(r.error.text, InitPrefix)
  {
    if !Truthy(apiKey) then Err(ServiceError(InitPrefix + "Pinecone API key not configured"))
    else
      var env := Or(environment, JStr(DefaultEnvironment));
      var name := Or(indexName, JStr(DefaultIndexName));
      var ensured := EnsureIndexExists(name, env, listing, create);
      if ensured.error.Some? then Err(ServiceError(InitPrefix + ensured.error.value.text))
      else
        match VerifyStorageStatus(stats)
        case Err(e) => Err(ServiceError(InitPrefix + e.text))
        case Ok(_) => Ok(Settings(apiKey, env, name))
  }

  /** The input check of upsert_embeddings: emptiness first, then the lengths. */
  function InputError(vectorCount: nat, idCount: nat, metadataCount: nat): (r: Option<string>)
    ensures r.None? <==> 0 < vectorCount == idCount == metadataCount
    ensures (vectorCount == 0 || idCount == 0 || metadataCount == 0) ==> r == Some(EmptyInput)
  {
    if vectorCount == 0 || idCount == 0 || metadataCount == 0 then Some(EmptyInput)
    else if vectorCount != idCount || vectorCount != metadataCount then Some(UnequalInput)
    else None
  }

  /** One upserted entry: the (id, vector, metadata dict) tuple. */
  datatype Vector = Vector(id: Json, values: Json, metadata: map<string, Json>)

  /** upsert_embeddings' result. */
  datatype UpsertResponse = UpsertResponse(upsertedCount: int, namespace: Option<string>, totalVectorCount: int)

  /**
   * An exception out of the index's upsert: its class name and text, and
   * whether that class is ValueError or derives from it, which is what
   * `except ValueError` tests.
   */
  datatype SdkError = SdkError(raised: Raised, isValueError: bool)

  /** The exception of the SDK's upsert, rewrapped: any ValueError, subclasses included, counts as invalid input. */
  function UpsertFailure(e: SdkError): (r: Raised)
    ensures r.typeName == ServiceErrorName
    ensures e.isValueError <==> StartsWith(r.text, InvalidInputPrefix)
    ensures !e.isValueError <==> StartsWith(r.text, UpsertPrefix)
  {
    if e.isValueError then
      assert (InvalidInputPrefix + e.raised.text)[0] == 'I' && UpsertPrefix[0] == 'E';
      ServiceError(InvalidInputPrefix + e.raised.text)
    else
      assert (UpsertPrefix + e.raised.text)[0] == 'E' && InvalidInputPrefix[0] == 'I';
      ServiceError(UpsertPrefix + e.raised.text)
  }

  /** What upsert_embeddings sent to the index, if anything, and what it returned or raised. */
  datatype UpsertOutcome = UpsertOutcome(sent: Option<seq<Vector>>, result: Result<UpsertResponse, Raised>)

  /** The vectors zipped with their ids and metadata dicts, in input order. */
  function Zip(vectors: seq<Json>, ids: seq<Json>, metadata: seq<TalkMetadata>): (r: seq<Vector>)
    requires |vectors| == |ids| == |metadata|
    ensures |r| == |ids|
  {
    seq(|ids|, k requires 0 <= k < |ids| => Vector(ids[k], vectors[k], MetadataDict(metadata[k])))
  }

  /**
   * upsert_embeddings: `send` is the index's upsert, `stats` what the
   * statistics say afterwards.
   */
  function UpsertSpec(vectors: seq<Json>, ids: seq<Json>, metadata: seq<TalkMetadata>, namespace: Option<string>,
                      send: seq<Vector> -> Option<SdkError>, stats: Result<Stats, Raised>): UpsertOutcome
  {
    match InputError(|vectors|, |ids|, |metadata|)
    case Some(message) => UpsertOutcome(None, Err(ServiceError(InvalidInputPrefix + message)))
    case None =>
      var data := Zip(vectors, ids, metadata);
      match send(data)
      case Some(e) => UpsertOutcome(Some(data), Err(UpsertFailure(e)))
      case None =>
        match VerifyStorageStatus(stats)
        case Err(e) => UpsertOutcome(Some(data), Err(ServiceError(UpsertPrefix + e.text)))
        case Ok(s) => UpsertOutcome(Some(data), Ok(UpsertResponse(|data|, namespace, s.totalVectorCount)))
  }

  /** A connected service. */
  class PineconeService {
    const apiKey: Json
    const environment: Json
    const indexName: Json

    constructor(settings: Settings)
      ensures apiKey == settings.apiKey && environment == settings.environment && indexName == settings.indexName
    {
      apiKey := settings.apiKey;
      environment := settings.environment;
      indexName := settings.indexName;
    }

    /** PineconeService(): the service, or the error its constructor raises. */
    static method Connect(apiKey: Json, environment: Json, indexName: Json, listing: Result<seq<string>, Raised>,
                          create: CreateRequest -> Option<Raised>, stats: Result<Stats, Raised>)
      returns (r: Result<PineconeService, Raised>)
      ensures r.Err? <==> Initialize(apiKey, environment, indexName, listing, create, stats).Err?
      ensures r.Err? ==> r.error == Initialize(apiKey, environment, indexName, listing, create, stats).error
      ensures r.Ok? ==>
        fresh(r.value) &&
        Settings(r.value.apiKey, r.value.environment, r.value.indexName) ==
          Initialize(apiKey, environment, indexName, listing, create, stats).value
    {
      var settings := Initialize(apiKey, environment, indexName, listing, create, stats);
      if settings.Err? {
        return Err(settings.error);
      }
      var service := new PineconeService(settings.value);
      return Ok(service);
    }

    /** upsert_embeddings: the vector data is built one tuple at a time, then sent in one call. */
    method Upsert(vectors: seq<Json>, ids: seq<Json>, metadata: seq<TalkMetadata>, namespace: Option<string>,
                  send: seq<Vector> -> Option<SdkError>, stats: Result<Stats, Raised>)
      returns (sent: Option<seq<Vector>>, result: Result<UpsertResponse, Raised>)
      ensures UpsertOutcome(sent, result) == UpsertSpec(vectors, ids, metadata, namespace, send, stats)
    {
      var problem := InputError(|vectors|, |ids|, |metadata|);
      if problem.Some? {
        return None, Err(ServiceError(InvalidInputPrefix + problem.value));
      }
      var data: seq<Vector> := [];
      var i := 0;
      while i < |ids|
        invariant 0 <= i <= |ids|
        invariant |data| == i
        invariant forall k :: 0 <= k < i ==> data[k] == Vector(ids[k], vectors[k], MetadataDict(metadata[k]))
      {
        data := data + [Vector(ids[i], vectors[i], MetadataDict(metadata[i]))];
        i := i + 1;
      }
      assert data == Zip(vectors, ids, metadata);
      sent := Some(data);
      var failure := send(data);
      if failure.Some? {
        return sent, Err(UpsertFailure(failure.value));
      }
      var checked := VerifyStorageStatus(stats);
      if checked.Err? {
        return sent, Err(ServiceError(UpsertPrefix + checked.error.text));
      }
      result := Ok(UpsertResponse(|data|, namespace, checked.value.totalVectorCount));
    }
  }

  /** Empty input is refused before the lengths are compared, and nothing is sent. */
  lemma EmptyInputRefused(vectors: seq<Json>, ids: seq<Json>, metadata: seq<TalkMetadata>, namespace: Option<string>,
                          send: seq<Vector> -> Option<SdkError>, stats: Result<Stats, Raised>)
    requires vectors == [] || ids == [] || metadata == []
    ensures UpsertSpec(vectors, ids, metadata, namespace, send, stats) ==
      UpsertOutcome(None, Err(ServiceError(InvalidInputPrefix + EmptyInput)))
  {
  }

  /** Non-empty lists of different lengths are refused, and nothing is sent. */
  lemma UnequalInputRefused(vectors: seq<Json>, ids: seq<Json>, metadata: seq<TalkMetadata>, namespace: Option<string>,
                            send: seq<Vector> -> Option<SdkError>, stats: Result<Stats, Raised>)
    requires vectors != [] && ids != [] && metadata != []
    requires |vectors| != |ids| || |vectors| != |metadata|
    ensures UpsertSpec(vectors, ids, metadata, namespace, send, stats) ==
      UpsertOutcome(None, Err(ServiceError(InvalidInputPrefix + UnequalInput)))
  {
  }

  /** What is sent is the k-th id with the k-th vector and the k-th metadata's nine fields, in input order. */
  lemma SentInOrder(vectors: seq<Json>, ids: seq<Json>, metadata: seq<TalkMetadata>, namespace: Option<string>,
                    send: seq<Vector> -> Option<SdkError>, stats: Result<Stats, Raised>, k: nat)
    requires UpsertSpec(vectors, ids, metadata, namespace, send, stats).sent.Some?
    ensures var sent := UpsertSpec(vectors, ids, metadata, namespace, send, stats).sent.value;
      |sent| == |ids| == |vectors| == |metadata| &&
      (k < |ids| ==> sent[k].id == ids[k] && sent[k].values == vectors[k] && MetadataOfDict(sent[k].metadata) == Some(metadata[k]))
  {
    assert InputError(|vectors|, |ids|, |metadata|).None?;
    var data := Zip(vectors, ids, metadata);
    assert UpsertSpec(vectors, ids, metadata, namespace, send, stats).sent == Some(data);
    if k < |ids| {
      assert data[k] == Vector(ids[k], vectors[k], MetadataDict(metadata[k]));
      MetadataRoundTrip(metadata[k]);
    }
  }

  /** On success the count is the number of inputs, the namespace is echoed and the total comes from the statistics. */
  lemma SuccessReport(vectors: seq<Json>, ids: seq<Json>, metadata: seq<TalkMetadata>, namespace: Option<string>,
                      send: seq<Vector> -> Option<SdkError>, stats: Result<Stats, Raised>)
    requires UpsertSpec(vectors, ids, metadata, namespace, send, stats).result.Ok?
    ensures stats.Ok? && stats.value.dimension == Dimension
    ensures UpsertSpec(vectors, ids, metadata, namespace, send, stats).result.value ==
      UpsertResponse(|ids|, namespace, stats.value.totalVectorCount)
  {
  }

  /** A failed check after the upsert still fails the call, although the vectors were already sent. */
  lemma FailedCheckAfterSend(vectors: seq<Json>, ids: seq<Json>, metadata: seq<TalkMetadata>, namespace: Option<string>,
                             send: seq<Vector> -> Option<SdkError>, dimension: int, count: int)
    requires 0 < |vectors| == |ids| == |metadata|
    requires send(Zip(vectors, ids, metadata)).None? && dimension != Dimension
    ensures var o := UpsertSpec(vectors, ids, metadata, namespace, send, Ok(Stats(count, dimension)));
      o.sent.Some? && o.result ==
        Err(ServiceError(UpsertPrefix + StatusPrefix + "Index dimension mismatch. Expected 1536, got " + IntToString(dimension)))
  {
    var m := "Index dimension mismatch. Expected 1536, got ";
    var d := IntToString(dimension);
    SentThenStatusFailed(vectors, ids, metadata, namespace, send, Ok(Stats(count, dimension)));
    assert VerifyStorageStatus(Ok(Stats(count, dimension))).error.text == (StatusPrefix + m) + d;
    assert UpsertPrefix + ((StatusPrefix + m) + d) == ((UpsertPrefix + StatusPrefix) + m) + d;
  }

  lemma SentThenStatusFailed(vectors: seq<Json>, ids: seq<Json>, metadata: seq<TalkMetadata>, namespace: Option<string>,
                             send: seq<Vector> -> Option<SdkError>, stats: Result<Stats, Raised>)
    requires 0 < |vectors| == |ids| == |metadata|
    requires send(Zip(vectors, ids, metadata)).None? && VerifyStorageStatus(stats).Err?
    ensures UpsertSpec(vectors, ids, metadata, namespace, send, stats) ==
      UpsertOutcome(Some(Zip(vectors, ids, metadata)), Err(ServiceError(UpsertPrefix + VerifyStorageStatus(stats).error.text)))
  {
    assert InputError(|vectors|, |ids|, |metadata|).None?;
  }

  /**
   * An upsert the index refuses is reported after the vectors were sent: as
   * invalid input when its exception is a ValueError of any subclass, as an
   * upsert error otherwise, and the statistics are not read.
   */
  lemma SdkFailureWrapped(vectors: seq<Json>, ids: seq<Json>, metadata: seq<TalkMetadata>, namespace: Option<string>,
                          send: seq<Vector> -> Option<SdkError>, stats1: Result<Stats, Raised>, stats2: Result<Stats, Raised>)
    requires 0 < |vectors| == |ids| == |metadata|
    requires send(Zip(vectors, ids, metadata)).Some?
    ensures var e := send(Zip(vectors, ids, metadata)).value;
      UpsertSpec(vectors, ids, metadata, namespace, send, stats1) ==
        UpsertOutcome(Some(Zip(vectors, ids, metadata)),
                      Err(ServiceError((if e.isValueError then InvalidInputPrefix else UpsertPrefix) + e.raised.text)))
    ensures UpsertSpec(vectors, ids, metadata, namespace, send, stats1) == UpsertSpec(vectors, ids, metadata, namespace, send, stats2)
  {
    assert InputError(|vectors|, |ids|, |metadata|).None?;
  }

  /** A listed index is neither created nor checked for creation errors. */
  lemma ListedIndexNotCreated(apiKey: Json, environment: Json, name: string, listing: seq<string>,
                              create: CreateRequest -> Option<Raised>, stats: Result<Stats, Raised>)
    requires Truthy(apiKey) && name != "" && name in listing
    ensures EnsureIndexExists(JStr(name), Or(environment, JStr(DefaultEnvironment)), Ok(listing), create).created.None?
    ensures Initialize(apiKey, environment, JStr(name), Ok(listing), create, stats).Ok? <==> VerifyStorageStatus(stats).Ok?
  {
  }

  /** A creation that fails because another process created the index first is tolerated. */
  lemma ConcurrentCreationTolerated(name: Json, region: Json, listing: seq<string>, create: CreateRequest -> Option<Raised>)
    requires !(name.JStr? && name.s in listing)
    requires create(CreateRequest(name, Dimension, Metric, region)).Some?
    ensures var e := create(CreateRequest(name, Dimension, Metric, region)).value;
      EnsureIndexExists(name, region, Ok(listing), create).error.None? <==> IsInfix("already exists", Lower(e.text))
  {
  }

  /** Without configuration the service uses us-east-1 and the talk-embeddings index. */
  lemma DefaultsApplied(apiKey: Json, listing: Result<seq<string>, Raised>, create: CreateRequest -> Option<Raised>,
                        stats: Result<Stats, Raised>)
    requires Initialize(apiKey, JNull, JStr(""), listing, create, stats).Ok?
    ensures Initialize(apiKey, JNull, JStr(""), listing, create, stats).value ==
      Settings(apiKey, JStr(DefaultEnvironment), JStr(DefaultIndexName))
  {
  }
}
