/**
 * The TranscriptionResult record of the transcribe module: six fields, a
 * constructor that takes them as keyword arguments (three required, three
 * with defaults), to_dict, which leaves out a falsy job_name and an empty
 * segment list, and from_dict, which reads the keys back with .get.
 */
module TranscriptionResults {
  import opened Wrappers
  import opened PyJson

  datatype TranscriptionResult = TranscriptionResult(
    originalFile: Json,
    transcriptionText: Json,
    timestamp: Json,
    jobName: Json,
    mediaType: Json,
    segments: Json)

  /** The keyword parameters of the constructor, and the three without a default. */
  const Parameters: set<string> := {"original_file", "transcription_text", "timestamp", "job_name", "media_type", "segments"}
  const Required: set<string> := {"original_file", "transcription_text", "timestamp"}

  /** What every constructed record satisfies: `segments or []` leaves a truthy value or the empty list. */
  predicate Valid(r: TranscriptionResult) {
    Truthy(r.segments) || r.segments == JList([])
  }

  /** The TypeErrors the generated __init__ raises, without the argument names. */
  const UnexpectedKeyword := TypeError("TranscriptionResult.__init__() got an unexpected keyword argument")
  const MissingArgument := TypeError("TranscriptionResult.__init__() missing required positional argument")

  /** TranscriptionResult(**kwargs): an unknown keyword, checked first, or a missing required argument is a TypeError. */
  function New(kwargs: map<string, Json>): (r: Result<TranscriptionResult, PyError>)
    ensures r.Ok? <==> kwargs.Keys <= Parameters && Required <= kwargs.Keys
    ensures r.Ok? ==> Valid(r.value)
    ensures r.Ok? ==> r.value.originalFile == kwargs["original_file"] && r.value.transcriptionText == kwargs["transcription_text"] && r.value.timestamp == kwargs["timestamp"]
    ensures r.Ok? ==> r.value.jobName == DictGet(kwargs, "job_name", JNull) && r.value.mediaType == DictGet(kwargs, "media_type", JStr("audio"))
    ensures r.Ok? && "segments" in kwargs && Truthy(kwargs["segments"]) ==> r.value.segments == kwargs["segments"]
    ensures r.Ok? && ("segments" !in kwargs || !Truthy(kwargs["segments"])) ==> r.value.segments == JList([])
    ensures r.Err? ==> r.error == (if kwargs.Keys <= Parameters then MissingArgument else UnexpectedKeyword)
  {
    if !(kwargs.Keys <= Parameters) then Err(UnexpectedKeyword)
    else if !(Required <= kwargs.Keys) then Err(MissingArgument)
    else Ok(TranscriptionResult(
      kwargs["original_file"], kwargs["transcription_text"], kwargs["timestamp"],
      DictGet(kwargs, "job_name", JNull), DictGet(kwargs, "media_type", JStr("audio")),
      Or(DictGet(kwargs, "segments", JNull), JList([]))))
  }

  /** The record has no audio_segments parameter: a call that passes one is rejected whatever the other arguments. */
  lemma AudioSegmentsRejected(kwargs: map<string, Json>)
    requires "audio_segments" in kwargs
    ensures New(kwargs) == Err(UnexpectedKeyword)
  {
    assert "audio_segments" !in Parameters;
  }

  function ToDict(r: TranscriptionResult): (d: map<string, Json>)
    ensures {"original_file", "transcription_text", "timestamp", "media_type"} <= d.Keys
    ensures d["original_file"] == r.originalFile && d["transcription_text"] == r.transcriptionText
    ensures d["timestamp"] == r.timestamp && d["media_type"] == r.mediaType
    ensures "job_name" in d <==> Truthy(r.jobName)
    ensures "job_name" in d ==> d["job_name"] == r.jobName
    ensures "segments" in d <==> Truthy(r.segments)
    ensures "segments" in d ==> d["segments"] == r.segments
    ensures d.Keys <= Parameters
  {
    var base := map["original_file" := r.originalFile, "transcription_text" := r.transcriptionText,
                    "timestamp" := r.timestamp, "media_type" := r.mediaType];
    var withJob := if Truthy(r.jobName) then base["job_name" := r.jobName] else base;
    if Truthy(r.segments) then withJob["segments" := r.segments] else withJob
  }

  /** from_dict: the six keys read with .get, media_type defaulting to 'audio' and segments to []. Only a dict has .get. */
  function FromDict(data: Json): (r: Result<TranscriptionResult, PyError>)
    ensures r.Ok? <==> data.JDict?
    ensures r.Ok? ==> Valid(r.value)
    ensures r.Ok? && "media_type" !in data.fields ==> r.value.mediaType == JStr("audio")
    ensures r.Ok? && "segments" !in data.fields ==> r.value.segments == JList([])
  {
    match data
    case JDict(m) =>
      New(map["original_file" := DictGet(m, "original_file", JNull),
              "transcription_text" := DictGet(m, "transcription_text", JNull),
              "timestamp" := DictGet(m, "timestamp", JNull),
              "job_name" := DictGet(m, "job_name", JNull),
              "media_type" := DictGet(m, "media_type", JStr("audio")),
              "segments" := DictGet(m, "segments", JList([]))])
    case _ => Err(NoGet(data))
  }

  /** from_dict(to_dict(r)) gives r back, except that a falsy job_name comes back as None. */
  lemma RoundTrip(r: TranscriptionResult)
    requires Valid(r)
    ensures FromDict(JDict(ToDict(r))) == Ok(r.(jobName := if Truthy(r.jobName) then r.jobName else JNull))
  {
    var d := ToDict(r);
    var back := FromDict(JDict(d));
    assert back.Ok?;
    assert back.value.segments == r.segments;
  }

  /** A record built by the constructor survives the round trip exactly when its job_name is truthy or None. */
  lemma RoundTripExact(r: TranscriptionResult)
    requires Valid(r)
    ensures FromDict(JDict(ToDict(r))) == Ok(r) <==> Truthy(r.jobName) || r.jobName == JNull
  {
    RoundTrip(r);
  }
}

/**
 * The three-field TranscriptionResult of the earlier transcribe project:
 * to_dict emits exactly the three fields, from_dict reads them with .get.
 */
module ProjectTranscriptionResults {
  import opened Wrappers
  import opened PyJson

  datatype TranscriptionResult = TranscriptionResult(originalFile: Json, transcriptionText: Json, timestamp: Json)

  const Fields: set<string> := {"original_file", "transcription_text", "timestamp"}

  function ToDict(r: TranscriptionResult): (d: map<string, Json>)
    ensures d.Keys == Fields
    ensures d["original_file"] == r.originalFile && d["transcription_text"] == r.transcriptionText && d["timestamp"] == r.timestamp
  {
    map["original_file" := r.originalFile, "transcription_text" := r.transcriptionText, "timestamp" := r.timestamp]
  }

  /** from_dict: a missing key becomes None and any other key is ignored. */
  function FromDict(data: Json): (r: Result<TranscriptionResult, PyError>)
    ensures r.Ok? <==> data.JDict?
    ensures r.Ok? ==> r.value.originalFile == DictGet(data.fields, "original_file", JNull)
    ensures r.Ok? ==> r.value.transcriptionText == DictGet(data.fields, "transcription_text", JNull)
    ensures r.Ok? ==> r.value.timestamp == DictGet(data.fields, "timestamp", JNull)
  {
    match data
    case JDict(m) => Ok(TranscriptionResult(DictGet(m, "original_file", JNull), DictGet(m, "transcription_text", JNull), DictGet(m, "timestamp", JNull)))
    case _ => Err(NoGet(data))
  }

  lemma RoundTrip(r: TranscriptionResult)
    ensures FromDict(JDict(ToDict(r))) == Ok(r)
  {
  }

  /** A dict holding the three keys comes back restricted to them. */
  lemma RoundTripDict(d: map<string, Json>)
    requires Fields <= d.Keys
    ensures FromDict(JDict(d)).Ok?
    ensures ToDict(FromDict(JDict(d)).value) == map k | k in Fields :: d[k]
  {
    var back := ToDict(FromDict(JDict(d)).value);
    var restricted := map k | k in Fields :: d[k];
    assert back.Keys == restricted.Keys;
    forall k | k in back.Keys ensures back[k] == restricted[k] {
    }
  }

  /** Extra keys are ignored: only the three fields decide the record. */
  lemma ExtraKeysIgnored(d: map<string, Json>, key: string, v: Json)
    requires key !in Fields
    ensures FromDict(JDict(d[key := v])) == FromDict(JDict(d))
  {
  }
}

/**
 * The TranscriptionResult the transcribe service and the loader expect: the
 * six fields and the sentence-level audio segments, which the constructor
 * takes as a seventh keyword with `or []`, to_dict emits when non-empty and
 * from_dict reads back with a default of [], as the segments are handled.
 */
module IntendedTranscriptionResults {
  import opened Wrappers
  import opened PyJson
  import TR = TranscriptionResults

  datatype TranscriptionResult = TranscriptionResult(
    originalFile: Json,
    transcriptionText: Json,
    timestamp: Json,
    jobName: Json,
    mediaType: Json,
    segments: Json,
    audioSegments: Json)

  const Parameters: set<string> := TR.Parameters + {"audio_segments"}

  /** Both lists were passed through `or []`. */
  predicate Valid(r: TranscriptionResult) {
    (Truthy(r.segments) || r.segments == JList([])) && (Truthy(r.audioSegments) || r.audioSegments == JList([]))
  }

  function New(kwargs: map<string, Json>): (r: Result<TranscriptionResult, PyError>)
    ensures r.Ok? <==> kwargs.Keys <= Parameters && TR.Required <= kwargs.Keys
    ensures r.Ok? ==> Valid(r.value)
    ensures r.Ok? ==> r.value.originalFile == kwargs["original_file"] && r.value.transcriptionText == kwargs["transcription_text"] && r.value.timestamp == kwargs["timestamp"]
    ensures r.Ok? ==> r.value.jobName == DictGet(kwargs, "job_name", JNull) && r.value.mediaType == DictGet(kwargs, "media_type", JStr("audio"))
    ensures r.Ok? && "segments" in kwargs && Truthy(kwargs["segments"]) ==> r.value.segments == kwargs["segments"]
    ensures r.Ok? && ("segments" !in kwargs || !Truthy(kwargs["segments"])) ==> r.value.segments == JList([])
    ensures r.Ok? && "audio_segments" in kwargs && Truthy(kwargs["audio_segments"]) ==> r.value.audioSegments == kwargs["audio_segments"]
    ensures r.Ok? && ("audio_segments" !in kwargs || !Truthy(kwargs["audio_segments"])) ==> r.value.audioSegments == JList([])
    ensures r.Err? ==> r.error == (if kwargs.Keys <= Parameters then TR.MissingArgument else TR.UnexpectedKeyword)
  {
    if !(kwargs.Keys <= Parameters) then Err(TR.UnexpectedKeyword)
    else if !(TR.Required <= kwargs.Keys) then Err(TR.MissingArgument)
    else Ok(TranscriptionResult(
      kwargs["original_file"], kwargs["transcription_text"], kwargs["timestamp"],
      DictGet(kwargs, "job_name", JNull), DictGet(kwargs, "media_type", JStr("audio")),
      Or(DictGet(kwargs, "segments", JNull), JList([])),
      Or(DictGet(kwargs, "audio_segments", JNull), JList([]))))
  }

  function ToDict(r: TranscriptionResult): (d: map<string, Json>)
    ensures {"original_file", "transcription_text", "timestamp", "media_type"} <= d.Keys
    ensures d["original_file"] == r.originalFile && d["transcription_text"] == r.transcriptionText
    ensures d["timestamp"] == r.timestamp && d["media_type"] == r.mediaType
    ensures "job_name" in d <==> Truthy(r.jobName)
    ensures "job_name" in d ==> d["job_name"] == r.jobName
    ensures "segments" in d <==> Truthy(r.segments)
    ensures "segments" in d ==> d["segments"] == r.segments
    ensures "audio_segments" in d <==> Truthy(r.audioSegments)
    ensures "audio_segments" in d ==> d["audio_segments"] == r.audioSegments
    ensures d.Keys <= Parameters
  {
    var base := map["original_file" := r.originalFile, "transcription_text" := r.transcriptionText,
                    "timestamp" := r.timestamp, "media_type" := r.mediaType];
    var withJob := if Truthy(r.jobName) then base["job_name" := r.jobName] else base;
    var withSegments := if Truthy(r.segments) then withJob["segments" := r.segments] else withJob;
    if Truthy(r.audioSegments) then withSegments["audio_segments" := r.audioSegments] else withSegments
  }

  /** from_dict: the seven keys read with .get; a document written before audio segments existed reads with none. */
  function FromDict(data: Json): (r: Result<TranscriptionResult, PyError>)
    ensures r.Ok? <==> data.JDict?
    ensures r.Ok? ==> Valid(r.value)
    ensures r.Ok? && "media_type" !in data.fields ==> r.value.mediaType == JStr("audio")
    ensures r.Ok? && "segments" !in data.fields ==> r.value.segments == JList([])
    ensures r.Ok? && "audio_segments" !in data.fields ==> r.value.audioSegments == JList([])
  {
    match data
    case JDict(m) =>
      New(map["original_file" := DictGet(m, "original_file", JNull),
              "transcription_text" := DictGet(m, "transcription_text", JNull),
              "timestamp" := DictGet(m, "timestamp", JNull),
              "job_name" := DictGet(m, "job_name", JNull),
              "media_type" := DictGet(m, "media_type", JStr("audio")),
              "segments" := DictGet(m, "segments", JList([])),
              "audio_segments" := DictGet(m, "audio_segments", JList([]))])
    case _ => Err(NoGet(data))
  }

  /** from_dict(to_dict(r)) gives r back, audio segments included, except that a falsy job_name comes back as None. */
  lemma RoundTrip(r: TranscriptionResult)
    requires Valid(r)
    ensures FromDict(JDict(ToDict(r))) == Ok(r.(jobName := if Truthy(r.jobName) then r.jobName else JNull))
  {
    var d := ToDict(r);
    var back := FromDict(JDict(d));
    assert back.Ok?;
    assert back.value.segments == r.segments;
    assert back.value.audioSegments == r.audioSegments;
  }

  /** The six fields of a record agree with those the six-parameter record keeps for the same arguments without audio_segments. */
  lemma ExtendsSixFieldRecord(kwargs: map<string, Json>)
    requires New(kwargs).Ok?
    ensures var base := kwargs - {"audio_segments"};
      TR.New(base).Ok? &&
      var r := New(kwargs).value;
      TR.New(base).value == TR.TranscriptionResult(r.originalFile, r.transcriptionText, r.timestamp, r.jobName, r.mediaType, r.segments)
  {
    var base := kwargs - {"audio_segments"};
    assert base.Keys <= TR.Parameters;
  }
}
