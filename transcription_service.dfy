/**
 * The transcription service of the transcribe module: reshaping of the raw
 * Transcribe output (process_transcription), the strategy factory, the media
 * classification and key derivation of process_media, and the bounded
 * polling loop of _wait_for_transcription. Transcribe, S3, uuid4 and the
 * clock are oracles: their answers are parameters.
 */
module TranscriptionService {
  import opened Wrappers
  import opened PyText
  import opened PyJson
  import TR = TranscriptionResults
  import IR = IntendedTranscriptionResults

  // ---------------------------------------------------------------------
  // process_transcription
  // ---------------------------------------------------------------------

  /** The item types the reshaping keeps. */
  predicate KeptType(t: Json) {
    t == JStr("pronunciation") || t == JStr("punctuation")
  }

  /** The keys of a reshaped word item and of a reshaped sentence segment. */
  const ItemKeys: set<string> := {"type", "content", "start_time", "end_time", "confidence"}
  const AudioKeys: set<string> := {"id", "transcript", "start_time", "end_time", "items"}

  /** `segment.get('alternatives', [{}])[0].get(field, default)`. */
  function AltField(segment: Json, field: string, default: Json): (r: Result<Json, PyError>)
    ensures segment.JDict? && "alternatives" !in segment.fields ==> r == Ok(default)
  {
    match Get(segment, "alternatives", JList([JDict(map[])]))
    case Err(e) => Err(e)
    case Ok(alts) =>
      match First(alts)
      case Err(e) => Err(e)
      case Ok(alt) => Get(alt, field, default)
  }

  /** One word item: None when its type is not kept, otherwise the five-key dict. */
  function ReshapeItem(segment: Json): (r: Result<Option<Json>, PyError>)
    ensures r.Ok? ==> segment.JDict?
    ensures r.Ok? && r.value.Some? ==> r.value.value.JDict? && r.value.value.fields.Keys == ItemKeys
    ensures r.Ok? && r.value.Some? ==> KeptType(r.value.value.fields["type"])
    ensures segment.JDict? && !KeptType(DictGet(segment.fields, "type", JNull)) ==> r == Ok(None)
    ensures segment.JDict? && "alternatives" !in segment.fields && KeptType(DictGet(segment.fields, "type", JNull)) ==>
      r.Ok? && r.value.Some? && r.value.value.fields["content"] == JStr("") && r.value.value.fields["confidence"] == JStr("0")
  {
    match segment
    case JDict(m) =>
      var t := DictGet(m, "type", JNull);
      if !KeptType(t) then Ok(None)
      else
        (match AltField(segment, "content", JStr(""))
         case Err(e) => Err(e)
         case Ok(content) =>
           match AltField(segment, "confidence", JStr("0"))
           case Err(e) => Err(e)
           case Ok(confidence) =>
             Ok(Some(JDict(map["type" := t, "content" := content,
                               "start_time" := DictGet(m, "start_time", JNull),
                               "end_time" := DictGet(m, "end_time", JNull),
                               "confidence" := confidence]))))
    case _ => Err(NoGet(segment))
  }

  function OptionToSeq(o: Option<Json>): seq<Json> {
    match o
    case Some(x) => [x]
    case None => []
  }

  /** The word items reshaped in order; the first item that raises stops the loop. */
  function ReshapeItems(segs: seq<Json>): (r: Result<seq<Json>, PyError>)
    ensures r.Ok? ==> |r.value| <= |segs|
    decreases |segs|
  {
    if segs == [] then Ok([])
    else
      match ReshapeItems(segs[..|segs| - 1])
      case Err(e) => Err(e)
      case Ok(done) =>
        match ReshapeItem(segs[|segs| - 1])
        case Err(e) => Err(e)
        case Ok(o) => Ok(done + OptionToSeq(o))
  }

  /** The items whose type is kept, in input order: the reference the reshaped list is checked against. */
  function KeptItems(segs: seq<Json>): seq<Json>
    decreases |segs|
  {
    if segs == [] then []
    else
      var last := segs[|segs| - 1];
      KeptItems(segs[..|segs| - 1]) + (if last.JDict? && KeptType(DictGet(last.fields, "type", JNull)) then [last] else [])
  }

  /** The reshaping succeeds iff every item reshapes; then it holds exactly the kept items, reshaped, in input order. */
  lemma {:induction false} ReshapeItemsKeepsExactly(segs: seq<Json>)
    ensures ReshapeItems(segs).Ok? <==> forall k :: 0 <= k < |segs| ==> ReshapeItem(segs[k]).Ok?
    ensures ReshapeItems(segs).Ok? ==> |ReshapeItems(segs).value| == |KeptItems(segs)|
    ensures ReshapeItems(segs).Ok? ==> forall k :: 0 <= k < |KeptItems(segs)| ==>
      ReshapeItem(KeptItems(segs)[k]) == Ok(Some(ReshapeItems(segs).value[k]))
    decreases |segs|
  {
    if segs != [] {
      var prefix := segs[..|segs| - 1];
      var last := segs[|segs| - 1];
      ReshapeItemsKeepsExactly(prefix);
      if ReshapeItems(segs).Ok? {
        var done := ReshapeItems(prefix).value;
        var kept := KeptItems(prefix);
        var out := ReshapeItems(segs).value;
        forall k | 0 <= k < |segs| ensures ReshapeItem(segs[k]).Ok? {
          if k < |segs| - 1 {
            assert segs[k] == prefix[k];
          }
        }
        forall k | 0 <= k < |KeptItems(segs)| ensures ReshapeItem(KeptItems(segs)[k]) == Ok(Some(out[k])) {
          if k < |kept| {
            assert KeptItems(segs)[k] == kept[k];
            assert out[k] == done[k];
          }
        }
      } else if ReshapeItems(prefix).Err? {
        var k :| 0 <= k < |prefix| && !ReshapeItem(prefix[k]).Ok?;
        assert segs[k] == prefix[k];
      }
    }
  }

  /** One sentence segment: the five-key dict, transcript defaulting to '' and items to []. */
  function ReshapeAudio(segment: Json): (r: Result<Json, PyError>)
    ensures r.Ok? <==> segment.JDict?
    ensures r.Ok? ==> r.value.JDict? && r.value.fields.Keys == AudioKeys
    ensures r.Ok? ==> r.value.fields["transcript"] == DictGet(segment.fields, "transcript", JStr(""))
    ensures r.Ok? ==> r.value.fields["items"] == DictGet(segment.fields, "items", JList([]))
  {
    match segment
    case JDict(m) =>
      Ok(JDict(map["id" := DictGet(m, "id", JNull),
                   "transcript" := DictGet(m, "transcript", JStr("")),
                   "start_time" := DictGet(m, "start_time", JNull),
                   "end_time" := DictGet(m, "end_time", JNull),
                   "items" := DictGet(m, "items", JList([]))]))
    case _ => Err(NoGet(segment))
  }

  /** The sentence segments reshaped one for one, in order. */
  function ReshapeAudios(segs: seq<Json>): (r: Result<seq<Json>, PyError>)
    ensures r.Ok? <==> forall k :: 0 <= k < |segs| ==> segs[k].JDict?
    ensures r.Ok? ==> |r.value| == |segs| && forall k :: 0 <= k < |segs| ==> ReshapeAudio(segs[k]) == Ok(r.value[k])
    decreases |segs|
  {
    if segs == [] then Ok([])
    else
      var prefix := segs[..|segs| - 1];
      match ReshapeAudios(prefix)
      case Err(e) =>
        assert exists k :: 0 <= k < |prefix| && !prefix[k].JDict?;
        Err(e)
      case Ok(done) =>
        match ReshapeAudio(segs[|segs| - 1])
        case Err(e) => Err(e)
        case Ok(a) =>
          assert forall k :: 0 <= k < |prefix| ==> prefix[k] == segs[k];
          Ok(done + [a])
  }

  /** The triple process_transcription returns. */
  datatype Transcribed = Transcribed(text: Json, segments: seq<Json>, audioSegments: seq<Json>)

  /**
   * The word items of the results, or none when the value is falsy. A
   * truthy value is first measured for the log line, so one without a
   * length raises there.
   */
  function ItemsOf(x: Json): Result<seq<Json>, PyError> {
    if !Truthy(x) then Ok([])
    else
      match Len(x)
      case Err(e) => Err(e)
      case Ok(_) =>
        match DictElements(x)
        case Err(e) => Err(e)
        case Ok(xs) => ReshapeItems(xs)
  }

  function AudiosOf(x: Json): Result<seq<Json>, PyError> {
    if !Truthy(x) then Ok([])
    else
      match Len(x)
      case Err(e) => Err(e)
      case Ok(_) =>
        match DictElements(x)
        case Err(e) => Err(e)
        case Ok(xs) => ReshapeAudios(xs)
  }

  /** process_transcription on the downloaded Transcribe document. */
  function ProcessTranscriptionSpec(doc: Json): (r: Result<Transcribed, PyError>)
    ensures r.Ok? ==> doc.JDict?
    ensures r.Ok? ==> forall k :: 0 <= k < |r.value.segments| ==>
      r.value.segments[k].JDict? && r.value.segments[k].fields.Keys == ItemKeys
    ensures r.Ok? ==> forall k :: 0 <= k < |r.value.audioSegments| ==>
      r.value.audioSegments[k].JDict? && r.value.audioSegments[k].fields.Keys == AudioKeys
  {
    match Get(doc, "results", JDict(map[]))
    case Err(e) => Err(e)
    case Ok(results) =>
      match Get(results, "transcripts", JList([JDict(map[])]))
      case Err(e) => Err(e)
      case Ok(transcripts) =>
        match First(transcripts)
        case Err(e) => Err(e)
        case Ok(first) =>
          match Get(first, "transcript", JStr(""))
          case Err(e) => Err(e)
          case Ok(text) =>
            var segments := DictGet(results.fields, "items", JList([]));
            var audio := DictGet(results.fields, "audio_segments", JList([]));
            match ItemsOf(segments)
            case Err(e) => Err(e)
            case Ok(items) =>
              ReshapeItemsShape(segments);
              match AudiosOf(audio)
              case Err(e) => Err(e)
              case Ok(audios) => Ok(Transcribed(text, items, audios))
  }

  lemma ReshapeItemsShape(x: Json)
    ensures ItemsOf(x).Ok? ==> forall k :: 0 <= k < |ItemsOf(x).value| ==>
      ItemsOf(x).value[k].JDict? && ItemsOf(x).value[k].fields.Keys == ItemKeys
  {
    if Truthy(x) && DictElements(x).Ok? && ItemsOf(x).Ok? {
      var xs := DictElements(x).value;
      ReshapeItemsKeepsExactly(xs);
      var out := ItemsOf(x).value;
      forall k | 0 <= k < |out| ensures out[k].JDict? && out[k].fields.Keys == ItemKeys {
        assert ReshapeItem(KeptItems(xs)[k]) == Ok(Some(out[k]));
      }
    }
  }

  /**
   * Truthy items without a length (a number, True) raise the TypeError of
   * len() in the log line, before any item is looked at; the same holds for
   * the audio segments once the items went through.
   */
  lemma UnsizedItemsRaise(results: map<string, Json>)
    requires "transcripts" !in results
    ensures var items := DictGet(results, "items", JList([]));
      Truthy(items) && Len(items).Err? ==>
        ProcessTranscriptionSpec(JDict(map["results" := JDict(results)])) == Err(Len(items).error)
    ensures var items := DictGet(results, "items", JList([]));
      var audio := DictGet(results, "audio_segments", JList([]));
      ItemsOf(items).Ok? && Truthy(audio) && Len(audio).Err? ==>
        ProcessTranscriptionSpec(JDict(map["results" := JDict(results)])) == Err(Len(audio).error)
  {
  }

  /** An item list given as the number 5 is reported as an int without a length. */
  lemma IntItemsRaise()
    ensures ProcessTranscriptionSpec(JDict(map["results" := JDict(map["items" := JInt(5)])])) ==
      Err(TypeError("object of type 'int' has no len()"))
  {
    UnsizedItemsRaise(map["items" := JInt(5)]);
    assert TypeName(JInt(5)) == "int";
    assert "object of type '" + "int" + "' has no len()" == "object of type 'int' has no len()";
  }

  /** A document without results gives the empty transcript and no segments. */
  lemma NoResults(doc: map<string, Json>)
    requires "results" !in doc
    ensures ProcessTranscriptionSpec(JDict(doc)) == Ok(Transcribed(JStr(""), [], []))
  {
  }

  /** An empty transcripts list is an IndexError, not an empty transcript. */
  lemma EmptyTranscripts(doc: map<string, Json>)
    requires "results" in doc && doc["results"].JDict?
    requires "transcripts" in doc["results"].fields && doc["results"].fields["transcripts"] == JList([])
    ensures ProcessTranscriptionSpec(JDict(doc)) == Err(ListIndexOutOfRange)
  {
  }

  /** The loop over the word items: append each kept item, reshaped. */
  method CollectItems(xs: seq<Json>) returns (r: Result<seq<Json>, PyError>)
    ensures r == ReshapeItems(xs)
  {
    var processed: seq<Json> := [];
    var i := 0;
    while i < |xs|
      invariant 0 <= i <= |xs|
      invariant ReshapeItems(xs[..i]) == Ok(processed)
    {
      var item := ReshapeItem(xs[i]);
      if item.Err? {
        ReshapeItemsPrefixErr(xs, i + 1);
        return Err(item.error);
      }
      ReshapeItemsStep(xs, i);
      if item.value.Some? {
        processed := processed + [item.value.value];
      } else {
        assert processed + OptionToSeq(item.value) == processed;
      }
      i := i + 1;
    }
    assert xs[..|xs|] == xs;
    return Ok(processed);
  }

  /** The loop over the sentence segments: append each one, reshaped. */
  method CollectAudios(xs: seq<Json>) returns (r: Result<seq<Json>, PyError>)
    ensures r == ReshapeAudios(xs)
  {
    var processed: seq<Json> := [];
    var i := 0;
    while i < |xs|
      invariant 0 <= i <= |xs|
      invariant ReshapeAudios(xs[..i]) == Ok(processed)
    {
      var a := ReshapeAudio(xs[i]);
      if a.Err? {
        ReshapeAudiosPrefixErr(xs, i + 1);
        return Err(a.error);
      }
      ReshapeAudiosStep(xs, i);
      processed := processed + [a.value];
      i := i + 1;
    }
    assert xs[..|xs|] == xs;
    return Ok(processed);
  }

  /** process_transcription as the source runs it: the two loops run on the items and segments of the results. */
  method ProcessTranscription(doc: Json) returns (r: Result<Transcribed, PyError>)
    ensures r == ProcessTranscriptionSpec(doc)
  {
    var results :- Get(doc, "results", JDict(map[]));
    var transcripts :- Get(results, "transcripts", JList([JDict(map[])]));
    var first :- First(transcripts);
    var text :- Get(first, "transcript", JStr(""));
    var segments := DictGet(results.fields, "items", JList([]));
    var audioSegments := DictGet(results.fields, "audio_segments", JList([]));

    var processed: seq<Json> := [];
    if Truthy(segments) {
      var count :- Len(segments);
      var xs :- DictElements(segments);
      processed :- CollectItems(xs);
    }
    var processedAudio: seq<Json> := [];
    if Truthy(audioSegments) {
      var count :- Len(audioSegments);
      var xs :- DictElements(audioSegments);
      processedAudio :- CollectAudios(xs);
    }
    ReshapeItemsShape(segments);
    return Ok(Transcribed(text, processed, processedAudio));
  }

  /** One more item of a prefix that reshapes appends that item's reshaping. */
  lemma ReshapeItemsStep(xs: seq<Json>, i: nat)
    requires i < |xs| && ReshapeItems(xs[..i]).Ok? && ReshapeItem(xs[i]).Ok?
    ensures ReshapeItems(xs[..i + 1]) == Ok(ReshapeItems(xs[..i]).value + OptionToSeq(ReshapeItem(xs[i]).value))
  {
    assert xs[..i + 1][..i] == xs[..i];
    assert xs[..i + 1][i] == xs[i];
  }

  lemma ReshapeAudiosStep(xs: seq<Json>, i: nat)
    requires i < |xs| && ReshapeAudios(xs[..i]).Ok? && ReshapeAudio(xs[i]).Ok?
    ensures ReshapeAudios(xs[..i + 1]) == Ok(ReshapeAudios(xs[..i]).value + [ReshapeAudio(xs[i]).value])
  {
    assert xs[..i + 1][..i] == xs[..i];
    assert xs[..i + 1][i] == xs[i];
  }

  /** The loop stops at the first failing item with that item's error. */
  lemma {:induction false} ReshapeItemsPrefixErr(xs: seq<Json>, n: nat)
    requires 0 < n <= |xs| && ReshapeItems(xs[..n - 1]).Ok? && ReshapeItem(xs[n - 1]).Err?
    ensures ReshapeItems(xs) == Err(ReshapeItem(xs[n - 1]).error)
    decreases |xs|
  {
    if n < |xs| {
      var prefix := xs[..|xs| - 1];
      assert prefix[..n] == xs[..n] && prefix[..n - 1] == xs[..n - 1] && prefix[n - 1] == xs[n - 1];
      ReshapeItemsPrefixErr(prefix, n);
    } else {
      assert xs[..|xs| - 1] == xs[..n - 1];
    }
  }

  lemma {:induction false} ReshapeAudiosPrefixErr(xs: seq<Json>, n: nat)
    requires 0 < n <= |xs| && ReshapeAudios(xs[..n - 1]).Ok? && ReshapeAudio(xs[n - 1]).Err?
    ensures ReshapeAudios(xs) == Err(ReshapeAudio(xs[n - 1]).error)
    decreases |xs|
  {
    if n < |xs| {
      var prefix := xs[..|xs| - 1];
      assert prefix[..n] == xs[..n] && prefix[..n - 1] == xs[..n - 1] && prefix[n - 1] == xs[n - 1];
      ReshapeAudiosPrefixErr(prefix, n);
    } else {
      assert xs[..|xs| - 1] == xs[..n - 1];
    }
  }

  // ---------------------------------------------------------------------
  // The strategy factory and the service object
  // ---------------------------------------------------------------------

  /** The strategies: the AWS one the factory builds, or any other one installed with set_strategy. */
  datatype Strategy = AWSTranscribeStrategy | OtherStrategy(name: string)

  /** create_strategy: every provider, known or not, gets the AWS strategy. */
  function CreateStrategy(provider: string): (s: Strategy)
    ensures s == AWSTranscribeStrategy
  {
    if Lower(provider) == "aws" then AWSTranscribeStrategy else AWSTranscribeStrategy
  }

  class Service {
    var outputBucket: Option<string>
    var region: string
    var strategy: Strategy

    /** The constructor: the output bucket and region come from the environment, the strategy from the factory. */
    constructor(provider: string, env: map<string, string>)
      ensures outputBucket == (if "TRANSCRIPTION_OUTPUT_BUCKET" in env then Some(env["TRANSCRIPTION_OUTPUT_BUCKET"]) else None)
      ensures region == (if "TRANSCRIBE_REGION" in env then env["TRANSCRIBE_REGION"] else "us-east-1")
      ensures strategy == AWSTranscribeStrategy
    {
      outputBucket := if "TRANSCRIPTION_OUTPUT_BUCKET" in env then Some(env["TRANSCRIPTION_OUTPUT_BUCKET"]) else None;
      region := if "TRANSCRIBE_REGION" in env then env["TRANSCRIBE_REGION"] else "us-east-1";
      strategy := CreateStrategy(provider);
    }

    method SetStrategy(s: Strategy)
      modifies this
      ensures strategy == s
      ensures outputBucket == old(outputBucket) && region == old(region)
    {
      strategy := s;
    }
  }

  // ---------------------------------------------------------------------
  // Extension, media type and keys
  // ---------------------------------------------------------------------

  /** os.path.splitext: the extension starts at the last '.' of the last path component, unless that component is only dots up to it. */
  function SplitExt(p: string): (r: (string, string))
    ensures r.0 + r.1 == p
    ensures r.1 == [] || (r.1[0] == '.' && forall k :: 1 <= k < |r.1| ==> r.1[k] != '.' && r.1[k] != '/')
  {
    var sepIndex: int := match LastIndexOf(p, '/') case Some(i) => i case None => -1;
    match LastIndexOf(p, '.')
    case None => (p, "")
    case Some(dot) =>
      if dot > sepIndex && exists k :: sepIndex + 1 <= k < dot && p[k] != '.' then
        ExtensionShape(p, dot);
        (p[..dot], p[dot..])
      else (p, "")
  }

  lemma ExtensionShape(p: string, dot: nat)
    requires dot < |p| && p[dot] == '.'
    requires forall k :: dot < k < |p| ==> p[k] != '.' && p[k] != '/'
    ensures p[..dot] + p[dot..] == p
    ensures var ext := p[dot..]; ext[0] == '.' && forall k :: 1 <= k < |ext| ==> ext[k] != '.' && ext[k] != '/'
  {
    var ext := p[dot..];
    forall k | 1 <= k < |ext| ensures ext[k] != '.' && ext[k] != '/' {
      assert ext[k] == p[dot + k];
    }
  }

  /** os.path.basename: what follows the last '/'. */
  function Basename(p: string): (r: string)
    ensures |r| <= |p| && r == p[|p| - |r|..]
    ensures forall k :: 0 <= k < |r| ==> r[k] != '/'
  {
    match LastIndexOf(p, '/')
    case Some(i) => p[i + 1..]
    case None => p
  }

  /** media_format: the extension without its dot, lower-cased. */
  function MediaFormat(key: string): (f: string)
    ensures forall k :: 0 <= k < |f| ==> f[k] != '.' && f[k] != '/' && !IsUpper(f[k])
  {
    var ext := SplitExt(key).1;
    if ext == [] then [] else Lower(ext[1..])
  }

  const AudioFormats: seq<string> := ["mp3", "wav", "flac", "ogg", "amr"]
  const VideoFormats: seq<string> := ["mp4", "avi", "mov", "mkv", "webm"]

  /** media_type: video for the five video formats, audio for everything else (the five audio formats and any unknown one). */
  function MediaType(format: string): (t: string)
    ensures t == "video" <==> format in VideoFormats
    ensures t == "audio" <==> format !in VideoFormats
  {
    if format in AudioFormats then "audio"
    else if format in VideoFormats then "video"
    else "audio"
  }

  /** Case does not matter for the classification: the format is lower-cased first. */
  lemma MediaTypeIgnoresCase(key: string)
    ensures MediaType(MediaFormat(key)) == MediaType(Lower(MediaFormat(key)))
  {
    var f := MediaFormat(key);
    assert Lower(f) == f by {
      forall k | 0 <= k < |f| ensures Lower(f)[k] == f[k] {
      }
    }
  }

  /** The raw Transcribe output key, written by the job and read back by process_transcription. */
  function RawOutputKey(jobName: string): (k: string)
    ensures StartsWith(k, "raw_transcriptions/") && |k| == |jobName| + 24
    ensures k[19..|k| - 5] == jobName && k[|k| - 5..] == ".json"
  {
    "raw_transcriptions/" + jobName + ".json"
  }

  lemma RawOutputKeyInjective(a: string, b: string)
    requires RawOutputKey(a) == RawOutputKey(b)
    ensures a == b
  {
    assert a == RawOutputKey(a)[19..|RawOutputKey(a)| - 5];
  }

  /** The key process_media returns: the file's base name without extension, under transcriptions/, as .json. */
  function OutputKey(key: string): (k: string)
    ensures StartsWith(k, "transcriptions/") && k[|k| - 5..] == ".json"
    ensures forall i :: 15 <= i < |k| - 5 ==> k[i] != '/'
  {
    var base := Basename(key);
    var stem := SplitExt(base).0;
    StemHasNoSlash(base);
    OutputKeyShape(stem);
    "transcriptions/" + stem + ".json"
  }

  lemma StemHasNoSlash(base: string)
    requires forall i :: 0 <= i < |base| ==> base[i] != '/'
    ensures forall i :: 0 <= i < |SplitExt(base).0| ==> SplitExt(base).0[i] != '/'
  {
    var stem := SplitExt(base).0;
    assert base == stem + SplitExt(base).1;
    forall i | 0 <= i < |stem| ensures stem[i] != '/' {
      assert stem[i] == base[i];
    }
  }

  lemma OutputKeyShape(stem: string)
    requires forall i :: 0 <= i < |stem| ==> stem[i] != '/'
    ensures var k := "transcriptions/" + stem + ".json";
      StartsWith(k, "transcriptions/") && k[|k| - 5..] == ".json" && forall i :: 15 <= i < |k| - 5 ==> k[i] != '/'
  {
    var k := "transcriptions/" + stem + ".json";
    assert k[..15] == "transcriptions/";
    assert k[|k| - 5..] == ".json";
    forall i | 15 <= i < |k| - 5 ensures k[i] != '/' {
      assert k[i] == stem[i - 15];
    }
  }

  /** The directory part of the key does not matter: only the base name decides the output key. */
  lemma BasenameOfPath(dir: string, name: string)
    requires forall k :: 0 <= k < |name| ==> name[k] != '/'
    ensures Basename(dir + "/" + name) == name
  {
    var p := dir + "/" + name;
    assert p[|dir|] == '/';
    assert forall k :: |dir| < k < |p| ==> p[k] == name[k - |dir| - 1];
    assert LastIndexOf(p, '/') == Some(|dir|);
    assert p[|dir| + 1..] == name;
  }

  lemma OutputKeyIgnoresDirectory(dir: string, name: string)
    requires forall k :: 0 <= k < |name| ==> name[k] != '/'
    ensures OutputKey(dir + "/" + name) == OutputKey(name)
  {
    BasenameOfPath(dir, name);
    assert Basename(name) == name;
  }

  // ---------------------------------------------------------------------
  // _wait_for_transcription
  // ---------------------------------------------------------------------

  /** One answer of get_transcription_job: the status and the optional FailureReason. */
  datatype JobResponse = JobResponse(status: string, failureReason: Option<string>)

  datatype WaitOutcome =
    | Completed
    | JobFailed(message: string)
    | TimedOut(message: string)

  predicate Terminal(r: JobResponse) {
    r.status == "COMPLETED" || r.status == "FAILED"
  }

  function FailedMessage(r: JobResponse): string {
    "Transcription job failed: " + r.failureReason.GetOr("Unknown error")
  }

  function TimeoutMessage(maxAttempts: int): string {
    "Transcription job timed out after " + IntToString(maxAttempts) + " attempts"
  }

  /** The polling loop from attempt `attempt` on; poll(k) is the answer to the (k+1)-th request. Gives the outcome and the number of requests made. */
  function WaitFrom(poll: nat -> JobResponse, maxAttempts: int, attempt: nat): (WaitOutcome, nat)
    decreases if attempt < maxAttempts then maxAttempts - attempt else 0
  {
    if attempt >= maxAttempts then (TimedOut(TimeoutMessage(maxAttempts)), attempt)
    else
      var response := poll(attempt);
      if response.status == "COMPLETED" then (Completed, attempt + 1)
      else if response.status == "FAILED" then (JobFailed(FailedMessage(response)), attempt + 1)
      else WaitFrom(poll, maxAttempts, attempt + 1)
  }

  /** The default of max_attempts. */
  const DefaultMaxAttempts := 30

  function Wait(poll: nat -> JobResponse, maxAttempts: int): (WaitOutcome, nat) {
    WaitFrom(poll, maxAttempts, 0)
  }

  /** The loop stops at the first terminal status and never polls more than max_attempts times. */
  lemma {:induction false} WaitFromCharacterised(poll: nat -> JobResponse, maxAttempts: int, attempt: nat)
    requires forall j :: 0 <= j < attempt ==> !Terminal(poll(j))
    ensures var (outcome, polls) := WaitFrom(poll, maxAttempts, attempt);
      && polls <= (if maxAttempts > attempt then maxAttempts else attempt)
      && (forall j :: 0 <= j < polls - 1 ==> !Terminal(poll(j)))
      && (outcome == Completed ==> polls >= 1 && poll(polls - 1).status == "COMPLETED")
      && (outcome.JobFailed? ==> polls >= 1 && poll(polls - 1).status == "FAILED" && outcome.message == FailedMessage(poll(polls - 1)))
      && (outcome.TimedOut? ==> outcome.message == TimeoutMessage(maxAttempts) && forall j :: 0 <= j < polls ==> !Terminal(poll(j)))
    decreases if attempt < maxAttempts then maxAttempts - attempt else 0
  {
    if attempt < maxAttempts && !Terminal(poll(attempt)) {
      WaitFromCharacterised(poll, maxAttempts, attempt + 1);
    }
  }

  /** The whole loop: at most max(max_attempts, 0) requests; a timeout only when none of them was terminal. */
  lemma WaitCharacterised(poll: nat -> JobResponse, maxAttempts: int)
    ensures var (outcome, polls) := Wait(poll, maxAttempts);
      && polls <= (if maxAttempts > 0 then maxAttempts else 0)
      && (forall j :: 0 <= j < polls - 1 ==> !Terminal(poll(j)))
      && (outcome == Completed ==> polls >= 1 && poll(polls - 1).status == "COMPLETED")
      && (outcome.JobFailed? ==> polls >= 1 && poll(polls - 1).status == "FAILED" && outcome.message == FailedMessage(poll(polls - 1)))
      && (outcome.TimedOut? ==> outcome.message == TimeoutMessage(maxAttempts) && forall j :: 0 <= j < polls ==> !Terminal(poll(j)))
  {
    WaitFromCharacterised(poll, maxAttempts, 0);
  }

  /** With no terminal status among the first max_attempts answers, the loop times out after exactly max_attempts requests. */
  lemma {:induction false} WaitTimesOut(poll: nat -> JobResponse, maxAttempts: int, attempt: nat)
    requires forall j :: attempt <= j < maxAttempts ==> !Terminal(poll(j))
    ensures WaitFrom(poll, maxAttempts, attempt) == (TimedOut(TimeoutMessage(maxAttempts)), if maxAttempts > attempt then maxAttempts else attempt)
    decreases if attempt < maxAttempts then maxAttempts - attempt else 0
  {
    if attempt < maxAttempts {
      WaitTimesOut(poll, maxAttempts, attempt + 1);
    }
  }

  /** A non-positive max_attempts polls zero times. */
  lemma NoPolls(poll: nat -> JobResponse, maxAttempts: int)
    requires maxAttempts <= 0
    ensures Wait(poll, maxAttempts) == (TimedOut(TimeoutMessage(maxAttempts)), 0)
  {
  }

  /** _wait_for_transcription as the source runs it: an attempt counter and a loop. */
  method WaitForTranscription(poll: nat -> JobResponse, maxAttempts: int) returns (outcome: WaitOutcome, polls: nat)
    ensures (outcome, polls) == Wait(poll, maxAttempts)
  {
    var attempt: nat := 0;
    while attempt < maxAttempts
      invariant WaitFrom(poll, maxAttempts, attempt) == Wait(poll, maxAttempts)
      decreases maxAttempts - attempt
    {
      attempt := attempt + 1;
      var response := poll(attempt - 1);
      if response.status == "COMPLETED" {
        return Completed, attempt;
      } else if response.status == "FAILED" {
        return JobFailed(FailedMessage(response)), attempt;
      }
    }
    return TimedOut(TimeoutMessage(maxAttempts)), attempt;
  }

  // ---------------------------------------------------------------------
  // process_media
  // ---------------------------------------------------------------------

  /** Why process_media raised. */
  datatype MediaError =
    | StartFailed(reason: string)
    | NotCompleted(outcome: WaitOutcome)
    | Python(error: PyError)
    | UploadFailed(reason: string)

  /** What process_media saved and returned: the output key and the uploaded document. */
  datatype Saved = Saved(outputKey: string, document: map<string, Json>)

  /** The seven keyword arguments process_media passes to TranscriptionResult, audio_segments among them. */
  function ResultArgs(key: string, t: Transcribed, timestamp: string, jobName: string, mediaType: string): map<string, Json> {
    map["original_file" := JStr(key), "transcription_text" := t.text, "timestamp" := JStr(timestamp),
        "job_name" := JStr(jobName), "media_type" := JStr(mediaType), "segments" := JList(t.segments),
        "audio_segments" := JList(t.audioSegments)]
  }

  /**
   * process_media as written. The oracles: `started` is the answer of
   * start_transcription_job, `poll` the status answers, `processed` what the
   * strategy made of the output, `timestamp` the clock and `uploaded` the
   * answer of the upload.
   */
  function ProcessMediaAsWritten(key: string, jobName: string, started: Result<(), string>, poll: nat -> JobResponse,
                                 processed: Result<Transcribed, PyError>, timestamp: string, uploaded: Result<(), string>): (r: Result<Saved, MediaError>)
    ensures started.Err? ==> r == Err(StartFailed(started.error))
    ensures started.Ok? && Wait(poll, DefaultMaxAttempts).0 != Completed ==> r == Err(NotCompleted(Wait(poll, DefaultMaxAttempts).0))
    ensures started.Ok? && Wait(poll, DefaultMaxAttempts).0 == Completed && processed.Err? ==> r == Err(Python(processed.error))
    ensures uploaded.Err? ==> r.Err?
  {
    if started.Err? then Err(StartFailed(started.error))
    else
      var (outcome, _) := Wait(poll, DefaultMaxAttempts);
      if outcome != Completed then Err(NotCompleted(outcome))
      else if processed.Err? then Err(Python(processed.error))
      else
        match TR.New(ResultArgs(key, processed.value, timestamp, jobName, MediaType(MediaFormat(key))))
        case Err(e) => Err(Python(e))
        case Ok(result) =>
          if uploaded.Err? then Err(UploadFailed(uploaded.error))
          else Ok(Saved(OutputKey(key), TR.ToDict(result)))
  }

  /** As written, process_media never returns a key: when the job completes and its output is read, the record rejects audio_segments. */
  lemma ProcessMediaAsWrittenNeverSaves(key: string, jobName: string, started: Result<(), string>, poll: nat -> JobResponse,
                                        processed: Result<Transcribed, PyError>, timestamp: string, uploaded: Result<(), string>)
    ensures ProcessMediaAsWritten(key, jobName, started, poll, processed, timestamp, uploaded).Err?
    ensures started.Ok? && Wait(poll, DefaultMaxAttempts).0 == Completed && processed.Ok? ==>
      ProcessMediaAsWritten(key, jobName, started, poll, processed, timestamp, uploaded) == Err(Python(TR.UnexpectedKeyword))
  {
    if started.Ok? && Wait(poll, DefaultMaxAttempts).0 == Completed && processed.Ok? {
      TR.AudioSegmentsRejected(ResultArgs(key, processed.value, timestamp, jobName, MediaType(MediaFormat(key))));
    }
  }

  /** The intended record accepts the source's seven keyword arguments and keeps both segment lists. */
  lemma ResultArgsAccepted(key: string, t: Transcribed, timestamp: string, jobName: string, mediaType: string)
    ensures var r := IR.New(ResultArgs(key, t, timestamp, jobName, mediaType));
      r.Ok? && r.value.originalFile == JStr(key) && r.value.transcriptionText == t.text && r.value.mediaType == JStr(mediaType)
      && r.value.segments == JList(t.segments) && r.value.audioSegments == JList(t.audioSegments)
  {
    var args := ResultArgs(key, t, timestamp, jobName, mediaType);
    assert args.Keys == IR.Parameters;
  }

  /**
   * process_media with the record it evidently means to build: the same
   * arguments, given to a TranscriptionResult that has audio_segments.
   */
  function ProcessMedia(key: string, jobName: string, started: Result<(), string>, poll: nat -> JobResponse,
                        processed: Result<Transcribed, PyError>, timestamp: string, uploaded: Result<(), string>): (r: Result<Saved, MediaError>)
    ensures r.Ok? <==> started.Ok? && Wait(poll, DefaultMaxAttempts).0 == Completed && processed.Ok? && uploaded.Ok?
    ensures r.Ok? ==> r.value.outputKey == OutputKey(key)
    ensures r.Ok? ==> {"original_file", "media_type", "transcription_text"} <= r.value.document.Keys
    ensures r.Ok? ==> r.value.document["original_file"] == JStr(key) && r.value.document["media_type"] == JStr(MediaType(MediaFormat(key)))
    ensures r.Ok? ==> r.value.document["transcription_text"] == processed.value.text
    ensures r.Ok? ==> DictGet(r.value.document, "segments", JList([])) == JList(processed.value.segments)
    ensures r.Ok? ==> DictGet(r.value.document, "audio_segments", JList([])) == JList(processed.value.audioSegments)
  {
    if started.Err? then Err(StartFailed(started.error))
    else
      var (outcome, _) := Wait(poll, DefaultMaxAttempts);
      if outcome != Completed then Err(NotCompleted(outcome))
      else if processed.Err? then Err(Python(processed.error))
      else
        var mediaType := MediaType(MediaFormat(key));
        ResultArgsAccepted(key, processed.value, timestamp, jobName, mediaType);
        var result := IR.New(ResultArgs(key, processed.value, timestamp, jobName, mediaType)).value;
        if uploaded.Err? then Err(UploadFailed(uploaded.error))
        else Ok(Saved(OutputKey(key), IR.ToDict(result)))
  }

  /** The uploaded document of a completed job reads back as the record that was built, the job name being non-empty. */
  lemma ProcessMediaDocumentRoundTrip(key: string, jobName: string, poll: nat -> JobResponse, t: Transcribed, timestamp: string)
    requires jobName != "" && Wait(poll, DefaultMaxAttempts).0 == Completed
    ensures var r := ProcessMedia(key, jobName, Ok(()), poll, Ok(t), timestamp, Ok(()));
      r.Ok? && IR.FromDict(JDict(r.value.document)) == IR.New(ResultArgs(key, t, timestamp, jobName, MediaType(MediaFormat(key))))
  {
    var mediaType := MediaType(MediaFormat(key));
    var args := ResultArgs(key, t, timestamp, jobName, mediaType);
    ResultArgsAccepted(key, t, timestamp, jobName, mediaType);
    ProcessMediaSaves(key, jobName, poll, t, timestamp);
    ResultArgsJobName(key, t, timestamp, jobName, mediaType);
    RecordRoundTrip(args);
  }

  lemma ResultArgsJobName(key: string, t: Transcribed, timestamp: string, jobName: string, mediaType: string)
    ensures "job_name" in ResultArgs(key, t, timestamp, jobName, mediaType)
    ensures ResultArgs(key, t, timestamp, jobName, mediaType)["job_name"] == JStr(jobName)
  {
  }

  lemma ProcessMediaSaves(key: string, jobName: string, poll: nat -> JobResponse, t: Transcribed, timestamp: string)
    requires Wait(poll, DefaultMaxAttempts).0 == Completed
    requires IR.New(ResultArgs(key, t, timestamp, jobName, MediaType(MediaFormat(key)))).Ok?
    ensures ProcessMedia(key, jobName, Ok(()), poll, Ok(t), timestamp, Ok(())) ==
      Ok(Saved(OutputKey(key), IR.ToDict(IR.New(ResultArgs(key, t, timestamp, jobName, MediaType(MediaFormat(key)))).value)))
  {
  }

  lemma RecordRoundTrip(args: map<string, Json>)
    requires IR.New(args).Ok? && "job_name" in args && args["job_name"].JStr? && args["job_name"].s != ""
    ensures IR.FromDict(JDict(IR.ToDict(IR.New(args).value))) == IR.New(args)
  {
    var rec := IR.New(args).value;
    assert rec.jobName == args["job_name"] && Truthy(rec.jobName);
    IR.RoundTrip(rec);
    assert rec.(jobName := rec.jobName) == rec;
  }

  /**
   * End to end: the audio segments process_transcription extracted from a
   * completed job's output are what the loader reads back from the uploaded
   * document with `.get('audio_segments', [])` and from_dict, and the word
   * segments likewise.
   */
  lemma UploadedSegmentsReadBack(key: string, jobName: string, poll: nat -> JobResponse, output: Json, timestamp: string)
    requires jobName != "" && Wait(poll, DefaultMaxAttempts).0 == Completed
    requires ProcessTranscriptionSpec(output).Ok?
    ensures var t := ProcessTranscriptionSpec(output).value;
      var r := ProcessMedia(key, jobName, Ok(()), poll, ProcessTranscriptionSpec(output), timestamp, Ok(()));
      r.Ok?
      && DictGet(r.value.document, "audio_segments", JList([])) == JList(t.audioSegments)
      && IR.FromDict(JDict(r.value.document)).Ok?
      && IR.FromDict(JDict(r.value.document)).value.audioSegments == JList(t.audioSegments)
      && IR.FromDict(JDict(r.value.document)).value.segments == JList(t.segments)
  {
    var t := ProcessTranscriptionSpec(output).value;
    ProcessMediaDocumentRoundTrip(key, jobName, poll, t, timestamp);
    ResultArgsAccepted(key, t, timestamp, jobName, MediaType(MediaFormat(key)));
  }

}
