/**
 * The chunk records of the chunking module: a Chunk (a time span, its text,
 * its position and free-form metadata) and a ChunkingResult (the source
 * file's description and its chunks), with to_dict for serialisation.
 */
module Chunks {
  import opened Wrappers
  import opened PyJson

  /** start_time and end_time are floats, kept as opaque reals. */
  datatype Chunk = Chunk(startTime: real, endTime: real, content: string, index: int, metadata: map<string, Json>)

  datatype ChunkingResult = ChunkingResult(
    originalFile: string, mediaType: string, timestamp: string, jobName: string,
    chunks: seq<Chunk>, metadata: map<string, Json>)

  const ChunkKeys: set<string> := {"start_time", "end_time", "content", "index", "metadata"}
  const ResultKeys: set<string> := {"original_file", "media_type", "timestamp", "job_name", "chunks", "metadata"}

  /** A chunk built without metadata gets a fresh empty dict. */
  function NewChunk(startTime: real, endTime: real, content: string, index: int): (c: Chunk)
    ensures c.metadata == map[]
  {
    Chunk(startTime, endTime, content, index, map[])
  }

  /** A result built from the four descriptive fields has no chunks and no metadata. */
  function NewResult(originalFile: string, mediaType: string, timestamp: string, jobName: string): (r: ChunkingResult)
    ensures r.chunks == [] && r.metadata == map[]
  {
    ChunkingResult(originalFile, mediaType, timestamp, jobName, [], map[])
  }

  /** The dict of one chunk, as the comprehension in to_dict builds it. */
  function ChunkToDict(c: Chunk): (d: Json)
    ensures d.JDict? && d.fields.Keys == ChunkKeys
  {
    JDict(map["start_time" := JFloat(c.startTime), "end_time" := JFloat(c.endTime), "content" := JStr(c.content),
              "index" := JInt(c.index), "metadata" := JDict(c.metadata)])
  }

  /** to_dict: the four descriptive fields, the chunks one dict each in their order, and the metadata. */
  function ToDict(r: ChunkingResult): (d: map<string, Json>)
    ensures d.Keys == ResultKeys
    ensures d["original_file"] == JStr(r.originalFile) && d["job_name"] == JStr(r.jobName)
    ensures d["media_type"] == JStr(r.mediaType) && d["timestamp"] == JStr(r.timestamp)
    ensures d["metadata"] == JDict(r.metadata)
    ensures d["chunks"].JList? && |d["chunks"].items| == |r.chunks|
  {
    map["original_file" := JStr(r.originalFile), "media_type" := JStr(r.mediaType),
        "timestamp" := JStr(r.timestamp), "job_name" := JStr(r.jobName),
        "chunks" := JList(seq(|r.chunks|, k requires 0 <= k < |r.chunks| => ChunkToDict(r.chunks[k]))),
        "metadata" := JDict(r.metadata)]
  }

  /** Reading a chunk back from its dict: the reference the serialised form is checked against. */
  function ChunkFromDict(d: Json): Option<Chunk> {
    if d.JDict? && ChunkKeys <= d.fields.Keys && d.fields["start_time"].JFloat? && d.fields["end_time"].JFloat?
       && d.fields["content"].JStr? && d.fields["index"].JInt? && d.fields["metadata"].JDict?
    then Some(Chunk(d.fields["start_time"].f, d.fields["end_time"].f, d.fields["content"].s,
                    d.fields["index"].i, d.fields["metadata"].fields))
    else None
  }

  /** Reading a result back from its dict. */
  function FromDict(d: map<string, Json>): Option<ChunkingResult> {
    if ResultKeys <= d.Keys && d["original_file"].JStr? && d["media_type"].JStr? && d["timestamp"].JStr?
       && d["job_name"].JStr? && d["chunks"].JList? && d["metadata"].JDict?
       && forall k :: 0 <= k < |d["chunks"].items| ==> ChunkFromDict(d["chunks"].items[k]).Some?
    then
      var items := d["chunks"].items;
      Some(ChunkingResult(d["original_file"].s, d["media_type"].s, d["timestamp"].s, d["job_name"].s,
                          seq(|items|, k requires 0 <= k < |items| => ChunkFromDict(items[k]).value),
                          d["metadata"].fields))
    else None
  }

  /** A chunk's dict reads back as the chunk. */
  lemma ChunkRoundTrip(c: Chunk)
    ensures ChunkFromDict(ChunkToDict(c)) == Some(c)
  {
  }

  /** A result's dict reads back as the result: no field is lost and the chunks keep their order. */
  lemma RoundTrip(r: ChunkingResult)
    ensures FromDict(ToDict(r)) == Some(r)
  {
    var d := ToDict(r);
    var items := d["chunks"].items;
    forall k | 0 <= k < |items| ensures ChunkFromDict(items[k]) == Some(r.chunks[k]) {
      ChunkRoundTrip(r.chunks[k]);
    }
    var back := FromDict(d).value;
    assert back.chunks == r.chunks;
  }

  /** The k-th serialised chunk carries the k-th chunk's fields. */
  lemma ChunkAt(r: ChunkingResult, k: nat)
    requires k < |r.chunks|
    ensures var item := ToDict(r)["chunks"].items[k];
      item.JDict? && item.fields["index"] == JInt(r.chunks[k].index) && item.fields["content"] == JStr(r.chunks[k].content)
      && item.fields["start_time"] == JFloat(r.chunks[k].startTime) && item.fields["end_time"] == JFloat(r.chunks[k].endTime)
  {
  }

  /** A freshly built result serialises with an empty chunk list and empty metadata. */
  lemma NewResultToDict(originalFile: string, mediaType: string, timestamp: string, jobName: string)
    ensures var d := ToDict(NewResult(originalFile, mediaType, timestamp, jobName));
      d["chunks"] == JList([]) && d["metadata"] == JDict(map[])
  {
  }
}
