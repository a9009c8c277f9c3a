/**
 * What the Lambda handlers share: the response they return, the exception
 * that reached their `except Exception` clause, Python's `in` on a parsed
 * event, and the way they read the first S3 record of an event
 * (`records[0].get('s3', {})`, then the bucket name and the object key,
 * each defaulting to None).
 */
module LambdaEvents {
  import opened Wrappers
  import opened PyText
  import opened PyJson

  /**
   * A handler's answer: the status code, the value handed to json.dumps as
   * the body, and the `detail` entry only the transcribe handler adds.
   */
  datatype Response = Response(statusCode: int, body: Json, detail: Option<Json>)

  /** An exception caught by a handler: type(e).__name__ and str(e). */
  datatype Raised = Raised(typeName: string, text: string)

  function Raise(e: PyError): (r: Raised)
    ensures r.typeName == ErrorName(e) && r.text == ErrorText(e)
  {
    Raised(ErrorName(e), ErrorText(e))
  }

  /** `key in x`: a dict key, a list element, a substring; anything else is not iterable. */
  function In(key: string, x: Json): (r: Result<bool, PyError>)
    ensures r.Ok? <==> x.JDict? || x.JList? || x.JStr?
    ensures x.JDict? ==> r == Ok(key in x.fields)
    ensures x.JList? ==> r == Ok(JStr(key) in x.items)
    ensures x.JStr? ==> r == Ok(IsInfix(key, x.s))
  {
    match x
    case JDict(m) => Ok(key in m)
    case JList(xs) => Ok(JStr(key) in xs)
    case JStr(s) => Ok(IsInfix(key, s))
    case _ => Err(TypeError("argument of type '" + TypeName(x) + "' is not iterable"))
  }

  /** An S3 notification record: `{'s3': {'bucket': {'name': bucket}, 'object': {'key': key}}}`. */
  function S3Record(bucket: Json, key: Json): Json {
    JDict(map["s3" := JDict(map["bucket" := JDict(map["name" := bucket]),
                                "object" := JDict(map["key" := key])])])
  }

  /** The bucket and key of the first record; every level defaults to an empty dict and the leaves to None. */
  function Location(records: Json): (r: Result<(Json, Json), PyError>)
    ensures r.Ok? ==> records.JList? && records.items != [] && records.items[0].JDict?
  {
    var first :- First(records);
    var s3 :- Get(first, "s3", JDict(map[]));
    match s3
    case JDict(m) =>
      var bucket :- Get(DictGet(m, "bucket", JDict(map[])), "name", JNull);
      var key :- Get(DictGet(m, "object", JDict(map[])), "key", JNull);
      Ok((bucket, key))
    case _ => Err(NoGet(s3))
  }

  /** A list that starts with an S3 record yields that record's bucket and key. */
  lemma LocationOfRecord(bucket: Json, key: Json, rest: seq<Json>)
    ensures Location(JList([S3Record(bucket, key)] + rest)) == Ok((bucket, key))
  {
    assert ([S3Record(bucket, key)] + rest)[0] == S3Record(bucket, key);
  }

  /** Only the first record is read: the records after it change nothing. */
  lemma OnlyFirstRecordRead(first: Json, rest1: seq<Json>, rest2: seq<Json>)
    ensures Location(JList([first] + rest1)) == Location(JList([first] + rest2))
  {
    assert ([first] + rest1)[0] == first == ([first] + rest2)[0];
  }

  /** A first record without an `s3` entry gives no bucket and no key. */
  lemma LocationWithoutS3(first: map<string, Json>, rest: seq<Json>)
    requires "s3" !in first
    ensures Location(JList([JDict(first)] + rest)) == Ok((JNull, JNull))
  {
    assert ([JDict(first)] + rest)[0] == JDict(first);
  }
}
