/**
 * The question module's OpenAPI check: four validators that each build a
 * list of error messages about the parsed document (an OpenAPI 3.0.x
 * description of the /query endpoint), and the exit status of the script.
 * Python's `in` and `[...]` apply to whatever the YAML held, so a document
 * of an unexpected shape makes a validator raise; an exception that leaves
 * the script also ends it with status 1.
 */
module OpenApiValidator {
  import opened Wrappers
  import opened PyText
  import opened PyJson
  import opened LambdaEvents

  const RequiredFields := ["openapi", "info", "paths", "components"]
  const InfoFields := ["title", "version", "description"]
  const PostFields := ["summary", "requestBody", "responses", "security"]
  const RequiredResponses := ["200", "400", "401", "500"]
  const RequiredSchemas := ["QuestionRequest", "QueryResponse", "ContentMatch", "ErrorResponse"]

  const FieldPrefix := "Missing required field: "
  const InfoPrefix := "Missing required info field: "
  const PostPrefix := "Missing required field in POST /query: "
  const ResponsePrefix := "Missing response definition for status code: "
  const SchemaPrefix := "Missing required schema: "
  const MissingQuery := "Missing required /query endpoint"
  const MissingPost := "Missing POST method for /query endpoint"
  const MissingSchemas := "Missing schemas in components"
  const MissingRequired := "QuestionRequest schema missing 'required' field"
  const WrongRequired := "QuestionRequest schema should require 'question' and 'email' fields"
  const MissingSecuritySchemes := "Missing securitySchemes in components"
  const MissingApiKeyAuth := "Missing ApiKeyAuth security scheme"
  const MissingRequestExamples := "Missing request examples in /query POST method"
  const EmptyRequestExamples := "Empty request examples in /query POST method"
  const RequestAccessPrefix := "Error accessing request examples structure: "
  const MissingResponseExamples := "Missing response examples for 200 status"
  const ResponseAccessPrefix := "Error accessing response examples structure: "

  /** A value `in` can be applied to. */
  predicate Container(x: Json) {
    x.JDict? || x.JList? || x.JStr?
  }

  /** `key in x` on a container. */
  predicate Member(key: string, x: Json)
    requires Container(x)
  {
    In(key, x).value
  }

  /** The TypeError `key in x` raises on a value that is not a container. */
  function NotIterable(x: Json): PyError
    requires !Container(x)
  {
    In("", x).error
  }

  /** The messages `prefix + field` for the fields not in `node`, in the order of `fields`. */
  function Missing(node: Json, fields: seq<string>, prefix: string): (r: seq<string>)
    requires Container(node)
    ensures |r| <= |fields|
    decreases |fields|
  {
    if fields == [] then []
    else
      var f := fields[|fields| - 1];
      Missing(node, fields[..|fields| - 1], prefix) + (if Member(f, node) then [] else [prefix + f])
  }

  /** Exactly the absent fields are reported. */
  lemma {:induction false} MissingMembers(node: Json, fields: seq<string>, prefix: string)
    requires Container(node)
    ensures forall e :: e in Missing(node, fields, prefix) <==> exists f :: f in fields && !Member(f, node) && e == prefix + f
    decreases |fields|
  {
    if fields != [] {
      var init := fields[..|fields| - 1];
      var f := fields[|fields| - 1];
      MissingMembers(node, init, prefix);
      assert fields == init + [f];
      forall e | e in Missing(node, fields, prefix)
        ensures exists g :: g in fields && !Member(g, node) && e == prefix + g
      {
        if e !in Missing(node, init, prefix) {
          assert e == prefix + f && !Member(f, node);
        }
      }
    }
  }

  /** A field is reported exactly when it is absent. */
  lemma MissingExactly(node: Json, fields: seq<string>, prefix: string, f: string)
    requires Container(node) && f in fields
    ensures prefix + f in Missing(node, fields, prefix) <==> !Member(f, node)
  {
    MissingMembers(node, fields, prefix);
    if prefix + f in Missing(node, fields, prefix) {
      var g :| g in fields && !Member(g, node) && prefix + f == prefix + g;
      assert f == (prefix + f)[|prefix|..] == (prefix + g)[|prefix|..] == g;
    }
  }

  /** `for field in fields: if field not in node: errors.append(prefix + field)`. */
  method AppendMissing(errors: seq<string>, node: Json, fields: seq<string>, prefix: string) returns (r: seq<string>)
    requires Container(node)
    ensures r == errors + Missing(node, fields, prefix)
  {
    r := errors;
    var i := 0;
    while i < |fields|
      invariant 0 <= i <= |fields|
      invariant r == errors + Missing(node, fields[..i], prefix)
    {
      assert fields[..i + 1][..i] == fields[..i];
      if !Member(fields[i], node) {
        r := r + [prefix + fields[i]];
      }
      i := i + 1;
    }
    assert fields[..i] == fields;
  }

  /** The version check: a str that does not start with "3.0" is reported; a value that is not a str has no startswith. */
  function VersionErrors(spec: Json): Result<seq<string>, PyError>
    requires Container(spec)
  {
    if !Member("openapi", spec) then Ok([])
    else
      var version :- Lookup(spec, "openapi");
      match version
      case JStr(v) => Ok(if StartsWith(v, "3.0") then [] else ["Unsupported OpenAPI version: " + v + ". Expected 3.0.x"])
      case _ => Err(AttributeError(TypeName(version), "startswith"))
  }

  /** The info check: each of title, version and description that info lacks. */
  function InfoErrors(spec: Json): Result<seq<string>, PyError>
    requires Container(spec)
  {
    if !Member("info", spec) then Ok([])
    else
      var info :- Lookup(spec, "info");
      if !Container(info) then Err(NotIterable(info)) else Ok(Missing(info, InfoFields, InfoPrefix))
  }

  /** validate_openapi_structure. */
  function StructureSpec(spec: Json): Result<seq<string>, PyError> {
    if !Container(spec) then Err(NotIterable(spec))
    else
      var version :- VersionErrors(spec);
      var info :- InfoErrors(spec);
      Ok(Missing(spec, RequiredFields, FieldPrefix) + version + info)
  }

  method ValidateOpenapiStructure(spec: Json) returns (r: Result<seq<string>, PyError>)
    ensures r == StructureSpec(spec)
  {
    if !Container(spec) {
      return Err(NotIterable(spec));
    }
    var errors := AppendMissing([], spec, RequiredFields, FieldPrefix);
    assert errors == Missing(spec, RequiredFields, FieldPrefix);
    if Member("openapi", spec) {
      var version := Lookup(spec, "openapi");
      if version.Err? {
        return Err(version.error);
      }
      if !version.value.JStr? {
        return Err(AttributeError(TypeName(version.value), "startswith"));
      }
      if !StartsWith(version.value.s, "3.0") {
        errors := errors + ["Unsupported OpenAPI version: " + version.value.s + ". Expected 3.0.x"];
      }
    }
    assert VersionErrors(spec).Ok? && errors == Missing(spec, RequiredFields, FieldPrefix) + VersionErrors(spec).value;
    if Member("info", spec) {
      var info := Lookup(spec, "info");
      if info.Err? {
        return Err(info.error);
      }
      if !Container(info.value) {
        return Err(NotIterable(info.value));
      }
      errors := AppendMissing(errors, info.value, InfoFields, InfoPrefix);
    }
    assert errors == Missing(spec, RequiredFields, FieldPrefix) + VersionErrors(spec).value + InfoErrors(spec).value;
    return Ok(errors);
  }

  /** The checks of the POST operation: its four fields, then the four responses when it has any. */
  function PostErrors(post: Json): Result<seq<string>, PyError> {
    if !Container(post) then Err(NotIterable(post))
    else if !Member("responses", post) then Ok(Missing(post, PostFields, PostPrefix))
    else
      var responses :- Lookup(post, "responses");
      if !Container(responses) then Err(NotIterable(responses))
      else Ok(Missing(post, PostFields, PostPrefix) + Missing(responses, RequiredResponses, ResponsePrefix))
  }

  /** validate_paths: nothing without paths, one error and no more for a missing /query or POST. */
  function PathsSpec(spec: Json): Result<seq<string>, PyError> {
    if !Container(spec) then Err(NotIterable(spec))
    else if !Member("paths", spec) then Ok([])
    else
      var paths :- Lookup(spec, "paths");
      if !Container(paths) then Err(NotIterable(paths))
      else if !Member("/query", paths) then Ok([MissingQuery])
      else
        var query :- Lookup(paths, "/query");
        if !Container(query) then Err(NotIterable(query))
        else if !Member("post", query) then Ok([MissingPost])
        else
          var post :- Lookup(query, "post");
          PostErrors(post)
  }

  method ValidatePaths(spec: Json) returns (r: Result<seq<string>, PyError>)
    ensures r == PathsSpec(spec)
  {
    if !Container(spec) {
      return Err(NotIterable(spec));
    }
    if !Member("paths", spec) {
      return Ok([]);
    }
    var paths := Lookup(spec, "paths");
    if paths.Err? {
      return Err(paths.error);
    }
    if !Container(paths.value) {
      return Err(NotIterable(paths.value));
    }
    if !Member("/query", paths.value) {
      return Ok([MissingQuery]);
    }
    var query := Lookup(paths.value, "/query");
    if query.Err? {
      return Err(query.error);
    }
    if !Container(query.value) {
      return Err(NotIterable(query.value));
    }
    if !Member("post", query.value) {
      return Ok([MissingPost]);
    }
    var post := Lookup(query.value, "post");
    if post.Err? {
      return Err(post.error);
    }
    if !Container(post.value) {
      return Err(NotIterable(post.value));
    }
    var errors := AppendMissing([], post.value, PostFields, PostPrefix);
    assert errors == Missing(post.value, PostFields, PostPrefix);
    if Member("responses", post.value) {
      var responses := Lookup(post.value, "responses");
      if responses.Err? {
        return Err(responses.error);
      }
      if !Container(responses.value) {
        return Err(NotIterable(responses.value));
      }
      errors := AppendMissing(errors, responses.value, RequiredResponses, ResponsePrefix);
    }
    assert PostErrors(post.value) == Ok(errors);
    return Ok(errors);
  }

  /** The first element of a list that a set cannot hold (a list or a dict). */
  function FirstUnhashable(xs: seq<Json>): (r: Option<Json>)
    ensures r.Some? ==> r.value in xs && (r.value.JList? || r.value.JDict?)
    ensures r.None? ==> forall k :: 0 <= k < |xs| ==> !xs[k].JList? && !xs[k].JDict?
  {
    if xs == [] then None
    else if xs[0].JList? || xs[0].JDict? then Some(xs[0])
    else FirstUnhashable(xs[1..])
  }

  /** `set(required) == {'question', 'email'}`: a list compares its elements, a dict its keys, a str its one-character strings. */
  function RequiresQuestionAndEmail(required: Json): Result<bool, PyError> {
    match required
    case JList(xs) =>
      (match FirstUnhashable(xs)
       case Some(x) => Err(TypeError("unhashable type: '" + TypeName(x) + "'"))
       case None =>
         Ok(JStr("question") in xs && JStr("email") in xs &&
            forall k :: 0 <= k < |xs| ==> xs[k] == JStr("question") || xs[k] == JStr("email")))
    case JDict(m) => Ok(m.Keys == {"question", "email"})
    case JStr(_) => Ok(false)
    case _ => Err(TypeError("'" + TypeName(required) + "' object is not iterable"))
  }

  /** The QuestionRequest check. */
  function QuestionRequestErrors(schemas: Json): Result<seq<string>, PyError>
    requires Container(schemas)
  {
    if !Member("QuestionRequest", schemas) then Ok([])
    else
      var schema :- Lookup(schemas, "QuestionRequest");
      if !Container(schema) then Err(NotIterable(schema))
      else if !Member("required", schema) then Ok([MissingRequired])
      else
        var required :- Lookup(schema, "required");
        var matches :- RequiresQuestionAndEmail(required);
        Ok(if matches then [] else [WrongRequired])
  }

  /** The security scheme check. */
  function SecurityErrors(components: Json): Result<seq<string>, PyError>
    requires Container(components)
  {
    if !Member("securitySchemes", components) then Ok([MissingSecuritySchemes])
    else
      var schemes :- Lookup(components, "securitySchemes");
      if !Container(schemes) then Err(NotIterable(schemes))
      else Ok(if Member("ApiKeyAuth", schemes) then [] else [MissingApiKeyAuth])
  }

  /** validate_components: missing schemas is the only error, and every later check is skipped. */
  function ComponentsSpec(spec: Json): Result<seq<string>, PyError> {
    if !Container(spec) then Err(NotIterable(spec))
    else if !Member("components", spec) then Ok([])
    else
      var components :- Lookup(spec, "components");
      if !Container(components) then Err(NotIterable(components))
      else if !Member("schemas", components) then Ok([MissingSchemas])
      else
        var schemas :- Lookup(components, "schemas");
        if !Container(schemas) then Err(NotIterable(schemas))
        else
          var question :- QuestionRequestErrors(schemas);
          var security :- SecurityErrors(components);
          Ok(Missing(schemas, RequiredSchemas, SchemaPrefix) + question + security)
  }

  method ValidateComponents(spec: Json) returns (r: Result<seq<string>, PyError>)
    ensures r == ComponentsSpec(spec)
  {
    if !Container(spec) {
      return Err(NotIterable(spec));
    }
    if !Member("components", spec) {
      return Ok([]);
    }
    var components := Lookup(spec, "components");
    if components.Err? {
      return Err(components.error);
    }
    if !Container(components.value) {
      return Err(NotIterable(components.value));
    }
    if !Member("schemas", components.value) {
      return Ok([MissingSchemas]);
    }
    var schemas := Lookup(components.value, "schemas");
    if schemas.Err? {
      return Err(schemas.error);
    }
    if !Container(schemas.value) {
      return Err(NotIterable(schemas.value));
    }
    var errors := AppendMissing([], schemas.value, RequiredSchemas, SchemaPrefix);
    assert errors == Missing(schemas.value, RequiredSchemas, SchemaPrefix);
    var question := QuestionRequestErrors(schemas.value);
    if question.Err? {
      return Err(question.error);
    }
    errors := errors + question.value;
    var security := SecurityErrors(components.value);
    if security.Err? {
      return Err(security.error);
    }
    return Ok(errors + security.value);
  }

  /** `node[k1][k2]...`. */
  function Path(node: Json, keys: seq<string>): Result<Json, PyError>
    decreases |keys|
  {
    if keys == [] then Ok(node)
    else
      var child :- Lookup(node, keys[0]);
      Path(child, keys[1..])
  }

  /** A KeyError inside a `try` becomes one message; any other exception passes through. */
  function CatchKeyError(r: Result<seq<string>, PyError>, prefix: string): (c: Result<seq<string>, PyError>)
    ensures r.Ok? ==> c == r
    ensures r.Err? && r.error.KeyError? ==> c == Ok([prefix + ErrorText(r.error)])
    ensures r.Err? && !r.error.KeyError? ==> c == r
  {
    match r
    case Err(KeyError(k)) => Ok([prefix + ErrorText(KeyError(k))])
    case _ => r
  }

  const RequestPath := ["paths", "/query", "post", "requestBody", "content", "application/json"]
  const ResponsePath := ["paths", "/query", "post", "responses", "200", "content", "application/json"]

  /** The request side: examples must be present and non-empty. */
  function RequestExamples(spec: Json): (r: Result<seq<string>, PyError>)
    ensures r.Ok? ==> |r.value| <= 1
  {
    var content :- Path(spec, RequestPath);
    if !Container(content) then Err(NotIterable(content))
    else if !Member("examples", content) then Ok([MissingRequestExamples])
    else
      var examples :- Lookup(content, "examples");
      Ok(if Truthy(examples) then [] else [EmptyRequestExamples])
  }

  /** The response side: the 200 response must have examples. */
  function ResponseExamples(spec: Json): (r: Result<seq<string>, PyError>)
    ensures r.Ok? ==> |r.value| <= 1
  {
    var content :- Path(spec, ResponsePath);
    if !Container(content) then Err(NotIterable(content))
    else Ok(if Member("examples", content) then [] else [MissingResponseExamples])
  }

  /** validate_examples: at most one message per side. */
  function ValidateExamples(spec: Json): (r: Result<seq<string>, PyError>)
    ensures r.Ok? ==> |r.value| <= 2
  {
    var request :- CatchKeyError(RequestExamples(spec), RequestAccessPrefix);
    var response :- CatchKeyError(ResponseExamples(spec), ResponseAccessPrefix);
    Ok(request + response)
  }

  /** Every value met along `keys` is a dict, as far as the keys are there. */
  predicate DictsAlong(node: Json, keys: seq<string>)
    decreases |keys|
  {
    node.JDict? && (keys != [] && keys[0] in node.fields ==> DictsAlong(node.fields[keys[0]], keys[1..]))
  }

  /** Along dicts a path either reaches a dict or stops at a missing key. */
  lemma {:induction false} PathOnDicts(node: Json, keys: seq<string>)
    requires DictsAlong(node, keys)
    ensures Path(node, keys).Ok? ==> Path(node, keys).value.JDict?
    ensures Path(node, keys).Err? ==> Path(node, keys).error.KeyError?
    decreases |keys|
  {
    if keys != [] && keys[0] in node.fields {
      PathOnDicts(node.fields[keys[0]], keys[1..]);
    }
  }

  /** A document made of dicts never makes validate_examples raise, whatever keys are missing. */
  lemma ExamplesNeverRaiseOnDicts(spec: Json)
    requires DictsAlong(spec, RequestPath) && DictsAlong(spec, ResponsePath)
    ensures ValidateExamples(spec).Ok?
  {
    PathOnDicts(spec, RequestPath);
    PathOnDicts(spec, ResponsePath);
  }

  /** The concatenated list of main, or the exception one of the validators raised. */
  function AllErrors(spec: Json): Result<seq<string>, PyError> {
    var structure :- StructureSpec(spec);
    var paths :- PathsSpec(spec);
    var components :- ComponentsSpec(spec);
    var examples :- ValidateExamples(spec);
    Ok(structure + paths + components + examples)
  }

  /** The summary main prints on success, which reads title and version of info and the sizes of paths and schemas. */
  function Report(spec: Json): Result<(), PyError> {
    var _ :- Get(spec, "openapi", JStr("Unknown"));
    var info :- Get(spec, "info", JDict(map[]));
    var _ :- Get(info, "title", JStr("Unknown"));
    var _ :- Get(info, "version", JStr("Unknown"));
    var paths :- Get(spec, "paths", JDict(map[]));
    var _ :- Len(paths);
    var components :- Get(spec, "components", JDict(map[]));
    var schemas :- Get(components, "schemas", JDict(map[]));
    var _ :- Len(schemas);
    Ok(())
  }

  /** The exit status: 1 when the document could not be read, when a validator raised, or when there are errors. */
  function ExitStatus(document: Option<Json>): (status: int)
    ensures status == 0 || status == 1
  {
    match document
    case None => 1
    case Some(spec) =>
      match AllErrors(spec)
      case Err(_) => 1
      case Ok(errors) => if errors != [] then 1 else if Report(spec).Ok? then 0 else 1
  }

  /** main: the validators run in order and their lists are appended. */
  method ValidateDocument(document: Option<Json>) returns (status: int)
    ensures status == ExitStatus(document)
  {
    if document.None? {
      return 1;
    }
    var spec := document.value;
    var all: seq<string> := [];
    var structure := ValidateOpenapiStructure(spec);
    if structure.Err? {
      return 1;
    }
    all := all + structure.value;
    var paths := ValidatePaths(spec);
    if paths.Err? {
      return 1;
    }
    all := all + paths.value;
    var components := ValidateComponents(spec);
    if components.Err? {
      return 1;
    }
    all := all + components.value;
    var examples := ValidateExamples(spec);
    if examples.Err? {
      return 1;
    }
    all := all + examples.value;
    if all != [] {
      return 1;
    }
    status := if Report(spec).Ok? then 0 else 1;
  }

  /** A document that reads and validates without raising exits with 1 exactly when some validator reported an error, or the summary fails. */
  lemma ExitStatusFollowsErrors(spec: Json)
    requires AllErrors(spec).Ok?
    ensures ExitStatus(Some(spec)) == 1 <==> AllErrors(spec).value != [] || Report(spec).Err?
  {
  }

  /** An empty document reports the four top-level fields, in order, and nothing else of the structure. */
  lemma EmptyDocumentStructure()
    ensures StructureSpec(JDict(map[])) == Ok([FieldPrefix + "openapi", FieldPrefix + "info", FieldPrefix + "paths", FieldPrefix + "components"])
  {
    var spec := JDict(map[]);
    assert RequiredFields[..3] == ["openapi", "info", "paths"];
    assert RequiredFields[..3][..2] == ["openapi", "info"];
    assert RequiredFields[..3][..2][..1] == ["openapi"];
    assert Missing(spec, ["openapi"], FieldPrefix) == [FieldPrefix + "openapi"];
    assert Missing(spec, ["openapi", "info"], FieldPrefix) == [FieldPrefix + "openapi", FieldPrefix + "info"];
    assert Missing(spec, ["openapi", "info", "paths"], FieldPrefix) == [FieldPrefix + "openapi", FieldPrefix + "info", FieldPrefix + "paths"];
    assert Missing(spec, RequiredFields, FieldPrefix) == [FieldPrefix + "openapi", FieldPrefix + "info", FieldPrefix + "paths", FieldPrefix + "components"];
    assert VersionErrors(spec) == Ok([]) && InfoErrors(spec) == Ok([]);
    var m := Missing(spec, RequiredFields, FieldPrefix);
    assert StructureSpec(spec) == Ok(m + [] + []);
    assert m + [] + [] == m;
  }

  /** A version that is a str is accepted exactly when it starts with 3.0; a YAML number raises instead. */
  lemma VersionChecked(m: map<string, Json>, v: string, f: real)
    requires "info" !in m
    ensures VersionErrors(JDict(m["openapi" := JStr(v)])) == Ok(if StartsWith(v, "3.0") then [] else ["Unsupported OpenAPI version: " + v + ". Expected 3.0.x"])
    ensures StructureSpec(JDict(m["openapi" := JFloat(f)])) == Err(AttributeError("float", "startswith"))
  {
  }

  /** Without paths there is nothing to report about them. */
  lemma NoPathsNoErrors(m: map<string, Json>)
    requires "paths" !in m
    ensures PathsSpec(JDict(m)) == Ok([])
  {
  }

  /** A missing /query or POST is one error and stops the path checks. */
  lemma MissingEndpointOneError(m: map<string, Json>, paths: map<string, Json>, query: map<string, Json>)
    requires "paths" in m && m["paths"] == JDict(paths)
    ensures "/query" !in paths ==> PathsSpec(JDict(m)) == Ok([MissingQuery])
    ensures "/query" in paths && paths["/query"] == JDict(query) && "post" !in query ==> PathsSpec(JDict(m)) == Ok([MissingPost])
  {
  }

  /** Without schemas, components give one error, even when securitySchemes is missing too. */
  lemma MissingSchemasSkipsRest(m: map<string, Json>, components: map<string, Json>)
    requires "components" in m && m["components"] == JDict(components) && "schemas" !in components
    ensures ComponentsSpec(JDict(m)) == Ok([MissingSchemas])
  {
  }

  /** The required list is compared as a set: order and repetition do not matter, and nothing else may appear. */
  lemma RequiredComparedAsSet(xs: seq<string>)
    ensures var list := JList(seq(|xs|, k requires 0 <= k < |xs| => JStr(xs[k])));
      RequiresQuestionAndEmail(list) == Ok((set k | 0 <= k < |xs| :: xs[k]) == {"question", "email"})
  {
    var list := seq(|xs|, k requires 0 <= k < |xs| => JStr(xs[k]));
    assert FirstUnhashable(list).None? by {
      forall k | 0 <= k < |list| ensures !list[k].JList? && !list[k].JDict? {
      }
      NoUnhashable(list);
    }
    if (set k | 0 <= k < |xs| :: xs[k]) == {"question", "email"} {
      SetEqualityGivesListTest(xs);
    }
    if JStr("question") in list && JStr("email") in list &&
       forall k :: 0 <= k < |list| ==> list[k] == JStr("question") || list[k] == JStr("email") {
      ListTestGivesSetEquality(xs);
    }
  }

  lemma SetEqualityGivesListTest(xs: seq<string>)
    requires (set k | 0 <= k < |xs| :: xs[k]) == {"question", "email"}
    ensures var list := seq(|xs|, k requires 0 <= k < |xs| => JStr(xs[k]));
      JStr("question") in list && JStr("email") in list &&
      forall k :: 0 <= k < |list| ==> list[k] == JStr("question") || list[k] == JStr("email")
  {
    var list := seq(|xs|, k requires 0 <= k < |xs| => JStr(xs[k]));
    var names := (set k | 0 <= k < |xs| :: xs[k]);
    assert "question" in names;
    var i :| 0 <= i < |xs| && xs[i] == "question";
    assert list[i] == JStr("question");
    assert "email" in names;
    var j :| 0 <= j < |xs| && xs[j] == "email";
    assert list[j] == JStr("email");
    forall k | 0 <= k < |list| ensures list[k] == JStr("question") || list[k] == JStr("email") {
      assert xs[k] in names;
    }
  }

  lemma ListTestGivesSetEquality(xs: seq<string>)
    requires var list := seq(|xs|, k requires 0 <= k < |xs| => JStr(xs[k]));
      JStr("question") in list && JStr("email") in list &&
      forall k :: 0 <= k < |list| ==> list[k] == JStr("question") || list[k] == JStr("email")
    ensures (set k | 0 <= k < |xs| :: xs[k]) == {"question", "email"}
  {
    var list := seq(|xs|, k requires 0 <= k < |xs| => JStr(xs[k]));
    var names := (set k | 0 <= k < |xs| :: xs[k]);
    var i :| 0 <= i < |list| && list[i] == JStr("question");
    assert xs[i] in names;
    var j :| 0 <= j < |list| && list[j] == JStr("email");
    assert xs[j] in names;
    forall n | n in names ensures n == "question" || n == "email" {
      var k :| 0 <= k < |xs| && xs[k] == n;
      assert list[k] == JStr(n);
    }
  }

  /** A list without lists or dicts in it has nothing unhashable. */
  lemma {:induction false} NoUnhashable(xs: seq<Json>)
    requires forall k :: 0 <= k < |xs| ==> !xs[k].JList? && !xs[k].JDict?
    ensures FirstUnhashable(xs).None?
    decreases |xs|
  {
    if xs != [] {
      NoUnhashable(xs[1..]);
    }
  }
}
