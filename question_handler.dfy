/**
 * The question API's Lambda entry point: it checks the `x-api-key` header
 * against the stored key, parses and validates the body (a question and an
 * authorised e-mail address), embeds the question and asks the vector index
 * for the five nearest talks, and answers with their metadata. Each kind of
 * failure has its own status code.
 *
 * The module defines process_question and lambda_handler twice; Python
 * rebinds the names, so only the later definitions run, and those are the
 * ones modelled here.
 */
module QuestionHandler {
  import opened Wrappers
  import opened PyText
  import opened PyJson

  // ---------------------------------------------------------------------
  // validate_email: ^[a-zA-Z0-9._%+-]+@[a-zA-Z0-9.-]+\.[a-zA-Z]{2,}$
  // ---------------------------------------------------------------------

  /** The class [a-zA-Z0-9._%+-] of the local part. */
  predicate LocalChar(c: char) {
    IsAsciiLetter(c) || IsDigit(c) || c == '.' || c == '_' || c == '%' || c == '+' || c == '-'
  }

  /** The class [a-zA-Z0-9.-] of the domain. */
  predicate DomainChar(c: char) {
    IsAsciiLetter(c) || IsDigit(c) || c == '.' || c == '-'
  }

  /**
   * The pattern matches all of s with its '@' at `at` and the '.' before the
   * top-level label at `dot`: the reference reading of the regular expression.
   */
  ghost predicate EmailAt(s: string, at: int, dot: int) {
    0 < at && at + 1 < dot && dot + 3 <= |s|
    && (forall k :: 0 <= k < at ==> LocalChar(s[k]))
    && s[at] == '@'
    && (forall k :: at < k < dot ==> DomainChar(s[k]))
    && s[dot] == '.'
    && (forall k :: dot < k < |s| ==> IsAsciiLetter(s[k]))
  }

  ghost predicate FullMatch(s: string) {
    exists at, dot :: EmailAt(s, at, dot)
  }

  /** re.match with a final `$`, which also matches just before a trailing newline. */
  ghost predicate RegexAccepts(s: string) {
    FullMatch(s) || (s != [] && s[|s| - 1] == '\n' && FullMatch(s[..|s| - 1]))
  }

  /** The pattern on the text without a trailing newline: the first '@' splits it, the last '.' ends the domain. */
  function MatchesBody(s: string): bool {
    match IndexOf(s, '@')
    case None => false
    case Some(at) =>
      var rest := s[at + 1..];
      at > 0 && (forall k :: 0 <= k < at ==> LocalChar(s[k])) && (forall k :: 0 <= k < |rest| ==> DomainChar(rest[k])) &&
      (match LastIndexOf(rest, '.')
       case None => false
       case Some(p) => p >= 1 && p + 3 <= |rest| && forall k :: p < k < |rest| ==> IsAsciiLetter(rest[k]))
  }

  /** Splitting at the first '@' and the last '.' finds a match exactly when there is one. */
  lemma MatchesBodyIsFullMatch(s: string)
    ensures MatchesBody(s) <==> FullMatch(s)
  {
    if MatchesBody(s) {
      SplitGivesMatch(s);
    }
    if FullMatch(s) {
      var at, dot :| EmailAt(s, at, dot);
      MatchIsFoundBySplit(s, at, dot);
    }
  }

  lemma SplitGivesMatch(s: string)
    requires MatchesBody(s)
    ensures FullMatch(s)
  {
    var at := IndexOf(s, '@').value;
    var rest := s[at + 1..];
    var p := LastIndexOf(rest, '.').value;
    assert EmailAt(s, at, at + 1 + p) by {
      forall k | at < k < at + 1 + p ensures DomainChar(s[k]) {
        assert s[k] == rest[k - at - 1];
      }
      forall k | at + 1 + p < k < |s| ensures IsAsciiLetter(s[k]) {
        assert s[k] == rest[k - at - 1];
      }
    }
  }

  lemma MatchIsFoundBySplit(s: string, at: int, dot: int)
    requires EmailAt(s, at, dot)
    ensures MatchesBody(s)
  {
    assert IndexOf(s, '@') == Some(at) by {
      var i := IndexOf(s, '@');
      assert i.Some?;
      assert !LocalChar('@');
      assert s[i.value] == '@';
      assert i.value == at;
    }
    var rest := s[at + 1..];
    var p := dot - at - 1;
    forall k | 0 <= k < |rest| ensures DomainChar(rest[k]) {
      assert rest[k] == s[k + at + 1];
      if k + at + 1 > dot {
        assert IsAsciiLetter(s[k + at + 1]);
      }
    }
    assert LastIndexOf(rest, '.') == Some(p) by {
      var l := LastIndexOf(rest, '.');
      assert rest[p] == '.';
      assert l.Some?;
      assert !IsAsciiLetter('.');
      assert s[l.value + at + 1] == rest[l.value] == '.';
      assert l.value == p;
    }
    forall k | p < k < |rest| ensures IsAsciiLetter(rest[k]) {
      assert rest[k] == s[k + at + 1];
    }
  }

  /** validate_email, the way the check runs: accepted exactly when the regular expression matches. */
  function ValidateEmail(email: string): (r: bool)
    ensures r <==> RegexAccepts(email)
  {
    MatchesBodyIsFullMatch(email);
    MatchesBodyIsFullMatch(if email != [] then email[..|email| - 1] else email);
    MatchesBody(email) || (email != [] && email[|email| - 1] == '\n' && MatchesBody(email[..|email| - 1]))
  }

  /** An accepted address holds exactly one '@', with a non-empty local part before it. */
  lemma AcceptedHasOneAt(s: string, at: int, dot: int)
    requires EmailAt(s, at, dot)
    ensures forall k :: 0 <= k < |s| && s[k] == '@' ==> k == at
  {
    assert !LocalChar('@') && !DomainChar('@') && !IsAsciiLetter('@');
    forall k | 0 <= k < |s| && s[k] == '@' ensures k == at {
    }
  }

  /** A trailing newline is accepted: s + "\n" passes exactly when s does (the newline cannot end a match itself). */
  lemma TrailingNewlineAccepted(s: string)
    ensures ValidateEmail(s + "\n") <==> FullMatch(s)
  {
    var t := s + "\n";
    assert t[..|t| - 1] == s;
    assert !IsAsciiLetter(t[|t| - 1]);
    assert forall at, dot :: !EmailAt(t, at, dot);
  }

  /** A top-level label of one letter is rejected: `x@y.c` does not match. */
  lemma ShortTopLevelRejected(s: string)
    requires |s| >= 2 && s[|s| - 2] == '.' && IsAsciiLetter(s[|s| - 1])
    ensures !FullMatch(s)
  {
    assert !IsAsciiLetter(s[|s| - 2]);
    assert forall at, dot :: !EmailAt(s, at, dot);
  }

  // ---------------------------------------------------------------------
  // Errors and responses
  // ---------------------------------------------------------------------

  /** What the handler's try block can raise, by the except clause that catches it. */
  datatype QuestionError =
    | ValidationError(message: string)
    | AuthorizationError(message: string)
    | ConfigurationError(message: string)
    | ProcessingError(message: string)
    | Unexpected(error: PyError)

  /** create_response: the status, the JSON content type, and the value handed to json.dumps. */
  datatype ApiResponse = ApiResponse(statusCode: int, headers: map<string, string>, body: Json)

  const JsonHeaders: map<string, string> := map["Content-Type" := "application/json"]

  function CreateResponse(statusCode: int, body: Json): (r: ApiResponse)
    ensures r.statusCode == statusCode && r.body == body && r.headers == JsonHeaders
  {
    ApiResponse(statusCode, JsonHeaders, body)
  }

  function ErrorBody(message: string): Json {
    JDict(map["error" := JStr(message)])
  }

  /** The except clauses of lambda_handler, in order. */
  function ErrorResponse(e: QuestionError): (r: ApiResponse)
    ensures r.headers == JsonHeaders
    ensures e.ValidationError? <==> r.statusCode == 400
    ensures e.AuthorizationError? <==> r.statusCode == 401
    ensures !e.ValidationError? && !e.AuthorizationError? <==> r.statusCode == 500
    ensures e.ValidationError? || e.AuthorizationError? ==> r.body == ErrorBody(e.message)
    ensures e.ProcessingError? ==> r.body == ErrorBody("Error processing request")
    ensures e.ConfigurationError? || e.Unexpected? ==> r.body == ErrorBody("Internal server error")
  {
    match e
    case ValidationError(m) => CreateResponse(400, ErrorBody(m))
    case AuthorizationError(m) => CreateResponse(401, ErrorBody(m))
    case ConfigurationError(_) => CreateResponse(500, ErrorBody("Internal server error"))
    case ProcessingError(_) => CreateResponse(500, ErrorBody("Error processing request"))
    case Unexpected(_) => CreateResponse(500, ErrorBody("Internal server error"))
  }

  // ---------------------------------------------------------------------
  // The services the handler reads
  // ---------------------------------------------------------------------

  /**
   * The module-level services and SDK calls, as oracles: the stored API key
   * and the two SDK keys as the secrets cache returns them, the access list's
   * verdict on an e-mail address, json.loads (a parsed value or the decoder's
   * message), and the embedding plus index query for a question (the query
   * response, or str() of the exception raised).
   */
  datatype Services = Services(
    apiKey: Option<string>,
    openaiKey: Option<string>,
    pineconeKey: Option<string>,
    authorized: string -> bool,
    loads: string -> Result<Json, string>,
    query: string -> Result<Json, string>)

  /** `not value` for an optional secret. */
  predicate Missing(value: Option<string>) {
    value.None? || value.value == ""
  }

  // ---------------------------------------------------------------------
  // validate_api_key_or_raise
  // ---------------------------------------------------------------------

  /** The header is looked up with its exact case; a missing or empty key on either side is 'Missing API key'. */
  function ValidateApiKey(headers: Json, expected: Option<string>): (r: Result<(), QuestionError>)
    ensures headers.JDict? ==> (r.Ok? <==> !Missing(expected) && DictGet(headers.fields, "x-api-key", JNull) == JStr(expected.value))
    ensures r.Err? && headers.JDict? ==> r.error.AuthorizationError?
    ensures headers.JDict? && (!Truthy(DictGet(headers.fields, "x-api-key", JNull)) || Missing(expected)) ==>
      r == Err(AuthorizationError("Missing API key"))
  {
    match Get(headers, "x-api-key", JNull)
    case Err(e) => Err(Unexpected(e))
    case Ok(key) =>
      if !Truthy(key) || Missing(expected) then Err(AuthorizationError("Missing API key"))
      else if key != JStr(expected.value) then Err(AuthorizationError("Invalid API key"))
      else Ok(())
  }

  /** validate_api_key, the earlier handler's boolean form of the same test. */
  function ApiKeyValid(headers: map<string, Json>, expected: Option<string>): (r: bool)
    ensures r <==> ValidateApiKey(JDict(headers), expected).Ok?
    ensures r ==> DictGet(headers, "x-api-key", JNull).JStr?
  {
    var key := DictGet(headers, "x-api-key", JNull);
    Truthy(key) && !Missing(expected) && key == JStr(expected.value)
  }

  // ---------------------------------------------------------------------
  // QuestionRequest and parse_and_validate_request
  // ---------------------------------------------------------------------

  datatype QuestionRequest = QuestionRequest(question: string, email: string)

  /** `isinstance(x, str) and x.strip()`. */
  predicate NonBlankString(x: Json) {
    x.JStr? && Strip(x.s) != ""
  }

  /** QuestionRequest.validate: the question must be a non-blank str and the e-mail a str the pattern accepts. */
  function ValidateQuestionRequest(question: Json, email: Json): (r: Result<QuestionRequest, QuestionError>)
    ensures r.Ok? <==> NonBlankString(question) && email.JStr? && RegexAccepts(email.s)
    ensures r.Ok? ==> r.value == QuestionRequest(question.s, email.s)
    ensures !NonBlankString(question) ==> r == Err(ValidationError("Question must be a non-empty string about the transcripts"))
    ensures NonBlankString(question) && r.Err? ==> r == Err(ValidationError("Invalid email format"))
  {
    if !NonBlankString(question) then Err(ValidationError("Question must be a non-empty string about the transcripts"))
    else if !email.JStr? || !ValidateEmail(email.s) then Err(ValidationError("Invalid email format"))
    else Ok(QuestionRequest(question.s, email.s))
  }

  /** The body of the event: a str is parsed as JSON, anything else is taken as it is. */
  function ParseBody(event: map<string, Json>, loads: string -> Result<Json, string>): Result<Json, QuestionError> {
    if "body" !in event then Err(ValidationError("Missing request body"))
    else
      match event["body"]
      case JStr(text) =>
        (match loads(text)
         case Err(m) => Err(ValidationError("Invalid JSON in request body: " + m))
         case Ok(body) => Ok(body))
      case other => Ok(other)
  }

  /** parse_and_validate_request: the checks in the source's order; the first that fails decides. */
  function ParseAndValidate(event: map<string, Json>, services: Services): (r: Result<QuestionRequest, QuestionError>)
    ensures r.Err? ==> r.error.ValidationError? || r.error.AuthorizationError?
    ensures r.Ok? ==> services.authorized(r.value.email) && RegexAccepts(r.value.email) && Strip(r.value.question) != ""
  {
    var body :- ParseBody(event, services.loads);
    if !body.JDict? then Err(ValidationError("Request body must be a JSON object"))
    else
      var question := DictGet(body.fields, "question", JNull);
      var email := DictGet(body.fields, "email", JNull);
      if !Truthy(question) || !Truthy(email) then Err(ValidationError("Missing required fields: question and email"))
      else
        var request :- ValidateQuestionRequest(question, email);
        if !services.authorized(request.email) then Err(AuthorizationError("Email not authorized: " + request.email))
        else Ok(request)
  }

  // ---------------------------------------------------------------------
  // process_question
  // ---------------------------------------------------------------------

  /** setup_ai_services: both SDK keys must be present and non-empty. */
  function SetupServices(services: Services): (r: Result<(string, string), QuestionError>)
    ensures r.Ok? <==> !Missing(services.openaiKey) && !Missing(services.pineconeKey)
    ensures r.Err? ==> r.error == ConfigurationError("Failed to retrieve required API keys")
  {
    if Missing(services.openaiKey) || Missing(services.pineconeKey) then Err(ConfigurationError("Failed to retrieve required API keys"))
    else Ok((services.openaiKey.value, services.pineconeKey.value))
  }

  /** `[match['metadata'] for match in matches]` over the matches of a query response. */
  function MatchMetadata(matches: seq<Json>): (r: Result<seq<Json>, PyError>)
    ensures r.Ok? <==> forall k :: 0 <= k < |matches| ==> Lookup(matches[k], "metadata").Ok?
    ensures r.Ok? ==> |r.value| == |matches| && forall k :: 0 <= k < |matches| ==> r.value[k] == matches[k].fields["metadata"]
    decreases |matches|
  {
    if matches == [] then Ok([])
    else
      match MatchMetadata(matches[..|matches| - 1])
      case Err(e) => Err(e)
      case Ok(done) =>
        match Lookup(matches[|matches| - 1], "metadata")
        case Err(e) => Err(e)
        case Ok(m) => Ok(done + [m])
  }

  /** The metadata list of a query response: its `matches` must be a list whose items all carry metadata. */
  function Metadata(response: Json): Result<seq<Json>, PyError> {
    var matches :- Lookup(response, "matches");
    match matches
    case JList(xs) => MatchMetadata(xs)
    case JStr(s) => if s == [] then Ok([]) else Err(TypeError("string indices must be integers, not 'str'"))
    case JDict(m) => if m == map[] then Ok([]) else Err(TypeError("string indices must be integers, not 'str'"))
    case _ => Err(TypeError("'" + TypeName(matches) + "' object is not iterable"))
  }

  const ProcessingPrefix := "Failed to process question: "

  /** process_question: every failure, a missing SDK key included, is re-raised as a processing error. */
  function ProcessQuestion(request: QuestionRequest, services: Services): (r: Result<Json, QuestionError>)
    ensures r.Err? ==> r.error.ProcessingError?
    ensures r.Ok? ==> r.value.JDict? && r.value.fields.Keys == {"pinecone_matches"}
    ensures Missing(services.openaiKey) || Missing(services.pineconeKey) ==>
      r == Err(ProcessingError(ProcessingPrefix + "Failed to retrieve required API keys"))
  {
    match SetupServices(services)
    case Err(e) => Err(ProcessingError(ProcessingPrefix + e.message))
    case Ok(_) =>
      match services.query(request.question)
      case Err(m) => Err(ProcessingError(ProcessingPrefix + m))
      case Ok(response) =>
        match Metadata(response)
        case Err(e) => Err(ProcessingError(ProcessingPrefix + ErrorText(e)))
        case Ok(list) => Ok(JDict(map["pinecone_matches" := JList(list)]))
  }

  // ---------------------------------------------------------------------
  // lambda_handler
  // ---------------------------------------------------------------------

  /** The try block: the API key, then the request, then the question. */
  function Run(event: Json, services: Services): Result<Json, QuestionError> {
    match Get(event, "headers", JDict(map[]))
    case Err(e) => Err(Unexpected(e))
    case Ok(headers) =>
      var _ :- ValidateApiKey(headers, services.apiKey);
      // Get succeeded, so the event is a dict
      var request :- ParseAndValidate(event.fields, services);
      ProcessQuestion(request, services)
  }

  /** lambda_handler: the result as a 200, or the response of the except clause that catches the error. */
  function Handle(event: Json, services: Services): (r: ApiResponse)
    ensures r.headers == JsonHeaders
    ensures r.statusCode in {200, 400, 401, 500}
  {
    match Run(event, services)
    case Ok(result) => CreateResponse(200, result)
    case Err(e) => ErrorResponse(e)
  }

  /** With a valid key, the answer is decided by the request check and then by process_question. */
  lemma RunWithValidKey(event: map<string, Json>, services: Services)
    requires ValidateApiKey(DictGet(event, "headers", JDict(map[])), services.apiKey).Ok?
    ensures var p := ParseAndValidate(event, services);
      Run(JDict(event), services) == if p.Err? then Err(p.error) else ProcessQuestion(p.value, services)
  {
  }

  /** The API key is checked first: a request without a valid key is a 401 whatever its body. */
  lemma ApiKeyCheckedFirst(event: map<string, Json>, services: Services)
    requires var headers := DictGet(event, "headers", JDict(map[]));
      headers.JDict? && ValidateApiKey(headers, services.apiKey).Err?
    ensures Handle(JDict(event), services).statusCode == 401
    ensures Handle(JDict(event), services).body == ErrorBody(ValidateApiKey(DictGet(event, "headers", JDict(map[])), services.apiKey).error.message)
  {
  }

  /** An event without headers has no API key: 'Missing API key', 401. */
  lemma NoHeadersUnauthorized(event: map<string, Json>, services: Services)
    requires "headers" !in event
    ensures Handle(JDict(event), services) == CreateResponse(401, ErrorBody("Missing API key"))
  {
  }

  /** With a valid key, a failed check of the request answers 400 or 401 with that check's message. */
  lemma RequestErrorsReported(event: map<string, Json>, services: Services)
    requires ValidateApiKey(DictGet(event, "headers", JDict(map[])), services.apiKey).Ok?
    requires ParseAndValidate(event, services).Err?
    ensures var e := ParseAndValidate(event, services).error;
      Handle(JDict(event), services) == CreateResponse(if e.ValidationError? then 400 else 401, ErrorBody(e.message))
  {
  }

  /** An unauthorised e-mail address is a 401, not the 403 the earlier handler gave. */
  lemma UnauthorisedEmail(event: map<string, Json>, services: Services, question: string, email: string)
    requires ValidateApiKey(DictGet(event, "headers", JDict(map[])), services.apiKey).Ok?
    requires "body" in event && event["body"] == JDict(map["question" := JStr(question), "email" := JStr(email)])
    requires Strip(question) != "" && RegexAccepts(email) && !services.authorized(email)
    ensures Handle(JDict(event), services) == CreateResponse(401, ErrorBody("Email not authorized: " + email))
  {
    UnauthorisedRequest(event, services, question, email);
    RunWithValidKey(event, services);
  }

  lemma UnauthorisedRequest(event: map<string, Json>, services: Services, question: string, email: string)
    requires "body" in event && event["body"] == JDict(map["question" := JStr(question), "email" := JStr(email)])
    requires Strip(question) != "" && RegexAccepts(email) && !services.authorized(email)
    ensures ParseAndValidate(event, services) == Err(AuthorizationError("Email not authorized: " + email))
  {
    assert email != "" by {
      assert !RegexAccepts("");
    }
    assert question != "";
    var fields := map["question" := JStr(question), "email" := JStr(email)];
    assert ParseBody(event, services.loads) == Ok(JDict(fields));
    assert DictGet(fields, "question", JNull) == JStr(question) && DictGet(fields, "email", JNull) == JStr(email);
    assert Truthy(JStr(question)) && Truthy(JStr(email));
    assert ValidateQuestionRequest(JStr(question), JStr(email)) == Ok(QuestionRequest(question, email));
    ValidBodyDecidedByAccess(event, services, fields);
  }

  /** Once the body is a dict with a valid question and e-mail, only the access list decides. */
  lemma ValidBodyDecidedByAccess(event: map<string, Json>, services: Services, fields: map<string, Json>)
    requires ParseBody(event, services.loads) == Ok(JDict(fields))
    requires Truthy(DictGet(fields, "question", JNull)) && Truthy(DictGet(fields, "email", JNull))
    requires ValidateQuestionRequest(DictGet(fields, "question", JNull), DictGet(fields, "email", JNull)).Ok?
    ensures var request := ValidateQuestionRequest(DictGet(fields, "question", JNull), DictGet(fields, "email", JNull)).value;
      ParseAndValidate(event, services) ==
        if services.authorized(request.email) then Ok(request) else Err(AuthorizationError("Email not authorized: " + request.email))
  {
  }

  /** Missing SDK keys raise ConfigurationError, but process_question re-wraps it: the client sees 'Error processing request'. */
  lemma MissingKeysReportedAsProcessingError(event: map<string, Json>, services: Services)
    requires ValidateApiKey(DictGet(event, "headers", JDict(map[])), services.apiKey).Ok?
    requires ParseAndValidate(event, services).Ok?
    requires Missing(services.openaiKey) || Missing(services.pineconeKey)
    ensures Handle(JDict(event), services) == CreateResponse(500, ErrorBody("Error processing request"))
  {
  }

  /** The ConfigurationError clause is never what answers: every 500 carries one of the two generic messages, and a configuration failure the processing one. */
  lemma ConfigurationClauseUnreachable(event: Json, services: Services)
    ensures Run(event, services).Err? ==> !Run(event, services).error.ConfigurationError?
  {
  }

  /** A valid request answers 200 with the metadata of every match, in the order of the matches. */
  lemma AnswerHoldsMatchMetadata(event: map<string, Json>, services: Services, matches: seq<Json>)
    requires ValidateApiKey(DictGet(event, "headers", JDict(map[])), services.apiKey).Ok?
    requires ParseAndValidate(event, services).Ok?
    requires !Missing(services.openaiKey) && !Missing(services.pineconeKey)
    requires services.query(ParseAndValidate(event, services).value.question) == Ok(JDict(map["matches" := JList(matches)]))
    requires forall k :: 0 <= k < |matches| ==> matches[k].JDict? && "metadata" in matches[k].fields
    ensures var r := Handle(JDict(event), services);
      r.statusCode == 200 && r.body.JDict? && "pinecone_matches" in r.body.fields &&
      r.body.fields["pinecone_matches"].JList? && |r.body.fields["pinecone_matches"].items| == |matches| &&
      forall k :: 0 <= k < |matches| ==> r.body.fields["pinecone_matches"].items[k] == matches[k].fields["metadata"]
  {
    var request := ParseAndValidate(event, services).value;
    ProcessedMatches(request, services, matches);
    RunWithValidKey(event, services);
  }

  lemma ProcessedMatches(request: QuestionRequest, services: Services, matches: seq<Json>)
    requires !Missing(services.openaiKey) && !Missing(services.pineconeKey)
    requires services.query(request.question) == Ok(JDict(map["matches" := JList(matches)]))
    requires forall k :: 0 <= k < |matches| ==> matches[k].JDict? && "metadata" in matches[k].fields
    ensures MatchMetadata(matches).Ok?
    ensures ProcessQuestion(request, services) == Ok(JDict(map["pinecone_matches" := JList(MatchMetadata(matches).value)]))
  {
    assert MatchMetadata(matches).Ok?;
    MetadataOfMatches(matches);
    assert SetupServices(services).Ok?;
  }

  lemma MetadataOfMatches(matches: seq<Json>)
    ensures Metadata(JDict(map["matches" := JList(matches)])) == MatchMetadata(matches)
  {
    var response := JDict(map["matches" := JList(matches)]);
    assert Lookup(response, "matches") == Ok(JList(matches));
  }

  // ---------------------------------------------------------------------
  // validate_request (used only by the earlier, rebound lambda_handler)
  // ---------------------------------------------------------------------

  /**
   * validate_request: (is_valid, error_message). With both fields missing
   * the message lists them in the iteration order of a two-element set of
   * str, which depends on string hashing; `questionFirst` stands for it.
   */
  function ValidateRequest(body: Json, authorized: string -> bool, questionFirst: bool): (r: Result<(bool, string), PyError>)
    ensures r.Ok? <==> body.JDict?
    ensures r.Ok? ==> (r.value.0 <==> r.value.1 == "")
    ensures r.Ok? && r.value.0 ==>
      "question" in body.fields && "email" in body.fields && NonBlankString(body.fields["question"]) && body.fields["email"].JStr? &&
      RegexAccepts(body.fields["email"].s) && authorized(body.fields["email"].s)
  {
    match body
    case JDict(m) =>
      if "question" !in m || "email" !in m then
        var names :=
          if "question" in m then "email"
          else if "email" in m then "question"
          else if questionFirst then "question, email" else "email, question";
        Ok((false, "Missing required fields: " + names))
      else if !NonBlankString(m["question"]) then Ok((false, "Question must be a non-empty string"))
      else if !m["email"].JStr? || !ValidateEmail(m["email"].s) then Ok((false, "Invalid email format"))
      else if !authorized(m["email"].s) then Ok((false, "Email not authorized"))
      else Ok((true, ""))
    case _ => Err(AttributeError(TypeName(body), "keys"))
  }

  /** validate_request reports missing fields before a malformed question, e-mail or authorisation. */
  lemma MissingFieldsReportedFirst(m: map<string, Json>, authorized: string -> bool, questionFirst: bool)
    requires "question" !in m || "email" !in m
    ensures var r := ValidateRequest(JDict(m), authorized, questionFirst);
      r.Ok? && !r.value.0 && StartsWith(r.value.1, "Missing required fields: ")
  {
  }

  /** A well-formed request fails validate_request only by authorisation, and then with 'Email not authorized'. */
  lemma AuthorizationCheckedLast(m: map<string, Json>, authorized: string -> bool, questionFirst: bool)
    requires "question" in m && "email" in m && NonBlankString(m["question"])
    requires m["email"].JStr? && RegexAccepts(m["email"].s)
    ensures ValidateRequest(JDict(m), authorized, questionFirst) ==
      Ok(if authorized(m["email"].s) then (true, "") else (false, "Email not authorized"))
  {
  }
}
