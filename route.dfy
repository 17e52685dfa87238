/**
 * The server route `POST /api/use-cases`: validate the request, compose the query text, turn it
 * into an embedding with the embedding service, query the vector index for the ten nearest
 * use cases and shape them into the response `{useCases, count}`.
 *
 * The two remote services are stubs held by a `Services` object: each call is answered by a
 * fixed function (a value, or a thrown error with its message) and appended to a call log, so
 * that which calls a request makes, in which order and with which arguments, is part of what the
 * model states. The pure functions `Embedding`, `Pipeline` and `Handle` specify the methods
 * `GenerateEmbedding`, `SearchUseCases` and `Post`; the lemmas at the end are about them.
 */
module UseCaseRoute {
  import opened Wrappers
  import opened JsText

  const EmbeddingModel: string := "text-embedding-3-small"
  const EmbeddingDimensions: nat := 1536
  const DefaultIndexName: string := "partner-use-cases"
  const TopK: nat := 10

  const DescriptionRequired: string := "Description is required"
  const OpenAiKeyMissing: string := "OPENAI_API_KEY is not set"
  const PineconeKeyMissing: string := "PINECONE_API_KEY is not set"
  const EmbeddingFailurePrefix: string := "Failed to generate embedding: "
  const SearchFailureFallback: string := "Failed to search use cases"

  /** The process environment the route reads at start-up; an unset variable is `None`. */
  datatype Env = Env(
    pineconeApiKey: Option<string>,
    pineconeIndexName: Option<string>,
    openAiApiKey: Option<string>)

  /** An optional string value is truthy when it is present and not empty. */
  predicate Present(v: Option<string>) {
    v.Some? && Truthy(v.value)
  }

  /** An embedding vector; its components are computed remotely and only passed along. */
  type Vector = seq<real>

  /** The metadata the index stores with each use case; any field may be missing. */
  datatype Metadata = Metadata(
    title: Option<string>,
    partnerName: Option<string>,
    url: Option<string>,
    text: Option<string>)

  /** One match of an index query: its metadata (if included) and its similarity score. */
  datatype Match = Match(metadata: Option<Metadata>, score: Option<real>)

  /** One entry of the response. */
  datatype UseCase = UseCase(title: string, partnerName: string, url: string, text: string, score: real)

  /** The JSON body of a request; a field that is missing or `null` is `None`. */
  datatype RequestBody = RequestBody(companyName: Option<string>, description: Option<string>)

  /** An incoming request: a body that reads as JSON, or one whose reading throws `message`. */
  datatype Request = Json(body: RequestBody) | Malformed(message: string)

  /** What the route answers: `{useCases, count}` with status 200, or `{error}` with a status. */
  datatype Response = Found(useCases: seq<UseCase>, count: nat) | Failed(status: nat, error: string)

  /** The outcome of a step that may throw: a value, or an error carrying its message. */
  datatype Remote<T> = Returned(value: T) | Threw(message: string)

  /** The arguments of one call to each remote service. */
  datatype EmbeddingRequest = EmbeddingRequest(model: string, input: string, dimensions: nat)
  datatype QueryRequest = QueryRequest(indexName: string, vector: Vector, topK: nat, includeMetadata: bool)

  /** An entry of the call log. */
  datatype Call = Embed(embedding: EmbeddingRequest) | Query(query: QueryRequest)

  /** A result together with the remote calls made to compute it, in order. */
  datatype Run<T> = Run(result: T, calls: seq<Call>)

  /** The index name: the configured one, or "partner-use-cases" when it is unset or empty. */
  function IndexName(env: Env): (name: string)
    ensures name != ""
    ensures Present(env.pineconeIndexName) ==> name == env.pineconeIndexName.value
    ensures !Present(env.pineconeIndexName) ==> name == DefaultIndexName
  {
    if Present(env.pineconeIndexName) then env.pineconeIndexName.value else DefaultIndexName
  }

  /** The text that is embedded: the description, preceded by the company name when one is given. */
  function QueryText(companyName: Option<string>, description: string): string {
    if Present(companyName) then
      "Company: " + companyName.value + ". Description: " + description
    else
      "Description: " + description
  }

  /** The query text always ends with the description; a truthy company name stands after
      "Company: " and is followed by ". Description: ". */
  lemma QueryTextShape(companyName: Option<string>, description: string)
    ensures var text := QueryText(companyName, description);
            && |description| <= |text| && text[|text| - |description|..] == description
            && (Present(companyName) ==>
                  && |text| == 24 + |companyName.value| + |description|
                  && text[..9] == "Company: " && text[9..9 + |companyName.value|] == companyName.value
                  && text[9 + |companyName.value|..24 + |companyName.value|] == ". Description: ")
            && (!Present(companyName) ==> text == "Description: " + description)
  {
  }

  /** The response entry for one match: each metadata field, or "" when it (or all metadata) is
      missing or empty, and the score, or 0 when it is missing. */
  function ToUseCase(m: Match): (u: UseCase)
    ensures m.metadata.None? ==> u.title == "" && u.partnerName == "" && u.url == "" && u.text == ""
    ensures m.metadata.Some? ==>
      && u.title == m.metadata.value.title.GetOr("")
      && u.partnerName == m.metadata.value.partnerName.GetOr("")
      && u.url == m.metadata.value.url.GetOr("")
      && u.text == m.metadata.value.text.GetOr("")
    ensures u.score == m.score.GetOr(0.0)
  {
    var md := m.metadata.GetOr(Metadata(None, None, None, None));
    UseCase(md.title.GetOr(""), md.partnerName.GetOr(""), md.url.GetOr(""), md.text.GetOr(""),
            m.score.GetOr(0.0))
  }

  /** `matches.map(...)`: one entry per match, in the order the index ranked them. */
  function Project(matches: seq<Match>): (useCases: seq<UseCase>)
    ensures |useCases| == |matches|
    ensures forall i :: 0 <= i < |matches| ==> useCases[i] == ToUseCase(matches[i])
  {
    if matches == [] then [] else [ToUseCase(matches[0])] + Project(matches[1..])
  }

  /** `generateEmbedding`: fails without a call when the OpenAI key is unset, otherwise makes one
      embedding call and wraps a failure of it. */
  function Embedding(env: Env, embed: EmbeddingRequest -> Remote<Vector>, text: string): (r: Run<Remote<Vector>>)
    ensures r.calls == [] <==> !Present(env.openAiApiKey)
    ensures !Present(env.openAiApiKey) ==> r.result == Threw(OpenAiKeyMissing)
    ensures Present(env.openAiApiKey) ==>
              r.calls == [Embed(EmbeddingRequest(EmbeddingModel, text, EmbeddingDimensions))]
    ensures r.result.Returned? ==> Present(env.openAiApiKey)
  {
    if !Present(env.openAiApiKey) then
      Run(Threw(OpenAiKeyMissing), [])
    else
      var request := EmbeddingRequest(EmbeddingModel, text, EmbeddingDimensions);
      match embed(request)
      case Returned(v) => Run(Returned(v), [Embed(request)])
      case Threw(m) => Run(Threw(EmbeddingFailurePrefix + m), [Embed(request)])
  }

  /** The `try` block of the handler: the response it returns, or the error it throws. */
  function Pipeline(
    env: Env,
    embed: EmbeddingRequest -> Remote<Vector>,
    query: QueryRequest -> Remote<seq<Match>>,
    request: Request): Run<Remote<Response>>
  {
    match request
    case Malformed(m) => Run(Threw(m), [])
    case Json(body) =>
      if !Present(body.description) then
        Run(Returned(Failed(400, DescriptionRequired)), [])
      else
        var e := Embedding(env, embed, QueryText(body.companyName, body.description.value));
        match e.result
        case Threw(m) => Run(Threw(m), e.calls)
        case Returned(v) =>
          if !Present(env.pineconeApiKey) then
            Run(Returned(Failed(500, PineconeKeyMissing)), e.calls)
          else
            var q := QueryRequest(IndexName(env), v, TopK, true);
            match query(q)
            case Threw(m) => Run(Threw(m), e.calls + [Query(q)])
            case Returned(matches) =>
              var useCases := Project(matches);
              Run(Returned(Found(useCases, |useCases|)), e.calls + [Query(q)])
  }

  /** The `catch` block: a thrown error becomes status 500 with its message, or a fixed text
      when the message is empty. */
  function Catch(outcome: Remote<Response>): (response: Response)
    ensures outcome.Returned? ==> response == outcome.value
    ensures outcome.Threw? ==> response.Failed? && response.status == 500 && response.error != ""
    ensures outcome.Threw? && outcome.message != "" ==> response.error == outcome.message
  {
    match outcome
    case Returned(r) => r
    case Threw(m) => Failed(500, if m != "" then m else SearchFailureFallback)
  }

  /** The whole handler. */
  function Handle(
    env: Env,
    embed: EmbeddingRequest -> Remote<Vector>,
    query: QueryRequest -> Remote<seq<Match>>,
    request: Request): Run<Response>
  {
    var p := Pipeline(env, embed, query, request);
    Run(Catch(p.result), p.calls)
  }

  /** The embedding service and the vector index, as stubs that log every call. */
  class Services {
    const embed: EmbeddingRequest -> Remote<Vector>
    const query: QueryRequest -> Remote<seq<Match>>
    var log: seq<Call>

    constructor (embed: EmbeddingRequest -> Remote<Vector>, query: QueryRequest -> Remote<seq<Match>>)
      ensures this.embed == embed && this.query == query && log == []
    {
      this.embed := embed;
      this.query := query;
      log := [];
    }

    /** `openai.embeddings.create(...)`, answering with the vector of the first result. */
    method CreateEmbedding(request: EmbeddingRequest) returns (r: Remote<Vector>)
      modifies this
      ensures r == embed(request) && log == old(log) + [Embed(request)]
    {
      r := embed(request);
      log := log + [Embed(request)];
    }

    /** `index.query(...)`, answering with the matches. */
    method QueryIndex(request: QueryRequest) returns (r: Remote<seq<Match>>)
      modifies this
      ensures r == query(request) && log == old(log) + [Query(request)]
    {
      r := query(request);
      log := log + [Query(request)];
    }
  }

  method GenerateEmbedding(env: Env, services: Services, text: string) returns (r: Remote<Vector>)
    modifies services
    ensures r == Embedding(env, services.embed, text).result
    ensures services.log == old(services.log) + Embedding(env, services.embed, text).calls
  {
    if !Present(env.openAiApiKey) {
      return Threw(OpenAiKeyMissing);
    }
    var response := services.CreateEmbedding(EmbeddingRequest(EmbeddingModel, text, EmbeddingDimensions));
    match response
    case Returned(v) =>
      r := Returned(v);
    case Threw(m) =>
      r := Threw(EmbeddingFailurePrefix + m);
  }

  /** The body of the handler's `try` block, step by step with its early returns. */
  method SearchUseCases(env: Env, services: Services, request: Request) returns (r: Remote<Response>)
    modifies services
    ensures r == Pipeline(env, services.embed, services.query, request).result
    ensures services.log == old(services.log) + Pipeline(env, services.embed, services.query, request).calls
  {
    if request.Malformed? {
      return Threw(request.message);
    }
    var body := request.body;
    if !Present(body.description) {
      return Returned(Failed(400, DescriptionRequired));
    }
    var searchQuery := QueryText(body.companyName, body.description.value);
    var queryEmbedding := GenerateEmbedding(env, services, searchQuery);
    if queryEmbedding.Threw? {
      return Threw(queryEmbedding.message);
    }
    if !Present(env.pineconeApiKey) {
      return Returned(Failed(500, PineconeKeyMissing));
    }
    if !Present(env.openAiApiKey) {
      // The second OpenAI key check cannot fire: GenerateEmbedding has already thrown.
      assert false;
    }
    var searchResults := services.QueryIndex(QueryRequest(IndexName(env), queryEmbedding.value, TopK, true));
    if searchResults.Threw? {
      return Threw(searchResults.message);
    }
    var useCases := Project(searchResults.value);
    return Returned(Found(useCases, |useCases|));
  }

  /** `POST /api/use-cases`. */
  method Post(env: Env, services: Services, request: Request) returns (response: Response)
    modifies services
    ensures response == Handle(env, services.embed, services.query, request).result
    ensures services.log == old(services.log) + Handle(env, services.embed, services.query, request).calls
  {
    var outcome := SearchUseCases(env, services, request);
    match outcome
    case Returned(r) =>
      response := r;
    case Threw(m) =>
      response := Failed(500, if m != "" then m else SearchFailureFallback);
  }

  // ---------------------------------------------------------------------------------------------
  // Properties of the handler

  /** The embedding call a valid request makes. */
  function EmbeddingRequestFor(body: RequestBody): EmbeddingRequest
    requires Present(body.description)
  {
    EmbeddingRequest(EmbeddingModel, QueryText(body.companyName, body.description.value), EmbeddingDimensions)
  }

  /** Status 400 is answered exactly to a readable request without a description, and then with
      "Description is required" and without any remote call. */
  lemma BadRequestIffNoDescription(
    env: Env, embed: EmbeddingRequest -> Remote<Vector>, query: QueryRequest -> Remote<seq<Match>>,
    request: Request)
    ensures var h := Handle(env, embed, query, request);
            (h.result.Failed? && h.result.status == 400) <==> (request.Json? && !Present(request.body.description))
    ensures request.Json? && !Present(request.body.description) ==>
            Handle(env, embed, query, request) == Run(Failed(400, DescriptionRequired), [])
  {
  }

  /** No remote call is made exactly when the request is unreadable, has no description, or the
      OpenAI key is unset. */
  lemma NoCallsIff(
    env: Env, embed: EmbeddingRequest -> Remote<Vector>, query: QueryRequest -> Remote<seq<Match>>,
    request: Request)
    ensures Handle(env, embed, query, request).calls == [] <==>
            (request.Malformed? || !Present(request.body.description) || !Present(env.openAiApiKey))
  {
  }

  /** Without the OpenAI key a valid request fails with status 500 before any remote call. */
  lemma MissingOpenAiKey(
    env: Env, embed: EmbeddingRequest -> Remote<Vector>, query: QueryRequest -> Remote<seq<Match>>,
    body: RequestBody)
    requires Present(body.description) && !Present(env.openAiApiKey)
    ensures Handle(env, embed, query, Json(body)) == Run(Failed(500, OpenAiKeyMissing), [])
  {
  }

  /** A failing embedding call fails the request with the wrapped message; the index is not queried. */
  lemma EmbeddingFailure(
    env: Env, embed: EmbeddingRequest -> Remote<Vector>, query: QueryRequest -> Remote<seq<Match>>,
    body: RequestBody, m: string)
    requires Present(body.description) && Present(env.openAiApiKey)
    requires embed(EmbeddingRequestFor(body)) == Threw(m)
    ensures Handle(env, embed, query, Json(body))
         == Run(Failed(500, EmbeddingFailurePrefix + m), [Embed(EmbeddingRequestFor(body))])
  {
  }

  /** Without the Pinecone key the request fails after the embedding call and before any query. */
  lemma MissingPineconeKey(
    env: Env, embed: EmbeddingRequest -> Remote<Vector>, query: QueryRequest -> Remote<seq<Match>>,
    body: RequestBody)
    requires Present(body.description) && Present(env.openAiApiKey) && !Present(env.pineconeApiKey)
    requires embed(EmbeddingRequestFor(body)).Returned?
    ensures Handle(env, embed, query, Json(body))
         == Run(Failed(500, PineconeKeyMissing), [Embed(EmbeddingRequestFor(body))])
  {
  }

  /** A failing index query fails the request with its message (or the fixed text when empty). */
  lemma SearchFailure(
    env: Env, embed: EmbeddingRequest -> Remote<Vector>, query: QueryRequest -> Remote<seq<Match>>,
    body: RequestBody, v: Vector, m: string)
    requires Present(body.description) && Present(env.openAiApiKey) && Present(env.pineconeApiKey)
    requires embed(EmbeddingRequestFor(body)) == Returned(v)
    requires query(QueryRequest(IndexName(env), v, TopK, true)) == Threw(m)
    ensures Handle(env, embed, query, Json(body))
         == Run(Failed(500, if m == "" then SearchFailureFallback else m),
                [Embed(EmbeddingRequestFor(body)), Query(QueryRequest(IndexName(env), v, TopK, true))])
  {
  }

  /** When both calls succeed the response lists the projected matches in order, with their count. */
  lemma SearchSuccess(
    env: Env, embed: EmbeddingRequest -> Remote<Vector>, query: QueryRequest -> Remote<seq<Match>>,
    body: RequestBody, v: Vector, matches: seq<Match>)
    requires Present(body.description) && Present(env.openAiApiKey) && Present(env.pineconeApiKey)
    requires embed(EmbeddingRequestFor(body)) == Returned(v)
    requires query(QueryRequest(IndexName(env), v, TopK, true)) == Returned(matches)
    ensures Handle(env, embed, query, Json(body))
         == Run(Found(Project(matches), |matches|),
                [Embed(EmbeddingRequestFor(body)), Query(QueryRequest(IndexName(env), v, TopK, true))])
  {
  }

  /** The call log: at most one embedding call, first, and at most one index query, second, made
      only after the embedding succeeded, with its vector unchanged, ten neighbours and metadata. */
  lemma SearchOnlyAfterEmbedding(
    env: Env, embed: EmbeddingRequest -> Remote<Vector>, query: QueryRequest -> Remote<seq<Match>>,
    request: Request)
    ensures var calls := Handle(env, embed, query, request).calls;
            && |calls| <= 2
            && (|calls| >= 1 ==> calls[0].Embed? && request.Json? && Present(request.body.description)
                                 && calls[0].embedding == EmbeddingRequestFor(request.body))
            && (forall i :: 0 <= i < |calls| && calls[i].Query? ==>
                  && i == 1
                  && embed(calls[0].embedding) == Returned(calls[i].query.vector)
                  && calls[i].query == QueryRequest(IndexName(env), calls[i].query.vector, TopK, true))
  {
    var calls := Handle(env, embed, query, request).calls;
    if |calls| >= 1 {
      assert request.Json? && Present(request.body.description);
      var body := request.body;
      assert Embedding(env, embed, QueryText(body.companyName, body.description.value)).calls
           == [Embed(EmbeddingRequestFor(body))];
    }
  }

  /** A success answer implies a readable request with a description and both keys set (so the
      second OpenAI key check is never what answers), two calls, and a count equal to the length. */
  lemma FoundImpliesConfigured(
    env: Env, embed: EmbeddingRequest -> Remote<Vector>, query: QueryRequest -> Remote<seq<Match>>,
    request: Request)
    ensures var h := Handle(env, embed, query, request);
            h.result.Found? ==>
              && request.Json? && Present(request.body.description)
              && Present(env.openAiApiKey) && Present(env.pineconeApiKey)
              && |h.calls| == 2
              && h.result.count == |h.result.useCases|
  {
  }

  /** An index that honours `topK` yields at most ten use cases. */
  lemma FoundWithinTopK(
    env: Env, embed: EmbeddingRequest -> Remote<Vector>, query: QueryRequest -> Remote<seq<Match>>,
    request: Request)
    requires forall q :: query(q).Returned? ==> |query(q).value| <= q.topK
    ensures var h := Handle(env, embed, query, request);
            h.result.Found? ==> |h.result.useCases| <= TopK
  {
  }

  /** Every error answer has status 400 or 500 and a message that is not empty. */
  lemma ErrorsCarryMessage(
    env: Env, embed: EmbeddingRequest -> Remote<Vector>, query: QueryRequest -> Remote<seq<Match>>,
    request: Request)
    ensures var h := Handle(env, embed, query, request);
            h.result.Failed? ==> (h.result.status == 400 || h.result.status == 500) && h.result.error != ""
  {
  }

  /** The worked example: company "Acme", description "cloud cost optimization", stubs that answer
      the expected calls with the vector [0.1, 0.2, 0.3] and one match with score 0.87. */
  const AcmeText: string := "Company: Acme. Description: cloud cost optimization"
  const AcmeVector: Vector := [0.1, 0.2, 0.3]
  const AcmeMatch: Match :=
    Match(Some(Metadata(Some("Case A"), Some("PartnerX"), Some("http://x"), Some("..."))), Some(0.87))

  function AcmeEmbed(r: EmbeddingRequest): Remote<Vector> {
    if r.model == EmbeddingModel then Returned(AcmeVector) else Threw("unexpected model")
  }

  function AcmeQuery(q: QueryRequest): Remote<seq<Match>> {
    if q.vector == AcmeVector then Returned([AcmeMatch]) else Threw("unexpected vector")
  }

  lemma AcmeQueryText()
    ensures QueryText(Some("Acme"), "cloud cost optimization") == AcmeText
  {
    assert Present(Some("Acme"));
    assert "Company: " + "Acme" + ". Description: " == "Company: Acme. Description: ";
  }

  lemma AcmeProjection()
    ensures Project([AcmeMatch]) == [UseCase("Case A", "PartnerX", "http://x", "...", 0.87)]
  {
    assert ToUseCase(AcmeMatch) == UseCase("Case A", "PartnerX", "http://x", "...", 0.87);
  }

  lemma AcmeExample()
    ensures var h := Handle(Env(Some("pc-key"), None, Some("openai-key")), AcmeEmbed, AcmeQuery,
                            Json(RequestBody(Some("Acme"), Some("cloud cost optimization"))));
            && h.result == Found([UseCase("Case A", "PartnerX", "http://x", "...", 0.87)], 1)
            && h.calls == [Embed(EmbeddingRequest(EmbeddingModel, AcmeText, EmbeddingDimensions)),
                           Query(QueryRequest(DefaultIndexName, AcmeVector, TopK, true))]
  {
    var env := Env(Some("pc-key"), None, Some("openai-key"));
    var body := RequestBody(Some("Acme"), Some("cloud cost optimization"));
    AcmeQueryText();
    AcmeProjection();
    assert IndexName(env) == DefaultIndexName;
    SearchSuccess(env, AcmeEmbed, AcmeQuery, body, AcmeVector, [AcmeMatch]);
  }
}
