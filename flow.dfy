/**
 * How the two pages and the route fit together: what the home page sends always passes the
 * route's validation, what the route answers reaches the home page unchanged, and what the home
 * page stores is what the results page and a later visit to the home page read back.
 */
module SearchFlow {
  import opened Wrappers
  import opened JsText
  import opened BrowserStorage
  import UseCaseRoute
  import HomePage
  import ResultsPage

  /** The request the route reads from the JSON body the home page posts. */
  function ToRequestBody(sent: HomePage.SearchRequest): (body: UseCaseRoute.RequestBody)
    ensures body.companyName == Some(sent.companyName) && body.description == Some(sent.description)
  {
    UseCaseRoute.RequestBody(Some(sent.companyName), Some(sent.description))
  }

  /** The fetch outcome the home page sees for an answer of the route: `response.ok` holds for a
      2xx status, and the JSON carries either `useCases` or `error`. */
  function Received(response: UseCaseRoute.Response): (result: HomePage.FetchResult)
    ensures result.Responded?
    ensures response.Found? ==> result.ok && result.data.useCases == Some(response.useCases)
    ensures response.Failed? ==>
      result.ok == (200 <= response.status < 300) && result.data.error == Some(response.error)
  {
    match response
    case Found(useCases, _) => HomePage.Responded(true, HomePage.ResponseData(None, Some(useCases)))
    case Failed(status, error) =>
      HomePage.Responded(200 <= status < 300, HomePage.ResponseData(Some(error), None))
  }

  /** Every request the home page sends has a description that is not all whitespace, so the
      route accepts it, and the route embeds
      exactly the trimmed description, after the trimmed company name when that is not empty. */
  lemma SentRequestAccepted(companyName: string, description: string)
    requires !AllWhitespace(description)
    ensures !AllWhitespace(HomePage.Validated(companyName, description).value.description)
    ensures var body := ToRequestBody(HomePage.Validated(companyName, description).value);
            && UseCaseRoute.Present(body.description)
            && UseCaseRoute.EmbeddingRequestFor(body).input
               == (if AllWhitespace(companyName) then "Description: " + Trim(description)
                   else "Company: " + Trim(companyName) + ". Description: " + Trim(description))
  {
  }

  /** The route's own check is weaker than the page's: a non-empty description made only of
      whitespace passes it and is sent to the embedding service, although the page never
      sends one. */
  lemma RouteAcceptsBlankDescription(
    env: UseCaseRoute.Env,
    embed: UseCaseRoute.EmbeddingRequest -> UseCaseRoute.Remote<UseCaseRoute.Vector>,
    query: UseCaseRoute.QueryRequest -> UseCaseRoute.Remote<seq<UseCaseRoute.Match>>,
    companyName: string,
    description: string)
    requires UseCaseRoute.Present(env.openAiApiKey)
    requires description != "" && AllWhitespace(description)
    ensures HomePage.Validated(companyName, description).None?
    ensures var calls := UseCaseRoute.Handle(env, embed, query,
                           UseCaseRoute.Json(UseCaseRoute.RequestBody(None, Some(description)))).calls;
            |calls| >= 1 && calls[0] == UseCaseRoute.Embed(UseCaseRoute.EmbeddingRequest(
              UseCaseRoute.EmbeddingModel, "Description: " + description, UseCaseRoute.EmbeddingDimensions))
  {
  }

  /** Every error the route answers is shown on the home page with the route's own message. */
  lemma RouteErrorShown(
    env: UseCaseRoute.Env,
    embed: UseCaseRoute.EmbeddingRequest -> UseCaseRoute.Remote<UseCaseRoute.Vector>,
    query: UseCaseRoute.QueryRequest -> UseCaseRoute.Remote<seq<UseCaseRoute.Match>>,
    request: UseCaseRoute.Request)
    ensures var response := UseCaseRoute.Handle(env, embed, query, request).result;
            response.Failed? ==>
              !HomePage.Succeeded(Received(response))
              && HomePage.FailureMessage(Received(response)) == response.error
  {
    UseCaseRoute.ErrorsCarryMessage(env, embed, query, request);
  }

  /** What the home page stores after a successful search reads back as the same project: the
      fields that were sent, and the use cases the route listed; the results page lists them
      exactly when there is at least one, which is also when the home page offers them again. */
  lemma StoredSearchRoundTrip(
    items: map<string, StoredItem>, sent: HomePage.SearchRequest, useCases: seq<UseCaseRoute.UseCase>, now: int)
    ensures var stored := items[CurrentProjectKey := Project(HomePage.Snapshot(sent, useCases, now))];
            var p := CurrentProject(stored);
            && p.Some?
            && p.value.companyName.GetOr("") == sent.companyName
            && p.value.description.GetOr("") == sent.description
            && p.value.useCases == Some(useCases)
            && (HomePage.HasUseCases(p.value) <==> |useCases| > 0)
            && (ResultsPage.NoResults(p) <==> |useCases| == 0)
  {
  }

  /** A successful route answer is stored with exactly the use cases it listed, in order. */
  lemma FoundIsStored(response: UseCaseRoute.Response)
    requires response.Found?
    ensures HomePage.Succeeded(Received(response))
    ensures Received(response).data.useCases.GetOr([]) == response.useCases
  {
  }
}
