/**
 * The home page: a form with a company name and a description. On mount it restores the fields
 * from a stored search; on submit it validates the description, forgets the stored search, posts
 * the trimmed fields to the route and, when the answer arrives, stores the new search or shows the
 * error. It also composes a prompt for an external search engine from the company name.
 *
 * `handleSubmit` is asynchronous: `Submit` is the part before the request is sent, returning the
 * request; `Complete` is the part after it, given the fetch outcome and the request that the
 * submit captured.
 */
module HomePage {
  import opened Wrappers
  import opened JsText
  import opened BrowserStorage
  import UseCaseRoute

  const DescriptionRequired: string := "Description is required"
  const FetchFailed: string := "Failed to fetch use cases"
  const GenericError: string := "An error occurred"
  const PromptPrefix: string := "give me an extensive description of "
  const PlaceholderPrompt: string := "give me an extensive description of [company name]"

  /** The JSON body the page posts: both fields trimmed. */
  datatype SearchRequest = SearchRequest(companyName: string, description: string)

  /** The parsed JSON of a response: its `error` and `useCases` fields, either possibly missing. */
  datatype ResponseData = ResponseData(error: Option<string>, useCases: Option<seq<UseCaseRoute.UseCase>>)

  /** How a fetch ends: a response (with `response.ok`) whose body was read, or a thrown error
      (the network failed or the body could not be read as JSON). */
  datatype FetchResult = Responded(ok: bool, data: ResponseData) | Rejected(message: string)

  predicate Succeeded(result: FetchResult) {
    result.Responded? && result.ok
  }

  /** The message `error` shows after a failed fetch: the response's `error` field, or a fixed text
      when it is missing or empty; the thrown message for a rejection, or a fixed text when empty. */
  function FailureMessage(result: FetchResult): (m: string)
    requires !Succeeded(result)
    ensures m != ""
    ensures result.Responded? && UseCaseRoute.Present(result.data.error) ==> m == result.data.error.value
    ensures result.Responded? && !UseCaseRoute.Present(result.data.error) ==> m == FetchFailed
    ensures result.Rejected? && result.message != "" ==> m == result.message
    ensures result.Rejected? && result.message == "" ==> m == GenericError
  {
    var thrown :=
      match result
      case Responded(_, data) => if UseCaseRoute.Present(data.error) then data.error.value else FetchFailed
      case Rejected(message) => message;
    if thrown != "" then thrown else GenericError
  }

  /** The validation of `handleSubmit`: nothing is sent for a description that is empty or only
      whitespace; otherwise both fields are sent trimmed, and the sent description is not empty. */
  function Validated(companyName: string, description: string): (request: Option<SearchRequest>)
    ensures request.None? <==> AllWhitespace(description)
    ensures request.Some? ==>
      request.value == SearchRequest(Trim(companyName), Trim(description)) && request.value.description != ""
  {
    var trimmed := Trim(description);
    if trimmed == "" then None else Some(SearchRequest(Trim(companyName), trimmed))
  }

  /** The record stored after a successful search. */
  function Snapshot(sent: SearchRequest, useCases: seq<UseCaseRoute.UseCase>, now: int): (p: StoredProject)
    ensures p.companyName == Some(sent.companyName) && p.description == Some(sent.description)
    ensures HasUseCases(p) <==> |useCases| > 0
  {
    StoredProject(Some(sent.companyName), Some(sent.description), Some(useCases), Some(now))
  }

  /** A stored project offers "View Previous Results" when it lists at least one use case. */
  predicate HasUseCases(p: StoredProject) {
    p.useCases.Some? && |p.useCases.value| > 0
  }

  /** The prompt suggested for describing the company: it names the company when one is typed,
      and holds a placeholder otherwise. */
  function PerplexityPrompt(companyName: string): (r: string)
    ensures |PromptPrefix| <= |r| && r[..|PromptPrefix|] == PromptPrefix
    ensures companyName != "" ==> r[|PromptPrefix|..] == companyName
    ensures companyName == "" ==> r == PlaceholderPrompt
  {
    if Truthy(companyName) then PromptPrefix + companyName else PlaceholderPrompt
  }

  class Home {
    var companyName: string
    var description: string
    var loading: bool
    var error: Option<string>
    var hasStoredResults: bool

    constructor ()
      ensures companyName == "" && description == "" && !loading && error == None && !hasStoredResults
    {
      companyName := "";
      description := "";
      loading := false;
      error := None;
      hasStoredResults := false;
    }

    /** The mount effect: fields come back from a stored project that parses, missing ones as "". */
    method Restore(storage: LocalStorage)
      modifies this`companyName, this`description, this`hasStoredResults
      ensures CurrentProject(storage.items).None? ==>
        companyName == old(companyName) && description == old(description)
        && hasStoredResults == old(hasStoredResults)
      ensures CurrentProject(storage.items).Some? ==>
        var p := CurrentProject(storage.items).value;
        && companyName == p.companyName.GetOr("")
        && description == p.description.GetOr("")
        && hasStoredResults == (old(hasStoredResults) || HasUseCases(p))
    {
      var storedData := storage.GetItem(CurrentProjectKey);
      if storedData.Some? {
        var data := Parse(storedData.value);
        if data.Some? {
          companyName := data.value.companyName.GetOr("");
          description := data.value.description.GetOr("");
          if HasUseCases(data.value) {
            hasStoredResults := true;
          }
        }
      }
    }

    /** `handleSubmit` up to the request: a blank description only sets the error; otherwise the
        stored search is forgotten, the page starts loading and the trimmed fields are sent. */
    method Submit(storage: LocalStorage) returns (request: Option<SearchRequest>)
      modifies this`error, this`loading, this`hasStoredResults, storage
      ensures request == Validated(old(companyName), old(description))
      ensures request.None? ==>
        && error == Some(DescriptionRequired)
        && loading == old(loading) && hasStoredResults == old(hasStoredResults)
        && storage.items == old(storage.items)
      ensures request.Some? ==>
        && storage.items == old(storage.items) - {CurrentProjectKey}
        && !hasStoredResults && loading && error == None
    {
      var c, d := companyName, description;
      request := Validated(c, d);
      if request.None? {
        error := Some(DescriptionRequired);
        return;
      }
      storage.RemoveItem(CurrentProjectKey);
      hasStoredResults := false;
      loading := true;
      error := None;
    }

    /** `handleSubmit` after the request: a successful answer is stored under "currentProject"
        with the fields that were sent (the page then navigates away, still loading); a failed one
        sets the error and ends loading. */
    method Complete(storage: LocalStorage, sent: SearchRequest, result: FetchResult, now: int)
      modifies this`error, this`loading, storage
      ensures Succeeded(result) ==>
        && storage.items == old(storage.items)[CurrentProjectKey :=
             Project(Snapshot(sent, result.data.useCases.GetOr([]), now))]
        && error == old(error) && loading == old(loading)
      ensures !Succeeded(result) ==>
        && error == Some(FailureMessage(result)) && !loading
        && storage.items == old(storage.items)
    {
      match result
      case Rejected(message) =>
        error := Some(if message != "" then message else GenericError);
        loading := false;
      case Responded(ok, data) =>
        if !ok {
          var thrown := if UseCaseRoute.Present(data.error) then data.error.value else FetchFailed;
          error := Some(if thrown != "" then thrown else GenericError);
          loading := false;
        } else {
          var useCases := data.useCases.GetOr([]);
          storage.SetItem(CurrentProjectKey, Project(Snapshot(sent, useCases, now)));
        }
    }
  }
}
