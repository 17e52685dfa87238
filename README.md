# Use-case finder, modelled in Dafny

The application lets a user describe a company and get back the ten most similar "use case"
documents from a vector index. A Next.js server route turns the description into a query text,
asks an embedding service for its vector, queries the index with that vector and shapes the
matches into `{useCases, count}`. Two client pages sit around it: the home page validates and
posts the form and stores the answer in `localStorage`; the results page reads it back and
shows it with expandable descriptions.

The model has one Dafny module per source file, plus three small shared ones:

- `UseCaseRoute` (`route.dfy`): the `POST` handler. The two remote services are stubs held by a
  `Services` object whose methods answer from fixed functions and append every call to `log`.
  The methods `GenerateEmbedding`, `SearchUseCases` (the `try` block) and `Post` follow the
  source step by step; their contracts tie the response and the new log to the pure functions
  `Embedding`, `Pipeline` and `Handle`. The lemmas about `Handle` state each error path, its
  exact message and the calls made before it, the order of the calls, the `topK`/metadata
  arguments, the order-preserving projection and `count == |useCases|`.
- `ResultsPage` (`results_page.dfy`): the page state as a class (`Results`) with the load effect,
  "Start New Search" and the two toggles as methods, and the display rules as functions.
- `HomePage` (`home_page.dfy`): the form state as a class (`Home`) with the restore effect and
  `handleSubmit`, split at its `await` into `Submit` and `Complete`; the prompt text as a function.
- `BrowserStorage` (`storage.dfy`): `localStorage` as a class over a map, and the stored record.
- `JsText` (`text.dfy`): JavaScript's truthiness of strings, `trim`, the truncation rule and the
  decimal rendering of a count.
- `SearchFlow` (`flow.dfy`): lemmas across the three files (what the page sends passes the
  route, what the route answers reaches the page, what is stored is read back).
- `Wrappers` (`wrappers.dfy`): `Option`.

The route's description check is JavaScript truthiness, not a trimmed check: the route does not
trim the description, only the home page does (code/app/page.tsx:43). So every non-empty
description made only of whitespace passes the route and is embedded
(`SearchFlow.RouteAcceptsBlankDescription`), while the home page never sends one: what it sends
is never all whitespace (`SearchFlow.SentRequestAccepted`). The route's second check of the
OpenAI key (code/app/api/use-cases/route.ts:83-88) cannot fire, because `generateEmbedding` has
already thrown without the key; `SearchUseCases` proves this with `assert false` in that branch,
and `FoundImpliesConfigured` states that every success had both keys.

## Model

| member | source | states |
|---|---|---|
| `JsText.TrimStart` | code/app/page.tsx:43 | the result is a suffix of the input, everything dropped is whitespace, and the result does not start with whitespace |
| `JsText.TrimEnd` | code/app/page.tsx:43 | the result is a prefix of the input, everything dropped is whitespace, and the result does not end with whitespace |
| `JsText.Trim` | code/app/page.tsx:43 | `trim` gives "" exactly when the input is all whitespace; a non-empty result starts and ends with non-whitespace |
| `JsText.TrimIsInfix` | code/app/page.tsx:61-64 | the trimmed string is an infix of the input with only whitespace before and after it |
| `JsText.TrimIdempotent` | code/app/page.tsx:61-64 | trimming twice equals trimming once |
| `JsText.Truncate` | code/app/results/page.tsx:123-125 | a string longer than the limit becomes its first `limit` characters plus "..." (length limit+3); a shorter one is unchanged |
| `JsText.DigitChar` | code/app/results/page.tsx:150 | a digit is rendered as a character between '0' and '9' |
| `JsText.DigitValue` | code/app/results/page.tsx:150 | a digit character reads back as a value below 10 |
| `JsText.Decimal` | code/app/results/page.tsx:150 | a count renders as a non-empty string of decimal digits with no leading zero |
| `JsText.DecimalRoundTrip` | code/app/results/page.tsx:150 | reading the rendered count back gives the count |
| `UseCaseRoute.IndexName` | code/app/api/use-cases/route.ts:11 | the configured index name when it is set and non-empty, otherwise "partner-use-cases" |
| `UseCaseRoute.QueryText` | code/app/api/use-cases/route.ts:68-70 | the two template literals of the query text (a definition; `QueryTextShape` states its layout) |
| `UseCaseRoute.QueryTextShape` | code/app/api/use-cases/route.ts:67-70 | the description is always a suffix; with a truthy company name the text is "Company: ", the name, ". Description: ", the description; otherwise "Description: " plus the description |
| `UseCaseRoute.ToUseCase` | code/app/api/use-cases/route.ts:103-109 | each of title, partner_name, url and text is taken from the metadata or defaults to ""; the score defaults to 0 |
| `UseCaseRoute.Project` | code/app/api/use-cases/route.ts:103-109 | one use case per match, same length, the i-th from the i-th match |
| `UseCaseRoute.Embedding` | code/app/api/use-cases/route.ts:20-37 | no call exactly when the OpenAI key is unset, and then "OPENAI_API_KEY is not set"; otherwise exactly one call with model "text-embedding-3-small", the text and 1536 dimensions; a vector is only returned with the key set |
| `UseCaseRoute.Pipeline` | code/app/api/use-cases/route.ts:56-116 | the `try` block as a function of the environment, the two stubs and the request: its returned response or thrown error and the calls made (a definition; the lemmas below state its paths) |
| `UseCaseRoute.Handle` | code/app/api/use-cases/route.ts:55-124 | the handler: `Pipeline` followed by `Catch` (a definition; the lemmas below state each path, its message and its calls) |
| `UseCaseRoute.Catch` | code/app/api/use-cases/route.ts:117-122 | a thrown error becomes status 500 with its message, or "Failed to search use cases" when the message is empty; a returned response passes through |
| `UseCaseRoute.Services.constructor` | code/app/api/use-cases/route.ts:15-18 | the stubs answer from the given functions and the log starts empty |
| `UseCaseRoute.Services.CreateEmbedding` | code/app/api/use-cases/route.ts:26-32 | answers with the embedding stub's result and appends exactly this call to the log |
| `UseCaseRoute.Services.QueryIndex` | code/app/api/use-cases/route.ts:96-100 | answers with the index stub's result and appends exactly this call to the log |
| `UseCaseRoute.GenerateEmbedding` | code/app/api/use-cases/route.ts:20-37 | no call and "OPENAI_API_KEY is not set" without the key; otherwise one call with model "text-embedding-3-small" and 1536 dimensions, a failure wrapped as "Failed to generate embedding: " + message |
| `UseCaseRoute.SearchUseCases` | code/app/api/use-cases/route.ts:57-116 | the `try` block's returned response or thrown error and the calls it logs equal `Pipeline`; the second OpenAI key check is unreachable |
| `UseCaseRoute.Post` | code/app/api/use-cases/route.ts:55-124 | the response and the calls logged equal `Handle` |
| `UseCaseRoute.BadRequestIffNoDescription` | code/app/api/use-cases/route.ts:60-65 | status 400 is answered exactly when a readable body has a missing, null or empty description, then with "Description is required" and no call |
| `UseCaseRoute.NoCallsIff` | code/app/api/use-cases/route.ts:57-73 | no remote call is made exactly when the body is unreadable, the description is falsy, or the OpenAI key is unset |
| `UseCaseRoute.MissingOpenAiKey` | code/app/api/use-cases/route.ts:21-23 | a valid request without the OpenAI key gets 500 "OPENAI_API_KEY is not set" and makes no call |
| `UseCaseRoute.EmbeddingFailure` | code/app/api/use-cases/route.ts:33-36 | an embedding failure with message m gives 500 "Failed to generate embedding: " + m after exactly the one embedding call |
| `UseCaseRoute.MissingPineconeKey` | code/app/api/use-cases/route.ts:76-81 | after a successful embedding, a missing Pinecone key gives 500 "PINECONE_API_KEY is not set" with no query |
| `UseCaseRoute.SearchFailure` | code/app/api/use-cases/route.ts:117-122 | a failing query with message m gives 500 with m (or the fixed text for an empty m) after the embedding call and the one query |
| `UseCaseRoute.SearchSuccess` | code/app/api/use-cases/route.ts:96-116 | when both calls succeed the answer is the projected matches with their count, after the embedding call and one query with the unchanged vector, topK 10 and metadata |
| `UseCaseRoute.SearchOnlyAfterEmbedding` | code/app/api/use-cases/route.ts:73-100 | at most two calls; the first is the embedding of the query text; a query is only ever second, made with the vector the embedding returned, the index name, topK 10 and metadata included |
| `UseCaseRoute.FoundImpliesConfigured` | code/app/api/use-cases/route.ts:83-88 | a success implies a valid description, both keys set (so the second key check never answers), two calls and count equal to the length |
| `UseCaseRoute.FoundWithinTopK` | code/app/api/use-cases/route.ts:96-109 | when the index honours topK, a success lists at most ten use cases |
| `UseCaseRoute.ErrorsCarryMessage` | code/app/api/use-cases/route.ts:60-122 | every error answer has status 400 or 500 and a non-empty message |
| `UseCaseRoute.AcmeExample` | code/app/api/use-cases/route.ts:55-124 | company "Acme", description "cloud cost optimization" and one stub match give exactly that one use case with count 1, after the two expected calls |
| `BrowserStorage.Parse` | code/app/results/page.tsx:34 | the abstraction of `JSON.parse`: a stored project record parses to that record, any other text to nothing (a definition, not a property) |
| `BrowserStorage.CurrentProject` | code/app/results/page.tsx:31-34 | the abstraction of reading "currentProject": a record exactly when the key is stored and parses (a definition, not a property) |
| `BrowserStorage.LocalStorage.constructor` | code/app/results/page.tsx:31 | the store starts with the given items |
| `BrowserStorage.LocalStorage.GetItem` | code/app/results/page.tsx:31 | the abstraction of `getItem`: the stored item for the key, or nothing when the key is absent (a definition, not a property) |
| `BrowserStorage.LocalStorage.SetItem` | code/app/page.tsx:82 | the abstraction of `setItem`: the key maps to the new item, other keys are unchanged (a definition, not a property) |
| `BrowserStorage.LocalStorage.RemoveItem` | code/app/results/page.tsx:45 | the key is gone and every other key keeps its item |
| `ResultsPage.Toggled` | code/app/results/page.tsx:54-62 | the membership of the toggled index flips, every other index keeps its membership |
| `ResultsPage.ToggleTwice` | code/app/results/page.tsx:54-62 | toggling an index twice restores the set |
| `ResultsPage.DescriptionPreview` | code/app/results/page.tsx:123-125 | a description over 100 characters shows its first 100 plus "..." (length 103), otherwise unchanged |
| `ResultsPage.TextPreview` | code/app/results/page.tsx:195-197 | a use-case text over 200 characters shows its first 200 plus "...", otherwise unchanged |
| `ResultsPage.NoResults` | code/app/results/page.tsx:76 | the "No Results" condition: no project data, no use-case list, or an empty one (a definition; `ListingIff` and `CurrentScreen` state what it means for the screen) |
| `ResultsPage.ListingIff` | code/app/results/page.tsx:64-93 | once loading is over, the list is on screen exactly when there is project data with at least one use case |
| `ResultsPage.Heading` | code/app/results/page.tsx:150 | "Found 1 Use Case" for one, "Found N Use Cases" for any other count |
| `ResultsPage.DisplayTitle` | code/app/results/page.tsx:160 | a non-empty title is shown as is, an empty one as "Untitled Use Case"; the shown title is never empty |
| `ResultsPage.UseCaseText` | code/app/results/page.tsx:173-199 | the text block is shown only for a non-empty text, in full when expanded and as the 200-character preview otherwise |
| `ResultsPage.ToggleSwitchesText` | code/app/results/page.tsx:54-62 | toggling a card switches its own text block between full and preview and leaves every other card's text block as it was |
| `ResultsPage.Results.CaseText` | code/app/results/page.tsx:173-199 | the card at `index` shows its full text exactly while `index` is in `expandedCases`, and the 200-character preview otherwise |
| `ResultsPage.Results.constructor` | code/app/results/page.tsx:24-27 | no project, loading, description collapsed, no use case expanded |
| `ResultsPage.Results.Load` | code/app/results/page.tsx:29-41 | loading ends false in every case; the project is set only when the stored item parses and is kept otherwise |
| `ResultsPage.Results.NewSearch` | code/app/results/page.tsx:43-48 | only "currentProject" is removed from the store |
| `ResultsPage.Results.ToggleDescription` | code/app/results/page.tsx:50-52 | negates `isDescriptionExpanded` and changes no other field |
| `ResultsPage.Results.ToggleUseCase` | code/app/results/page.tsx:54-62 | the expanded set becomes `Toggled` of the old one; no other field changes |
| `ResultsPage.Results.CurrentScreen` | code/app/results/page.tsx:64-93 | loading screen exactly while loading, "No Results" exactly when not loading and there are no use cases, otherwise the non-empty stored list |
| `ResultsPage.Results.CollapsedDescription` | code/app/results/page.tsx:121-127 | the preview is shown exactly while the description is collapsed |
| `Wrappers.Option.GetOr` | code/app/api/use-cases/route.ts:103-108 | the logical-or defaults of possibly missing fields: the value when present, the default when missing |
| `HomePage.FailureMessage` | code/app/page.tsx:67-89 | a failed response shows its `error` field or "Failed to fetch use cases"; a thrown error shows its message or "An error occurred"; never empty |
| `HomePage.Validated` | code/app/page.tsx:43-64 | nothing is sent exactly when the description is all whitespace; otherwise the trimmed fields are sent and the sent description is non-empty |
| `HomePage.Snapshot` | code/app/page.tsx:76-81 | the stored record holds the sent company name and description, and lists use cases exactly when the answer had at least one |
| `HomePage.HasUseCases` | code/app/page.tsx:31 | the "View Previous Results" condition: a use-case list with at least one entry (a definition; `StoredSearchRoundTrip` ties it to the results page) |
| `HomePage.PerplexityPrompt` | code/app/page.tsx:92-94 | always starts with "give me an extensive description of "; ends with the company name when one is typed, else is the placeholder prompt |
| `HomePage.Home.constructor` | code/app/page.tsx:16-20 | empty fields, not loading, no error, no stored results |
| `HomePage.Home.Restore` | code/app/page.tsx:22-38 | a parsing stored project restores both fields (missing ones as ""), and sets `hasStoredResults` only when it lists use cases; otherwise nothing changes |
| `HomePage.Home.Submit` | code/app/page.tsx:40-65 | a blank description sets "Description is required" and changes nothing else; otherwise "currentProject" is removed, `hasStoredResults` false, `loading` true, `error` cleared, and the trimmed fields are sent |
| `HomePage.Home.Complete` | code/app/page.tsx:67-89 | success stores the sent fields with the answer's use cases (or []) under "currentProject"; failure sets the error message and ends loading, leaving the store alone |
| `SearchFlow.ToRequestBody` | code/app/page.tsx:61-64 | the abstraction of the JSON transport: the route reads both sent fields as present (a definition, not a property) |
| `SearchFlow.Received` | code/app/page.tsx:67-73 | the abstraction of the fetch response: a success arrives ok with its use cases; an error arrives with its status's ok flag and its message (a definition, not a property) |
| `SearchFlow.SentRequestAccepted` | code/app/api/use-cases/route.ts:60-70 | the description the home page sends is never all whitespace, so it passes the route's check, and the route embeds the trimmed fields |
| `SearchFlow.RouteAcceptsBlankDescription` | code/app/api/use-cases/route.ts:60 | every non-empty whitespace-only description, which the page refuses, passes the route and is embedded as "Description: " plus it |
| `SearchFlow.RouteErrorShown` | code/app/page.tsx:67-69 | every error the route answers is shown on the home page with the route's own message |
| `SearchFlow.StoredSearchRoundTrip` | code/app/page.tsx:76-82 | the stored search reads back with the sent fields and use cases; the results page lists it exactly when it is non-empty, which is when the home page offers it again |
| `SearchFlow.FoundIsStored` | code/app/page.tsx:72-82 | a success answer is stored with exactly the use cases the route listed |

## Left out

- The OpenAI and Pinecone clients: both services are stubs given as functions; the vector contents, the similarity ranking and the scores are values the model only passes along.
- `GET /api/use-cases`, `runtime` and `maxDuration`: a static diagnostic answer and deployment settings.
- `response.data[0].embedding` on an empty result list, and `searchResults.matches` being absent: the stubs return the vector and the list of matches directly.
- JSON values of other types than strings in the request body, the metadata or the stored record (numbers, objects): every field is a string or missing.
- `request.json()` failing and a `null` body are one case, `Malformed(message)`, whose message the model takes as given.
- `JSON.parse`/`JSON.stringify` and real `localStorage`: the store maps keys to a stored record or to text that is not a project object; a stored empty string and text that fails to parse behave alike.
- A stored record without a description makes the results page fail while rendering; `CollapsedDescription` takes the description as a string and does not model that failure.
- Score formatting `(score * 100).toFixed(1)`, `encodeURIComponent` and the Perplexity URL: floating-point and library formatting.
- JSX rendering, CSS, router navigation (`router.push`, `router.back`), `console` output and `Date.now()` (the timestamp is a parameter of `Complete`).
- React's batching of state updates and re-rendering: each handler is a method that updates the fields in the order the source calls the setters.
- The form's `onChange` handlers: they only assign the typed text to `companyName` and `description`.
- Concurrency between requests, a lazily cached local embedding model and a local embedding strategy: no code for them exists in the route.
- String lengths count Unicode scalar values, JavaScript's count UTF-16 code units: the two agree except for characters outside the Basic Multilingual Plane.
