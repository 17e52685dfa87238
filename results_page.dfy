/**
 * The results page: it loads the stored search from `localStorage`, shows a loading screen, a
 * "No Results Found" screen or the list of use cases, and keeps two pieces of display state, whether
 * the search description is expanded and which use cases are expanded.
 */
module ResultsPage {
  import opened Wrappers
  import opened JsText
  import opened BrowserStorage
  import UseCaseRoute

  const DescriptionPreviewLength: nat := 100
  const TextPreviewLength: nat := 200
  const UntitledUseCase: string := "Untitled Use Case"

  /** `expandedCases` after toggling `index`: only the membership of `index` flips. */
  function Toggled(expanded: set<int>, index: int): (r: set<int>)
    ensures index in r <==> index !in expanded
    ensures forall j :: j != index ==> (j in r <==> j in expanded)
  {
    if index in expanded then expanded - {index} else expanded + {index}
  }

  /** Toggling an index twice restores the set. */
  lemma ToggleTwice(expanded: set<int>, index: int)
    ensures Toggled(Toggled(expanded, index), index) == expanded
  {
  }

  /** The collapsed search description. */
  function DescriptionPreview(description: string): (r: string)
    ensures |description| > DescriptionPreviewLength ==>
              |r| == 103 && r == description[..DescriptionPreviewLength] + "..."
    ensures |description| <= DescriptionPreviewLength ==> r == description
  {
    Truncate(description, DescriptionPreviewLength)
  }

  /** The collapsed text of a use case. */
  function TextPreview(text: string): (r: string)
    ensures |text| > TextPreviewLength ==> |r| == 203 && r == text[..TextPreviewLength] + "..."
    ensures |text| <= TextPreviewLength ==> r == text
  {
    Truncate(text, TextPreviewLength)
  }

  /** The page has nothing to list: no project, or no (or an empty) list of use cases. */
  predicate NoResults(projectData: Option<StoredProject>) {
    || projectData.None?
    || projectData.value.useCases.None?
    || |projectData.value.useCases.value| == 0
  }


  /** `Found {count} Use Case{s}`: singular for exactly one use case, plural otherwise. */
  function Heading(count: nat): (r: string)
    ensures count == 1 ==> r == "Found 1 Use Case"
    ensures count != 1 ==> r == "Found " + Decimal(count) + " Use Cases"
  {
    "Found " + Decimal(count) + " Use Case" + (if count != 1 then "s" else "")
  }

  /** The title of a use case, with a fallback for an empty one: a title is never blank. */
  function DisplayTitle(title: string): (r: string)
    ensures r != ""
    ensures title != "" ==> r == title
    ensures title == "" ==> r == UntitledUseCase
  {
    if title != "" then title else UntitledUseCase
  }

  /** The text block of a use case: absent for an empty text, else full or collapsed. */
  function UseCaseText(useCase: UseCaseRoute.UseCase, expanded: bool): (r: Option<string>)
    ensures r.Some? <==> useCase.text != ""
    ensures r.Some? && expanded ==> r.value == useCase.text
    ensures r.Some? && !expanded ==> r.value == TextPreview(useCase.text)
  {
    if useCase.text == "" then None
    else if expanded then Some(useCase.text)
    else Some(TextPreview(useCase.text))
  }

  /** Toggling a card switches its own text between the preview and the full text, and leaves
      the text of every other card as it was. */
  lemma ToggleSwitchesText(expanded: set<int>, index: int, other: int, useCase: UseCaseRoute.UseCase)
    ensures UseCaseText(useCase, index in Toggled(expanded, index))
            == UseCaseText(useCase, index !in expanded)
    ensures other != index ==>
            UseCaseText(useCase, other in Toggled(expanded, index)) == UseCaseText(useCase, other in expanded)
  {
  }

  datatype Screen = Loading | NoResultsFound | Listing(useCases: seq<UseCaseRoute.UseCase>)

  class Results {
    var projectData: Option<StoredProject>
    var loading: bool
    var isDescriptionExpanded: bool
    var expandedCases: set<int>

    constructor ()
      ensures projectData == None && loading && !isDescriptionExpanded && expandedCases == {}
    {
      projectData := None;
      loading := true;
      isDescriptionExpanded := false;
      expandedCases := {};
    }

    /** The mount effect: the stored project is taken when it parses, and loading ends in every case. */
    method Load(storage: LocalStorage)
      modifies this`projectData, this`loading
      ensures !loading
      ensures CurrentProject(storage.items).Some? ==> projectData == CurrentProject(storage.items)
      ensures CurrentProject(storage.items).None? ==> projectData == old(projectData)
    {
      var storedData := storage.GetItem(CurrentProjectKey);
      if storedData.Some? {
        var data := Parse(storedData.value);
        if data.Some? {
          projectData := data;
        }
      }
      loading := false;
    }

    /** "Start New Search": forgets the stored project, and nothing else. */
    method NewSearch(storage: LocalStorage)
      modifies storage
      ensures storage.items == old(storage.items) - {CurrentProjectKey}
      ensures CurrentProject(storage.items) == None
    {
      storage.RemoveItem(CurrentProjectKey);
    }

    method ToggleDescription()
      modifies this`isDescriptionExpanded
      ensures isDescriptionExpanded == !old(isDescriptionExpanded)
    {
      isDescriptionExpanded := !isDescriptionExpanded;
    }

    /** Copies the expanded set, adds or deletes `index` and stores the copy. */
    method ToggleUseCase(index: int)
      modifies this`expandedCases
      ensures expandedCases == Toggled(old(expandedCases), index)
    {
      var newExpanded := expandedCases;
      if index in newExpanded {
        newExpanded := newExpanded - {index};
      } else {
        newExpanded := newExpanded + {index};
      }
      expandedCases := newExpanded;
    }

    /** Which screen the page renders. */
    function CurrentScreen(): (s: Screen)
      reads this
      ensures s == Loading <==> loading
      ensures s == NoResultsFound <==> !loading && NoResults(projectData)
      ensures s.Listing? ==> projectData.Some? && projectData.value.useCases == Some(s.useCases) && |s.useCases| >= 1
    {
      if loading then Loading
      else if NoResults(projectData) then NoResultsFound
      else Listing(projectData.value.useCases.value)
    }

    /** The text block of the card at `index`: in full while that card is in `expandedCases`. */
    function CaseText(index: int, useCase: UseCaseRoute.UseCase): (r: Option<string>)
      reads this
      ensures r.Some? <==> useCase.text != ""
      ensures r.Some? && index in expandedCases ==> r.value == useCase.text
      ensures r.Some? && index !in expandedCases ==> r.value == TextPreview(useCase.text)
    {
      UseCaseText(useCase, index in expandedCases)
    }

    /** The description line next to its toggle: the preview while collapsed, nothing while expanded. */
    function CollapsedDescription(description: string): (r: Option<string>)
      reads this
      ensures r.Some? <==> !isDescriptionExpanded
      ensures r.Some? ==> r.value == DescriptionPreview(description)
    {
      if isDescriptionExpanded then None else Some(DescriptionPreview(description))
    }
  }

  /** Once loading is over, the list is on screen exactly when there is project data with at
      least one use case. */
  lemma ListingIff(r: Results)
    ensures !r.loading ==>
            (r.CurrentScreen().Listing? <==>
               r.projectData.Some? && r.projectData.value.useCases.Some?
               && |r.projectData.value.useCases.value| >= 1)
  {
  }
}
