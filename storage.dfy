/**
 * The browser's `localStorage` as the two pages use it: a map from keys to stored items, of which
 * only "currentProject" is ever read or written. What the home page stores under that key is a
 * JSON object; `Parse` stands for `JSON.parse` and yields the record, or nothing for text that is
 * not a JSON object.
 */
module BrowserStorage {
  import opened Wrappers
  import UseCaseRoute

  const CurrentProjectKey: string := "currentProject"

  /** The stored search: every field may be missing from what was stored. */
  datatype StoredProject = StoredProject(
    companyName: Option<string>,
    description: Option<string>,
    useCases: Option<seq<UseCaseRoute.UseCase>>,
    timestamp: Option<int>)

  /** A stored item: a serialised project record, or any other text. */
  datatype StoredItem = Project(project: StoredProject) | Unreadable(raw: string)

  function Parse(item: StoredItem): (p: Option<StoredProject>)
    ensures p.Some? <==> item.Project?
    ensures item.Project? ==> p.value == item.project
  {
    match item
    case Project(project) => Some(project)
    case Unreadable(_) => None
  }

  /** The project record stored under "currentProject", if there is one that parses. */
  function CurrentProject(items: map<string, StoredItem>): (p: Option<StoredProject>)
    ensures p.Some? <==> CurrentProjectKey in items && items[CurrentProjectKey].Project?
    ensures p.Some? ==> items[CurrentProjectKey] == Project(p.value)
  {
    if CurrentProjectKey in items then Parse(items[CurrentProjectKey]) else None
  }

  class LocalStorage {
    var items: map<string, StoredItem>

    constructor (items: map<string, StoredItem>)
      ensures this.items == items
    {
      this.items := items;
    }

    /** `localStorage.getItem(key)`: the item, or nothing when the key is absent. */
    method GetItem(key: string) returns (r: Option<StoredItem>)
      ensures r.Some? <==> key in items
      ensures r.Some? ==> r.value == items[key]
    {
      r := if key in items then Some(items[key]) else None;
    }

    /** `localStorage.setItem(key, value)`. */
    method SetItem(key: string, value: StoredItem)
      modifies this
      ensures items == old(items)[key := value]
    {
      items := items[key := value];
    }

    /** `localStorage.removeItem(key)`: the key is gone, every other key keeps its item. */
    method RemoveItem(key: string)
      modifies this
      ensures key !in items
      ensures forall k :: k != key ==> (k in items <==> k in old(items))
      ensures forall k :: k in items ==> items[k] == old(items)[k]
      ensures items == old(items) - {key}
    {
      items := items - {key};
    }
  }
}
