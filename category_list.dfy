/** The category list and its search box. The search runs when the list is
    fetched: the page filters what the server returns by name. */
module CategoryList {
  import opened Basics
  import opened JsString
  import opened Sequences

  datatype Category = Category(id: string, name: string, description: string)

  /** The name the search looks at. */
  function CategoryName(c: Category): string {
    c.name
  }

  /** `item.name.toLowerCase().includes(search.toLowerCase())`: the search
      text, untrimmed, occurs in the name, ignoring case. */
  predicate NameMatches<T>(nameOf: T -> string, search: string, item: T) {
    Includes(Lower(nameOf(item)), Lower(search))
  }

  /** `search.trim() ? data.filter(byName) : data`, the filter shared by the
      category and role lists. */
  function SearchFilter<T(==,!new)>(data: seq<T>, nameOf: T -> string, search: string): (r: seq<T>)
    ensures IsBlank(search) ==> r == data
    ensures !IsBlank(search) ==> forall x :: x in r <==> x in data && NameMatches(nameOf, search, x)
    ensures forall x :: NameMatches(nameOf, search, x) ==> multiset(r)[x] == multiset(data)[x]
    ensures IsSubsequence(r, data)
  {
    if IsBlank(search) then
      assert forall i :: 0 <= i < |data| ==> data[i] in data;
      IsSubsequenceRefl(data);
      data
    else
      var r := Filter(data, (x: T) => NameMatches(nameOf, search, x));
      assert forall x :: x in data ==> exists i :: 0 <= i < |data| && data[i] == x;
      assert forall x :: x in r ==> exists i :: 0 <= i < |r| && r[i] == x;
      r
  }

  /** Searching for an item's whole name, in any letter case, keeps it. */
  lemma SearchingFullNameKeeps<T(!new)>(data: seq<T>, nameOf: T -> string, search: string, x: T)
    requires x in data && !IsBlank(search) && Lower(search) == Lower(nameOf(x))
    ensures x in SearchFilter(data, nameOf, search)
  {
    IncludesLength(Lower(nameOf(x)), Lower(nameOf(x)));
  }

  /** The search text is not trimmed before matching: a leading space makes
      " desk" miss the category "Desk". */
  lemma UntrimmedSearchMisses()
    ensures SearchFilter([Category("1", "Desk", "")], CategoryName, " desk") == []
  {
    var c := Category("1", "Desk", "");
    IncludesLength(Lower(c.name), Lower(" desk"));
    assert !IsSpace(" desk"[1]);
  }

  class Page {
    var categories: seq<Category>
    var search: string

    constructor ()
      ensures categories == [] && search == ""
    {
      categories := [];
      search := "";
    }

    /** Typing in the search box. */
    method HandleSearchChange(value: string)
      modifies this`search
      ensures search == value
    {
      search := value;
    }

    /** `fetchCategories()`, given what the category request returned
      (`None` when it failed); a failure leaves the list as it was. */
    method FetchCategories(fetched: Option<seq<Category>>)
      modifies this`categories
      ensures fetched.None? ==> categories == old(categories)
      ensures fetched.Some? ==> categories == SearchFilter(fetched.value, CategoryName, search)
    {
      match fetched {
        case None =>
        case Some(data) =>
          categories := SearchFilter(data, CategoryName, search);
      }
    }
  }
}
