/** The menu page (`src/pages/Menu.jsx`, and its copy
    `src/components/pages/MenuPage.jsx`): a category-and-search filter over
    the loaded items, the items grouped under the four fixed category
    names, and the item-detail modal. */
module MenuPage {
  import opened Wrappers
  import opened Seqs
  import opened Text
  import opened Catalog

  /** The lower-cased name or description contains the lower-cased term. */
  predicate MatchesSearch(item: MenuItem, searchTerm: string) {
    Includes(ToLower(item.name), ToLower(searchTerm))
    || Includes(ToLower(item.description), ToLower(searchTerm))
  }

  /** The `filter` callback: category match (or 'All') and search match. */
  predicate Matches(item: MenuItem, activeCategory: string, searchTerm: string) {
    (activeCategory == "All" || item.category == activeCategory)
    && MatchesSearch(item, searchTerm)
  }

  /** `filteredItems`: the items the predicate keeps, in menu order. */
  function FilteredItems(menuItems: seq<MenuItem>, activeCategory: string, searchTerm: string)
    : (r: seq<MenuItem>)
    ensures forall item :: item in r <==> item in menuItems && Matches(item, activeCategory, searchTerm)
    ensures IsSubsequence(r, menuItems)
    ensures forall item :: multiset(r)[item] ==
              if Matches(item, activeCategory, searchTerm) then multiset(menuItems)[item] else 0
  {
    var keep := (item: MenuItem) => Matches(item, activeCategory, searchTerm);
    FilterIsSubsequence(menuItems, keep);
    FilterCounts(menuItems, keep);
    Filter(menuItems, keep)
  }

  /** 'All' with an empty search term keeps the whole menu. */
  lemma AllWithEmptySearchKeepsEverything(menuItems: seq<MenuItem>)
    ensures FilteredItems(menuItems, "All", "") == menuItems
  {
    assert ToLower("") == "";
    forall i | 0 <= i < |menuItems|
      ensures Matches(menuItems[i], "All", "")
    {
      IncludesEmpty(ToLower(menuItems[i].name));
    }
    FilterKeepsAll(menuItems, (item: MenuItem) => Matches(item, "All", ""));
  }

  /** `filteredItems.filter(item => item.category === category)` */
  function InCategory(filtered: seq<MenuItem>, category: string): (r: seq<MenuItem>)
    ensures forall item :: item in r <==> item in filtered && item.category == category
  {
    Filter(filtered, (item: MenuItem) => item.category == category)
  }

  /** A group holds the items of its category in filtered order, every copy
      of each. */
  lemma InCategoryKeepsOrder(filtered: seq<MenuItem>, category: string)
    ensures IsSubsequence(InCategory(filtered, category), filtered)
    ensures forall item :: multiset(InCategory(filtered, category))[item] ==
              if item.category == category then multiset(filtered)[item] else 0
  {
    var sameCategory := (item: MenuItem) => item.category == category;
    FilterIsSubsequence(filtered, sameCategory);
    FilterCounts(filtered, sameCategory);
  }

  /** The `categories.reduce` over a prefix of the category list: every name
      other than 'All' gets the filtered items of that category. */
  function GroupOver(categories: seq<string>, filtered: seq<MenuItem>): (acc: map<string, seq<MenuItem>>)
    ensures forall c :: c in acc <==> c in categories && c != "All"
    ensures forall c :: c in acc ==> acc[c] == InCategory(filtered, c)
  {
    if categories == [] then map[]
    else
      var init, category := categories[..|categories| - 1], categories[|categories| - 1];
      assert categories == init + [category];
      var acc := GroupOver(init, filtered);
      if category == "All" then acc else acc[category := InCategory(filtered, category)]
  }

  /** The category buttons other than 'All' are the four named categories. */
  lemma NamedCategories()
    ensures forall c :: c in Categories && c != "All" <==> c in {"Appetizers", "Main Courses", "Desserts", "Beverages"}
  {
    var named := ["Appetizers", "Main Courses", "Desserts", "Beverages"];
    assert Categories == ["All"] + named;
    assert "All" !in named;
  }

  /** `groupedItems`. */
  function GroupedItems(filtered: seq<MenuItem>): (r: map<string, seq<MenuItem>>)
    ensures forall c :: c in r <==> c in {"Appetizers", "Main Courses", "Desserts", "Beverages"}
    ensures forall c :: c in r ==> r[c] == InCategory(filtered, c)
  {
    NamedCategories();
    GroupOver(Categories, filtered)
  }

  /** A filtered item sits in the group of its own category and in no
      other; one whose category is not among the four names is dropped. */
  lemma GroupPlacement(filtered: seq<MenuItem>, item: MenuItem)
    requires item in filtered
    ensures item.category in GroupedItems(filtered) ==> item in GroupedItems(filtered)[item.category]
    ensures forall c :: c in GroupedItems(filtered) && c != item.category ==> item !in GroupedItems(filtered)[c]
    ensures item.category !in {"Appetizers", "Main Courses", "Desserts", "Beverages"} ==>
              forall c :: c in GroupedItems(filtered) ==> item !in GroupedItems(filtered)[c]
  {
  }

  /** The page state that the item modal touches. */
  class MenuPageState {
    var menuItems: seq<MenuItem>
    var activeCategory: string
    var searchTerm: string
    var selectedItem: Option<MenuItem>
    var showMenuModal: bool

    constructor (menuItems: seq<MenuItem>)
      ensures this.menuItems == menuItems
      ensures activeCategory == "All" && searchTerm == ""
      ensures selectedItem == None && !showMenuModal
    {
      this.menuItems := menuItems;
      activeCategory := "All";
      searchTerm := "";
      selectedItem := None;
      showMenuModal := false;
    }

    /** `handleItemClick`: remembers the item and opens the modal. */
    method HandleItemClick(item: MenuItem)
      modifies this
      ensures selectedItem == Some(item) && showMenuModal
      ensures menuItems == old(menuItems) && activeCategory == old(activeCategory)
      ensures searchTerm == old(searchTerm)
    {
      selectedItem := Some(item);
      showMenuModal := true;
    }

    /** The modal's `onClose`: hides it; the selection is kept. */
    method CloseMenuModal()
      modifies this
      ensures !showMenuModal && selectedItem == old(selectedItem)
      ensures menuItems == old(menuItems) && activeCategory == old(activeCategory)
      ensures searchTerm == old(searchTerm)
    {
      showMenuModal := false;
    }
  }
}
