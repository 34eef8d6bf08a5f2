/** The modal variant of the menu page
    (`src/components/pages/MenuPageWithModal.jsx`). Its filter is the same
    predicate as `MenuPage.Matches`; its grouping is built from the
    filtered items themselves, so only categories that occur get a group. */
module MenuPageWithModal {
  import opened Wrappers
  import opened Catalog
  import opened MenuPage

  /** The categories occurring in `items`. */
  ghost function CategoriesOf(items: seq<MenuItem>): set<string> {
    set i | 0 <= i < |items| :: items[i].category
  }

  /** Filtering one more item extends the group of its category only. */
  lemma InCategorySnoc(s: seq<MenuItem>, item: MenuItem, c: string)
    ensures InCategory(s + [item], c) == InCategory(s, c) + (if item.category == c then [item] else [])
  {
    assert (s + [item])[..|s|] == s;
  }

  /** A category with no item has an empty group. */
  lemma {:induction false} InCategoryAbsent(s: seq<MenuItem>, c: string)
    requires c !in CategoriesOf(s)
    ensures InCategory(s, c) == []
    decreases |s|
  {
    if s != [] {
      var init, last := s[..|s| - 1], s[|s| - 1];
      assert init + [last] == s;
      CategoriesOfSnoc(init, last);
      InCategoryAbsent(init, c);
      InCategorySnoc(init, last, c);
    }
  }

  lemma CategoriesOfSnoc(prefix: seq<MenuItem>, item: MenuItem)
    ensures CategoriesOf(prefix + [item]) == CategoriesOf(prefix) + {item.category}
  {
    var s := prefix + [item];
    forall x | x in CategoriesOf(s)
      ensures x in CategoriesOf(prefix) + {item.category}
    {
      var i :| 0 <= i < |s| && s[i].category == x;
      if i < |prefix| {
        assert s[i] == prefix[i];
      }
    }
    forall x | x in CategoriesOf(prefix)
      ensures x in CategoriesOf(s)
    {
      var i :| 0 <= i < |prefix| && prefix[i].category == x;
      assert s[i] == prefix[i];
    }
    assert s[|prefix|] == item;
  }

  /** What the accumulator holds after the items of `prefix` are pushed. */
  ghost predicate Grouped(prefix: seq<MenuItem>, keys: seq<string>, groups: map<string, seq<MenuItem>>) {
    && groups.Keys == CategoriesOf(prefix)
    && (forall c :: c in keys <==> c in groups)
    && (forall a, b :: 0 <= a < b < |keys| ==> keys[a] != keys[b])
    && (forall c :: c in groups ==> groups[c] == InCategory(prefix, c))
    && (forall c :: c in groups ==> groups[c] != [])
  }

  /** The category sets and key lists after an item joins an existing group. */
  lemma ExistingKeys(prefix: seq<MenuItem>, item: MenuItem, keys: seq<string>, groups: map<string, seq<MenuItem>>)
    requires groups.Keys == CategoriesOf(prefix) && (forall c :: c in keys <==> c in groups)
    requires item.category in groups
    ensures groups[item.category := groups[item.category] + [item]].Keys == CategoriesOf(prefix + [item])
    ensures forall c :: c in keys <==> c in groups[item.category := groups[item.category] + [item]]
  {
    CategoriesOfSnoc(prefix, item);
  }

  /** The groups after an item joins an existing group. */
  lemma ExistingGroups(prefix: seq<MenuItem>, item: MenuItem, groups: map<string, seq<MenuItem>>)
    requires forall c :: c in groups ==> groups[c] == InCategory(prefix, c)
    requires item.category in groups
    ensures forall c :: c in groups[item.category := groups[item.category] + [item]] ==>
              groups[item.category := groups[item.category] + [item]][c] == InCategory(prefix + [item], c)
  {
    forall c {
      InCategorySnoc(prefix, item, c);
    }
  }

  /** Pushing an item whose category already has a group. */
  lemma PushExisting(prefix: seq<MenuItem>, item: MenuItem, keys: seq<string>, groups: map<string, seq<MenuItem>>)
    requires Grouped(prefix, keys, groups) && item.category in groups
    ensures Grouped(prefix + [item], keys, groups[item.category := groups[item.category] + [item]])
  {
    ExistingKeys(prefix, item, keys, groups);
    ExistingGroups(prefix, item, groups);
  }

  /** Pushing the first item of a category opens a group for it. */
  lemma PushNew(prefix: seq<MenuItem>, item: MenuItem, keys: seq<string>, groups: map<string, seq<MenuItem>>)
    requires Grouped(prefix, keys, groups) && item.category !in groups
    ensures Grouped(prefix + [item], keys + [item.category], groups[item.category := [item]])
  {
    forall c {
      InCategorySnoc(prefix, item, c);
    }
    CategoriesOfSnoc(prefix, item);
    InCategoryAbsent(prefix, item.category);
  }

  /** The `filteredItems.reduce` that pushes each item onto the array of its
      category, creating the array on first sight. `keys` lists the object's
      keys in insertion order. */
  method GroupByCategory(filtered: seq<MenuItem>)
    returns (keys: seq<string>, groups: map<string, seq<MenuItem>>)
    ensures groups.Keys == CategoriesOf(filtered)
    ensures forall c :: c in keys <==> c in groups
    ensures forall a, b :: 0 <= a < b < |keys| ==> keys[a] != keys[b]
    ensures forall c :: c in groups ==> groups[c] == InCategory(filtered, c)
    ensures forall c :: c in groups ==> groups[c] != []
    ensures forall item, c :: item in filtered && c in groups ==>
              (item in groups[c] <==> c == item.category)
  {
    keys, groups := [], map[];
    for i := 0 to |filtered|
      invariant Grouped(filtered[..i], keys, groups)
    {
      var item := filtered[i];
      assert filtered[..i + 1] == filtered[..i] + [item];
      if item.category !in groups {
        PushNew(filtered[..i], item, keys, groups);
        keys := keys + [item.category];
        groups := groups[item.category := []];
      } else {
        PushExisting(filtered[..i], item, keys, groups);
      }
      groups := groups[item.category := groups[item.category] + [item]];
    }
    assert filtered[..|filtered|] == filtered;
  }

  /** The modal state of this page. */
  class ItemModal {
    var selectedItem: Option<MenuItem>
    var isModalOpen: bool

    constructor ()
      ensures selectedItem == None && !isModalOpen
    {
      selectedItem := None;
      isModalOpen := false;
    }

    /** `handleItemClick`: opens the modal on the clicked item. */
    method HandleItemClick(item: MenuItem)
      modifies this
      ensures selectedItem == Some(item) && isModalOpen
    {
      selectedItem := Some(item);
      isModalOpen := true;
    }

    /** `handleCloseModal`: closes the modal and clears the selection. */
    method HandleCloseModal()
      modifies this
      ensures selectedItem == None && !isModalOpen
    {
      isModalOpen := false;
      selectedItem := None;
    }
  }
}
