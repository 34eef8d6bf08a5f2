/** The in-memory menu table (`src/services/api/menuService.js`). */
module MenuService {
  import opened Wrappers
  import opened Records
  import opened Text
  import opened Seqs

  const NotFound := "Menu item not found"

  /** `item.category === category` */
  predicate HasCategory(rec: Record, category: string) {
    "category" in rec && rec["category"] == Str(category)
  }

  /** `{ ...item, id }`: the generated id replaces the caller's. */
  function NewItem(item: Record, now: nat): (r: Record)
    ensures r.Keys == item.Keys + {"id"}
    ensures r["id"] == Str(Decimal(now))
    ensures forall k :: k in item && k != "id" ==> r[k] == item[k]
  {
    Spread(item, map["id" := Str(Decimal(now))])
  }

  class MenuTable {
    var menuData: seq<Record>

    constructor (fixture: seq<Record>)
      ensures menuData == fixture
    {
      menuData := fixture;
    }

    /** `getAll` */
    method GetAll() returns (r: seq<Record>)
      ensures r == menuData
    {
      r := menuData;
    }

    /** `getById`: the first item with that id, or "Menu item not found". */
    method GetById(id: string) returns (r: Result<Record>)
      ensures r.Err? <==> NoneHasId(menuData, id)
      ensures r.Err? ==> r.message == NotFound
      ensures r.Ok? ==> exists i :: 0 <= i < |menuData| && r.value == menuData[i]
                          && HasId(menuData[i], id) && NoneHasId(menuData[..i], id)
    {
      var found := IndexOfId(menuData, id);
      match found {
        case None => r := Err(NotFound);
        case Some(i) => r := Ok(menuData[i]);
      }
    }

    /** `getByCategory`: exactly the items of that category, in table order. */
    method GetByCategory(category: string) returns (r: seq<Record>)
      ensures forall x :: x in r <==> x in menuData && HasCategory(x, category)
      ensures IsSubsequence(r, menuData)
      ensures forall x :: multiset(r)[x] == if HasCategory(x, category) then multiset(menuData)[x] else 0
    {
      r := Filter(menuData, (x: Record) => HasCategory(x, category));
      FilterIsSubsequence(menuData, (x: Record) => HasCategory(x, category));
      FilterCounts(menuData, (x: Record) => HasCategory(x, category));
    }

    /** `create`: appends the item under a generated id. */
    method Create(item: Record, now: nat) returns (r: Record)
      modifies this
      ensures r == NewItem(item, now)
      ensures menuData == old(menuData) + [r]
    {
      r := NewItem(item, now);
      menuData := menuData + [r];
    }

    /** `update`: merges `data` into the first item with that id. */
    method Update(id: string, data: Record) returns (r: Result<Record>)
      modifies this
      ensures match IndexOfId(old(menuData), id)
        case None => r == Err(NotFound) && menuData == old(menuData)
        case Some(i) =>
          && r == Ok(Spread(old(menuData)[i], data))
          && menuData == old(menuData)[i := r.value]
    {
      var found := IndexOfId(menuData, id);
      match found {
        case None => r := Err(NotFound);
        case Some(i) =>
          menuData := menuData[i := Spread(menuData[i], data)];
          r := Ok(menuData[i]);
      }
    }

    /** `delete`: splices out the first item with that id. */
    method Delete(id: string) returns (r: Result<Record>)
      modifies this
      ensures match IndexOfId(old(menuData), id)
        case None => r == Err(NotFound) && menuData == old(menuData)
        case Some(i) => r == Ok(Success) && menuData == RemoveAt(old(menuData), i)
    {
      var found := IndexOfId(menuData, id);
      match found {
        case None => r := Err(NotFound);
        case Some(i) =>
          menuData := RemoveAt(menuData, i);
          r := Ok(Success);
      }
    }
  }
}
