/** The plain JavaScript objects that the in-memory services store and
    return. An object is a map from property names to values; a property
    that is absent reads as `undefined`. */
module Records {
  import opened Wrappers

  datatype JsValue =
    | Str(s: string)
    | Num(n: real)
    | Bool(b: bool)
    | Null
    | Obj(fields: map<string, JsValue>)
    | Arr(elems: seq<JsValue>)

  type Record = map<string, JsValue>

  /** JavaScript truthiness of `r[key]` (NaN is not modelled). */
  predicate Truthy(r: Record, key: string) {
    key in r &&
    match r[key]
    case Str(s) => s != ""
    case Num(n) => n != 0.0
    case Bool(b) => b
    case Null => false
    case Obj(_) => true
    case Arr(_) => true
  }

  /** `{ ...a, ...b }`: every property of `b`, and those of `a` that `b` lacks. */
  function Spread(a: Record, b: Record): (r: Record)
    ensures r.Keys == a.Keys + b.Keys
    ensures forall k :: k in b ==> r[k] == b[k]
    ensures forall k :: k in a && k !in b ==> r[k] == a[k]
  {
    a + b
  }

  /** `rec.id === id` for a string `id`: true only for a string property
      with the same characters. */
  predicate HasId(rec: Record, id: string) {
    "id" in rec && rec["id"] == Str(id)
  }

  predicate NoneHasId(data: seq<Record>, id: string) {
    forall j :: 0 <= j < |data| ==> !HasId(data[j], id)
  }

  /** `data.findIndex(rec => rec.id === id)`, with `None` for -1. */
  function IndexOfId(data: seq<Record>, id: string): (r: Option<nat>)
    ensures r.None? <==> NoneHasId(data, id)
    ensures r.Some? ==> r.value < |data| && HasId(data[r.value], id)
    ensures r.Some? ==> NoneHasId(data[..r.value], id)
  {
    if data == [] then None
    else if HasId(data[0], id) then Some(0)
    else
      match IndexOfId(data[1..], id)
      case None => None
      case Some(i) =>
        assert data[..i + 1] == [data[0]] + data[1..][..i];
        Some(i + 1)
  }

  /** `data.splice(i, 1)`. */
  function RemoveAt<T>(data: seq<T>, i: nat): (r: seq<T>)
    requires i < |data|
    ensures |r| == |data| - 1
    ensures r[..i] == data[..i]
    ensures forall j :: i <= j < |r| ==> r[j] == data[j + 1]
  {
    data[..i] + data[i + 1..]
  }

  /** Splicing out index i drops exactly that one record. */
  lemma RemoveAtMultiset<T>(data: seq<T>, i: nat)
    requires i < |data|
    ensures multiset(RemoveAt(data, i)) == multiset(data) - multiset{data[i]}
  {
    assert data == data[..i] + [data[i]] + data[i + 1..];
  }

  /** A merge whose patch has no `id` keeps the record findable at the
      same index, so a later lookup returns the merged record. */
  lemma MergeKeepsLookup(data: seq<Record>, id: string, patch: Record)
    requires IndexOfId(data, id).Some? && "id" !in patch
    ensures var i := IndexOfId(data, id).value;
      IndexOfId(data[i := Spread(data[i], patch)], id) == Some(i)
  {
    var i := IndexOfId(data, id).value;
    var data' := data[i := Spread(data[i], patch)];
    assert data'[..i] == data[..i];
    assert HasId(data'[i], id);
  }

  /** The `{ success: true }` object that a delete resolves to. */
  const Success: Record := map["success" := Bool(true)]
}
