/** What the two reservation wizards share: the draft they edit, the gate
    that decides whether "Next" may advance, the time slots and the guest
    choices. The draft is the plain object later passed to the reservation
    service, so it is a `Record`. */
module ReservationForm {
  import opened Records
  import opened Text

  /** The half-hour slots from 5:00 PM to 9:00 PM, in display order. */
  const TimeSlots: seq<string> := [
    "5:00 PM", "5:30 PM", "6:00 PM", "6:30 PM",
    "7:00 PM", "7:30 PM", "8:00 PM", "8:30 PM", "9:00 PM"]

  /** The k-th half hour after 5:00 PM, spelled as the slot list spells it. */
  function SlotLabel(k: nat): string
    requires k < 9
  {
    [DigitChar(5 + k / 2)] + ":" + (if k % 2 == 0 then "00" else "30") + " PM"
  }

  /** The slot list is exactly the nine half hours from 5:00 PM to 9:00 PM. */
  lemma TimeSlotsAreHalfHours()
    ensures |TimeSlots| == 9
    ensures forall k :: 0 <= k < 9 ==> TimeSlots[k] == SlotLabel(k)
  {
    forall k | 0 <= k < 9
      ensures TimeSlots[k] == SlotLabel(k)
    {
      if k == 0 { assert SlotLabel(0) == "5:00 PM"; }
      else if k == 1 { assert SlotLabel(1) == "5:30 PM"; }
      else if k == 2 { assert SlotLabel(2) == "6:00 PM"; }
      else if k == 3 { assert SlotLabel(3) == "6:30 PM"; }
      else if k == 4 { assert SlotLabel(4) == "7:00 PM"; }
      else if k == 5 { assert SlotLabel(5) == "7:30 PM"; }
      else if k == 6 { assert SlotLabel(6) == "8:00 PM"; }
      else if k == 7 { assert SlotLabel(7) == "8:30 PM"; }
      else { assert SlotLabel(8) == "9:00 PM"; }
    }
  }

  /** `Array.from({ length: n }, (_, i) => i + 1)`: the guest counts 1..n,
      ascending, each once. */
  function GuestOptions(n: nat): (r: seq<int>)
    ensures |r| == n
    ensures forall v :: v in r <==> 1 <= v <= n
    ensures forall i, j :: 0 <= i < j < |r| ==> r[i] < r[j]
  {
    var r := seq(n, i => i + 1);
    assert forall v | 1 <= v <= n :: v in r by {
      forall v | 1 <= v <= n ensures v in r {
        assert r[v - 1] == v;
      }
    }
    r
  }

  /** The draft a wizard starts from and returns to after a successful submit. */
  const EmptyDraft: Record := map[
    "name" := Str(""), "email" := Str(""), "phone" := Str(""),
    "date" := Str(""), "time" := Str(""), "guests" := Num(2.0),
    "specialRequests" := Str("")]

  /** `canProceedToNext`: step 1 needs a date, a time and a guest count,
      step 2 a name, an email and a phone; every other step may advance. */
  predicate CanProceedToNext(step: int, d: Record) {
    if step == 1 then Truthy(d, "date") && Truthy(d, "time") && Truthy(d, "guests")
    else if step == 2 then Truthy(d, "name") && Truthy(d, "email") && Truthy(d, "phone")
    else true
  }

  /** `handleInputChange`: `{ ...prev, [name]: value }` with the input's string value. */
  function WithInput(d: Record, name: string, value: string): (r: Record)
    ensures name in r && r[name] == Str(value)
    ensures r.Keys == d.Keys + {name}
    ensures forall k :: k in d && k != name ==> r[k] == d[k]
  {
    d[name := Str(value)]
  }

  /** The reset draft passes neither gate: a wizard that keeps its step
      after a submit sits on a form that could not be filled in again
      without going back. */
  lemma EmptyDraftBlocksGates()
    ensures !CanProceedToNext(1, EmptyDraft) && !CanProceedToNext(2, EmptyDraft)
  {
  }
}
