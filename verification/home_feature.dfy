/** The home-page feature block (`src/components/MainFeature.jsx`, and its
    copy `src/components/organisms/MainFeatureSection.jsx`): the featured
    dishes and the quick reservation form. The outcome of
    `reservationService.create` is a parameter. */
module HomeFeature {
  import opened Wrappers
  import opened Seqs
  import opened Catalog
  import opened Records
  import opened ReservationForm

  /** The categories a featured dish may come from. */
  const MainCategories: seq<string> := ["Appetizers", "Main Courses", "Desserts"]

  predicate IsMain(item: MenuItem) {
    item.category in MainCategories
  }

  /** `items.filter(main category).slice(0, 3)`: the first (up to) three
      main-category dishes of the menu. */
  function Featured(items: seq<MenuItem>): (r: seq<MenuItem>)
    ensures |r| == if |Filter(items, IsMain)| < 3 then |Filter(items, IsMain)| else 3
    ensures r == Filter(items, IsMain)[..|r|]
    ensures forall item :: item in r ==> item in items && IsMain(item)
    ensures IsSubsequence(r, items)
    ensures |r| < 3 ==> forall item :: item in items && IsMain(item) ==> item in r
  {
    var main := Filter(items, IsMain);
    FilterIsSubsequence(items, IsMain);
    var r := Take(main, 3);
    assert r + main[|r|..] == main;
    SubsequencePrefix(r, main[|r|..], items);
    r
  }

  /** The three featured dishes need not come from three categories: a menu
      that opens with three appetizers features only appetizers. */
  lemma FeaturedMayRepeatCategory()
    ensures var soup := MenuItem("1", "Soup", "Appetizers", 6.0, "");
            var salad := MenuItem("2", "Salad", "Appetizers", 7.0, "");
            var bread := MenuItem("3", "Bread", "Appetizers", 4.0, "");
            var cake := MenuItem("4", "Cake", "Desserts", 8.0, "");
            Featured([soup, salad, bread, cake]) == [soup, salad, bread]
  {
    var soup := MenuItem("1", "Soup", "Appetizers", 6.0, "");
    var salad := MenuItem("2", "Salad", "Appetizers", 7.0, "");
    var bread := MenuItem("3", "Bread", "Appetizers", 4.0, "");
    var cake := MenuItem("4", "Cake", "Desserts", 8.0, "");
    var menu := [soup, salad, bread, cake];
    assert MainCategories[0] == "Appetizers" && MainCategories[2] == "Desserts";
    FilterKeepsAll(menu, IsMain);
  }

  /** The `quickReservation` state. */
  datatype QuickForm = QuickForm(date: string, time: string, guests: int)

  const EmptyQuickForm := QuickForm("", "", 2)

  /** The guard: date and time both chosen. */
  predicate Complete(form: QuickForm) {
    form.date != "" && form.time != ""
  }

  /** `{ ...quickReservation, name, email, phone, specialRequests }` with the
      fixed guest contact. */
  function QuickPayload(form: QuickForm): (r: Record)
    ensures r.Keys == {"date", "time", "guests", "name", "email", "phone", "specialRequests"}
    ensures r["date"] == Str(form.date) && r["time"] == Str(form.time)
    ensures r["guests"] == Num(form.guests as real)
    ensures r["name"] == Str("Quick Reservation") && r["email"] == Str("guest@example.com")
    ensures r["phone"] == Str("(555) 000-0000")
    ensures r["specialRequests"] == Str("Quick reservation from homepage")
  {
    Spread(
      map["date" := Str(form.date), "time" := Str(form.time), "guests" := Num(form.guests as real)],
      map["name" := Str("Quick Reservation"), "email" := Str("guest@example.com"),
          "phone" := Str("(555) 000-0000"), "specialRequests" := Str("Quick reservation from homepage")])
  }

  /** `guestOptions`: one to eight guests. */
  function QuickGuestOptions(): (r: seq<int>)
    ensures |r| == 8
    ensures forall v :: v in r <==> 1 <= v <= 8
    ensures forall i, j :: 0 <= i < j < |r| ==> r[i] < r[j]
  {
    GuestOptions(8)
  }

  /** `timeOptions`: the empty placeholder, then the nine slots. */
  function TimeOptions(): seq<string> {
    [""] + TimeSlots
  }

  /** The placeholder comes first and is the only option the guard refuses;
      every other option is a half-hour slot, in order. */
  lemma TimeOptionsShape(form: QuickForm)
    ensures |TimeOptions()| == 10 && TimeOptions()[0] == ""
    ensures forall k :: 1 <= k < 10 ==> TimeOptions()[k] == SlotLabel(k - 1)
    ensures form.time == TimeOptions()[0] ==> !Complete(form)
    ensures form.date != "" && form.time in TimeOptions()[1..] ==> Complete(form)
  {
    TimeSlotsAreHalfHours();
    assert TimeOptions()[1..] == TimeSlots;
  }

  /** The quick reservation form's state. */
  class QuickReservation {
    var quickReservation: QuickForm

    constructor ()
      ensures quickReservation == EmptyQuickForm
    {
      quickReservation := EmptyQuickForm;
    }

    method SetDate(value: string)
      modifies this
      ensures quickReservation == old(quickReservation).(date := value)
    {
      quickReservation := quickReservation.(date := value);
    }

    method SetTime(value: string)
      modifies this
      ensures quickReservation == old(quickReservation).(time := value)
    {
      quickReservation := quickReservation.(time := value);
    }

    /** The guests select, after `parseInt`. */
    method SetGuests(value: int)
      modifies this
      ensures quickReservation == old(quickReservation).(guests := value)
    {
      quickReservation := quickReservation.(guests := value);
    }

    /** `handleQuickReservation`. `sent` is the record handed to the
        service, or `None` when the guard stopped the submission. */
    method HandleQuickReservation(created: bool) returns (sent: Option<Record>)
      modifies this
      ensures sent.None? <==> !Complete(old(quickReservation))
      ensures sent.Some? ==> sent.value == QuickPayload(old(quickReservation))
      ensures quickReservation == if sent.Some? && created then EmptyQuickForm else old(quickReservation)
    {
      if !Complete(quickReservation) {
        return None;
      }
      sent := Some(QuickPayload(quickReservation));
      if created {
        quickReservation := EmptyQuickForm;
      }
    }
  }
}
