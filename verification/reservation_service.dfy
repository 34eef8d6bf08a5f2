/** The in-memory reservation table
    (`src/services/api/reservationService.js`). Each call is one atomic
    step; the artificial delay is not modelled. The clock is a parameter:
    `now` is `Date.now()` and `iso(t)` is `new Date(t).toISOString()`. */
module ReservationService {
  import opened Wrappers
  import opened Records
  import opened Text
  import ReservationForm

  const NotFound := "Reservation not found"

  /** `{ ...reservation, id, status: 'pending', createdAt }` */
  function NewReservation(reservation: Record, now: nat, iso: nat -> string): (r: Record)
    ensures r.Keys == reservation.Keys + {"id", "status", "createdAt"}
    ensures r["id"] == Str(Decimal(now)) && r["status"] == Str("pending")
    ensures r["createdAt"] == Str(iso(now))
    ensures forall k :: k in reservation && k !in {"id", "status", "createdAt"} ==> r[k] == reservation[k]
  {
    Spread(reservation, map["id" := Str(Decimal(now)), "status" := Str("pending"), "createdAt" := Str(iso(now))])
  }

  class ReservationTable {
    var reservationData: seq<Record>

    /** The table as seeded from the fixture. */
    constructor (fixture: seq<Record>)
      ensures reservationData == fixture
    {
      reservationData := fixture;
    }

    /** `getAll`: a copy of the table, in table order. */
    method GetAll() returns (r: seq<Record>)
      ensures r == reservationData
    {
      r := reservationData;
    }

    /** `getById`: the first record with that id, or "Reservation not found". */
    method GetById(id: string) returns (r: Result<Record>)
      ensures r.Err? <==> NoneHasId(reservationData, id)
      ensures r.Err? ==> r.message == NotFound
      ensures r.Ok? ==> exists i :: 0 <= i < |reservationData| && r.value == reservationData[i]
                          && HasId(reservationData[i], id) && NoneHasId(reservationData[..i], id)
    {
      var found := IndexOfId(reservationData, id);
      match found {
        case None => r := Err(NotFound);
        case Some(i) => r := Ok(reservationData[i]);
      }
    }

    /** `create`: appends the new record. */
    method Create(reservation: Record, now: nat, iso: nat -> string) returns (r: Record)
      modifies this
      ensures r == NewReservation(reservation, now, iso)
      ensures reservationData == old(reservationData) + [r]
    {
      r := NewReservation(reservation, now, iso);
      reservationData := reservationData + [r];
    }

    /** `update`: merges `data` into the first record with that id. */
    method Update(id: string, data: Record) returns (r: Result<Record>)
      modifies this
      ensures match IndexOfId(old(reservationData), id)
        case None => r == Err(NotFound) && reservationData == old(reservationData)
        case Some(i) =>
          && r == Ok(Spread(old(reservationData)[i], data))
          && reservationData == old(reservationData)[i := r.value]
    {
      var found := IndexOfId(reservationData, id);
      match found {
        case None => r := Err(NotFound);
        case Some(i) =>
          reservationData := reservationData[i := Spread(reservationData[i], data)];
          r := Ok(reservationData[i]);
      }
    }

    /** `delete`: splices out the first record with that id. */
    method Delete(id: string) returns (r: Result<Record>)
      modifies this
      ensures match IndexOfId(old(reservationData), id)
        case None => r == Err(NotFound) && reservationData == old(reservationData)
        case Some(i) => r == Ok(Success) && reservationData == RemoveAt(old(reservationData), i)
    {
      var found := IndexOfId(reservationData, id);
      match found {
        case None => r := Err(NotFound);
        case Some(i) =>
          reservationData := RemoveAt(reservationData, i);
          r := Ok(Success);
      }
    }

    /** `getAvailableTimeSlots`: the same nine slots whatever the date. */
    method GetAvailableTimeSlots(date: string) returns (slots: seq<string>)
      ensures |slots| == 9
      ensures forall k :: 0 <= k < 9 ==> slots[k] == ReservationForm.SlotLabel(k)
    {
      slots := ReservationForm.TimeSlots;
      ReservationForm.TimeSlotsAreHalfHours();
    }
  }
}
