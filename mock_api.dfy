/** The in-memory store behind the mock API: module-level lists of bookings,
    rooms, cleaning tasks and properties that the API functions search,
    extend, overwrite by index and splice. Clock readings (the ISO timestamp
    and the year) are parameters. */
module MockApi {
  import opened Wrappers
  import opened JsStrings
  import opened Seqs
  import opened BookingTypes
  import opened MockRecords

  /** A room as the store keeps it. */
  datatype StoredRoom = StoredRoom(id: string, number: string, property: string, status: string)

  function BookingKey(b: StoredBooking): Option<string> { Some(b.id) }
  function RoomKey(r: StoredRoom): Option<string> { Some(r.id) }
  function TaskKey(t: CleaningTask): Option<string> { Some(t.id) }

  /** No two bookings share an id. */
  predicate UniqueIds(s: seq<StoredBooking>) {
    forall i, j :: 0 <= i < j < |s| ==> s[i].id != s[j].id
  }

  /** Every stored booking as the pages see it, in order. */
  function EnhanceAll(s: seq<StoredBooking>): (r: seq<Booking>)
    ensures |r| == |s| && forall i :: 0 <= i < |s| ==> r[i] == Enhance(s[i])
  {
    seq(|s|, i requires 0 <= i < |s| => Enhance(s[i]))
  }

  /** The lookup `fetchBookingById` performs: the first booking with the id,
      or the not-found error. */
  function FindBooking(s: seq<StoredBooking>, id: string): (r: Result<Booking, ApiError>)
    ensures r.Failure? <==> forall i :: 0 <= i < |s| ==> s[i].id != id
    ensures r.Failure? ==> r.error == NotFoundError("Booking", id)
    ensures r.Success? ==> exists i :: 0 <= i < |s| && s[i].id == id && r.value == Enhance(s[i])
                                       && forall j :: 0 <= j < i ==> s[j].id != id
  {
    var i := IndexOfKey(s, BookingKey, id);
    if i == -1 then
      assert forall j :: 0 <= j < |s| ==> BookingKey(s[j]) != Some(id);
      Failure(NotFoundError("Booking", id))
    else Success(Enhance(s[i]))
  }

  /** Today's arrivals: confirmed bookings whose check-in date is `today`. */
  function TodayCheckins(s: seq<StoredBooking>, today: string): (r: seq<Booking>)
    ensures |r| <= |s|
    ensures forall i :: 0 <= i < |r| ==> r[i].status == "confirmed" && DatePart(r[i].check_in) == today
  {
    var kept := Filter(s, b => ChecksInOn(b, today));
    assert forall i :: 0 <= i < |kept| ==> kept[i] in kept;
    EnhanceAll(kept)
  }

  /** Today's departures: checked-in bookings whose check-out date is `today`. */
  function TodayCheckouts(s: seq<StoredBooking>, today: string): (r: seq<Booking>)
    ensures |r| <= |s|
    ensures forall i :: 0 <= i < |r| ==> r[i].status == "checked_in" && DatePart(r[i].check_out) == today
  {
    var kept := Filter(s, b => ChecksOutOn(b, today));
    assert forall i :: 0 <= i < |kept| ==> kept[i] in kept;
    EnhanceAll(kept)
  }

  /** Today's arrivals are exactly the confirmed bookings whose check-in
      date part is `today`, whether stored as a date or a full timestamp. */
  lemma TodayCheckinsExact(s: seq<StoredBooking>, today: string, b: Booking)
    ensures b in TodayCheckins(s, today)
            <==> exists i :: 0 <= i < |s| && DatePart(s[i].check_in) == today && s[i].status == "confirmed"
                             && b == Enhance(s[i])
  {
    var p := (x: StoredBooking) => ChecksInOn(x, today);
    MapFilterExact(s, p, Enhance, TodayCheckins(s, today), b);
  }

  /** Today's departures are exactly the checked-in bookings whose check-out
      date part is `today`. */
  lemma TodayCheckoutsExact(s: seq<StoredBooking>, today: string, b: Booking)
    ensures b in TodayCheckouts(s, today)
            <==> exists i :: 0 <= i < |s| && DatePart(s[i].check_out) == today && s[i].status == "checked_in"
                             && b == Enhance(s[i])
  {
    var p := (x: StoredBooking) => ChecksOutOn(x, today);
    MapFilterExact(s, p, Enhance, TodayCheckouts(s, today), b);
  }

  /** A booking stored with a date only, or with a date and a time, checks
      in on that date. */
  lemma TodayCheckinsDateOrTimestamp(s: seq<StoredBooking>, i: nat, today: string, time: string)
    requires i < |s| && 'T' !in today && s[i].status == "confirmed"
    requires s[i].check_in == today || s[i].check_in == today + "T" + time
    ensures Enhance(s[i]) in TodayCheckins(s, today)
  {
    if s[i].check_in == today {
      SplitWithoutSep(today, 'T');
    } else {
      DatePartOf(today, time);
    }
    TodayCheckinsExact(s, today, Enhance(s[i]));
  }

  /** Fetching a booking right after updating it: an update that keeps the
      id returns the merged record; one that sends a new id moves the record
      to that id, so (with unique ids) the old id is no longer found, and the
      new id finds the merged record unless an earlier booking already has it. */
  lemma FindAfterUpdate(s: seq<StoredBooking>, id: string, p: BookingPatch, now: string)
    requires IndexOfKey(s, BookingKey, id) >= 0
    ensures var i := IndexOfKey(s, BookingKey, id);
      var m := Merge(s[i], p, now);
      var t := s[i := m];
      (p.id.None? || p.id == Some(id) ==> FindBooking(t, id) == Success(Enhance(m)))
      && (p.id.Some? && p.id.value != id && UniqueIds(s) ==> FindBooking(t, id).Failure?)
      && (p.id.Some? && (forall j :: 0 <= j < i ==> s[j].id != p.id.value)
          ==> FindBooking(t, p.id.value) == Success(Enhance(m)))
  {
    var i := IndexOfKey(s, BookingKey, id);
    var m := Merge(s[i], p, now);
    if p.id.None? || p.id == Some(id) {
      FindReplaced(s, i, m);
    }
    if p.id.Some? && p.id.value != id && UniqueIds(s) {
      FindRenamedAway(s, i, m);
    }
    if p.id.Some? && (forall j :: 0 <= j < i ==> s[j].id != p.id.value) {
      FindReplaced(s, i, m);
    }
  }

  /** A record put at `i`, with no earlier record sharing its id, is what a
      fetch by its id finds. */
  lemma FindReplaced(s: seq<StoredBooking>, i: nat, m: StoredBooking)
    requires i < |s| && forall j :: 0 <= j < i ==> s[j].id != m.id
    ensures FindBooking(s[i := m], m.id) == Success(Enhance(m))
  {
    var t := s[i := m];
    assert forall j :: 0 <= j < i ==> t[j] == s[j];
    assert BookingKey(t[i]) == Some(m.id);
    IndexOfKeyAt(t, BookingKey, m.id, i);
  }

  /** With unique ids, replacing the only record with an id by one under
      another id leaves no record with the old id. */
  lemma FindRenamedAway(s: seq<StoredBooking>, i: nat, m: StoredBooking)
    requires i < |s| && UniqueIds(s) && m.id != s[i].id
    ensures FindBooking(s[i := m], s[i].id).Failure?
  {
    var t := s[i := m];
    forall j | 0 <= j < |t| ensures t[j].id != s[i].id {
      if j < i {
        assert t[j] == s[j];
      } else if j > i {
        assert t[j] == s[j];
      }
    }
  }

  /** With unique ids, a deleted booking can no longer be fetched. */
  lemma FindAfterDelete(s: seq<StoredBooking>, id: string)
    requires UniqueIds(s) && IndexOfKey(s, BookingKey, id) >= 0
    ensures FindBooking(RemoveAt(s, IndexOfKey(s, BookingKey, id)), id).Failure?
  {
    var i := IndexOfKey(s, BookingKey, id);
    var t := RemoveAt(s, i);
    forall j | 0 <= j < |t| ensures t[j].id != id {
      if j >= i {
        assert t[j] == s[j + 1];
      }
    }
  }

  /** A booking created with an unused id can be fetched back as created. */
  lemma FindAfterCreate(s: seq<StoredBooking>, rec: StoredBooking)
    requires forall i :: 0 <= i < |s| ==> s[i].id != rec.id
    ensures FindBooking(s + [rec], rec.id) == Success(Enhance(rec))
  {
    var t := s + [rec];
    assert BookingKey(t[|s|]) == Some(rec.id);
    assert forall j :: 0 <= j < |s| ==> BookingKey(t[j]) != Some(rec.id);
  }

  /** New ids come from the list's length, so deleting any booking but the
      last and then creating one reuses the id of the last: after
      [b1, b2, b3], deleting b1 and creating gives a second b3. */
  lemma DeleteThenCreateDuplicatesId(s: seq<StoredBooking>, i: nat, p: BookingPatch, g: GuestData, year: int, now: string)
    requires |s| >= 2 && i < |s| - 1
    requires s[|s| - 1].id == "b" + NatToString(|s|)
    ensures var t := RemoveAt(s, i) + [NewBookingRecord(|s| - 1, p, g, year, now)];
      |t| == |s| && t[|t| - 2].id == t[|t| - 1].id && !UniqueIds(t)
  {
    var rec := NewBookingRecord(|s| - 1, p, g, year, now);
    assert rec.id == s[|s| - 1].id;
    AppendAfterRemoveDuplicates(s, i, rec);
  }

  /** Removing a record other than the last and appending one with the
      last record's id leaves two records with that id at the end. */
  lemma AppendAfterRemoveDuplicates(s: seq<StoredBooking>, i: nat, rec: StoredBooking)
    requires |s| >= 2 && i < |s| - 1 && rec.id == s[|s| - 1].id
    ensures var t := RemoveAt(s, i) + [rec];
      |t| == |s| && t[|t| - 2].id == t[|t| - 1].id && !UniqueIds(t)
  {
    var u := RemoveAt(s, i);
    assert u[|u| - 1] == s[|s| - 1];
    var t := u + [rec];
    assert t[|t| - 2] == u[|u| - 1] && t[|t| - 1] == rec;
  }

  class MockDatabase {
    var bookings: seq<StoredBooking>
    var rooms: seq<StoredRoom>
    var cleaningTasks: seq<CleaningTask>
    var properties: seq<Property>

    /** The store starts from the seed lists. */
    constructor(bookings0: seq<StoredBooking>, rooms0: seq<StoredRoom>, tasks0: seq<CleaningTask>, properties0: seq<Property>)
      ensures bookings == bookings0 && rooms == rooms0 && cleaningTasks == tasks0 && properties == properties0
    {
      bookings := bookings0;
      rooms := rooms0;
      cleaningTasks := tasks0;
      properties := properties0;
    }

    /** `fetchBookings`. */
    function FetchBookings(): (r: seq<Booking>)
      reads this
      ensures |r| == |bookings| && forall i :: 0 <= i < |r| ==> r[i] == Enhance(bookings[i])
    {
      EnhanceAll(bookings)
    }

    /** `fetchBookingById`. */
    function FetchBookingById(id: string): (r: Result<Booking, ApiError>)
      reads this
      ensures r == FindBooking(bookings, id)
      ensures r.Failure? <==> forall i :: 0 <= i < |bookings| ==> bookings[i].id != id
    {
      FindBooking(bookings, id)
    }

    /** `fetchTodayCheckins` for the day `today` ("YYYY-MM-DD"). */
    function FetchTodayCheckins(today: string): (r: seq<Booking>)
      reads this
      ensures forall i :: 0 <= i < |r| ==> r[i].status == "confirmed" && DatePart(r[i].check_in) == today
    {
      TodayCheckins(bookings, today)
    }

    /** `fetchTodayCheckouts` for the day `today`. */
    function FetchTodayCheckouts(today: string): (r: seq<Booking>)
      reads this
      ensures forall i :: 0 <= i < |r| ==> r[i].status == "checked_in" && DatePart(r[i].check_out) == today
    {
      TodayCheckouts(bookings, today)
    }

    /** `createBooking`: exactly one record is appended; earlier ones are untouched. */
    method CreateBooking(p: BookingPatch, g: GuestData, year: int, now: string) returns (r: Booking)
      modifies this`bookings
      ensures bookings == old(bookings) + [NewBookingRecord(|old(bookings)|, p, g, year, now)]
      ensures r == Enhance(bookings[|bookings| - 1])
      ensures r.id == "b" + NatToString(|old(bookings)| + 1)
    {
      var rec := NewBookingRecord(|bookings|, p, g, year, now);
      bookings := bookings + [rec];
      r := Enhance(rec);
    }

    /** `updateBooking`: the first record with the id is replaced by the
      merge; a missing id is an error and changes nothing. */
    method UpdateBooking(id: string, p: BookingPatch, now: string) returns (r: Result<Booking, ApiError>)
      modifies this`bookings
      ensures var i := IndexOfKey(old(bookings), BookingKey, id);
        (i == -1 ==> r == Failure(NotFoundError("Booking", id)) && bookings == old(bookings))
        && (i >= 0 ==>
              bookings == old(bookings)[i := Merge(old(bookings)[i], p, now)]
              && r == Success(Enhance(bookings[i])))
      ensures |bookings| == |old(bookings)|
    {
      var i := IndexOfKey(bookings, BookingKey, id);
      if i == -1 {
        return Failure(NotFoundError("Booking", id));
      }
      bookings := bookings[i := Merge(bookings[i], p, now)];
      r := Success(Enhance(bookings[i]));
    }

    /** `deleteBooking`: the first record with the id is spliced out. */
    method DeleteBooking(id: string) returns (r: Result<(), ApiError>)
      modifies this`bookings
      ensures var i := IndexOfKey(old(bookings), BookingKey, id);
        (i == -1 ==> r == Failure(NotFoundError("Booking", id)) && bookings == old(bookings))
        && (i >= 0 ==> r == Success(()) && bookings == RemoveAt(old(bookings), i))
    {
      var i := IndexOfKey(bookings, BookingKey, id);
      if i == -1 {
        return Failure(NotFoundError("Booking", id));
      }
      bookings := bookings[..i] + bookings[i + 1..];
      r := Success(());
    }

    /** `updateBookingStatus`: only the status of the first match changes. */
    method UpdateBookingStatus(id: string, status: string) returns (r: Result<(), ApiError>)
      modifies this`bookings
      ensures var i := IndexOfKey(old(bookings), BookingKey, id);
        (i == -1 ==> r == Failure(NotFoundError("Booking", id)) && bookings == old(bookings))
        && (i >= 0 ==> r == Success(()) && bookings == old(bookings)[i := old(bookings)[i].(status := status)])
    {
      var i := IndexOfKey(bookings, BookingKey, id);
      if i == -1 {
        return Failure(NotFoundError("Booking", id));
      }
      bookings := bookings[i := bookings[i].(status := status)];
      r := Success(());
    }

    /** `updateRoomStatus`: only the status of the first matching room changes. */
    method UpdateRoomStatus(id: string, status: string) returns (r: Result<(), ApiError>)
      modifies this`rooms
      ensures var i := IndexOfKey(old(rooms), RoomKey, id);
        (i == -1 ==> r == Failure(NotFoundError("Room", id)) && rooms == old(rooms))
        && (i >= 0 ==> r == Success(()) && rooms == old(rooms)[i := old(rooms)[i].(status := status)])
    {
      var i := IndexOfKey(rooms, RoomKey, id);
      if i == -1 {
        return Failure(NotFoundError("Room", id));
      }
      rooms := rooms[i := rooms[i].(status := status)];
      r := Success(());
    }

    /** `updateCleaningTaskStatus`: only the status of the first matching task changes. */
    method UpdateCleaningTaskStatus(id: string, status: string) returns (r: Result<(), ApiError>)
      modifies this`cleaningTasks
      ensures var i := IndexOfKey(old(cleaningTasks), TaskKey, id);
        (i == -1 ==> r == Failure(NotFoundError("Cleaning task", id)) && cleaningTasks == old(cleaningTasks))
        && (i >= 0 ==>
              r == Success(()) && cleaningTasks == old(cleaningTasks)[i := old(cleaningTasks)[i].(status := status)])
    {
      var i := IndexOfKey(cleaningTasks, TaskKey, id);
      if i == -1 {
        return Failure(NotFoundError("Cleaning task", id));
      }
      cleaningTasks := cleaningTasks[i := cleaningTasks[i].(status := status)];
      r := Success(());
    }

    /** `fetchPropertyById`. */
    function FetchPropertyById(id: string): (r: Result<Property, ApiError>)
      reads this
      ensures r.Failure? <==> forall i :: 0 <= i < |properties| ==> PropertyId(properties[i]) != Some(id)
      ensures r.Success? ==> exists i :: 0 <= i < |properties| && r.value == properties[i]
                                         && PropertyId(properties[i]) == Some(id)
                                         && forall j :: 0 <= j < i ==> PropertyId(properties[j]) != Some(id)
    {
      var i := IndexOfKey(properties, PropertyId, id);
      if i == -1 then Failure(NotFoundError("Property", id)) else Success(properties[i])
    }

    /** `createProperty`: the new property is appended and returned. */
    method CreateProperty(data: Property, now: string) returns (p: Property)
      modifies this`properties
      ensures properties == old(properties) + [NewProperty(|old(properties)|, data, now)]
      ensures p == properties[|properties| - 1]
    {
      p := NewProperty(|properties|, data, now);
      properties := properties + [p];
    }

    /** `updateProperty`: the first property with the id is merged with the new fields. */
    method UpdateProperty(id: string, data: Property, now: string) returns (r: Result<Property, ApiError>)
      modifies this`properties
      ensures var i := IndexOfKey(old(properties), PropertyId, id);
        (i == -1 ==> r == Failure(NotFoundError("Property", id)) && properties == old(properties))
        && (i >= 0 ==>
              properties == old(properties)[i := MergedProperty(old(properties)[i], data, now)]
              && r == Success(properties[i]))
    {
      var i := IndexOfKey(properties, PropertyId, id);
      if i == -1 {
        return Failure(NotFoundError("Property", id));
      }
      properties := properties[i := MergedProperty(properties[i], data, now)];
      r := Success(properties[i]);
    }

    /** `deleteProperty`: the first property with the id is spliced out. */
    method DeleteProperty(id: string) returns (r: Result<(), ApiError>)
      modifies this`properties
      ensures var i := IndexOfKey(old(properties), PropertyId, id);
        (i == -1 ==> r == Failure(NotFoundError("Property", id)) && properties == old(properties))
        && (i >= 0 ==> r == Success(()) && properties == RemoveAt(old(properties), i))
    {
      var i := IndexOfKey(properties, PropertyId, id);
      if i == -1 {
        return Failure(NotFoundError("Property", id));
      }
      properties := properties[..i] + properties[i + 1..];
      r := Success(());
    }
  }
}
