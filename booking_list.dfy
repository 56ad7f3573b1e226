/** The staff booking list: which bookings the search, status and date
    filters keep, the remaining balance shown per booking, the status badge,
    and which status changes the row menu offers. */
module BookingList {
  import opened Wrappers
  import opened JsStrings
  import opened JsNumbers
  import opened Seqs
  import opened BookingTypes
  import opened BookingPricing
  import opened MockRecords
  import opened Ui

  /** The list's search box: empty matches everything; otherwise a
      case-insensitive substring of the guest name, reference, room number or
      property id. */
  predicate SearchMatches(b: Booking, query: string) {
    var q := ToLower(query);
    query == ""
    || Contains(ToLower(b.guest_name), q)
    || Contains(ToLower(b.reference), q)
    || Contains(ToLower(b.rooms.number), q)
    || Contains(ToLower(b.rooms.property_id), q)
  }

  /** The status drop-down: "all" or an exact status. */
  predicate StatusMatches(b: Booking, filterValue: string) {
    filterValue == "all" || b.status == filterValue
  }

  /** The date picker's range, in milliseconds. */
  datatype DateFilter = DateFilter(from: Option<int>, to: Option<int>)

  /** The date test: no start keeps everything; a start alone keeps
      bookings that check in by that day; a full range keeps bookings that
      check in by its end and check out from its start on. `parseDate` reads
      the booking's date text as `new Date(text)` does, `None` standing for
      an Invalid Date, which fails every comparison. */
  predicate DateMatches(b: Booking, range: DateFilter, parseDate: string -> Option<int>) {
    if range.from.None? then true
    else
      var filterTo := range.to.GetOr(range.from.value);
      var checkIn := parseDate(b.check_in_date);
      var checkOut := parseDate(b.check_out_date);
      checkIn.Some? && checkIn.value <= filterTo
      && (range.to.Some? ==> checkOut.Some? && checkOut.value >= range.from.value)
  }

  predicate Matches(b: Booking, query: string, filterValue: string, range: DateFilter, parseDate: string -> Option<int>) {
    SearchMatches(b, query) && StatusMatches(b, filterValue) && DateMatches(b, range, parseDate)
  }

  /** `filteredBookings`: no bookings loaded yet gives an empty list. */
  function FilteredBookings(bookings: Option<seq<Booking>>, query: string, filterValue: string,
                            range: DateFilter, parseDate: string -> Option<int>): (r: seq<Booking>)
    ensures bookings.None? ==> r == []
    ensures bookings.Some? ==> |r| <= |bookings.value|
    ensures forall x :: x in r ==> bookings.Some? && x in bookings.value && Matches(x, query, filterValue, range, parseDate)
  {
    match bookings
    case None => []
    case Some(s) => Filter(s, b => Matches(b, query, filterValue, range, parseDate))
  }

  /** The filter keeps the list's order and keeps every booking that matches. */
  lemma FilteredBookingsExact(s: seq<Booking>, query: string, filterValue: string, range: DateFilter,
                              parseDate: string -> Option<int>, i: nat)
    requires i < |s|
    ensures IsSubsequence(FilteredBookings(Some(s), query, filterValue, range, parseDate), s)
    ensures s[i] in FilteredBookings(Some(s), query, filterValue, range, parseDate)
            <==> Matches(s[i], query, filterValue, range, parseDate)
  {
    var p := (b: Booking) => Matches(b, query, filterValue, range, parseDate);
    FilterIsSubsequence(s, p);
    if p(s[i]) {
      FilterKeeps(s, p, i);
    }
  }

  /** With the default filters (no query, "all", no range) every booking is listed. */
  lemma FilteredBookingsDefaults(s: seq<Booking>, parseDate: string -> Option<int>)
    ensures FilteredBookings(Some(s), "", "all", DateFilter(None, None), parseDate) == s
  {
    FilterAll(s, (b: Booking) => Matches(b, "", "all", DateFilter(None, None), parseDate));
  }

  /** The search ignores the case of the query. */
  lemma SearchIgnoresQueryCase(b: Booking, query: string)
    ensures SearchMatches(b, ToUpper(query)) == SearchMatches(b, query)
  {
    LowerOfUpper(query);
  }

  /** A booking whose guest name contains the query, in any case, is found. */
  lemma SearchFindsGuestName(b: Booking, pre: string, query: string, post: string)
    requires ToLower(b.guest_name) == pre + ToLower(query) + post
    ensures SearchMatches(b, query)
  {
    var hay := ToLower(b.guest_name);
    var q := ToLower(query);
    assert hay[|pre|..|pre| + |q|] == q;
    assert OccursAt(hay, q, |pre|);
    ContainsIff(hay, q);
  }

  /** For a full range, the date test keeps exactly the stays with readable
      dates that share a moment with the range (for stays that do not end
      before they start). */
  lemma DateMatchesOverlap(b: Booking, from: int, to: int, parseDate: string -> Option<int>)
    requires from <= to
    requires parseDate(b.check_in_date).Some? && parseDate(b.check_out_date).Some? ==>
             parseDate(b.check_in_date).value <= parseDate(b.check_out_date).value
    ensures DateMatches(b, DateFilter(Some(from), Some(to)), parseDate)
            <==> parseDate(b.check_in_date).Some? && parseDate(b.check_out_date).Some?
                 && exists t :: Within(t, from, to)
                                && Within(t, parseDate(b.check_in_date).value, parseDate(b.check_out_date).value)
  {
    var cin := parseDate(b.check_in_date);
    var cout := parseDate(b.check_out_date);
    if cin.Some? && cout.Some? && cin.value <= to && cout.value >= from {
      var t := if cin.value < from then from else cin.value;
      assert Within(t, from, to) && Within(t, cin.value, cout.value);
    }
  }

  predicate Within(t: int, lo: int, hi: int) { lo <= t <= hi }

  /** With a start date only, the test keeps the bookings that check in by
      that day, whenever they check out. */
  lemma DateMatchesFromOnly(b: Booking, from: int, parseDate: string -> Option<int>)
    ensures DateMatches(b, DateFilter(Some(from), None), parseDate)
            <==> parseDate(b.check_in_date).Some? && parseDate(b.check_in_date).value <= from
  {
  }

  /** A booking whose check-in date cannot be read (an empty date, say) is
      dropped as soon as a start date is picked, and kept when none is. */
  lemma DateMatchesInvalidCheckIn(b: Booking, range: DateFilter, parseDate: string -> Option<int>)
    requires parseDate(b.check_in_date).None?
    ensures DateMatches(b, range, parseDate) <==> range.from.None?
  {
  }

  /** The remaining balance shown per booking: total less what was paid. */
  function Remaining(b: Booking): (r: real)
    ensures r + b.amount_paid == b.total_amount
  {
    b.total_amount - NumberOr(b.amount_paid, 0.0)
  }

  /** The list's remaining balance is the store's pending amount, and both
      leave the deposit out, unlike the form's pending amount. */
  lemma RemainingIsPending(s: StoredBooking)
    ensures Remaining(Enhance(s)) == Enhance(s).pending_amount
    ensures PendingAmount(Enhance(s).total_amount, Enhance(s).security_deposit, Enhance(s).amount_paid)
            == Remaining(Enhance(s)) + Enhance(s).security_deposit
  {
  }

  datatype Badge = Badge(text: string, colour: BadgeColour)

  /** `getStatusBadge`: a fixed label and colour per known status; any
      other status is shown as its own text, in gray. */
  function StatusBadge(status: string): (b: Badge)
    ensures ParseStatus(status).None? ==> b == Badge(status, Gray)
  {
    match status
    case "confirmed" => Badge("Confirmed", Green)
    case "checked_in" => Badge("Checked In", Blue)
    case "checked_out" => Badge("Checked Out", Purple)
    case "cancelled" => Badge("Cancelled", Red)
    case "pending" => Badge("Pending", Yellow)
    case "no_show" => Badge("No Show", Gray)
    case _ => Badge(status, Gray)
  }

  /** The badge shows the raw text exactly when the status is not one of the
      six, and distinct known statuses get distinct labels. */
  lemma StatusBadgeRawIffUnknown(status: string, a: BookingStatus, b: BookingStatus)
    ensures StatusBadge(status).text == status <==> ParseStatus(status).None?
    ensures StatusBadge(StatusName(a)).text == StatusBadge(StatusName(b)).text ==> a == b
  {
  }

  /** The status changes the row menu can offer. */
  datatype StaffAction = SetConfirmed | CheckIn | CheckOut | CancelBooking

  /** The status each menu item sets. */
  function Target(a: StaffAction): (s: string)
    ensures s in KnownStatusNames
  {
    match a
    case SetConfirmed => "confirmed"
    case CheckIn => "checked_in"
    case CheckOut => "checked_out"
    case CancelBooking => "cancelled"
  }

  /** The status items shown for a booking in the given status. */
  function StaffActions(status: string): (acts: set<StaffAction>)
    ensures SetConfirmed in acts <==> status != "confirmed"
    ensures CheckIn in acts <==> status == "confirmed"
    ensures CheckOut in acts <==> status == "checked_in"
    ensures CancelBooking in acts <==> status == "pending" || status == "confirmed"
  {
    (if status != "confirmed" then {SetConfirmed} else {})
    + (if status == "confirmed" then {CheckIn} else {})
    + (if status == "checked_in" then {CheckOut} else {})
    + (if status == "pending" || status == "confirmed" then {CancelBooking} else {})
  }

  /** No offered item sets the status the booking already has, and every
      booking offers at least one status change. */
  lemma StaffActionsChangeStatus(status: string, a: StaffAction)
    ensures a in StaffActions(status) ==> Target(a) != status
    ensures StaffActions(status) != {}
  {
    if status == "confirmed" {
      assert CheckIn in StaffActions(status);
    } else {
      assert SetConfirmed in StaffActions(status);
    }
  }

  /** Following the menu, a pending booking can be confirmed, checked in and
      checked out, and a checked-out booking can only be reopened as confirmed. */
  lemma StaffActionsLifecycle()
    ensures SetConfirmed in StaffActions("pending")
    ensures CheckIn in StaffActions(Target(SetConfirmed))
    ensures CheckOut in StaffActions(Target(CheckIn))
    ensures StaffActions(Target(CheckOut)) == {SetConfirmed}
  {
  }
}
