/** The application's record types: rooms, bookings, expenses and cleaning
    tasks as the front end sees them, and the booking status vocabulary. */
module BookingTypes {
  import opened Wrappers

  /** The six booking states the application uses. */
  datatype BookingStatus = Pending | Confirmed | CheckedIn | CheckedOut | Cancelled | NoShow

  /** The status as it is stored and compared: lower case with underscores. */
  function StatusName(st: BookingStatus): (s: string)
    ensures |s| >= 7
  {
    match st
    case Pending => "pending"
    case Confirmed => "confirmed"
    case CheckedIn => "checked_in"
    case CheckedOut => "checked_out"
    case Cancelled => "cancelled"
    case NoShow => "no_show"
  }

  /** The status a stored string denotes, if it is one of the six. */
  function ParseStatus(s: string): (r: Option<BookingStatus>)
    ensures r.Some? <==> s in KnownStatusNames
  {
    if s == "pending" then Some(Pending)
    else if s == "confirmed" then Some(Confirmed)
    else if s == "checked_in" then Some(CheckedIn)
    else if s == "checked_out" then Some(CheckedOut)
    else if s == "cancelled" then Some(Cancelled)
    else if s == "no_show" then Some(NoShow)
    else None
  }

  const KnownStatusNames: set<string> :=
    {"pending", "confirmed", "checked_in", "checked_out", "cancelled", "no_show"}

  /** Every status is written as a name that reads back as that status. */
  lemma StatusNameRoundTrip(st: BookingStatus)
    ensures ParseStatus(StatusName(st)) == Some(st)
    ensures StatusName(st) in KnownStatusNames
  {
  }

  /** A string that reads as a status is that status's name. */
  lemma ParseStatusRoundTrip(s: string)
    requires ParseStatus(s).Some?
    ensures StatusName(ParseStatus(s).value) == s
  {
  }

  /** Distinct statuses have distinct names. */
  lemma StatusNameInjective(a: BookingStatus, b: BookingStatus)
    requires StatusName(a) == StatusName(b)
    ensures a == b
  {
    StatusNameRoundTrip(a);
    StatusNameRoundTrip(b);
  }

  /** The room summary embedded in a booking. */
  datatype RoomInfo = RoomInfo(number: string, property_id: string, property_name: string)

  /** A booking as the pages receive it. Money and guest counts are exact
      numbers; dates are the ISO strings the records carry; a missing
      `guest_document` is `None` (null). */
  datatype Booking = Booking(
    id: string,
    reference: string,
    booking_ref: string,
    room_id: string,
    guest_id: string,
    guest_name: string,
    guest_email: string,
    guest_phone: string,
    guest_document: Option<string>,
    check_in_date: string,
    check_out_date: string,
    check_in: string,
    check_out: string,
    adults: real,
    children: real,
    base_rate: real,
    total_amount: real,
    security_deposit: real,
    commission: real,
    tourism_fee: real,
    vat: real,
    net_to_owner: real,
    status: string,
    payment_status: string,
    amount_paid: real,
    pending_amount: real,
    notes: string,
    created_at: string,
    updated_at: string,
    rooms: RoomInfo)

  /** A room as the booking form receives it; `property` is the optional
      property label. */
  datatype Room = Room(
    id: string,
    number: string,
    property_id: string,
    status: string,
    base_rate: real,
    property: Option<string>)

  /** An expense; an absent vendor is the empty string, absent notes are `None`. */
  datatype Expense = Expense(
    id: string,
    description: string,
    amount: real,
    date: string,
    category: string,
    property: string,
    vendor: string,
    paymentMethod: string,
    status: string,
    notes: Option<string>)

  datatype CleaningTask = CleaningTask(
    id: string,
    room_id: string,
    date: string,
    assigned_to: string,
    status: string,
    notes: Option<string>,
    created_at: string,
    updated_at: string)
}
