/** The records the in-memory booking store keeps, and the pure record
    transformations of its API: how a stored record is presented
    (`enhanceBooking`), how an update is merged into it, and how a new one is
    built. Stored records carry legacy camel-case mirrors (`amount`,
    `amountPaid`, `baseRate`, ...) beside the snake-case fields; a field a
    record lacks is the empty string or 0, which JavaScript's `||` treats
    alike. */
module MockRecords {
  import opened Wrappers
  import opened JsStrings
  import opened JsNumbers
  import opened BookingTypes

  /** The room summary inside a stored booking: the seed and create shape
      keys the property as `property`; an update that sends the application's
      shape replaces it with one keyed `property_id`. */
  datatype StoredRooms =
    | LegacyRooms(number: string, property: string, property_name: string)
    | PatchedRooms(number: string, property_id: string, property_name: string)

  datatype StoredBooking = StoredBooking(
    id: string,
    booking_number: string,
    reference: string,
    booking_ref: string,
    guest_name: string,
    guest_email: string,
    guestEmail: string,
    guest_phone: string,
    guestPhone: string,
    check_in: string,
    check_out: string,
    check_in_date: string,
    check_out_date: string,
    status: string,
    payment_status: string,
    amount: real,
    total_amount: real,
    amountPaid: real,
    amount_paid: real,
    rooms: StoredRooms,
    adults: real,
    children: real,
    baseRate: real,
    base_rate: real,
    securityDeposit: real,
    security_deposit: real,
    commission: real,
    tourismFee: real,
    tourism_fee: real,
    vat: real,
    netToOwner: real,
    net_to_owner: real,
    notes: string,
    room_id: string,
    guest_id: string,
    guestDocument: string,
    created_at: string,
    updated_at: string)

  /** The booking fields an update or a create may carry; `None` is a key
      the caller left out. The identity fields are among them: `createBooking`
      ignores them, but `updateBooking` spreads them over the stored record. */
  datatype BookingPatch = BookingPatch(
    id: Option<string>,
    booking_ref: Option<string>,
    guest_id: Option<string>,
    created_at: Option<string>,
    reference: Option<string>,
    room_id: Option<string>,
    guest_name: Option<string>,
    guest_email: Option<string>,
    guest_phone: Option<string>,
    check_in_date: Option<string>,
    check_out_date: Option<string>,
    adults: Option<real>,
    children: Option<real>,
    base_rate: Option<real>,
    total_amount: Option<real>,
    security_deposit: Option<real>,
    commission: Option<real>,
    tourism_fee: Option<real>,
    vat: Option<real>,
    net_to_owner: Option<real>,
    status: Option<string>,
    payment_status: Option<string>,
    amount_paid: Option<real>,
    notes: Option<string>,
    rooms: Option<RoomInfo>)

  /** The guest fields `createBooking` reads. */
  datatype GuestData = GuestData(first_name: Option<string>, last_name: Option<string>, email: Option<string>, phone: Option<string>)

  /** `patch.x || fallback` for an optional number. */
  function NumOr(x: Option<real>, fallback: real): (r: real)
    ensures x.Some? && x.value != 0.0 ==> r == x.value
    ensures x.None? || x.value == 0.0 ==> r == fallback
  {
    NumberOr(x.GetOr(0.0), fallback)
  }

  /** `patch.x || fallback` for an optional string. */
  function StrOr(x: Option<string>, fallback: string): (r: string)
    ensures x.Some? && x.value != "" ==> r == x.value
    ensures x.None? || x.value == "" ==> r == fallback
  {
    StringOr(x.GetOr(""), fallback)
  }

  /** `enhanceBooking`: the booking the pages see. Money comes from the
      legacy mirrors; the total is `amount`, the pending amount is the total
      less what was paid (the deposit is not counted), a missing rate is 150,
      and the room's property label fills both property fields. */
  function Enhance(b: StoredBooking): (r: Booking)
    ensures r.id == b.id && r.status == b.status && r.check_in == b.check_in && r.check_out == b.check_out
    ensures r.reference == b.booking_number && r.booking_ref == b.booking_number
    ensures r.check_in_date == b.check_in && r.check_out_date == b.check_out
    ensures r.total_amount == b.amount && r.amount_paid == b.amountPaid
    ensures r.pending_amount == r.total_amount - r.amount_paid
    ensures r.base_rate == (if b.baseRate == 0.0 then 150.0 else b.baseRate) && r.base_rate != 0.0
    ensures r.rooms.property_id == r.rooms.property_name
  {
    var total := b.amount;
    var property := if b.rooms.LegacyRooms? then b.rooms.property else "";
    Booking(
      id := b.id,
      reference := b.booking_number,
      booking_ref := b.booking_number,
      room_id := b.room_id,
      guest_id := b.guest_id,
      guest_name := b.guest_name,
      guest_email := StringOr(b.guest_email, b.guestEmail),
      guest_phone := StringOr(b.guest_phone, b.guestPhone),
      guest_document := if b.guestDocument == "" then None else Some(b.guestDocument),
      check_in_date := b.check_in,
      check_out_date := b.check_out,
      check_in := b.check_in,
      check_out := b.check_out,
      adults := b.adults,
      children := b.children,
      base_rate := NumberOr(b.baseRate, 150.0),
      total_amount := total,
      security_deposit := b.securityDeposit,
      commission := b.commission,
      tourism_fee := b.tourismFee,
      vat := b.vat,
      net_to_owner := b.netToOwner,
      status := b.status,
      payment_status := b.payment_status,
      amount_paid := b.amountPaid,
      pending_amount := total - b.amountPaid,
      notes := b.notes,
      created_at := b.created_at,
      updated_at := b.updated_at,
      rooms := RoomInfo(b.rooms.number, property, property))
  }

  /** The stored rooms after a patch: the patch's object replaces the old one. */
  function PatchedRoomsOf(prev: StoredRooms, p: Option<RoomInfo>): StoredRooms {
    match p
    case None => prev
    case Some(info) => PatchedRooms(info.number, info.property_id, info.property_name)
  }

  /** `updateBooking`'s new record: the patch's keys overwrite the record's
      (`{ ...prev, ...patch }`), the id and creation time included, then each
      legacy mirror takes the patch's value unless that value is missing, 0
      or empty, in which case the old mirror stays. */
  function Merge(prev: StoredBooking, p: BookingPatch, now: string): (r: StoredBooking)
    ensures p.id.None? ==> r.id == prev.id
    ensures p.id.Some? ==> r.id == p.id.value
    ensures p.created_at.None? ==> r.created_at == prev.created_at
    ensures p.created_at.Some? ==> r.created_at == p.created_at.value
    ensures r.booking_number == prev.booking_number
    ensures r.updated_at == now
    ensures p.status.Some? ==> r.status == p.status.value
    ensures p.status.None? ==> r.status == prev.status
    ensures r.amount == NumOr(p.total_amount, prev.amount) && r.amountPaid == NumOr(p.amount_paid, prev.amountPaid)
    ensures r.baseRate == NumOr(p.base_rate, prev.baseRate)
    ensures r.securityDeposit == NumOr(p.security_deposit, prev.securityDeposit)
    ensures r.tourismFee == NumOr(p.tourism_fee, prev.tourismFee) && r.netToOwner == NumOr(p.net_to_owner, prev.netToOwner)
    ensures r.check_in == StrOr(p.check_in_date, prev.check_in) && r.check_out == StrOr(p.check_out_date, prev.check_out)
  {
    prev.(
      id := p.id.GetOr(prev.id),
      booking_ref := p.booking_ref.GetOr(prev.booking_ref),
      guest_id := p.guest_id.GetOr(prev.guest_id),
      created_at := p.created_at.GetOr(prev.created_at),
      reference := p.reference.GetOr(prev.reference),
      room_id := p.room_id.GetOr(prev.room_id),
      guest_name := p.guest_name.GetOr(prev.guest_name),
      guest_email := p.guest_email.GetOr(prev.guest_email),
      guest_phone := p.guest_phone.GetOr(prev.guest_phone),
      check_in_date := p.check_in_date.GetOr(prev.check_in_date),
      check_out_date := p.check_out_date.GetOr(prev.check_out_date),
      adults := p.adults.GetOr(prev.adults),
      children := p.children.GetOr(prev.children),
      base_rate := p.base_rate.GetOr(prev.base_rate),
      total_amount := p.total_amount.GetOr(prev.total_amount),
      security_deposit := p.security_deposit.GetOr(prev.security_deposit),
      commission := p.commission.GetOr(prev.commission),
      tourism_fee := p.tourism_fee.GetOr(prev.tourism_fee),
      vat := p.vat.GetOr(prev.vat),
      net_to_owner := p.net_to_owner.GetOr(prev.net_to_owner),
      status := p.status.GetOr(prev.status),
      payment_status := p.payment_status.GetOr(prev.payment_status),
      amount_paid := p.amount_paid.GetOr(prev.amount_paid),
      notes := p.notes.GetOr(prev.notes),
      rooms := PatchedRoomsOf(prev.rooms, p.rooms),
      check_in := StrOr(p.check_in_date, prev.check_in),
      check_out := StrOr(p.check_out_date, prev.check_out),
      amount := NumOr(p.total_amount, prev.amount),
      amountPaid := NumOr(p.amount_paid, prev.amountPaid),
      baseRate := NumOr(p.base_rate, prev.baseRate),
      securityDeposit := NumOr(p.security_deposit, prev.securityDeposit),
      tourismFee := NumOr(p.tourism_fee, prev.tourismFee),
      netToOwner := NumOr(p.net_to_owner, prev.netToOwner),
      updated_at := now)
  }

  /** A non-zero total, payment, deposit, fee or owner share sent in an update
      is what the updated booking reports. */
  lemma MergeReportsNewMoney(prev: StoredBooking, p: BookingPatch, now: string)
    ensures var r := Enhance(Merge(prev, p, now));
      (p.total_amount.Some? && p.total_amount.value != 0.0 ==> r.total_amount == p.total_amount.value)
      && (p.amount_paid.Some? && p.amount_paid.value != 0.0 ==> r.amount_paid == p.amount_paid.value)
      && (p.security_deposit.Some? && p.security_deposit.value != 0.0 ==> r.security_deposit == p.security_deposit.value)
      && (p.tourism_fee.Some? && p.tourism_fee.value != 0.0 ==> r.tourism_fee == p.tourism_fee.value)
      && (p.net_to_owner.Some? && p.net_to_owner.value != 0.0 ==> r.net_to_owner == p.net_to_owner.value)
      && (p.base_rate.Some? && p.base_rate.value != 0.0 ==> r.base_rate == p.base_rate.value)
      && (p.vat.Some? ==> r.vat == p.vat.value)
      && (p.commission.Some? ==> r.commission == p.commission.value)
  {
  }

  /** Setting a money field to 0 or a date to the empty string is lost: the
      stored field changes, but the booking reported keeps the old value,
      because the report reads the legacy mirror. Each mirror is stated on
      its own. */
  lemma MergeKeepsOldOnFalsy(prev: StoredBooking, p: BookingPatch, now: string)
    ensures p.total_amount == Some(0.0) ==> Merge(prev, p, now).total_amount == 0.0
    ensures var r, q := Enhance(Merge(prev, p, now)), Enhance(prev);
      (p.total_amount == Some(0.0) ==> r.total_amount == q.total_amount)
      && (p.amount_paid == Some(0.0) ==> r.amount_paid == q.amount_paid)
      && (p.total_amount == Some(0.0) && p.amount_paid == Some(0.0) ==> r.pending_amount == q.pending_amount)
      && (p.base_rate == Some(0.0) ==> r.base_rate == q.base_rate)
      && (p.security_deposit == Some(0.0) ==> r.security_deposit == q.security_deposit)
      && (p.tourism_fee == Some(0.0) ==> r.tourism_fee == q.tourism_fee)
      && (p.net_to_owner == Some(0.0) ==> r.net_to_owner == q.net_to_owner)
      && (p.check_in_date == Some("") ==> r.check_in_date == q.check_in_date)
      && (p.check_out_date == Some("") ==> r.check_out_date == q.check_out_date)
  {
  }

  /** A non-empty date sent in an update is the date the booking reports. */
  lemma MergeReportsNewDates(prev: StoredBooking, p: BookingPatch, now: string)
    ensures var r := Enhance(Merge(prev, p, now));
      (p.check_in_date.Some? && p.check_in_date.value != "" ==> r.check_in_date == p.check_in_date.value)
      && (p.check_out_date.Some? && p.check_out_date.value != "" ==> r.check_out_date == p.check_out_date.value)
  {
  }

  /** An update may rename a booking: the reported booking carries the id,
      guest and creation time the patch sent, and keeps its number. */
  lemma MergeCanChangeId(prev: StoredBooking, p: BookingPatch, now: string)
    requires p.id.Some? && p.guest_id.Some? && p.created_at.Some?
    ensures var r := Enhance(Merge(prev, p, now));
      r.id == p.id.value && r.guest_id == p.guest_id.value && r.created_at == p.created_at.value
      && r.reference == Enhance(prev).reference
  {
  }

  /** An update that sends the room summary in the application's shape loses
      the property: the booking reported afterwards has an empty property. */
  lemma MergeRoomsBlanksProperty(prev: StoredBooking, p: BookingPatch, now: string)
    requires p.rooms.Some?
    ensures Enhance(Merge(prev, p, now)).rooms == RoomInfo(p.rooms.value.number, "", "")
  {
  }

  /** The reference a caller sends is stored but never shown: the reported
      reference is always the booking number. */
  lemma MergeReferenceHidden(prev: StoredBooking, p: BookingPatch, now: string)
    ensures Enhance(Merge(prev, p, now)).reference == Enhance(prev).reference
  {
  }

  /** The number of the `count + 1`-th booking created in `year`. */
  function BookingNumber(count: nat, year: int): (s: string)
    ensures StartsWith(s, "BK-" + IntToString(year) + "-")
  {
    var prefix := "BK-" + IntToString(year) + "-";
    var s := prefix + PadStart(NatToString(count + 1), 4, '0');
    assert s[..|prefix|] == prefix;
    s
  }

  /** The number ends in at least four digits that denote the new count. */
  lemma BookingNumberFormat(count: nat, year: int)
    ensures var prefix := "BK-" + IntToString(year) + "-";
      var digits := BookingNumber(count, year)[|prefix|..];
      |digits| >= 4 && AllDigits(digits) && DigitsValue(digits) == count + 1
  {
    var prefix := "BK-" + IntToString(year) + "-";
    var pad := PadStart(NatToString(count + 1), 4, '0');
    assert BookingNumber(count, year)[|prefix|..] == pad;
    ZeroPaddedNumeral(count + 1, 4);
  }

  /** `createBooking`'s record when the store holds `count` bookings: the id
      and number come from the count; missing fields take their defaults. */
  function NewBookingRecord(count: nat, p: BookingPatch, g: GuestData, year: int, now: string): (r: StoredBooking)
    ensures r.id == "b" + NatToString(count + 1)
    ensures r.booking_number == BookingNumber(count, year) && r.reference == r.booking_number
    ensures r.guest_name == Trim(g.first_name.GetOr("") + " " + g.last_name.GetOr(""))
  {
    var number := BookingNumber(count, year);
    var checkIn := StrOr(p.check_in_date, now);
    var checkOut := StrOr(p.check_out_date, now);
    var rooms := if p.rooms.Some? then p.rooms.value else RoomInfo("", "", "");
    StoredBooking(
      id := "b" + NatToString(count + 1),
      booking_number := number,
      reference := number,
      booking_ref := number,
      guest_name := Trim(g.first_name.GetOr("") + " " + g.last_name.GetOr("")),
      guest_email := g.email.GetOr(""),
      guestEmail := "",
      guest_phone := g.phone.GetOr(""),
      guestPhone := "",
      check_in := checkIn,
      check_out := checkOut,
      check_in_date := checkIn,
      check_out_date := checkOut,
      status := StrOr(p.status, "confirmed"),
      payment_status := StrOr(p.payment_status, "paid"),
      amount := NumOr(p.total_amount, 0.0),
      total_amount := NumOr(p.total_amount, 0.0),
      amountPaid := NumOr(p.amount_paid, 0.0),
      amount_paid := NumOr(p.amount_paid, 0.0),
      rooms := LegacyRooms(rooms.number, rooms.property_id, rooms.property_name),
      adults := NumOr(p.adults, 2.0),
      children := NumOr(p.children, 0.0),
      baseRate := NumOr(p.base_rate, 150.0),
      base_rate := NumOr(p.base_rate, 150.0),
      securityDeposit := NumOr(p.security_deposit, 0.0),
      security_deposit := NumOr(p.security_deposit, 0.0),
      commission := NumOr(p.commission, 0.0),
      tourismFee := NumOr(p.tourism_fee, 0.0),
      tourism_fee := NumOr(p.tourism_fee, 0.0),
      vat := NumOr(p.vat, 0.0),
      netToOwner := NumOr(p.net_to_owner, 0.0),
      net_to_owner := NumOr(p.net_to_owner, 0.0),
      notes := StrOr(p.notes, ""),
      room_id := StrOr(p.room_id, ""),
      guest_id := "g1",
      guestDocument := "",
      created_at := now,
      updated_at := now)
  }

  /** An empty create request gets the documented defaults, and the new
      booking is reported with its own number as reference. */
  lemma NewBookingDefaults(count: nat, g: GuestData, year: int, now: string)
    ensures var p := BookingPatch(None, None, None, None, None, None, None, None, None, None, None, None,
                                  None, None, None, None, None, None, None, None, None, None, None, None, None);
      var r := NewBookingRecord(count, p, g, year, now);
      r.status == "confirmed" && r.payment_status == "paid" && r.adults == 2.0 && r.base_rate == 150.0
      && r.check_in == now && r.check_out == now && Enhance(r).base_rate == 150.0
      && Enhance(r).reference == BookingNumber(count, year) && Enhance(r).pending_amount == 0.0
  {
  }

  /** The values a create request does send are stored and reported. */
  lemma NewBookingKeepsValues(count: nat, p: BookingPatch, g: GuestData, year: int, now: string)
    requires p.status.Some? && p.status.value != ""
    requires p.total_amount.Some? && p.total_amount.value != 0.0
    requires p.amount_paid.Some?
    ensures var r := Enhance(NewBookingRecord(count, p, g, year, now));
      r.status == p.status.value && r.total_amount == p.total_amount.value
      && r.pending_amount == p.total_amount.value - p.amount_paid.value
  {
  }

  /** The stored guest name splits back into the first and last name given,
      when neither is empty, the first has no space and the last does not end
      in one. */
  lemma NewBookingGuestName(first: string, last: string)
    requires first != [] && last != [] && ' ' !in first
    requires !IsSpace(first[0]) && !IsSpace(last[|last| - 1])
    ensures Trim(first + " " + last) == first + " " + last
  {
    TrimNoOp(first + " " + last);
  }

  /** The "YYYY-MM-DD" part of an ISO timestamp. */
  function DatePart(iso: string): (d: string)
    ensures 'T' !in d
  {
    BeforeFirst(iso, 'T')
  }

  lemma DatePartOf(day: string, time: string)
    requires 'T' !in day
    ensures DatePart(day + "T" + time) == day
  {
    BeforeFirstOf(day, 'T', time);
  }

  /** A stored booking counts as today's check-in. */
  predicate ChecksInOn(b: StoredBooking, today: string) {
    DatePart(b.check_in) == today && b.status == "confirmed"
  }

  /** A stored booking counts as today's check-out. */
  predicate ChecksOutOn(b: StoredBooking, today: string) {
    DatePart(b.check_out) == today && b.status == "checked_in"
  }

  datatype ApiError = NotFound(message: string)

  function NotFoundError(kind: string, id: string): (e: ApiError)
    ensures EndsWith(e.message, " not found") && StartsWith(e.message, kind)
  {
    var m := kind + " with ID " + id + " not found";
    assert m[..|kind|] == kind;
    assert m[|m| - 10..] == " not found";
    NotFound(m)
  }

  /** A property: whatever fields its creator supplied, by name. */
  type Property = map<string, string>

  function PropertyId(p: Property): Option<string> {
    if "id" in p then Some(p["id"]) else None
  }

  /** `createProperty`'s record: the supplied fields, then an id from the count and the timestamps. */
  function NewProperty(count: nat, data: Property, now: string): (p: Property)
    ensures PropertyId(p) == Some("p" + NatToString(count + 1))
    ensures "created_at" in p && p["created_at"] == now && "updated_at" in p && p["updated_at"] == now
    ensures forall k :: k in data && k !in {"id", "created_at", "updated_at"} ==> k in p && p[k] == data[k]
  {
    data + map["id" := "p" + NatToString(count + 1), "created_at" := now, "updated_at" := now]
  }

  /** `updateProperty`'s record: the supplied fields overwrite, then the timestamp. */
  function MergedProperty(prev: Property, data: Property, now: string): (p: Property)
    ensures p.Keys == prev.Keys + data.Keys + {"updated_at"}
    ensures p["updated_at"] == now
    ensures forall k :: k in data && k != "updated_at" ==> p[k] == data[k]
    ensures forall k :: k in prev && k !in data && k != "updated_at" ==> p[k] == prev[k]
  {
    prev + data + map["updated_at" := now]
  }

  /** An update may change a property's id: the supplied `id` wins. */
  lemma MergedPropertyCanChangeId(prev: Property, data: Property, now: string)
    requires "id" in data
    ensures PropertyId(MergedProperty(prev, data, now)) == Some(data["id"])
  {
  }
}
