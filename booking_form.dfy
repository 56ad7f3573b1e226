/** The add/edit booking form's state and its handlers. Each handler of the
    form replaces the form record; the pure functions below say what the
    record becomes, and the class applies them to its fields. */
module BookingFormState {
  import opened Wrappers
  import opened JsStrings
  import opened JsNumbers
  import opened Seqs
  import opened BookingTypes
  import opened BookingPricing

  datatype Mode = Add | Edit

  /** The form record; dates are milliseconds since the epoch. */
  datatype FormData = FormData(
    reference: string,
    room_id: string,
    guestFirstName: string,
    guestLastName: string,
    guestEmail: string,
    guestPhone: string,
    property: string,
    roomNumber: string,
    checkIn: int,
    checkOut: int,
    adults: real,
    children: real,
    base_rate: real,
    total_amount: real,
    security_deposit: real,
    commission: real,
    tourism_fee: real,
    vat: real,
    net_to_owner: real,
    notes: string,
    status: string,
    payment_status: string,
    sendConfirmation: bool,
    amount_paid: real)

  /** The date picker's selection. */
  datatype DateRange = DateRange(from: Option<int>, to: Option<int>)

  /** The text inputs wired to `handleInputChange`. */
  datatype TextField = Reference | GuestFirstName | GuestLastName | GuestEmail | GuestPhone | Notes

  /** The number inputs wired to `handleNumberChange`. */
  datatype NumberField = Adults | Children | BaseRate | Commission | TourismFee | Vat | NetToOwner | SecurityDeposit | AmountPaid

  function TextValue(f: FormData, field: TextField): string {
    match field
    case Reference => f.reference
    case GuestFirstName => f.guestFirstName
    case GuestLastName => f.guestLastName
    case GuestEmail => f.guestEmail
    case GuestPhone => f.guestPhone
    case Notes => f.notes
  }

  function NumberValue(f: FormData, field: NumberField): real {
    match field
    case Adults => f.adults
    case Children => f.children
    case BaseRate => f.base_rate
    case Commission => f.commission
    case TourismFee => f.tourism_fee
    case Vat => f.vat
    case NetToOwner => f.net_to_owner
    case SecurityDeposit => f.security_deposit
    case AmountPaid => f.amount_paid
  }

  /** `{ ...prev, [name]: value }` for a text input. */
  function WithText(f: FormData, field: TextField, value: string): (g: FormData)
    ensures TextValue(g, field) == value
  {
    match field
    case Reference => f.(reference := value)
    case GuestFirstName => f.(guestFirstName := value)
    case GuestLastName => f.(guestLastName := value)
    case GuestEmail => f.(guestEmail := value)
    case GuestPhone => f.(guestPhone := value)
    case Notes => f.(notes := value)
  }

  /** `{ ...prev, [name]: x }` for a number input. */
  function WithNumber(f: FormData, field: NumberField, x: real): (g: FormData)
    ensures NumberValue(g, field) == x
  {
    match field
    case Adults => f.(adults := x)
    case Children => f.(children := x)
    case BaseRate => f.(base_rate := x)
    case Commission => f.(commission := x)
    case TourismFee => f.(tourism_fee := x)
    case Vat => f.(vat := x)
    case NetToOwner => f.(net_to_owner := x)
    case SecurityDeposit => f.(security_deposit := x)
    case AmountPaid => f.(amount_paid := x)
  }

  /** Writing one text input changes that input and nothing else. */
  lemma WithTextOnlyField(f: FormData, field: TextField, value: string, other: TextField)
    ensures other != field ==> TextValue(WithText(f, field, value), other) == TextValue(f, other)
    ensures var g := WithText(f, field, value);
      g.(reference := f.reference, guestFirstName := f.guestFirstName, guestLastName := f.guestLastName,
         guestEmail := f.guestEmail, guestPhone := f.guestPhone, notes := f.notes) == f
  {
  }

  /** Writing one number input changes that input and nothing else. */
  lemma WithNumberOnlyField(f: FormData, field: NumberField, x: real, other: NumberField)
    ensures other != field ==> NumberValue(WithNumber(f, field, x), other) == NumberValue(f, other)
    ensures var g := WithNumber(f, field, x);
      g.(adults := f.adults, children := f.children, base_rate := f.base_rate, commission := f.commission,
         tourism_fee := f.tourism_fee, vat := f.vat, net_to_owner := f.net_to_owner,
         security_deposit := f.security_deposit, amount_paid := f.amount_paid) == f
  {
  }

  /** The night count the form shows for its current dates. */
  function Nights(f: FormData): (n: int)
    ensures n >= 0
  {
    DisplayNights(Some(f.checkIn), Some(f.checkOut))
  }

  /** The derived money fields replaced by a price breakdown. */
  function WithBreakdown(f: FormData, b: Breakdown): (g: FormData)
    ensures g.total_amount == b.total && g.net_to_owner == b.netToOwner
  {
    f.(total_amount := b.total, vat := b.vat, tourism_fee := b.tourismFee, commission := b.commission,
       net_to_owner := b.netToOwner)
  }

  /** The derived money fields agree with the rate and the nights shown. */
  predicate PriceConsistent(f: FormData) {
    var b := Price(f.base_rate, Nights(f));
    f.total_amount == b.total && f.vat == b.vat && f.tourism_fee == b.tourismFee
    && f.commission == b.commission && f.net_to_owner == b.netToOwner
  }

  /** `g` differs from `f` at most in the rate and the five derived money fields. */
  predicate SameExceptMoney(f: FormData, g: FormData) {
    g == f.(base_rate := g.base_rate, total_amount := g.total_amount, vat := g.vat,
            tourism_fee := g.tourism_fee, commission := g.commission, net_to_owner := g.net_to_owner)
  }

  /** `recalculateAmounts(baseRate)` with `nights` from the displayed dates. */
  function Recalculated(f: FormData, baseRate: real): (g: FormData)
    ensures PriceConsistent(g) && g.base_rate == baseRate
    ensures SameExceptMoney(f, g)
  {
    WithBreakdown(f.(base_rate := baseRate), Price(baseRate, Nights(f)))
  }

  /** The room picker: `handleRoomChange(value)` as one update. The
      `selectedRoom.base_rate || prev.base_rate` fallback is overwritten by the
      recalculation that follows, so the room's rate is always taken. */
  function RoomChanged(f: FormData, rooms: seq<Room>, value: string): (g: FormData)
    ensures g.room_id == value
    ensures IndexOfKey(rooms, RoomId, value) == -1 ==> g == f.(room_id := value)
    ensures IndexOfKey(rooms, RoomId, value) >= 0 ==>
      var room := rooms[IndexOfKey(rooms, RoomId, value)];
      g.base_rate == room.base_rate && g.roomNumber == room.number && g.property == room.property.GetOr("")
      && PriceConsistent(g)
      && SameExceptMoney(f.(room_id := value, roomNumber := room.number, property := room.property.GetOr("")), g)
  {
    var f1 := f.(room_id := value);
    var i := IndexOfKey(rooms, RoomId, value);
    if i == -1 then f1
    else
      var room := rooms[i];
      var f2 := f1.(roomNumber := room.number, property := room.property.GetOr(""),
                    base_rate := NumberOr(room.base_rate, f1.base_rate));
      Recalculated(f2, room.base_rate)
  }

  function RoomId(r: Room): Option<string> { Some(r.id) }

  /** A room whose rate is 0 sets the rate to 0, whatever the form had. */
  lemma RoomChangedZeroRate(f: FormData, rooms: seq<Room>, i: nat)
    requires i < |rooms| && rooms[i].base_rate == 0.0
    requires forall j :: 0 <= j < i ==> rooms[j].id != rooms[i].id
    ensures RoomChanged(f, rooms, rooms[i].id).base_rate == 0.0
    ensures RoomChanged(f, rooms, rooms[i].id).total_amount == 0.0
  {
    var k := IndexOfKey(rooms, RoomId, rooms[i].id);
    assert RoomId(rooms[i]) == Some(rooms[i].id);
    assert k == i;
  }

  /** The effect that runs when the rooms or the selected id change: it copies
      the room's number, property and rate (a zero rate keeps the old one),
      and does not recalculate the money fields. */
  function Synced(f: FormData, rooms: seq<Room>): (g: FormData)
    ensures g.total_amount == f.total_amount && g.vat == f.vat && g.net_to_owner == f.net_to_owner
    ensures g.commission == f.commission && g.tourism_fee == f.tourism_fee
    ensures (|rooms| == 0 || f.room_id == "" || IndexOfKey(rooms, RoomId, f.room_id) == -1) ==> g == f
  {
    if |rooms| > 0 && f.room_id != "" then
      var i := IndexOfKey(rooms, RoomId, f.room_id);
      if i == -1 then f
      else
        var room := rooms[i];
        f.(roomNumber := room.number, property := room.property.GetOr(""),
           base_rate := NumberOr(room.base_rate, f.base_rate))
    else f
  }

  /** The room sync can leave the money fields out of step with the rate:
      a consistent two-night form at rate 100 synced to a room at 150 still
      shows the total for 100. */
  lemma SyncedCanBreakConsistency(f: FormData, room: Room)
    requires f.room_id == room.id && f.room_id != ""
    requires f.base_rate == 100.0 && room.base_rate == 150.0
    requires f.checkOut == f.checkIn + 2 * MsPerDay
    requires PriceConsistent(f)
    ensures !PriceConsistent(Synced(f, [room]))
  {
    DisplayNightsWholeDays(f.checkIn, 2);
    assert Nights(f) == 2;
    assert IndexOfKey([room], RoomId, f.room_id) == 0;
  }

  /** `handleDateRangeChange` once a start date is picked: the dates follow
      the range (a missing end repeats the start); when the end is picked the
      money fields are recomputed from the SIGNED night count. */
  function DateRangeApplied(f: FormData, from: int, to: Option<int>): (g: FormData)
    ensures g.checkIn == from && g.checkOut == to.GetOr(from)
    ensures g.base_rate == f.base_rate
    ensures to.None? ==> g == f.(checkIn := from, checkOut := from)
    ensures to.Some? ==> g.total_amount == f.base_rate * RangeNights(from, to.value) as real
  {
    var g := f.(checkIn := from, checkOut := to.GetOr(from));
    if to.Some? then WithBreakdown(g, Price(EnsureNumber(JsNumber(f.base_rate)), RangeNights(from, to.value)))
    else g
  }

  /** A forward range leaves the form consistent: the money fields are what
      recalculating at the current rate would give. */
  lemma DateRangeForwardConsistent(f: FormData, from: int, to: int)
    requires from <= to
    ensures PriceConsistent(DateRangeApplied(f, from, Some(to)))
    ensures DateRangeApplied(f, from, Some(to)) == Recalculated(f.(checkIn := from, checkOut := to), f.base_rate)
  {
    RangeNightsForward(from, to);
  }

  /** A backward range prices negative nights: one day backwards at rate 100
      gives a total of -100 while the form shows one night. */
  lemma DateRangeBackwardNegative(f: FormData, t: int)
    requires f.base_rate == 100.0
    ensures var g := DateRangeApplied(f, t + MsPerDay, Some(t));
      g.total_amount == -100.0 && Nights(g) == 1 && !PriceConsistent(g)
  {
    RangeNightsBackwardExamples(t);
  }

  /** A booking as the edit form loads it; numbers arrive as untyped values,
      dates already read from their ISO text (`None` when absent). */
  datatype GuestContact = GuestContact(first_name: string, last_name: string, email: string, phone: string)

  datatype LoadedBooking = LoadedBooking(
    reference: string,
    room_id: string,
    guests: Option<GuestContact>,
    guest_name: string,
    room_number: Option<string>,
    check_in_date: Option<int>,
    check_out_date: Option<int>,
    adults: JsValue,
    children: JsValue,
    base_rate: JsValue,
    total_amount: JsValue,
    security_deposit: JsValue,
    commission: JsValue,
    tourism_fee: JsValue,
    vat: JsValue,
    net_to_owner: JsValue,
    notes: string,
    status: string,
    payment_status: string,
    amount_paid: JsValue)

  /** The guest's first and last name: from the guest record when there is
      one, otherwise split from the combined name. */
  function LoadedName(data: LoadedBooking): (n: GuestName)
    ensures data.guests.Some? ==> n == GuestName(data.guests.value.first_name, data.guests.value.last_name)
    ensures data.guests.None? && data.guest_name == "" ==> n == GuestName("", "")
  {
    if data.guests.Some? then GuestName(data.guests.value.first_name, data.guests.value.last_name)
    else if data.guest_name != "" then SplitGuestName(data.guest_name)
    else GuestName("", "")
  }

  /** The populate effect's new form record: the loaded text and dates are
      taken as they are (a missing date is `now`), the guest name as
      `LoadedName` finds it, numbers through `ensureNumber`, and the property
      is left for the room sync to fill in. */
  function Populated(data: LoadedBooking, now: int): (f: FormData)
    ensures f.reference == data.reference && f.room_id == data.room_id && f.notes == data.notes
    ensures GuestName(f.guestFirstName, f.guestLastName) == LoadedName(data)
    ensures f.checkIn == data.check_in_date.GetOr(now) && f.checkOut == data.check_out_date.GetOr(now)
    ensures f.base_rate == EnsureNumber(data.base_rate) && f.total_amount == EnsureNumber(data.total_amount)
    ensures f.amount_paid == EnsureNumber(data.amount_paid) && f.children == EnsureNumber(data.children)
    ensures f.commission == EnsureNumber(data.commission) && f.tourism_fee == EnsureNumber(data.tourism_fee)
    ensures f.vat == EnsureNumber(data.vat) && f.net_to_owner == EnsureNumber(data.net_to_owner)
    ensures data.guests.Some? ==> f.guestEmail == data.guests.value.email && f.guestPhone == data.guests.value.phone
    ensures data.guests.None? ==> f.guestEmail == "" && f.guestPhone == ""
    ensures f.roomNumber == data.room_number.GetOr("")
    ensures f.status == StringOr(data.status, "confirmed") && f.payment_status == StringOr(data.payment_status, "pending")
    ensures f.property == "" && f.sendConfirmation
  {
    var name := LoadedName(data);
    FormData(
      reference := data.reference,
      room_id := data.room_id,
      guestFirstName := name.first,
      guestLastName := name.last,
      guestEmail := if data.guests.Some? then data.guests.value.email else "",
      guestPhone := if data.guests.Some? then data.guests.value.phone else "",
      property := "",
      roomNumber := data.room_number.GetOr(""),
      checkIn := data.check_in_date.GetOr(now),
      checkOut := data.check_out_date.GetOr(now),
      adults := NumberOr(EnsureNumber(data.adults), 2.0),
      children := EnsureNumber(data.children),
      base_rate := EnsureNumber(data.base_rate),
      total_amount := EnsureNumber(data.total_amount),
      security_deposit := NumberOr(EnsureNumber(data.security_deposit), 100.0),
      commission := EnsureNumber(data.commission),
      tourism_fee := EnsureNumber(data.tourism_fee),
      vat := EnsureNumber(data.vat),
      net_to_owner := EnsureNumber(data.net_to_owner),
      notes := data.notes,
      status := StringOr(data.status, "confirmed"),
      payment_status := StringOr(data.payment_status, "pending"),
      sendConfirmation := true,
      amount_paid := EnsureNumber(data.amount_paid))
  }

  /** Loading never yields zero adults, a zero deposit or an empty status:
      those fall back to 2, 100, "confirmed" and "pending". */
  lemma PopulatedDefaults(data: LoadedBooking, now: int)
    ensures var f := Populated(data, now);
      f.adults != 0.0 && f.security_deposit != 0.0 && f.status != "" && f.payment_status != ""
      && (EnsureNumber(data.adults) == 0.0 ==> f.adults == 2.0)
      && (EnsureNumber(data.security_deposit) == 0.0 ==> f.security_deposit == 100.0)
      && (data.status == "" ==> f.status == "confirmed")
      && f.sendConfirmation && f.property == ""
  {
  }

  /** Without a guest record, the split name rejoins to the stored name. */
  lemma PopulatedNameRejoins(data: LoadedBooking, now: int)
    requires data.guests.None? && ' ' in data.guest_name
    ensures var f := Populated(data, now);
      f.guestFirstName + " " + f.guestLastName == data.guest_name && ' ' !in f.guestFirstName
  {
    SplitGuestNameRejoins(data.guest_name);
  }

  /** A numeric field typed as a numeral string loads as that number. */
  lemma PopulatedReadsNumerals(data: LoadedBooking, now: int, rate: int)
    requires data.base_rate == JsString(IntToString(rate))
    ensures Populated(data, now).base_rate == rate as real
  {
    EnsureNumberNumeral(rate, "");
    assert IntToString(rate) + "" == IntToString(rate);
  }

  /** The form a new booking starts with: a reference from the clock's last
      six digits, today to three days later, two adults, a deposit of 100. */
  function InitialForm(mode: Mode, now: int): (f: FormData)
    ensures f.checkIn == now && f.checkOut == now + 3 * MsPerDay
    ensures f.adults == 2.0 && f.children == 0.0 && f.security_deposit == 100.0 && f.total_amount == 0.0
    ensures f.status == "confirmed" && f.payment_status == "pending" && f.sendConfirmation
    ensures mode == Edit <==> f.reference == ""
  {
    FormData(
      reference := if mode == Edit then "" else "BK-" + LastChars(IntToString(now), 6),
      room_id := "", guestFirstName := "", guestLastName := "", guestEmail := "", guestPhone := "",
      property := "", roomNumber := "",
      checkIn := now, checkOut := now + 3 * MsPerDay,
      adults := 2.0, children := 0.0, base_rate := 0.0, total_amount := 0.0, security_deposit := 100.0,
      commission := 0.0, tourism_fee := 0.0, vat := 0.0, net_to_owner := 0.0,
      notes := "", status := "confirmed", payment_status := "pending", sendConfirmation := true,
      amount_paid := 0.0)
  }

  /** The initial form shows three nights, is consistent, and has the deposit pending. */
  lemma InitialFormFacts(mode: Mode, now: int)
    ensures var f := InitialForm(mode, now);
      Nights(f) == 3 && PriceConsistent(f)
      && PendingAmount(f.total_amount, f.security_deposit, f.amount_paid) == 100.0
      && (mode == Add ==> |f.reference| <= 9 && StartsWith(f.reference, "BK-"))
  {
    DisplayNightsWholeDays(now, 3);
  }

  class BookingForm {
    var formData: FormData
    var dateRange: DateRange
    var rooms: seq<Room>
    const mode: Mode

    constructor(mode: Mode, now: int)
      ensures this.mode == mode && formData == InitialForm(mode, now) && rooms == []
      ensures dateRange == DateRange(Some(now), Some(now + 3 * MsPerDay))
    {
      this.mode := mode;
      formData := InitialForm(mode, now);
      dateRange := DateRange(Some(now), Some(now + 3 * MsPerDay));
      rooms := [];
    }

    /** The rooms effect: the fetched rooms replace the list; a failed fetch
      (`None`) is only logged and leaves the list as it was. */
    method LoadRooms(fetched: Option<seq<Room>>)
      modifies this`rooms
      ensures fetched.Some? ==> rooms == fetched.value
      ensures fetched.None? ==> rooms == old(rooms)
    {
      if fetched.Some? {
        rooms := fetched.value;
      }
    }

    /** The populate effect; it runs only in edit mode with data present. */
    method Populate(data: Option<LoadedBooking>, now: int)
      modifies this`formData, this`dateRange
      ensures mode == Add || data.None? ==> formData == old(formData) && dateRange == old(dateRange)
      ensures mode == Edit && data.Some? ==>
        formData == Populated(data.value, now)
        && dateRange == DateRange(Some(formData.checkIn), Some(formData.checkOut))
    {
      if mode == Edit && data.Some? {
        formData := Populated(data.value, now);
        dateRange := DateRange(Some(data.value.check_in_date.GetOr(now)), Some(data.value.check_out_date.GetOr(now)));
      }
    }

    /** `recalculateAmounts(baseRate)`: the rate and the derived money fields
      are replaced, consistently with the nights shown; nothing else changes. */
    method RecalculateAmounts(baseRate: real)
      modifies this`formData
      ensures formData == Recalculated(old(formData), baseRate)
      ensures PriceConsistent(formData) && formData.base_rate == baseRate
      ensures SameExceptMoney(old(formData), formData)
    {
      var nights := Nights(formData);
      var b := Price(baseRate, nights);
      formData := formData.(base_rate := baseRate, total_amount := b.total, vat := b.vat,
                            tourism_fee := b.tourismFee, commission := b.commission, net_to_owner := b.netToOwner);
    }

    method HandleInputChange(field: TextField, value: string)
      modifies this`formData
      ensures formData == WithText(old(formData), field, value)
    {
      formData := WithText(formData, field, value);
    }

    /** A number input: the typed text is coerced; a new rate also recalculates. */
    method HandleNumberChange(field: NumberField, value: string)
      modifies this`formData
      ensures field != BaseRate ==> formData == WithNumber(old(formData), field, EnsureNumber(JsString(value)))
      ensures field == BaseRate ==>
        formData == Recalculated(old(formData), EnsureNumber(JsString(value))) && PriceConsistent(formData)
    {
      var x := EnsureNumber(JsString(value));
      formData := WithNumber(formData, field, x);
      if field == BaseRate {
        RecalculateAmounts(x);
      }
    }

    method HandleCheckboxChange(checked: bool)
      modifies this`formData
      ensures formData == old(formData).(sendConfirmation := checked)
    {
      formData := formData.(sendConfirmation := checked);
    }

    /** The status select. */
    method SetStatus(value: string)
      modifies this`formData
      ensures formData == old(formData).(status := value)
    {
      formData := formData.(status := value);
    }

    /** The payment-status select. */
    method SetPaymentStatus(value: string)
      modifies this`formData
      ensures formData == old(formData).(payment_status := value)
    {
      formData := formData.(payment_status := value);
    }

    /** `handleRoomChange(value)`: the id, then the room's details, then a
      recalculation at the room's rate. */
    method HandleRoomChange(value: string)
      modifies this`formData
      ensures formData == RoomChanged(old(formData), rooms, value)
    {
      formData := formData.(room_id := value);
      var i := IndexOfKey(rooms, RoomId, value);
      if i >= 0 {
        var room := rooms[i];
        formData := formData.(roomNumber := room.number, property := room.property.GetOr(""),
                              base_rate := NumberOr(room.base_rate, formData.base_rate));
        RecalculateAmounts(room.base_rate);
      }
    }

    /** The room sync effect. */
    method SyncRoomDetails()
      modifies this`formData
      ensures formData == Synced(old(formData), rooms)
    {
      if |rooms| > 0 && formData.room_id != "" {
        var i := IndexOfKey(rooms, RoomId, formData.room_id);
        if i >= 0 {
          var room := rooms[i];
          formData := formData.(roomNumber := room.number, property := room.property.GetOr(""),
                                base_rate := NumberOr(room.base_rate, formData.base_rate));
        }
      }
    }

    /** `handleDateRangeChange(range)`: nothing happens until a start is picked. */
    method HandleDateRangeChange(range: DateRange)
      modifies this`formData, this`dateRange
      ensures range.from.None? ==> formData == old(formData) && dateRange == old(dateRange)
      ensures range.from.Some? ==>
        dateRange == range && formData == DateRangeApplied(old(formData), range.from.value, range.to)
    {
      if range.from.Some? {
        dateRange := range;
        formData := DateRangeApplied(formData, range.from.value, range.to);
      }
    }
  }
}
