/** The stay and price rules of the booking form: coercion of form values to
    numbers, the night count, the fixed-rate breakdown of a stay's total, the
    grand total and pending balance, and the split of a guest's full name. */
module BookingPricing {
  import opened Wrappers
  import opened JsStrings
  import opened JsNumbers

  /** `ensureNumber`: a number is kept, a string is read with `parseFloat`
      (NaN becomes 0), anything else is 0. */
  function EnsureNumber(v: JsValue): (x: real)
    ensures v.JsNumber? ==> x == v.n
    ensures v.JsString? && ParseFloat(v.s).Some? ==> x == ParseFloat(v.s).value
    ensures v.JsString? && ParseFloat(v.s).None? ==> x == 0.0
    ensures v.JsOther? ==> x == 0.0
  {
    match v
    case JsNumber(n) => n
    case JsString(s) => ParseFloat(s).GetOr(0.0)
    case JsOther => 0.0
  }

  /** A numeral typed into a number field, possibly followed by junk such as
      a unit, is read as its value. */
  lemma EnsureNumberNumeral(i: int, rest: string)
    requires rest == [] || (!IsDigit(rest[0]) && rest[0] != '.')
    ensures EnsureNumber(JsString(IntToString(i) + rest)) == i as real
  {
    ParseFloatNumeral(i, rest);
  }

  /** Text without any digit (an empty field, "abc") is read as 0. */
  lemma EnsureNumberNoDigit(s: string)
    requires forall i :: 0 <= i < |s| ==> !IsDigit(s[i])
    ensures EnsureNumber(JsString(s)) == 0.0
  {
    ParseFloatNoDigit(s);
  }

  /** A whole number shown in a field and read back is unchanged, and
      coercing an already coerced value changes nothing. */
  lemma EnsureNumberRoundTrip(i: int, v: JsValue)
    ensures EnsureNumber(JsString(NumberText(i as real))) == i as real
    ensures EnsureNumber(JsNumber(EnsureNumber(v))) == EnsureNumber(v)
  {
    ParseNumberText(i);
  }

  /** Milliseconds in a day. */
  const MsPerDay: int := 1000 * 60 * 60 * 24

  function Abs(x: int): (a: nat)
    ensures a == x || a == -x
  {
    if x < 0 then -x else x
  }

  /** `getNumberOfNights`: whole days between the two dates, rounded to the
      nearest day, regardless of their order; 0 when a date is missing. */
  function DisplayNights(checkIn: Option<int>, checkOut: Option<int>): (n: int)
    ensures n >= 0
    ensures checkIn.None? || checkOut.None? ==> n == 0
    ensures checkIn.Some? && checkOut.Some? ==>
      2 * MsPerDay * n - MsPerDay <= 2 * Abs(checkOut.value - checkIn.value) < 2 * MsPerDay * n + MsPerDay
  {
    if checkIn.None? || checkOut.None? then 0
    else RoundDiv(Abs(checkOut.value - checkIn.value), MsPerDay)
  }

  /** Swapping the two dates does not change the count. */
  lemma DisplayNightsSymmetric(a: Option<int>, b: Option<int>)
    ensures DisplayNights(a, b) == DisplayNights(b, a)
  {
    if a.Some? && b.Some? {
      assert Abs(b.value - a.value) == Abs(a.value - b.value);
    }
  }

  /** Check-out `k` whole days from check-in is `|k|` nights, in either direction. */
  lemma DisplayNightsWholeDays(t: int, k: int)
    ensures DisplayNights(Some(t), Some(t + k * MsPerDay)) == Abs(k)
    ensures DisplayNights(Some(t), Some(t)) == 0
  {
    assert Abs(t + k * MsPerDay - t) == Abs(k) * MsPerDay;
    RoundDivUnique(Abs(k) * MsPerDay, MsPerDay, Abs(k));
    RoundDivUnique(0, MsPerDay, 0);
  }

  /** The night count the date picker uses: the same rounding, but of the
      SIGNED difference, so a range picked backwards counts negative nights. */
  function RangeNights(from: int, to: int): (n: int)
    ensures 2 * MsPerDay * n - MsPerDay <= 2 * (to - from) < 2 * MsPerDay * n + MsPerDay
  {
    RoundDiv(to - from, MsPerDay)
  }

  /** For a forward range the two counts agree. */
  lemma RangeNightsForward(from: int, to: int)
    requires from <= to
    ensures RangeNights(from, to) == DisplayNights(Some(from), Some(to))
  {
  }

  /** For a backward range the picker's count is the negated display count,
      except at an exact half day, where `Math.round` rounds both results up. */
  lemma RangeNightsBackward(from: int, to: int)
    requires to < from
    ensures RangeNights(from, to) <= 0
    ensures 2 * (from - to) % (2 * MsPerDay) != MsPerDay ==>
      RangeNights(from, to) == -DisplayNights(Some(from), Some(to))
    ensures 2 * (from - to) % (2 * MsPerDay) == MsPerDay ==>
      RangeNights(from, to) == 1 - DisplayNights(Some(from), Some(to))
  {
    var d := from - to;
    assert Abs(to - from) == d;
    var k := 2 * d / (2 * MsPerDay);
    var r := 2 * d % (2 * MsPerDay);
    assert 2 * d == 2 * MsPerDay * k + r && 0 <= r < 2 * MsPerDay;
    if r < MsPerDay {
      RoundDivUnique(d, MsPerDay, k);
      RoundDivUnique(-d, MsPerDay, -k);
    } else if r == MsPerDay {
      RoundDivUnique(d, MsPerDay, k + 1);
      RoundDivUnique(-d, MsPerDay, -k);
    } else {
      RoundDivUnique(d, MsPerDay, k + 1);
      RoundDivUnique(-d, MsPerDay, -k - 1);
    }
  }

  /** A concrete witness: check-out half a day before check-in shows as one
      night but prices as zero nights; a whole day backwards prices as -1. */
  lemma RangeNightsBackwardExamples(t: int)
    ensures DisplayNights(Some(t + MsPerDay / 2), Some(t)) == 1
    ensures RangeNights(t + MsPerDay / 2, t) == 0
    ensures DisplayNights(Some(t + MsPerDay), Some(t)) == 1
    ensures RangeNights(t + MsPerDay, t) == -1
  {
    RoundDivUnique(MsPerDay / 2, MsPerDay, 1);
    RoundDivUnique(-(MsPerDay / 2), MsPerDay, 0);
    RoundDivUnique(MsPerDay, MsPerDay, 1);
    RoundDivUnique(-MsPerDay, MsPerDay, -1);
  }

  /** The money derived from a stay: its total and how the total is shared. */
  datatype Breakdown = Breakdown(total: real, vat: real, tourismFee: real, commission: real, netToOwner: real)

  /** `recalculateAmounts`' arithmetic: total = rate x nights, then 5% VAT,
      3% tourism fee, 10% commission and the remainder to the owner. */
  function Price(baseRate: real, nights: int): (b: Breakdown)
    ensures b.total == baseRate * nights as real
    ensures b.vat + b.tourismFee + b.commission + b.netToOwner == b.total
    ensures b.netToOwner == 0.82 * b.total
    ensures 20.0 * b.vat == b.total && 10.0 * b.commission == b.total
  {
    var total := baseRate * nights as real;
    var vat := total * 0.05;
    var tourismFee := total * 0.03;
    var commission := total * 0.1;
    Breakdown(total, vat, tourismFee, commission, total - vat - tourismFee - commission)
  }

  /** A non-negative rate over a non-negative stay gives no negative share,
      and the owner's share never exceeds the total. */
  lemma PriceNonNegative(baseRate: real, nights: int)
    requires baseRate >= 0.0 && nights >= 0
    ensures var b := Price(baseRate, nights);
      0.0 <= b.vat && 0.0 <= b.tourismFee && 0.0 <= b.commission && 0.0 <= b.netToOwner <= b.total
  {
    assert baseRate * nights as real >= 0.0;
  }

  /** Pricing two consecutive stays separately gives the same shares as pricing them together. */
  lemma PriceAdditive(baseRate: real, n1: int, n2: int)
    ensures var a := Price(baseRate, n1); var b := Price(baseRate, n2); var c := Price(baseRate, n1 + n2);
      c.total == a.total + b.total && c.vat == a.vat + b.vat && c.netToOwner == a.netToOwner + b.netToOwner
  {
    assert baseRate * (n1 + n2) as real == baseRate * n1 as real + baseRate * n2 as real;
  }

  /** Three nights at 150. */
  lemma PriceExample()
    ensures Price(150.0, 3) == Breakdown(450.0, 22.5, 13.5, 45.0, 369.0)
  {
  }

  /** The grand total shown: the stay plus the security deposit. */
  function GrandTotal(total: real, deposit: real): (g: real)
    ensures g - deposit == total
  {
    total + deposit
  }

  /** The pending amount shown: grand total minus what was paid, not clamped at zero. */
  function PendingAmount(total: real, deposit: real, paid: real): (p: real)
    ensures p == GrandTotal(total, deposit) - paid
    ensures p < 0.0 <==> paid > GrandTotal(total, deposit)
  {
    total + deposit - paid
  }

  /** Overpayment shows as a negative pending amount; exact payment as zero. */
  lemma PendingAmountExamples()
    ensures PendingAmount(450.0, 100.0, 450.0) == 100.0
    ensures PendingAmount(300.0, 100.0, 500.0) == -100.0
    ensures PendingAmount(450.0, 100.0, 550.0) == 0.0
  {
  }

  /** A full guest name split into first and last name. */
  datatype GuestName = GuestName(first: string, last: string)

  /** The edit form's best guess: the first space-separated word is the
      first name, the other words, rejoined with single spaces, the last name. */
  function SplitGuestName(name: string): (g: GuestName)
    ensures ' ' !in g.first
  {
    SplitPartsLackSep(name, ' ');
    var parts := Split(name, ' ');
    if |parts| > 1 then GuestName(parts[0], Join(parts[1..], ' ')) else GuestName(parts[0], "")
  }

  /** Nothing of the name is lost: first name, a space and the last name
      give the name back; a name without a space is all first name. */
  lemma {:induction false} SplitGuestNameRejoins(name: string)
    ensures ' ' in name ==> SplitGuestName(name).first + " " + SplitGuestName(name).last == name
    ensures ' ' !in name ==> SplitGuestName(name) == GuestName(name, "")
  {
    var parts := Split(name, ' ');
    JoinSplit(name, ' ');
    if ' ' !in name {
      SplitWithoutSep(name, ' ');
    } else if |parts| == 1 {
      SplitPartsLackSep(name, ' ');
      assert false;
    }
  }

  /** Splitting `first + " " + last` recovers both parts when the first name
      has no space, whatever spaces the last name has. */
  lemma {:induction false} SplitGuestNameOfJoined(first: string, last: string)
    requires ' ' !in first
    ensures SplitGuestName(first + " " + last) == GuestName(first, last)
  {
    var rest := Split(last, ' ');
    JoinSplit(last, ' ');
    SplitPartsLackSep(last, ' ');
    var parts := [first] + rest;
    assert parts[1..] == rest;
    assert Join(parts, ' ') == first + " " + last;
    SplitJoin(parts, ' ');
  }
}
