/** The owner's booking page: the actions each row's menu offers, the status
    label and colour, and the delete-confirmation dialog, whose three pieces
    of state the handlers update one step at a time. */
module OwnerBookings {
  import opened Wrappers
  import opened JsStrings
  import opened BookingTypes
  import opened BookingList
  import opened Ui

  /** A row of the owner's fixed booking list. */
  datatype OwnerBooking = OwnerBooking(
    id: string,
    guest_name: string,
    room_number: string,
    property: string,
    check_in: string,
    check_out: string,
    status: string,
    amount: real)

  /** The page's own list; no handler ever changes it. */
  const SampleBookings: seq<OwnerBooking> := [
    OwnerBooking("1", "John Smith", "101", "Beachfront Villa", "2025-04-10T14:00:00", "2025-04-15T10:00:00", "confirmed", 1250.0),
    OwnerBooking("2", "Emma Johnson", "205", "Mountain View Lodge", "2025-04-12T15:00:00", "2025-04-14T11:00:00", "confirmed", 450.0),
    OwnerBooking("3", "Michael Brown", "103", "Beachfront Villa", "2025-04-20T14:00:00", "2025-04-25T10:00:00", "pending", 1350.0),
    OwnerBooking("4", "Sarah Davis", "302", "Downtown Heights", "2025-05-01T15:00:00", "2025-05-03T11:00:00", "confirmed", 390.0),
    OwnerBooking("5", "Robert Wilson", "104", "Beachfront Villa", "2025-05-10T14:00:00", "2025-05-15T10:00:00", "cancelled", 1250.0)
  ]

  /** `statusColors[status]`: five statuses have a colour; for any other
      status (including "no_show") the badge gets no class at all. */
  function StatusColour(status: string): (c: Option<BadgeColour>)
    ensures c.None? <==> status !in {"confirmed", "pending", "cancelled", "checked_in", "checked_out"}
  {
    match status
    case "confirmed" => Some(Green)
    case "pending" => Some(Yellow)
    case "cancelled" => Some(Red)
    case "checked_in" => Some(Blue)
    case "checked_out" => Some(Gray)
    case _ => None
  }

  /** The owner page colours a status as the staff list does, except that a
      checked-out stay is gray here and purple there. */
  lemma StatusColourAgreesWithList(st: BookingStatus)
    ensures st == NoShow <==> StatusColour(StatusName(st)).None?
    ensures st != NoShow && st != CheckedOut ==> StatusColour(StatusName(st)) == Some(StatusBadge(StatusName(st)).colour)
    ensures StatusColour("checked_out") == Some(Gray) && StatusBadge("checked_out").colour == Purple
  {
  }

  /** The badge text: the status with its first character upper-cased. */
  function StatusLabel(status: string): (text: string)
    ensures |text| == |status|
    ensures status != [] ==> text[0] == ToUpperChar(status[0]) && text[1..] == status[1..]
  {
    if status == [] then [] else [ToUpperChar(status[0])] + status[1..]
  }

  predicate LowerSnake(s: string) {
    forall i :: 0 <= i < |s| ==> 'a' <= s[i] <= 'z' || s[i] == '_'
  }

  /** Lower-casing the label of a lower-case name gives the name back. */
  lemma StatusLabelLowerRoundTrip(s: string)
    requires LowerSnake(s)
    ensures ToLower(StatusLabel(s)) == s
  {
    var t := StatusLabel(s);
    forall i | 0 <= i < |s|
      ensures ToLower(t)[i] == s[i]
    {
      if i == 0 {
        if 'a' <= s[0] <= 'z' {
          assert ToUpperChar(s[0]) as int == s[0] as int - 32;
        }
      } else {
        assert t[i] == t[1..][i - 1] == s[1..][i - 1];
      }
    }
  }

  /** Every status name is lower snake case, so distinct statuses get
      distinct labels. */
  lemma StatusLabelInjective(a: BookingStatus, b: BookingStatus)
    requires StatusLabel(StatusName(a)) == StatusLabel(StatusName(b))
    ensures a == b
  {
    StatusNamesLowerSnake(a);
    StatusNamesLowerSnake(b);
    StatusLabelLowerRoundTrip(StatusName(a));
    StatusLabelLowerRoundTrip(StatusName(b));
    StatusNameInjective(a, b);
  }

  lemma StatusNamesLowerSnake(st: BookingStatus)
    ensures LowerSnake(StatusName(st))
  {
    var s := StatusName(st);
    match st
    case Pending => assert s == ['p', 'e', 'n', 'd', 'i', 'n', 'g'];
    case Confirmed => assert s == ['c', 'o', 'n', 'f', 'i', 'r', 'm', 'e', 'd'];
    case CheckedIn => assert s == ['c', 'h', 'e', 'c', 'k', 'e', 'd', '_', 'i', 'n'];
    case CheckedOut => assert s == ['c', 'h', 'e', 'c', 'k', 'e', 'd', '_', 'o', 'u', 't'];
    case Cancelled => assert s == ['c', 'a', 'n', 'c', 'e', 'l', 'l', 'e', 'd'];
    case NoShow => assert s == ['n', 'o', '_', 's', 'h', 'o', 'w'];
  }

  /** The items of a row's menu. */
  datatype OwnerAction = ViewDetails | CheckInGuest | CheckOutGuest | UpdatePayment | ExtendDuration | DeleteBooking

  /** The items shown for a booking in the given status. */
  function OwnerActions(status: string): (acts: set<OwnerAction>)
    ensures ViewDetails in acts && DeleteBooking in acts
    ensures CheckInGuest in acts <==> status == "confirmed"
    ensures CheckOutGuest in acts <==> status == "checked_in"
    ensures UpdatePayment in acts <==> status == "confirmed" || status == "pending"
    ensures ExtendDuration in acts <==> UpdatePayment in acts
  {
    {ViewDetails, DeleteBooking}
    + (if status == "confirmed" then {CheckInGuest} else {})
    + (if status == "checked_in" then {CheckOutGuest} else {})
    + (if status in ["confirmed", "pending"] then {UpdatePayment, ExtendDuration} else {})
  }

  /** The owner and staff menus agree: check-in and check-out are offered in
      the same statuses, and payment and extension exactly where the staff
      menu offers cancelling. */
  lemma OwnerActionsMatchStaff(status: string)
    ensures CheckInGuest in OwnerActions(status) <==> CheckIn in StaffActions(status)
    ensures CheckOutGuest in OwnerActions(status) <==> CheckOut in StaffActions(status)
    ensures UpdatePayment in OwnerActions(status) <==> CancelBooking in StaffActions(status)
  {
  }

  /** A finished or cancelled stay offers only viewing and deleting. */
  lemma OwnerActionsClosedStay(status: string)
    requires status in {"checked_out", "cancelled", "no_show"}
    ensures OwnerActions(status) == {ViewDetails, DeleteBooking}
  {
  }

  /** `${x}` for the dialog's target: a missing target prints as "null". */
  function IdText(target: Option<string>): (s: string)
    ensures target.Some? ==> s == target.value
  {
    match target
    case Some(id) => id
    case None => "null"
  }

  const ConfirmFirst: Toast := Toast("Error", "Please confirm by checking the box.", true)

  function Deleted(target: Option<string>): (t: Toast)
    ensures !t.destructive
  {
    Toast("Booking deleted", "Booking #" + IdText(target) + " has been deleted.", false)
  }

  /** The toasts of the other menu items, which change nothing else. */
  function ActionToast(a: OwnerAction, id: string): (t: Option<Toast>)
    ensures t.None? <==> a == ViewDetails || a == DeleteBooking
    ensures t.Some? ==> Contains(t.value.description, "#" + id) && !t.value.destructive
  {
    var (title, before, after) := match a
      case CheckInGuest => ("Guest checked in", "Guest for booking #", " has been checked in.")
      case CheckOutGuest => ("Guest checked out", "Guest for booking #", " has been checked out.")
      case UpdatePayment => ("Update Payment", "Redirecting to payment update for booking #", ".")
      case ExtendDuration => ("Extend Booking", "Redirecting to booking extension for booking #", ".")
      case _ => ("", "#", "");
    if a == ViewDetails || a == DeleteBooking then None
    else
      MentionsTarget(before[..|before| - 1], id, after);
      assert before[..|before| - 1] + "#" == before;
      Some(Toast(title, before + id + after, false))
  }

  /** A text built as `pre#id post` mentions `#id`. */
  lemma MentionsTarget(pre: string, id: string, post: string)
    ensures Contains(pre + "#" + id + post, "#" + id)
  {
    var hay := pre + "#" + id + post;
    assert hay[|pre|..|pre| + |"#" + id|] == "#" + id;
    assert OccursAt(hay, "#" + id, |pre|);
    ContainsIff(hay, "#" + id);
  }

  /** The dialog's state: whether it is open, the booking it is about, and
      whether the confirmation box is ticked. */
  datatype DialogState = DialogState(isOpen: bool, bookingToDelete: Option<string>, confirmDelete: bool)

  const Closed: DialogState := DialogState(false, None, false)

  /** An open dialog always knows which booking it is about. */
  predicate Valid(s: DialogState) {
    s.isOpen ==> s.bookingToDelete.Some?
  }

  /** `handleDeleteBooking(id)`: target the booking, open, untick the box. */
  function Opened(s: DialogState, id: string): (r: DialogState)
    ensures Valid(r) && r.isOpen && r.bookingToDelete == Some(id) && !r.confirmDelete
  {
    DialogState(true, Some(id), false)
  }

  /** The checkbox. */
  function Ticked(s: DialogState, checked: bool): (r: DialogState)
    ensures Valid(s) ==> Valid(r)
    ensures r.confirmDelete == checked && r.isOpen == s.isOpen && r.bookingToDelete == s.bookingToDelete
  {
    s.(confirmDelete := checked)
  }

  /** The Cancel button, Escape or a click outside: the dialog closes and
      the target and tick are kept. */
  function Dismissed(s: DialogState): (r: DialogState)
    ensures Valid(r) && !r.isOpen
    ensures r.bookingToDelete == s.bookingToDelete && r.confirmDelete == s.confirmDelete
  {
    s.(isOpen := false)
  }

  /** `confirmDeleteBooking`: without the tick only the error toast; with
      it the deletion toast, and the dialog closes and forgets its target. */
  function ConfirmOutcome(s: DialogState): (r: (DialogState, Toast))
    ensures Valid(s) ==> Valid(r.0)
    ensures r.1.destructive <==> !s.confirmDelete
    ensures !s.confirmDelete ==> r.0 == s
    ensures s.confirmDelete ==> r.0 == Closed
  {
    if !s.confirmDelete then (s, ConfirmFirst)
    else (Closed, Deleted(s.bookingToDelete))
  }

  /** Right after the dialog opens, Delete is refused until the box is
      ticked; once ticked, it deletes the booking the dialog was opened for. */
  lemma DeleteNeedsTick(s: DialogState, id: string)
    ensures ConfirmOutcome(Opened(s, id)) == (Opened(s, id), ConfirmFirst)
    ensures ConfirmOutcome(Ticked(Opened(s, id), true)) == (Closed, Deleted(Some(id)))
    ensures Contains(ConfirmOutcome(Ticked(Opened(s, id), true)).1.description, "#" + id)
  {
    MentionsTarget("Booking ", id, " has been deleted.");
    assert "Booking #" + id + " has been deleted." == "Booking " + "#" + id + " has been deleted.";
  }

  /** A tick left over from an earlier, dismissed dialog does not carry
      over: opening for another booking asks again. */
  lemma StaleTickCleared(s: DialogState, id: string)
    ensures ConfirmOutcome(Opened(Dismissed(Ticked(s, true)), id)).1 == ConfirmFirst
  {
  }

  /** In a valid, open dialog the deletion toast names a real booking id,
      never "null"; a second Delete after a deletion is refused. */
  lemma DeletedNamesTarget(s: DialogState)
    requires Valid(s) && s.isOpen && s.confirmDelete
    ensures ConfirmOutcome(s).1 == Deleted(Some(s.bookingToDelete.value))
    ensures ConfirmOutcome(ConfirmOutcome(s).0).1 == ConfirmFirst
  {
  }

  /** The page: its fixed list and the dialog's three state variables. */
  class OwnerBookingsPage {
    const bookings: seq<OwnerBooking>
    var isDeleteDialogOpen: bool
    var bookingToDelete: Option<string>
    var confirmDelete: bool

    function State(): DialogState
      reads this
    {
      DialogState(isDeleteDialogOpen, bookingToDelete, confirmDelete)
    }

    constructor()
      ensures bookings == SampleBookings && State() == Closed
    {
      bookings := SampleBookings;
      isDeleteDialogOpen := false;
      bookingToDelete := None;
      confirmDelete := false;
    }

    method HandleDeleteBooking(id: string)
      modifies this
      ensures State() == Opened(old(State()), id)
    {
      bookingToDelete := Some(id);
      isDeleteDialogOpen := true;
      confirmDelete := false;
    }

    method SetConfirmDelete(checked: bool)
      modifies this`confirmDelete
      ensures State() == Ticked(old(State()), checked)
    {
      confirmDelete := checked;
    }

    method Dismiss()
      modifies this`isDeleteDialogOpen
      ensures State() == Dismissed(old(State()))
    {
      isDeleteDialogOpen := false;
    }

    method ConfirmDeleteBooking() returns (toast: Toast)
      modifies this
      ensures (State(), toast) == ConfirmOutcome(old(State()))
    {
      if !confirmDelete {
        toast := ConfirmFirst;
        return;
      }
      toast := Deleted(bookingToDelete);
      isDeleteDialogOpen := false;
      bookingToDelete := None;
      confirmDelete := false;
    }
  }
}
