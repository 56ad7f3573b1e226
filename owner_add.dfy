/** The owner creation page: the form, the room-selection toggle, and the
    submission, which checks the password, signs the owner up and then
    assigns each selected room to the new owner. */
module OwnerAdd {
  import opened Wrappers
  import opened JsStrings
  import opened Seqs
  import opened Ui
  import opened AccountForms

  datatype OwnerForm = OwnerForm(
    name: string,
    email: string,
    phone: string,
    password: string,
    confirmPassword: string,
    sendInvite: bool,
    selectedRooms: seq<string>)

  const InitialOwnerForm: OwnerForm := OwnerForm("", "", "", "", "", true, [])

  /** The text inputs, by their `name` attribute. */
  datatype OwnerTextField = Name | Email | Phone | Password | ConfirmPassword

  function TextValue(f: OwnerForm, field: OwnerTextField): string {
    match field
    case Name => f.name
    case Email => f.email
    case Phone => f.phone
    case Password => f.password
    case ConfirmPassword => f.confirmPassword
  }

  /** `handleInputChange`: the named input takes the value; every other
      input, the invitation box and the room selection keep theirs. */
  function WithText(f: OwnerForm, field: OwnerTextField, value: string): (g: OwnerForm)
    ensures TextValue(g, field) == value
    ensures forall other :: other != field ==> TextValue(g, other) == TextValue(f, other)
    ensures g.sendInvite == f.sendInvite && g.selectedRooms == f.selectedRooms
  {
    match field
    case Name => f.(name := value)
    case Email => f.(email := value)
    case Phone => f.(phone := value)
    case Password => f.(password := value)
    case ConfirmPassword => f.(confirmPassword := value)
  }

  /** `handleRoomSelection`: a selected room is dropped, any other is added
      at the end. */
  function ToggledRooms(rooms: seq<string>, roomId: string): (r: seq<string>)
    ensures roomId in r <==> roomId !in rooms
    ensures forall x :: x != roomId ==> (x in r <==> x in rooms)
  {
    if roomId in rooms then
      var p := (x: string) => x != roomId;
      forall x | x in rooms && p(x) ensures x in Filter(rooms, p) {
        var i :| 0 <= i < |rooms| && rooms[i] == x;
        FilterKeeps(rooms, p, i);
      }
      Filter(rooms, p)
    else rooms + [roomId]
  }

  /** The selection never holds a room twice. */
  lemma ToggledRoomsNoDup(rooms: seq<string>, roomId: string)
    requires NoDup(rooms)
    ensures NoDup(ToggledRooms(rooms, roomId))
  {
    if roomId in rooms {
      FilterNoDup(rooms, (x: string) => x != roomId);
    }
  }

  /** Ticking and unticking a room that was not selected restores the
      selection. */
  lemma ToggleTwiceAbsent(rooms: seq<string>, roomId: string)
    requires roomId !in rooms
    ensures ToggledRooms(ToggledRooms(rooms, roomId), roomId) == rooms
  {
    var p := (x: string) => x != roomId;
    FilterAppend(rooms, [roomId], p);
    FilterAll(rooms, p);
    assert Filter([roomId], p) == [];
  }

  /** Unticking and ticking a selected room keeps the same rooms but moves
      that room to the end, so the selection comes back unchanged exactly
      when it was already last. */
  lemma ToggleTwicePresent(rooms: seq<string>, roomId: string)
    requires roomId in rooms && NoDup(rooms)
    ensures var r := ToggledRooms(ToggledRooms(rooms, roomId), roomId);
      (forall x :: x in r <==> x in rooms) && r[|r| - 1] == roomId
      && (rooms[|rooms| - 1] == roomId ==> r == rooms)
  {
    if rooms[|rooms| - 1] == roomId {
      var p := (x: string) => x != roomId;
      var front := rooms[..|rooms| - 1];
      assert rooms == front + [roomId];
      assert roomId !in front;
      FilterAppend(front, [roomId], p);
      FilterAll(front, p);
      assert Filter([roomId], p) == [];
    }
  }

  /** A row of the room assignment table. */
  datatype Assignment = Assignment(room_id: string, owner_id: string, assigned_by: Option<string>)

  /** One assignment per selected room, in selection order. */
  function AssignmentRows(rooms: seq<string>, ownerId: string, assignedBy: Option<string>): (rows: seq<Assignment>)
    ensures |rows| == |rooms|
    ensures forall i :: 0 <= i < |rooms| ==> rows[i] == Assignment(rooms[i], ownerId, assignedBy)
  {
    seq(|rooms|, i requires 0 <= i < |rooms| => Assignment(rooms[i], ownerId, assignedBy))
  }

  /** A duplicate-free selection gives duplicate-free assignment rows. */
  lemma AssignmentRowsNoDup(rooms: seq<string>, ownerId: string, assignedBy: Option<string>)
    requires NoDup(rooms)
    ensures NoDup(AssignmentRows(rooms, ownerId, assignedBy))
  {
    var rows := AssignmentRows(rooms, ownerId, assignedBy);
    forall i, j | 0 <= i < j < |rows|
      ensures rows[i] != rows[j]
    {
      assert rows[i].room_id == rooms[i] && rows[j].room_id == rooms[j];
    }
  }

  /** The assignment loop: one insert per selected room, in order. */
  method AssignRooms(rooms: seq<string>, ownerId: string, assignedBy: Option<string>) returns (rows: seq<Assignment>)
    ensures rows == AssignmentRows(rooms, ownerId, assignedBy)
  {
    rows := [];
    var i := 0;
    while i < |rooms|
      invariant 0 <= i <= |rooms|
      invariant |rows| == i
      invariant forall j :: 0 <= j < i ==> rows[j] == Assignment(rooms[j], ownerId, assignedBy)
    {
      rows := rows + [Assignment(rooms[i], ownerId, assignedBy)];
      i := i + 1;
    }
  }

  /** The success message; it counts the selected rooms whether or not any
      row was written. */
  function AddedToast(name: string, roomCount: nat): (t: Toast)
    ensures |t.description| > |name| && t.description[..|name|] == name && !t.destructive
  {
    Toast("Owner Added", name + " has been added successfully with " + NatToString(roomCount) + " assigned rooms.", false)
  }

  function SignupFailedToast(message: string): (t: Toast)
    ensures t.destructive && (message != "" ==> t.description == message)
  {
    Toast("Error adding owner", StringOr(message, "Failed to add owner"), true)
  }

  /** The page's state. */
  class OwnerAddPage {
    var formData: OwnerForm
    var isSubmitting: bool

    predicate Valid()
      reads this
    {
      NoDup(formData.selectedRooms)
    }

    constructor()
      ensures formData == InitialOwnerForm && !isSubmitting && Valid()
    {
      formData := InitialOwnerForm;
      isSubmitting := false;
    }

    method HandleInputChange(field: OwnerTextField, value: string)
      requires Valid()
      modifies this`formData
      ensures formData == WithText(old(formData), field, value) && Valid()
    {
      formData := WithText(formData, field, value);
    }

    method HandleRoomSelection(roomId: string)
      requires Valid()
      modifies this`formData
      ensures formData == old(formData).(selectedRooms := ToggledRooms(old(formData.selectedRooms), roomId))
      ensures Valid()
    {
      ToggledRoomsNoDup(formData.selectedRooms, roomId);
      formData := formData.(selectedRooms := ToggledRooms(formData.selectedRooms, roomId));
    }

    method HandleCheckboxChange(checked: bool)
      requires Valid()
      modifies this`formData
      ensures formData == old(formData).(sendInvite := checked) && Valid()
    {
      formData := formData.(sendInvite := checked);
    }

    /** `handleSubmit`. The sign-up call's result, the id the owner lookup
        finds (if any) and the signed-in user's id are given. A refused
        password returns before anything else happens; a failed sign-up
        clears the busy flag; on success the flag stays set while the page
        moves to the owner list. */
    method HandleSubmit(signup: SignupResult, ownerId: Option<string>, userId: Option<string>)
      returns (outcome: SubmitOutcome, request: Option<SignupRequest>, inserted: seq<Assignment>)
      requires Valid()
      modifies this`isSubmitting
      ensures var check := CheckPasswords(formData.password, formData.confirmPassword);
        (outcome.Rejected? <==> check != PasswordOk)
        && (request.None? <==> outcome.Rejected?)
        && (request.Some? ==> request.value == SignupRequest(formData.email, formData.password, formData.name, formData.phone))
        && (outcome.Rejected? ==> outcome.check == check && PasswordToast(check) == Some(outcome.toast)
                                  && isSubmitting == old(isSubmitting) && inserted == [])
        && (outcome.Failed? <==> check == PasswordOk && signup.SignupError?)
        && (outcome.Failed? ==> outcome.errorToast == Some(SignupFailedToast(signup.message))
                                && !isSubmitting && inserted == [])
        && (outcome.Added? ==> outcome.navigateTo == "/owners" && isSubmitting
                               && outcome.toast == AddedToast(formData.name, |formData.selectedRooms|))
      ensures ownerId.Some? && outcome.Added? ==> inserted == AssignmentRows(formData.selectedRooms, ownerId.value, userId)
      ensures ownerId.None? ==> inserted == []
      ensures NoDup(inserted)
    {
      var check := CheckPasswords(formData.password, formData.confirmPassword);
      if check != PasswordOk {
        return Rejected(check, PasswordToast(check).value), None, [];
      }
      isSubmitting := true;
      request := Some(SignupRequest(formData.email, formData.password, formData.name, formData.phone));
      if signup.SignupError? {
        isSubmitting := false;
        return Failed(Some(SignupFailedToast(signup.message))), request, [];
      }
      inserted := [];
      if ownerId.Some? && |formData.selectedRooms| > 0 {
        inserted := AssignRooms(formData.selectedRooms, ownerId.value, userId);
        AssignmentRowsNoDup(formData.selectedRooms, ownerId.value, userId);
      }
      outcome := Added(AddedToast(formData.name, |formData.selectedRooms|), "/owners");
    }
  }
}
