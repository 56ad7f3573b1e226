/** The staff user creation page: the form with its role default, the
    role badge of the preview, and the submission, which checks the
    password before signing the user up. */
module UserAdd {
  import opened Wrappers
  import opened JsStrings
  import opened Ui
  import opened AccountForms

  datatype UserForm = UserForm(
    name: string,
    email: string,
    role: string,
    password: string,
    confirmPassword: string,
    sendInvite: bool)

  /** A new user is an agent and gets an invitation unless told otherwise. */
  const InitialUserForm: UserForm := UserForm("", "", "agent", "", "", true)

  /** The text inputs, by their `name` attribute. */
  datatype UserTextField = Name | Email | Password | ConfirmPassword

  function TextValue(f: UserForm, field: UserTextField): string {
    match field
    case Name => f.name
    case Email => f.email
    case Password => f.password
    case ConfirmPassword => f.confirmPassword
  }

  /** `handleInputChange`: the named input takes the value; every other
      input, the role and the invitation box keep theirs. */
  function WithText(f: UserForm, field: UserTextField, value: string): (g: UserForm)
    ensures TextValue(g, field) == value
    ensures forall other :: other != field ==> TextValue(g, other) == TextValue(f, other)
    ensures g.role == f.role && g.sendInvite == f.sendInvite
  {
    match field
    case Name => f.(name := value)
    case Email => f.(email := value)
    case Password => f.(password := value)
    case ConfirmPassword => f.(confirmPassword := value)
  }

  /** The preview's role badge: none for an empty role, "Admin" for the
      admin role and "Agent" for every other role. */
  function RoleBadge(role: string): (text: Option<string>)
    ensures text.None? <==> role == ""
    ensures text == Some("Admin") <==> role == "admin"
    ensures text.Some? ==> text.value in {"Admin", "Agent"}
  {
    if role == "" then None
    else if role == "admin" then Some("Admin")
    else Some("Agent")
  }

  /** The new form shows the "Agent" badge, and so does any role that is
      not exactly "admin", including "Admin" itself. */
  lemma RoleBadgeDefaults()
    ensures RoleBadge(InitialUserForm.role) == Some("Agent")
    ensures RoleBadge("Admin") == Some("Agent")
  {
  }

  const InvitationSentence: string := " An invitation email has been sent."

  /** The success message. */
  function AddedMessage(name: string, sendInvite: bool): (m: string)
    ensures |m| > |name| && m[..|name|] == name
  {
    name + " has been added successfully." + (if sendInvite then InvitationSentence else "")
  }

  /** The message ends with the invitation sentence exactly when an
      invitation was asked for. */
  lemma AddedMessageInvitation(name: string, sendInvite: bool)
    ensures EndsWith(AddedMessage(name, sendInvite), InvitationSentence) <==> sendInvite
  {
    var m := AddedMessage(name, sendInvite);
    if sendInvite {
      assert m[|m| - |InvitationSentence|..] == InvitationSentence;
    } else if |InvitationSentence| <= |m| {
      assert m[|m| - 2] == 'y';
      assert m[|m| - |InvitationSentence|..][|InvitationSentence| - 2] == m[|m| - 2];
    }
  }

  /** The page's state. */
  class UserAddPage {
    var formData: UserForm
    var isSubmitting: bool

    constructor()
      ensures formData == InitialUserForm && !isSubmitting
    {
      formData := InitialUserForm;
      isSubmitting := false;
    }

    method HandleInputChange(field: UserTextField, value: string)
      modifies this`formData
      ensures formData == WithText(old(formData), field, value)
    {
      formData := WithText(formData, field, value);
    }

    method HandleRoleChange(value: string)
      modifies this`formData
      ensures formData == old(formData).(role := value)
    {
      formData := formData.(role := value);
    }

    method HandleCheckboxChange(checked: bool)
      modifies this`formData
      ensures formData == old(formData).(sendInvite := checked)
    {
      formData := formData.(sendInvite := checked);
    }

    /** `handleSubmit`, given what the sign-up call does. A refused password
        returns before the busy flag is set or sign-up is called; a failed
        sign-up only clears the flag; on success the flag stays set while
        the page moves to the user list. */
    method HandleSubmit(signup: SignupResult) returns (outcome: SubmitOutcome, request: Option<SignupRequest>)
      modifies this`isSubmitting
      ensures var check := CheckPasswords(formData.password, formData.confirmPassword);
        (outcome.Rejected? <==> check != PasswordOk)
        && (outcome.Rejected? ==> outcome.check == check && PasswordToast(check) == Some(outcome.toast)
                                  && isSubmitting == old(isSubmitting))
        && (outcome.Failed? <==> check == PasswordOk && signup.SignupError?)
        && (outcome.Failed? ==> outcome.errorToast.None? && !isSubmitting)
        && (outcome.Added? ==> outcome.navigateTo == "/users" && isSubmitting
                               && outcome.toast == Toast("User Added", AddedMessage(formData.name, formData.sendInvite), false))
      ensures request.None? <==> outcome.Rejected?
      ensures request.Some? ==> request.value == SignupRequest(formData.email, formData.password, formData.name, formData.role)
    {
      var check := CheckPasswords(formData.password, formData.confirmPassword);
      if check != PasswordOk {
        return Rejected(check, PasswordToast(check).value), None;
      }
      isSubmitting := true;
      request := Some(SignupRequest(formData.email, formData.password, formData.name, formData.role));
      if signup.SignupError? {
        isSubmitting := false;
        return Failed(None), request;
      }
      outcome := Added(Toast("User Added", AddedMessage(formData.name, formData.sendInvite), false), "/users");
    }
  }
}
