/** What the owner and user creation pages share: the avatar initials, the
    password checks that run before any account is created, and the shape of
    a submission's outcome. */
module AccountForms {
  import opened Wrappers
  import opened JsStrings
  import opened Ui

  /** `part[0]` for each part, an empty part giving nothing, concatenated. */
  function FirstChars(parts: seq<string>): (r: string)
    ensures |r| <= |parts|
  {
    if parts == [] then ""
    else (if parts[0] == [] then "" else [parts[0][0]]) + FirstChars(parts[1..])
  }

  /** `getInitials`: empty for an empty name, otherwise the first character
      of each space-separated part, upper-cased. */
  function Initials(name: string): (r: string)
    ensures name == "" ==> r == ""
    ensures |r| <= |Split(name, ' ')|
    ensures forall i :: 0 <= i < |r| ==> !('a' <= r[i] <= 'z')
  {
    if name == "" then "" else ToUpper(FirstChars(Split(name, ' ')))
  }

  /** The first letter of each word. */
  function Heads(words: seq<string>): (r: string)
    requires forall i :: 0 <= i < |words| ==> words[i] != []
    ensures |r| == |words| && forall i :: 0 <= i < |words| ==> r[i] == words[i][0]
  {
    seq(|words|, i requires 0 <= i < |words| => words[i][0])
  }

  lemma {:induction false} FirstCharsOfWords(words: seq<string>)
    requires forall i :: 0 <= i < |words| ==> words[i] != []
    ensures FirstChars(words) == Heads(words)
  {
    if words != [] {
      FirstCharsOfWords(words[1..]);
      assert Heads(words) == [words[0][0]] + Heads(words[1..]);
    }
  }

  /** A name made of words joined by single spaces has the upper-cased
      first letter of each word as its initials, one per word. */
  lemma InitialsOfWords(words: seq<string>)
    requires |words| >= 1
    requires forall i :: 0 <= i < |words| ==> words[i] != [] && ' ' !in words[i]
    ensures Initials(Join(words, ' ')) == ToUpper(Heads(words))
    ensures |Initials(Join(words, ' '))| == |words|
  {
    SplitJoin(words, ' ');
    FirstCharsOfWords(words);
    var name := Join(words, ' ');
    assert |words| > 1 ==> name == words[0] + [' '] + Join(words[1..], ' ');
    assert name[..|words[0]|] == words[0];
  }

  /** A name of spaces only has no initials, and a doubled space adds none. */
  lemma InitialsOfSpaces()
    ensures Initials(" ") == ""
    ensures Initials("a  b") == Initials("a b") == "AB"
  {
    assert Split(" ", ' ') == ["", ""];
    assert FirstChars(["", ""]) == "";
    SplitDoubledSpace();
    SplitSingleSpace();
    assert FirstChars(["a", "", "b"]) == "ab" by { assert FirstChars(["b"]) == "b"; }
    assert FirstChars(["a", "b"]) == "ab" by { assert FirstChars(["b"]) == "b"; }
    UpperAb();
  }

  lemma UpperAb()
    ensures ToUpper("ab") == "AB"
  {
    assert ToUpperChar('a') == 'A' && ToUpperChar('b') == 'B';
  }

  lemma SplitDoubledSpace()
    ensures Split("a  b", ' ') == ["a", "", "b"]
  {
    SplitJoin(["a", "", "b"], ' ');
    assert Join(["a", "", "b"], ' ') == "a  b";
  }

  lemma SplitSingleSpace()
    ensures Split("a b", ' ') == ["a", "b"]
  {
    SplitJoin(["a", "b"], ' ');
    assert Join(["a", "b"], ' ') == "a b";
  }

  /** The checks `handleSubmit` makes before creating an account. */
  datatype PasswordCheck = Mismatch | TooShort | PasswordOk

  const MinPasswordLength: nat := 8

  /** A mismatch is reported first, then a password under eight characters. */
  function CheckPasswords(password: string, confirmPassword: string): (r: PasswordCheck)
    ensures r == PasswordOk <==> password == confirmPassword && |password| >= MinPasswordLength
    ensures r == Mismatch <==> password != confirmPassword
    ensures r == TooShort <==> password == confirmPassword && |password| < MinPasswordLength
  {
    if password != confirmPassword then Mismatch
    else if |password| < MinPasswordLength then TooShort
    else PasswordOk
  }

  /** A short password that is also mistyped is reported as the mismatch,
      and fixing the confirmation then reveals that it is too short. */
  lemma MismatchReportedFirst(password: string, confirmPassword: string)
    requires password != confirmPassword && |password| < MinPasswordLength
    ensures CheckPasswords(password, confirmPassword) == Mismatch
    ensures CheckPasswords(password, password) == TooShort
  {
  }

  /** The error shown for a refused password. */
  function PasswordToast(c: PasswordCheck): (t: Option<Toast>)
    ensures t.Some? <==> c != PasswordOk
    ensures t.Some? ==> t.value.destructive
  {
    match c
    case Mismatch => Some(Toast("Passwords don't match", "Please make sure your passwords match.", true))
    case TooShort => Some(Toast("Password too short", "Password must be at least 8 characters long.", true))
    case PasswordOk => None
  }

  /** The arguments of the sign-up call: e-mail, password, name, and the
      role (for staff) or phone number (for owners). */
  datatype SignupRequest = SignupRequest(email: string, password: string, name: string, detail: string)

  /** What the sign-up call did: created the account or threw. */
  datatype SignupResult = SignedUp | SignupError(message: string)

  /** How a submission ended: refused before sign-up, added (and the page
      moves on), or failed in sign-up with an optional error toast. */
  datatype SubmitOutcome =
    | Rejected(check: PasswordCheck, toast: Toast)
    | Added(toast: Toast, navigateTo: string)
    | Failed(errorToast: Option<Toast>)
}
