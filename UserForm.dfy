/**
 * The client's user form: the username suggested from a name, and the form's initial values,
 * for a new user (with a generated temporary password) or for a user being edited.
 */
module UserForm {
  import opened Wrappers
  import opened UserService
  import PasswordGenerator

  /** JavaScript's `toLowerCase` on one character, for the letters A to Z. */
  function Lower(c: char): char {
    if 'A' <= c <= 'Z' then (c as int + 32) as char else c
  }

  /** The string in lower case. */
  function LowerAll(s: string): (r: string)
    ensures |r| == |s|
    ensures forall i :: 0 <= i < |s| ==> r[i] == Lower(s[i])
  {
    if s == [] then [] else LowerAll(s[..|s| - 1]) + [Lower(s[|s| - 1])]
  }

  /** JavaScript's `s.charAt(i)`: the character at `i` as a string, empty outside the string. */
  function CharAt(s: string, i: int): (r: string)
    ensures |r| <= 1
  {
    if 0 <= i < |s| then [s[i]] else ""
  }

  /** The username suggested for a name: up to six characters of the last name, then the first and last character of the first name, in lower case. */
  function GenerateUsernameFromName(firstname: string, lastname: string): (r: string)
  {
    var charsFromLastname := lastname[..if |lastname| < 6 then |lastname| else 6];
    var charsFromFirstname := CharAt(firstname, 0) + CharAt(firstname, |firstname| - 1);
    LowerAll(charsFromLastname + charsFromFirstname)
  }

  /**
   * The suggested username has at most eight characters, none an upper-case letter: the first six
   * (or fewer) characters of the last name, then, unless the first name is empty, its first and its
   * last character.
   */
  lemma UsernameShape(firstname: string, lastname: string)
    ensures var r := GenerateUsernameFromName(firstname, lastname);
      var n := if |lastname| < 6 then |lastname| else 6;
      |r| <= 8 &&
      |r| == n + (if firstname == "" then 0 else 2) &&
      (forall i :: 0 <= i < n ==> r[i] == Lower(lastname[i])) &&
      (firstname != "" ==> r[n] == Lower(firstname[0]) && r[n + 1] == Lower(firstname[|firstname| - 1])) &&
      forall i :: 0 <= i < |r| ==> !('A' <= r[i] <= 'Z')
  {
    var n := if |lastname| < 6 then |lastname| else 6;
    var s := lastname[..n] + CharAt(firstname, 0) + CharAt(firstname, |firstname| - 1);
    assert forall i :: 0 <= i < n ==> s[i] == lastname[i];
    if firstname != "" {
      assert s[n] == firstname[0] && s[n + 1] == firstname[|firstname| - 1];
    }
  }

  /** A string in lower case stays as it is when lowered again, so a suggested username is already lower case. */
  lemma LowerAllIdempotent(s: string)
    ensures LowerAll(LowerAll(s)) == LowerAll(s)
  {
    assert forall i :: 0 <= i < |s| ==> Lower(Lower(s[i])) == Lower(s[i]);
  }

  /** The options of a temporary password: 16 characters, with numbers, without similar characters, strict. */
  const TemporaryPasswordOptions := PasswordGenerator.PartialOptions(Some(16), None, None, Some(true), None, Some(true), Some(true))

  /** A generator for temporary passwords is always created: three classes fit in 16 characters and the pool is not empty. */
  lemma TemporaryPasswordOptionsAccepted(chars: PasswordGenerator.Characters)
    requires chars.Valid()
    ensures var o := PasswordGenerator.GenerateOptions(TemporaryPasswordOptions);
      o.strict && o.length == 16 && PasswordGenerator.ClassCount(o) == 3 &&
      PasswordGenerator.AssertStrictMatchesLengthAsWritten(o).Ok? && PasswordGenerator.GeneratePool(o, chars).Ok?
  {
    PasswordGenerator.EmptyPoolIffNoClass(PasswordGenerator.GenerateOptions(TemporaryPasswordOptions), chars);
  }

  /** A tutorial as a user lists it. */
  datatype TutorialRef = TutorialRef(id: string, slot: string)

  /** The user the form edits, as the client knows it. */
  datatype FormUser = FormUser(
    firstname: string,
    lastname: string,
    roles: seq<Role>,
    tutorials: seq<TutorialRef>,
    tutorialsToCorrect: seq<TutorialRef>,
    username: string,
    email: string)

  datatype UserFormState = UserFormState(
    firstname: string,
    lastname: string,
    roles: seq<Role>,
    tutorials: seq<string>,
    tutorialsToCorrect: seq<string>,
    email: string,
    username: string,
    password: string)

  function Ids(tutorials: seq<TutorialRef>): (r: seq<string>)
    ensures |r| == |tutorials|
    ensures forall i :: 0 <= i < |r| ==> r[i] == tutorials[i].id
  {
    if tutorials == [] then [] else Ids(tutorials[..|tutorials| - 1]) + [tutorials[|tutorials| - 1].id]
  }

  /**
   * The initial values of the form. A new user starts empty with the TUTOR role and the generated
   * temporary password; a user being edited starts with its own data, its tutorials by id, and an
   * empty password.
   */
  function GetInitialFormState(user: Option<FormUser>, temporaryPassword: string): (r: UserFormState)
    ensures user.None? ==> r == UserFormState("", "", [Tutor], [], [], "", "", temporaryPassword)
    ensures user.Some? ==> (
      r.password == "" && r.roles == user.value.roles &&
      r.firstname == user.value.firstname && r.lastname == user.value.lastname &&
      r.username == user.value.username && r.email == user.value.email)
    ensures user.Some? ==> (
      |r.tutorials| == |user.value.tutorials| &&
      forall i :: 0 <= i < |r.tutorials| ==> r.tutorials[i] == user.value.tutorials[i].id)
    ensures user.Some? ==> (
      |r.tutorialsToCorrect| == |user.value.tutorialsToCorrect| &&
      forall i :: 0 <= i < |r.tutorialsToCorrect| ==> r.tutorialsToCorrect[i] == user.value.tutorialsToCorrect[i].id)
  {
    match user
    case None => UserFormState("", "", [Tutor], [], [], "", "", temporaryPassword)
    case Some(u) => UserFormState(u.firstname, u.lastname, u.roles, Ids(u.tutorials), Ids(u.tutorialsToCorrect), u.email, u.username, "")
  }
}
