/** The avatar initial and display name of `screens/ProfileScreen.js`, both
    derived from the signed-in user's email. A missing email is the empty
    string here, as `email || ""` makes it. */
module ProfileScreen {
  import opened Common

  /** `getInitials(email)` */
  function Initials(email: string): (r: string)
    ensures email == "" ==> r == "U"
    ensures email != "" && BeforeAt(email) == "" ==> r == ""
    ensures email != "" && BeforeAt(email) != "" ==> r == [UpperChar(email[0])]
    ensures |r| <= 1
  {
    if email == "" then "U"
    else
      var name := BeforeAt(email);
      if name == "" then "" else [UpperChar(name[0])]
  }

  /** The display name: the local part, or "User" when it is empty, with its
      first character upper-cased. */
  function DisplayName(email: string): (r: string)
    ensures r != ""
    ensures BeforeAt(email) == "" ==> r == "User"
    ensures BeforeAt(email) != "" ==>
              |r| == |BeforeAt(email)| && r[0] == UpperChar(email[0]) && r[1..] == BeforeAt(email)[1..]
  {
    Capitalize(OrDefault(BeforeAt(email), "User"))
  }

  datatype Profile = Profile(userEmail: string, userName: string)

  /** The state the mount effect leaves: both fields stay "" without a user. */
  function ProfileFor(currentUserEmail: Option<string>): (p: Profile)
    ensures currentUserEmail.None? ==> p == Profile("", "")
    ensures currentUserEmail.Some? ==> p.userEmail == currentUserEmail.value && p.userName != ""
  {
    match currentUserEmail
    case None => Profile("", "")
    case Some(email) => Profile(email, DisplayName(email))
  }

  /** The avatar shows the first letter of the display name, except for an
      email whose local part is empty but which is itself non-empty ("@x"),
      where the avatar is blank while the name is "User". */
  lemma {:induction false} InitialMatchesName(email: string)
    ensures (email == "" || BeforeAt(email) != "") ==> Initials(email) == [DisplayName(email)[0]]
    ensures email != "" && BeforeAt(email) == "" ==> Initials(email) == "" && DisplayName(email) == "User"
  {
    if email == "" {
      assert BeforeAt(email) == "";
      assert DisplayName(email) == "User";
    }
  }

  /** What the profile card shows for a signed-in user. */
  lemma ShownForUser(email: string)
    ensures var p := ProfileFor(Some(email));
            p.userName != "" && |Initials(p.userEmail)| <= 1 &&
            (BeforeAt(email) != "" ==> Initials(p.userEmail) == [p.userName[0]])
  {
    InitialMatchesName(email);
  }
}
