/** The account menu in the header: a login button for visitors; for a
    signed-in user an avatar with two-letter initials, the e-mail, one badge
    per role, a link to the user's own submissions, a link to the moderation
    page for staff and higher, and a sign-out item. */
module UserMenu {
  import opened Util
  import opened Auth
  import opened Text

  /** `roleLabels`. */
  function RoleLabel(r: Role): string {
    match r
    case Owner => "Owner"
    case Admin => "Admin"
    case Staff => "Staff"
    case Member => "Membro"
  }

  /** Different roles get different badge labels. */
  lemma RoleLabelsDistinct(r: Role, s: Role)
    ensures RoleLabel(r) == RoleLabel(s) ==> r == s
  {
  }

  /** `roles[0] || "member"`. */
  function PrimaryRole(roles: seq<Role>): (r: Role)
    ensures roles != [] ==> r == roles[0]
    ensures roles == [] ==> r == Member
  {
    if roles != [] then roles[0] else Member
  }

  /** `user.email?.slice(0, 2).toUpperCase() || "U"`. */
  function Initials(email: Option<string>): (r: string)
    ensures |r| <= 2 && r != ""
    ensures email.None? || email.value == "" ==> r == "U"
    ensures email.Some? && email.value != "" ==>
      |r| == (if |email.value| < 2 then |email.value| else 2) &&
      forall i :: 0 <= i < |r| ==> r[i] == UpperChar(email.value[i])
  {
    if email.None? then "U"
    else
      var prefix := if |email.value| < 2 then email.value else email.value[..2];
      var up := Upper(prefix);
      if up == "" then "U" else up
  }

  datatype MenuItem =
    | Link(text: string, target: string)
    | SignOut(text: string)

  datatype MenuView =
    | LoginButton(text: string, target: string)
    | AccountMenu(initials: string, email: Option<string>, badges: seq<string>, items: seq<MenuItem>)

  const MySubmissionsLink: MenuItem := Link("Minhas Submissões", "/my-submissions")
  const AdminPanelLink: MenuItem := Link("Painel Admin", "/admin")

  /** What the component renders. */
  function Render(user: Option<User>, roles: seq<Role>, isStaffOrHigher: bool): MenuView {
    if user.None? then LoginButton("Entrar", "/auth")
    else
      AccountMenu(
        Initials(user.value.email),
        user.value.email,
        MapSeq(roles, RoleLabel),
        [MySubmissionsLink] + (if isStaffOrHigher then [AdminPanelLink] else []) + [SignOut("Sair")])
  }

  /** A visitor sees the login button only. */
  lemma RenderSignedOut(roles: seq<Role>, isStaffOrHigher: bool)
    ensures Render(None, roles, isStaffOrHigher) == LoginButton("Entrar", "/auth")
  {
  }

  /** For a signed-in user: the admin link is present exactly for staff and
      higher, the own-submissions link always is, and there is one badge per
      role, in the order of the roles. */
  lemma RenderSignedIn(user: User, roles: seq<Role>, isStaffOrHigher: bool)
    ensures Render(Some(user), roles, isStaffOrHigher).AccountMenu?
    ensures AdminPanelLink in Render(Some(user), roles, isStaffOrHigher).items <==> isStaffOrHigher
    ensures MySubmissionsLink in Render(Some(user), roles, isStaffOrHigher).items
    ensures |Render(Some(user), roles, isStaffOrHigher).badges| == |roles|
    ensures forall i :: 0 <= i < |roles| ==> Render(Some(user), roles, isStaffOrHigher).badges[i] == RoleLabel(roles[i])
  {
    var items := Render(Some(user), roles, isStaffOrHigher).items;
    if isStaffOrHigher {
      assert items[1] == AdminPanelLink;
    } else {
      assert items == [MySubmissionsLink, SignOut("Sair")];
    }
  }
}
